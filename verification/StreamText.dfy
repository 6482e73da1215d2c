/** Lossy UTF-8 decoding of network chunks, one chunk at a time.

Sequences follow table 3-7 of the Unicode Standard; an ill-formed one is replaced by U+FFFD as a maximal
subpart. Which character a well-formed sequence stands for is a parameter.
 */
module StreamText {
  import opened Sse

  type Octet = n: nat | n < 256

  const REPLACEMENT: char := '\U{FFFD}'

  predicate Continuation(b: Octet) { 0x80 <= b <= 0xBF }

  /** Length of a sequence that starts with `lead`; 0 when none does. */
  function Need(lead: Octet): nat {
    if lead <= 0x7F then 1
    else if 0xC2 <= lead <= 0xDF then 2
    else if 0xE0 <= lead <= 0xEF then 3
    else if 0xF0 <= lead <= 0xF4 then 4
    else 0
  }

  /** Whether `b` may stand at position `i` of a sequence that starts with `lead`. */
  predicate Follows(lead: Octet, i: nat, b: Octet) {
    i < Need(lead) && Continuation(b)
    && (i == 1 ==> (lead == 0xE0 ==> b >= 0xA0) && (lead == 0xED ==> b <= 0x9F)
                   && (lead == 0xF0 ==> b >= 0x90) && (lead == 0xF4 ==> b <= 0x8F))
  }

  /** How far the first sequence reaches, its first `k` bytes being accepted. */
  function Reach(s: seq<Octet>, k: nat): (n: nat)
    requires 1 <= k <= |s|
    ensures k <= n <= |s|
    decreases |s| - k
  {
    if k < |s| && Follows(s[0], k, s[k]) then Reach(s, k + 1) else k
  }

  function Glyph(glyph: seq<Octet> -> char, unit: seq<Octet>): char
    requires unit != []
  {
    if |unit| == Need(unit[0]) then glyph(unit) else REPLACEMENT
  }

  /** `String::from_utf8_lossy`. */
  function Lossy(glyph: seq<Octet> -> char, s: seq<Octet>): string {
    if s == [] then ""
    else
      var n := Reach(s, 1);
      [Glyph(glyph, s[..n])] + Lossy(glyph, s[n..])
  }

  /** The unfinished sequence a text ends in, if any. */
  function Pending(s: seq<Octet>): seq<Octet> {
    if s == [] then []
    else
      var n := Reach(s, 1);
      if n < |s| then Pending(s[n..]) else if n < Need(s[0]) then s else []
  }

  /** The cut between `a` and `b` falls inside a sequence. */
  predicate Splits(a: seq<Octet>, b: seq<Octet>) {
    Pending(a) != [] && b != [] && Follows(Pending(a)[0], |Pending(a)|, b[0])
  }

  /******* One cut *******/

  /** The first sequence of `a` stops where it did, unless it filled `a` and `b` continues it. */
  lemma {:induction false} ReachExtends(a: seq<Octet>, b: seq<Octet>, k: nat)
    requires 1 <= k <= |a|
    requires Reach(a, k) < |a| || b == [] || !Follows(a[0], |a|, b[0])
    ensures Reach(a + b, k) == Reach(a, k)
    decreases |a| - k
  {
    if k < |a| && Follows(a[0], k, a[k]) {
      ReachExtends(a, b, k + 1);
    }
  }

  lemma {:induction false} ReachFills(a: seq<Octet>, b: seq<Octet>, k: nat)
    requires 1 <= k <= |a| && Reach(a, k) == |a|
    ensures Reach(a + b, k) == Reach(a + b, |a|)
    decreases |a| - k
  {
    if k < |a| {
      ReachFills(a, b, k + 1);
    }
  }

  /** With its first sequence unchanged, a longer text decodes alike up to there. */
  lemma FirstUnit(glyph: seq<Octet> -> char, a: seq<Octet>, b: seq<Octet>)
    requires a != [] && Reach(a + b, 1) == Reach(a, 1)
    ensures var n := Reach(a, 1);
            && Lossy(glyph, a) == [Glyph(glyph, a[..n])] + Lossy(glyph, a[n..])
            && Lossy(glyph, a + b) == [Glyph(glyph, a[..n])] + Lossy(glyph, a[n..] + b)
  {
    var n := Reach(a, 1);
    assert (a + b)[..n] == a[..n] && (a + b)[n..] == a[n..] + b;
  }

  lemma ConsConcat(c: char, x: string, y: string)
    ensures [c] + (x + y) == [c] + x + y
  {
  }

  lemma {:induction false} CleanCut(glyph: seq<Octet> -> char, a: seq<Octet>, b: seq<Octet>)
    requires !Splits(a, b)
    ensures Lossy(glyph, a + b) == Lossy(glyph, a) + Lossy(glyph, b)
    decreases |a|
  {
    if a == [] {
      assert a + b == b;
    } else {
      var n := Reach(a, 1);
      ReachExtends(a, b, 1);
      FirstUnit(glyph, a, b);
      assert !Splits(a[n..], b) by {
        assert n == |a| ==> a[n..] == [];
      }
      CleanCut(glyph, a[n..], b);
      ConsConcat(Glyph(glyph, a[..n]), Lossy(glyph, a[n..]), Lossy(glyph, b));
    }
  }

  /** A byte that may continue a sequence never starts one. */
  lemma {:induction false} StrayContinuations(glyph: seq<Octet> -> char, s: seq<Octet>, j: nat)
    requires j <= |s| && forall i :: 0 <= i < j ==> Continuation(s[i])
    ensures |Lossy(glyph, s)| == j + |Lossy(glyph, s[j..])|
    decreases j
  {
    if j == 0 {
      assert s[0..] == s;
    } else {
      assert Reach(s, 1) == 1;
      StrayContinuations(glyph, s[1..], j - 1);
      assert s[1..][j - 1..] == s[j..];
    }
  }

  lemma {:induction false} ReachIsContinued(s: seq<Octet>, k: nat)
    requires 1 <= k <= |s|
    ensures forall i :: k <= i < Reach(s, k) ==> Continuation(s[i])
    decreases |s| - k
  {
    if k < |s| && Follows(s[0], k, s[k]) {
      ReachIsContinued(s, k + 1);
    }
  }

  lemma DirtyUnit(glyph: seq<Octet> -> char, a: seq<Octet>, b: seq<Octet>)
    requires a != [] && b != [] && Reach(a, 1) == |a| && Follows(a[0], |a|, b[0])
    ensures |Lossy(glyph, a + b)| < 1 + |Lossy(glyph, b)|
  {
    var whole := a + b;
    var m := Reach(whole, |a|);
    assert whole[0] == a[0] && whole[|a|] == b[0] && m > |a|;
    ReachFills(a, b, 1);
    ReachIsContinued(whole, |a|);
    var j := m - |a|;
    assert forall i :: 0 <= i < j ==> b[i] == whole[|a| + i];
    StrayContinuations(glyph, b, j);
    assert whole[m..] == b[j..];
  }

  /** Inside a sequence, the bytes that would have finished it are each replaced instead. */
  lemma {:induction false} DirtyCut(glyph: seq<Octet> -> char, a: seq<Octet>, b: seq<Octet>)
    requires Splits(a, b)
    ensures |Lossy(glyph, a + b)| < |Lossy(glyph, a)| + |Lossy(glyph, b)|
    decreases |a|
  {
    var n := Reach(a, 1);
    if n < |a| {
      ReachExtends(a, b, 1);
      FirstUnit(glyph, a, b);
      DirtyCut(glyph, a[n..], b);
    } else {
      DirtyUnit(glyph, a, b);
      assert a[n..] == [];
    }
  }

  /******* Any number of chunks *******/

  function Flat(chunks: seq<seq<Octet>>): seq<Octet> {
    if chunks == [] then [] else Flat(chunks[..|chunks| - 1]) + chunks[|chunks| - 1]
  }

  function Decoded(glyph: seq<Octet> -> char, chunks: seq<seq<Octet>>): seq<string> {
    seq(|chunks|, i requires 0 <= i < |chunks| => Lossy(glyph, chunks[i]))
  }

  /** No chunk continues a sequence that the chunks before it leave unfinished. */
  predicate NoCutSplits(chunks: seq<seq<Octet>>) {
    chunks != [] ==>
      var before, last := chunks[..|chunks| - 1], chunks[|chunks| - 1];
      NoCutSplits(before) && !Splits(Flat(before), last)
  }

  lemma {:induction false} ChunkedDecoding(glyph: seq<Octet> -> char, chunks: seq<seq<Octet>>)
    ensures var text := Concat(Decoded(glyph, chunks));
            if NoCutSplits(chunks) then text == Lossy(glyph, Flat(chunks)) else |text| > |Lossy(glyph, Flat(chunks))|
  {
    if chunks != [] {
      var before, last := chunks[..|chunks| - 1], chunks[|chunks| - 1];
      var decoded := Decoded(glyph, chunks);
      assert decoded[..|chunks| - 1] == Decoded(glyph, before);
      ChunkedDecoding(glyph, before);
      if Splits(Flat(before), last) {
        DirtyCut(glyph, Flat(before), last);
      } else {
        CleanCut(glyph, Flat(before), last);
      }
    }
  }

  /** What the subscription hands on from the raw chunks is what the whole stream decodes and frames to,
      exactly when no chunk boundary falls inside a UTF-8 sequence. */
  lemma RawChunkingIsInvisibleIff(glyph: seq<Octet> -> char, chunks: seq<seq<Octet>>)
    ensures Fed(Decoded(glyph, chunks)) == Drain(Lossy(glyph, Flat(chunks))) <==> NoCutSplits(chunks)
  {
    var text, whole := Concat(Decoded(glyph, chunks)), Lossy(glyph, Flat(chunks));
    ChunkingIsInvisible(Decoded(glyph, chunks));
    ChunkedDecoding(glyph, chunks);
    DrainIsProper(text);
    DrainIsProper(whole);
  }

  /** Such a boundary exists: the two bytes of one character, received apart. */
  lemma SplitCharacterShows(glyph: seq<Octet> -> char)
    ensures Fed(Decoded(glyph, [[0xC3], [0xA9]])) != Drain(Lossy(glyph, [0xC3, 0xA9]))
  {
    var chunks: seq<seq<Octet>> := [[0xC3], [0xA9]];
    assert chunks[..1] == [chunks[0]];
    assert Flat(chunks[..1]) == Flat([]) + chunks[0] == [0xC3];
    assert Splits(Flat(chunks[..1]), chunks[1]);
    assert Flat(chunks) == [0xC3, 0xA9];
    RawChunkingIsInvisibleIff(glyph, chunks);
  }
}
