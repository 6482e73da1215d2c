/** Incremental framing of the worker gossip event stream. */
module Sse {
  import opened Domain

  const LF_LF := "\n\n"
  const CRLF_CRLF := "\r\n\r\n"

  /******* Finding the next separator *******/

  /** `str::find`: the first occurrence, searched from position `i`. */
  function Find(s: string, pattern: string, i: nat): Option<nat>
    decreases |s| - i
  {
    if i + |pattern| > |s| then None
    else if s[i..i + |pattern|] == pattern then Some(i)
    else Find(s, pattern, i + 1)
  }

  datatype Cut = Cut(index: nat, width: nat)

  function Boundary(s: string): Option<Cut> {
    match (Find(s, LF_LF, 0), Find(s, CRLF_CRLF, 0))
    case (Some(lf), Some(crlf)) => if crlf < lf then Some(Cut(crlf, 4)) else Some(Cut(lf, 2))
    case (Some(lf), None) => Some(Cut(lf, 2))
    case (None, Some(crlf)) => Some(Cut(crlf, 4))
    case (None, None) => None
  }

  predicate LfAt(s: string, i: nat) { i + 2 <= |s| && s[i] == '\n' && s[i + 1] == '\n' }

  predicate CrlfAt(s: string, i: nat) {
    i + 4 <= |s| && s[i] == '\r' && s[i + 1] == '\n' && s[i + 2] == '\r' && s[i + 3] == '\n'
  }

  /** Width of the separator that starts at `i`, 0 if none does. */
  function SeparatorAt(s: string, i: nat): nat { if LfAt(s, i) then 2 else if CrlfAt(s, i) then 4 else 0 }

  lemma {:induction false} FindLf(s: string, i: nat)
    ensures var r := Find(s, LF_LF, i);
            && (r.Some? ==> i <= r.value && LfAt(s, r.value))
            && (forall k: nat :: i <= k && LfAt(s, k) ==> r.Some? && r.value <= k)
    decreases |s| - i
  {
    if i + 2 <= |s| {
      assert s[i..i + 2] == [s[i], s[i + 1]];
      FindLf(s, i + 1);
    }
  }

  lemma {:induction false} FindCrlf(s: string, i: nat)
    ensures var r := Find(s, CRLF_CRLF, i);
            && (r.Some? ==> i <= r.value && CrlfAt(s, r.value))
            && (forall k: nat :: i <= k && CrlfAt(s, k) ==> r.Some? && r.value <= k)
    decreases |s| - i
  {
    if i + 4 <= |s| {
      assert s[i..i + 4] == [s[i], s[i + 1], s[i + 2], s[i + 3]];
      FindCrlf(s, i + 1);
    }
  }

  /** A cut at the first position where a separator starts. */
  ghost predicate FirstCut(s: string, cut: Cut) {
    0 < SeparatorAt(s, cut.index) == cut.width && forall i: nat :: i < cut.index ==> SeparatorAt(s, i) == 0
  }

  lemma BoundaryIsFirst(s: string)
    ensures Boundary(s).Some? ==> FirstCut(s, Boundary(s).value)
    ensures Boundary(s).None? <==> forall i: nat :: SeparatorAt(s, i) == 0
  {
    FindLf(s, 0);
    FindCrlf(s, 0);
  }

  lemma FirstIsBoundary(s: string, cut: Cut)
    requires FirstCut(s, cut)
    ensures Boundary(s) == Some(cut)
  {
    BoundaryIsFirst(s);
    assert SeparatorAt(s, cut.index) > 0;
    assert Boundary(s).value.index == cut.index;
  }

  /** Text still to come never moves a boundary already found: the one delicate case is a buffer that
      ends inside CR LF CR LF, where no LF LF can be complete yet. */
  lemma BoundaryIsStable(s: string, more: string)
    requires Boundary(s).Some?
    ensures Boundary(s + more) == Boundary(s)
  {
    BoundaryIsFirst(s);
    var cut := Boundary(s).value;
    forall i: nat | i < cut.index ensures SeparatorAt(s + more, i) == 0 {
      assert SeparatorAt(s, i) == 0;
    }
    FirstIsBoundary(s + more, cut);
  }

  /******* Draining *******/

  datatype Frame = Frame(event: string, separator: string)

  datatype Framing = Framing(frames: seq<Frame>, rest: string)

  datatype Split = Split(frame: Frame, rest: string)

  /** The first event with its separator, and the text after it. */
  function FirstSplit(s: string): (r: Split)
    requires Boundary(s).Some?
    ensures |r.rest| < |s|
  {
    BoundaryIsFirst(s);
    var cut := Boundary(s).value;
    Split(Frame(s[..cut.index], s[cut.index..cut.index + cut.width]), s[cut.index + cut.width..])
  }

  function Drain(s: string): Framing
    decreases |s|
  {
    if Boundary(s).None? then Framing([], s) else Prepend(FirstSplit(s).frame, Drain(FirstSplit(s).rest))
  }

  function Prepend(frame: Frame, f: Framing): Framing { Framing([frame] + f.frames, f.rest) }

  function Append(frames: seq<Frame>, f: Framing): Framing { Framing(frames + f.frames, f.rest) }

  function Text(frames: seq<Frame>): string {
    if frames == [] then "" else frames[0].event + frames[0].separator + Text(frames[1..])
  }

  function Events(frames: seq<Frame>): seq<string> {
    seq(|frames|, i requires 0 <= i < |frames| => frames[i].event)
  }

  /** No separator starts before the one that ends the event. */
  ghost predicate Complete(frame: Frame) {
    frame.separator in {LF_LF, CRLF_CRLF}
    && forall i: nat :: i < |frame.event| ==> SeparatorAt(frame.event + frame.separator, i) == 0
  }

  /** What a framing is, without saying how it is found: nothing is lost, each event ends at the first
      separator, and nothing complete is left over. */
  ghost predicate Proper(f: Framing, s: string) {
    && Text(f.frames) + f.rest == s
    && (forall k :: 0 <= k < |f.frames| ==> Complete(f.frames[k]))
    && (forall i: nat :: SeparatorAt(f.rest, i) == 0)
  }

  lemma SeparatorText(s: string, i: nat)
    ensures LfAt(s, i) ==> s[i..i + 2] == LF_LF
    ensures CrlfAt(s, i) ==> s[i..i + 4] == CRLF_CRLF
  {
    if LfAt(s, i) {
      assert s[i..i + 2] == [s[i], s[i + 1]];
    }
    if CrlfAt(s, i) {
      assert s[i..i + 4] == [s[i], s[i + 1], s[i + 2], s[i + 3]];
    }
  }

  lemma FirstFrameIsComplete(s: string)
    requires Boundary(s).Some?
    ensures Complete(FirstSplit(s).frame)
    ensures s == FirstSplit(s).frame.event + FirstSplit(s).frame.separator + FirstSplit(s).rest
  {
    var frame := FirstSplit(s).frame;
    BoundaryIsFirst(s);
    SeparatorText(s, |frame.event|);
    forall i: nat | i < |frame.event| ensures SeparatorAt(frame.event + frame.separator, i) == 0 {
      assert SeparatorAt(s, i) == 0;
    }
  }

  lemma CompleteIsFirst(frame: Frame, rest: string)
    requires Complete(frame)
    ensures var s := frame.event + frame.separator + rest; Boundary(s).Some? && FirstSplit(s) == Split(frame, rest)
  {
    var first := frame.event + frame.separator;
    FirstIsBoundary(first, Cut(|frame.event|, |frame.separator|));
    BoundaryIsStable(first, rest);
  }

  /** Draining gives a proper framing, */
  lemma {:induction false} DrainIsProper(s: string)
    ensures Proper(Drain(s), s)
    decreases |s|
  {
    if Boundary(s).None? {
      BoundaryIsFirst(s);
    } else {
      FirstFrameIsComplete(s);
      DrainIsProper(FirstSplit(s).rest);
      PrependIsProper(FirstSplit(s).frame, Drain(FirstSplit(s).rest), FirstSplit(s).rest);
    }
  }

  lemma PrependIsProper(frame: Frame, f: Framing, s: string)
    requires Complete(frame) && Proper(f, s)
    ensures Proper(Prepend(frame, f), frame.event + frame.separator + s)
  {
  }

  /** and it is the only one. */
  lemma {:induction false} ProperIsDrain(f: Framing, s: string)
    requires Proper(f, s)
    ensures f == Drain(s)
    decreases |f.frames|
  {
    if f.frames == [] {
      assert s == f.rest;
      BoundaryIsFirst(s);
    } else {
      var tail := Framing(f.frames[1..], f.rest);
      var later := Text(tail.frames) + tail.rest;
      assert s == f.frames[0].event + f.frames[0].separator + later;
      CompleteIsFirst(f.frames[0], later);
      ProperIsDrain(tail, later);
      assert f == Prepend(f.frames[0], tail);
    }
  }

  /******* Chunks *******/

  function Concat(chunks: seq<string>): string {
    if chunks == [] then "" else Concat(chunks[..|chunks| - 1]) + chunks[|chunks| - 1]
  }

  /** The frames found and the buffer left after the chunks so far. */
  function Fed(chunks: seq<string>): Framing {
    if chunks == [] then Framing([], "")
    else
      var before := Fed(chunks[..|chunks| - 1]);
      Append(before.frames, Drain(before.rest + chunks[|chunks| - 1]))
  }

  lemma SlicesExtend(s: string, more: string, i: nat, j: nat)
    requires i <= j <= |s|
    ensures (s + more)[..i] == s[..i] && (s + more)[i..j] == s[i..j] && (s + more)[j..] == s[j..] + more
  {
  }

  lemma FirstSplitExtends(s: string, more: string)
    requires Boundary(s).Some?
    ensures Boundary(s + more).Some?
    ensures FirstSplit(s + more) == Split(FirstSplit(s).frame, FirstSplit(s).rest + more)
  {
    var cut := Boundary(s).value;
    BoundaryIsStable(s, more);
    BoundaryIsFirst(s);
    SlicesExtend(s, more, cut.index, cut.index + cut.width);
  }

  lemma AppendPrepends(frame: Frame, frames: seq<Frame>, f: Framing)
    ensures Prepend(frame, Append(frames, f)) == Append([frame] + frames, f)
    ensures Append([], f) == f
    ensures Append(frames, Prepend(frame, f)) == Append(frames + [frame], f)
  {
  }

  lemma {:induction false} DrainExtends(s: string, more: string)
    ensures Drain(s + more) == Append(Drain(s).frames, Drain(Drain(s).rest + more))
    decreases |s|
  {
    var whole := Drain(Drain(s).rest + more);
    if Boundary(s).None? {
      assert whole == Append([], whole);
    } else {
      var split := FirstSplit(s);
      FirstSplitExtends(s, more);
      DrainExtends(split.rest, more);
      AppendPrepends(split.frame, Drain(split.rest).frames, whole);
    }
  }

  /** Framing does not depend on how the stream was cut into chunks. */
  lemma {:induction false} ChunkingIsInvisible(chunks: seq<string>)
    ensures Fed(chunks) == Drain(Concat(chunks))
  {
    if chunks == [] {
      BoundaryIsFirst("");
    } else {
      var before, last := chunks[..|chunks| - 1], chunks[|chunks| - 1];
      ChunkingIsInvisible(before);
      DrainExtends(Concat(before), last);
    }
  }

  /** The buffer of the running subscription. */
  class SseBuffer {
    var text: string

    constructor ()
      ensures text == ""
    {
      text := "";
    }

    method NextSseChunk() returns (event: Option<string>)
      modifies this
      ensures event.None? <==> Boundary(old(text)).None?
      ensures event.None? ==> text == old(text)
      ensures event.Some? ==> event.value == FirstSplit(old(text)).frame.event && text == FirstSplit(old(text)).rest
    {
      var found := Boundary(text);
      if found.None? {
        return None;
      }
      BoundaryIsFirst(text);
      event := Some(text[..found.value.index]);
      text := text[found.value.index + found.value.width..];
    }

    /** One network chunk: every event it completes is handed on, in order. */
    method Receive(chunk: string) returns (events: seq<string>)
      modifies this
      ensures events == Events(Drain(old(text) + chunk).frames)
      ensures text == Drain(old(text) + chunk).rest
    {
      text := text + chunk;
      ghost var frames: seq<Frame> := [];
      events := [];
      AppendPrepends(Frame("", ""), [], Drain(text));
      while true
        invariant events == Events(frames)
        invariant Append(frames, Drain(text)) == Drain(old(text) + chunk)
        decreases |text|
      {
        ghost var before := text;
        var next := NextSseChunk();
        if next.None? {
          return;
        }
        AppendPrepends(FirstSplit(before).frame, frames, Drain(text));
        frames := frames + [FirstSplit(before).frame];
        events := events + [next.value];
      }
    }
  }
}
