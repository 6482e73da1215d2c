/** Names of proof run directories: printed by the recorder, read back by the reaper. */
module ProofNames {
  import opened Domain

  /** A UTC date and time of day to the second; second 60 is a leap second. */
  datatype Civil = Civil(year: int, month: int, day: int, hour: int, minute: int, second: int)

  /** The years the time library represents. */
  const MIN_YEAR: int := -262143
  const MAX_YEAR: int := 262142

  predicate IsLeapYear(year: int) { year % 4 == 0 && (year % 100 != 0 || year % 400 == 0) }

  function DaysIn(year: int, month: int): int {
    if month == 2 then (if IsLeapYear(year) then 29 else 28)
    else if month in {4, 6, 9, 11} then 30
    else 31
  }

  predicate Valid(c: Civil) {
    && MIN_YEAR <= c.year <= MAX_YEAR && 1 <= c.month <= 12 && 1 <= c.day <= DaysIn(c.year, c.month)
    && 0 <= c.hour < 24 && 0 <= c.minute < 60 && 0 <= c.second <= 60
  }

  predicate FourDigitYear(c: Civil) { 0 <= c.year <= 9999 }

  /******* The timestamp format *******/

  datatype Field = Year | Month | Day | Hour | Minute | Second

  datatype Format = End | Lit(c: char, rest: Format) | Num(field: Field, rest: Format)

  /** `%Y-%m-%dT%H%M%SZ` */
  const TIME := Num(Hour, Num(Minute, Num(Second, Lit('Z', End))))
  const DATE := Num(Month, Lit('-', Num(Day, Lit('T', TIME))))
  const STAMP := Num(Year, Lit('-', DATE))

  function Get(c: Civil, field: Field): int {
    match field
    case Year => c.year
    case Month => c.month
    case Day => c.day
    case Hour => c.hour
    case Minute => c.minute
    case Second => c.second
  }

  function Set(c: Civil, field: Field, value: int): Civil {
    match field
    case Year => c.(year := value)
    case Month => c.(month := value)
    case Day => c.(day := value)
    case Hour => c.(hour := value)
    case Minute => c.(minute := value)
    case Second => c.(second := value)
  }

  /******* Printing *******/

  function Digit(n: nat): char
    requires n < 10
  {
    ('0' as int + n) as char
  }

  /** Decimal digits, zero-padded to `width`. */
  function Decimal(n: nat, width: nat): (r: string)
    ensures |r| >= width && |r| >= 1
    ensures forall i :: 0 <= i < |r| ==> IsDigit(r[i])
  {
    if n < 10 && width <= 1 then [Digit(n)]
    else Decimal(n / 10, if width > 0 then width - 1 else 0) + [Digit(n % 10)]
  }

  /** Years outside 0..9999 carry a sign. */
  function YearText(year: int): string {
    if 0 <= year <= 9999 then Decimal(year, 4)
    else if year < 0 then "-" + Decimal(-year, 4)
    else "+" + Decimal(year, 4)
  }

  function FieldText(c: Civil, field: Field): string {
    if field == Year then YearText(c.year) else Decimal(Max(Get(c, field), 0), 2)
  }

  function Print(f: Format, c: Civil): string {
    match f
    case End => ""
    case Lit(ch, rest) => [ch] + Print(rest, c)
    case Num(field, rest) => FieldText(c, field) + Print(rest, c)
  }

  function TimestampSegment(c: Civil): string { Print(STAMP, c) }

  const ABANDONED := "-abandoned"

  /** The name tried for one collision suffix. */
  function RunName(base: string, k: nat): string { if k == 0 then base else base + "-" + Decimal(k, 2) }

  /******* Reading *******/

  predicate IsDigit(c: char) { '0' <= c <= '9' }

  datatype Scanned = Scanned(value: int, rest: string)

  function TakeDigits(s: string, max: nat, acc: nat): Scanned {
    if max == 0 || s == "" || !IsDigit(s[0]) then Scanned(acc, s)
    else TakeDigits(s[1..], max - 1, 10 * acc + (s[0] as int - '0' as int))
  }

  function Number(s: string, max: nat): Option<Scanned> {
    if s == "" || !IsDigit(s[0]) then None else Some(TakeDigits(s, max, 0))
  }

  function TrimStart(s: string): string {
    if s != "" && IsSpace(s[0]) then TrimStart(s[1..]) else s
  }

  /** The library's numeric items skip white space and take at most their width; a signed year takes
      every digit that follows. */
  function ScanField(field: Field, s: string): Option<Scanned> {
    var t := TrimStart(s);
    if field != Year then Number(t, 2)
    else if t != "" && t[0] == '-' then
      var n := Number(t[1..], |t|);
      if n.None? then None else Some(Scanned(-n.value.value, n.value.rest))
    else if t != "" && t[0] == '+' then Number(t[1..], |t|)
    else Number(t, 4)
  }

  function Scan(f: Format, s: string, acc: Civil): Option<Civil> {
    match f
    case End => if s == "" then Some(acc) else None
    case Lit(ch, rest) => if s != "" && s[0] == ch then Scan(rest, s[1..], acc) else None
    case Num(field, rest) =>
      var n := ScanField(field, s);
      if n.None? then None else Scan(rest, n.value.rest, Set(acc, field, n.value.value))
  }

  const BLANK := Civil(0, 0, 0, 0, 0, 0)

  function ParseStamp(s: string): Option<Civil> {
    var c := Scan(STAMP, s, BLANK);
    if c.Some? && Valid(c.value) then c else None
  }

  predicate IsCollisionSuffix(s: string) {
    |s| == 3 && s[0] == '-' && IsDigit(s[1]) && IsDigit(s[2]) && !(s[1] == '0' && s[2] == '0')
  }

  function TimestampPrefix(name: string): Option<string> {
    if |name| == 18 then Some(name)
    else if |name| != 21 then None
    else if IsCollisionSuffix(name[18..]) then Some(name[..18])
    else None
  }

  function ParseProofTimestamp(name: string): Option<Civil> {
    var prefix := TimestampPrefix(name);
    if prefix.None? then None else ParseStamp(prefix.value)
  }

  /******* Round trip *******/

  lemma TwoDigits(n: nat)
    requires n < 100
    ensures Decimal(n, 2) == [Digit(n / 10), Digit(n % 10)]
  {
  }

  lemma LastDigit(n: nat, width: nat)
    requires width > 1
    ensures Decimal(n, width) == Decimal(n / 10, width - 1) + [Digit(n % 10)]
  {
  }

  lemma LowPair(n: nat)
    ensures n % 100 / 10 == n / 10 % 10 && n % 100 % 10 == n % 10 && n / 10 / 10 == n / 100
  {
    var q, r := n / 100, n % 100;
    assert n == 10 * (10 * q + r / 10) + r % 10;
    assert n / 10 == 10 * q + r / 10;
  }

  lemma FourDigits(n: nat)
    requires n < 10000
    ensures Decimal(n, 4) == [Digit(n / 100 / 10), Digit(n / 100 % 10)] + [Digit(n % 100 / 10), Digit(n % 100 % 10)]
  {
    TwoDigits(n / 100);
    LowPair(n);
    LastDigit(n, 4);
    LastDigit(n / 10, 3);
  }

  /** Signed years have four to six digits, and five or six from 10000 on. */
  lemma SignedYearWidth(n: nat)
    requires n < 1_000_000
    ensures 4 <= |Decimal(n, 4)| <= 6
    ensures n >= 10000 ==> |Decimal(n, 4)| >= 5
  {
    if n < 10000 {
      FourDigits(n);
    } else {
      var n1, n2, n3, n4 := n / 10, n / 100, n / 1000, n / 10000;
      assert n1 / 10 == n2 && n2 / 10 == n3 && n3 / 10 == n4;
      assert |Decimal(n4, 0)| == if n4 < 10 then 1 else 2 by {
        if n4 >= 10 {
          assert |Decimal(n4 / 10, 0)| == 1;
        }
      }
      assert |Decimal(n3, 1)| == |Decimal(n4, 0)| + 1;
      assert |Decimal(n2, 2)| == |Decimal(n3, 1)| + 1;
      assert |Decimal(n1, 3)| == |Decimal(n2, 2)| + 1;
    }
  }

  lemma TakeTwo(n: nat, rest: string, more: nat, acc: nat)
    requires n < 100
    ensures TakeDigits([Digit(n / 10), Digit(n % 10)] + rest, more + 2, acc) == TakeDigits(rest, more, 100 * acc + n)
  {
  }

  lemma ReadTwo(n: nat, rest: string)
    requires n < 100
    ensures Number(TrimStart(Decimal(n, 2) + rest), 2) == Some(Scanned(n, rest))
  {
    TwoDigits(n);
    TakeTwo(n, rest, 0, 0);
  }

  lemma TakeFour(high: nat, low: nat, rest: string)
    requires high < 100 && low < 100
    ensures TakeDigits([Digit(high / 10), Digit(high % 10)] + [Digit(low / 10), Digit(low % 10)] + rest, 4, 0)
         == Scanned(100 * high + low, rest)
  {
    var tail := [Digit(low / 10), Digit(low % 10)] + rest;
    assert [Digit(high / 10), Digit(high % 10)] + [Digit(low / 10), Digit(low % 10)] + rest
        == [Digit(high / 10), Digit(high % 10)] + tail;
    TakeTwo(high, tail, 2, 0);
    TakeTwo(low, rest, 0, high);
  }

  lemma ReadFour(n: nat, rest: string)
    requires n < 10000
    ensures ScanField(Year, Decimal(n, 4) + rest) == Some(Scanned(n, rest))
  {
    FourDigits(n);
    TakeFour(n / 100, n % 100, rest);
  }

  lemma ReadField(c: Civil, field: Field, rest: string)
    requires Valid(c) && FourDigitYear(c)
    ensures ScanField(field, FieldText(c, field) + rest) == Some(Scanned(Get(c, field), rest))
  {
    if field == Year {
      ReadFour(c.year, rest);
    } else {
      ReadTwo(Get(c, field), rest);
    }
  }

  /** The fields a format names, taken from `c`. */
  function Copy(f: Format, c: Civil, acc: Civil): Civil {
    match f
    case End => acc
    case Lit(_, rest) => Copy(rest, c, acc)
    case Num(field, rest) => Copy(rest, c, Set(acc, field, Get(c, field)))
  }

  lemma {:induction false} ScanPrint(f: Format, c: Civil, acc: Civil)
    requires Valid(c) && FourDigitYear(c)
    ensures Scan(f, Print(f, c), acc) == Some(Copy(f, c, acc))
  {
    match f
    case End =>
    case Lit(ch, rest) =>
      assert Print(f, c)[1..] == Print(rest, c);
      ScanPrint(rest, c, acc);
    case Num(field, rest) =>
      ReadField(c, field, Print(rest, c));
      ScanPrint(rest, c, Set(acc, field, Get(c, field)));
  }

  lemma CopyStamp(c: Civil, acc: Civil)
    ensures Copy(STAMP, c, acc) == c
  {
    var year := acc.(year := c.year);
    var date := year.(month := c.month, day := c.day);
    var minute := date.(hour := c.hour, minute := c.minute);
    assert Copy(Lit('Z', End), c, c) == c;
    assert Copy(Num(Second, Lit('Z', End)), c, minute) == c;
    assert Copy(TIME, c, date) == c;
    assert Copy(Num(Day, Lit('T', TIME)), c, year.(month := c.month)) == Copy(TIME, c, date);
    assert Copy(DATE, c, year) == c;
  }

  lemma StampRoundTrip(c: Civil)
    requires Valid(c) && FourDigitYear(c)
    ensures ParseStamp(TimestampSegment(c)) == Some(c)
  {
    ScanPrint(STAMP, c, BLANK);
    CopyStamp(c, BLANK);
  }

  /** After the year come 14 characters; the two before the final one are digits. */
  lemma SegmentShape(c: Civil) returns (tail: string)
    requires Valid(c)
    ensures TimestampSegment(c) == YearText(c.year) + tail
    ensures |tail| == 14 && IsDigit(tail[11])
    ensures forall i :: 0 <= i < |tail| ==> IsDigit(tail[i]) || tail[i] in {'-', 'T', 'Z'}
  {
    TwoDigits(c.month);
    TwoDigits(c.day);
    TwoDigits(c.hour);
    TwoDigits(c.minute);
    TwoDigits(c.second);
    assert Print(Lit('Z', End), c) == "Z";
    assert Print(Num(Second, Lit('Z', End)), c) == Decimal(c.second, 2) + "Z";
    assert Print(TIME, c) == Decimal(c.hour, 2) + (Decimal(c.minute, 2) + (Decimal(c.second, 2) + "Z"));
    assert Print(Num(Day, Lit('T', TIME)), c) == Decimal(c.day, 2) + ("T" + Print(TIME, c));
    assert Print(DATE, c) == Decimal(c.month, 2) + ("-" + Print(Num(Day, Lit('T', TIME)), c));
    tail := Print(Lit('-', DATE), c);
    assert tail == "-" + Print(DATE, c);
  }

  /** Every run name the recorder tries reads back as its start second, exactly for four-digit years. */
  lemma RunNameParsesIff(c: Civil, k: nat)
    requires Valid(c) && k < 100
    ensures ParseProofTimestamp(RunName(TimestampSegment(c), k)) == if FourDigitYear(c) then Some(c) else None
  {
    var base := TimestampSegment(c);
    var name := RunName(base, k);
    var tail := SegmentShape(c);
    TwoDigits(k);
    if FourDigitYear(c) {
      FourDigits(c.year);
      StampRoundTrip(c);
      assert name[..18] == base;
    } else {
      SignedYearWidth(if c.year < 0 then -c.year else c.year);
      assert k == 0 && |name| == 21 ==> name[18] == tail[11];
    }
  }

  lemma AbandonedNeverParses(c: Civil, k: nat)
    requires Valid(c) && k < 100
    ensures ParseProofTimestamp(RunName(TimestampSegment(c) + ABANDONED, k)) == None
  {
    var tail := SegmentShape(c);
    TwoDigits(k);
    if !FourDigitYear(c) {
      SignedYearWidth(if c.year < 0 then -c.year else c.year);
    } else {
      FourDigits(c.year);
    }
  }

  /******* Creating a run directory *******/

  const MAX_IDENTIFIER: nat := 255

  predicate AllowedChar(c: char) {
    IsDigit(c) || 'a' <= c <= 'z' || 'A' <= c <= 'Z' || c in {'.', '_', '-'}
  }

  function Stem(s: string): string {
    if s == "" || s[0] == '.' then "" else [s[0]] + Stem(s[1..])
  }

  function UpperChar(c: char): char { if 'a' <= c <= 'z' then (c as int - 32) as char else c }

  function Upper(s: string): string { seq(|s|, i requires 0 <= i < |s| => UpperChar(s[i])) }

  const RESERVED_DEVICES: set<string> := {
    "CON", "PRN", "AUX", "NUL", "COM1", "COM2", "COM3", "COM4", "COM5", "COM6", "COM7", "COM8", "COM9",
    "LPT1", "LPT2", "LPT3", "LPT4", "LPT5", "LPT6", "LPT7", "LPT8", "LPT9"}

  /** The segment is accepted as it stands; nothing is ever rewritten. */
  predicate SafeSegment(s: string) {
    && 0 < |s| <= MAX_IDENTIFIER
    && s[0] != '.' && s[0] != '/' && s[|s| - 1] != '.'
    && (forall i :: 0 <= i < |s| - 1 ==> !(s[i] == '.' && s[i + 1] == '.'))
    && (forall i :: 0 <= i < |s| ==> AllowedChar(s[i]))
    && Upper(Stem(s)) !in RESERVED_DEVICES
  }

  lemma {:induction false} StemOfDotless(s: string)
    requires forall i :: 0 <= i < |s| ==> s[i] != '.'
    ensures Stem(s) == s
  {
    if s != "" {
      StemOfDotless(s[1..]);
    }
  }

  lemma PlainIsSafe(s: string)
    requires 4 < |s| <= MAX_IDENTIFIER
    requires forall i :: 0 <= i < |s| ==> AllowedChar(s[i]) && s[i] != '.'
    ensures SafeSegment(s)
  {
    StemOfDotless(s);
    assert |Upper(Stem(s))| > 4;
  }

  /** Later years print a plus sign, which no directory name may hold. */
  lemma RunNameIsSafeIff(c: Civil, k: nat, mark: string)
    requires Valid(c) && k < 100 && mark in {"", ABANDONED}
    ensures SafeSegment(RunName(TimestampSegment(c) + mark, k)) <==> c.year <= 9999
  {
    var tail := SegmentShape(c);
    var name := RunName(TimestampSegment(c) + mark, k);
    TwoDigits(k);
    SignedYearWidth(if c.year < 0 then -c.year else c.year);
    if c.year <= 9999 {
      PlainIsSafe(name);
    } else {
      assert name[0] == '+';
    }
  }

  datatype CreateAnswer = Created | CreatedOutside | CreateFailed

  /** The directory of one issue's runs. */
  class IssueProofs {
    var names: set<string>

    constructor ()
      ensures names == {}
    {
      names := {};
    }

    /** The run gets the first name that is not taken, at suffix `k`; an existing directory is never reused. */
    method CreateUniqueRunDir(base: string, answer: nat -> CreateAnswer) returns (r: Outcome<string>, ghost k: nat)
      modifies this
      ensures k <= 100 && forall j: nat :: j < k ==> SafeSegment(RunName(base, j)) && RunName(base, j) in old(names)
      ensures k < 100 && SafeSegment(RunName(base, k)) ==> RunName(base, k) !in old(names)
      ensures r == if k < 100 && SafeSegment(RunName(base, k)) && answer(k) == Created then Ok(RunName(base, k)) else Err
      ensures names == if k < 100 && SafeSegment(RunName(base, k)) && answer(k) != CreateFailed
                       then old(names) + {RunName(base, k)} else old(names)
    {
      for suffix := 0 to 100
        invariant names == old(names)
        invariant forall j: nat :: j < suffix ==> SafeSegment(RunName(base, j)) && RunName(base, j) in names
      {
        var candidate := RunName(base, suffix);
        if !SafeSegment(candidate) {
          return Err, suffix;
        }
        if candidate !in names {
          match answer(suffix)
          case Created =>
            names := names + {candidate};
            return Ok(candidate), suffix;
          case CreatedOutside =>
            names := names + {candidate};
            return Err, suffix;
          case CreateFailed =>
            return Err, suffix;
        }
      }
      r, k := Err, 100;
    }
  }
}
