/** UTC timestamps kept to the nanosecond (src/client/statusWatchModel.ts).
    A time is a whole number of seconds and nine fraction digits held as a string,
    so that the order of two times never passes through floating point. */
module PreciseTimes {
  import opened Common
  import opened Digits

  datatype PreciseTime = PreciseTime(seconds: int, fraction: string)

  /** The JavaScript functions the program takes from its host: Date.parse on a timestamp
      with whole seconds (as epoch seconds), and String.prototype.toLowerCase. */
  datatype Host = Host(dateSeconds: string -> Option<int>, lower: string -> string)

  predicate Valid(t: PreciseTime) {
    |t.fraction| == 9 && AllDigits(t.fraction)
  }

  const HEAD_SHAPE := "dddd-dd-ddTdd:dd:dd"

  predicate IsHead(s: string) {
    |s| == |HEAD_SHAPE| &&
    forall i :: 0 <= i < |s| ==> if HEAD_SHAPE[i] == 'd' then IsDigit(s[i]) else s[i] == HEAD_SHAPE[i]
  }

  /** A timestamp's part before the dot and its fraction digits ("" when there is no dot). */
  function Split(text: string): Option<(string, string)> {
    var h := |HEAD_SHAPE|;
    if |text| <= h || !IsHead(text[..h]) || text[|text| - 1] != 'Z' then None else
    var tail := text[h..|text| - 1];
    if tail == "" then Some((text[..h], ""))
    else if tail[0] == '.' && |tail| > 1 && AllDigits(tail[1..]) then Some((text[..h], tail[1..]))
    else None
  }

  function Parse(value: Json, host: Host): (r: Option<PreciseTime>)
    ensures r.Some? ==> Valid(r.value) && value.Str?
  {
    if !value.Str? then None else
    match Split(value.s)
    case None => None
    case Some((head, digits)) =>
      match host.dateSeconds(head + "Z")
      case None => None
      case Some(seconds) =>
        ValueZeros(9);
        Some(PreciseTime(seconds, (digits + Zeros(9))[..9]))
  }

  function Compare(a: PreciseTime, b: PreciseTime): int {
    if a.seconds != b.seconds then (if a.seconds < b.seconds then -1 else 1)
    else if a.fraction == b.fraction then 0
    else if LexLess(a.fraction, b.fraction) then -1 else 1
  }

  function ToMs(t: PreciseTime): int
    requires Valid(t)
  {
    t.seconds * 1000 + Value(t.fraction[..3])
  }

  /** Nanoseconds since the epoch. */
  function Nanos(t: PreciseTime): int
    requires Valid(t)
  {
    t.seconds * Pow10(9) + Value(t.fraction)
  }

  /** The instant a timestamp's text denotes, in whole nanoseconds: the seconds of its head plus
      0.digits, rounded down, for any number of digits. Says nothing of strings or padding. */
  function Denotes(text: string, host: Host): Option<int> {
    match Split(text)
    case None => None
    case Some((head, digits)) =>
      match host.dateSeconds(head + "Z")
      case None => None
      case Some(seconds) => Some(seconds * Pow10(9) + FractionNanos(digits))
  }

  function FractionNanos(digits: string): nat {
    if AllDigits(digits) then Value(digits) * Pow10(9) / Pow10(|digits|) else 0
  }

  /** A date and time of day: YYYY-MM-DDThh:mm:ss. */
  predicate IsDateTime(s: string) {
    && |s| == 19
    && AllDigits(s[..4]) && s[4] == '-' && AllDigits(s[5..7]) && s[7] == '-' && AllDigits(s[8..10]) && s[10] == 'T'
    && AllDigits(s[11..13]) && s[13] == ':' && AllDigits(s[14..16]) && s[16] == ':' && AllDigits(s[17..])
  }

  lemma HeadIsDateTime(s: string)
    ensures IsHead(s) <==> IsDateTime(s)
  {
    if |s| == 19 {
      assert AllDigits(s[..4]) <==> IsDigit(s[0]) && IsDigit(s[1]) && IsDigit(s[2]) && IsDigit(s[3]);
      PairOfDigits(s, 5);
      PairOfDigits(s, 8);
      PairOfDigits(s, 11);
      PairOfDigits(s, 14);
      PairOfDigits(s, 17);
      assert s[17..] == s[17..19];
      EachPlace(s);
    }
  }

  lemma PairOfDigits(s: string, i: nat)
    requires i + 2 <= |s|
    ensures AllDigits(s[i..i + 2]) <==> IsDigit(s[i]) && IsDigit(s[i + 1])
  {
    var pair := s[i..i + 2];
    assert pair[0] == s[i] && pair[1] == s[i + 1];
  }

  lemma EachPlace(s: string)
    requires |s| == 19
    ensures IsHead(s) <==>
              && IsDigit(s[0]) && IsDigit(s[1]) && IsDigit(s[2]) && IsDigit(s[3]) && s[4] == '-'
              && IsDigit(s[5]) && IsDigit(s[6]) && s[7] == '-' && IsDigit(s[8]) && IsDigit(s[9]) && s[10] == 'T'
              && IsDigit(s[11]) && IsDigit(s[12]) && s[13] == ':' && IsDigit(s[14]) && IsDigit(s[15]) && s[16] == ':'
              && IsDigit(s[17]) && IsDigit(s[18])
  {
  }

  function FractionPart(digits: string): string {
    if digits == "" then "" else "." + digits
  }

  lemma SplitReads(head: string, digits: string)
    requires IsHead(head) && AllDigits(digits)
    ensures Split(head + FractionPart(digits) + "Z") == Some((head, digits))
  {
    var tail := FractionPart(digits);
    var text := head + tail + "Z";
    assert text[..19] == head && text[19..|text| - 1] == tail;
    if digits != "" { assert tail[1..] == digits; }
  }

  lemma SplitTakesApart(text: string)
    requires Split(text).Some?
    ensures var (head, digits) := Split(text).value;
            IsHead(head) && AllDigits(digits) && text == head + FractionPart(digits) + "Z"
  {
    var tail := text[19..|text| - 1];
    assert text == text[..19] + tail + "Z";
    if tail != "" { assert tail == "." + tail[1..]; }
  }

  /** The language of the timestamps: a date and time of day, perhaps a dot and fraction digits, and a Z. */
  lemma SplitIsExact(text: string, head: string, digits: string)
    ensures Split(text) == Some((head, digits)) <==>
              IsDateTime(head) && AllDigits(digits) && text == head + (if digits == "" then "" else "." + digits) + "Z"
  {
    HeadIsDateTime(head);
    if IsHead(head) && AllDigits(digits) { SplitReads(head, digits); }
    if Split(text).Some? { SplitTakesApart(text); }
  }

  /** Padding with nine zeros and cutting to nine digits is rounding down to nanoseconds. */
  lemma CutIsFloor(digits: string)
    requires AllDigits(digits)
    ensures AllDigits((digits + Zeros(9))[..9])
    ensures Value((digits + Zeros(9))[..9]) == FractionNanos(digits)
  {
    ValueZeros(9);
    ValueConcat(digits, Zeros(9));
    ValuePrefix(digits + Zeros(9), |digits|);
  }

  lemma ParseDenotes(text: string, host: Host)
    ensures Parse(Str(text), host).None? <==> Denotes(text, host).None?
    ensures Parse(Str(text), host).Some? ==> Nanos(Parse(Str(text), host).value) == Denotes(text, host).value
  {
    match Split(text)
    case None =>
    case Some((_, digits)) => CutIsFloor(digits);
  }

  lemma CompareIsNumeric(a: PreciseTime, b: PreciseTime)
    requires Valid(a) && Valid(b)
    ensures Compare(a, b) < 0 <==> Nanos(a) < Nanos(b)
    ensures Compare(a, b) == 0 <==> Nanos(a) == Nanos(b)
    ensures Compare(a, b) == 0 <==> a == b
    ensures Compare(a, b) in {-1, 0, 1}
  {
    LexIsNumeric(a.fraction, b.fraction);
    ValueBound(a.fraction);
    ValueBound(b.fraction);
    LeadingDigit(a.seconds, b.seconds, Value(a.fraction), Value(b.fraction), Pow10(9));
    LeadingDigit(b.seconds, a.seconds, Value(b.fraction), Value(a.fraction), Pow10(9));
  }

  /** The order of two timestamps, as the program computes it, is the order of the instants they denote. */
  lemma OrderOfTexts(s: string, t: string, host: Host)
    requires Parse(Str(s), host).Some? && Parse(Str(t), host).Some?
    ensures var c := Compare(Parse(Str(s), host).value, Parse(Str(t), host).value);
            var x, y := Denotes(s, host), Denotes(t, host);
            x.Some? && y.Some? && c == if x.value < y.value then -1 else if x.value == y.value then 0 else 1
  {
    ParseDenotes(s, host);
    ParseDenotes(t, host);
    CompareIsNumeric(Parse(Str(s), host).value, Parse(Str(t), host).value);
  }

  lemma CompareIsTotalOrder(a: PreciseTime, b: PreciseTime, c: PreciseTime)
    requires Valid(a) && Valid(b) && Valid(c)
    ensures Compare(a, b) == -Compare(b, a)
    ensures Compare(a, b) <= 0 && Compare(b, c) <= 0 ==> Compare(a, c) <= 0
    ensures Compare(a, b) == 0 <==> a == b
  {
    CompareIsNumeric(a, b);
    CompareIsNumeric(b, a);
    CompareIsNumeric(b, c);
    CompareIsNumeric(a, c);
  }

  lemma FloorShift(s: int, v: nat, d: nat)
    requires d > 0
    ensures (s * d + v) / d == s + v / d
  {
    var q := (s * d + v) / d;
    var r := (s * d + v) % d;
    assert s * d + v == q * d + r;
    var q', r' := v / d, v % d;
    assert v == q' * d + r';
    assert (s + q') * d + r' == q * d + r by { assert (s + q') * d == s * d + q' * d; }
    LeadingDigit(q, s + q', r, r', d);
    LeadingDigit(s + q', q, r', r, d);
  }

  /** preciseTimeToMs rounds the instant down to milliseconds, so it never reverses two times. */
  lemma MsIsFloor(t: PreciseTime)
    requires Valid(t)
    ensures ToMs(t) == Nanos(t) / Pow10(6)
  {
    ValuePrefix(t.fraction, 6);
    Pow10Sum(3, 6);
    assert Pow10(3) == 1000 by { assert Pow10(1) == 10; assert Pow10(2) == 100; }
    assert t.seconds * Pow10(9) == t.seconds * 1000 * Pow10(6) by { Regroup(t.seconds, 1000, Pow10(6)); }
    FloorShift(t.seconds * 1000, Value(t.fraction), Pow10(6));
  }

  lemma Regroup(a: int, b: int, c: int)
    ensures a * (b * c) == a * b * c
  {
  }

  lemma MsIsMonotone(a: PreciseTime, b: PreciseTime)
    requires Valid(a) && Valid(b) && Compare(a, b) <= 0
    ensures ToMs(a) <= ToMs(b)
  {
    CompareIsNumeric(a, b);
    MsIsFloor(a);
    MsIsFloor(b);
    FloorMonotone(Nanos(a), Nanos(b), Pow10(6));
  }

  lemma FloorMonotone(x: int, y: int, d: nat)
    requires x <= y && d > 0
    ensures x / d <= y / d
  {
    assert x == (x / d) * d + x % d && y == (y / d) * d + y % d;
    LeadingDigit(y / d, x / d, y % d, x % d, d);
  }
}
