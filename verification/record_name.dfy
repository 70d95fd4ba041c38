/**
 * The file name the recorders give a new recording: the local time when
 * recording starts, as `./YYYY_MM_DD_hhmmss.mkv`, each field after the year
 * zero-padded to two digits.
 */
module RecordName {

  /** The `struct tm` fields the name is built from (years since 1900, months from 0). */
  datatype Tm = Tm(year: int, mon: int, mday: int, hour: int, min: int, sec: int)

  /** What `localtime` can produce for a date from year 0 on (60 allows a leap second). */
  predicate Valid(t: Tm) {
    && t.year + 1900 >= 0
    && 0 <= t.mon <= 11 && 1 <= t.mday <= 31
    && 0 <= t.hour <= 23 && 0 <= t.min <= 59 && 0 <= t.sec <= 60
  }

  predicate IsDigit(c: char) {
    '0' <= c <= '9'
  }

  predicate AllDigits(s: string) {
    forall k | 0 <= k < |s| :: IsDigit(s[k])
  }

  function DigitChar(d: nat): (c: char)
    requires d < 10
    ensures IsDigit(c)
  {
    ('0' as int + d) as char
  }

  function DigitValue(c: char): (d: nat)
    requires IsDigit(c)
    ensures d < 10
  {
    (c as int - '0' as int) as nat
  }

  /** `operator<<` on a non-negative integer: its decimal digits, no leading zero. */
  function Decimal(n: nat): (s: string)
    ensures |s| >= 1 && AllDigits(s)
    ensures n < 10 <==> |s| == 1
  {
    if n < 10 then [DigitChar(n)] else Decimal(n / 10) + [DigitChar(n % 10)]
  }

  /** The number a string of decimal digits spells. */
  function Value(s: string): nat
    requires AllDigits(s)
  {
    if s == [] then 0 else Value(s[..|s| - 1]) * 10 + DigitValue(s[|s| - 1])
  }

  /** Reading back the digits `operator<<` wrote gives the number. */
  lemma {:induction false} ValueOfDecimal(n: nat)
    ensures Value(Decimal(n)) == n
  {
    if n >= 10 {
      var s := Decimal(n);
      assert s[..|s| - 1] == Decimal(n / 10);
      ValueOfDecimal(n / 10);
    }
  }

  /** `std::setfill('0') << std::setw(2) << n`: at least two characters, padded with zeros on the left. */
  function Pad2(n: nat): (s: string)
    ensures AllDigits(s) && |s| >= 2
    ensures n < 100 ==> |s| == 2
  {
    if n < 100 then [DigitChar(n / 10), DigitChar(n % 10)] else Decimal(n)
  }

  /** The number two decimal digits spell. */
  function Two(tens: char, units: char): nat
    requires IsDigit(tens) && IsDigit(units)
  {
    10 * DigitValue(tens) + DigitValue(units)
  }

  /** Below 100 the two padded characters are the tens and the units. */
  lemma Pad2Digits(n: nat)
    requires n < 100
    ensures Two(Pad2(n)[0], Pad2(n)[1]) == n
  {
  }

  /** The name `initialize_record` gives the recording. */
  function Name(t: Tm): (s: string)
    requires Valid(t)
    ensures |s| == |Decimal(t.year + 1900)| + 19
    ensures s[..2] == "./" && s[|s| - 4..] == ".mkv"
  {
    "./" + Decimal(t.year + 1900) + Stamp(t) + ".mkv"
  }

  /** `_MM_DD_hhmmss`: month, day, hour, minute and second, each padded to two digits. */
  function Stamp(t: Tm): (s: string)
    requires Valid(t)
    ensures |s| == 13
  {
    "_" + Pad2(t.mon + 1) + "_" + Pad2(t.mday) + "_" + Pad2(t.hour) + Pad2(t.min) + Pad2(t.sec)
  }

  /** Reads a name of the recorders' shape back into its fields: the year is everything before the last 13 characters. */
  function Parse(s: string): (r: Option<Tm>)
  {
    if |s| < 20 || s[..2] != "./" || s[|s| - 4..] != ".mkv" then None
    else ParseBody(s[2..|s| - 4])
  }

  /** The part between `./` and `.mkv`: year digits, then the 13-character tail. */
  function ParseBody(body: string): Option<Tm>
    requires |body| >= 13
  {
    var year := body[..|body| - 13];
    match ParseTail(body[|body| - 13..])
    case None => None
    case Some(f) =>
      if !AllDigits(year) then None
      else Some(Tm(Value(year) - 1900, f.0 - 1, f.1, f.2, f.3, f.4))
  }

  /** `_MM_DD_hhmmss` into month, day, hour, minute and second. */
  function ParseTail(t: string): Option<(int, int, int, int, int)>
    requires |t| == 13
  {
    if t[0] != '_' || t[3] != '_' || t[6] != '_' then None
    else if !(IsDigit(t[1]) && IsDigit(t[2]) && IsDigit(t[4]) && IsDigit(t[5]) && IsDigit(t[7])
        && IsDigit(t[8]) && IsDigit(t[9]) && IsDigit(t[10]) && IsDigit(t[11]) && IsDigit(t[12])) then None
    else Some((Two(t[1], t[2]), Two(t[4], t[5]), Two(t[7], t[8]), Two(t[9], t[10]), Two(t[11], t[12])))
  }

  datatype Option<T> = None | Some(value: T)

  /** The fixed-width tail of a name reads back as the five fields it was written from. */
  lemma ParseTailOf(mo: nat, d: nat, h: nat, mi: nat, se: nat)
    requires mo < 100 && d < 100 && h < 100 && mi < 100 && se < 100
    ensures ParseTail("_" + Pad2(mo) + "_" + Pad2(d) + "_" + Pad2(h) + Pad2(mi) + Pad2(se)) == Some((mo, d, h, mi, se))
  {
    Pad2Digits(mo);
    Pad2Digits(d);
    Pad2Digits(h);
    Pad2Digits(mi);
    Pad2Digits(se);
  }

  /** `Parse` splits a name into the year digits and the fixed-width tail. */
  lemma ParseSplit(y: string, tail: string)
    requires |y| >= 1 && AllDigits(y) && |tail| == 13 && ParseTail(tail).Some?
    ensures var f := ParseTail(tail).value;
      Parse("./" + (y + tail) + ".mkv") == Some(Tm(Value(y) - 1900, f.0 - 1, f.1, f.2, f.3, f.4))
  {
    Frame(y + tail);
    BodySplit(y, tail);
  }

  lemma BodySplit(y: string, tail: string)
    requires AllDigits(y) && |tail| == 13 && ParseTail(tail).Some?
    ensures var f := ParseTail(tail).value;
      ParseBody(y + tail) == Some(Tm(Value(y) - 1900, f.0 - 1, f.1, f.2, f.3, f.4))
  {
    Halves(y, tail);
  }

  lemma Frame(body: string)
    ensures var s := "./" + body + ".mkv";
      s[..2] == "./" && s[|s| - 4..] == ".mkv" && s[2..|s| - 4] == body
  {
    var s := "./" + body + ".mkv";
    assert s[..2] == "./";
    assert s[|s| - 4..] == ".mkv";
    assert s[2..|s| - 4] == body;
  }

  lemma Halves(y: string, tail: string)
    ensures (y + tail)[..|y|] == y && (y + tail)[|y|..] == tail
  {
    assert (y + tail)[..|y|] == y;
  }

  /** Every field survives the round trip through the file name. */
  lemma ParseName(t: Tm)
    requires Valid(t)
    ensures Parse(Name(t)) == Some(t)
  {
    var y := Decimal(t.year + 1900);
    NameFramed(t);
    StampParses(t);
    ParseSplit(y, Stamp(t));
    ValueOfDecimal(t.year + 1900);
  }

  lemma NameFramed(t: Tm)
    requires Valid(t)
    ensures Name(t) == "./" + (Decimal(t.year + 1900) + Stamp(t)) + ".mkv"
  {
  }

  lemma StampParses(t: Tm)
    requires Valid(t)
    ensures ParseTail(Stamp(t)) == Some((t.mon + 1, t.mday, t.hour, t.min, t.sec))
  {
    ParseTailOf(t.mon + 1, t.mday, t.hour, t.min, t.sec);
  }

  /** Two different start times never share a file name. */
  lemma NameInjective(t1: Tm, t2: Tm)
    requires Valid(t1) && Valid(t2) && Name(t1) == Name(t2)
    ensures t1 == t2
  {
    ParseName(t1);
    ParseName(t2);
  }
}
