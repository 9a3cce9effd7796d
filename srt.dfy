/** `format_srt_timestamp` of the subtitles example: a time in seconds as an
    SRT timestamp `HH:MM:SS,mmm`. The seconds are exact reals here, so the
    rounding of binary floating point is not part of the model. */
module Srt {
  import Strings

  /** Python's `x // d` on a float and a positive integer: the floor of the
      quotient. */
  function FloorDiv(x: real, d: int): int
    requires d > 0
  {
    (x / d as real).Floor
  }

  /** Python's `x % d` on a float and a positive integer: `x - d * (x // d)`,
      which lies in `[0, d)`. */
  function Mod(x: real, d: int): real
    requires d > 0
  {
    x - (d * FloorDiv(x, d)) as real
  }

  /** Python's `int(x)` on a float: truncation toward zero. */
  function Int(x: real): int {
    if x >= 0.0 then x.Floor else -((-x).Floor)
  }

  datatype Parts = Parts(hours: int, minutes: int, secs: int, millis: int)

  /** The four numbers `format_srt_timestamp` computes. */
  function Split(seconds: real): Parts {
    Parts(
      Int(FloorDiv(seconds, 3600) as real),
      Int(FloorDiv(Mod(seconds, 3600), 60) as real),
      Int(Mod(seconds, 60)),
      Int((seconds - Int(seconds) as real) * 1000.0))
  }

  /** The f-string `{hours:02d}:{minutes:02d}:{secs:02d},{milliseconds:03d}`. */
  function Render(p: Parts): string {
    Strings.ZeroPad(p.hours, 2) + ":" + Strings.ZeroPad(p.minutes, 2) + ":"
    + Strings.ZeroPad(p.secs, 2) + "," + Strings.ZeroPad(p.millis, 3)
  }

  function Timestamp(seconds: real): string {
    Render(Split(seconds))
  }

  /** Flooring the quotient by 60 or 3600 is Euclidean division of the floor. */
  lemma FloorDivOfFloor(x: real, d: int)
    requires d == 60 || d == 3600
    ensures FloorDiv(x, d) == x.Floor / d
  {
    var q := x.Floor / d;
    assert q * d <= x.Floor < q * d + d;
    assert (q * d) as real <= x < (q * d + d) as real;
    assert q as real <= x / d as real < (q + 1) as real;
  }

  lemma FloorOfShift(x: real, n: int)
    ensures (x - n as real).Floor == x.Floor - n
  {
  }

  lemma IntOfInt(n: int)
    ensures Int(n as real) == n
  {
  }

  /** Hours are the whole seconds divided by 3600. */
  lemma HoursPart(seconds: real)
    ensures Split(seconds).hours == seconds.Floor / 3600
  {
    FloorDivOfFloor(seconds, 3600);
    IntOfInt(FloorDiv(seconds, 3600));
  }

  /** Minutes are what is left of the whole seconds after the hours, divided
      by 60. */
  lemma MinutesPart(seconds: real)
    ensures Split(seconds).minutes == (seconds.Floor % 3600) / 60
  {
    var f := seconds.Floor;
    FloorDivOfFloor(seconds, 3600);
    var r := Mod(seconds, 3600);
    FloorOfShift(seconds, 3600 * (f / 3600));
    assert r.Floor == f % 3600;
    FloorDivOfFloor(r, 60);
    IntOfInt(FloorDiv(r, 60));
  }

  /** Seconds are the whole seconds modulo 60. */
  lemma SecsPart(seconds: real)
    ensures Split(seconds).secs == seconds.Floor % 60
  {
    var f := seconds.Floor;
    FloorDivOfFloor(seconds, 60);
    FloorOfShift(seconds, 60 * (f / 60));
    assert Mod(seconds, 60).Floor == f % 60;
  }

  /** For a non-negative time the milliseconds are the first three decimals
      of the fraction. */
  lemma MillisPart(seconds: real)
    requires seconds >= 0.0
    ensures Split(seconds).millis == ((seconds - seconds.Floor as real) * 1000.0).Floor
    ensures 0 <= Split(seconds).millis < 1000
  {
  }

  /** For a non-negative time: hours are non-negative, minutes and seconds lie
      in [0, 60) and milliseconds in [0, 1000); hours, minutes and seconds add
      up to the whole seconds, and the milliseconds are the first three decimals
      of the fraction. */
  lemma SplitBounds(seconds: real)
    requires seconds >= 0.0
    ensures var p := Split(seconds);
      && p.hours >= 0 && 0 <= p.minutes < 60 && 0 <= p.secs < 60 && 0 <= p.millis < 1000
      && p.hours * 3600 + p.minutes * 60 + p.secs == seconds.Floor
      && p.millis == ((seconds - seconds.Floor as real) * 1000.0).Floor
  {
    HoursPart(seconds);
    MinutesPart(seconds);
    SecsPart(seconds);
    MillisPart(seconds);
    Decompose(seconds.Floor);
  }

  /** Whole seconds are hours, minutes and seconds. */
  lemma Decompose(f: int)
    requires f >= 0
    ensures f / 3600 >= 0 && 0 <= (f % 3600) / 60 < 60 && 0 <= f % 60 < 60
    ensures (f / 3600) * 3600 + ((f % 3600) / 60) * 60 + f % 60 == f
  {
    var h, r := f / 3600, f % 3600;
    var m, sc := r / 60, r % 60;
    assert f == h * 3600 + r;
    assert r == m * 60 + sc;
    assert f == (f / 60) * 60 + f % 60;
    assert f % 60 == sc by {
      assert f == (h * 60 + m) * 60 + sc;
    }
  }

  /** A field of a non-negative number below 10^width printed
      `{n:0<width>d}`: exactly `width` digits that read back as n. */
  lemma Field(n: int, width: nat)
    requires 0 <= n && ((width == 2 && n < 100) || (width == 3 && n < 1000))
    ensures |Strings.ZeroPad(n, width)| == width
    ensures Strings.AllDigits(Strings.ZeroPad(n, width))
    ensures Strings.ParseDigits(Strings.ZeroPad(n, width)) == n
  {
    Strings.NatDigitsLength(n);
    Strings.ZeroPadNat(n, width);
  }

  /** Where the four fields and three separators of `Render` sit. */
  lemma Layout(hh: string, mm: string, ss: string, ms: string)
    requires |hh| == 2 && |mm| == 2 && |ss| == 2 && |ms| == 3
    ensures var t := hh + ":" + mm + ":" + ss + "," + ms;
      && |t| == 12 && t[2] == ':' && t[5] == ':' && t[8] == ','
      && t[0..2] == hh && t[3..5] == mm && t[6..8] == ss && t[9..12] == ms
  {
  }

  /** Below 100 hours the timestamp is 12 characters, `HH:MM:SS,mmm`: the
      separators sit at indices 2, 5 and 8 and each field reads back as the
      number it prints. */
  lemma TimestampShape(seconds: real)
    requires seconds >= 0.0 && Split(seconds).hours < 100
    ensures var t := Timestamp(seconds); var p := Split(seconds);
      && |t| == 12 && t[2] == ':' && t[5] == ':' && t[8] == ','
      && Strings.AllDigits(t[0..2]) && Strings.ParseDigits(t[0..2]) == p.hours
      && Strings.AllDigits(t[3..5]) && Strings.ParseDigits(t[3..5]) == p.minutes
      && Strings.AllDigits(t[6..8]) && Strings.ParseDigits(t[6..8]) == p.secs
      && Strings.AllDigits(t[9..12]) && Strings.ParseDigits(t[9..12]) == p.millis
  {
    var p := Split(seconds);
    SplitBounds(seconds);
    Field(p.hours, 2);
    Field(p.minutes, 2);
    Field(p.secs, 2);
    Field(p.millis, 3);
    Layout(Strings.ZeroPad(p.hours, 2), Strings.ZeroPad(p.minutes, 2),
           Strings.ZeroPad(p.secs, 2), Strings.ZeroPad(p.millis, 3));
  }

  /** From 100 hours on the hour field simply grows: the rest keeps its
      10 characters. */
  lemma TimestampLongHours(seconds: real)
    requires seconds >= 0.0 && Split(seconds).hours >= 100
    ensures |Timestamp(seconds)| == |Strings.NatDigits(Split(seconds).hours)| + 10
  {
    var p := Split(seconds);
    SplitBounds(seconds);
    Field(p.minutes, 2);
    Field(p.secs, 2);
    Field(p.millis, 3);
    Strings.NatDigitsLength(p.hours);
  }

  /** One hour, one minute, one and a quarter seconds. */
  lemma Example()
    ensures Split(3661.25) == Parts(1, 1, 1, 250)
  {
    SplitBounds(3661.25);
  }
}
