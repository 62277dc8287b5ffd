/**
 * Clock texts. Bookings store their time as a zero-padded 24-hour "HH:MM";
 * internally the slot search works on minutes after midnight.
 */
module Clock {
  import opened Text

  /** A zero-padded 24-hour clock text: hours 00-23, minutes 00-59. */
  predicate IsHhMm(s: string) {
    |s| == 5 && s[2] == ':' && AllDigits(s[..2]) && AllDigits(s[3..])
    && DigitsValue(s[..2]) <= 23 && DigitsValue(s[3..]) <= 59
  }

  /** The minutes after midnight that an "HH:MM" text stands for. */
  function MinutesOf(s: string): (m: int)
    requires IsHhMm(s)
    ensures 0 <= m < 1440
  {
    DigitsValue(s[..2]) * 60 + DigitsValue(s[3..])
  }

  /** The rendering `f"{m // 60:02d}:{m % 60:02d}"` of a minute count. */
  function HhMm(m: int): string {
    Pad2(m / 60) + ":" + Pad2(m % 60)
  }

  /**
   * The shape of every text the time normaliser produces: at least two digits,
   * a colon, and exactly two digits. It need not be a valid clock time
   * ("25:00" and "18:75" have this shape).
   */
  predicate TimeText(s: string) {
    |s| >= 5 && s[|s| - 3] == ':' && AllDigits(s[..|s| - 3]) && AllDigits(s[|s| - 2..])
  }

  lemma HhMmParts(m: int)
    requires 0 <= m < 1440
    ensures HhMm(m)[..2] == Pad2(m / 60) && HhMm(m)[3..] == Pad2(m % 60)
  {
    var s := HhMm(m);
    assert s == Pad2(m / 60) + ":" + Pad2(m % 60);
  }

  /** Rendering a minute of the day gives a valid clock text for the same minute. */
  lemma HhMmValid(m: int)
    requires 0 <= m < 1440
    ensures IsHhMm(HhMm(m))
    ensures MinutesOf(HhMm(m)) == m
  {
    HhMmParts(m);
  }

  /** Different minutes of the day render differently. */
  lemma HhMmInjective(a: int, b: int)
    requires 0 <= a < 1440 && 0 <= b < 1440
    requires HhMm(a) == HhMm(b)
    ensures a == b
  {
    HhMmValid(a);
    HhMmValid(b);
  }

  /** The same, stated for distinct minutes. */
  lemma HhMmDistinct(a: int, b: int)
    requires 0 <= a < 1440 && 0 <= b < 1440
    requires a != b
    ensures HhMm(a) != HhMm(b)
  {
    HhMmValid(a);
    HhMmValid(b);
  }

  /** A valid clock text is the rendering of its own minute count. */
  lemma HhMmOfMinutes(s: string)
    requires IsHhMm(s)
    ensures HhMm(MinutesOf(s)) == s
  {
    var m := MinutesOf(s);
    assert m / 60 == DigitsValue(s[..2]);
    assert m % 60 == DigitsValue(s[3..]);
    Pad2OfDigits(s[..2]);
    Pad2OfDigits(s[3..]);
    HhMmSplit(s);
  }

  /** A clock text is its hour digits, a colon and its minute digits. */
  lemma HhMmSplit(s: string)
    requires IsHhMm(s)
    ensures s == s[..2] + ":" + s[3..]
  {
    assert s == s[..2] + s[2..3] + s[3..];
  }

  /** Rendering keeps the normaliser's shape for any non-negative minute count. */
  lemma HhMmIsTimeText(m: int)
    requires 0 <= m
    ensures TimeText(HhMm(m))
  {
    var a := Pad2(m / 60);
    var b := Pad2(m % 60);
    var s := a + ":" + b;
    assert s[..|s| - 3] == a;
    assert s[|s| - 2..] == b;
  }

  /** A valid clock text has the normaliser's shape. */
  lemma ValidClockIsTimeText(s: string)
    requires IsHhMm(s)
    ensures TimeText(s)
  {
  }
}
