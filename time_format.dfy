/**
 * The clock renderings of the meeting transcriber: `formatTimestamp` (MM:SS, or HH:MM:SS
 * once an hour has passed), `formatSRTTimestamp` (HH:MM:SS,mmm) and `formatDuration`
 * (always HH:MM:SS). All take milliseconds; every field is zero-padded with `padStart`,
 * so an hours field of 100 or more simply grows.
 */
module TimeFormat {
  import opened Text

  function Pad2(n: nat): string { PadStart(NatToString(n), 2, '0') }

  function Pad3(n: nat): string { PadStart(NatToString(n), 3, '0') }

  /** HH:MM:SS of a count of seconds. */
  function Clock(totalSeconds: nat): string
  {
    var hours := totalSeconds / 3600;
    var minutes := (totalSeconds % 3600) / 60;
    var seconds := totalSeconds % 60;
    Pad2(hours) + ":" + Pad2(minutes) + ":" + Pad2(seconds)
  }

  /** `formatTimestamp(ms)`: the hours field is left out while it would be 0. */
  function FormatTimestamp(ms: nat): string
  {
    var totalSeconds := ms / 1000;
    var hours := totalSeconds / 3600;
    var minutes := (totalSeconds % 3600) / 60;
    var seconds := totalSeconds % 60;
    if hours > 0 then Clock(totalSeconds) else Pad2(minutes) + ":" + Pad2(seconds)
  }

  /** `formatSRTTimestamp(ms)`. */
  function FormatSrtTimestamp(ms: nat): string
  {
    Clock(ms / 1000) + "," + Pad3(ms % 1000)
  }

  /** `formatDuration(ms)` of the application (its elapsed-time display). */
  function FormatDuration(ms: nat): string
  {
    Clock(ms / 1000)
  }

  lemma Pad2Small(n: nat)
    requires n < 100
    ensures |Pad2(n)| == 2 && AllDigits(Pad2(n)) && DecimalValue(Pad2(n)) == n
  {
    PaddedDecimal(n, 2);
    NatToStringLength(n, 2);
  }

  /** Whole hours, minutes below 60 and seconds below 60 of a count of seconds. */
  lemma ClockSplit(t: nat) returns (h: nat, m: nat, s: nat)
    ensures t == h * 3600 + m * 60 + s && m < 60 && s < 60
    ensures h < 100 <==> t < 360000
    ensures Clock(t) == Pad2(h) + ":" + Pad2(m) + ":" + Pad2(s)
  {
    h, m, s := t / 3600, (t % 3600) / 60, t % 60;
    var rest := t % 3600;
    assert t == h * 3600 + rest && rest < 3600;
    assert rest == m * 60 + rest % 60 && m < 60;
    assert rest % 60 == s && s < 60;
    if h < 100 {
      assert t < (h + 1) * 3600;
    } else {
      assert t >= 100 * 3600;
    }
  }

  /**
   * r has the HH:MM:SS layout and reads back as total seconds: an hours field of at least
   * two digits, a colon, two-digit minutes below 60, a colon, two-digit seconds below 60.
   */
  predicate ReadsBackAsSeconds(r: string, total: nat)
  {
    var p := |r| - 6;
    && p >= 2 && r[p] == ':' && r[p + 3] == ':'
    && AllDigits(r[..p]) && AllDigits(r[p + 1..p + 3]) && AllDigits(r[p + 4..])
    && DecimalValue(r[p + 1..p + 3]) < 60 && DecimalValue(r[p + 4..]) < 60
    && DecimalValue(r[..p]) * 3600 + DecimalValue(r[p + 1..p + 3]) * 60 + DecimalValue(r[p + 4..]) == total
  }

  /** The three zero-padded fields of an HH:MM:SS rendering, read back. */
  lemma HmsFields(h: nat, m: nat, s: nat)
    requires m < 60 && s < 60
    ensures var r := Pad2(h) + ":" + Pad2(m) + ":" + Pad2(s);
      && ReadsBackAsSeconds(r, h * 3600 + m * 60 + s)
      && (|r| == 8 <==> h < 100)
      && DecimalValue(r[..|r| - 6]) == h
  {
    PaddedDecimal(h, 2);
    NatToStringLength(h, 2);
    Pad2Small(m);
    Pad2Small(s);
    var a, b, c := Pad2(h), Pad2(m), Pad2(s);
    var r := a + ":" + b + ":" + c;
    var p := |a|;
    assert r[..p] == a && r[p + 1..p + 3] == b && r[p + 4..] == c;
  }

  /** Clock(t) reads back as t, with exactly two hour digits below 100 hours. */
  lemma ClockFields(t: nat)
    ensures ReadsBackAsSeconds(Clock(t), t)
    ensures |Clock(t)| == 8 <==> t < 360000
  {
    var h, m, s := ClockSplit(t);
    HmsFields(h, m, s);
  }

  /** formatDuration always shows the hours, and its three fields read back as the seconds elapsed. */
  lemma DurationFields(ms: nat)
    ensures ReadsBackAsSeconds(FormatDuration(ms), ms / 1000)
  {
    ClockFields(ms / 1000);
  }

  /** Below one hour formatTimestamp is MM:SS of the whole minutes and seconds. */
  lemma ShortTimestamp(ms: nat) returns (m: nat, s: nat)
    requires ms < 3600000
    ensures m < 60 && s < 60 && m * 60 + s == ms / 1000
    ensures FormatTimestamp(ms) == Pad2(m) + ":" + Pad2(s)
  {
    var t := ms / 1000;
    m, s := (t % 3600) / 60, t % 60;
    assert t < 3600;
  }

  /** The MM:SS rendering below one hour, read back. */
  lemma MinutesFields(ms: nat)
    requires ms < 3600000
    ensures var r := FormatTimestamp(ms);
      && |r| == 5 && r[2] == ':' && AllDigits(r[..2]) && AllDigits(r[3..])
      && DecimalValue(r[..2]) < 60 && DecimalValue(r[3..]) < 60
      && DecimalValue(r[..2]) * 60 + DecimalValue(r[3..]) == ms / 1000
  {
    var m, s := ShortTimestamp(ms);
    Pad2Small(m);
    Pad2Small(s);
    var r := Pad2(m) + ":" + Pad2(s);
    assert r[..2] == Pad2(m);
    assert r[3..] == Pad2(s);
  }

  /** The HH:MM:SS rendering from one hour on, read back, with at least one hour. */
  lemma HoursFields(ms: nat)
    requires ms >= 3600000
    ensures var r := FormatTimestamp(ms);
      && r == Clock(ms / 1000)
      && ReadsBackAsSeconds(r, ms / 1000)
      && DecimalValue(r[..|r| - 6]) >= 1
  {
    var t := ms / 1000;
    assert t / 3600 > 0;
    var h, m, s := ClockSplit(t);
    HmsFields(h, m, s);
  }

  /**
   * formatTimestamp gives MM:SS below one hour and the full HH:MM:SS (hours at least 1)
   * from one hour on; either way the fields read back as the whole seconds of ms.
   */
  lemma TimestampFields(ms: nat)
    ensures var r := FormatTimestamp(ms);
      && (ms < 3600000 ==>
            && |r| == 5 && r[2] == ':' && AllDigits(r[..2]) && AllDigits(r[3..])
            && DecimalValue(r[..2]) < 60 && DecimalValue(r[3..]) < 60
            && DecimalValue(r[..2]) * 60 + DecimalValue(r[3..]) == ms / 1000)
      && (ms >= 3600000 ==>
            && r == Clock(ms / 1000)
            && ReadsBackAsSeconds(r, ms / 1000)
            && DecimalValue(r[..|r| - 6]) >= 1)
  {
    if ms < 3600000 {
      MinutesFields(ms);
    } else {
      HoursFields(ms);
    }
  }

  /**
   * An SRT time reads back as the exact millisecond count: HH:MM:SS of the whole seconds
   * (two-digit hours below 100 hours), a comma, and three zero-padded milliseconds.
   */
  lemma SrtTimestampFields(ms: nat)
    ensures var r := FormatSrtTimestamp(ms); var c := r[..|r| - 4];
      && |r| >= 12 && r[|r| - 4] == ','
      && ReadsBackAsSeconds(c, ms / 1000)
      && (|r| == 12 <==> ms < 360000000)
      && AllDigits(r[|r| - 3..]) && DecimalValue(r[|r| - 3..]) == ms % 1000
      && (ms / 1000) * 1000 + DecimalValue(r[|r| - 3..]) == ms
  {
    var t := ms / 1000;
    ClockFields(t);
    var c := Clock(t);
    var f := Pad3(ms % 1000);
    PaddedDecimal(ms % 1000, 3);
    NatToStringLength(ms % 1000, 3);
    var r := FormatSrtTimestamp(ms);
    assert r == c + "," + f;
    assert r[..|r| - 4] == c;
    assert r[|r| - 3..] == f;
  }
}
