/**
 * The few JavaScript string primitives the application relies on, written out:
 * `Number.prototype.toString` on non-negative integers, `String.prototype.padStart`,
 * `String.prototype.trim` and `String.prototype.includes`.
 */
module Text {
  import opened Wrappers

  function Max(a: int, b: int): int { if a >= b then a else b }

  function Pow10(k: nat): (p: nat)
    ensures p >= 1
  {
    if k == 0 then 1 else 10 * Pow10(k - 1)
  }

  // ---------------------------------------------------------------------------
  // Decimal digits

  predicate IsDigit(c: char) { '0' <= c <= '9' }

  predicate AllDigits(s: string) { forall i :: 0 <= i < |s| ==> IsDigit(s[i]) }

  function DigitChar(d: nat): (c: char)
    requires d < 10
    ensures IsDigit(c) && c as int - '0' as int == d
  {
    ('0' as int + d) as char
  }

  function DigitValue(c: char): nat
    requires IsDigit(c)
  {
    c as int - '0' as int
  }

  /** `n.toString()` for a non-negative integer: its decimal digits, without leading zeros. */
  function NatToString(n: nat): (s: string)
    decreases n
  {
    if n < 10 then [DigitChar(n)] else NatToString(n / 10) + [DigitChar(n % 10)]
  }

  lemma {:induction false} NatToStringDigits(n: nat)
    ensures |NatToString(n)| >= 1 && AllDigits(NatToString(n))
    decreases n
  {
    if n >= 10 { NatToStringDigits(n / 10); }
  }

  /** The number a string of decimal digits denotes (leading zeros allowed). */
  function DecimalValue(s: string): nat
    requires AllDigits(s)
  {
    if s == [] then 0 else DecimalValue(s[..|s| - 1]) * 10 + DigitValue(s[|s| - 1])
  }

  /** Reading the digits back gives the number: NatToString has DecimalValue as inverse. */
  lemma {:induction false} DecimalValueOfNatToString(n: nat)
    ensures AllDigits(NatToString(n)) && DecimalValue(NatToString(n)) == n
    decreases n
  {
    NatToStringDigits(n);
    if n >= 10 {
      DecimalValueOfNatToString(n / 10);
      var s := NatToString(n);
      assert s[..|s| - 1] == NatToString(n / 10);
    }
  }

  /** Different numbers render differently (so `speaker_<k>` identifiers are distinct). */
  lemma NatToStringInjective(a: nat, b: nat)
    ensures NatToString(a) == NatToString(b) ==> a == b
  {
    DecimalValueOfNatToString(a);
    DecimalValueOfNatToString(b);
  }

  lemma {:induction false} Pow10AtLeastTen(w: nat)
    requires w >= 1
    ensures Pow10(w) >= 10
  {
    if w > 1 { Pow10AtLeastTen(w - 1); }
  }

  /** The rendering of n fits in w characters exactly when n < 10^w. */
  lemma {:induction false} NatToStringLength(n: nat, w: nat)
    requires w >= 1
    ensures |NatToString(n)| <= w <==> n < Pow10(w)
    decreases n
  {
    if n < 10 {
      Pow10AtLeastTen(w);
    } else if w == 1 {
      NatToStringDigits(n / 10);
      assert |NatToString(n)| == |NatToString(n / 10)| + 1;
    } else {
      NatToStringLength(n / 10, w - 1);
      assert |NatToString(n)| == |NatToString(n / 10)| + 1;
      assert Pow10(w) == 10 * Pow10(w - 1);
    }
  }

  /** The value of a concatenation of digit strings. */
  lemma {:induction false} DecimalValueAppend(a: string, b: string)
    requires AllDigits(a) && AllDigits(b)
    ensures AllDigits(a + b)
    ensures DecimalValue(a + b) == DecimalValue(a) * Pow10(|b|) + DecimalValue(b)
    decreases |b|
  {
    if b == [] {
      assert a + b == a;
    } else {
      var b' := b[..|b| - 1];
      assert (a + b)[..|a + b| - 1] == a + b';
      DecimalValueAppend(a, b');
      var x, p, y, d := DecimalValue(a), Pow10(|b'|), DecimalValue(b'), DigitValue(b[|b| - 1]);
      assert DecimalValue(a + b) == (x * p + y) * 10 + d;
      ShiftDigit(x, p, y, d);
      assert Pow10(|b|) == p * 10;
    }
  }

  lemma ShiftDigit(x: int, p: int, y: int, d: int)
    ensures (x * p + y) * 10 + d == x * (p * 10) + (y * 10 + d)
  {
  }

  lemma {:induction false} DecimalValueOfZeros(k: nat)
    ensures AllDigits(seq(k, _ => '0')) && DecimalValue(seq(k, _ => '0')) == 0
  {
    if k > 0 {
      var z := seq(k, _ => '0');
      assert z[..k - 1] == seq(k - 1, _ => '0');
      DecimalValueOfZeros(k - 1);
    }
  }

  // ---------------------------------------------------------------------------
  // padStart

  /** `s.padStart(width, pad)`: s preceded by enough copies of pad to reach width. */
  function PadStart(s: string, width: nat, pad: char): (r: string)
    ensures |r| == Max(|s|, width)
  {
    if |s| >= width then s else seq(width - |s|, _ => pad) + s
  }

  /** A zero-padded number is still all digits and still denotes the number. */
  lemma PaddedDecimal(n: nat, width: nat)
    ensures var r := PadStart(NatToString(n), width, '0');
      && |r| == Max(|NatToString(n)|, width)
      && AllDigits(r)
      && DecimalValue(r) == n
  {
    var s := NatToString(n);
    DecimalValueOfNatToString(n);
    NatToStringDigits(n);
    if |s| < width {
      var z := seq(width - |s|, _ => '0');
      DecimalValueOfZeros(width - |s|);
      DecimalValueAppend(z, s);
    }
  }

  // ---------------------------------------------------------------------------
  // trim

  /** The WhiteSpace and LineTerminator code points that `String.prototype.trim` removes. */
  predicate IsJsWhitespace(c: char) {
    || c == '\t' || c == '\n' || c == '\U{000B}' || c == '\U{000C}' || c == '\r'
    || c == ' ' || c == '\U{00A0}' || c == '\U{1680}' || ('\U{2000}' <= c <= '\U{200A}')
    || c == '\U{2028}' || c == '\U{2029}' || c == '\U{202F}' || c == '\U{205F}'
    || c == '\U{3000}' || c == '\U{FEFF}'
  }

  function TrimStart(s: string): string
  {
    if s != [] && IsJsWhitespace(s[0]) then TrimStart(s[1..]) else s
  }

  function TrimEnd(s: string): string
  {
    if s != [] && IsJsWhitespace(s[|s| - 1]) then TrimEnd(s[..|s| - 1]) else s
  }

  /** `s.trim()`. */
  function Trim(s: string): string
  {
    TrimEnd(TrimStart(s))
  }

  lemma {:induction false} TrimStartShape(s: string)
    ensures var r := TrimStart(s);
      && |r| <= |s| && r == s[|s| - |r|..]
      && (r == [] || !IsJsWhitespace(r[0]))
      && forall i :: 0 <= i < |s| - |r| ==> IsJsWhitespace(s[i])
  {
    if s != [] && IsJsWhitespace(s[0]) {
      var t := s[1..];
      TrimStartShape(t);
      var r := TrimStart(t);
      assert TrimStart(s) == r;
      assert s[|s| - |r|..] == t[|t| - |r|..];
      forall i | 0 <= i < |s| - |r|
        ensures IsJsWhitespace(s[i])
      {
        if i > 0 {
          assert s[i] == t[i - 1];
        }
      }
    }
  }

  lemma {:induction false} TrimEndShape(s: string)
    ensures var r := TrimEnd(s);
      && |r| <= |s| && r == s[..|r|]
      && (r == [] || !IsJsWhitespace(r[|r| - 1]))
      && forall i :: |r| <= i < |s| ==> IsJsWhitespace(s[i])
  {
    if s != [] && IsJsWhitespace(s[|s| - 1]) {
      TrimEndShape(s[..|s| - 1]);
    }
  }

  /**
   * What trim leaves: a contiguous piece of s that neither begins nor ends with
   * white space, everything cut off being white space.
   */
  lemma TrimShape(s: string)
    ensures var r := Trim(s);
      && Occurs(s, r)
      && (r == [] || (!IsJsWhitespace(r[0]) && !IsJsWhitespace(r[|r| - 1])))
  {
    var t := TrimStart(s);
    TrimStartShape(s);
    TrimEndShape(t);
    var r := TrimEnd(t);
    var a := |s| - |t|;
    assert OccursAt(s, r, a);
  }

  /** A string trims to "" exactly when it is white space only (the "empty input" checks). */
  lemma TrimEmptyIff(s: string)
    ensures Trim(s) == [] <==> forall i :: 0 <= i < |s| ==> IsJsWhitespace(s[i])
  {
    var t := TrimStart(s);
    TrimStartShape(s);
    TrimEndShape(t);
    if Trim(s) != [] {
      TrimShape(s);
      var r := Trim(s);
      var a: nat :| OccursAt(s, r, a);
      assert s[a] == r[0];
    }
  }

  /** A string that neither begins nor ends with white space is its own trim. */
  lemma TrimUnpadded(s: string)
    requires s == [] || (!IsJsWhitespace(s[0]) && !IsJsWhitespace(s[|s| - 1]))
    ensures Trim(s) == s
  {
    assert TrimStart(s) == s;
  }

  /** Trimming twice is trimming once: stored texts are already trimmed. */
  lemma TrimIdempotent(s: string)
    ensures Trim(Trim(s)) == Trim(s)
  {
    var r := Trim(s);
    TrimShape(s);
    TrimStartShape(r);
    assert TrimStart(r) == r;
    TrimEndShape(r);
  }

  // ---------------------------------------------------------------------------
  // includes

  predicate OccursAt(text: string, key: string, i: nat) {
    i + |key| <= |text| && text[i..i + |key|] == key
  }

  /** `text.includes(key)`, as a property: key occurs somewhere in text. */
  ghost predicate Occurs(text: string, key: string) {
    exists i: nat :: OccursAt(text, key, i)
  }

  /** The first position at or after `from` where key occurs (a left-to-right scan). */
  function IndexOf(text: string, key: string, from: nat): (r: Option<nat>)
    ensures r.Some? ==> from <= r.value && OccursAt(text, key, r.value)
    ensures r.Some? ==> forall i: nat :: from <= i < r.value ==> !OccursAt(text, key, i)
    ensures r.None? ==> forall i: nat :: from <= i ==> !OccursAt(text, key, i)
    decreases |text| - from
  {
    if from + |key| > |text| then None
    else if text[from..from + |key|] == key then Some(from)
    else IndexOf(text, key, from + 1)
  }

  /** `text.includes(key)`; the empty key occurs in every text. */
  function Includes(text: string, key: string): (b: bool)
    ensures b <==> Occurs(text, key)
  {
    IndexOf(text, key, 0).Some?
  }
}
