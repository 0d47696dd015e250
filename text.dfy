/**
 * The three formatting rules the generator uses for operands:
 * Ruby's String#capitalize for labels, Integer#to_s(16) for byte and bit
 * operands, and Integer#to_s(2).rjust(8, '0') for the tris mask.
 */
module Text {

  /** ASCII upper-casing of one character; anything else is unchanged. */
  function Upper(c: char): char {
    if 'a' <= c <= 'z' then (c as int - 32) as char else c
  }

  /** ASCII lower-casing of one character; anything else is unchanged. */
  function Lower(c: char): char {
    if 'A' <= c <= 'Z' then (c as int + 32) as char else c
  }

  function LowerAll(s: string): string {
    seq(|s|, i requires 0 <= i < |s| => Lower(s[i]))
  }

  /** String#capitalize: the first character upcased, every other one downcased. */
  function Capitalize(s: string): string {
    if s == [] then [] else [Upper(s[0])] + LowerAll(s[1..])
  }

  /** Two characters that differ at most in ASCII case. */
  predicate SameLetter(c: char, d: char) {
    Lower(c) == Lower(d)
  }

  /** Two identifiers that differ at most in ASCII case. */
  predicate SameIgnoringCase(s: string, t: string) {
    |s| == |t| && forall i :: 0 <= i < |s| ==> SameLetter(s[i], t[i])
  }

  /** A label is what Capitalize produces: no lower-case first letter, no upper-case letter after it. */
  predicate IsLabel(s: string) {
    (|s| > 0 ==> !('a' <= s[0] <= 'z')) && forall i :: 1 <= i < |s| ==> !('A' <= s[i] <= 'Z')
  }

  /** Capitalize keeps the identifier's letters, in order, and puts them in label form. */
  lemma CapitalizeShape(s: string)
    ensures SameIgnoringCase(Capitalize(s), s)
    ensures IsLabel(Capitalize(s))
  {
    var r := Capitalize(s);
    if s != [] {
      assert |r| == |s| && r[0] == Upper(s[0]);
      forall i | 1 <= i < |s| ensures r[i] == Lower(s[i]) {
      }
    }
  }

  /** A label is its own capitalized form; in particular Capitalize is idempotent. */
  lemma {:induction false} CapitalizeFixesLabels(s: string)
    requires IsLabel(s)
    ensures Capitalize(s) == s
  {
    if s != [] {
      var r := Capitalize(s);
      assert |r| == |s|;
      forall i | 0 <= i < |s| ensures r[i] == s[i] {
        if i > 0 {
          assert r[i] == Lower(s[i]);
        }
      }
    }
  }

  lemma CapitalizeIdempotent(s: string)
    ensures Capitalize(Capitalize(s)) == Capitalize(s)
  {
    CapitalizeShape(s);
    CapitalizeFixesLabels(Capitalize(s));
  }

  predicate NoUpper(s: string) {
    forall i :: 0 <= i < |s| ==> !('A' <= s[i] <= 'Z')
  }

  /** The usual case of a Ruby symbol: a lower-case identifier only has its first letter raised. */
  lemma CapitalizeIdentifier(c: char, s: string)
    requires NoUpper(s)
    ensures Capitalize([c] + s) == [Upper(c)] + s
  {
    assert ([c] + s)[1..] == s;
    assert LowerAll(s) == s;
  }

  /**
   * Two identifiers name the same label exactly when they differ at most in
   * ASCII case: `main`, `Main` and `MAIN` all become `Main`.
   */
  lemma {:induction false} CapitalizeSameLabel(s: string, t: string)
    ensures Capitalize(s) == Capitalize(t) <==> SameIgnoringCase(s, t)
  {
    var cs, ct := Capitalize(s), Capitalize(t);
    if cs == ct {
      CapitalizeShape(s);
      CapitalizeShape(t);
      forall i | 0 <= i < |s| ensures SameLetter(s[i], t[i]) {
        assert SameLetter(cs[i], s[i]) && SameLetter(ct[i], t[i]);
      }
    }
    if SameIgnoringCase(s, t) && s != [] {
      assert |cs| == |ct|;
      forall i | 0 <= i < |cs| ensures cs[i] == ct[i] {
        assert SameLetter(s[i], t[i]);
        if i > 0 {
          assert cs[i] == Lower(s[i]) && ct[i] == Lower(t[i]);
        }
      }
    }
  }

  // ---------------------------------------------------------------------------
  // Integer#to_s(base) for a non-negative integer

  function Pow(b: nat, k: nat): (p: nat)
    ensures b > 0 ==> p > 0
  {
    if k == 0 then 1 else b * Pow(b, k - 1)
  }

  /** The two radixes the generator writes numbers in: hexadecimal operands and the binary tris mask. */
  predicate IsRadix(base: nat) {
    base == 2 || base == 16
  }

  /** The lower-case digit for d, as Integer#to_s writes it. */
  function DigitChar(d: nat): char
    requires d < 16
  {
    if d < 10 then ('0' as int + d) as char else ('a' as int + d - 10) as char
  }

  function DigitValue(c: char): nat {
    if '0' <= c <= '9' then c as int - '0' as int
    else if 'a' <= c <= 'f' then c as int - 'a' as int + 10
    else 0
  }

  /** The digits of n in the given base, most significant first, without leading zeros. */
  function ToBase(n: nat, base: nat): (s: string)
    requires IsRadix(base)
    ensures 1 <= |s|
    decreases n
  {
    if n < base then [DigitChar(n)] else ToBase(n / base, base) + [DigitChar(n % base)]
  }

  /** The value of a digit string, read most significant digit first. */
  function FromBase(s: string, base: nat): nat {
    if s == [] then 0 else FromBase(s[..|s| - 1], base) * base + DigitValue(s[|s| - 1])
  }

  /** A digit of the base, written in lower case. */
  predicate IsDigit(c: char, base: nat) {
    ('0' <= c <= '9' || 'a' <= c <= 'f') && DigitValue(c) < base
  }

  /** What Integer#to_s(base) writes: digits of the base, and no leading zero unless the number is 0. */
  predicate Canonical(s: string, base: nat) {
    && |s| >= 1
    && (forall i :: 0 <= i < |s| ==> IsDigit(s[i], base))
    && (s[0] == '0' ==> |s| == 1)
  }

  function Hex(n: nat): string {
    ToBase(n, 16)
  }

  function Bin(n: nat): string {
    ToBase(n, 2)
  }

  lemma DivMod2(q: nat, d: nat)
    requires d < 2
    ensures (q * 2 + d) / 2 == q && (q * 2 + d) % 2 == d
  {
  }

  lemma DivMod16(q: nat, d: nat)
    requires d < 16
    ensures (q * 16 + d) / 16 == q && (q * 16 + d) % 16 == d
  {
  }

  lemma DivModSplit(n: nat, base: nat)
    requires IsRadix(base)
    ensures n == (n / base) * base + n % base && n % base < base
  {
  }

  /** Division by the base undoes "shift left by one digit and add d". */
  lemma DivMod(q: nat, base: nat, d: nat)
    requires IsRadix(base) && d < base
    ensures (q * base + d) / base == q && (q * base + d) % base == d
  {
    if base == 2 {
      DivMod2(q, d);
    } else {
      DivMod16(q, d);
    }
  }

  lemma DigitValueOfChar(d: nat)
    requires d < 16
    ensures DigitValue(DigitChar(d)) == d && IsDigit(DigitChar(d), d + 1)
  {
  }

  /** Reading back the digits gives the number. */
  lemma {:induction false} ToBaseRoundTrip(n: nat, base: nat)
    requires IsRadix(base)
    ensures FromBase(ToBase(n, base), base) == n
    decreases n
  {
    var s := ToBase(n, base);
    if n >= base {
      ToBaseRoundTrip(n / base, base);
      assert s[..|s| - 1] == ToBase(n / base, base);
      DivModSplit(n, base);
      DigitValueOfChar(n % base);
      assert FromBase(s, base) == (n / base) * base + n % base;
    } else {
      assert s[..|s| - 1] == [];
      DigitValueOfChar(n);
    }
  }

  /** The digits are lower-case digits of the base; the first is 0 only for the number 0. */
  lemma {:induction false} ToBaseCanonical(n: nat, base: nat)
    requires IsRadix(base)
    ensures Canonical(ToBase(n, base), base)
    ensures ToBase(n, base)[0] == '0' <==> n == 0
    decreases n
  {
    var s := ToBase(n, base);
    if n >= base {
      ToBaseCanonical(n / base, base);
      var p := ToBase(n / base, base);
      assert s == p + [DigitChar(n % base)];
      DigitValueOfChar(n % base);
      forall i | 0 <= i < |s| ensures IsDigit(s[i], base) {
        if i < |p| {
          assert s[i] == p[i];
        }
      }
      assert s[0] == p[0];
    } else {
      DigitValueOfChar(n);
    }
  }

  lemma {:induction false} FromBasePositive(s: string, base: nat)
    requires IsRadix(base) && Canonical(s, base) && s[0] != '0'
    ensures FromBase(s, base) >= 1
    decreases |s|
  {
    var p := s[..|s| - 1];
    if |s| > 1 {
      assert p[0] == s[0];
      assert Canonical(p, base) by {
        forall i | 0 <= i < |p| ensures IsDigit(p[i], base) {
          assert p[i] == s[i];
        }
      }
      FromBasePositive(p, base);
      var q := FromBase(p, base);
      assert q * base >= q by {
        if base == 2 {
          assert q * 2 == q + q;
        } else {
          assert q * 16 >= q;
        }
      }
    } else {
      assert p == [];
      assert FromBase(s, base) == DigitValue(s[0]) by {
        assert FromBase(p, base) == 0;
      }
      assert IsDigit(s[0], base);
    }
  }

  /** Conversely, every canonical digit string is what Integer#to_s writes for its value. */
  lemma {:induction false} FromBaseRoundTrip(s: string, base: nat)
    requires IsRadix(base)
    requires Canonical(s, base)
    ensures ToBase(FromBase(s, base), base) == s
    decreases |s|
  {
    var c := s[|s| - 1];
    var d := DigitValue(c);
    assert IsDigit(c, base);
    assert DigitChar(d) == c;
    var p := s[..|s| - 1];
    if |s| == 1 {
      assert p == [];
      assert FromBase(s, base) == d;
    } else {
      assert p[0] == s[0];
      assert Canonical(p, base) by {
        forall i | 0 <= i < |p| ensures IsDigit(p[i], base) {
          assert p[i] == s[i];
        }
      }
      FromBasePositive(p, base);
      FromBaseRoundTrip(p, base);
      var q := FromBase(p, base);
      assert FromBase(s, base) == q * base + d;
      DivMod(q, base, d);
      assert q * base + d >= base;
      assert s == p + [c];
    }
  }

  // ---------------------------------------------------------------------------
  // Digit positions

  /** The i-th digit of n counted from the right, starting at 0. */
  function Digit(n: nat, base: nat, i: nat): (d: nat)
    requires IsRadix(base)
    ensures d < base
  {
    if i == 0 then n % base else Digit(n / base, base, i - 1)
  }

  /** Bit i of t. */
  predicate Bit(t: nat, i: nat) {
    Digit(t, 2, i) == 1
  }

  /** The character i places from the right of ToBase(n, base) is the i-th digit of n. */
  lemma {:induction false} ToBaseDigitAt(n: nat, base: nat, i: nat)
    requires IsRadix(base) && i < |ToBase(n, base)|
    ensures ToBase(n, base)[|ToBase(n, base)| - 1 - i] == DigitChar(Digit(n, base, i))
    decreases n
  {
    var s := ToBase(n, base);
    if n < base {
      assert s == [DigitChar(n)];
      DivMod(0, base, n);
      assert Digit(n, base, 0) == n % base;
    } else {
      var p := ToBase(n / base, base);
      assert s == p + [DigitChar(n % base)];
      if i > 0 {
        ToBaseDigitAt(n / base, base, i - 1);
        assert s[|s| - 1 - i] == p[|p| - 1 - (i - 1)];
        assert Digit(n, base, i) == Digit(n / base, base, i - 1);
      }
    }
  }

  lemma {:induction false} DigitOfZero(base: nat, i: nat)
    requires IsRadix(base)
    ensures Digit(0, base, i) == 0
  {
    if i > 0 {
      DigitOfZero(base, i - 1);
    }
  }

  /** Past the written digits every digit of n is 0. */
  lemma {:induction false} ToBaseDigitBeyond(n: nat, base: nat, i: nat)
    requires IsRadix(base) && |ToBase(n, base)| <= i
    ensures Digit(n, base, i) == 0
    decreases n
  {
    if n < base {
      DigitOfZero(base, i - 1);
    } else {
      ToBaseDigitBeyond(n / base, base, i - 1);
    }
  }

  lemma {:induction false} BinShort(n: nat, k: nat)
    requires 1 <= k && n < Pow(2, k)
    ensures |Bin(n)| <= k
    decreases k
  {
    if n >= 2 {
      assert Pow(2, 1) == 2;
      assert k >= 2;
      assert Pow(2, k) == 2 * Pow(2, k - 1);
      assert n / 2 < Pow(2, k - 1);
      BinShort(n / 2, k - 1);
    }
  }

  // ---------------------------------------------------------------------------
  // String#rjust and the 8-digit binary field

  function RJust(s: string, width: nat, pad: char): string {
    if |s| >= width then s else seq(width - |s|, _ => pad) + s
  }

  /** Integer#to_s(2).rjust(8, '0'). */
  function Bin8(n: nat): string {
    RJust(Bin(n), 8, '0')
  }

  /** A short string padded on the left: the pad characters, then the string. */
  lemma RJustAt(s: string, width: nat, pad: char, j: nat)
    requires |s| <= width && j < width
    ensures |RJust(s, width, pad)| == width
    ensures RJust(s, width, pad)[j] == if j < width - |s| then pad else s[j - (width - |s|)]
  {
  }

  lemma BinByte(t: nat)
    requires t < 256
    ensures |Bin(t)| <= 8
  {
    assert Pow(2, 8) == 256;
    BinShort(t, 8);
  }

  /** For a byte value the field has exactly 8 characters, and the one 7 - i from the left shows bit i. */
  lemma Bin8Bits(t: nat, i: nat)
    requires t < 256 && i < 8
    ensures |Bin8(t)| == 8
    ensures Bin8(t)[7 - i] == if Bit(t, i) then '1' else '0'
  {
    var s := Bin(t);
    BinByte(t);
    assert DigitChar(0) == '0' && DigitChar(1) == '1';
    RJustAt(s, 8, '0', 7 - i);
    if i < |s| {
      ToBaseDigitAt(t, 2, i);
      assert 7 - i - (8 - |s|) == |s| - 1 - i;
    } else {
      ToBaseDigitBeyond(t, 2, i);
    }
  }
}
