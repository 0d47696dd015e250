/**
 * The pin mappings taken by config_io and set_io. A Ruby Hash such as
 * `{:gp0 => :out, :gp1 => :in}` is the sequence of its entries in insertion
 * order, each a pair of the key's and the value's symbol text.
 */
module Pins {
  import opened Wrappers
  import opened Text

  type Entry = (string, string)

  /** Hash#[]: the value of the last entry with the key, as a Hash literal keeps the last one. */
  function Lookup(m: seq<Entry>, key: string): Option<string> {
    if m == [] then None
    else if m[|m| - 1].0 == key then Some(m[|m| - 1].1)
    else Lookup(m[..|m| - 1], key)
  }

  /** No key occurs twice, as in any Ruby Hash. */
  predicate DistinctKeys(m: seq<Entry>) {
    forall i, j :: 0 <= i < j < |m| ==> m[i].0 != m[j].0
  }

  /** The four pins config_io knows, gp0 to gp3. */
  function PinName(i: nat): string
    requires i < 4
  {
    if i == 0 then "gp0" else if i == 1 then "gp1" else if i == 2 then "gp2" else "gp3"
  }

  /** The bit config_io sets or clears for a key; 0 for a key its `case` skips. */
  function PinMask(pin: string): nat {
    if pin == "gp0" then 0x1
    else if pin == "gp1" then 0x2
    else if pin == "gp2" then 0x4
    else if pin == "gp3" then 0x8
    else 0
  }

  predicate IsPinMask(mask: nat) {
    mask == 1 || mask == 2 || mask == 4 || mask == 8
  }

  /** `tris &= ~mask`, for a mask with a single bit. */
  function ClearMask(tris: nat, mask: nat): nat
    requires IsPinMask(mask)
  {
    if tris / mask % 2 == 1 then tris - mask else tris
  }

  /** `tris |= mask`, for a mask with a single bit. */
  function SetMask(tris: nat, mask: nat): nat
    requires IsPinMask(mask)
  {
    if tris / mask % 2 == 1 then tris else tris + mask
  }

  /** 1 when the pin is mapped to anything but :out; 0 when it is mapped to :out or not mapped. */
  function Input(m: seq<Entry>, pin: string): nat {
    match Lookup(m, pin)
    case Some(state) => if state == "out" then 0 else 1
    case None => 0
  }

  /**
   * The tris value config_io writes, stated independently of the order of the
   * entries: bit i is set exactly when pin gp<i> is an input.
   */
  function Mask(m: seq<Entry>): nat {
    Input(m, "gp0") + 2 * Input(m, "gp1") + 4 * Input(m, "gp2") + 8 * Input(m, "gp3")
  }

  lemma LookupSnoc(m: seq<Entry>, e: Entry, key: string)
    ensures Lookup(m + [e], key) == if e.0 == key then Some(e.1) else Lookup(m, key)
  {
    assert (m + [e])[..|m|] == m;
  }

  /**
   * One iteration of config_io's loop: starting from the mask of the entries
   * seen so far, the `case` on the next entry's key (clear the bit for :out,
   * set it otherwise, skip unknown keys) gives the mask of one more entry.
   */
  lemma MaskStep(m: seq<Entry>, pin: string, state: string)
    ensures var t, mask := Mask(m), PinMask(pin);
      Mask(m + [(pin, state)]) ==
        if mask == 0 then t
        else if state == "out" then ClearMask(t, mask)
        else SetMask(t, mask)
  {
    InputSnoc(m, pin, state, "gp0");
    InputSnoc(m, pin, state, "gp1");
    InputSnoc(m, pin, state, "gp2");
    InputSnoc(m, pin, state, "gp3");
    var a, b, c, d := Input(m, "gp0"), Input(m, "gp1"), Input(m, "gp2"), Input(m, "gp3");
    var v := if state == "out" then 0 else 1;
    if pin == "gp0" {
      Replace0(a, b, c, d, v);
    } else if pin == "gp1" {
      Replace1(a, b, c, d, v);
    } else if pin == "gp2" {
      Replace2(a, b, c, d, v);
    } else if pin == "gp3" {
      Replace3(a, b, c, d, v);
    }
  }

  lemma InputSnoc(m: seq<Entry>, pin: string, state: string, key: string)
    ensures Input(m + [(pin, state)], key) ==
      if pin == key then (if state == "out" then 0 else 1) else Input(m, key)
  {
    LookupSnoc(m, (pin, state), key);
  }

  // Clearing or setting one bit of a + 2b + 4c + 8d replaces that digit by v.

  lemma Replace0(a: nat, b: nat, c: nat, d: nat, v: nat)
    requires a < 2 && b < 2 && c < 2 && d < 2 && v < 2
    ensures var t := a + 2 * b + 4 * c + 8 * d;
      v + 2 * b + 4 * c + 8 * d == if v == 0 then ClearMask(t, 1) else SetMask(t, 1)
  {
    var t := a + 2 * b + 4 * c + 8 * d;
    assert t / 1 % 2 == a;
  }

  lemma Replace1(a: nat, b: nat, c: nat, d: nat, v: nat)
    requires a < 2 && b < 2 && c < 2 && d < 2 && v < 2
    ensures var t := a + 2 * b + 4 * c + 8 * d;
      a + 2 * v + 4 * c + 8 * d == if v == 0 then ClearMask(t, 2) else SetMask(t, 2)
  {
    var t := a + 2 * b + 4 * c + 8 * d;
    assert t / 2 == b + 2 * c + 4 * d;
  }

  lemma Replace2(a: nat, b: nat, c: nat, d: nat, v: nat)
    requires a < 2 && b < 2 && c < 2 && d < 2 && v < 2
    ensures var t := a + 2 * b + 4 * c + 8 * d;
      a + 2 * b + 4 * v + 8 * d == if v == 0 then ClearMask(t, 4) else SetMask(t, 4)
  {
    var t := a + 2 * b + 4 * c + 8 * d;
    assert t / 4 == c + 2 * d;
  }

  lemma Replace3(a: nat, b: nat, c: nat, d: nat, v: nat)
    requires a < 2 && b < 2 && c < 2 && d < 2 && v < 2
    ensures var t := a + 2 * b + 4 * c + 8 * d;
      a + 2 * b + 4 * c + 8 * v == if v == 0 then ClearMask(t, 8) else SetMask(t, 8)
  {
    var t := a + 2 * b + 4 * c + 8 * d;
    assert t / 8 == d;
  }

  lemma MaskBelow16(m: seq<Entry>)
    ensures Mask(m) < 16
  {
  }

  /** Bit i of the mask, for every bit of the byte: only gp0 to gp3 have bits, and each is set iff the pin is an input. */
  lemma MaskBits(m: seq<Entry>, i: nat)
    requires i < 8
    ensures Bit(Mask(m), i) <==> i < 4 && Input(m, PinName(i)) == 1
  {
    var t := Mask(m);
    NibbleDigits(Input(m, "gp0"), Input(m, "gp1"), Input(m, "gp2"), Input(m, "gp3"));
    if i >= 4 {
      DigitAboveNibble(t, i);
    }
  }

  /** The four binary digits of a nibble written as a + 2b + 4c + 8d. */
  lemma NibbleDigits(a: nat, b: nat, c: nat, d: nat)
    requires a < 2 && b < 2 && c < 2 && d < 2
    ensures var t := a + 2 * b + 4 * c + 8 * d;
      t < 16 && Digit(t, 2, 0) == a && Digit(t, 2, 1) == b && Digit(t, 2, 2) == c && Digit(t, 2, 3) == d
  {
    var t := a + 2 * b + 4 * c + 8 * d;
    assert Digit(t, 2, 0) == a;
    assert Digit(t, 2, 1) == Digit(t / 2, 2, 0) == b;
    assert Digit(t, 2, 2) == Digit(t / 4, 2, 0) == c by {
      assert t / 2 / 2 == t / 4;
    }
    assert Digit(t, 2, 3) == Digit(t / 2, 2, 2) == Digit(t / 4, 2, 1) == Digit(t / 8, 2, 0) == d by {
      assert t / 2 / 2 == t / 4 && t / 4 / 2 == t / 8;
    }
  }

  /** A value below 16 has no digit 1 from bit 4 upwards. */
  lemma DigitAboveNibble(t: nat, i: nat)
    requires t < 16 && 4 <= i
    ensures Digit(t, 2, i) == 0
  {
    assert Digit(t, 2, i) == Digit(t / 2, 2, i - 1);
    assert Digit(t / 2, 2, i - 1) == Digit(t / 4, 2, i - 2) by {
      assert t / 2 / 2 == t / 4;
    }
    assert Digit(t / 4, 2, i - 2) == Digit(t / 8, 2, i - 3) by {
      assert t / 4 / 2 == t / 8;
    }
    assert Digit(t / 8, 2, i - 3) == Digit(0, 2, i - 4) by {
      assert t / 8 / 2 == 0;
    }
    DigitOfZero(2, i - 4);
  }

  lemma {:induction false} LookupMember(m: seq<Entry>, key: string, v: string)
    requires DistinctKeys(m)
    ensures Lookup(m, key) == Some(v) <==> (key, v) in m
  {
    if m != [] {
      var init, last := m[..|m| - 1], m[|m| - 1];
      assert m == init + [last];
      assert DistinctKeys(init);
      LookupMember(init, key, v);
      if last.0 == key {
        forall e | e in init ensures e.0 != key {
          var i :| 0 <= i < |init| && init[i] == e;
          assert m[i].0 != m[|m| - 1].0;
        }
      }
    }
  }

  lemma LookupSame(m: seq<Entry>, n: seq<Entry>, key: string)
    requires DistinctKeys(m) && DistinctKeys(n)
    requires forall e :: e in m <==> e in n
    ensures Lookup(m, key) == Lookup(n, key)
  {
    match Lookup(m, key)
    case Some(v) =>
      LookupMember(m, key, v);
      LookupMember(n, key, v);
    case None =>
      match Lookup(n, key)
      case Some(w) =>
        LookupMember(m, key, w);
        LookupMember(n, key, w);
      case None =>
  }

  /** The order of the entries of a Hash does not change the mask config_io writes. */
  lemma MaskOrderIndependent(m: seq<Entry>, n: seq<Entry>)
    requires DistinctKeys(m) && DistinctKeys(n)
    requires forall e :: e in m <==> e in n
    ensures Mask(m) == Mask(n)
  {
    LookupSame(m, n, "gp0");
    LookupSame(m, n, "gp1");
    LookupSame(m, n, "gp2");
    LookupSame(m, n, "gp3");
  }

  /** The instruction set_io writes for one entry, or None for a key it aborts on. */
  function PortLine(pin: string, state: string): Option<string> {
    if pin == "gp0" then Some(if state == "hi" then "\tbsf\tGPIO, 0" else "\tbcf\tGPIO, 0")
    else if pin == "gp1" then Some(if state == "hi" then "\tbsf\tGPIO, 1" else "\tbcf\tGPIO, 1")
    else if pin == "gp2" then Some(if state == "hi" then "\tbsf\tGPIO, 2" else "\tbcf\tGPIO, 2")
    else None
  }
}
