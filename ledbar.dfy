/** The running light of main.c: moveBar lights three neighbouring LEDs of
    the 16-LED PCA9532 bar, ending at the current bar position, and then
    advances the position. */
module LedBar {
  import opened Platform

  /** Number of LEDs on the bar. */
  const Leds: nat := 16

  /** Whether LED i is lit in a PCA9532 bit mask. */
  predicate Lit(mask: bv16, i: nat)
    requires i < Leds
  {
    (mask >> i) & 1 == 1
  }

  /** The ledOn mask moveBar computes for a position: LEDs pos-2, pos-1 and
      pos, wrapping round from LED 0 to LEDs 14 and 15. */
  function BarMask(pos: nat): (mask: bv16)
    requires pos < Leds
    ensures mask != 0
  {
    if pos == 0 then 1 | (3 << 14)
    else if pos == 1 then 3 | (1 << 15)
    else 7 << (pos - 2)
  }

  /** The new barPos: barPos is a uint8_t, so barPos + dir * steps is cut to
      8 bits on assignment before the reduction modulo 16. */
  function Advance(pos: Byte, steps: Byte, dir: Byte): (next: Byte)
    ensures next < Leds
    ensures next == (pos + dir * steps) % Leds
  {
    var sum := pos + dir * steps;
    ShiftBySixteens(sum % 0x100, sum / 0x100 * 16);
    (sum % 0x100) % Leds
  }

  /** Adding a multiple of 16 does not change a residue modulo 16. */
  lemma ShiftBySixteens(a: int, k: int)
    ensures (a + Leds * k) % Leds == a % Leds
  {
  }

  /** Residues one and two places back round the bar, written out. */
  lemma BackOnBar(x: nat)
    requires x < Leds
    ensures (x + 15) % Leds == if x == 0 then 15 else x - 1
    ensures (x + 14) % Leds == if x < 2 then x + 14 else x - 2
    ensures (x + 1) % Leds == if x == 15 then 0 else x + 1
  {
  }

  /** The lit LEDs are exactly the position and the two before it, counting
      round the bar. */
  lemma BarMaskLeds(pos: nat, i: nat)
    requires pos < Leds && i < Leds
    ensures Lit(BarMask(pos), i) <==> i == pos || i == (pos + 15) % Leds || i == (pos + 14) % Leds
  {
    var m := BarMask(pos);
    if pos == 0 {
      assert m == 0xC001;
    } else if pos == 1 {
      assert m == 0x8003;
    } else {
      assert m == 7 << (pos - 2);
    }
  }

  /** Moving the position one place forward moves the lit group one LED
      forward round the bar: LED i is lit after the move exactly when the
      LED before it was lit before. */
  lemma BarMaskMovesForward(pos: nat, i: nat)
    requires pos < Leds && i < Leds
    ensures Lit(BarMask((pos + 1) % Leds), i) <==> Lit(BarMask(pos), (i + 15) % Leds)
  {
    BarMaskLeds((pos + 1) % Leds, i);
    BarMaskLeds(pos, (i + 15) % Leds);
    GroupMovesForward(pos, i);
  }

  /** The group of three ending at pos + 1 is the group ending at pos, one LED on. */
  lemma GroupMovesForward(pos: nat, i: nat)
    requires pos < Leds && i < Leds
    ensures var q, j := (pos + 1) % Leds, (i + 15) % Leds;
      (i == q || i == (q + 15) % Leds || i == (q + 14) % Leds)
      <==> (j == pos || j == (pos + 15) % Leds || j == (pos + 14) % Leds)
  {
    var q := (pos + 1) % Leds;
    BackOnBar(pos);
    BackOnBar(q);
    BackOnBar(i);
  }

  /** dir = -1 stored in a uint8_t is 255, which moves the bar backwards. */
  lemma MinusOneMovesBack(pos: Byte, steps: Byte)
    requires pos < Leds
    ensures Advance(pos, steps, 255) == (pos - steps) % Leds
  {
    ShiftBySixteens(pos - steps, 16 * steps);
    assert pos + 255 * steps == (pos - steps) + Leds * (16 * steps);
  }

  /** Two moves forward are one move by the sum of their steps. */
  lemma AdvanceAdds(pos: Byte, a: Byte, b: Byte)
    requires a + b < 0x100
    ensures Advance(Advance(pos, a, 1), b, 1) == Advance(pos, a + b, 1)
  {
    var mid := (pos + a) % Leds;
    assert pos + a == mid + Leds * ((pos + a) / Leds);
    ShiftBySixteens(mid + b, (pos + a) / Leds);
  }

  /** The bar's state: the static barPos of main.c. */
  class Bar {
    var barPos: Byte

    predicate Valid()
      reads this
    {
      barPos < Leds
    }

    constructor ()
      ensures Valid() && barPos == 2
    {
      barPos := 2;
    }

    /** moveBar: writes the mask for the current position to the LEDs, all
        16 enabled, then advances the position by dir * steps. */
    method MoveBar(steps: Byte, dir: Byte) returns (events: seq<Event>)
      requires Valid()
      modifies this
      ensures Valid()
      ensures barPos == Advance(old(barPos), steps, dir)
      ensures events == [SetLeds(BarMask(old(barPos)), 0xFFFF)]
    {
      var ledOn: bv16 := 0;
      if barPos == 0 {
        ledOn := 1 | (3 << 14);
      } else if barPos == 1 {
        ledOn := 3 | (1 << 15);
      } else {
        ledOn := 7 << (barPos - 2);
      }
      barPos := (barPos + dir * steps) % 0x100;
      barPos := barPos % 16;
      events := [SetLeds(ledOn, 0xFFFF)];
    }
  }
}
