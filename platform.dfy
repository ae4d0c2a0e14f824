/** Machine integer types of the firmware and the observable effects of the
    board-support calls that main.c makes. Each call into the vendor library
    (GPIO, timer, LED bar, OLED, 7-segment display) is recorded as an Event;
    the operations return the events they cause, in order. */
module Platform {

  /** `uint8_t` */
  type Byte = x: int | 0 <= x < 0x100

  /** `uint32_t` */
  type U32 = x: int | 0 <= x < 0x1_0000_0000

  const U32Modulus: int := 0x1_0000_0000

  datatype Event =
    | PinHigh                        // NOTE_PIN_HIGH(): GPIO_SetValue(0, 1<<26)
    | PinLow                         // NOTE_PIN_LOW():  GPIO_ClearValue(0, 1<<26)
    | WaitUs(us: nat)                // Timer0_us_Wait(us)
    | WaitMs(ms: nat)                // Timer0_Wait(ms)
    | Seg(ch: char)                  // led7seg_setChar(ch, FALSE)
    | SetLeds(on: bv16, mask: bv16)  // pca9532_setLeds(on, mask)
    | ClearScreen                    // oled_clearScreen(OLED_COLOR_BLACK)
    | PutPixel(x: nat, y: nat)       // oled_putPixel(x, y, OLED_COLOR_WHITE)

  /** Number of times the speaker pin is driven high in a trace. */
  function PinPulses(events: seq<Event>): nat
  {
    if events == [] then 0
    else (if events[0] == PinHigh then 1 else 0) + PinPulses(events[1..])
  }

  /** Total microseconds spent in Timer0_us_Wait over a trace. */
  function WaitedUs(events: seq<Event>): nat
  {
    if events == [] then 0
    else (if events[0].WaitUs? then events[0].us else 0) + WaitedUs(events[1..])
  }

  lemma {:induction false} PinPulsesAppend(a: seq<Event>, b: seq<Event>)
    ensures PinPulses(a + b) == PinPulses(a) + PinPulses(b)
  {
    if a != [] {
      assert (a + b)[1..] == a[1..] + b;
      PinPulsesAppend(a[1..], b);
    } else {
      assert a + b == b;
    }
  }

  lemma {:induction false} WaitedUsAppend(a: seq<Event>, b: seq<Event>)
    ensures WaitedUs(a + b) == WaitedUs(a) + WaitedUs(b)
  {
    if a != [] {
      assert (a + b)[1..] == a[1..] + b;
      WaitedUsAppend(a[1..], b);
    } else {
      assert a + b == b;
    }
  }
}
