# Tone player, LED bar and joystick cursor of the ee2024 board program

This project models the three pieces of logic in `main.c` of the ee2024 LPC1769
board program: the tone-string player, the running light on the 16-LED bar
and the joystick cursor on the OLED.

- **Tone player** (`tones.dfy`, `player.dfy`).
  - A song is a NUL-terminated string of (note, duration, pause) character
    triples such as `"E2,F4,"`.
  - `getNote`, `getDuration` and `getPause` are total functions from a byte to
    a number, each with a silent default.
  - `playNote` is a loop that toggles the speaker pin and counts each cycle's
    period towards `durationMs * 1000`.
  - `playSong` walks the string with a pointer and stops as soon as a triple
    would be incomplete.
  - The platform calls become `Event` values that the methods return in
    order: pin high/low, microsecond and millisecond waits, the 7-segment
    write, the LED write, clearing the screen and plotting a pixel.
  - `PlayNote` and `PlaySong` are loops proved against specification
    functions: `NoteTrace`, and `Render` of `Decode`. The lemmas beside those
    functions state what the source promises: cycle counts, the time counted
    and waited, the triple structure and the trailing-character rule.
- **LED bar** (`ledbar.dfy`). `moveBar` is the method of a class whose one
  field is the static `barPos`. Its contract ties the new position and the
  written mask to `Advance` and `BarMask`. The lemmas show that:
  - the mask lights exactly three LEDs, ending at the old position;
  - one step forward moves the lit group one LED on;
  - `dir = 255` (that is, -1 as a `uint8_t`) moves the bar backwards.
- **Joystick cursor** (`cursor.dfy`). `drawOled` is the method of a class
  holding its five static variables. Its contract says that one call is one
  `Step` of a state machine. The lemmas show that:
  - the cursor stays on the screen;
  - a centre press clears the screen and changes nothing else;
  - only every fourth call acts;
  - an active call moves the cursor by at most one pixel per axis;
  - a pixel is plotted exactly when the cursor moved off the last plotted
    point.
- **Songs** (`songs.dfy`) applies the decoder to the three song literals in
  `main.c`:
  - the active 84-character song;
  - the short commented song;
  - the long commented song, whose `H4,` triple decodes to a rest.

`platform.dfy` holds the event type, the byte and 32-bit word types, and two
counting functions over traces (pin pulses and microseconds waited).

## Model

| member | source | states |
|---|---|---|
| Tones.GetNote | main.c:179-187 | the period is at most 3816 (C4); it is 0, a rest, exactly when the byte is not a letter A-G or a-g; a letter's period is an entry of the 14-entry table, so its index is always in range |
| Tones.NoteAgreesWithSymbolTable | main.c:139-153 | for every byte, getNote's index arithmetic gives the same result as the symbol-by-symbol mapping A=2272 … G=2551 and a=1136 … g=1275, and 0 for any other byte |
| Tones.GetDuration | main.c:189-196 | the duration is a multiple of 200 and at most 1800 ms; a digit d gives d * 200 ms, any other byte 400 ms |
| Tones.GetPause | main.c:198-211 | the pause is one of 0, 5, 20 and 30 ms: 0 exactly for '+', 20 exactly for '.' and 30 exactly for '_' |
| Tones.PauseAgreesWithSymbolTable | main.c:198-211 | getPause is the switch's mapping '+'→0, ','→5, '.'→20, '_'→30, with default 5 for every other byte |
| Player.PlayNote | main.c:155-177 | the events emitted are NoteTrace(note, durationMs): for a non-zero note, the loop's cycles until the counter reaches durationMs * 1000; for a zero note, one millisecond wait |
| Player.SoundIsWave | main.c:161-171 | the loop, entered with counter t below the limit, emits exactly ⌈(limit − t) / note⌉ cycles of PinHigh, WaitUs(note/2), PinLow, WaitUs(note/2) |
| Player.NoteIsWave | main.c:159-171 | a sounding note is exactly ⌈durationMs * 1000 / note⌉ of those cycles |
| Player.WaveCounts | main.c:162-170 | k cycles are 4k events with k pin pulses and k * 2 * (note/2) microseconds of waiting |
| Player.NoteTracePulses | main.c:159-175 | a rest emits a single WaitMs(durationMs) and no pulse; a sounding note pulses the pin ⌈durationMs * 1000 / note⌉ times; a zero duration emits nothing |
| Player.NoteCoversDuration | main.c:161-171 | the counted time of the cycles reaches durationMs * 1000 and overshoots it by less than one period |
| Player.NoteWaitTime | main.c:162-170 | the real microsecond waiting of a note is its counted time, less one microsecond per cycle when the period is odd |
| Player.SongNotesFitAccumulator | main.c:227-235 | every duration and note that playSong passes to playNote keeps durationMs * 1000 + note below 2^32 |
| Player.Terminator | main.c:226 | the position found is a NUL, and every byte before it is non-zero |
| Player.Content | main.c:226 | the string read is NUL-free, and the buffer is that string followed by its NUL |
| Player.PlaySong | main.c:213-240 | the events are the '5' on the 7-segment display, then the trace of every decoded tone of the string in order, each tone's note followed by WaitMs of its pause |
| Player.ToneOf | main.c:227-237 | one loop iteration's playNote events followed by the pause wait are the trace of the tone decoded from its three characters |
| Player.PlayedStep | main.c:226-239 | an iteration appends exactly one tone's trace to what was played before |
| Player.PlayedIsRender | main.c:226-239 | the events of the first k iterations are the rendering of the tones decoded from the first 3k characters |
| Player.DecodeTriples | main.c:226-239 | a string of n characters decodes to exactly ⌊n/3⌋ tones, and tone i is made of characters 3i, 3i+1 and 3i+2 |
| Player.DecodeExtend | main.c:226-239 | one more whole triple adds exactly one more tone at the end |
| Player.DecodeStops | main.c:228-232 | a string that ends one or two characters into a triple decodes to the tones of the whole triples before it |
| Player.WholeTriplesOnly | main.c:228-232 | cutting a string back to a multiple of three characters does not change its tones |
| Player.DecodeAppend | main.c:226-239 | decoding distributes over concatenation at a triple boundary |
| Player.DecodeDropsPartial | main.c:228-232 | one or two characters after whole triples add no tone |
| Player.RenderAppend | main.c:235-237 | playing two tone lists one after the other is playing their concatenation |
| Player.RenderExtend | main.c:235-237 | playing one more tone appends that tone's trace |
| Player.RestsAreSilent | main.c:172-175 | a song whose tones are all rests never pulses the speaker pin |
| LedBar.BarMask | main.c:83-88 | the mask written is never zero |
| LedBar.BarMaskLeds | main.c:83-88 | LED i is lit exactly when i is the position, or one or two places before it round the bar (15→0 wraps) |
| LedBar.BarMaskMovesForward | main.c:83-91 | after a one-step move, LED i is lit exactly when LED i − 1 (mod 16) was lit before |
| LedBar.Advance | main.c:90-91 | the new position is below 16 and equals (pos + dir * steps) mod 16; the uint8_t cut to 8 bits does not change the result |
| LedBar.MinusOneMovesBack | main.c:90-91 | dir = 255, the uint8_t image of -1, moves the position back by steps, mod 16 |
| LedBar.AdvanceAdds | main.c:90-91 | two forward moves equal one move by the sum of their steps |
| LedBar.Bar.constructor | main.c:50 | barPos starts at 2, a valid position |
| LedBar.Bar.MoveBar | main.c:80-94 | writes the mask of the old position with all 16 LEDs enabled; the new barPos is Advance of the old; barPos stays below 16 |
| Cursor.StartOnScreen | main.c:97-101 | the initial counter, cursor (48, 32) and last point (0, 0) are on the 96 × 64 screen |
| Cursor.StepOnScreen | main.c:113-127 | a call from an on-screen state leaves the cursor and the last plotted point on the screen and the counter in 0..3 |
| Cursor.CenterClears | main.c:103-106 | a centre press clears the screen and leaves the counter, the cursor and the last point unchanged |
| Cursor.WaitingCallsOnlyCount | main.c:108-109 | a call with the counter below 3 only increments it and draws nothing |
| Cursor.EveryFourthCallActs | main.c:108-111 | from a fresh counter, three calls without a centre press draw nothing, and the fourth is an active call |
| Cursor.ActiveCallMovesOne | main.c:113-127 | an active call changes each coordinate by at most one, and only in a pressed direction |
| Cursor.SinglePressMoves | main.c:113-127 | one direction pressed away from its edge moves the cursor exactly one pixel that way and leaves the other axis alone |
| Cursor.UpAndDownAtTopMovesDown | main.c:113-119 | with up and down both pressed on the top row, the up test fails and the down test moves the cursor to row 1 |
| Cursor.ActiveCallPlotsCursor | main.c:129-133 | after an active call the last point is the cursor and the counter is 0; a pixel at the cursor is plotted exactly when the cursor differs from the point plotted before, otherwise nothing is drawn |
| Cursor.Drawing.constructor | main.c:97-101 | the static variables start as wait 0, cursor (48, 32), last point (0, 0) |
| Cursor.Drawing.DrawOled | main.c:96-134 | one call's new static variables and screen operations are exactly Step of the old state and the joystick bits |
| Songs.ContentOfCString | main.c:242-244 | a NUL-free string literal with its terminator is played as exactly that string |
| Songs.ActiveSongStart | main.c:244 | the active song has 84 characters and 28 tones, the first being D for 800 ms with a 5 ms pause |
| Songs.ActiveSongEnd | main.c:244 | its last tone is G for 1600 ms with a 5 ms pause |
| Songs.ShortSongHead | main.c:242 | the short song has 6 tones; "C2." is C for 400 ms with a 20 ms pause, followed by C2 and D4 |
| Songs.ShortSongTail | main.c:242 | its last three tones are C4, F4 and E8 |
| Songs.ShortSongTones | main.c:242 | the short song decodes to exactly its six tones |
| Songs.LongSongRest | main.c:243 | the long song has 75 characters and 25 tones; tone 21, "H4,", is a rest that waits 800 ms and then 5 ms with no pulse |
| Songs.SmallSongs | main.c:219-224 | "C2," is one tone, a lone "C2" is none, and the empty string only writes the display |

## Left out

- Board bring-up is not modelled: `init_ssp`, `init_i2c`, `init_GPIO`, `Pinsel_LightInterrupt` and `Pinsel_SW3`. They only configure registers through vendor library calls.
- `SysTick_Handler` and `EINT3_IRQHandler` are not modelled. They are interrupt handlers, and their point is asynchrony.
- `main`'s polling loop, `initNewState`, `printToOled` and `check_failed` are not modelled. They are sensor reads, display I/O and an endless loop.
- The library calls (`GPIO_*`, `Timer0_*`, `led7seg_setChar`, `pca9532_setLeds`, `oled_*`) are kept abstract. Each becomes an event carrying its argument. Real elapsed time and sound are not modelled.
- `OLED_DISPLAY_WIDTH` and `OLED_DISPLAY_HEIGHT` come from `oled.h`, which is not part of this model. They are taken as 96 and 64, the size of the board's display.
- The `JOYSTICK_*` values come from `joystick.h`, which is not part of this model. They are taken as the distinct bits 0x01 (centre), 0x02 (up), 0x04 (down), 0x08 (left) and 0x10 (right).
- The note table holds full periods, not half-periods. `playNote` holds each pin level for `note / 2` microseconds and counts `note` per cycle. So the real time of a note is its counted time, less 1 µs per cycle for an odd period, as `Player.NoteWaitTime` states, rather than twice it. The model follows the code.
- Player.PlayNote: requires `durationMs * 1000 + note <= 2^32`. This excludes the 32-bit wrap-around of `durationMs * 1000` and of the counter `t`, for which the C loop may never end. Every call from `playSong` meets it (`Player.SongNotesFitAccumulator`).
- LedBar.Bar.MoveBar: requires `barPos < 16`. The static variable starts at 2 and every call leaves it below 16.
- Songs.ActiveSongStart: states the length, the tone count and the first tone of the active song. Songs.ActiveSongEnd states its last tone. The 26 tones in between are not listed one by one.
