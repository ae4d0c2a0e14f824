/** The tone-string player of main.c: playNote produces a square wave on the
    speaker pin for a given period and duration, playSong decodes a
    NUL-terminated string of (note, duration, pause) triples and plays them. */
module Player {
  import opened Platform
  import opened Tones

  /** One decoded triple: the note's period in microseconds (0 is a rest),
      how long it sounds and the pause after it, both in milliseconds. */
  datatype Tone = Tone(period: nat, durationMs: nat, pauseMs: nat)

  /** Rounded-up integer division: the number of whole steps of size b an
      accumulator starting at 0 needs to reach a. */
  function CeilDiv(a: nat, b: nat): nat
    requires b > 0
  {
    (a + b - 1) / b
  }

  /** CeilDiv(a, b) is the least k with k * b >= a. */
  lemma CeilDivIsLeastCover(a: nat, b: nat, k: nat)
    requires b > 0
    ensures k * b >= a <==> k >= CeilDiv(a, b)
  {
    var c := CeilDiv(a, b);
    var r := (a + b - 1) % b;
    assert c * b + r == a + b - 1;
    assert c * b >= a;
    if k >= c {
      assert k * b >= c * b by { MulMonotone(c, k, b); }
    } else {
      assert k * b <= (c - 1) * b by { MulMonotone(k, c - 1, b); }
      assert (c - 1) * b == c * b - b;
    }
  }

  lemma MulMonotone(x: nat, y: nat, b: nat)
    requires x <= y
    ensures x * b <= y * b
  {
  }

  /** CeilDiv grows by exactly one when its argument grows by one step. */
  lemma CeilDivStep(a: nat, b: nat)
    requires b > 0
    ensures CeilDiv(a + b, b) == CeilDiv(a, b) + 1
  {
    var c := CeilDiv(a, b);
    CeilDivIsLeastCover(a, b, c);
    CeilDivIsLeastCover(a + b, b, c + 1);
    CeilDivIsLeastCover(a + b, b, c);
    if c > 0 {
      CeilDivIsLeastCover(a, b, c - 1);
      assert (c - 1) * b == c * b - b;
    }
  }

  /** One period of the wave: pin high for half the period, low for the other half. */
  function Cycle(period: nat): seq<Event>
  {
    [PinHigh, WaitUs(period / 2), PinLow, WaitUs(period / 2)]
  }

  /** What playNote's loop emits from accumulator value t on: one cycle per
      pass while t is below the limit, t growing by one period per pass. */
  function Sound(period: nat, t: nat, limit: nat): seq<Event>
    requires period > 0
    decreases limit - t
  {
    if t < limit then Cycle(period) + Sound(period, t + period, limit) else []
  }

  /** What playNote emits: for a sounding note the loop from t = 0 up to
      durationMs * 1000 counted microseconds; for a rest one millisecond wait. */
  function NoteTrace(period: nat, durationMs: nat): seq<Event>
  {
    if period > 0 then Sound(period, 0, durationMs * 1000) else [WaitMs(durationMs)]
  }

  /** `cycles` periods of the square wave, one after the other. */
  function Wave(period: nat, cycles: nat): seq<Event>
  {
    if cycles == 0 then [] else Cycle(period) + Wave(period, cycles - 1)
  }

  /** Closed form of the loop: from t up to the limit it runs exactly as many
      cycles as it takes whole periods to cover the gap. */
  lemma {:induction false} SoundIsWave(period: nat, t: nat, limit: nat)
    requires period > 0 && t <= limit
    ensures Sound(period, t, limit) == Wave(period, CeilDiv(limit - t, period))
    decreases limit - t
  {
    var gap := limit - t;
    if t == limit {
      CeilDivIsLeastCover(0, period, 0);
    } else if t + period <= limit {
      SoundIsWave(period, t + period, limit);
      CeilDivStep(gap - period, period);
    } else {
      CeilDivIsLeastCover(gap, period, 1);
      CeilDivIsLeastCover(gap, period, 0);
      assert Wave(period, 1) == Cycle(period) + [];
    }
  }

  /** A sounding note is ceil(durationMs * 1000 / period) whole cycles. */
  lemma NoteIsWave(period: nat, durationMs: nat)
    requires period > 0
    ensures NoteTrace(period, durationMs) == Wave(period, CeilDiv(durationMs * 1000, period))
  {
    SoundIsWave(period, 0, durationMs * 1000);
  }

  lemma AppendAssoc(a: seq<Event>, b: seq<Event>, c: seq<Event>)
    ensures a + (b + c) == a + b + c
  {
  }

  /** playNote. The accumulator t and the product durationMs * 1000 are
      uint32_t; the precondition rules out the argument pairs for which t
      would wrap around before reaching the limit. */
  method PlayNote(note: U32, durationMs: U32) returns (events: seq<Event>)
    requires durationMs * 1000 + note <= U32Modulus
    ensures events == NoteTrace(note, durationMs)
  {
    events := [];
    var t: U32 := 0;
    if note > 0 {
      var limit: U32 := (durationMs * 1000) % U32Modulus;
      while t < limit
        invariant events + Sound(note, t, limit) == Sound(note, 0, limit)
        decreases limit - t
      {
        AppendAssoc(events, Cycle(note), Sound(note, t + note, limit));
        events := events + [PinHigh, WaitUs(note / 2), PinLow, WaitUs(note / 2)];
        assert t + note < U32Modulus;
        t := (t + note) % U32Modulus;
      }
    } else {
      events := events + [WaitMs(durationMs)];
    }
  }

  /** The notes and durations playSong passes to playNote always meet
      PlayNote's precondition: durationMs * 1000 stays far below 2^32. */
  lemma SongNotesFitAccumulator(n: Byte, d: Byte)
    ensures GetDuration(d) * 1000 + GetNote(n) <= LongestDuration * 1000 + LongestPeriod
    ensures LongestDuration * 1000 + LongestPeriod < U32Modulus
  {
  }

  lemma CycleCounts(period: nat)
    ensures PinPulses(Cycle(period)) == 1
    ensures WaitedUs(Cycle(period)) == 2 * (period / 2)
  {
    var half := period / 2;
    var c := Cycle(period);
    assert c[1..][1..][1..][1..] == [];
    assert PinPulses(c[1..][1..][1..]) == 0;
    assert PinPulses(c[1..][1..]) == 0;
    assert WaitedUs(c[1..][1..][1..]) == half;
    assert WaitedUs(c[1..][1..]) == half;
  }

  /** k cycles of the wave: 4k events, k pulses, and two half-period waits each. */
  lemma {:induction false} WaveCounts(period: nat, k: nat)
    ensures |Wave(period, k)| == 4 * k
    ensures PinPulses(Wave(period, k)) == k
    ensures WaitedUs(Wave(period, k)) == k * (2 * (period / 2))
  {
    if k > 0 {
      WaveCounts(period, k - 1);
      PinPulsesAppend(Cycle(period), Wave(period, k - 1));
      WaitedUsAppend(Cycle(period), Wave(period, k - 1));
      CycleCounts(period);
    } else {
      assert Wave(period, k) == [];
    }
  }

  /** A rest is one millisecond wait and no pulse; a sounding note pulses
      the pin once per cycle, and a zero duration emits nothing. */
  lemma NoteTracePulses(period: nat, durationMs: nat)
    ensures period == 0 ==> NoteTrace(period, durationMs) == [WaitMs(durationMs)]
    ensures period == 0 ==> PinPulses(NoteTrace(period, durationMs)) == 0
    ensures period > 0 ==> PinPulses(NoteTrace(period, durationMs)) == CeilDiv(durationMs * 1000, period)
    ensures period > 0 && durationMs == 0 ==> NoteTrace(period, durationMs) == []
  {
    if period > 0 {
      NoteIsWave(period, durationMs);
      WaveCounts(period, CeilDiv(durationMs * 1000, period));
    } else {
      assert PinPulses([WaitMs(durationMs)]) == 0;
    }
  }

  /** The cycles of a sounding note are the fewest whose counted periods
      cover the duration: the counted time overshoots by less than one period. */
  lemma NoteCoversDuration(period: nat, durationMs: nat)
    requires period > 0
    ensures var cycles := CeilDiv(durationMs * 1000, period);
      durationMs * 1000 <= cycles * period < durationMs * 1000 + period
  {
    var limit := durationMs * 1000;
    var cycles := CeilDiv(limit, period);
    CeilDivIsLeastCover(limit, period, cycles);
    if cycles > 0 {
      CeilDivIsLeastCover(limit, period, cycles - 1);
      assert (cycles - 1) * period == cycles * period - period;
    }
  }

  /** The real time spent in microsecond waits is the counted time, less
      1 us per cycle when the period is odd. */
  lemma NoteWaitTime(period: nat, durationMs: nat)
    requires period > 0
    ensures var cycles := CeilDiv(durationMs * 1000, period);
      WaitedUs(NoteTrace(period, durationMs)) == cycles * period - cycles * (period % 2)
  {
    var cycles := CeilDiv(durationMs * 1000, period);
    NoteIsWave(period, durationMs);
    WaveCounts(period, cycles);
    var half := period / 2;
    assert 2 * half == period - period % 2;
    assert cycles * (2 * half) == cycles * (period - period % 2);
    assert cycles * (period - period % 2) == cycles * period - cycles * (period % 2);
  }

  /** The tone a (note, duration, pause) symbol triple stands for. */
  function DecodeTone(n: Byte, d: Byte, p: Byte): Tone
  {
    Tone(GetNote(n), GetDuration(d), GetPause(p))
  }

  /** The tones of a song's characters, three characters per tone; one or
      two trailing characters make no tone. */
  function Decode(s: seq<Byte>): seq<Tone>
  {
    if |s| < 3 then [] else [DecodeTone(s[0], s[1], s[2])] + Decode(s[3..])
  }

  /** Playing one tone: the note, then a millisecond wait for its pause. */
  function ToneTrace(t: Tone): seq<Event>
  {
    NoteTrace(t.period, t.durationMs) + [WaitMs(t.pauseMs)]
  }

  /** Playing tones one after the other. */
  function Render(tones: seq<Tone>): seq<Event>
  {
    if tones == [] then [] else ToneTrace(tones[0]) + Render(tones[1..])
  }

  /** Position of the terminating NUL: the first zero byte. */
  function Terminator(buf: seq<Byte>): (n: nat)
    requires 0 in buf
    ensures n < |buf| && buf[n] == 0
    ensures forall j :: 0 <= j < n ==> buf[j] != 0
  {
    if buf[0] == 0 then 0 else 1 + Terminator(buf[1..])
  }

  /** The C string held in a NUL-terminated buffer. */
  function Content(buf: seq<Byte>): (s: seq<Byte>)
    requires 0 in buf
    ensures 0 !in s
    ensures |s| < |buf| && buf == s + [0] + buf[|s| + 1..]
  {
    buf[..Terminator(buf)]
  }

  /** playSong: shows '5' on the 7-segment display, then plays the decoded
      tones of the string in order, each followed by its pause. */
  method PlaySong(song: seq<Byte>) returns (events: seq<Event>)
    requires 0 in song
    ensures events == [Seg('5')] + Render(Decode(Content(song)))
  {
    events := [Seg('5')];
    var note: U32 := 0;
    var dur: U32 := 0;
    var pause: U32 := 0;
    ghost var n := Terminator(song);
    var p := 0;
    ghost var k: nat := 0;
    while song[p] != 0
      invariant n < |song| && song[n] == 0
      invariant forall j :: 0 <= j < n ==> song[j] != 0
      invariant p <= n && p == 3 * k
      invariant events == [Seg('5')] + Played(song, k)
      decreases n - p
    {
      BeforeTerminator(song, p, n);
      note := GetNote(song[p]);
      p := p + 1;
      if song[p] == 0 {
        break;
      }
      BeforeTerminator(song, p, n);
      dur := GetDuration(song[p]);
      p := p + 1;
      if song[p] == 0 {
        break;
      }
      BeforeTerminator(song, p, n);
      pause := GetPause(song[p]);
      p := p + 1;
      var played := PlayNote(note, dur);
      var tone := played + [WaitMs(pause)];
      ToneOf(song, k, played, pause);
      PlayedStep(song, k, tone);
      events := events + tone;
      k := k + 1;
    }
    PlayedIsRender(song, k);
    DecodeStops(song, k, n);
  }

  /** A non-zero byte at or before the terminator lies strictly before it. */
  lemma BeforeTerminator(s: seq<Byte>, p: nat, n: nat)
    requires p <= n < |s| && s[n] == 0 && s[p] != 0
    ensures p < n
  {
  }

  /** The events of playing the first k triples of s. */
  function Played(s: seq<Byte>, k: nat): seq<Event>
    requires 3 * k <= |s|
  {
    if k == 0 then []
    else Played(s, k - 1) + ToneTrace(DecodeTone(s[3 * k - 3], s[3 * k - 2], s[3 * k - 1]))
  }

  /** What playSong emits for one triple is the trace of the tone it decodes to. */
  lemma ToneOf(s: seq<Byte>, k: nat, played: seq<Event>, pause: nat)
    requires 3 * k + 3 <= |s|
    requires played == NoteTrace(GetNote(s[3 * k]), GetDuration(s[3 * k + 1]))
    requires pause == GetPause(s[3 * k + 2])
    ensures played + [WaitMs(pause)] == ToneTrace(DecodeTone(s[3 * k], s[3 * k + 1], s[3 * k + 2]))
  {
  }

  lemma PlayedStep(s: seq<Byte>, k: nat, tone: seq<Event>)
    requires 3 * k + 3 <= |s|
    requires tone == ToneTrace(DecodeTone(s[3 * k], s[3 * k + 1], s[3 * k + 2]))
    ensures [Seg('5')] + Played(s, k + 1) == [Seg('5')] + Played(s, k) + tone
  {
    AppendAssoc([Seg('5')], Played(s, k), tone);
  }

  /** Playing the first k triples is rendering the tones they decode to. */
  lemma {:induction false} PlayedIsRender(s: seq<Byte>, k: nat)
    requires 3 * k <= |s|
    ensures Played(s, k) == Render(Decode(s[..3 * k]))
  {
    if k > 0 {
      var j := k - 1;
      var t := DecodeTone(s[3 * j], s[3 * j + 1], s[3 * j + 2]);
      var before := Decode(s[..3 * j]);
      calc {
        Played(s, k);
        Played(s, j) + ToneTrace(t);
        { PlayedIsRender(s, j); }
        Render(before) + ToneTrace(t);
        { RenderExtend(before, t); }
        Render(before + [t]);
        { DecodeExtend(s, j); }
        Render(Decode(s[..3 * j + 3]));
      }
    }
  }

  /** One more whole triple appends one more tone. */
  lemma DecodeExtend(s: seq<Byte>, k: nat)
    requires 3 * k + 3 <= |s|
    ensures Decode(s[..3 * k + 3]) == Decode(s[..3 * k]) + [DecodeTone(s[3 * k], s[3 * k + 1], s[3 * k + 2])]
  {
    var start := 3 * k;
    assert s[..start + 3] == s[..start] + s[start..start + 3];
    DecodeAppend(s[..start], s[start..start + 3]);
  }

  /** A string that stops one or two characters into a triple decodes to the
      tones of the whole triples before it. */
  lemma DecodeStops(s: seq<Byte>, k: nat, stop: nat)
    requires 3 * k <= stop < 3 * k + 3 && stop <= |s|
    ensures Decode(s[..stop]) == Decode(s[..3 * k])
  {
    var start := 3 * k;
    assert s[..stop] == s[..start] + s[start..stop];
    DecodeDropsPartial(s[..start], s[start..stop]);
  }

  lemma RenderExtend(tones: seq<Tone>, t: Tone)
    ensures Render(tones + [t]) == Render(tones) + ToneTrace(t)
  {
    RenderAppend(tones, [t]);
    assert Render([t]) == ToneTrace(t) + Render([]);
  }

  lemma {:induction false} DecodeAppend(a: seq<Byte>, b: seq<Byte>)
    requires |a| % 3 == 0
    ensures Decode(a + b) == Decode(a) + Decode(b)
  {
    if a == [] {
      assert a + b == b;
    } else {
      assert (a + b)[3..] == a[3..] + b;
      DecodeAppend(a[3..], b);
    }
  }

  /** One or two characters after the last whole triple are read but add no tone. */
  lemma DecodeDropsPartial(a: seq<Byte>, tail: seq<Byte>)
    requires |a| % 3 == 0 && |tail| < 3
    ensures Decode(a + tail) == Decode(a)
  {
    DecodeAppend(a, tail);
  }

  lemma {:induction false} RenderAppend(a: seq<Tone>, b: seq<Tone>)
    ensures Render(a + b) == Render(a) + Render(b)
  {
    if a == [] {
      assert a + b == b;
    } else {
      assert (a + b)[1..] == a[1..] + b;
      RenderAppend(a[1..], b);
    }
  }

  /** A string of n characters decodes to exactly n / 3 tones, the i-th made
      of characters 3i, 3i+1 and 3i+2. */
  lemma {:induction false} DecodeTriples(s: seq<Byte>)
    ensures |Decode(s)| == |s| / 3
    ensures forall i :: 0 <= i < |s| / 3 ==>
      Decode(s)[i] == DecodeTone(s[3 * i], s[3 * i + 1], s[3 * i + 2])
  {
    if |s| >= 3 {
      DecodeTriples(s[3..]);
      forall i | 0 < i < |s| / 3
        ensures Decode(s)[i] == DecodeTone(s[3 * i], s[3 * i + 1], s[3 * i + 2])
      {
        assert Decode(s)[i] == Decode(s[3..])[i - 1];
        assert 3 * (i - 1) + 3 == 3 * i;
      }
    }
  }

  /** Only the whole triples matter: cutting the string back to a multiple of
      three characters decodes to the same tones. */
  lemma WholeTriplesOnly(s: seq<Byte>)
    ensures Decode(s) == Decode(s[..|s| - |s| % 3])
  {
    var k := |s| / 3;
    assert |s| - |s| % 3 == 3 * k;
    DecodeStops(s, k, |s|);
    assert s[..|s|] == s;
  }

  /** A song that decodes to no tone pulses the pin nowhere; the empty
      string plays nothing after the 7-segment write. */
  lemma {:induction false} RestsAreSilent(tones: seq<Tone>)
    requires forall i :: 0 <= i < |tones| ==> tones[i].period == 0
    ensures PinPulses(Render(tones)) == 0
  {
    if tones != [] {
      RestsAreSilent(tones[1..]);
      NoteTracePulses(tones[0].period, tones[0].durationMs);
      PinPulsesAppend(NoteTrace(tones[0].period, tones[0].durationMs), [WaitMs(tones[0].pauseMs)]);
      PinPulsesAppend(ToneTrace(tones[0]), Render(tones[1..]));
      assert PinPulses([WaitMs(tones[0].pauseMs)]) == 0;
    }
  }
}
