/** The song strings of main.c and what playSong makes of them. */
module Songs {
  import opened Platform
  import opened Tones
  import opened Player

  /** b holds the characters of the string literal s, one byte each. */
  predicate Spells(b: seq<Byte>, s: string)
  {
    |b| == |s| && forall i :: 0 <= i < |s| ==> b[i] == s[i] as int
  }

  /** The song main.c plays. */
  const ActiveSong: string :=
    "D4,B4,B4,A4," + "A4,G4,E4,D4." + "D2,E4,E4,A4," +
    "F4,D8.D4,d4," + "d4,c4,c4,B4," + "G4,E4.E2,F4," +
    "F4,A4,A4,G8,"

  /** The two songs left commented out next to it. */
  const ShortSong: string := "C2.C2,D4," + "C4,F4,E8,"
  const LongSong: string :=
    "C2.C2,D4,C4," + "F4,E8,C2.C2," + "D4,C4,G4,F8," +
    "C2.C2,c4,A4," + "F4,E4,D4,A2." + "A2,H4,F4,G4," +
    "F8,"

  /** A buffer holding a C string: playSong plays the string itself. */
  lemma ContentOfCString(b: seq<Byte>)
    requires 0 !in b
    ensures Content(b + [0]) == b
  {
    var buf := b + [0];
    assert buf[..|b|] == b;
  }

  /** The i-th tone of a decoded string, without the rest of them. */
  lemma ToneAtIndex(s: seq<Byte>, i: nat)
    requires 3 * i + 3 <= |s|
    ensures |Decode(s)| == |s| / 3
    ensures Decode(s)[i] == DecodeTone(s[3 * i], s[3 * i + 1], s[3 * i + 2])
  {
    DecodeTriples(s);
  }

  /** The active song has 84 characters and plays 28 tones, starting with
      "D4," (D for 800 ms and the short pause). */
  lemma ActiveSongStart(song: seq<Byte>)
    requires Spells(song, ActiveSong)
    ensures |song| == 84 && |Decode(song)| == 28
    ensures Decode(song)[0] == Tone(3401, 800, 5)
  {
    ToneAtIndex(song, 0);
    assert song[0] == 'D' as int && song[1] == '4' as int && song[2] == ',' as int;
  }

  /** Its last tone "G8," is G for 1600 ms. */
  lemma ActiveSongEnd(song: seq<Byte>)
    requires Spells(song, ActiveSong)
    ensures |Decode(song)| == 28
    ensures Decode(song)[27] == Tone(2551, 1600, 5)
  {
    ToneAtIndex(song, 27);
    assert song[81] == 'G' as int && song[82] == '8' as int && song[83] == ',' as int;
  }

  /** The first three tones of the short song; "C2." is C for 400 ms and a 20 ms pause. */
  lemma ShortSongHead(song: seq<Byte>)
    requires Spells(song, ShortSong)
    ensures |Decode(song)| == 6
    ensures Decode(song)[0] == Tone(3816, 400, 20)
    ensures Decode(song)[1] == Tone(3816, 400, 5)
    ensures Decode(song)[2] == Tone(3401, 800, 5)
  {
    ToneAtIndex(song, 0);
    ToneAtIndex(song, 1);
    ToneAtIndex(song, 2);
  }

  /** The last three tones of the short song. */
  lemma ShortSongTail(song: seq<Byte>)
    requires Spells(song, ShortSong)
    ensures |Decode(song)| == 6
    ensures Decode(song)[3] == Tone(3816, 800, 5)
    ensures Decode(song)[4] == Tone(2865, 800, 5)
    ensures Decode(song)[5] == Tone(3030, 1600, 5)
  {
    ToneAtIndex(song, 3);
    ToneAtIndex(song, 4);
    ToneAtIndex(song, 5);
  }

  /** The short song decodes to six tones. */
  lemma ShortSongTones(song: seq<Byte>)
    requires Spells(song, ShortSong)
    ensures Decode(song) == [Tone(3816, 400, 20), Tone(3816, 400, 5), Tone(3401, 800, 5),
                             Tone(3816, 800, 5), Tone(2865, 800, 5), Tone(3030, 1600, 5)]
  {
    ShortSongHead(song);
    ShortSongTail(song);
  }

  /** The long commented song has 75 characters and 25 tones; its 22nd tone
      "H4," names no note, so it is a rest: no pulse, an 800 ms wait and
      the pause. */
  lemma LongSongRest(song: seq<Byte>)
    requires Spells(song, LongSong)
    ensures |song| == 75 && |Decode(song)| == 25
    ensures Decode(song)[21] == Tone(0, 800, 5)
    ensures ToneTrace(Decode(song)[21]) == [WaitMs(800), WaitMs(5)]
  {
    ToneAtIndex(song, 21);
    assert song[63] == 'H' as int && song[64] == '4' as int && song[65] == ',' as int;
  }

  /** The examples of a song string: "C2," is one tone, a lone "C2" none,
      and the empty string only writes the display. */
  lemma SmallSongs()
    ensures Decode([67, 50, 44]) == [Tone(3816, 400, 5)]
    ensures Decode([67, 50]) == []
    ensures [Seg('5')] + Render(Decode(Content([0]))) == [Seg('5')]
  {
    assert Content([0]) == [];
  }
}
