/** The three symbol lookups of the tone-string format (main.c getNote,
    getDuration, getPause) and the note table they index. Each is total:
    an unrecognised byte yields a silent default. */
module Tones {
  import opened Platform

  /** The `notes` table: the period in microseconds of A4..G4 (upper case)
      and of A5..G5 (lower case, one octave up, stored 7 entries later). */
  const Notes: seq<nat> := [
    2272, 2024, 3816, 3401, 3030, 2865, 2551,
    1136, 1012, 1912, 1703, 1517, 1432, 1275
  ]

  /** The largest entry of `Notes`: the longest period, C4. */
  const LongestPeriod: nat := 3816

  /** The longest duration getDuration can yield: digit '9'. */
  const LongestDuration: nat := 1800

  const Upper: Byte := 'A' as int
  const Lower: Byte := 'a' as int
  const Zero: Byte := '0' as int

  predicate IsUpperNote(ch: Byte) { 'A' as int <= ch <= 'G' as int }
  predicate IsLowerNote(ch: Byte) { 'a' as int <= ch <= 'g' as int }
  predicate IsNoteLetter(ch: Byte) { IsUpperNote(ch) || IsLowerNote(ch) }
  predicate IsDigit(ch: Byte) { '0' as int <= ch <= '9' as int }

  /** An enumerated reference mapping from note symbol to period, written
      symbol by symbol rather than by character arithmetic. */
  const NoteBySymbol: map<Byte, nat> := map[
    'A' as int := 2272, 'B' as int := 2024, 'C' as int := 3816, 'D' as int := 3401,
    'E' as int := 3030, 'F' as int := 2865, 'G' as int := 2551,
    'a' as int := 1136, 'b' as int := 1012, 'c' as int := 1912, 'd' as int := 1703,
    'e' as int := 1517, 'f' as int := 1432, 'g' as int := 1275
  ]

  /** The pause mapping of getPause's switch, without its default. */
  const PauseBySymbol: map<Byte, nat> := map[
    '+' as int := 0, ',' as int := 5, '.' as int := 20, '_' as int := 30
  ]

  /** getNote: the table index `ch - 'A'` or `ch - 'a' + 7` always lies inside
      the 14-entry table; 0 (a rest) exactly for non-letters. */
  function GetNote(ch: Byte): (period: U32)
    ensures period <= LongestPeriod
    ensures period == 0 <==> !IsNoteLetter(ch)
    ensures IsNoteLetter(ch) ==> period in Notes
  {
    if IsUpperNote(ch) then Notes[ch - Upper]
    else if IsLowerNote(ch) then Notes[ch - Lower + 7]
    else 0
  }

  /** getDuration: a digit d gives d * 200 ms, anything else 400 ms. */
  function GetDuration(ch: Byte): (ms: U32)
    ensures ms <= LongestDuration
    ensures ms % 200 == 0
    ensures IsDigit(ch) ==> ms / 200 == ch - Zero
    ensures !IsDigit(ch) ==> ms == 400
  {
    if ch < '0' as int || ch > '9' as int then 400
    else (ch - Zero) * 200
  }

  /** getPause: '+' 0 ms, ',' 5 ms, '.' 20 ms, '_' 30 ms, otherwise 5 ms. */
  function GetPause(ch: Byte): (ms: U32)
    ensures ms == 0 || ms == 5 || ms == 20 || ms == 30
    ensures ms == 0 <==> ch == '+' as int
    ensures ms == 20 <==> ch == '.' as int
    ensures ms == 30 <==> ch == '_' as int
  {
    if ch == '+' as int then 0
    else if ch == ',' as int then 5
    else if ch == '.' as int then 20
    else if ch == '_' as int then 30
    else 5
  }

  /** The character arithmetic of getNote agrees with the enumerated mapping
      for every byte. */
  lemma NoteAgreesWithSymbolTable(ch: Byte)
    ensures GetNote(ch) == if ch in NoteBySymbol then NoteBySymbol[ch] else 0
  {
    if IsUpperNote(ch) {
      assert ch - Upper in {0, 1, 2, 3, 4, 5, 6};
    } else if IsLowerNote(ch) {
      assert ch - Lower in {0, 1, 2, 3, 4, 5, 6};
    } else {
      assert ch !in NoteBySymbol;
    }
  }

  /** getPause is its switch's mapping with default 5. */
  lemma PauseAgreesWithSymbolTable(ch: Byte)
    ensures GetPause(ch) == if ch in PauseBySymbol then PauseBySymbol[ch] else 5
  {
  }
}
