/** The piano application: the keyboard-size table, the MIDI ranges of the
    white and black keys, the resolution of a scale into MIDI numbers, and
    the refresh sequence that repaints the keys of a newly selected key or
    scale. Widgets, the OSC server and its thread are not modelled. */
module Keyboard {
  import opened Wrappers
  import opened PyLists
  import opened KeyColor
  import opened MusicTheory

  /** `[m for m in range(lo, hi) if m % 12 in pcs]`. */
  function RangeFilter(lo: int, hi: int, pcs: seq<int>): (r: seq<int>)
    ensures forall m {:trigger m in r} :: m in r <==> lo <= m < hi && m % 12 in pcs
    decreases hi - lo
  {
    if hi <= lo then []
    else RangeFilter(lo, hi - 1, pcs) + if (hi - 1) % 12 in pcs then [hi - 1] else []
  }

  /** The walk yields its notes in increasing order. */
  lemma {:induction false} RangeFilterAscending(lo: int, hi: int, pcs: seq<int>)
    ensures StrictlyAscending(RangeFilter(lo, hi, pcs))
    decreases hi - lo
  {
    if lo < hi {
      var below := RangeFilter(lo, hi - 1, pcs);
      RangeFilterAscending(lo, hi - 1, pcs);
      assert forall i :: 0 <= i < |below| ==> below[i] in below;
    }
  }

  /** Nothing passes an empty filter. */
  lemma {:induction false} RangeFilterNoClasses(lo: int, hi: int)
    ensures RangeFilter(lo, hi, []) == []
    decreases hi - lo
  {
    if lo < hi {
      RangeFilterNoClasses(lo, hi - 1);
    }
  }

  /** Walking `[a, c)` is walking `[a, b)` and then `[b, c)`. */
  lemma {:induction false} RangeFilterSplit(a: int, b: int, c: int, pcs: seq<int>)
    requires a <= b <= c
    ensures RangeFilter(a, c, pcs) == RangeFilter(a, b, pcs) + RangeFilter(b, c, pcs)
    decreases c - b
  {
    if b < c {
      RangeFilterSplit(a, b, c - 1, pcs);
      var tail := if (c - 1) % 12 in pcs then [c - 1] else [];
      assert RangeFilter(a, c, pcs) == RangeFilter(a, c - 1, pcs) + tail;
      assert RangeFilter(b, c, pcs) == RangeFilter(b, c - 1, pcs) + tail;
    }
  }

  /** Moving the start of a count from the C of `start`'s octave to `start`. */
  lemma RangeFilterRebase(n: int, start: int, isBlack: bool, count: int)
    requires start <= n
    requires count == |RangeFilter(start - start % 12, n, Remainders(isBlack))|
    ensures count - |RangeFilter(start - start % 12, start, Remainders(isBlack))|
         == |RangeFilter(start, n, Remainders(isBlack))|
  {
    RangeFilterSplit(start - start % 12, start, n, Remainders(isBlack));
  }

  /** A note of the filter's classes heads the walk that starts at it. */
  lemma RangeFilterFrom(n: int, hi: int, pcs: seq<int>)
    requires n < hi && n % 12 in pcs
    ensures RangeFilter(n, hi, pcs) == [n] + RangeFilter(n + 1, hi, pcs)
  {
    var head := RangeFilter(n, n + 1, pcs);
    assert RangeFilter(n, n, pcs) == [];
    assert head == [n];
    RangeFilterSplit(n, n + 1, hi, pcs);
  }

  /** Keys of the colour whose remainder is below `r` in one octave. */
  function KeysBelow(isBlack: bool, r: int): nat {
    if isBlack then
      if r <= 1 then 0 else if r <= 3 then 1 else if r <= 6 then 2
      else if r <= 8 then 3 else if r <= 10 then 4 else 5
    else
      if r <= 0 then 0 else if r <= 2 then 1 else if r <= 4 then 2 else if r <= 5 then 3
      else if r <= 7 then 4 else if r <= 9 then 5 else if r <= 11 then 6 else 7
  }

  /** Passing remainder `r` adds one key exactly when `r` is of the colour. */
  lemma KeysBelowStep(isBlack: bool, r: int)
    requires 0 <= r < 12
    ensures KeysBelow(isBlack, r + 1) == KeysBelow(isBlack, r) + if r in Remainders(isBlack) then 1 else 0
    ensures KeysBelow(isBlack, 0) == 0 && KeysBelow(isBlack, 12) == KeysPerOctave(isBlack)
  {
    assert r == 0 || r == 1 || r == 2 || r == 3 || r == 4 || r == 5 || r == 6
        || r == 7 || r == 8 || r == 9 || r == 10 || r == 11;
  }

  /** For a remainder of the colour, the keys below it are its position in the table. */
  lemma KeysBelowIsPosition(isBlack: bool, r: int)
    requires r in Remainders(isBlack)
    ensures KeysBelow(isBlack, r) == IndexOf(Remainders(isBlack), r)
  {
    var i := IndexOf(Remainders(isBlack), r);
    assert Remainders(isBlack)[i] == r;
    assert i == 0 || i == 1 || i == 2 || i == 3 || i == 4 || i == 5 || i == 6;
  }

  /** Keys of the colour among the MIDI numbers below `n`, counted from the
      C of octave 0 (negative below it). */
  function KeysBefore(isBlack: bool, n: int): int {
    if isBlack then (n / 12) * 5 + KeysBelow(true, n % 12) else (n / 12) * 7 + KeysBelow(false, n % 12)
  }

  /** Passing note `n` adds one key exactly when `n` is of the colour. */
  lemma KeysBeforeStep(isBlack: bool, n: int)
    ensures KeysBefore(isBlack, n + 1) == KeysBefore(isBlack, n) + if n % 12 in Remainders(isBlack) then 1 else 0
  {
    var q, r := n / 12, n % 12;
    KeysBelowStep(isBlack, r);
    if r == 11 {
      assert (n + 1) / 12 == q + 1 && (n + 1) % 12 == 0;
      if isBlack {
        assert (q + 1) * 5 == q * 5 + 5;
      } else {
        assert (q + 1) * 7 == q * 7 + 7;
      }
    } else {
      assert (n + 1) / 12 == q && (n + 1) % 12 == r + 1;
    }
  }

  /** The keys of one colour in `[lo, n)`. */
  lemma {:induction false} RangeFilterCount(lo: int, n: int, isBlack: bool)
    requires lo <= n
    ensures |RangeFilter(lo, n, Remainders(isBlack))| == KeysBefore(isBlack, n) - KeysBefore(isBlack, lo)
    decreases n - lo
  {
    if lo < n {
      RangeFilterCount(lo, n - 1, isBlack);
      KeysBeforeStep(isBlack, n - 1);
    }
  }

  /** The index formula of `KeyColorManager.find_key_index`. */
  lemma FindKeyIndexFormula(n: int, start: int)
    ensures var p := FindKeyIndex(n, start);
            p.index == (n / 12 - start / 12) * KeysPerOctave(p.isBlack) + IndexOf(Remainders(p.isBlack), n % 12)
  {
  }

  /** The keys of one colour below the C of octave `q`. */
  lemma KeysBeforeOctave(isBlack: bool, q: int)
    ensures KeysBefore(isBlack, 12 * q) == q * KeysPerOctave(isBlack)
  {
    assert (12 * q) / 12 == q && (12 * q) % 12 == 0;
  }

  /** The keys of one colour from the C of the octave of `start` up to `n`. */
  lemma RangeFilterFromOctave(n: int, start: int, isBlack: bool)
    requires start - start % 12 <= n
    ensures |RangeFilter(start - start % 12, n, Remainders(isBlack))|
         == (n / 12 - start / 12) * KeysPerOctave(isBlack) + KeysBelow(isBlack, n % 12)
  {
    var q, qn := start / 12, n / 12;
    assert start - start % 12 == 12 * q;
    RangeFilterCount(12 * q, n, isBlack);
    KeysBeforeOctave(isBlack, q);
    if isBlack {
      assert KeysBefore(true, n) == qn * 5 + KeysBelow(true, n % 12);
      assert (qn - q) * KeysPerOctave(true) == qn * 5 - q * 5;
    } else {
      assert KeysBefore(false, n) == qn * 7 + KeysBelow(false, n % 12);
      assert (qn - q) * KeysPerOctave(false) == qn * 7 - q * 7;
    }
  }

  /** The key index of `KeyColorManager.find_key_index` counts the keys of
      the note's colour from the C of the octave of `start` up to the note. */
  lemma FindKeyIndexCounts(n: int, start: int)
    requires start - start % 12 <= n
    ensures var p := FindKeyIndex(n, start);
            p.index == |RangeFilter(start - start % 12, n, Remainders(p.isBlack))|
  {
    var b := FindKeyIndex(n, start).isBlack;
    FindKeyIndexFormula(n, start);
    RangeFilterFromOctave(n, start, b);
    RemaindersPartition(n % 12);
    KeysBelowIsPosition(b, n % 12);
  }

  /** What `adjust_keyboard_parameters` sets for a keyboard size. */
  datatype Layout = Layout(startingMidiNote: int, whiteKeysCount: nat, blackKeysCount: nat)

  /** The sizes `set_keyboard_size` accepts, with their starting notes (C2,
      E1, A0) and key-count tables; ValueError for any other size. */
  function LayoutFor(size: int): (r: Result<Layout>)
    ensures r.Err? <==> size != 61 && size != 76 && size != 88
    ensures r.Err? ==> r.error == ValueError
    ensures size == 61 ==> r == Ok(Layout(36, 36, 25))
    ensures size == 76 ==> r == Ok(Layout(28, 45, 33))
    ensures size == 88 ==> r == Ok(Layout(21, 52, 36))
  {
    if size == 61 then Ok(Layout(36, 36, 25))
    else if size == 76 then Ok(Layout(28, 45, 33))
    else if size == 88 then Ok(Layout(21, 52, 36))
    else Err(ValueError)
  }

  /** The keys of one colour in `[lo, hi)`, given the closed-form count. */
  lemma RangeKeyCount(lo: int, hi: int, isBlack: bool, count: int)
    requires lo <= hi && KeysBefore(isBlack, hi) - KeysBefore(isBlack, lo) == count
    ensures |RangeFilter(lo, hi, Remainders(isBlack))| == count
  {
    RangeFilterCount(lo, hi, isBlack);
  }

  /** The 61-key keyboard, C2 (36) to C7 (96), has 36 white and 25 black notes. */
  lemma SixtyOneKeyCount(isBlack: bool)
    ensures |RangeFilter(36, 97, Remainders(isBlack))| == if isBlack then 25 else 36
  {
    assert 97 / 12 == 8 && 97 % 12 == 1 && 36 / 12 == 3 && 36 % 12 == 0;
    if isBlack {
      RangeKeyCount(36, 97, true, 25);
    } else {
      RangeKeyCount(36, 97, false, 36);
    }
  }

  /** The 76-key keyboard, E1 (28) to G7 (103), has 45 white and 31 black notes. */
  lemma SeventySixKeyCount(isBlack: bool)
    ensures |RangeFilter(28, 104, Remainders(isBlack))| == if isBlack then 31 else 45
  {
    assert 104 / 12 == 8 && 104 % 12 == 8 && 28 / 12 == 2 && 28 % 12 == 4;
    if isBlack {
      RangeKeyCount(28, 104, true, 31);
    } else {
      RangeKeyCount(28, 104, false, 45);
    }
  }

  /** The 88-key keyboard, A0 (21) to C8 (108), has 52 white and 36 black notes. */
  lemma EightyEightKeyCount(isBlack: bool)
    ensures |RangeFilter(21, 109, Remainders(isBlack))| == if isBlack then 36 else 52
  {
    assert 109 / 12 == 9 && 109 % 12 == 1 && 21 / 12 == 1 && 21 % 12 == 9;
    if isBlack {
      RangeKeyCount(21, 109, true, 36);
    } else {
      RangeKeyCount(21, 109, false, 52);
    }
  }

  /** Every note below `n` is white or black. */
  lemma KeysBeforeTotal(n: int)
    ensures KeysBefore(false, n) + KeysBefore(true, n) == n
  {
    var q, r := n / 12, n % 12;
    assert r == 0 || r == 1 || r == 2 || r == 3 || r == 4 || r == 5 || r == 6
        || r == 7 || r == 8 || r == 9 || r == 10 || r == 11;
    assert q * 7 + q * 5 == 12 * q;
  }

  /** The white-key counts of the table are the white notes of each
      keyboard's range, and so are the black-key counts of the 61-key and
      88-key keyboards; the 76-key keyboard (E1 to G7) has 31 black notes,
      not the 33 of the table. */
  lemma LayoutCountsAgainstRanges(size: int)
    requires LayoutFor(size).Ok?
    ensures var l := LayoutFor(size).value;
            |RangeFilter(l.startingMidiNote, l.startingMidiNote + size, WhiteKeyRemainders)| == l.whiteKeysCount
    ensures var l := LayoutFor(size).value;
            |RangeFilter(l.startingMidiNote, l.startingMidiNote + size, BlackKeyRemainders)|
              == if size == 76 then l.blackKeysCount - 2 else l.blackKeysCount
  {
    if size == 61 {
      SixtyOneKeyCount(false);
      SixtyOneKeyCount(true);
    } else if size == 76 {
      SeventySixKeyCount(false);
      SeventySixKeyCount(true);
    } else {
      EightyEightKeyCount(false);
      EightyEightKeyCount(true);
    }
  }

  /** `calculate_start_midi_for_key`: the lowest note at or above `start`
      whose distance from the key's tonic is a whole number of octaves, as
      the formula computes it. The result keeps the pitch class of `start`:
      the key does not move it onto the key's tonic. */
  function StartMidiForKey(key: string, start: int): (r: int)
    ensures r >= start && (r - start) % 12 == 0
    ensures start >= KeyOffset(key) ==> r == start
    ensures start < KeyOffset(key) ==> KeyOffset(key) + 12 <= r < KeyOffset(key) + 24
  {
    var offset := KeyOffset(key);
    var lowest := (start - offset) % 12 + offset;
    if start >= lowest then start else lowest + 12
  }

  /** On every supported keyboard the start note is above every key offset,
      so the scale walk always begins at the keyboard's first note. */
  lemma StartMidiForKeyOnLayouts(size: int, key: string)
    requires LayoutFor(size).Ok?
    ensures StartMidiForKey(key, LayoutFor(size).value.startingMidiNote) == LayoutFor(size).value.startingMidiNote
  {
  }

  /** What `convert_scale_notes_to_midi` yields on a supported keyboard:
      the notes of the keyboard's range whose pitch class is in the scale,
      ascending and without repetition, and nothing for an empty scale. */
  lemma ScaleNotesOnKeyboard(size: int, key: string, scaleNotes: seq<int>)
    requires LayoutFor(size).Ok?
    ensures var start := LayoutFor(size).value.startingMidiNote;
            var r := RangeFilter(StartMidiForKey(key, start), start + size, scaleNotes);
            && StrictlyAscending(r)
            && (forall m :: m in r <==> start <= m < start + size && m % 12 in scaleNotes)
            && (scaleNotes == [] ==> r == [])
  {
    var start := LayoutFor(size).value.startingMidiNote;
    StartMidiForKeyOnLayouts(size, key);
    RangeFilterAscending(start, start + size, scaleNotes);
    RangeFilterNoClasses(start, start + size);
  }

  /** A remainder mod 12 is a white key's exactly when it is not a black key's. */
  lemma WhiteRemaindersComplement()
    ensures forall r :: 0 <= r < 12 ==> (r in WhiteKeyRemainders <==> r !in BlackKeyRemainders)
  {
    forall r | 0 <= r < 12
      ensures r in WhiteKeyRemainders <==> r !in BlackKeyRemainders
    {
      RemaindersPartition(r);
    }
  }

  /** `get_midi_numbers_for_white_keys`: the white notes of the 88 notes from
      `start`, ascending. */
  function WhiteKeyMidiNumbers(start: int): (whites: seq<int>)
    ensures StrictlyAscending(whites)
    ensures forall m {:trigger m in whites} :: m in whites <==> start <= m < start + 88 && !IsBlackKey(m)
  {
    RangeFilterAscending(start, start + 88, WhiteKeyRemainders);
    WhiteRemaindersComplement();
    RangeFilter(start, start + 88, WhiteKeyRemainders)
  }

  /** `get_midi_numbers_for_black_keys`: the black notes of the 88 notes from
      `start`, ascending. */
  function BlackKeyMidiNumbers(start: int): (blacks: seq<int>)
    ensures StrictlyAscending(blacks)
    ensures forall m {:trigger m in blacks} :: m in blacks <==> start <= m < start + 88 && IsBlackKey(m)
  {
    RangeFilterAscending(start, start + 88, BlackKeyRemainders);
    RangeFilter(start, start + 88, BlackKeyRemainders)
  }

  /** The two lists are ascending and split the 88 notes from `start`
      between them, whatever the keyboard size. */
  lemma KeyMidiNumbersPartition(start: int, m: int)
    ensures StrictlyAscending(WhiteKeyMidiNumbers(start)) && StrictlyAscending(BlackKeyMidiNumbers(start))
    ensures start <= m < start + 88 <==> m in WhiteKeyMidiNumbers(start) || m in BlackKeyMidiNumbers(start)
    ensures !(m in WhiteKeyMidiNumbers(start) && m in BlackKeyMidiNumbers(start))
    ensures |WhiteKeyMidiNumbers(start)| + |BlackKeyMidiNumbers(start)| == 88
  {
    RemaindersPartition(m % 12);
    RangeFilterAscending(start, start + 88, WhiteKeyRemainders);
    RangeFilterAscending(start, start + 88, BlackKeyRemainders);
    RangeFilterCount(start, start + 88, false);
    RangeFilterCount(start, start + 88, true);
    KeysBeforeTotal(start);
    KeysBeforeTotal(start + 88);
  }

  /** `PianoApp.find_key_index`: the note's position in the black list or,
      failing that, in the white list; None outside the 88 notes from `start`. */
  function ListKeyIndex(n: int, start: int): (r: Option<KeyPosition>)
    ensures r.Some? <==> start <= n < start + 88
    ensures r.Some? ==> r.value.isBlack == IsBlackKey(n)
  {
    RemaindersPartition(n % 12);
    var black := BlackKeyMidiNumbers(start);
    var white := WhiteKeyMidiNumbers(start);
    if n in black then Some(KeyPosition(IndexOf(black, n), true))
    else if n in white then Some(KeyPosition(IndexOf(white, n), false))
    else None
  }

  /** A note of the filter's classes inside the 88 notes from `start` is
      found after the keys of its classes that precede it. */
  lemma FilteredPosition(start: int, n: int, rs: seq<int>)
    requires start <= n < start + 88 && n % 12 in rs
    ensures n in RangeFilter(start, start + 88, rs)
    ensures IndexOf(RangeFilter(start, start + 88, rs), n) == |RangeFilter(start, n, rs)|
  {
    var below, from := RangeFilter(start, n, rs), RangeFilter(n, start + 88, rs);
    RangeFilterSplit(start, n, start + 88, rs);
    RangeFilterFrom(n, start + 88, rs);
    assert n !in below && from[0] == n;
    IndexOfAfterPrefix(below, from, n);
  }

  /** Inside its span the list lookup gives the number of keys of the
      note's colour between the starting note and the note. */
  lemma ListKeyIndexCounts(n: int, start: int)
    requires start <= n < start + 88
    ensures var b := IsBlackKey(n);
            ListKeyIndex(n, start) == Some(KeyPosition(|RangeFilter(start, n, Remainders(b))|, b))
  {
    RemaindersPartition(n % 12);
    if IsBlackKey(n) {
      FilteredPosition(start, n, BlackKeyRemainders);
    } else {
      FilteredPosition(start, n, WhiteKeyRemainders);
      assert n !in BlackKeyMidiNumbers(start);
    }
  }

  /** The keys of the colour from the starting note up to `n`, by the
      arithmetic of `KeyColorManager.find_key_index`. */
  lemma FindKeyIndexFromStart(n: int, start: int)
    requires start <= n
    ensures var p := FindKeyIndex(n, start);
            p.index - |RangeFilter(start - start % 12, start, Remainders(p.isBlack))|
              == |RangeFilter(start, n, Remainders(p.isBlack))|
  {
    var p := FindKeyIndex(n, start);
    FindKeyIndexCounts(n, start);
    RangeFilterRebase(n, start, p.isBlack, p.index);
  }

  /** Inside its span the list lookup is the arithmetic of
      `KeyColorManager.find_key_index` shifted down by the keys of the colour
      between the C of the starting octave and the starting note. */
  lemma ListKeyIndexAgainstArithmetic(n: int, start: int)
    requires start <= n < start + 88
    ensures var p := FindKeyIndex(n, start);
            ListKeyIndex(n, start)
              == Some(KeyPosition(p.index - |RangeFilter(start - start % 12, start, Remainders(p.isBlack))|, p.isBlack))
  {
    FindKeyIndexFromStart(n, start);
    ListKeyIndexCounts(n, start);
  }

  /** When the keyboard starts on a C the two lookups agree exactly. */
  lemma ListKeyIndexOnC(n: int, start: int)
    requires start % 12 == 0 && start <= n < start + 88
    ensures ListKeyIndex(n, start) == Some(FindKeyIndex(n, start))
  {
    ListKeyIndexAgainstArithmetic(n, start);
  }

  /** On the 61-key keyboard (C2 to C7) every note of the keyboard lands on
      its own key: the slot of its colour numbered by the keys of that colour
      below it, inside the key lists that are drawn (36 white, 25 black). */
  lemma SixtyOneKeysAddressing(n: int)
    requires 36 <= n < 97
    ensures var b := IsBlackKey(n);
            KeyAddress(n, 36, 36, 25) == Some(Key(b, |RangeFilter(36, n, Remainders(b))|))
  {
    var p := FindKeyIndex(n, 36);
    FindKeyIndexCounts(n, 36);
    SixtyOneKeysSlot(n, p.isBlack, p.index);
  }

  /** The count that addresses note `n` stays below the number of keys of its colour. */
  lemma SixtyOneKeysSlot(n: int, isBlack: bool, index: int)
    requires 36 <= n < 97 && (n % 12 in BlackKeyRemainders <==> isBlack)
    requires index == |RangeFilter(36, n, Remainders(isBlack))|
    ensures 0 <= index < if isBlack then 25 else 36
  {
    if !isBlack {
      RemaindersPartition(n % 12);
    }
    SixtyOneKeyCount(isBlack);
    RangeFilterBelowHigh(36, n, 97, Remainders(isBlack));
  }

  /** A note of the filter's classes inside a range has fewer such notes
      below it than the range holds. */
  lemma RangeFilterBelowHigh(lo: int, n: int, hi: int, pcs: seq<int>)
    requires lo <= n < hi && n % 12 in pcs
    ensures |RangeFilter(lo, n, pcs)| < |RangeFilter(lo, hi, pcs)|
  {
    RangeFilterSplit(lo, n, hi, pcs);
    RangeFilterFrom(n, hi, pcs);
  }

  /** On a keyboard that starts on a C, the B just below it gets index -1,
      which Python reads as the last element: it lights the top white key
      (on the 61-key keyboard, the B below C2 lights C7). */
  lemma BelowKeyboardWraps(start: int, whiteCount: nat, blackCount: nat)
    requires start % 12 == 0 && whiteCount > 0
    ensures KeyAddress(start - 1, start, whiteCount, blackCount) == Some(Key(false, whiteCount - 1))
  {
    var q := start / 12;
    assert (start - 1) / 12 == q - 1 && (start - 1) % 12 == 11;
    FindKeyIndexFormula(start - 1, start);
    KeysBelowIsPosition(false, 11);
    assert FindKeyIndex(start - 1, start) == KeyPosition(-1, false);
  }

  /** `draw_piano` draws a black key after white key `i` when `i` is at
      place 0, 1, 3, 4 or 5 of its group of seven and enough white keys
      follow: one more for the first two places, two more for the last three. */
  predicate BlackKeyDrawnAfter(i: int, whiteKeysCount: int) {
    i % 7 in [0, 1, 3, 4, 5]
    && (((i % 7 == 0 || i % 7 == 1) && i + 1 < whiteKeysCount) || i + 2 < whiteKeysCount)
  }

  /** A black key only ever sits between two drawn white keys, never after
      places 2 and 6; after places 0 and 1 it is drawn whenever a white key
      follows, and the one after the second-to-last white key is dropped when
      that key is at place 3, 4 or 5. */
  lemma BlackKeyPattern(i: int, whiteKeysCount: int)
    ensures BlackKeyDrawnAfter(i, whiteKeysCount) ==> i + 1 < whiteKeysCount
    ensures i % 7 == 2 || i % 7 == 6 ==> !BlackKeyDrawnAfter(i, whiteKeysCount)
    ensures (i % 7 == 0 || i % 7 == 1) && i + 1 < whiteKeysCount ==> BlackKeyDrawnAfter(i, whiteKeysCount)
    ensures (i % 7 == 3 || i % 7 == 4 || i % 7 == 5) ==> (BlackKeyDrawnAfter(i, whiteKeysCount) <==> i + 2 < whiteKeysCount)
  {
  }

  /** The black keys drawn after the first `k` white keys. */
  function DrawnBlackCount(k: nat, whiteKeysCount: int): nat {
    if k == 0 then 0
    else DrawnBlackCount(k - 1, whiteKeysCount) + if BlackKeyDrawnAfter(k - 1, whiteKeysCount) then 1 else 0
  }

  /** At most one black key is drawn per white key and none after the last,
      so a whole keyboard has fewer black keys than white ones. */
  lemma {:induction false} DrawnBlackCountBounds(k: nat, whiteKeysCount: int)
    ensures DrawnBlackCount(k, whiteKeysCount) <= k
    ensures 0 < k == whiteKeysCount ==> DrawnBlackCount(k, whiteKeysCount) < k
  {
    if k > 0 {
      DrawnBlackCountBounds(k - 1, whiteKeysCount);
    }
  }

  /** A full group of seven white keys followed by more keys carries five black keys. */
  lemma DrawnBlackGroup(k: nat, whiteKeysCount: int)
    requires k % 7 == 0 && k + 7 < whiteKeysCount
    ensures DrawnBlackCount(k + 7, whiteKeysCount) == DrawnBlackCount(k, whiteKeysCount) + 5
  {
    assert (k + 1) % 7 == 1 && (k + 2) % 7 == 2 && (k + 3) % 7 == 3;
    assert (k + 4) % 7 == 4 && (k + 5) % 7 == 5 && (k + 6) % 7 == 6;
    assert DrawnBlackCount(k + 7, whiteKeysCount) == DrawnBlackCount(k + 6, whiteKeysCount);
    assert DrawnBlackCount(k + 6, whiteKeysCount) == DrawnBlackCount(k + 5, whiteKeysCount) + 1;
    assert DrawnBlackCount(k + 5, whiteKeysCount) == DrawnBlackCount(k + 4, whiteKeysCount) + 1;
    assert DrawnBlackCount(k + 4, whiteKeysCount) == DrawnBlackCount(k + 3, whiteKeysCount) + 1;
    assert DrawnBlackCount(k + 3, whiteKeysCount) == DrawnBlackCount(k + 2, whiteKeysCount);
    assert DrawnBlackCount(k + 2, whiteKeysCount) == DrawnBlackCount(k + 1, whiteKeysCount) + 1;
  }

  lemma {:induction false} DrawnBlackGroups(groups: nat, whiteKeysCount: int)
    requires 7 * groups < whiteKeysCount
    ensures DrawnBlackCount(7 * groups, whiteKeysCount) == 5 * groups
  {
    if groups > 0 {
      DrawnBlackGroups(groups - 1, whiteKeysCount);
      DrawnBlackGroup(7 * (groups - 1), whiteKeysCount);
    }
  }

  /** The black keys `draw_piano` draws for the three white-key counts of the
      table: 25 for 36 white keys, 32 for 45 and 37 for 52. The pattern
      assumes that the keyboard starts on a C, so only the 61-key keyboard
      gets the black keys of its range (25; the 76-key range has 31 and the
      88-key range 36). */
  lemma DrawnBlackCounts()
    ensures DrawnBlackCount(36, 36) == 25
    ensures DrawnBlackCount(45, 45) == 32
    ensures DrawnBlackCount(52, 52) == 37
  {
    DrawnBlackGroups(5, 36);
    assert DrawnBlackCount(36, 36) == DrawnBlackCount(35, 36);
    DrawnBlackGroups(6, 45);
    assert DrawnBlackCount(45, 45) == DrawnBlackCount(44, 45);
    assert DrawnBlackCount(44, 45) == DrawnBlackCount(43, 45) + 1;
    assert DrawnBlackCount(43, 45) == DrawnBlackCount(42, 45) + 1;
    DrawnBlackGroups(7, 52);
    assert DrawnBlackCount(52, 52) == DrawnBlackCount(51, 52);
    assert DrawnBlackCount(51, 52) == DrawnBlackCount(50, 52) + 1;
    assert DrawnBlackCount(50, 52) == DrawnBlackCount(49, 52) + 1;
  }

  /** `draw_piano`: one white item per white key, then one black item after
      each white key the pattern selects; every item has its class default fill. */
  method DrawPiano(whiteKeysCount: nat) returns (whiteFills: seq<Color>, blackFills: seq<Color>)
    ensures whiteFills == seq(whiteKeysCount, _ => DefaultWhiteKeyColor)
    ensures blackFills == seq(DrawnBlackCount(whiteKeysCount, whiteKeysCount), _ => DefaultBlackKeyColor)
  {
    whiteFills := [];
    for i := 0 to whiteKeysCount
      invariant whiteFills == seq(i, _ => DefaultWhiteKeyColor)
    {
      whiteFills := whiteFills + [DefaultWhiteKeyColor];
    }
    blackFills := [];
    for i := 0 to whiteKeysCount
      invariant blackFills == seq(DrawnBlackCount(i, whiteKeysCount), _ => DefaultBlackKeyColor)
    {
      if i % 7 in [0, 1, 3, 4, 5] {
        if (i % 7 == 0 || i % 7 == 1) && i + 1 < whiteKeysCount {
          blackFills := blackFills + [DefaultBlackKeyColor];
        } else if i + 2 < whiteKeysCount {
          blackFills := blackFills + [DefaultBlackKeyColor];
        }
      }
    }
  }

  /** Repainting keys of a uniformly coloured list with that same colour
      changes nothing. */
  lemma RepaintUniform(n: nat, isBlack: bool, keys: set<Key>, c: Color)
    ensures Repaint(seq(n, _ => c), isBlack, keys, c) == seq(n, _ => c)
  {
  }

  /** `args[1] if args else None`: the MIDI number an OSC key message
      carries; None for an empty message, IndexError for a one-value one. */
  function HandlerMidiNumber(args: seq<int>): (r: Result<Option<int>>)
    ensures r.Err? <==> |args| == 1
    ensures r.Err? ==> r.error == IndexError
    ensures r == Ok(None) <==> args == []
    ensures r.Ok? && r.value.Some? ==> |args| >= 2 && r.value.value == args[1]
  {
    if args == [] then Ok(None)
    else if |args| < 2 then Err(IndexError)
    else Ok(Some(args[1]))
  }

  class PianoApp {
    var keyboardSize: int
    var startingMidiNote: int
    var whiteKeysCount: nat
    var blackKeysCount: nat
    /** The selected key name; None until one has been selected. */
    var currentKey: Option<string>
    /** The name of the selected scale class. */
    var currentScale: string
    /** The scale classes of the music library. */
    const scales: ScaleModule
    /** The colour manager; it shares the canvas and the key lists of the app. */
    const colors: KeyColorManager

    /** The size fields hold the table entry of the keyboard size. */
    predicate Valid()
      reads this
    {
      LayoutFor(keyboardSize) == Ok(Layout(startingMidiNote, whiteKeysCount, blackKeysCount))
    }

    /** `__init__`: a 61-key keyboard is drawn before the colour manager is
        created, so the manager's starting note is 36 for good. */
    constructor (scales: ScaleModule)
      ensures Valid() && keyboardSize == 61
      ensures currentKey == None && currentScale == "MajorScale" && this.scales == scales
      ensures fresh(colors) && colors.startingMidiNote == 36 && colors.highlightedKeys == {}
      ensures colors.whiteFills == seq(36, _ => DefaultWhiteKeyColor)
      ensures colors.blackFills == seq(25, _ => DefaultBlackKeyColor)
    {
      DrawnBlackCounts();
      var whiteFills, blackFills := DrawPiano(36);
      keyboardSize := 61;
      startingMidiNote := 36;
      whiteKeysCount := 36;
      blackKeysCount := 25;
      currentKey := None;
      currentScale := "MajorScale";
      this.scales := scales;
      colors := new KeyColorManager(whiteFills, blackFills, 36);
    }

    /** `set_keyboard_size` followed by `adjust_keyboard_parameters`: an
        unsupported size raises ValueError and changes nothing; otherwise the
        table entry is installed, the piano is redrawn and the colour manager
        gets the new key lists and forgets its highlights. The manager's
        starting note is not updated. */
    method SetKeyboardSize(size: int) returns (error: Option<PyError>)
      modifies this, colors
      ensures error.Some? <==> LayoutFor(size).Err?
      ensures error.Some? ==> error.value == ValueError && unchanged(this) && unchanged(colors)
      ensures error.None? ==> && keyboardSize == size && Valid()
                              && colors.whiteFills == seq(whiteKeysCount, _ => DefaultWhiteKeyColor)
                              && colors.blackFills == seq(DrawnBlackCount(whiteKeysCount, whiteKeysCount), _ => DefaultBlackKeyColor)
                              && colors.highlightedKeys == {}
      ensures currentKey == old(currentKey) && currentScale == old(currentScale)
    {
      var layout := LayoutFor(size);
      if layout.Err? {
        return Some(ValueError);
      }
      keyboardSize := size;
      startingMidiNote := layout.value.startingMidiNote;
      whiteKeysCount := layout.value.whiteKeysCount;
      blackKeysCount := layout.value.blackKeysCount;
      Redraw();
      error := None;
    }

    /** The piano is redrawn for the current white-key count and the colour
        manager takes the new key lists. */
    method Redraw()
      modifies colors
      ensures colors.whiteFills == seq(whiteKeysCount, _ => DefaultWhiteKeyColor)
      ensures colors.blackFills == seq(DrawnBlackCount(whiteKeysCount, whiteKeysCount), _ => DefaultBlackKeyColor)
      ensures colors.highlightedKeys == {}
    {
      var whiteFills, blackFills := DrawPiano(whiteKeysCount);
      colors.UpdateKeys(whiteFills, blackFills);
    }

    /** `reset_keyboard_colors`: every key item gets its class default fill;
        the highlight set is not touched. */
    method ResetKeyboardColors()
      modifies colors
      ensures colors.whiteFills == seq(|old(colors.whiteFills)|, _ => DefaultWhiteKeyColor)
      ensures colors.blackFills == seq(|old(colors.blackFills)|, _ => DefaultBlackKeyColor)
      ensures colors.highlightedKeys == old(colors.highlightedKeys)
    {
      for i := 0 to |colors.whiteFills|
        invariant |colors.whiteFills| == |old(colors.whiteFills)|
        invariant forall j :: 0 <= j < i ==> colors.whiteFills[j] == DefaultWhiteKeyColor
        invariant colors.blackFills == old(colors.blackFills)
        invariant colors.highlightedKeys == old(colors.highlightedKeys)
      {
        colors.Paint(Key(false, i), DefaultWhiteKeyColor);
      }
      for i := 0 to |colors.blackFills|
        invariant |colors.blackFills| == |old(colors.blackFills)|
        invariant forall j :: 0 <= j < i ==> colors.blackFills[j] == DefaultBlackKeyColor
        invariant colors.whiteFills == seq(|old(colors.whiteFills)|, _ => DefaultWhiteKeyColor)
        invariant colors.highlightedKeys == old(colors.highlightedKeys)
      {
        colors.Paint(Key(true, i), DefaultBlackKeyColor);
      }
    }

    /** `convert_scale_notes_to_midi`: the notes from the key's start note up
        to the keyboard's last note whose pitch class is in the scale. */
    method ConvertScaleNotesToMidi(scaleNotes: seq<int>, key: string) returns (allMidiNumbers: seq<int>)
      ensures allMidiNumbers == RangeFilter(StartMidiForKey(key, startingMidiNote), startingMidiNote + keyboardSize, scaleNotes)
    {
      var startMidi := StartMidiForKey(key, startingMidiNote);
      var endMidi := startingMidiNote + keyboardSize - 1;
      allMidiNumbers := [];
      var midiNum := startMidi;
      while midiNum < endMidi + 1
        invariant midiNum == startMidi || startMidi <= midiNum <= endMidi + 1
        invariant allMidiNumbers == RangeFilter(startMidi, midiNum, scaleNotes)
        decreases endMidi + 1 - midiNum
      {
        if midiNum % 12 in scaleNotes {
          allMidiNumbers := allMidiNumbers + [midiNum];
        }
        midiNum := midiNum + 1;
      }
      if midiNum != endMidi + 1 {
        assert RangeFilter(startMidi, endMidi + 1, scaleNotes) == [];
      }
    }

    /** The MIDI numbers of scale `currentScale` on `key` across the keyboard;
        ValueError when the library has no such scale. */
    function ScaleMidiNumbers(key: string): Result<seq<int>>
      reads this
    {
      match GetScaleNotes(scales, key, currentScale)
      case Err(e) => Err(e)
      case Ok(pitchClasses) =>
        Ok(RangeFilter(StartMidiForKey(key, startingMidiNote), startingMidiNote + keyboardSize, pitchClasses))
    }

    /** The colours after `KeyColorManager_keys_for_notes` raised IndexError
        for `midi`, starting from the fills `whites`/`blacks` and the
        highlights `highlighted`: either some old highlight has no key, and
        the set is kept with a part of its keys back to their defaults; or
        every old key was reset and the first note of `midi` without a key
        stopped the highlighting after the notes before it. */
    ghost predicate KeysForNotesFailed(midi: seq<int>, whites: seq<Color>, blacks: seq<Color>, highlighted: set<int>)
      reads colors
    {
      var start, wc, bc := colors.startingMidiNote, |whites|, |blacks|;
      if !AllAddressable(highlighted, start, wc, bc) then
        && colors.highlightedKeys == highlighted
        && exists done :: done <= highlighted
             && colors.whiteFills == Repaint(whites, false, KeyAddresses(done, start, wc, bc), DefaultWhiteKeyColor)
             && colors.blackFills == Repaint(blacks, true, KeyAddresses(done, start, wc, bc), DefaultBlackKeyColor)
      else
        var reset := KeyAddresses(highlighted, start, wc, bc);
        exists i :: 0 <= i < |midi| && colors.FailedAt(midi, i,
          Repaint(whites, false, reset, DefaultWhiteKeyColor), Repaint(blacks, true, reset, DefaultBlackKeyColor), {})
    }

    /** `KeyColorManager_keys_for_notes`: the highlighted keys go back to
        their defaults, then the notes are highlighted one by one. IndexError
        when a note of either step has no key; on success the highlight set
        is exactly the notes given. When the reset fails, some of the
        highlighted keys are back to their defaults and the set is kept; when
        highlighting fails, the reset is complete and the notes before the
        failing one are painted and form the set. */
    method KeysForNotes(midiNotes: seq<int>) returns (error: Option<PyError>)
      modifies colors
      ensures error.None? <==> old(colors.Addressable(colors.highlightedKeys)) && old(colors.Addressable(Elements(midiNotes)))
      ensures error.Some? ==> error.value == IndexError
      ensures error.Some? ==>
                KeysForNotesFailed(midiNotes, old(colors.whiteFills), old(colors.blackFills), old(colors.highlightedKeys))
      ensures error.None? ==>
                && colors.highlightedKeys == Elements(midiNotes)
                && colors.whiteFills == Repaint(Repaint(old(colors.whiteFills), false, old(colors.Addresses(colors.highlightedKeys)), DefaultWhiteKeyColor),
                                                false, old(colors.Addresses(Elements(midiNotes))), HighlightColor)
                && colors.blackFills == Repaint(Repaint(old(colors.blackFills), true, old(colors.Addresses(colors.highlightedKeys)), DefaultBlackKeyColor),
                                                true, old(colors.Addresses(Elements(midiNotes))), HighlightColor)
    {
      ghost var wc, bc := |colors.whiteFills|, |colors.blackFills|;
      var reset := colors.ResetHighlightedKeys();
      if !reset {
        return Some(IndexError);
      }
      assert |colors.whiteFills| == wc && |colors.blackFills| == bc;
      var highlighted := colors.HighlightNotes(midiNotes);
      if !highlighted {
        return Some(IndexError);
      }
      error := None;
    }

    /** `visualize_scale_on_keyboard`: with no key selected (or an empty key
        name) the key becomes C; the scale's MIDI numbers are then
        highlighted through `KeysForNotes`. */
    method VisualizeScaleOnKeyboard() returns (error: Option<PyError>)
      modifies this, colors
      ensures currentKey == if old(currentKey).None? || old(currentKey).value == "" then Some("C") else old(currentKey)
      ensures keyboardSize == old(keyboardSize) && startingMidiNote == old(startingMidiNote)
      ensures whiteKeysCount == old(whiteKeysCount) && blackKeysCount == old(blackKeysCount)
      ensures currentScale == old(currentScale)
      ensures ScaleMidiNumbers(currentKey.value).Err? ==> error == Some(ValueError) && unchanged(colors)
      ensures ScaleMidiNumbers(currentKey.value).Ok? ==>
                var midi := ScaleMidiNumbers(currentKey.value).value;
                && (error.None? <==> old(colors.Addressable(colors.highlightedKeys)) && old(colors.Addressable(Elements(midi))))
                && (error.Some? ==> error.value == IndexError)
                && (error.Some? ==>
                      KeysForNotesFailed(midi, old(colors.whiteFills), old(colors.blackFills), old(colors.highlightedKeys)))
                && (error.None? ==>
                      && colors.highlightedKeys == Elements(midi)
                      && colors.whiteFills == Repaint(Repaint(old(colors.whiteFills), false, old(colors.Addresses(colors.highlightedKeys)), DefaultWhiteKeyColor),
                                                      false, old(colors.Addresses(Elements(midi))), HighlightColor)
                      && colors.blackFills == Repaint(Repaint(old(colors.blackFills), true, old(colors.Addresses(colors.highlightedKeys)), DefaultBlackKeyColor),
                                                      true, old(colors.Addresses(Elements(midi))), HighlightColor))
    {
      if currentKey.None? || currentKey.value == "" {
        currentKey := Some("C");
      }
      var scaleNotes := GetScaleNotes(scales, currentKey.value, currentScale);
      if scaleNotes.Err? {
        return Some(ValueError);
      }
      var midiNotes := ConvertScaleNotesToMidi(scaleNotes.value, currentKey.value);
      error := KeysForNotes(midiNotes);
    }

    /** `on_key_selected`: all keys go back to their defaults, the highlight
        set becomes the scale's MIDI numbers on the selected key, and the
        scale is visualised. On success the keyboard shows exactly the notes
        of the scale in the highlight colour and every other key in its
        default colour. An empty key name is replaced by C when visualising. */
    method OnKeySelected(selectedKey: string) returns (error: Option<PyError>)
      modifies this, colors
      ensures currentKey == Some(if selectedKey == "" && currentScale in scales then "C" else selectedKey)
      ensures keyboardSize == old(keyboardSize) && startingMidiNote == old(startingMidiNote)
      ensures whiteKeysCount == old(whiteKeysCount) && blackKeysCount == old(blackKeysCount)
      ensures currentScale == old(currentScale)
      ensures error == Some(ValueError) <==> currentScale !in scales
      ensures currentScale !in scales ==>
                && colors.whiteFills == seq(|old(colors.whiteFills)|, _ => DefaultWhiteKeyColor)
                && colors.blackFills == seq(|old(colors.blackFills)|, _ => DefaultBlackKeyColor)
                && colors.highlightedKeys == old(colors.highlightedKeys)
      ensures currentScale in scales ==>
                var midi := ScaleMidiNumbers(currentKey.value).value;
                var selected := ScaleMidiNumbers(selectedKey).value;
                && (error.None? <==> old(colors.Addressable(Elements(selected))) && old(colors.Addressable(Elements(midi))))
                && (error.Some? ==> error.value == IndexError)
                && (error.Some? ==>
                      KeysForNotesFailed(midi, seq(|old(colors.whiteFills)|, _ => DefaultWhiteKeyColor),
                                         seq(|old(colors.blackFills)|, _ => DefaultBlackKeyColor), Elements(selected)))
                && (error.None? ==>
                      && colors.highlightedKeys == Elements(midi)
                      && colors.whiteFills == Repaint(seq(|old(colors.whiteFills)|, _ => DefaultWhiteKeyColor),
                                                      false, old(colors.Addresses(Elements(midi))), HighlightColor)
                      && colors.blackFills == Repaint(seq(|old(colors.blackFills)|, _ => DefaultBlackKeyColor),
                                                      true, old(colors.Addresses(Elements(midi))), HighlightColor))
    {
      currentKey := Some(selectedKey);
      ResetKeyboardColors();
      ghost var whiteDefaults, blackDefaults := colors.whiteFills, colors.blackFills;
      var scaleNotes := GetScaleNotes(scales, selectedKey, currentScale);
      if scaleNotes.Err? {
        return Some(ValueError);
      }
      var midiNotes := ConvertScaleNotesToMidi(scaleNotes.value, selectedKey);
      colors.highlightedKeys := Elements(midiNotes);
      RepaintUniform(|whiteDefaults|, false, colors.Addresses(Elements(midiNotes)), DefaultWhiteKeyColor);
      RepaintUniform(|blackDefaults|, true, colors.Addresses(Elements(midiNotes)), DefaultBlackKeyColor);
      error := VisualizeScaleOnKeyboard();
    }

    /** `on_scale_selected`: the scale name is stored and the scale visualised. */
    method OnScaleSelected(selection: string) returns (error: Option<PyError>)
      modifies this, colors
      ensures currentScale == selection
      ensures currentKey == if old(currentKey).None? || old(currentKey).value == "" then Some("C") else old(currentKey)
      ensures keyboardSize == old(keyboardSize) && startingMidiNote == old(startingMidiNote)
      ensures whiteKeysCount == old(whiteKeysCount) && blackKeysCount == old(blackKeysCount)
      ensures error == Some(ValueError) <==> selection !in scales
      ensures selection !in scales ==> unchanged(colors)
      ensures selection in scales ==>
                var midi := ScaleMidiNumbers(currentKey.value).value;
                && (error.None? <==> old(colors.Addressable(colors.highlightedKeys)) && old(colors.Addressable(Elements(midi))))
                && (error.Some? ==> error.value == IndexError)
                && (error.Some? ==>
                      KeysForNotesFailed(midi, old(colors.whiteFills), old(colors.blackFills), old(colors.highlightedKeys)))
                && (error.None? ==>
                      && colors.highlightedKeys == Elements(midi)
                      && colors.whiteFills == Repaint(Repaint(old(colors.whiteFills), false, old(colors.Addresses(colors.highlightedKeys)), DefaultWhiteKeyColor),
                                                      false, old(colors.Addresses(Elements(midi))), HighlightColor)
                      && colors.blackFills == Repaint(Repaint(old(colors.blackFills), true, old(colors.Addresses(colors.highlightedKeys)), DefaultBlackKeyColor),
                                                      true, old(colors.Addresses(Elements(midi))), HighlightColor))
    {
      currentScale := selection;
      error := VisualizeScaleOnKeyboard();
    }

    /** `key_on_handler` with the `activate_key` it schedules, run at once:
        the key of `args[1]` is shown as pressed. A message with one value
        raises IndexError in the handler; an empty one does nothing. A note
        without a key fails inside the scheduled callback, where Tk reports
        it, and changes nothing. */
    method KeyOnHandler(args: seq<int>) returns (error: Option<PyError>)
      modifies colors
      ensures error.Some? <==> |args| == 1
      ensures error.Some? ==> error.value == IndexError
      ensures |args| < 2 ==> unchanged(colors)
      ensures |args| >= 2 ==>
                && colors.highlightedKeys == old(colors.highlightedKeys)
                && (old(colors.Address(args[1])).Some? ==>
                      && colors.whiteFills == Repaint(old(colors.whiteFills), false, {old(colors.Address(args[1])).value}, ActiveColor)
                      && colors.blackFills == Repaint(old(colors.blackFills), true, {old(colors.Address(args[1])).value}, ActiveColor))
                && (old(colors.Address(args[1])).None? ==>
                      colors.whiteFills == old(colors.whiteFills) && colors.blackFills == old(colors.blackFills))
    {
      var midiNumber := HandlerMidiNumber(args);
      if midiNumber.Err? {
        return Some(midiNumber.error);
      }
      if midiNumber.value.Some? {
        var _ := colors.ActivateKey(midiNumber.value.value);
      }
      error := None;
    }

    /** `key_off_handler` with the `deactivate_key` it schedules, run at
        once: the key of `args[1]` returns to its scale colour. */
    method KeyOffHandler(args: seq<int>) returns (error: Option<PyError>)
      modifies colors
      ensures error.Some? <==> |args| == 1
      ensures error.Some? ==> error.value == IndexError
      ensures |args| < 2 ==> unchanged(colors)
      ensures |args| >= 2 ==>
                && colors.highlightedKeys == old(colors.highlightedKeys)
                && (old(colors.Address(args[1])).Some? ==>
                      && colors.whiteFills == Repaint(old(colors.whiteFills), false, {old(colors.Address(args[1])).value}, old(colors.ScaleColor(args[1])))
                      && colors.blackFills == Repaint(old(colors.blackFills), true, {old(colors.Address(args[1])).value}, old(colors.ScaleColor(args[1]))))
                && (old(colors.Address(args[1])).None? ==>
                      colors.whiteFills == old(colors.whiteFills) && colors.blackFills == old(colors.blackFills))
    {
      var midiNumber := HandlerMidiNumber(args);
      if midiNumber.Err? {
        return Some(midiNumber.error);
      }
      if midiNumber.value.Some? {
        var _ := colors.DeactivateKey(midiNumber.value.value);
      }
      error := None;
    }
  }
}
