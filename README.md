# computational-music, modelled in Dafny

This project models the core of a small computational-music toolkit:

- an on-screen piano keyboard (61, 76 or 88 keys) that highlights the notes
  of a chosen key and scale, and lights keys as OSC key-on / key-off
  messages arrive;
- a listener that groups incoming OSC notes into chords with a chord timer;
- a score loader that extracts chords from a score, filters duplicates,
  scrubs through the chord list and sends the chords out as OSC messages,
  optionally as pitch-bend "morph" values between consecutive chords.

The model has six modules:

- `Wrappers`: `Option`, `Result` and the Python exceptions raised (`ValueError`,
  `IndexError`, `AttributeError`).
- `PyLists`: `list.index`, and subscripting with a negative index.
- `KeyColor` (keyboard/key_color.py): the MIDI-number-to-key arithmetic and
  the `KeyColorManager` class. The canvas is modelled as the fill colour of
  every white and black key item.
- `MusicTheory` (keyboard/music_theory.py): the key-signature table and the
  sorted pitch-class lists of scales. The music21 scale classes are
  parameters.
- `Keyboard` (keyboard/keyboard.py): the keyboard-size table, the key
  ranges, the scale-to-MIDI walk, the drawing pattern of the keys, and the
  `PianoApp` class with its refresh and OSC handlers.
- `Listener` (music21/keyboard_listener.py): the `KeyboardListener` class.
  The timer firing is an explicit call with the current time.
- `MusicLoader` (music21/music-loader.py): the bend mapping, padding,
  duplicate filtering, chord extraction, the messages of
  `play_current_chord`, and the instrument catalog, with the
  `Music21Module` class that changes its chords in place.

Python's `%` and `//` by 12 floor like Dafny's Euclidean operators for a
positive divisor, so the index arithmetic is written with them directly.
Exceptions become `Result` / `Option<PyError>` values or a boolean `ok`.

What the proofs establish about the source, beyond each operation's contract:

- `KeyColorManager.find_key_index` is injective and strictly increasing
  within a colour. It counts keys from the C of the starting note's octave.
  On a keyboard that starts on a C it agrees with `PianoApp.find_key_index`
  (the list lookup). Elsewhere the two differ by the keys between that C and
  the starting note.
- The 61-key keyboard addresses each of its notes onto its own key. The B
  just below it wraps round to the top key (index -1).
- The keyboard-size table's white-key counts match the ranges, and so do its
  black-key counts for 61 and 88 keys. The 76-key entry says 33 black keys,
  but E1..G7 holds 31. `draw_piano`'s seven-key pattern draws 25, 32 and 37
  black keys for 36, 45 and 52 white keys, so only the 61-key keyboard gets
  the right number.
- The colour manager keeps the starting note 36 it was created with, even
  after the keyboard is resized.
- `calculate_start_midi_for_key` never moves the start onto the key's tonic
  on any supported keyboard. The scale walk is the keyboard's notes of the
  scale's pitch classes, ascending.
- The listener's queued chords followed by the pending notes are always
  exactly the notes received, in order. The timer runs for a fixed window
  from a chord's first note; later notes do not restart it.
- Morphing: chords of different lengths are padded with their last note. A
  voice that moves more than an octave aborts the whole morph. An empty chord
  against a non-empty one raises IndexError. Bends lie in 0..16384, with 8192
  for no move.
- Duplicate filtering keeps the first occurrence of each signature in order.
  It is idempotent, and exact on duplicate-free input.
- The instrument catalog maps each instrument to exactly its parts, in score
  order.

## Model

| member | source | states |
|---|---|---|
| PyLists.IndexOf | keyboard/key_color.py:69-77 | `list.index`: the result is a position of `x`, and no earlier element equals `x` |
| PyLists.IndexOfMonotone | keyboard/key_color.py:59-60 | in the ascending remainder tables, a larger remainder has a larger position |
| PyLists.IndexOfAfterPrefix | keyboard/keyboard.py:190-198 | searching a list whose first part lacks `x` lands after that part |
| PyLists.ListSlot | keyboard/key_color.py:16-19 | Python subscripting: valid exactly for -len..len-1, a negative index counting from the end |
| KeyColor.KeysPerOctave | keyboard/key_color.py:59-60 | the per-octave key count is the size of that colour's remainder table |
| KeyColor.RemaindersAscending | keyboard/key_color.py:59-60 | both remainder tables are strictly ascending |
| KeyColor.RemaindersPartition | keyboard/key_color.py:59-60 | every remainder mod 12 is in exactly one of the two tables |
| KeyColor.Elements | keyboard/key_color.py:89-93 | `set(notes)` holds exactly the notes of the list |
| KeyColor.FindKeyIndex | keyboard/key_color.py:45-78 | the colour is the remainder's table, and the index lies in that colour's block for the note's octave, counted from `start`'s octave |
| KeyColor.FindKeyIndexStrictlyIncreasing | keyboard/key_color.py:45-78 | within one colour, a higher note gets a strictly larger index |
| KeyColor.FindKeyIndexInjective | keyboard/key_color.py:45-78 | two different notes never get the same colour and index |
| KeyColor.FindKeyIndexOctaveShift | keyboard/key_color.py:45-78 | an octave up keeps the colour and adds 7 (white) or 5 (black) to the index |
| KeyColor.Repaint | keyboard/key_color.py:16-19 | recolouring keys changes the fill of exactly those keys of that colour and keeps the list length |
| KeyColor.RepaintNothing | keyboard/key_color.py:22-26 | recolouring no keys changes nothing |
| KeyColor.RepaintTwice | keyboard/key_color.py:22-26 | recolouring two key sets in turn with one colour equals recolouring their union |
| KeyColor.KeyAddress | keyboard/key_color.py:16-19 | the key a note designates exists exactly when the subscript is in range, and it has the note's colour and lies inside its list |
| KeyColor.KeyAddressesAdd | keyboard/key_color.py:16-20 | adding an addressable note to a set adds exactly its key to the set's keys |
| KeyColor.RepaintOtherList | keyboard/key_color.py:16-19 | recolouring a key of one colour leaves the other colour's list alone |
| KeyColor.KeyColorManager.constructor | keyboard/key_color.py:2-11 | the manager starts with the given key lists and starting note, and no highlighted notes |
| KeyColor.KeyColorManager.Paint | keyboard/key_color.py:16-19 | one key gets the colour; the other keys and the highlight set are unchanged |
| KeyColor.KeyColorManager.HighlightKey | keyboard/key_color.py:13-20 | succeeds exactly when the note has a key. The key turns the given colour, or blue for none or "", and the note joins the highlight set. On IndexError nothing changes |
| KeyColor.KeyColorManager.ResetKeyColor | keyboard/key_color.py:28-34 | the note's key returns to its class default; the highlight set is unchanged |
| KeyColor.KeyColorManager.ActivateKey | keyboard/key_color.py:80-86 | the note's key turns yellow; the highlight set is unchanged; fails exactly when the note has no key |
| KeyColor.KeyColorManager.DeactivateKey | keyboard/key_color.py:36-43 | the key returns to its scale colour: blue if the note is highlighted, its default otherwise |
| KeyColor.KeyColorManager.ResetHighlightedKeys | keyboard/key_color.py:22-26 | succeeds exactly when every highlighted note has a key. Then all their keys get their defaults and the set empties. On failure the set is kept |
| KeyColor.KeyColorManager.ChangeScale | keyboard/key_color.py:89-93 | the highlight set becomes the new scale's notes, and no key is repainted |
| KeyColor.KeyColorManager.HighlightNotes | keyboard/key_color.py:13-20 | highlighting a list of notes one by one: succeeds exactly when all have keys, paints them blue and adds them to the set. On IndexError the failing note is the first without a key, and exactly the notes before it are painted and added |
| KeyColor.KeyColorManager.UpdateScale | keyboard/key_color.py:96-105 | always raises: AttributeError at the undefined reset method when every highlighted note has a key, IndexError before it otherwise, at the first note without a key and with the notes before it painted; the highlight set is the new notes |
| KeyColor.KeyColorManager.UpdateKeys | keyboard/key_color.py:108-113 | the manager takes the redrawn key lists and forgets its highlights |
| MusicTheory.KeySignatureOffsetsArePitchClasses | keyboard/music_theory.py:4-8 | every key-signature offset is a pitch class 0..11 |
| MusicTheory.EnharmonicKeysShareOffset | keyboard/music_theory.py:4-8 | F#/Gb and C#/Db share their offsets |
| MusicTheory.KeyOffset | keyboard/keyboard.py:235-237 | the table's offset for a known key name, 0 for an unknown one, always a pitch class |
| MusicTheory.CircleOfFifthsOffsets | keyboard/circle_fifths.py:8 | every key of the circle is in the offset table, with its offset |
| MusicTheory.CircleOfFifthsConsistent | keyboard/circle_fifths.py:8 | each step round the circle, F back to C included, rises a fifth in the offset table |
| MusicTheory.Insert | keyboard/music_theory.py:31 | inserting keeps a list strictly ascending and adds exactly the new value |
| MusicTheory.SortedDistinct | keyboard/music_theory.py:31 | `sorted(set(xs))`: strictly ascending, with exactly the elements of `xs` |
| MusicTheory.StrictlyAscendingUnique | keyboard/music_theory.py:31 | two strictly ascending lists with the same elements are equal, so the sorted set is unique |
| MusicTheory.SortedDistinctOfAscending | keyboard/music_theory.py:31 | sorting and de-duplicating an ascending list leaves it as it is |
| MusicTheory.GetScaleNotes | keyboard/music_theory.py:21-33 | ValueError exactly for an unknown scale name; otherwise the scale's pitch classes, ascending and without repetition |
| MusicTheory.GetNotesForKey | keyboard/music_theory.py:11-18 | the major scale's pitch classes on the key, ascending and without repetition |
| MusicTheory.ConvertNotesToMidi | keyboard/music_theory.py:36-48 | one MIDI number per note name, in order |
| Keyboard.RangeFilter | keyboard/keyboard.py:202-206 | holds exactly the numbers of the range whose pitch class passes the filter |
| Keyboard.RangeFilterAscending | keyboard/keyboard.py:202-206 | the filtered range is strictly ascending |
| Keyboard.RangeFilterNoClasses | keyboard/keyboard.py:226-231 | an empty pitch-class list selects nothing |
| Keyboard.RangeFilterSplit | keyboard/keyboard.py:202-206 | filtering a range equals filtering its two halves and concatenating |
| Keyboard.RangeFilterRebase | keyboard/keyboard.py:202-206 | a count from the octave's C minus the count up to `start` is the count from `start` |
| Keyboard.RangeFilterFrom | keyboard/keyboard.py:202-206 | a note that passes the filter heads the filtered range that starts at it |
| Keyboard.KeysBelowStep | keyboard/key_color.py:59-60 | passing a remainder adds one key exactly when it is of the colour; an octave holds 7 white and 5 black keys |
| Keyboard.KeysBelowIsPosition | keyboard/key_color.py:59-60 | the keys of a colour below a remainder of that colour are its position in the table |
| Keyboard.KeysBeforeStep | keyboard/keyboard.py:202-206 | passing a note adds one key of its colour and none of the other |
| Keyboard.RangeFilterCount | keyboard/keyboard.py:202-206 | the keys of a colour in a range are the difference of the key counts at its ends |
| Keyboard.RangeFilterFromOctave | keyboard/key_color.py:65-78 | the keys of a colour from the C of `start`'s octave up to a note, in closed form |
| Keyboard.FindKeyIndexCounts | keyboard/key_color.py:45-78 | the arithmetic index counts the keys of the note's colour from the C of `start`'s octave up to the note |
| Keyboard.LayoutFor | keyboard/keyboard.py:93-113 | the three supported sizes give their start notes and key-count tables; any other size raises ValueError |
| Keyboard.KeysBeforeOctave | keyboard/key_color.py:59-60 | below the C of octave q lie q octaves of keys: 7q white, 5q black |
| Keyboard.RangeKeyCount | keyboard/keyboard.py:202-206 | a range holds as many keys of a colour as the key counts at its ends differ by |
| Keyboard.SixtyOneKeyCount | keyboard/keyboard.py:108-109 | MIDI 36..96 holds 36 white and 25 black notes |
| Keyboard.SeventySixKeyCount | keyboard/keyboard.py:108-109 | MIDI 28..103 holds 45 white and 31 black notes |
| Keyboard.EightyEightKeyCount | keyboard/keyboard.py:108-109 | MIDI 21..108 holds 52 white and 36 black notes |
| Keyboard.KeysBeforeTotal | keyboard/keyboard.py:202-206 | every note below `n` is white or black |
| Keyboard.LayoutCountsAgainstRanges | keyboard/keyboard.py:100-113 | the table's white counts match each range, and its black counts do too except for 76 keys, where the range has two fewer |
| Keyboard.StartMidiForKey | keyboard/keyboard.py:235-241 | the start is at or above the keyboard's start by whole octaves; it is the keyboard's start when that is above the key's offset |
| Keyboard.StartMidiForKeyOnLayouts | keyboard/keyboard.py:235-241 | on every supported keyboard the scale walk starts at the keyboard's first note |
| Keyboard.ScaleNotesOnKeyboard | keyboard/keyboard.py:222-241 | on a supported keyboard the scale's MIDI numbers are exactly the keyboard notes of the scale's pitch classes, ascending, and none for an empty scale |
| Keyboard.WhiteKeyMidiNumbers | keyboard/keyboard.py:202-203 | the white notes of the 88 notes from the start, ascending: a note is listed exactly when it is in the span and not black |
| Keyboard.BlackKeyMidiNumbers | keyboard/keyboard.py:205-206 | the black notes of the 88 notes from the start, ascending: a note is listed exactly when it is in the span and black |
| Keyboard.KeyMidiNumbersPartition | keyboard/keyboard.py:202-206 | the white and black lists are ascending, disjoint, and together exactly the 88 notes from the start |
| Keyboard.ListKeyIndex | keyboard/keyboard.py:185-200 | found exactly for the 88 notes from the start, with the note's colour |
| Keyboard.FilteredPosition | keyboard/keyboard.py:185-206 | a passing note inside the 88-note span is in the list, at the position counting the passing notes from the start up to it |
| Keyboard.ListKeyIndexCounts | keyboard/keyboard.py:185-206 | inside the span, the list lookup counts the keys of the note's colour from the start to the note |
| Keyboard.FindKeyIndexFromStart | keyboard/key_color.py:45-78 | the arithmetic index, less the keys before `start` in its octave, counts the keys from `start` |
| Keyboard.ListKeyIndexAgainstArithmetic | keyboard/keyboard.py:185-200 | the list lookup equals the colour manager's arithmetic, shifted by the keys between the octave's C and the start |
| Keyboard.ListKeyIndexOnC | keyboard/keyboard.py:185-200 | on a keyboard starting on a C the two lookups agree exactly |
| Keyboard.SixtyOneKeysAddressing | keyboard/key_color.py:16-19 | on the 61-key keyboard each note addresses its own key: its colour's slot numbered by the keys of that colour below it |
| Keyboard.SixtyOneKeysSlot | keyboard/keyboard.py:108-109 | on the 61-key keyboard that slot stays inside the drawn key list |
| Keyboard.RangeFilterBelowHigh | keyboard/keyboard.py:202-206 | fewer passing notes lie below a passing note than in the whole range |
| Keyboard.BelowKeyboardWraps | keyboard/key_color.py:16-19 | on a keyboard starting on a C, the B just below gets index -1 and so lights the last white key instead of failing |
| Keyboard.BlackKeyPattern | keyboard/keyboard.py:56-73 | a black key is drawn only between two drawn white keys and never after places 2 and 6 of a group; after places 0 and 1 whenever a white key follows; after places 3 to 5 exactly when two white keys follow |
| Keyboard.DrawnBlackCountBounds | keyboard/keyboard.py:56-73 | at most one black key per white key, and a whole keyboard has fewer black keys than white ones |
| Keyboard.DrawnBlackGroup | keyboard/keyboard.py:52-73 | a full group of seven white keys followed by more keys carries five black keys |
| Keyboard.DrawnBlackGroups | keyboard/keyboard.py:52-73 | whole groups of seven white keys carry five black keys each |
| Keyboard.DrawnBlackCounts | keyboard/keyboard.py:52-73 | 36, 45 and 52 white keys get 25, 32 and 37 black keys drawn |
| Keyboard.DrawPiano | keyboard/keyboard.py:38-73 | one default-white item per white key and one default-black item per black key the pattern draws |
| Keyboard.RepaintUniform | keyboard/keyboard.py:115-130 | recolouring keys of a uniformly coloured list with that colour changes nothing |
| Keyboard.HandlerMidiNumber | keyboard/keyboard.py:161-173 | IndexError for a one-value message, nothing for an empty one, otherwise the second value |
| Keyboard.PianoApp.constructor | keyboard/keyboard.py:10-36 | a 61-key keyboard with its table entry, drawn with default colours; a manager with start 36 and no highlights; MajorScale selected |
| Keyboard.PianoApp.SetKeyboardSize | keyboard/keyboard.py:93-113 | ValueError and nothing changed for an unsupported size; otherwise the table entry, a redrawn piano, and a manager with no highlights |
| Keyboard.PianoApp.Redraw | keyboard/keyboard.py:110-113 | the colour manager gets a default-white item per white key, a default-black item per black key the drawing pattern places, and no highlights |
| Keyboard.PianoApp.ResetKeyboardColors | keyboard/keyboard.py:144-148 | every key item gets its class default; the highlight set is untouched |
| Keyboard.PianoApp.ConvertScaleNotesToMidi | keyboard/keyboard.py:222-233 | the notes from the key's start to the keyboard's last note whose pitch class is in the scale |
| Keyboard.PianoApp.KeysForNotes | keyboard/keyboard.py:132-142 | succeeds exactly when the old highlights and the new notes all have keys. Then the old highlights go back to default, the new notes turn blue and become the highlight set. A failed reset leaves the set and returns some of its keys to default; a failed highlight follows a full reset, and the notes before the failing one are blue and form the set |
| Keyboard.PianoApp.VisualizeScaleOnKeyboard | keyboard/keyboard.py:208-219 | the key defaults to C; ValueError for an unknown scale; otherwise the scale's MIDI numbers are highlighted as by `KeysForNotes`, with its success state or its IndexError state |
| Keyboard.PianoApp.OnKeySelected | keyboard/keyboard.py:115-130 | ValueError exactly for an unknown scale. On success exactly the scale's notes on the key are blue, every other key has its default, and the highlight set is those notes. On IndexError the colours are those `KeysForNotes` leaves when started from all-default keys and the selected key's notes as highlights |
| Keyboard.PianoApp.OnScaleSelected | keyboard/keyboard.py:87-91 | the scale is stored. ValueError exactly for an unknown scale, and then no key changes. On success the highlight set is the scale's notes; on IndexError the colours are as `KeysForNotes` leaves them |
| Keyboard.PianoApp.KeyOnHandler | keyboard/keyboard.py:161-166 | IndexError for a one-value message; otherwise only the key of the second value turns yellow, and the highlight set is kept |
| Keyboard.PianoApp.KeyOffHandler | keyboard/keyboard.py:168-173 | IndexError for a one-value message; otherwise only the key of the second value returns to its scale colour |
| Listener.FlattenAppend | music21/keyboard_listener.py:33-37 | queueing a chord appends its notes to the flattened queue |
| Listener.FlattenMembers | music21/keyboard_listener.py:33-37 | a note is in the flattened queue exactly when some chord holds it |
| Listener.KeyboardListener.constructor | music21/keyboard_listener.py:8-17 | an empty queue, no pending notes, no timer, not listening |
| Listener.InWindowAppend | music21/keyboard_listener.py:19-31 | a note arriving before the chord's window closes keeps every note of the chord within `chordDuration` of its first |
| Listener.KeyboardListener.KeyOnHandler | music21/keyboard_listener.py:19-25 | IndexError and nothing changed for a message without values. Otherwise the first value joins the pending chord, and the timer starts only for a chord's first note, due `chordDuration` after it. The received notes stay the queue followed by the pending notes, and every chord, pending or queued, holds only notes that arrived within `chordDuration` of its first |
| Listener.KeyboardListener.StartChordTimer | music21/keyboard_listener.py:27-31 | the one pending timer now fires `chordDuration` after now; the notes are unchanged |
| Listener.KeyboardListener.FinalizeChord | music21/keyboard_listener.py:33-37 | the pending notes become the newest queued chord and are cleared |
| Listener.KeyboardListener.TimerFire | music21/keyboard_listener.py:27-37 | the timer fires exactly when it is pending and due. It queues the pending chord and clears the notes, keeping every received note in order; otherwise nothing changes |
| Listener.KeyboardListener.StartListening | music21/keyboard_listener.py:39-42 | the flag is raised; a second call changes nothing |
| Listener.KeyboardListener.StopListening | music21/keyboard_listener.py:47-50 | the flag is lowered; a second call changes nothing; the pending chord is kept |
| Listener.LateNoteStartsNewChord | music21/keyboard_listener.py:19-37 | a note arriving after the first chord's timer has fired starts a chord of its own: [60] then [64] |
| Listener.TwoNoteChord | music21/keyboard_listener.py:19-37 | two notes inside the window, then the timer, make the single chord [60, 64] |
| MusicLoader.Bend | music21/music-loader.py:192 | the whole part of 8192 + d·2048/3. -12..12 semitones map into 0..16384, with 0, 8192 and 16384 at -12, 0 and 12 |
| MusicLoader.BendIncreasing | music21/music-loader.py:192 | a larger move gives a strictly larger bend |
| MusicLoader.Pad | music21/music-loader.py:176-181 | padding keeps the chord as a prefix, reaches the longer length, and repeats the last note |
| MusicLoader.PadGrow | music21/music-loader.py:176-181 | appending the last note once more is padding one further |
| MusicLoader.MorphValues | music21/music-loader.py:172-195 | IndexError exactly when one chord is empty and the other is not. Otherwise it is one bend per voice of the padded chords, or nothing when some voice moves more than an octave |
| MusicLoader.MorphOfPadded | music21/music-loader.py:172-195 | morphing is computed on the padded chords |
| MusicLoader.MorphValuesShape | music21/music-loader.py:183-195 | the morph is empty exactly when both chords are empty or a voice leaves the octave; otherwise one bend in 0..16384 per voice |
| MusicLoader.MorphSameChord | music21/music-loader.py:172-195 | morphing a chord to itself bends every voice to the centre 8192 |
| MusicLoader.MorphOctaveBoundary | music21/music-loader.py:186-192 | a move of exactly an octave bends fully; one semitone more aborts |
| MusicLoader.MorphPadsShorterChord | music21/music-loader.py:176-192 | a shorter chord is padded with its last note before bending |
| MusicLoader.Chord.constructor | music21/music-loader.py:489-490 | a chord object holds the given notes |
| MusicLoader.Dedup | music21/music-loader.py:477-487 | filtering never lengthens the list |
| MusicLoader.FirstPositions | music21/music-loader.py:477-487 | the positions of the first occurrences, ascending |
| MusicLoader.DedupCovers | music21/music-loader.py:477-487 | every signature of the input survives, and nothing else |
| MusicLoader.DedupDistinct | music21/music-loader.py:477-487 | the result holds no signature twice |
| MusicLoader.DedupKeepsFirst | music21/music-loader.py:477-487 | the result is the first occurrence of each signature, in input order |
| MusicLoader.DedupOfDistinct | music21/music-loader.py:477-487 | a list without duplicates passes unchanged |
| MusicLoader.DedupIdempotent | music21/music-loader.py:477-487 | filtering twice is filtering once |
| MusicLoader.LongChords | music21/music-loader.py:426-431 | keeping chords of two notes or more never lengthens the list |
| MusicLoader.LongChordsMembers | music21/music-loader.py:426-431 | exactly the chords with at least two notes are kept |
| MusicLoader.Signatures | music21/music-loader.py:489-490 | one signature per chord |
| MusicLoader.SignaturesSnoc | music21/music-loader.py:489-490 | appending a chord appends its signature |
| MusicLoader.DedupSnoc | music21/music-loader.py:480-486 | a new signature is appended by the filter; a seen one is dropped |
| MusicLoader.LongChordsSnoc | music21/music-loader.py:426-431 | a new chord is kept exactly when it has two notes or more |
| MusicLoader.Extracted | music21/music-loader.py:419-436 | the extraction keeps only chords with two notes or more, in order |
| MusicLoader.ExtractedMembers | music21/music-loader.py:419-436 | a signature is extracted exactly when some stream chord with two notes or more has it |
| MusicLoader.ExtractedSnoc | music21/music-loader.py:419-436 | the extraction of a longer stream extends that of the shorter one |
| MusicLoader.DedupStep | music21/music-loader.py:480-486 | one filter step on a stream prefix |
| MusicLoader.FirstPositionsStep | music21/music-loader.py:480-486 | one filter step adds the new position exactly when its signature is new |
| MusicLoader.TakenAtSnoc | music21/music-loader.py:484-485 | appending the chord at a new position extends the chords taken |
| MusicLoader.TakenAtMembers | music21/music-loader.py:477-487 | every chord taken at positions of the input is an input chord |
| MusicLoader.ExtractedPositions | music21/music-loader.py:425-434 | the stream positions the extraction keeps, no more of them than the stream has |
| MusicLoader.ExtractedAtPositions | music21/music-loader.py:425-434 | the extracted signatures are the stream's at the kept positions, which ascend |
| MusicLoader.ExtractedPositionsStep | music21/music-loader.py:425-434 | one extraction step adds the position exactly when the element is kept |
| MusicLoader.ExtractedChordsMembers | music21/music-loader.py:426-434 | the chords taken with the extracted signatures are stream chords of two notes or more |
| MusicLoader.ExtractedStep | music21/music-loader.py:426-434 | one extraction step on a stream prefix |
| MusicLoader.CatalogSnoc | music21/music-loader.py:376-392 | one more part adds it to its instrument's group and leaves the other groups alone |
| MusicLoader.KeyOnMessages | music21/music-loader.py:143-147 | one key-on message on channel 0 per chord note |
| MusicLoader.PlayMessages | music21/music-loader.py:138-164 | IndexError exactly when morphing from a non-empty previous chord to an empty one; with both options off, one key-on per note in chord order and nothing else |
| MusicLoader.PlayMessagesKinds | music21/music-loader.py:138-164 | key-ons only with both options off; a chord message exactly when sending, unless morphing without a previous chord; a morph message exactly when the morph has values, and never an empty one |
| MusicLoader.PartsNamed | music21/music-loader.py:376-392 | the parts with that instrument name, in order |
| MusicLoader.CatalogGroups | music21/music-loader.py:376-392 | an instrument is a key exactly when some part has it, and maps to exactly its parts in score order |
| MusicLoader.Music21Module.constructor | music21/music-loader.py:20-38 | no chords, index 0, every option off, an empty catalog and no messages |
| MusicLoader.Music21Module.CalculateMorphValues | music21/music-loader.py:172-195 | the result is the morph of the old chords. On success both chords are padded in place to the same length, and this works when they are the same object. On IndexError neither changes |
| MusicLoader.Music21Module.BendValues | music21/music-loader.py:183-195 | one bend per voice when every voice stays within an octave, nothing otherwise |
| MusicLoader.Music21Module.SendMorphValues | music21/music-loader.py:197-199 | appends one morph message when the values are non-empty, nothing otherwise |
| MusicLoader.Music21Module.SendChordOn | music21/music-loader.py:113-116 | appends one chord message when sending is on, nothing otherwise |
| MusicLoader.Music21Module.SendKeyOn | music21/music-loader.py:118-119 | appends one key-on message |
| MusicLoader.Music21Module.SendKeyOns | music21/music-loader.py:143-147 | appends one key-on on channel 0 per note, in chord order |
| MusicLoader.Music21Module.SendMorph | music21/music-loader.py:155-159 | fails exactly when the morph raises IndexError, and then sends nothing and leaves both chords as they were; otherwise both chords are padded in place to the longer length and the morph step's messages of `PlayMessages` are appended |
| MusicLoader.Music21Module.PlayCurrentChord | music21/music-loader.py:138-164 | out of range changes nothing. Otherwise the messages are those `PlayMessages` chooses and the chord becomes the previous one. A morph that succeeds leaves the chord and the previous chord padded in place to the longer length; without one neither changes. On IndexError no message is sent and the previous chord is kept |
| MusicLoader.Music21Module.ScrubForward | music21/music-loader.py:127-131 | outside scrub mode or without chords nothing changes. Otherwise the index moves one on, clamped at the last chord, and that chord is played as by `PlayCurrentChord`, padding included; the options are unchanged and every other chord keeps its notes |
| MusicLoader.Music21Module.ScrubBackward | music21/music-loader.py:133-136 | outside scrub mode or without chords nothing changes. Otherwise the index moves one back, clamped at 0, and that chord is played as by `PlayCurrentChord`, padding included; the options are unchanged and every other chord keeps its notes |
| MusicLoader.Music21Module.FilterDuplicateChords | music21/music-loader.py:477-487 | the kept chords' signatures are the first occurrences of the input's, in order, and the chord objects kept are the input's at those first positions |
| MusicLoader.Music21Module.ExtractChordsFromStream | music21/music-loader.py:419-436 | the chords of two notes or more, duplicates filtered when asked, in stream order; the chord objects kept are the stream's at the positions `ExtractedPositions` names |
| MusicLoader.Music21Module.GatherChords | music21/music-loader.py:470-473 | the score's chords unchanged with Filter Duplicate Chords off; with it on, the chord objects at the first positions of their signatures, whose signatures are the de-duplicated ones |
| MusicLoader.Music21Module.GetChords | music21/music-loader.py:468-475 | no score changes nothing. Otherwise the chord list is the score's chords: the same list with Filter Duplicate Chords off, and with it on the chord objects at the first positions of their signatures; the index returns to 0, and the options, the previous chord and the catalog are unchanged |
| MusicLoader.Music21Module.CatalogInstruments | music21/music-loader.py:376-392 | the catalog groups the parts by instrument, and the first part's instrument is selected; the chords and the options are unchanged |

## Left out

- The Tk widgets, canvas geometry and event loop are not modelled; the canvas is the list of fill colours per key item. `after(0, …)` callbacks run at once. An exception raised by a handler itself is modelled as an error result. `Keyboard.PianoApp.KeyOnHandler` and `Keyboard.PianoApp.KeyOffHandler` are the exception: the IndexError of the `activate_key` or `deactivate_key` callback they schedule with `after` is reported by Tk and goes no further, so for a note without a key they return no error and change nothing.
- The OSC servers and clients, their threads, and `threading.Timer` are not modelled. Received messages are method calls with their arguments and arrival time. Sent messages are appended to a log. The timer firing is `TimerFire` with the current time. Messages are taken to arrive in time order, and a timer that has come due is taken to have fired before the next message is handled; arrival times are ghost state.
- Listener.KeyboardListener.TimerFire: the timer thread and the OSC thread share the pending list without a lock. A note that arrives between the copy and the clear in `finalize_chord` would be lost; calls in the model are atomic, so this race is not captured.
- Listener.KeyboardListener.StopListening: the server shutdown is not modelled, and the pending timer is left to fire, as in the source.
- The music21 library is not part of this model. Scale classes are a map from name to a function giving pitch classes, note-name parsing is the parameter `midiOf`, and chords are their MIDI-number lists. Chord truthiness (`if self.prev_chord`) is read as the chord having notes.
- MusicLoader.Bend: computed exactly, as the floor of 8192 + d·2048/3, not in floating point. For every whole move from -12 to 12 semitones this equals `int(8192 + d * 682.666…)` as the source computes it in doubles.
- MusicLoader.Music21Module.CalculateMorphValues: the bend loop is factored into `BendValues`; the abort path and the values are the same.
- Score loading and parsing, `play_score`, `play_chords` (a morphing playback loop on its own thread), key analysis, metadata, saving, the GUI widgets of the loader, and the MIDI input are not modelled. They are library calls and threads, not chord logic.
- MusicLoader.Part: a score part is its part number and instrument name, a value; the stave contents are not modelled.
- Keyboard.PianoApp: the `update_keys`, `activate_key` and `deactivate_key` wrappers of the app only forward to the colour manager and are modelled through the manager's methods. `scale_selection_setup` contributes only the default scale name "MajorScale".
- keyboard/circle_fifths.py is used only for its key list; its drawing is not modelled. music21/repair_score.py and music21/notationUI.py are not part of this model.
- The chord window is fixed from a chord's first note; later notes do not restart it.
- The scale walk starts at the keyboard's first note, not at the key's tonic.
- The colour manager's starting note stays 36 after a resize.
