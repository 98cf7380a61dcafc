/** Chord processing of the score loader: morphing between consecutive chords
    (padding, octave abort, pitch-bend mapping), duplicate filtering, chord
    extraction, scrubbing through the chord list, the choice of outbound OSC
    messages, and grouping score parts by instrument. A music21 chord is
    modelled by its MIDI numbers in a `Chord` object, so the chord signature
    of the source is the `notes` field. Parsing, playback and the OSC client
    are not modelled: outbound messages are appended to a log. */
module MusicLoader {
  import opened Wrappers

  // ---------------------------------------------------------------------
  // Pitch-bend mapping
  // ---------------------------------------------------------------------

  /** The bend value for a voice moving `d` semitones: the whole part of
      8192 + d * 2048/3, so -12..12 semitones map onto 0..16384. */
  function Bend(d: int): (b: int)
    ensures (b as real) <= 8192.0 + (d as real) * 2048.0 / 3.0 < (b as real) + 1.0
    ensures -12 <= d <= 12 ==> 0 <= b <= 16384
    ensures d == -12 ==> b == 0
    ensures d == 0 ==> b == 8192
    ensures d == 12 ==> b == 16384
  {
    (24576 + 2048 * d) / 3
  }

  /** A wider move never bends less: the mapping is strictly increasing. */
  lemma BendIncreasing(d1: int, d2: int)
    requires d1 < d2
    ensures Bend(d1) < Bend(d2)
  {
    var b1, b2 := Bend(d1), Bend(d2);
    assert 3 * b1 <= 24576 + 2048 * d1;
    assert 24576 + 2048 * d2 < 3 * b2 + 3;
  }

  // ---------------------------------------------------------------------
  // Morphing between two chords
  // ---------------------------------------------------------------------

  function Max(a: int, b: int): int
  {
    if a < b then b else a
  }

  /** A chord lengthened to `n` notes by repeating its last note. */
  function Pad(s: seq<int>, n: nat): (r: seq<int>)
    requires s != [] || n <= |s|
    ensures |r| == Max(|s|, n)
    ensures r[..|s|] == s
    ensures forall i :: |s| <= i < |r| ==> r[i] == s[|s| - 1]
  {
    if n <= |s| then s else s + seq(n - |s|, _ => s[|s| - 1])
  }

  /** Lengthening a padded chord by its last note pads it one further. */
  lemma PadGrow(s: seq<int>, k: nat)
    requires s != [] && |s| <= k
    ensures Pad(s, k)[k - 1] == s[|s| - 1]
    ensures Pad(s, k) + [s[|s| - 1]] == Pad(s, k + 1)
  {
    assert Pad(s, k + 1)[..k] == Pad(s, k);
  }

  /** No paired voice moves by more than an octave. */
  predicate WithinOctave(p: seq<int>, c: seq<int>)
    requires |p| == |c|
  {
    forall i :: 0 <= i < |p| ==> -12 <= c[i] - p[i] <= 12
  }

  /** `calculate_morph_values` on the MIDI numbers of the previous and the
      current chord: the shorter chord is padded; a voice moving more than an
      octave aborts with no values; otherwise one bend per voice. Padding an
      empty chord against a non-empty one fails with IndexError. */
  function MorphValues(prev: seq<int>, curr: seq<int>): (r: Result<seq<int>>)
    ensures r.Err? <==> (prev == []) != (curr == [])
    ensures r.Err? ==> r.error == IndexError
  {
    if prev == [] && curr != [] then Err(IndexError)
    else if curr == [] && prev != [] then Err(IndexError)
    else
      var n := Max(|prev|, |curr|);
      var p, c := Pad(prev, n), Pad(curr, n);
      if WithinOctave(p, c) then Ok(seq(n, i requires 0 <= i < n => Bend(c[i] - p[i]))) else Ok([])
  }

  /** The morph of two chords, in terms of the chords padded to the same
      length. */
  lemma MorphOfPadded(prev: seq<int>, curr: seq<int>, p: seq<int>, c: seq<int>)
    requires (prev == []) == (curr == [])
    requires p == Pad(prev, Max(|prev|, |curr|)) && c == Pad(curr, Max(|prev|, |curr|))
    ensures |p| == |c|
    ensures MorphValues(prev, curr) == if WithinOctave(p, c) then Ok(seq(|p|, i requires 0 <= i < |p| => Bend(c[i] - p[i]))) else Ok([])
  {
  }

  /** The shape of a successful morph: no values exactly when both chords
      are empty or some padded voice moves more than an octave; otherwise one
      bend in 0..16384 per voice of the longer chord, in voice order. */
  lemma MorphValuesShape(prev: seq<int>, curr: seq<int>)
    requires MorphValues(prev, curr).Ok?
    ensures var n := Max(|prev|, |curr|);
            var p, c := Pad(prev, n), Pad(curr, n);
            var values := MorphValues(prev, curr).value;
            && (values == [] <==> n == 0 || exists i :: 0 <= i < n && (c[i] - p[i] < -12 || c[i] - p[i] > 12))
            && (values != [] ==> |values| == n)
            && (values != [] ==> forall i :: 0 <= i < n ==> values[i] == Bend(c[i] - p[i]) && 0 <= values[i] <= 16384)
  {
    var n := Max(|prev|, |curr|);
    var p, c := Pad(prev, n), Pad(curr, n);
    var values := MorphValues(prev, curr).value;
    if WithinOctave(p, c) && n > 0 {
      assert values[0] == Bend(c[0] - p[0]);
    }
  }

  /** Morphing a chord onto itself bends every voice to the centre 8192. */
  lemma MorphSameChord(s: seq<int>)
    ensures MorphValues(s, s) == Ok(seq(|s|, _ => 8192))
  {
    assert Pad(s, |s|) == s;
    assert WithinOctave(s, s);
    var values := MorphValues(s, s).value;
    assert forall i :: 0 <= i < |s| ==> values[i] == Bend(s[i] - s[i]);
    assert values == seq(|s|, _ => 8192);
  }

  /** An octave move is accepted and bends fully; one semitone more aborts. */
  lemma MorphOctaveBoundary()
    ensures MorphValues([60], [72]) == Ok([16384])
    ensures MorphValues([60], [73]) == Ok([])
  {
    assert Pad([60], 1) == [60] && Pad([72], 1) == [72] && Pad([73], 1) == [73];
    assert WithinOctave([60], [72]);
    assert [73][0] - [60][0] == 13;
    assert !WithinOctave([60], [73]);
    var values := MorphValues([60], [72]).value;
    assert |values| == 1 && values[0] == Bend(12);
    assert values == [16384];
  }

  /** The shorter chord is padded with its last note before the voices are
      paired. */
  lemma MorphPadsShorterChord()
    ensures MorphValues([60, 64, 67], [62]) == Ok([9557, 6826, 4778])
  {
    assert Pad([62], 3) == [62, 62, 62];
    assert Pad([60, 64, 67], 3) == [60, 64, 67];
    assert WithinOctave([60, 64, 67], [62, 62, 62]);
    var values := MorphValues([60, 64, 67], [62]).value;
    assert |values| == 3;
    assert values[0] == Bend(2) && values[1] == Bend(-2) && values[2] == Bend(-5);
    assert values == [9557, 6826, 4778];
  }

  /** A chord object whose note list the morph lengthens in place. */
  class Chord {
    var notes: seq<int>

    constructor (notes: seq<int>)
      ensures this.notes == notes
    {
      this.notes := notes;
    }
  }

  // ---------------------------------------------------------------------
  // Duplicate filtering
  // ---------------------------------------------------------------------

  /** The first occurrence of every signature, in the original order. */
  function Dedup(s: seq<seq<int>>): (r: seq<seq<int>>)
    ensures |r| <= |s|
  {
    if s == [] then []
    else
      var d := Dedup(s[..|s| - 1]);
      if s[|s| - 1] in d then d else d + [s[|s| - 1]]
  }

  /** The positions in `s` of the signatures `Dedup` keeps. */
  function FirstPositions(s: seq<seq<int>>): (positions: seq<nat>)
    ensures |positions| <= |s|
  {
    if s == [] then []
    else
      var p := FirstPositions(s[..|s| - 1]);
      if s[|s| - 1] in Dedup(s[..|s| - 1]) then p else p + [|s| - 1]
  }

  predicate Distinct(s: seq<seq<int>>)
  {
    forall i, j :: 0 <= i < j < |s| ==> s[i] != s[j]
  }

  /** Filtering loses no signature and invents none. */
  lemma {:induction false} DedupCovers(s: seq<seq<int>>)
    ensures forall x :: x in Dedup(s) <==> x in s
  {
    if s != [] {
      var init := s[..|s| - 1];
      DedupCovers(init);
      assert s == init + [s[|s| - 1]];
    }
  }

  /** The kept signatures are pairwise distinct. */
  lemma {:induction false} DedupDistinct(s: seq<seq<int>>)
    ensures Distinct(Dedup(s))
  {
    if s != [] {
      DedupDistinct(s[..|s| - 1]);
    }
  }

  /** What is kept is, in order, the first chord of each signature: the
      kept positions ascend strictly, and no earlier chord has the same
      signature as a kept one. */
  lemma {:induction false} DedupKeepsFirst(s: seq<seq<int>>)
    ensures var d, p := Dedup(s), FirstPositions(s);
            && |p| == |d|
            && (forall k :: 0 <= k < |p| ==> p[k] < |s| && d[k] == s[p[k]])
            && (forall k, l :: 0 <= k < l < |p| ==> p[k] < p[l])
            && (forall k, j :: 0 <= k < |p| && 0 <= j < p[k] ==> s[j] != s[p[k]])
  {
    if s != [] {
      var init := s[..|s| - 1];
      DedupKeepsFirst(init);
      DedupCovers(init);
      var last := s[|s| - 1];
      if last !in Dedup(init) {
        forall j | 0 <= j < |s| - 1
          ensures s[j] != last
        {
          assert s[j] == init[j];
        }
      }
    }
  }

  /** A list without repeated signatures is left as it is. */
  lemma {:induction false} DedupOfDistinct(s: seq<seq<int>>)
    requires Distinct(s)
    ensures Dedup(s) == s
  {
    if s != [] {
      var init := s[..|s| - 1];
      DedupOfDistinct(init);
      forall j | 0 <= j < |init|
        ensures init[j] != s[|s| - 1]
      {
        assert init[j] == s[j];
      }
      assert s == init + [s[|s| - 1]];
    }
  }

  /** Filtering twice is filtering once. */
  lemma DedupIdempotent(s: seq<seq<int>>)
    ensures Dedup(Dedup(s)) == Dedup(s)
  {
    DedupDistinct(s);
    DedupOfDistinct(Dedup(s));
  }

  /** The chords with at least two notes, in order. */
  function LongChords(s: seq<seq<int>>): (r: seq<seq<int>>)
    ensures |r| <= |s|
  {
    if s == [] then [] else LongChords(s[..|s| - 1]) + if |s[|s| - 1]| >= 2 then [s[|s| - 1]] else []
  }

  /** Exactly the chords with at least two notes are kept. */
  lemma {:induction false} LongChordsMembers(s: seq<seq<int>>)
    ensures forall x :: x in LongChords(s) <==> x in s && |x| >= 2
  {
    if s != [] {
      var init := s[..|s| - 1];
      LongChordsMembers(init);
      assert s == init + [s[|s| - 1]];
    }
  }

  /** The signatures of a list of chords. */
  function Signatures(chords: seq<Chord>): (sigs: seq<seq<int>>)
    reads chords
    ensures |sigs| == |chords|
  {
    seq(|chords|, i reads chords requires 0 <= i < |chords| => chords[i].notes)
  }

  /** Each signature is the notes of the chord at the same place. */
  lemma SignatureAt(chords: seq<Chord>, i: nat)
    requires i < |chords|
    ensures Signatures(chords)[i] == chords[i].notes
  {
  }

  /** The signatures of a list one chord longer. */
  lemma SignaturesSnoc(chords: seq<Chord>, c: Chord)
    ensures Signatures(chords + [c]) == Signatures(chords) + [c.notes]
  {
    assert forall i :: 0 <= i < |chords| ==> (chords + [c])[i] == chords[i];
  }

  /** Filtering a list one signature longer. */
  lemma DedupSnoc(s: seq<seq<int>>, x: seq<int>)
    ensures Dedup(s + [x]) == if x in Dedup(s) then Dedup(s) else Dedup(s) + [x]
  {
    assert (s + [x])[..|s|] == s;
  }

  /** Dropping short chords from a list one chord longer. */
  lemma LongChordsSnoc(s: seq<seq<int>>, x: seq<int>)
    ensures LongChords(s + [x]) == LongChords(s) + if |x| >= 2 then [x] else []
  {
    assert (s + [x])[..|s|] == s;
  }

  /** The signatures `extract_chords_from_stream` keeps. */
  function Extracted(s: seq<seq<int>>, filterDuplicates: bool): (r: seq<seq<int>>)
    ensures |r| <= |s|
  {
    if filterDuplicates then Dedup(LongChords(s)) else LongChords(s)
  }

  /** The positions in `s` of the signatures `Extracted` keeps. */
  function ExtractedPositions(s: seq<seq<int>>, filterDuplicates: bool): (positions: seq<nat>)
    ensures |positions| <= |s|
  {
    if s == [] then []
    else
      var init := s[..|s| - 1];
      var p := ExtractedPositions(init, filterDuplicates);
      var x := s[|s| - 1];
      if |x| < 2 || (filterDuplicates && x in Extracted(init, filterDuplicates)) then p else p + [|s| - 1]
  }

  /** The extracted signatures are those of the stream at the kept
      positions, which ascend. */
  lemma {:induction false} ExtractedAtPositions(s: seq<seq<int>>, filterDuplicates: bool)
    ensures var positions := ExtractedPositions(s, filterDuplicates);
            && |positions| == |Extracted(s, filterDuplicates)|
            && (forall k :: 0 <= k < |positions| ==>
                  positions[k] < |s| && s[positions[k]] == Extracted(s, filterDuplicates)[k])
            && (forall k, l :: 0 <= k < l < |positions| ==> positions[k] < positions[l])
  {
    if s != [] {
      var init := s[..|s| - 1];
      var x := s[|s| - 1];
      ExtractedAtPositions(init, filterDuplicates);
      assert s == init + [x];
      ExtractedSnoc(init, x, filterDuplicates);
    }
  }

  /** Every extracted signature has at least two notes and comes from the
      stream; every such signature of the stream is extracted. */
  lemma ExtractedMembers(s: seq<seq<int>>, filterDuplicates: bool)
    ensures forall x :: x in Extracted(s, filterDuplicates) <==> x in s && |x| >= 2
  {
    LongChordsMembers(s);
    DedupCovers(LongChords(s));
  }

  /** Extracting from a list one chord longer. */
  lemma ExtractedSnoc(s: seq<seq<int>>, x: seq<int>, filterDuplicates: bool)
    ensures Extracted(s + [x], filterDuplicates) ==
              if |x| < 2 || (filterDuplicates && x in Extracted(s, filterDuplicates)) then Extracted(s, filterDuplicates)
              else Extracted(s, filterDuplicates) + [x]
  {
    LongChordsSnoc(s, x);
    if |x| >= 2 {
      DedupSnoc(LongChords(s), x);
      if filterDuplicates {
        assert Extracted(s + [x], true) == Dedup(LongChords(s) + [x]);
      }
    } else {
      assert LongChords(s + [x]) == LongChords(s);
    }
  }

  /** Filtering one more signature of a list. */
  lemma DedupStep(sigs: seq<seq<int>>, i: nat, x: seq<int>)
    requires i < |sigs| && sigs[i] == x
    ensures Dedup(sigs[..i + 1]) == if x in Dedup(sigs[..i]) then Dedup(sigs[..i]) else Dedup(sigs[..i]) + [x]
  {
    assert sigs[..i + 1] == sigs[..i] + [x];
    DedupSnoc(sigs[..i], x);
  }

  /** The first positions of one more signature of a list. */
  lemma FirstPositionsStep(sigs: seq<seq<int>>, i: nat)
    requires i < |sigs|
    ensures FirstPositions(sigs[..i + 1]) ==
              if sigs[i] in Dedup(sigs[..i]) then FirstPositions(sigs[..i]) else FirstPositions(sigs[..i]) + [i]
  {
    assert sigs[..i + 1][..i] == sigs[..i];
  }

  /** Extracting from one more signature of a list. */
  lemma ExtractedStep(sigs: seq<seq<int>>, i: nat, x: seq<int>, filterDuplicates: bool)
    requires i < |sigs| && sigs[i] == x
    ensures Extracted(sigs[..i + 1], filterDuplicates) ==
              if |x| < 2 || (filterDuplicates && x in Extracted(sigs[..i], filterDuplicates)) then Extracted(sigs[..i], filterDuplicates)
              else Extracted(sigs[..i], filterDuplicates) + [x]
  {
    assert sigs[..i + 1] == sigs[..i] + [x];
    ExtractedSnoc(sigs[..i], x, filterDuplicates);
  }

  /** The kept positions of one more signature of a list. */
  lemma ExtractedPositionsStep(sigs: seq<seq<int>>, i: nat, filterDuplicates: bool)
    requires i < |sigs|
    ensures ExtractedPositions(sigs[..i + 1], filterDuplicates) ==
              if |sigs[i]| < 2 || (filterDuplicates && sigs[i] in Extracted(sigs[..i], filterDuplicates))
              then ExtractedPositions(sigs[..i], filterDuplicates)
              else ExtractedPositions(sigs[..i], filterDuplicates) + [i]
  {
    assert sigs[..i + 1][..i] == sigs[..i];
  }

  /** The catalogue of a list one part longer. */
  lemma CatalogSnoc(parts: seq<Part>, p: Part)
    ensures var m := Catalog(parts);
            Catalog(parts + [p]) == m[p.instrument := if p.instrument in m then m[p.instrument] + [p] else [p]]
  {
    assert (parts + [p])[..|parts|] == parts;
  }

  // ---------------------------------------------------------------------
  // Outbound messages
  // ---------------------------------------------------------------------

  datatype Message =
    | KeyOnPlay(channel: int, midiNumber: int)
    | ChordOn(midiNumbers: seq<int>)
    | MorphNotes(values: seq<int>)

  /** One /keyOnPlay on channel 0 per note. */
  function KeyOnMessages(notes: seq<int>): (ms: seq<Message>)
    ensures |ms| == |notes|
    ensures forall m :: m in ms ==> m.KeyOnPlay? && m.channel == 0 && m.midiNumber in notes
  {
    seq(|notes|, i requires 0 <= i < |notes| => KeyOnPlay(0, notes[i]))
  }

  /** A previous chord counts when there is one and it has notes. */
  predicate Truthy(prev: Option<seq<int>>)
  {
    prev.Some? && prev.value != []
  }

  /** The messages `play_current_chord` sends for `chord`, given the
      previous chord and the Morph Chords and Send Chord options. After a
      morph the chord is sent padded. A morph onto an empty chord fails. */
  function PlayMessages(chord: seq<int>, prev: Option<seq<int>>, morph: bool, sendOsc: bool): (r: Result<seq<Message>>)
    ensures r.Err? <==> morph && Truthy(prev) && chord == []
    ensures r.Ok? && !morph && !sendOsc ==> r.value == KeyOnMessages(chord)
  {
    var keyOns := if !(morph || sendOsc) then KeyOnMessages(chord) else [];
    var chordOn := if sendOsc && !morph then [ChordOn(chord)] else [];
    if morph && Truthy(prev) then
      match MorphValues(prev.value, chord)
      case Err(e) => Err(e)
      case Ok(values) =>
        var padded := Pad(chord, Max(|prev.value|, |chord|));
        Ok(keyOns + chordOn + (if sendOsc then [ChordOn(padded)] else [])
           + (if values != [] then [MorphNotes(values)] else []))
    else
      Ok(keyOns + chordOn)
  }

  /** Which kinds of message a successful play sends: key-ons only with
      both options off; a chord message exactly when sending, unless
      morphing without a previous chord; a morph message exactly when the
      morph has values, and never an empty one. */
  ghost predicate SentKinds(sent: seq<Message>, chord: seq<int>, prev: Option<seq<int>>, morph: bool, sendOsc: bool)
  {
    && (forall m :: m in sent && m.KeyOnPlay? ==> !morph && !sendOsc)
    && ((exists m :: m in sent && m.ChordOn?) <==> sendOsc && (!morph || Truthy(prev)))
    && ((exists m :: m in sent && m.MorphNotes?) <==>
          morph && Truthy(prev) && MorphValues(prev.value, chord) != Ok([]))
    && (forall m :: m in sent && m.MorphNotes? ==> m.values != [])
  }

  /** Every successful play sends the kinds of message `SentKinds` names. */
  lemma PlayMessagesKinds(chord: seq<int>, prev: Option<seq<int>>, morph: bool, sendOsc: bool)
    requires PlayMessages(chord, prev, morph, sendOsc).Ok?
    ensures SentKinds(PlayMessages(chord, prev, morph, sendOsc).value, chord, prev, morph, sendOsc)
  {
    if morph && Truthy(prev) {
      MorphKinds(chord, prev, morph, sendOsc);
    } else {
      PlainKinds(chord, prev, morph, sendOsc);
    }
  }

  lemma MorphKinds(chord: seq<int>, prev: Option<seq<int>>, morph: bool, sendOsc: bool)
    requires PlayMessages(chord, prev, morph, sendOsc).Ok? && morph && Truthy(prev)
    ensures SentKinds(PlayMessages(chord, prev, morph, sendOsc).value, chord, prev, morph, sendOsc)
  {
    var sent := PlayMessages(chord, prev, morph, sendOsc).value;
    var values := MorphValues(prev.value, chord).value;
    var padded := Pad(chord, Max(|prev.value|, |chord|));
    var chordOn := if sendOsc then [ChordOn(padded)] else [];
    var morphNotes := if values != [] then [MorphNotes(values)] else [];
    assert sent == chordOn + morphNotes;
    assert forall m :: m in sent ==> m == ChordOn(padded) || m == MorphNotes(values);
    assert sendOsc ==> sent[0] == ChordOn(padded);
    assert values != [] ==> sent[|sent| - 1] == MorphNotes(values);
  }

  lemma PlainKinds(chord: seq<int>, prev: Option<seq<int>>, morph: bool, sendOsc: bool)
    requires PlayMessages(chord, prev, morph, sendOsc).Ok? && !(morph && Truthy(prev))
    ensures SentKinds(PlayMessages(chord, prev, morph, sendOsc).value, chord, prev, morph, sendOsc)
  {
    var sent := PlayMessages(chord, prev, morph, sendOsc).value;
    var keyOns := if !(morph || sendOsc) then KeyOnMessages(chord) else [];
    var chordOn := if sendOsc && !morph then [ChordOn(chord)] else [];
    assert sent == keyOns + chordOn;
    assert forall m :: m in sent ==> m in keyOns || m == ChordOn(chord);
    assert sendOsc && !morph ==> sent[|sent| - 1] == ChordOn(chord);
  }

  /** A part of the score and the name of its instrument. */
  datatype Part = Part(partNumber: nat, instrument: string)

  /** The parts played by `name`, in score order. */
  function PartsNamed(parts: seq<Part>, name: string): (r: seq<Part>)
    ensures forall p :: p in r <==> p in parts && p.instrument == name
  {
    if parts == [] then []
    else
      var init := parts[..|parts| - 1];
      assert parts == init + [parts[|parts| - 1]];
      PartsNamed(init, name) + if parts[|parts| - 1].instrument == name then [parts[|parts| - 1]] else []
  }

  /** The instrument map built by `catalog_instruments`. */
  function Catalog(parts: seq<Part>): (m: map<string, seq<Part>>)
  {
    if parts == [] then map[]
    else
      var m := Catalog(parts[..|parts| - 1]);
      var name := parts[|parts| - 1].instrument;
      m[name := if name in m then m[name] + [parts[|parts| - 1]] else [parts[|parts| - 1]]]
  }

  /** Each instrument that plays a part has exactly one entry, holding its
      parts in score order; no other instrument has one. */
  lemma {:induction false} CatalogGroups(parts: seq<Part>)
    ensures forall name :: name in Catalog(parts) <==> PartsNamed(parts, name) != []
    ensures forall name :: name in Catalog(parts) ==> Catalog(parts)[name] == PartsNamed(parts, name)
  {
    if parts != [] {
      var init := parts[..|parts| - 1];
      CatalogGroups(init);
      forall name
        ensures name in Catalog(parts) <==> PartsNamed(parts, name) != []
        ensures name in Catalog(parts) ==> Catalog(parts)[name] == PartsNamed(parts, name)
      {
        if name in Catalog(init) {
          assert PartsNamed(init, name) != [];
        }
      }
    }
  }

  // ---------------------------------------------------------------------
  // The loader
  // ---------------------------------------------------------------------

  /** `kept` holds, in order, the chords of `from` at `positions`. */
  ghost predicate TakenAt(kept: seq<Chord>, from: seq<Chord>, positions: seq<nat>)
  {
    && |kept| == |positions|
    && forall k :: 0 <= k < |positions| ==> positions[k] < |from| && kept[k] == from[positions[k]]
  }

  /** Taking one more chord of `from` extends what is taken. */
  lemma TakenAtSnoc(kept: seq<Chord>, from: seq<Chord>, positions: seq<nat>, i: nat)
    requires TakenAt(kept, from, positions) && i < |from|
    ensures TakenAt(kept + [from[i]], from, positions + [i])
  {
  }

  /** Every chord taken is a chord of `from`. */
  lemma TakenAtMembers(kept: seq<Chord>, from: seq<Chord>, positions: seq<nat>)
    requires TakenAt(kept, from, positions)
    ensures forall c :: c in kept ==> c in from
  {
    forall c | c in kept
      ensures c in from
    {
      var k :| 0 <= k < |kept| && kept[k] == c;
      assert from[positions[k]] == c;
    }
  }

  /** The notes of the played chord and of the previous chord after
      `play_current_chord`: a morph from a non-empty previous chord to a
      non-empty chord pads both in place to the longer length; otherwise
      (no morph, or the IndexError of an empty chord) neither changes. The
      two may be one chord. */
  ghost predicate ChordsAfterPlay(chord: Chord, prev: Option<Chord>, chordNotes: seq<int>, prevNotes: Option<seq<int>>, morph: bool)
    reads chord, if prev.Some? then {prev.value} else {}
  {
    if morph && Truthy(prevNotes) && chordNotes != [] then
      var n := Max(|prevNotes.value|, |chordNotes|);
      chord.notes == Pad(chordNotes, n) && prev.Some? && prev.value.notes == Pad(prevNotes.value, n)
    else
      chord.notes == chordNotes && (prev.Some? && prevNotes.Some? ==> prev.value.notes == prevNotes.value)
  }

  /** Chords taken from a stream with the extracted signatures are stream
      chords of at least two notes. */
  lemma ExtractedChordsMembers(chords: seq<Chord>, stream: seq<Chord>, positions: seq<nat>, filterDuplicates: bool)
    requires TakenAt(chords, stream, positions)
    requires Signatures(chords) == Extracted(Signatures(stream), filterDuplicates)
    ensures forall c :: c in chords ==> c in stream && |c.notes| >= 2
  {
    TakenAtMembers(chords, stream, positions);
    ExtractedMembers(Signatures(stream), filterDuplicates);
    forall c | c in chords
      ensures |c.notes| >= 2
    {
      var k :| 0 <= k < |chords| && chords[k] == c;
      SignatureAt(chords, k);
    }
  }

  /** The chord list `get_chords` keeps from the score's chords: all of
      them, unchanged; or with Filter Duplicate Chords, the chord objects at
      the first positions of their signatures, whose signatures are the
      de-duplicated ones. Either way, only chords of the score. */
  ghost predicate ChordsGathered(gathered: seq<Chord>, score: seq<Chord>, filterDuplicates: bool)
    reads gathered, score
  {
    && Signatures(gathered) == (if filterDuplicates then Dedup(Signatures(score)) else Signatures(score))
    && (forall c :: c in gathered ==> c in score)
    && (!filterDuplicates ==> gathered == score)
    && (filterDuplicates ==> TakenAt(gathered, score, FirstPositions(Signatures(score))))
  }

  class Music21Module {
    /** The chord list, None until chords have been gathered. */
    var chords: Option<seq<Chord>>
    var currentChordIndex: int
    /** The Scrub Mode, Send Chord, Morph Chords and Filter Duplicate
        Chords options. */
    var scrubMode: bool
    var sendOsc: bool
    var morphChords: bool
    var filterDuplicates: bool
    var prevChord: Option<Chord>
    var instrumentStaveMap: map<string, seq<Part>>
    var selectedInstrument: Option<string>
    /** The OSC messages sent, oldest first. */
    var messages: seq<Message>

    /** The scrub position lies inside a non-empty chord list. */
    ghost predicate Valid()
      reads this
    {
      && 0 <= currentChordIndex
      && (chords.Some? && chords.value != [] ==> currentChordIndex < |chords.value|)
    }

    constructor ()
      ensures Valid()
      ensures chords == None && currentChordIndex == 0 && prevChord == None
      ensures !scrubMode && !sendOsc && !morphChords && !filterDuplicates
      ensures instrumentStaveMap == map[] && selectedInstrument == None && messages == []
    {
      chords := None;
      currentChordIndex := 0;
      scrubMode, sendOsc, morphChords, filterDuplicates := false, false, false, false;
      prevChord := None;
      instrumentStaveMap := map[];
      selectedInstrument := None;
      messages := [];
    }

    /** The chord under the scrub position, when there is one. */
    function CurrentChordSet(): set<Chord>
      reads this
    {
      if chords.Some? && 0 <= currentChordIndex < |chords.value| then {chords.value[currentChordIndex]} else {}
    }

    function ChordObjects(): set<Chord>
      reads this
    {
      if chords.Some? then set c | c in chords.value else {}
    }

    function PrevChordSet(): set<Chord>
      reads this
    {
      if prevChord.Some? then {prevChord.value} else {}
    }

    ghost function PrevNotes(): Option<seq<int>>
      reads this, PrevChordSet()
    {
      if prevChord.Some? then Some(prevChord.value.notes) else None
    }

    /** `calculate_morph_values`: both chords are padded in place to the
        same length, then one bend per voice is computed. On IndexError
        neither chord has changed. The two may be the same chord. */
    method CalculateMorphValues(prevChord: Chord, currentChord: Chord) returns (result: Result<seq<int>>)
      modifies prevChord, currentChord
      ensures result == MorphValues(old(prevChord.notes), old(currentChord.notes))
      ensures var n := Max(|old(prevChord.notes)|, |old(currentChord.notes)|);
              result.Ok? ==> && prevChord.notes == Pad(old(prevChord.notes), n)
                             && currentChord.notes == Pad(old(currentChord.notes), n)
      ensures result.Err? ==> prevChord.notes == old(prevChord.notes) && currentChord.notes == old(currentChord.notes)
    {
      ghost var p0, c0 := prevChord.notes, currentChord.notes;
      ghost var n := Max(|p0|, |c0|);
      while |prevChord.notes| < |currentChord.notes|
        invariant currentChord.notes == c0
        invariant p0 == [] ==> prevChord.notes == []
        invariant p0 != [] ==> |p0| <= |prevChord.notes| && prevChord.notes == Pad(p0, |prevChord.notes|)
        invariant |prevChord.notes| <= n
        decreases n - |prevChord.notes|
      {
        if prevChord.notes == [] {
          return Err(IndexError);
        }
        PadGrow(p0, |prevChord.notes|);
        prevChord.notes := prevChord.notes + [prevChord.notes[|prevChord.notes| - 1]];
      }
      while |currentChord.notes| < |prevChord.notes|
        invariant |prevChord.notes| == n
        invariant p0 != [] || n == 0 ==> prevChord.notes == Pad(p0, n)
        invariant p0 == [] ==> prevChord.notes == []
        invariant c0 == [] ==> currentChord.notes == []
        invariant c0 != [] ==> |c0| <= |currentChord.notes| && currentChord.notes == Pad(c0, |currentChord.notes|)
        invariant |currentChord.notes| <= n
        decreases n - |currentChord.notes|
      {
        if currentChord.notes == [] {
          return Err(IndexError);
        }
        PadGrow(c0, |currentChord.notes|);
        currentChord.notes := currentChord.notes + [currentChord.notes[|currentChord.notes| - 1]];
      }
      MorphOfPadded(p0, c0, prevChord.notes, currentChord.notes);
      result := BendValues(prevChord.notes, currentChord.notes);
    }

    /** The last loop of `calculate_morph_values`, over the padded chords:
        one bend per voice, or no values as soon as a voice moves more than
        an octave. */
    method BendValues(p: seq<int>, c: seq<int>) returns (result: Result<seq<int>>)
      requires |p| == |c|
      ensures result == if WithinOctave(p, c) then Ok(seq(|p|, i requires 0 <= i < |p| => Bend(c[i] - p[i]))) else Ok([])
    {
      var morphValues: seq<int> := [];
      var i := 0;
      while i < |p|
        invariant 0 <= i <= |p|
        invariant forall k :: 0 <= k < i ==> -12 <= c[k] - p[k] <= 12
        invariant |morphValues| == i
        invariant forall k :: 0 <= k < i ==> morphValues[k] == Bend(c[k] - p[k])
      {
        var difference := c[i] - p[i];
        if difference < -12 || difference > 12 {
          return Ok([]);
        }
        morphValues := morphValues + [Bend(difference)];
        i := i + 1;
      }
      assert morphValues == seq(|p|, k requires 0 <= k < |p| => Bend(c[k] - p[k]));
      return Ok(morphValues);
    }

    /** `send_morph_values`: only a non-empty list is sent. */
    method SendMorphValues(morphValues: seq<int>)
      modifies this
      ensures messages == old(messages) + if morphValues != [] then [MorphNotes(morphValues)] else []
      ensures chords == old(chords) && currentChordIndex == old(currentChordIndex) && prevChord == old(prevChord)
      ensures scrubMode == old(scrubMode) && sendOsc == old(sendOsc) && morphChords == old(morphChords)
      ensures filterDuplicates == old(filterDuplicates) && instrumentStaveMap == old(instrumentStaveMap)
      ensures selectedInstrument == old(selectedInstrument)
    {
      if morphValues != [] {
        messages := messages + [MorphNotes(morphValues)];
      }
    }

    /** `send_chord_on`: the chord is sent only when Send Chord is on. */
    method SendChordOn(chord: Chord)
      modifies this
      ensures messages == old(messages) + if sendOsc then [ChordOn(chord.notes)] else []
      ensures chords == old(chords) && currentChordIndex == old(currentChordIndex) && prevChord == old(prevChord)
      ensures scrubMode == old(scrubMode) && sendOsc == old(sendOsc) && morphChords == old(morphChords)
      ensures filterDuplicates == old(filterDuplicates) && instrumentStaveMap == old(instrumentStaveMap)
      ensures selectedInstrument == old(selectedInstrument)
    {
      if sendOsc {
        messages := messages + [ChordOn(chord.notes)];
      }
    }

    /** `send_key_on`. */
    method SendKeyOn(channel: int, midiNumber: int)
      modifies this
      ensures messages == old(messages) + [KeyOnPlay(channel, midiNumber)]
      ensures chords == old(chords) && currentChordIndex == old(currentChordIndex) && prevChord == old(prevChord)
      ensures scrubMode == old(scrubMode) && sendOsc == old(sendOsc) && morphChords == old(morphChords)
      ensures filterDuplicates == old(filterDuplicates) && instrumentStaveMap == old(instrumentStaveMap)
      ensures selectedInstrument == old(selectedInstrument)
    {
      messages := messages + [KeyOnPlay(channel, midiNumber)];
    }

    /** The key-on loop of `play_current_chord`: one key-on message on
        channel 0 for each note of the chord, in order. */
    method SendKeyOns(notes: seq<int>)
      modifies this
      ensures messages == old(messages) + KeyOnMessages(notes)
      ensures chords == old(chords) && currentChordIndex == old(currentChordIndex) && prevChord == old(prevChord)
      ensures scrubMode == old(scrubMode) && sendOsc == old(sendOsc) && morphChords == old(morphChords)
      ensures filterDuplicates == old(filterDuplicates) && instrumentStaveMap == old(instrumentStaveMap)
      ensures selectedInstrument == old(selectedInstrument)
    {
      for i := 0 to |notes|
        invariant chords == old(chords) && currentChordIndex == old(currentChordIndex) && prevChord == old(prevChord)
        invariant scrubMode == old(scrubMode) && sendOsc == old(sendOsc) && morphChords == old(morphChords)
        invariant filterDuplicates == old(filterDuplicates) && instrumentStaveMap == old(instrumentStaveMap)
        invariant selectedInstrument == old(selectedInstrument)
        invariant messages == old(messages) + KeyOnMessages(notes[..i])
      {
        assert notes[..i + 1] == notes[..i] + [notes[i]];
        SendKeyOn(0, notes[i]);
      }
      assert notes[..|notes|] == notes;
    }

    /** The morphing step of `play_current_chord`: both chords are padded,
        the chord is sent padded and then the morph values, as `PlayMessages`
        prescribes when Morph Chords is on; nothing is sent when the morph
        fails. */
    method SendMorph(prev: Chord, chord: Chord) returns (error: Option<PyError>)
      requires prev.notes != []
      modifies this, prev, chord
      ensures var outcome := PlayMessages(old(chord.notes), Some(old(prev.notes)), true, sendOsc);
              && (error.None? <==> outcome.Ok?)
              && (outcome.Err? ==> && error == Some(outcome.error) && messages == old(messages)
                                   && prev.notes == old(prev.notes) && chord.notes == old(chord.notes))
              && (outcome.Ok? ==> messages == old(messages) + outcome.value)
      ensures var n := Max(|old(prev.notes)|, |old(chord.notes)|);
              error.None? ==> prev.notes == Pad(old(prev.notes), n) && chord.notes == Pad(old(chord.notes), n)
      ensures chords == old(chords) && currentChordIndex == old(currentChordIndex) && prevChord == old(prevChord)
      ensures scrubMode == old(scrubMode) && sendOsc == old(sendOsc) && morphChords == old(morphChords)
      ensures filterDuplicates == old(filterDuplicates) && instrumentStaveMap == old(instrumentStaveMap)
      ensures selectedInstrument == old(selectedInstrument)
    {
      var morphValues := CalculateMorphValues(prev, chord);
      if morphValues.Err? {
        return Some(morphValues.error);
      }
      SendChordOn(chord);
      SendMorphValues(morphValues.value);
      error := None;
    }

    /** `play_current_chord`: sends what `PlayMessages` prescribes for the
        chord under the scrub position and makes it the previous chord; a
        morph pads both chords in place. When the morph fails, nothing is
        sent and the previous chord is kept. */
    method PlayCurrentChord() returns (error: Option<PyError>)
      requires chords.Some?
      modifies this, CurrentChordSet(), PrevChordSet()
      ensures chords == old(chords) && currentChordIndex == old(currentChordIndex)
      ensures scrubMode == old(scrubMode) && sendOsc == old(sendOsc) && morphChords == old(morphChords)
      ensures filterDuplicates == old(filterDuplicates)
      ensures instrumentStaveMap == old(instrumentStaveMap) && selectedInstrument == old(selectedInstrument)
      ensures !(0 <= currentChordIndex < |chords.value|) ==> unchanged(this) && error == None
      ensures 0 <= currentChordIndex < |chords.value| ==>
                var chord := chords.value[currentChordIndex];
                var outcome := PlayMessages(old(chord.notes), old(PrevNotes()), morphChords, sendOsc);
                && (error.None? <==> outcome.Ok?)
                && (outcome.Err? ==> error == Some(outcome.error) && messages == old(messages)
                                     && prevChord == old(prevChord) && chord.notes == old(chord.notes))
                && (outcome.Ok? ==> messages == old(messages) + outcome.value && prevChord == Some(chord))
                && ChordsAfterPlay(chord, old(prevChord), old(chord.notes), old(PrevNotes()), morphChords)
    {
      if !(0 <= currentChordIndex < |chords.value|) {
        return None;
      }
      var chord := chords.value[currentChordIndex];
      ghost var prevNotes := PrevNotes();
      ghost var chordNotes := chord.notes;
      if !(morphChords || sendOsc) {
        SendKeyOns(chord.notes);
      }
      if sendOsc && !morphChords {
        SendChordOn(chord);
      }
      if morphChords && prevChord.Some? && prevChord.value.notes != [] {
        error := SendMorph(prevChord.value, chord);
        if error.Some? {
          return;
        }
      }
      prevChord := Some(chord);
      error := None;
    }

    /** `scrub_forward`: in scrub mode with chords gathered, the position
        moves one chord on, staying on the last, and that chord is played. */
    method ScrubForward() returns (error: Option<PyError>)
      requires Valid()
      modifies this, ChordObjects(), PrevChordSet()
      ensures Valid()
      ensures !(scrubMode && chords.Some? && chords.value != []) ==>
                unchanged(this) && unchanged(ChordObjects()) && unchanged(PrevChordSet()) && error == None
      ensures scrubMode && chords.Some? && chords.value != [] ==>
                && chords == old(chords)
                && currentChordIndex == (if old(currentChordIndex) + 1 < |chords.value| then old(currentChordIndex) + 1 else |chords.value| - 1)
                && scrubMode == old(scrubMode) && sendOsc == old(sendOsc) && morphChords == old(morphChords)
                && filterDuplicates == old(filterDuplicates)
                && instrumentStaveMap == old(instrumentStaveMap) && selectedInstrument == old(selectedInstrument)
                && var chord := chords.value[currentChordIndex];
                   var outcome := PlayMessages(old(chord.notes), old(PrevNotes()), old(morphChords), old(sendOsc));
                   && (error.None? <==> outcome.Ok?)
                   && (outcome.Err? ==> error == Some(outcome.error) && messages == old(messages)
                                        && prevChord == old(prevChord) && chord.notes == old(chord.notes))
                   && (outcome.Ok? ==> messages == old(messages) + outcome.value && prevChord == Some(chord))
                   && ChordsAfterPlay(chord, old(prevChord), old(chord.notes), old(PrevNotes()), old(morphChords))
                   && forall i :: 0 <= i < |chords.value| && chords.value[i] != chord && Some(chords.value[i]) != old(prevChord) ==>
                                    chords.value[i].notes == old(chords.value[i].notes)
    {
      error := None;
      if scrubMode && chords.Some? && chords.value != [] {
        currentChordIndex := if currentChordIndex + 1 < |chords.value| then currentChordIndex + 1 else |chords.value| - 1;
        error := PlayCurrentChord();
      }
    }

    /** `scrub_backward`: as `ScrubForward`, one chord back, staying on the
        first. */
    method ScrubBackward() returns (error: Option<PyError>)
      requires Valid()
      modifies this, ChordObjects(), PrevChordSet()
      ensures Valid()
      ensures !(scrubMode && chords.Some? && chords.value != []) ==>
                unchanged(this) && unchanged(ChordObjects()) && unchanged(PrevChordSet()) && error == None
      ensures scrubMode && chords.Some? && chords.value != [] ==>
                && chords == old(chords)
                && currentChordIndex == (if old(currentChordIndex) - 1 > 0 then old(currentChordIndex) - 1 else 0)
                && scrubMode == old(scrubMode) && sendOsc == old(sendOsc) && morphChords == old(morphChords)
                && filterDuplicates == old(filterDuplicates)
                && instrumentStaveMap == old(instrumentStaveMap) && selectedInstrument == old(selectedInstrument)
                && var chord := chords.value[currentChordIndex];
                   var outcome := PlayMessages(old(chord.notes), old(PrevNotes()), old(morphChords), old(sendOsc));
                   && (error.None? <==> outcome.Ok?)
                   && (outcome.Err? ==> error == Some(outcome.error) && messages == old(messages)
                                        && prevChord == old(prevChord) && chord.notes == old(chord.notes))
                   && (outcome.Ok? ==> messages == old(messages) + outcome.value && prevChord == Some(chord))
                   && ChordsAfterPlay(chord, old(prevChord), old(chord.notes), old(PrevNotes()), old(morphChords))
                   && forall i :: 0 <= i < |chords.value| && chords.value[i] != chord && Some(chords.value[i]) != old(prevChord) ==>
                                    chords.value[i].notes == old(chords.value[i].notes)
    {
      error := None;
      if scrubMode && chords.Some? && chords.value != [] {
        currentChordIndex := if currentChordIndex - 1 > 0 then currentChordIndex - 1 else 0;
        error := PlayCurrentChord();
      }
    }

    /** `filter_duplicate_chords`: the first chord of each signature, in the
        original order. The chord objects kept are those at the first
        positions of their signatures. */
    method FilterDuplicateChords(chords: seq<Chord>) returns (uniqueChords: seq<Chord>)
      ensures Signatures(uniqueChords) == Dedup(Signatures(chords))
      ensures TakenAt(uniqueChords, chords, FirstPositions(Signatures(chords)))
      ensures forall c :: c in uniqueChords ==> c in chords
    {
      ghost var sigs := Signatures(chords);
      uniqueChords := [];
      var seenChords: set<seq<int>> := {};
      for i := 0 to |chords|
        invariant Signatures(uniqueChords) == Dedup(sigs[..i])
        invariant forall x :: x in seenChords <==> x in Dedup(sigs[..i])
        invariant TakenAt(uniqueChords, chords, FirstPositions(sigs[..i]))
      {
        var chord := chords[i];
        SignatureAt(chords, i);
        DedupStep(sigs, i, chord.notes);
        FirstPositionsStep(sigs, i);
        if chord.notes !in seenChords {
          TakenAtSnoc(uniqueChords, chords, FirstPositions(sigs[..i]), i);
          SignaturesSnoc(uniqueChords, chord);
          uniqueChords := uniqueChords + [chord];
          seenChords := seenChords + {chord.notes};
        }
      }
      assert sigs[..|chords|] == sigs;
      TakenAtMembers(uniqueChords, chords, FirstPositions(sigs));
    }

    /** `extract_chords_from_stream`, over the chords of the stream in
        order: chords with fewer than two notes are dropped, and with
        `filterDuplicates` only the first chord of each signature is kept. */
    method ExtractChordsFromStream(stream: seq<Chord>, filterDuplicates: bool) returns (chords: seq<Chord>)
      ensures Signatures(chords) == Extracted(Signatures(stream), filterDuplicates)
      ensures TakenAt(chords, stream, ExtractedPositions(Signatures(stream), filterDuplicates))
      ensures forall c :: c in chords ==> c in stream && |c.notes| >= 2
    {
      ghost var sigs := Signatures(stream);
      chords := [];
      var seenChords: set<seq<int>> := {};
      for i := 0 to |stream|
        invariant Signatures(chords) == Extracted(sigs[..i], filterDuplicates)
        invariant forall x :: x in seenChords <==> filterDuplicates && x in Extracted(sigs[..i], filterDuplicates)
        invariant TakenAt(chords, stream, ExtractedPositions(sigs[..i], filterDuplicates))
      {
        var element := stream[i];
        SignatureAt(stream, i);
        ExtractedStep(sigs, i, element.notes, filterDuplicates);
        ExtractedPositionsStep(sigs, i, filterDuplicates);
        if |element.notes| >= 2 {
          var chordSignature := element.notes;
          if filterDuplicates {
            if chordSignature !in seenChords {
              TakenAtSnoc(chords, stream, ExtractedPositions(sigs[..i], filterDuplicates), i);
              SignaturesSnoc(chords, element);
              chords := chords + [element];
              seenChords := seenChords + {chordSignature};
            }
          } else {
            TakenAtSnoc(chords, stream, ExtractedPositions(sigs[..i], filterDuplicates), i);
            SignaturesSnoc(chords, element);
            chords := chords + [element];
          }
        }
      }
      assert sigs[..|stream|] == sigs;
      ExtractedChordsMembers(chords, stream, ExtractedPositions(sigs, filterDuplicates), filterDuplicates);
    }

    /** The chord list `get_chords` builds from the score's chords, filtered
        when Filter Duplicate Chords is on. */
    method GatherChords(scoreChords: seq<Chord>) returns (gathered: seq<Chord>)
      ensures ChordsGathered(gathered, scoreChords, filterDuplicates)
    {
      gathered := scoreChords;
      if filterDuplicates {
        gathered := FilterDuplicateChords(gathered);
      }
    }

    /** `get_chords`, given the chords of the loaded score (None when no
        score is loaded): they become the chord list, filtered when Filter
        Duplicate Chords is on, and scrubbing restarts at the first. */
    method GetChords(scoreChords: Option<seq<Chord>>)
      requires Valid()
      modifies this
      ensures Valid()
      ensures scoreChords.None? ==> unchanged(this)
      ensures scoreChords.Some? ==>
                && chords.Some? && currentChordIndex == 0
                && ChordsGathered(chords.value, scoreChords.value, filterDuplicates)
                && prevChord == old(prevChord) && messages == old(messages)
                && filterDuplicates == old(filterDuplicates)
                && scrubMode == old(scrubMode) && sendOsc == old(sendOsc) && morphChords == old(morphChords)
                && instrumentStaveMap == old(instrumentStaveMap) && selectedInstrument == old(selectedInstrument)
    {
      if scoreChords.Some? {
        var gathered := GatherChords(scoreChords.value);
        chords := Some(gathered);
        currentChordIndex := 0;
      }
    }

    /** `catalog_instruments`: the parts grouped by instrument name, and the
        first instrument of the score selected. */
    method CatalogInstruments(parts: seq<Part>) returns (instrumentStaveMap: map<string, seq<Part>>)
      modifies this
      ensures instrumentStaveMap == Catalog(parts)
      ensures selectedInstrument == if parts == [] then old(selectedInstrument) else Some(parts[0].instrument)
      ensures chords == old(chords) && currentChordIndex == old(currentChordIndex) && prevChord == old(prevChord)
      ensures messages == old(messages) && this.instrumentStaveMap == old(this.instrumentStaveMap)
      ensures scrubMode == old(scrubMode) && sendOsc == old(sendOsc) && morphChords == old(morphChords)
      ensures filterDuplicates == old(filterDuplicates)
    {
      instrumentStaveMap := map[];
      var firstInstrumentSet := false;
      for i := 0 to |parts|
        invariant instrumentStaveMap == Catalog(parts[..i])
        invariant firstInstrumentSet <==> i > 0
        invariant selectedInstrument == if i == 0 then old(selectedInstrument) else Some(parts[0].instrument)
        invariant chords == old(chords) && currentChordIndex == old(currentChordIndex) && prevChord == old(prevChord)
        invariant messages == old(messages) && this.instrumentStaveMap == old(this.instrumentStaveMap)
        invariant scrubMode == old(scrubMode) && sendOsc == old(sendOsc) && morphChords == old(morphChords)
        invariant filterDuplicates == old(filterDuplicates)
      {
        var part := parts[i];
        assert parts[..i + 1] == parts[..i] + [part];
        CatalogSnoc(parts[..i], part);
        var instrumentName := part.instrument;
        if instrumentName !in instrumentStaveMap {
          instrumentStaveMap := instrumentStaveMap[instrumentName := [part]];
          if !firstInstrumentSet {
            selectedInstrument := Some(instrumentName);
            firstInstrumentSet := true;
          }
        } else {
          instrumentStaveMap := instrumentStaveMap[instrumentName := instrumentStaveMap[instrumentName] + [part]];
        }
      }
      assert parts[..|parts|] == parts;
    }
  }
}
