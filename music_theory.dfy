/** The music-theory helpers of the keyboard: the table of key-signature
    offsets and the pitch-class lists of scales. The music21 library that
    builds scales and parses note names is not part of this model; it enters
    as parameters (`ScaleModule`, `Scale`, `midiOf`). */
module MusicTheory {
  import opened Wrappers

  type PitchClass = x: int | 0 <= x < 12

  /** Tonic pitch class of each key name. */
  const KeySignatureMap: map<string, int> := map[
    "C" := 0, "G" := 7, "D" := 2, "A" := 9, "E" := 4, "B" := 11,
    "F#" := 6, "Gb" := 6, "Db" := 1, "Ab" := 8, "Eb" := 3, "Bb" := 10, "F" := 5,
    "C#" := 1
  ]

  /** The key names around the circle of fifths, as the keyboard's key selector lists them. */
  const CircleOfFifthsKeys: seq<string> := ["C", "G", "D", "A", "E", "B", "F#", "C#", "Ab", "Eb", "Bb", "F"]

  lemma KeySignatureOffsetsArePitchClasses()
    ensures forall k :: k in KeySignatureMap ==> 0 <= KeySignatureMap[k] < 12
  {
  }

  /** Enharmonic spellings of the same key share one offset. */
  lemma EnharmonicKeysShareOffset()
    ensures KeySignatureMap["F#"] == KeySignatureMap["Gb"] == 6
    ensures KeySignatureMap["C#"] == KeySignatureMap["Db"] == 1
  {
  }

  /** `key_signature_map.get(key, 0)`: the offset of a key name, 0 for a name
      the table does not know. */
  function KeyOffset(key: string): (offset: int)
    ensures key in KeySignatureMap ==> offset == KeySignatureMap[key]
    ensures key !in KeySignatureMap ==> offset == 0
    ensures 0 <= offset < 12
  {
    if key in KeySignatureMap then KeySignatureMap[key] else 0
  }

  /** The `i`-th key of the circle of fifths has an offset, and the next key
      round the circle lies a fifth (7 semitones mod 12) above it. */
  predicate FifthStep(i: int)
    requires 0 <= i < |CircleOfFifthsKeys|
  {
    && CircleOfFifthsKeys[i] in KeySignatureMap
    && var next := if i + 1 == |CircleOfFifthsKeys| then 0 else i + 1;
       (KeyOffset(CircleOfFifthsKeys[next]) - KeyOffset(CircleOfFifthsKeys[i])) % 12 == 7
  }

  /** Every step round the circle of fifths, including the one from F back to
      C, is a fifth in the offset table. */
  lemma CircleOfFifthsConsistent()
    ensures forall i :: 0 <= i < |CircleOfFifthsKeys| ==> FifthStep(i)
  {
    CircleOfFifthsOffsets();
    var keys := CircleOfFifthsKeys;
    assert keys[0] == "C" && keys[1] == "G" && keys[2] == "D" && keys[3] == "A";
    assert keys[4] == "E" && keys[5] == "B" && keys[6] == "F#" && keys[7] == "C#";
    assert keys[8] == "Ab" && keys[9] == "Eb" && keys[10] == "Bb" && keys[11] == "F";
    forall i | 0 <= i < |keys|
      ensures FifthStep(i)
    {
      assert i == 0 || i == 1 || i == 2 || i == 3 || i == 4 || i == 5 || i == 6
          || i == 7 || i == 8 || i == 9 || i == 10 || i == 11;
    }
  }

  /** The offsets of the keys of the circle, in its order. */
  lemma CircleOfFifthsOffsets()
    ensures forall k :: k in CircleOfFifthsKeys ==> k in KeySignatureMap
    ensures KeyOffset("C") == 0 && KeyOffset("G") == 7 && KeyOffset("D") == 2 && KeyOffset("A") == 9
    ensures KeyOffset("E") == 4 && KeyOffset("B") == 11 && KeyOffset("F#") == 6 && KeyOffset("C#") == 1
    ensures KeyOffset("Ab") == 8 && KeyOffset("Eb") == 3 && KeyOffset("Bb") == 10 && KeyOffset("F") == 5
  {
  }

  predicate StrictlyAscending(s: seq<int>) {
    forall i, j :: 0 <= i < j < |s| ==> s[i] < s[j]
  }

  /** Adds `x` to a strictly ascending list, keeping it strictly ascending. */
  function Insert(s: seq<int>, x: int): (r: seq<int>)
    requires StrictlyAscending(s)
    ensures StrictlyAscending(r)
    ensures forall y :: y in r <==> y in s || y == x
  {
    if s == [] then [x]
    else if x < s[0] then [x] + s
    else if x == s[0] then s
    else
      var rest := Insert(s[1..], x);
      assert forall y :: y in rest ==> s[0] < y by {
        forall y | y in s[1..]
          ensures s[0] < y
        {
          var j :| 0 <= j < |s[1..]| && s[1..][j] == y;
          assert s[j + 1] == y;
        }
      }
      assert forall j :: 0 <= j < |rest| ==> rest[j] in rest;
      [s[0]] + rest
  }

  /** `sorted(set(xs))`. */
  function SortedDistinct(xs: seq<int>): (r: seq<int>)
    ensures StrictlyAscending(r)
    ensures forall y :: y in r <==> y in xs
  {
    if xs == [] then [] else Insert(SortedDistinct(xs[..|xs| - 1]), xs[|xs| - 1])
  }

  /** A strictly ascending list is determined by its elements, so the
      result of `SortedDistinct` is the one `sorted(set(xs))` denotes. */
  lemma {:induction false} StrictlyAscendingUnique(a: seq<int>, b: seq<int>)
    requires StrictlyAscending(a) && StrictlyAscending(b)
    requires forall y :: y in a <==> y in b
    ensures a == b
  {
    assert a != [] ==> a[0] in a;
    assert b != [] ==> b[0] in b;
    if a != [] && b != [] {
      assert a[0] == b[0] by {
        assert a[0] in a && b[0] in b;
      }
      forall y | y in a[1..]
        ensures y in b[1..]
      {
        var i :| 1 <= i < |a| && a[i] == y;
        assert a[0] < y && y in a;
        var j :| 0 <= j < |b| && b[j] == y;
        assert j != 0;
      }
      forall y | y in b[1..]
        ensures y in a[1..]
      {
        var j :| 1 <= j < |b| && b[j] == y;
        assert b[0] < y && y in b;
        var i :| 0 <= i < |a| && a[i] == y;
        assert i != 0;
      }
      StrictlyAscendingUnique(a[1..], b[1..]);
      assert a == [a[0]] + a[1..] && b == [b[0]] + b[1..];
    }
  }

  /** Sorting and de-duplicating a list that is already strictly ascending
      leaves it as it is. */
  lemma SortedDistinctOfAscending(s: seq<int>)
    requires StrictlyAscending(s)
    ensures SortedDistinct(s) == s
  {
    StrictlyAscendingUnique(SortedDistinct(s), s);
  }

  /** A scale class of the music library applied to a key name: the pitch
      classes of the scale's pitches, in the library's order. */
  type Scale = string -> seq<PitchClass>

  /** The scale classes the library module exports, by attribute name. */
  type ScaleModule = map<string, Scale>

  /** The sorted, duplicate-free pitch classes of scale `scaleType` on
      `keyName`; ValueError when the library has no scale of that name. */
  function GetScaleNotes(scales: ScaleModule, keyName: string, scaleType: string): (r: Result<seq<int>>)
    ensures r.Err? <==> scaleType !in scales
    ensures r.Err? ==> r.error == ValueError
    ensures r.Ok? ==> StrictlyAscending(r.value)
    ensures r.Ok? ==> forall p :: p in r.value <==> p in scales[scaleType](keyName)
    ensures r.Ok? ==> forall p :: p in r.value ==> 0 <= p < 12
  {
    if scaleType !in scales then Err(ValueError)
    else Ok(SortedDistinct(scales[scaleType](keyName)))
  }

  /** The sorted, duplicate-free pitch classes of the major scale on `keyName`. */
  function GetNotesForKey(majorScale: Scale, keyName: string): (r: seq<int>)
    ensures StrictlyAscending(r)
    ensures forall p :: p in r <==> p in majorScale(keyName)
    ensures forall p :: p in r ==> 0 <= p < 12
  {
    SortedDistinct(majorScale(keyName))
  }

  /** One MIDI number per note name, in the order of the names; `midiOf`
      stands for the library's note-name parser. The key name is not used. */
  method ConvertNotesToMidi(midiOf: string -> int, keyName: string, noteNames: seq<string>)
    returns (midiNumbers: seq<int>)
    ensures |midiNumbers| == |noteNames|
    ensures forall i :: 0 <= i < |noteNames| ==> midiNumbers[i] == midiOf(noteNames[i])
  {
    midiNumbers := [];
    for i := 0 to |noteNames|
      invariant |midiNumbers| == i
      invariant forall j :: 0 <= j < i ==> midiNumbers[j] == midiOf(noteNames[j])
    {
      midiNumbers := midiNumbers + [midiOf(noteNames[i])];
    }
  }
}
