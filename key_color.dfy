/** The key colour manager of the on-screen keyboard: the arithmetic that turns
    a MIDI number into a position in the white-key or black-key list, and the
    highlight / activation colouring of those keys.

    The canvas is modelled by the fill colour of every key item: `whiteFills[i]`
    is the fill of `white_keys[i]`, `blackFills[i]` that of `black_keys[i]`. */
module KeyColor {
  import opened Wrappers
  import opened PyLists

  type Color = string

  const DefaultWhiteKeyColor: Color := "white"
  const DefaultBlackKeyColor: Color := "black"
  const HighlightColor: Color := "blue"
  const ActiveColor: Color := "yellow"

  /** Remainders mod 12 of the white keys and of the black keys, ascending. */
  const WhiteKeyRemainders: seq<int> := [0, 2, 4, 5, 7, 9, 11]
  const BlackKeyRemainders: seq<int> := [1, 3, 6, 8, 10]

  function Remainders(isBlack: bool): seq<int> {
    if isBlack then BlackKeyRemainders else WhiteKeyRemainders
  }

  /** Keys of one colour per octave: 5 black, 7 white. */
  function KeysPerOctave(isBlack: bool): (k: int)
    ensures k == |Remainders(isBlack)|
  {
    if isBlack then 5 else 7
  }

  function DefaultColor(isBlack: bool): Color {
    if isBlack then DefaultBlackKeyColor else DefaultWhiteKeyColor
  }

  predicate IsBlackKey(n: int) {
    n % 12 in BlackKeyRemainders
  }

  lemma RemaindersAscending(isBlack: bool)
    ensures forall i, j :: 0 <= i < j < |Remainders(isBlack)| ==> Remainders(isBlack)[i] < Remainders(isBlack)[j]
  {
  }

  /** Every remainder mod 12 is in exactly one of the two tables. */
  lemma RemaindersPartition(r: int)
    requires 0 <= r < 12
    ensures r in BlackKeyRemainders <==> r !in WhiteKeyRemainders
  {
    assert r == 0 || r == 1 || r == 2 || r == 3 || r == 4 || r == 5 || r == 6
        || r == 7 || r == 8 || r == 9 || r == 10 || r == 11;
  }

  /** `set(notes)`. */
  function Elements(notes: seq<int>): (s: set<int>)
    ensures forall n :: n in s <==> n in notes
  {
    set n | n in notes
  }

  lemma ElementsAppend(notes: seq<int>, n: int)
    ensures Elements(notes + [n]) == Elements(notes) + {n}
  {
  }

  datatype KeyPosition = KeyPosition(index: int, isBlack: bool)

  /** The position of MIDI note `n` in its key list. Octaves are counted from
      the octave that contains `start` (`start / 12`), not from `start` itself,
      so when `start` is not a C the first keys of the keyboard get positions
      above 0. The function is total: it never fails. */
  function FindKeyIndex(n: int, start: int): (p: KeyPosition)
    ensures p.isBlack <==> n % 12 in BlackKeyRemainders
    ensures !p.isBlack <==> n % 12 in WhiteKeyRemainders
    ensures var octaves := n / 12 - start / 12;
            if p.isBlack then octaves * 5 <= p.index < octaves * 5 + 5
            else octaves * 7 <= p.index < octaves * 7 + 7
  {
    var r := n % 12;
    RemaindersPartition(r);
    var isBlack := r in BlackKeyRemainders;
    var position := IndexOf(Remainders(isBlack), r);
    var octaves := n / 12 - start / 12;
    KeyPosition(if isBlack then octaves * 5 + position else octaves * 7 + position, isBlack)
  }

  /** Within one colour the position grows strictly with the MIDI number, so
      two different notes never share a key. */
  lemma FindKeyIndexStrictlyIncreasing(n1: int, n2: int, start: int)
    requires n1 < n2
    requires FindKeyIndex(n1, start).isBlack == FindKeyIndex(n2, start).isBlack
    ensures FindKeyIndex(n1, start).index < FindKeyIndex(n2, start).index
  {
    var b := FindKeyIndex(n1, start).isBlack;
    var q1, q2 := n1 / 12 - start / 12, n2 / 12 - start / 12;
    if n1 / 12 == n2 / 12 {
      var r1, r2 := n1 % 12, n2 % 12;
      assert r1 < r2;
      RemaindersAscending(b);
      IndexOfMonotone(Remainders(b), r1, r2);
    } else {
      assert q1 + 1 <= q2;
      if b {
        assert (q1 + 1) * 5 <= q2 * 5;
      } else {
        assert (q1 + 1) * 7 <= q2 * 7;
      }
    }
  }

  lemma FindKeyIndexInjective(n1: int, n2: int, start: int)
    requires FindKeyIndex(n1, start) == FindKeyIndex(n2, start)
    ensures n1 == n2
  {
    if n1 < n2 {
      FindKeyIndexStrictlyIncreasing(n1, n2, start);
    } else if n2 < n1 {
      FindKeyIndexStrictlyIncreasing(n2, n1, start);
    }
  }

  /** One octave up is the same colour, 7 white keys or 5 black keys further. */
  lemma FindKeyIndexOctaveShift(n: int, start: int)
    ensures FindKeyIndex(n + 12, start).isBlack == FindKeyIndex(n, start).isBlack
    ensures FindKeyIndex(n + 12, start).index
         == FindKeyIndex(n, start).index + KeysPerOctave(FindKeyIndex(n, start).isBlack)
  {
    assert (n + 12) % 12 == n % 12;
    assert (n + 12) / 12 == n / 12 + 1;
  }

  /** A key of the canvas: which list, and which element of it. */
  datatype Key = Key(isBlack: bool, slot: nat)

  /** `fills` (the fills of the keys of one colour) after the keys of `keys`
      of that colour are given colour `c`. */
  function Repaint(fills: seq<Color>, isBlack: bool, keys: set<Key>, c: Color): (r: seq<Color>)
    ensures |r| == |fills|
    ensures forall i :: 0 <= i < |r| ==> r[i] == if Key(isBlack, i) in keys then c else fills[i]
  {
    seq(|fills|, i requires 0 <= i < |fills| => if Key(isBlack, i) in keys then c else fills[i])
  }

  lemma RepaintNothing(fills: seq<Color>, isBlack: bool, c: Color)
    ensures Repaint(fills, isBlack, {}, c) == fills
  {
  }

  /** Keys of the other colour leave a list as it is. */
  lemma RepaintOtherList(fills: seq<Color>, isBlack: bool, k: Key, c: Color)
    requires k.isBlack != isBlack
    ensures Repaint(fills, isBlack, {k}, c) == fills
  {
  }

  lemma RepaintTwice(fills: seq<Color>, isBlack: bool, a: set<Key>, b: set<Key>, c: Color)
    ensures Repaint(Repaint(fills, isBlack, a, c), isBlack, b, c) == Repaint(fills, isBlack, a + b, c)
  {
  }

  /** The key `key_list[index]` designates for note `n`, on a keyboard whose
      index arithmetic starts at `start` and whose key lists hold `whiteCount`
      and `blackCount` keys; None when that subscript raises IndexError. */
  function KeyAddress(n: int, start: int, whiteCount: nat, blackCount: nat): (k: Option<Key>)
    ensures var count := if IsBlackKey(n) then blackCount else whiteCount;
            k.Some? <==> -(count as int) <= FindKeyIndex(n, start).index < count
    ensures k.Some? ==> k.value.isBlack == IsBlackKey(n)
                        && k.value.slot < if k.value.isBlack then blackCount else whiteCount
  {
    KeySlot(FindKeyIndex(n, start), whiteCount, blackCount)
  }

  /** The key `key_list[p.index]` designates in the list of `p`'s colour. */
  function KeySlot(p: KeyPosition, whiteCount: nat, blackCount: nat): Option<Key>
  {
    match ListSlot(p.index, if p.isBlack then blackCount else whiteCount)
    case None => None
    case Some(i) => Some(Key(p.isBlack, i))
  }

  /** The keys designated by the addressable notes of `notes`. */
  function KeyAddresses(notes: set<int>, start: int, whiteCount: nat, blackCount: nat): set<Key>
  {
    set n | n in notes && KeyAddress(n, start, whiteCount, blackCount).Some?
      :: KeyAddress(n, start, whiteCount, blackCount).value
  }

  /** Every note of `notes` designates a key. */
  predicate AllAddressable(notes: set<int>, start: int, whiteCount: nat, blackCount: nat)
  {
    forall n :: n in notes ==> KeyAddress(n, start, whiteCount, blackCount).Some?
  }

  lemma KeyAddressesAdd(notes: set<int>, n: int, start: int, whiteCount: nat, blackCount: nat)
    requires KeyAddress(n, start, whiteCount, blackCount).Some?
    ensures KeyAddresses(notes + {n}, start, whiteCount, blackCount)
         == KeyAddresses(notes, start, whiteCount, blackCount) + {KeyAddress(n, start, whiteCount, blackCount).value}
  {
  }

  class KeyColorManager {
    var whiteFills: seq<Color>
    var blackFills: seq<Color>
    const startingMidiNote: int
    var highlightedKeys: set<int>

    constructor (whiteFills: seq<Color>, blackFills: seq<Color>, startingMidiNote: int)
      ensures this.whiteFills == whiteFills && this.blackFills == blackFills
      ensures this.startingMidiNote == startingMidiNote
      ensures highlightedKeys == {}
    {
      this.whiteFills := whiteFills;
      this.blackFills := blackFills;
      this.startingMidiNote := startingMidiNote;
      highlightedKeys := {};
    }

    function KeyCount(isBlack: bool): nat
      reads this
    {
      if isBlack then |blackFills| else |whiteFills|
    }

    /** The key `key_list[index]` designates for note `n` on this keyboard. */
    function Address(n: int): Option<Key>
      reads this
    {
      KeyAddress(n, startingMidiNote, |whiteFills|, |blackFills|)
    }

    function Addresses(notes: set<int>): set<Key>
      reads this
    {
      KeyAddresses(notes, startingMidiNote, |whiteFills|, |blackFills|)
    }

    predicate Addressable(notes: set<int>)
      reads this
    {
      AllAddressable(notes, startingMidiNote, |whiteFills|, |blackFills|)
    }

    function Fill(k: Key): Color
      reads this
      requires k.slot < KeyCount(k.isBlack)
    {
      if k.isBlack then blackFills[k.slot] else whiteFills[k.slot]
    }

    /** The colour a key shows when it is not pressed: the highlight colour
        for a note of the current scale, its own colour otherwise. */
    function ScaleColor(n: int): Color
      reads this
    {
      if n in highlightedKeys then HighlightColor else DefaultColor(IsBlackKey(n))
    }

    /** `canvas.itemconfig(key_list[index], fill=c)`. */
    method Paint(k: Key, c: Color)
      requires k.slot < KeyCount(k.isBlack)
      modifies this
      ensures whiteFills == Repaint(old(whiteFills), false, {k}, c)
      ensures blackFills == Repaint(old(blackFills), true, {k}, c)
      ensures highlightedKeys == old(highlightedKeys)
    {
      if k.isBlack {
        blackFills := blackFills[k.slot := c];
      } else {
        whiteFills := whiteFills[k.slot := c];
      }
    }

    /** Gives the key of `n` colour `color` (the highlight colour when none or
        an empty name is given) and records `n` as highlighted. */
    method HighlightKey(n: int, color: Option<Color>) returns (ok: bool)
      modifies this
      ensures ok == old(Address(n)).Some?
      ensures ok ==> var c := if color.None? || color.value == "" then HighlightColor else color.value;
                     && whiteFills == Repaint(old(whiteFills), false, {old(Address(n)).value}, c)
                     && blackFills == Repaint(old(blackFills), true, {old(Address(n)).value}, c)
                     && highlightedKeys == old(highlightedKeys) + {n}
      ensures !ok ==> whiteFills == old(whiteFills) && blackFills == old(blackFills)
                      && highlightedKeys == old(highlightedKeys)
    {
      var c := if color.None? || color.value == "" then HighlightColor else color.value;
      var k := Address(n);
      if k.None? {
        return false;
      }
      Paint(k.value, c);
      highlightedKeys := highlightedKeys + {n};
      ok := true;
    }

    /** Gives the key of `n` the default colour of its class. */
    method ResetKeyColor(n: int) returns (ok: bool)
      modifies this
      ensures ok == old(Address(n)).Some?
      ensures ok ==> && whiteFills == Repaint(old(whiteFills), false, {old(Address(n)).value}, DefaultWhiteKeyColor)
                     && blackFills == Repaint(old(blackFills), true, {old(Address(n)).value}, DefaultBlackKeyColor)
      ensures !ok ==> whiteFills == old(whiteFills) && blackFills == old(blackFills)
      ensures highlightedKeys == old(highlightedKeys)
    {
      var k := Address(n);
      if k.None? {
        return false;
      }
      var key := k.value;
      if key.isBlack {
        Paint(key, DefaultBlackKeyColor);
        RepaintOtherList(old(whiteFills), false, key, DefaultBlackKeyColor);
        RepaintOtherList(old(whiteFills), false, key, DefaultWhiteKeyColor);
      } else {
        Paint(key, DefaultWhiteKeyColor);
        RepaintOtherList(old(blackFills), true, key, DefaultWhiteKeyColor);
        RepaintOtherList(old(blackFills), true, key, DefaultBlackKeyColor);
      }
      ok := true;
    }

    /** Shows the key of `n` as pressed; the highlight set is not touched. */
    method ActivateKey(n: int) returns (ok: bool)
      modifies this
      ensures ok == old(Address(n)).Some?
      ensures ok ==> && whiteFills == Repaint(old(whiteFills), false, {old(Address(n)).value}, ActiveColor)
                     && blackFills == Repaint(old(blackFills), true, {old(Address(n)).value}, ActiveColor)
      ensures !ok ==> whiteFills == old(whiteFills) && blackFills == old(blackFills)
      ensures highlightedKeys == old(highlightedKeys)
    {
      var k := Address(n);
      if k.None? {
        return false;
      }
      Paint(k.value, ActiveColor);
      ok := true;
    }

    /** Releases the key of `n`: it goes back to the highlight colour when `n`
        is in the scale, to its class default otherwise. Whatever colour the key
        had (for instance the active colour), it ends in its scale colour. */
    method DeactivateKey(n: int) returns (ok: bool)
      modifies this
      ensures ok == old(Address(n)).Some?
      ensures ok ==> && whiteFills == Repaint(old(whiteFills), false, {old(Address(n)).value}, old(ScaleColor(n)))
                     && blackFills == Repaint(old(blackFills), true, {old(Address(n)).value}, old(ScaleColor(n)))
                     && Fill(old(Address(n)).value) == ScaleColor(n)
      ensures !ok ==> whiteFills == old(whiteFills) && blackFills == old(blackFills)
      ensures highlightedKeys == old(highlightedKeys)
    {
      if n in highlightedKeys {
        ok := HighlightKey(n, Some(HighlightColor));
      } else {
        ok := ResetKeyColor(n);
      }
    }

    /** Returns every highlighted key to its class default and empties the
        highlight set. The set is walked in an unspecified order; a note whose
        key index is out of range raises IndexError, leaving the keys reset so
        far reset and the set as it was. */
    method ResetHighlightedKeys() returns (ok: bool)
      modifies this
      ensures ok == old(Addressable(highlightedKeys))
      ensures ok ==> && whiteFills == Repaint(old(whiteFills), false, old(Addresses(highlightedKeys)), DefaultWhiteKeyColor)
                     && blackFills == Repaint(old(blackFills), true, old(Addresses(highlightedKeys)), DefaultBlackKeyColor)
                     && highlightedKeys == {}
      ensures !ok ==> && highlightedKeys == old(highlightedKeys)
                      && exists done :: done <= highlightedKeys
                           && whiteFills == Repaint(old(whiteFills), false, Addresses(done), DefaultWhiteKeyColor)
                           && blackFills == Repaint(old(blackFills), true, Addresses(done), DefaultBlackKeyColor)
    {
      ghost var wc, bc := |whiteFills|, |blackFills|;
      var rest := highlightedKeys;
      ghost var done: set<int> := {};
      while rest != {}
        invariant rest + done == highlightedKeys == old(highlightedKeys) && rest !! done
        invariant |whiteFills| == wc && |blackFills| == bc
        invariant forall m :: m in done ==> KeyAddress(m, startingMidiNote, wc, bc).Some?
        invariant whiteFills == Repaint(old(whiteFills), false, KeyAddresses(done, startingMidiNote, wc, bc), DefaultWhiteKeyColor)
        invariant blackFills == Repaint(old(blackFills), true, KeyAddresses(done, startingMidiNote, wc, bc), DefaultBlackKeyColor)
        decreases rest
      {
        if forall x :: x !in rest {
          assert false;
        }
        var n: int :| n in rest;
        var reset := ResetKeyColor(n);
        if !reset {
          assert n in old(highlightedKeys) && old(Address(n)).None?;
          assert Addresses(done) == KeyAddresses(done, startingMidiNote, wc, bc);
          assert done <= highlightedKeys
            && whiteFills == Repaint(old(whiteFills), false, Addresses(done), DefaultWhiteKeyColor)
            && blackFills == Repaint(old(blackFills), true, Addresses(done), DefaultBlackKeyColor);
          return false;
        }
        var k := KeyAddress(n, startingMidiNote, wc, bc).value;
        RepaintTwice(old(whiteFills), false, KeyAddresses(done, startingMidiNote, wc, bc), {k}, DefaultWhiteKeyColor);
        RepaintTwice(old(blackFills), true, KeyAddresses(done, startingMidiNote, wc, bc), {k}, DefaultBlackKeyColor);
        KeyAddressesAdd(done, n, startingMidiNote, wc, bc);
        done := done + {n};
        rest := rest - {n};
      }
      highlightedKeys := {};
      ok := true;
    }

    /** Replaces the highlight set by the notes given; no key is repainted. */
    method ChangeScale(newScaleNotes: seq<int>)
      modifies this
      ensures highlightedKeys == Elements(newScaleNotes)
      ensures whiteFills == old(whiteFills) && blackFills == old(blackFills)
    {
      highlightedKeys := {};
      for i := 0 to |newScaleNotes|
        invariant highlightedKeys == Elements(newScaleNotes[..i])
        invariant whiteFills == old(whiteFills) && blackFills == old(blackFills)
      {
        assert newScaleNotes[..i + 1] == newScaleNotes[..i] + [newScaleNotes[i]];
        highlightedKeys := highlightedKeys + {newScaleNotes[i]};
      }
      assert newScaleNotes[..|newScaleNotes|] == newScaleNotes;
    }

    /** Highlighting `notes` one by one stopped at note `i`, whose key index
        is out of range: every note before it has a key, and exactly those
        notes were painted and added to the highlight set `highlighted`
        held before. */
    ghost predicate FailedAt(notes: seq<int>, i: int, whites: seq<Color>, blacks: seq<Color>, highlighted: set<int>)
      requires 0 <= i < |notes|
      reads this
    {
      var before := Elements(notes[..i]);
      && |whiteFills| == |whites| && |blackFills| == |blacks|
      && Address(notes[i]).None? && Addressable(before)
      && highlightedKeys == highlighted + before
      && whiteFills == Repaint(whites, false, Addresses(before), HighlightColor)
      && blackFills == Repaint(blacks, true, Addresses(before), HighlightColor)
    }

    /** Highlights the notes one after the other, as the loops of
        `update_scale` and of the keyboard's `KeyColorManager_keys_for_notes`
        do. The first note whose key index is out of range raises IndexError;
        the notes before it stay highlighted and painted. */
    method HighlightNotes(notes: seq<int>) returns (ok: bool)
      modifies this
      ensures ok == old(Addressable(Elements(notes)))
      ensures ok ==> && whiteFills == Repaint(old(whiteFills), false, old(Addresses(Elements(notes))), HighlightColor)
                     && blackFills == Repaint(old(blackFills), true, old(Addresses(Elements(notes))), HighlightColor)
                     && highlightedKeys == old(highlightedKeys) + Elements(notes)
      ensures old(highlightedKeys) <= highlightedKeys <= old(highlightedKeys) + Elements(notes)
      ensures !ok ==> exists i :: 0 <= i < |notes| && FailedAt(notes, i, old(whiteFills), old(blackFills), old(highlightedKeys))
      ensures |whiteFills| == |old(whiteFills)| && |blackFills| == |old(blackFills)|
    {
      ghost var wc, bc := |whiteFills|, |blackFills|;
      ghost var painted: set<int> := {};
      for i := 0 to |notes|
        invariant painted == Elements(notes[..i])
        invariant highlightedKeys == old(highlightedKeys) + painted
        invariant |whiteFills| == wc && |blackFills| == bc
        invariant forall m :: m in painted ==> KeyAddress(m, startingMidiNote, wc, bc).Some?
        invariant whiteFills == Repaint(old(whiteFills), false, KeyAddresses(painted, startingMidiNote, wc, bc), HighlightColor)
        invariant blackFills == Repaint(old(blackFills), true, KeyAddresses(painted, startingMidiNote, wc, bc), HighlightColor)
      {
        var n := notes[i];
        assert notes[..i + 1] == notes[..i] + [n];
        ElementsAppend(notes[..i], n);
        var highlighted := HighlightKey(n, None);
        if !highlighted {
          assert n in Elements(notes) && old(Address(n)).None?;
          assert FailedAt(notes, i, old(whiteFills), old(blackFills), old(highlightedKeys));
          return false;
        }
        var k := KeyAddress(n, startingMidiNote, wc, bc).value;
        KeyAddressesAdd(painted, n, startingMidiNote, wc, bc);
        RepaintTwice(old(whiteFills), false, KeyAddresses(painted, startingMidiNote, wc, bc), {k}, HighlightColor);
        RepaintTwice(old(blackFills), true, KeyAddresses(painted, startingMidiNote, wc, bc), {k}, HighlightColor);
        painted := painted + {n};
      }
      assert notes[..|notes|] == notes;
      ok := true;
    }

    /** Replaces the highlight set, paints every note of the scale in the
        highlight colour, and then calls `reset_non_highlighted_keys`, which the
        class does not define: the call always ends in AttributeError, or in
        IndexError earlier when a note of the scale is out of range, with the
        notes before that one painted. */
    method UpdateScale(scaleMidiNumbers: seq<int>) returns (error: PyError)
      modifies this
      ensures error == if old(Addressable(Elements(scaleMidiNumbers))) then AttributeError else IndexError
      ensures highlightedKeys == Elements(scaleMidiNumbers)
      ensures error == AttributeError ==>
                && whiteFills == Repaint(old(whiteFills), false, old(Addresses(Elements(scaleMidiNumbers))), HighlightColor)
                && blackFills == Repaint(old(blackFills), true, old(Addresses(Elements(scaleMidiNumbers))), HighlightColor)
      ensures error == IndexError ==>
                exists i :: 0 <= i < |scaleMidiNumbers| &&
                  FailedAt(scaleMidiNumbers, i, old(whiteFills), old(blackFills), Elements(scaleMidiNumbers))
    {
      highlightedKeys := Elements(scaleMidiNumbers);
      var ok := HighlightNotes(scaleMidiNumbers);
      error := if ok then AttributeError else IndexError;
    }

    /** Installs the key lists of a redrawn keyboard and forgets the highlights. */
    method UpdateKeys(whiteFills: seq<Color>, blackFills: seq<Color>)
      modifies this
      ensures this.whiteFills == whiteFills && this.blackFills == blackFills
      ensures highlightedKeys == {}
    {
      this.whiteFills := whiteFills;
      this.blackFills := blackFills;
      highlightedKeys := {};
    }
  }
}
