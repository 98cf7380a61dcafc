/** The two Python list operations the keyboard code relies on: `list.index`
    and subscripting with a possibly negative index. */
module PyLists {
  import opened Wrappers

  /** `s.index(x)`: the position of the first occurrence of `x` in `s`. */
  function IndexOf(s: seq<int>, x: int): (i: nat)
    requires x in s
    ensures i < |s| && s[i] == x
    ensures forall j :: 0 <= j < i ==> s[j] != x
  {
    if s[0] == x then 0 else 1 + IndexOf(s[1..], x)
  }

  /** In a strictly ascending list, `index` preserves the order of the values. */
  lemma IndexOfMonotone(s: seq<int>, x: int, y: int)
    requires forall i, j :: 0 <= i < j < |s| ==> s[i] < s[j]
    requires x in s && y in s && x < y
    ensures IndexOf(s, x) < IndexOf(s, y)
  {
  }

  /** `IndexOf(a + b, x)` skips the whole of `a` when `x` is not in it. */
  lemma {:induction false} IndexOfAfterPrefix(a: seq<int>, b: seq<int>, x: int)
    requires x !in a && x in b
    ensures IndexOf(a + b, x) == |a| + IndexOf(b, x)
  {
    if a == [] {
      assert a + b == b;
    } else {
      assert (a + b)[0] == a[0] != x;
      assert (a + b)[1..] == a[1..] + b;
      IndexOfAfterPrefix(a[1..], b, x);
      assert IndexOf(a + b, x) == 1 + IndexOf(a[1..] + b, x);
    }
  }

  /** Which element `key_list[index]` designates for a list of `length`
      elements: a negative index counts from the end, and an index outside
      `-length .. length - 1` raises IndexError (None here). */
  function ListSlot(index: int, length: nat): (r: Option<nat>)
    ensures r.Some? <==> -(length as int) <= index < length
    ensures r.Some? ==> r.value < length && (r.value == index || r.value == index + length)
  {
    if 0 <= index < length then Some(index)
    else if -(length as int) <= index < 0 then Some(index + length)
    else None
  }
}
