/**
 * The navigation stack as a sequence of screens, bottom first, and the two
 * array operations the navigation handler uses on it: `index(of:)` and
 * `remove(at:)`.
 */
module NavigationStack {
  import opened Optional

  /** `index(of:)`: the position of the first occurrence of `x`, if any. */
  function FirstIndexOf<T(==)>(s: seq<T>, x: T): (r: Option<nat>)
    ensures r.None? <==> x !in s
    ensures r.Some? ==> r.value < |s| && s[r.value] == x && x !in s[..r.value]
  {
    if s == [] then None
    else if s[0] == x then Some(0)
    else
      match FirstIndexOf(s[1..], x)
      case None => None
      case Some(i) =>
        assert s[..i + 1] == [s[0]] + s[1..][..i];
        Some(i + 1)
  }

  /** `remove(at:)`: `s` without its element at position `i`. */
  function RemoveAt<T>(s: seq<T>, i: nat): (r: seq<T>)
    requires i < |s|
    ensures |r| == |s| - 1
    ensures forall j :: 0 <= j < i ==> r[j] == s[j]
    ensures forall j :: i <= j < |r| ==> r[j] == s[j + 1]
  {
    s[..i] + s[i + 1..]
  }

  /** Reference definition: `s` with the first occurrence of `x` taken out. */
  function RemoveFirst<T(==)>(s: seq<T>, x: T): seq<T>
  {
    if s == [] then []
    else if s[0] == x then s[1..]
    else [s[0]] + RemoveFirst(s[1..], x)
  }

  /** Every element of `s` other than `x`, in order. */
  function Without<T(==)>(s: seq<T>, x: T): seq<T>
  {
    if s == [] then []
    else if s[0] == x then Without(s[1..], x)
    else [s[0]] + Without(s[1..], x)
  }

  /** Looking the element up and removing it at that index is the reference removal. */
  lemma {:induction false} RemoveAtFirstIndex<T>(s: seq<T>, x: T)
    ensures FirstIndexOf(s, x).None? ==> RemoveFirst(s, x) == s
    ensures FirstIndexOf(s, x).Some? ==> RemoveAt(s, FirstIndexOf(s, x).value) == RemoveFirst(s, x)
  {
    if s != [] && s[0] != x {
      RemoveAtFirstIndex(s[1..], x);
      match FirstIndexOf(s[1..], x)
      case None =>
        assert RemoveFirst(s, x) == [s[0]] + s[1..] == s;
      case Some(i) =>
        assert RemoveAt(s, i + 1) == [s[0]] + RemoveAt(s[1..], i);
    }
  }

  /** Removing the first `x` drops exactly one `x` when there is one, and nothing else. */
  lemma {:induction false} RemoveFirstMultiset<T>(s: seq<T>, x: T)
    ensures multiset(RemoveFirst(s, x)) == multiset(s) - multiset{x}
    ensures x in s ==> |RemoveFirst(s, x)| == |s| - 1
    ensures x !in s ==> RemoveFirst(s, x) == s
  {
    if s != [] {
      assert s == [s[0]] + s[1..];
      if s[0] != x {
        RemoveFirstMultiset(s[1..], x);
      }
    }
  }

  /** The entries other than `x` keep their relative order. */
  lemma {:induction false} RemoveFirstKeepsOthers<T>(s: seq<T>, x: T)
    ensures Without(RemoveFirst(s, x), x) == Without(s, x)
  {
    if s != [] && s[0] != x {
      RemoveFirstKeepsOthers(s[1..], x);
      assert ([s[0]] + RemoveFirst(s[1..], x))[1..] == RemoveFirst(s[1..], x);
    }
  }
}
