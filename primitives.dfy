/** Small shared types: the protocol's byte and an optional value. */
module Primitives {

  /** An unsigned 8-bit value (the C# `byte` used for reason and result codes). */
  newtype byte = x: int | 0 <= x < 256

  datatype Option<+T> = None | Some(value: T)

  /** No element occurs twice. */
  ghost predicate NoDuplicates<T>(s: seq<T>) {
    forall i, j :: 0 <= i < j < |s| ==> s[i] != s[j]
  }

  /**
   * List<T>.Remove: drop the first occurrence of `x`, if any; the rest keeps
   * its order.
   */
  function RemoveFirst<T(==)>(s: seq<T>, x: T): (r: seq<T>)
    ensures x !in s ==> r == s
  {
    if s == [] then []
    else if s[0] == x then s[1..]
    else [s[0]] + RemoveFirst(s[1..], x)
  }

  /** Removing takes exactly one occurrence of `x` away, and nothing else. */
  lemma {:induction false} RemoveFirstCounts<T>(s: seq<T>, x: T)
    ensures multiset(RemoveFirst(s, x)) == multiset(s) - multiset{x}
  {
    if s != [] {
      assert s == [s[0]] + s[1..];
      if s[0] != x {
        RemoveFirstCounts(s[1..], x);
      }
    }
  }

  /** Removing from a list without duplicates leaves one without duplicates, and without `x`. */
  lemma {:induction false} RemoveFirstDistinct<T>(s: seq<T>, x: T)
    requires NoDuplicates(s)
    ensures NoDuplicates(RemoveFirst(s, x)) && x !in RemoveFirst(s, x)
  {
    if s != [] {
      var tail := s[1..];
      TailDistinct(s);
      if s[0] != x {
        RemoveFirstDistinct(tail, x);
        var r := RemoveFirst(tail, x);
        assert s[0] !in r by {
          RemoveFirstCounts(tail, x);
          assert multiset(r)[s[0]] <= multiset(tail)[s[0]] == 0;
        }
        ConsFresh(s[0], r);
      }
    }
  }

  /** The tail of a list without duplicates has none and lacks the head. */
  lemma TailDistinct<T>(s: seq<T>)
    requires NoDuplicates(s) && s != []
    ensures NoDuplicates(s[1..]) && s[0] !in s[1..]
  {
    var tail := s[1..];
    forall i, j | 0 <= i < j < |tail| ensures tail[i] != tail[j] {
      assert tail[i] == s[i + 1] && tail[j] == s[j + 1];
    }
  }

  /** Putting a fresh element in front keeps a list free of duplicates. */
  lemma ConsFresh<T>(x: T, s: seq<T>)
    requires NoDuplicates(s) && x !in s
    ensures NoDuplicates([x] + s)
  {
    forall i, j | 0 <= i < j < |[x] + s| ensures ([x] + s)[i] != ([x] + s)[j] {
      assert ([x] + s)[j] == s[j - 1];
      if i > 0 {
        assert ([x] + s)[i] == s[i - 1];
      }
    }
  }

  /** When `x` occurs in `s`, removing it from `s + t` leaves `t` alone. */
  lemma {:induction false} RemoveFirstAppend<T>(s: seq<T>, t: seq<T>, x: T)
    requires x in s
    ensures RemoveFirst(s + t, x) == RemoveFirst(s, x) + t
  {
    assert (s + t)[0] == s[0] && (s + t)[1..] == s[1..] + t;
    if s[0] != x {
      RemoveFirstAppend(s[1..], t, x);
    }
  }

  /** Appending `x` to a list without it and then removing `x` gives the list back. */
  lemma {:induction false} RemoveAppended<T>(s: seq<T>, x: T)
    requires x !in s
    ensures RemoveFirst(s + [x], x) == s
  {
    if s == [] {
      assert s + [x] == [x];
    } else {
      assert (s + [x])[0] == s[0] && (s + [x])[1..] == s[1..] + [x];
      RemoveAppended(s[1..], x);
    }
  }

  /** Appending an element not yet present keeps a list free of duplicates. */
  lemma AppendFresh<T>(s: seq<T>, x: T)
    requires NoDuplicates(s) && x !in s
    ensures NoDuplicates(s + [x])
  {
    forall i, j | 0 <= i < j < |s + [x]| ensures (s + [x])[i] != (s + [x])[j] {
      if j == |s| {
        assert (s + [x])[i] == s[i];
      }
    }
  }

  /**
   * Appending `c` and then removing its first occurrence moves `c` to the back
   * of a list without duplicates: it is then listed exactly once, and the list
   * still has no duplicates and gains no other element.
   */
  lemma MoveToBack<T>(s: seq<T>, c: T, y: T)
    requires NoDuplicates(s) && y !in s && y != c
    ensures var r := RemoveFirst(s, c) + [c];
      && (if c in s then RemoveFirst(s + [c], c) else s + [c]) == r
      && NoDuplicates(r) && y !in r && multiset(r)[c] == 1
  {
    RemoveFirstDistinct(s, c);
    RemoveFirstCounts(s, c);
    var r0 := RemoveFirst(s, c);
    assert multiset(r0)[y] <= multiset(s)[y] == 0;
    AppendFresh(r0, c);
    if c in s {
      RemoveFirstAppend(s, [c], c);
    }
  }
}
