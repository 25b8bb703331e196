/**
  The behaviour of Doctrine's ArrayCollection that the Person aggregate relies
  on, over a sequence of references compared by identity:
  - `contains` is strict membership (`x in s`),
  - `add` appends (`s + [x]`),
  - `removeElement` drops the first identical element and reports whether it
    found one.
 */
module Collections {

  /** No reference occurs twice in the collection. */
  ghost predicate NoDuplicates<T>(s: seq<T>) {
    forall i, j :: 0 <= i < j < |s| ==> s[i] != s[j]
  }

  /** Position, in the order of the values, of the first element identical to `x`. */
  function IndexOf<T(==)>(s: seq<T>, x: T): (k: nat)
    requires x in s
    ensures k < |s| && s[k] == x
    ensures x !in s[..k]
  {
    if s[0] == x then 0
    else
      var k' := IndexOf(s[1..], x);
      assert s[..k' + 1] == [s[0]] + s[1..][..k'];
      k' + 1
  }

  /**
    The collection after `removeElement(x)`, paired with the boolean that
    `removeElement` returns. The scan looks for an identical element from the front.
   */
  function RemoveElement<T(==)>(s: seq<T>, x: T): (r: (seq<T>, bool))
    ensures r.1 <==> x in s
    ensures !r.1 ==> r.0 == s
    ensures |r.0| == if r.1 then |s| - 1 else |s|
  {
    if s == [] then (s, false)
    else if s[0] == x then (s[1..], true)
    else
      var r' := RemoveElement(s[1..], x);
      ([s[0]] + r'.0, r'.1)
  }

  /** What is removed is the first occurrence; the elements before and after it keep their order. */
  lemma {:induction false} RemoveElementCutsFirst<T>(s: seq<T>, x: T)
    requires x in s
    ensures RemoveElement(s, x).0 == s[..IndexOf(s, x)] + s[IndexOf(s, x) + 1..]
  {
    if s[0] != x {
      assert x in s[1..] by {
        var k := IndexOf(s, x);
        assert s[1..][k - 1] == x;
      }
      RemoveElementCutsFirst(s[1..], x);
      var k' := IndexOf(s[1..], x);
      assert s[..k' + 1] == [s[0]] + s[1..][..k'];
      assert s[k' + 2..] == s[1..][k' + 1..];
    }
  }

  /** Removing takes exactly one copy of `x` out of the multiset of elements, and nothing else. */
  lemma {:induction false} RemoveElementMultiset<T>(s: seq<T>, x: T)
    ensures multiset(RemoveElement(s, x).0) == multiset(s) - multiset{x}
  {
    if s != [] {
      assert s == [s[0]] + s[1..];
      if s[0] != x {
        RemoveElementMultiset(s[1..], x);
      }
    }
  }

  /**
    On a duplicate-free collection, removing `x` leaves a duplicate-free
    collection that no longer holds `x` and still holds every other element.
   */
  lemma {:induction false} RemoveElementNoDuplicates<T>(s: seq<T>, x: T)
    requires NoDuplicates(s)
    ensures NoDuplicates(RemoveElement(s, x).0)
    ensures x !in RemoveElement(s, x).0
    ensures forall y :: y != x ==> (y in RemoveElement(s, x).0 <==> y in s)
  {
    if s != [] {
      assert s == [s[0]] + s[1..];
      assert s[0] !in s[1..] by {
        forall i | 0 <= i < |s[1..]| ensures s[1..][i] != s[0] {
          assert s[1..][i] == s[i + 1];
        }
      }
      if s[0] != x {
        assert NoDuplicates(s[1..]) by {
          forall i, j | 0 <= i < j < |s[1..]| ensures s[1..][i] != s[1..][j] {
            assert s[1..][i] == s[i + 1] && s[1..][j] == s[j + 1];
          }
        }
        RemoveElementNoDuplicates(s[1..], x);
        var rest := RemoveElement(s[1..], x).0;
        assert RemoveElement(s, x).0 == [s[0]] + rest;
        assert s[0] !in rest;
        forall i, j | 0 <= i < j < |[s[0]] + rest| ensures ([s[0]] + rest)[i] != ([s[0]] + rest)[j] {
          if i > 0 {
            assert ([s[0]] + rest)[i] == rest[i - 1] && ([s[0]] + rest)[j] == rest[j - 1];
          } else {
            assert ([s[0]] + rest)[j] in rest;
          }
        }
      } else {
        assert NoDuplicates(s[1..]) by {
          forall i, j | 0 <= i < j < |s[1..]| ensures s[1..][i] != s[1..][j] {
            assert s[1..][i] == s[i + 1] && s[1..][j] == s[j + 1];
          }
        }
      }
    }
  }

  /** Appending an element not yet present keeps a collection duplicate-free. */
  lemma AppendNoDuplicates<T>(s: seq<T>, x: T)
    requires NoDuplicates(s) && x !in s
    ensures NoDuplicates(s + [x])
  {
  }

  /** `add` followed by `removeElement` of the same new element gives the collection back. */
  lemma {:induction false} RemoveAppended<T>(s: seq<T>, x: T)
    requires x !in s
    ensures RemoveElement(s + [x], x) == (s, true)
  {
    if s != [] {
      assert (s + [x])[0] == s[0];
      assert (s + [x])[1..] == s[1..] + [x];
      assert x !in s[1..];
      RemoveAppended(s[1..], x);
      assert [s[0]] + s[1..] == s;
    }
  }
}
