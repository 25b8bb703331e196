/**
  Properties of the add/remove step shared by all eight Person collections.
  Each `Person.AddX`/`Person.RemoveX` method is proved to act as `Attach`/
  `Detach` on its own collection and on the row's `person` field, so what is
  proved here holds for every pair.
 */
module Sync {
  import opened Collections
  import opened Entities

  /** Adding a row that is not held appends it after the existing members and claims it. */
  lemma AttachAppendsAndClaims<T>(members: seq<T>, owner: Person?, self: Person, item: T)
    requires item !in members
    ensures var r := Attach(members, owner, self, item);
      && |r.members| == |members| + 1
      && r.members[..|members|] == members
      && r.members[|members|] == item
      && r.owner == self
  {
    assert (members + [item])[..|members|] == members;
  }

  /**
    Adding a row that is already held changes nothing: no second copy, and
    the owning side is not reset even when it points to another Person.
    Hence adding twice is the same as adding once.
   */
  lemma AttachHeldIsNoop<T>(members: seq<T>, owner: Person?, self: Person, item: T)
    ensures item in members ==> Attach(members, owner, self, item) == Link(members, owner)
    ensures var r := Attach(members, owner, self, item);
      Attach(r.members, r.owner, self, item) == r
  {
  }

  /** After adding, the row is held, and a duplicate-free collection stays duplicate-free. */
  lemma AttachKeepsNoDuplicates<T>(members: seq<T>, owner: Person?, self: Person, item: T)
    requires NoDuplicates(members)
    ensures item in Attach(members, owner, self, item).members
    ensures NoDuplicates(Attach(members, owner, self, item).members)
  {
    if item !in members {
      AppendNoDuplicates(members, item);
    }
  }

  /** Removing a row that is not held changes neither the collection nor the row's owner. */
  lemma DetachAbsentIsNoop<T>(members: seq<T>, owner: Person?, self: Person, item: T)
    requires item !in members
    ensures Detach(members, owner, self, item) == Link(members, owner)
  {
  }

  /**
    Removing a held row takes out its first occurrence and keeps the other
    members in their order; the owning side becomes null exactly when it
    pointed to the remover, and is otherwise left as it was.
   */
  lemma DetachRemovesHeld<T>(members: seq<T>, owner: Person?, self: Person, item: T)
    requires item in members
    ensures var r := Detach(members, owner, self, item);
      && r.members == members[..IndexOf(members, item)] + members[IndexOf(members, item) + 1..]
      && multiset(r.members) == multiset(members) - multiset{item}
      && (r.owner == null <==> owner == self || owner == null)
      && (owner != self ==> r.owner == owner)
  {
    RemoveElementCutsFirst(members, item);
    RemoveElementMultiset(members, item);
  }

  /** On a duplicate-free collection the removed row is gone, and the rest stays duplicate-free. */
  lemma DetachKeepsNoDuplicates<T>(members: seq<T>, owner: Person?, self: Person, item: T)
    requires NoDuplicates(members)
    ensures item !in Detach(members, owner, self, item).members
    ensures NoDuplicates(Detach(members, owner, self, item).members)
  {
    RemoveElementNoDuplicates(members, item);
  }

  /** Adding a row that was not held and then removing it restores the collection and leaves the row unowned. */
  lemma DetachAfterAttach<T>(members: seq<T>, owner: Person?, self: Person, item: T)
    requires item !in members
    ensures var a := Attach(members, owner, self, item);
      Detach(a.members, a.owner, self, item) == Link(members, null)
  {
    RemoveAppended(members, item);
  }

  /**
    The stale-owner guard. `p1` adds a row, `p2` (which did not hold it) then
    adds it too, which re-points the row to `p2` but leaves it in `p1`'s
    collection. When `p1` later removes it, the row leaves `p1`'s collection,
    stays in `p2`'s, and keeps `p2` as its owner.
   */
  lemma StaleDetachKeepsNewOwner<T>(m1: seq<T>, m2: seq<T>, owner: Person?, p1: Person, p2: Person, item: T)
    requires p1 != p2
    requires NoDuplicates(m1)
    requires item !in m2
    ensures var a := Attach(m1, owner, p1, item);
      var b := Attach(m2, a.owner, p2, item);
      var c := Detach(a.members, b.owner, p1, item);
      && item in a.members
      && item in b.members
      && item !in c.members
      && c.owner == p2
  {
    var a := Attach(m1, owner, p1, item);
    AttachKeepsNoDuplicates(m1, owner, p1, item);
    DetachKeepsNoDuplicates(a.members, p2, p1, item);
  }

  /**
    The limit of the guard: when `p2` already held the row (with `p1` as its
    owner), `p2`'s add does not reclaim it, so `p1`'s later remove clears the
    owner although `p2` still holds the row.
   */
  lemma HeldRowIsNotReclaimed<T>(m1: seq<T>, m2: seq<T>, owner: Person?, p1: Person, p2: Person, item: T)
    requires p1 != p2
    requires NoDuplicates(m1)
    requires item in m2 && item !in m1
    ensures var a := Attach(m1, owner, p1, item);
      var b := Attach(m2, a.owner, p2, item);
      var c := Detach(a.members, b.owner, p1, item);
      && item in b.members
      && item !in c.members
      && c.owner == null
  {
    var a := Attach(m1, owner, p1, item);
    AttachKeepsNoDuplicates(m1, owner, p1, item);
    DetachKeepsNoDuplicates(a.members, p1, p1, item);
  }
}
