/**
  Client-side uses of the Person aggregate on the heap: sequences of calls
  whose outcome follows from the method contracts alone, and the invariant
  that the add/remove pairs keep across a set of Persons and jobs.
 */
module Scenarios {
  import opened Collections
  import opened Entities
  import opened Sync

  /**
    Reassignment followed by a stale remove: `p1` adds `j`, `p2` adds it, and
    `p1` removes it. `p2` keeps both the row and the ownership.
   */
  method ReassignThenStaleRemove(p1: Person, p2: Person, j: PersonJob)
    requires p1 != p2 && p1.Valid() && p2.Valid()
    requires j !in p2.personJobs
    modifies p1`personJobs, p2`personJobs, j`person
    ensures p1.Valid() && p2.Valid()
    ensures j !in p1.personJobs
    ensures j in p2.personJobs && j.person == p2
  {
    ghost var m1, m2, o := p1.personJobs, p2.personJobs, j.person;
    p1.AddPersonJob(j);
    p2.AddPersonJob(j);
    p1.RemovePersonJob(j);
    StaleDetachKeepsNewOwner(m1, m2, o, p1, p2, j);
  }

  /**
    Recording a job: a fresh PersonJob with a title and a source, added to
    `p`, is the last member of `p`'s jobs, points back to `p` and has every
    non-nullable column set.
   */
  method RecordJob(p: Person, title: string, source: Source) returns (j: PersonJob)
    requires p.Valid()
    modifies p`personJobs
    ensures fresh(j) && p.Valid()
    ensures p.personJobs == old(p.personJobs) + [j]
    ensures j.person == p && j.job == Some(title) && j.source == source
    ensures j.Persistable()
  {
    j := new PersonJob();
    j.SetJob(Some(title));
    j.SetSource(source);
    p.AddPersonJob(j);
  }

  /**
    Recording a job and removing it again restores `p`'s jobs and leaves the
    job without an owner, so it can no longer be written.
   */
  method RecordThenWithdrawJob(p: Person, title: string, source: Source) returns (j: PersonJob)
    requires p.Valid()
    modifies p`personJobs
    ensures fresh(j) && p.Valid()
    ensures p.personJobs == old(p.personJobs)
    ensures j.person == null && j.job == Some(title) && j.source == source
    ensures !j.Persistable()
  {
    ghost var before := p.personJobs;
    j := RecordJob(p, title, source);
    p.RemovePersonJob(j);
    DetachAfterAttach(before, null, p, j);
  }

  /**
    Setting the owning side directly, as a write to the job row does, gives
    the job an owner that does not hold it: the one-way consistency below
    holds only while owners change through `addX`/`removeX`.
   */
  method DirectSetPersonIsNotHeld() returns (p: Person, j: PersonJob)
    ensures j.person == p && j !in p.personJobs
    ensures !OwnersHoldJobs({p}, {j})
  {
    p := new Person();
    j := new PersonJob();
    j.SetPerson(p);
  }

  /**
    The one-way consistency the add/remove pairs maintain: a job whose
    owning side is set is held by that Person. It holds only while owners
    change through `addX`/`removeX` (a direct `setPerson` breaks it), and the
    converse does not hold: after a reassignment the former owner still
    holds the job.
   */
  ghost predicate OwnersHoldJobs(persons: set<Person>, jobs: set<PersonJob>)
    reads persons, jobs
  {
    forall j :: j in jobs && j.person != null ==> j.person in persons && j in j.person.personJobs
  }

  /** `addPersonJob` by any Person of the set keeps every owner holding its jobs. */
  method AddKeepsOwnersHolding(persons: set<Person>, jobs: set<PersonJob>, p: Person, j: PersonJob)
    requires p in persons && j in jobs && p.Valid()
    requires OwnersHoldJobs(persons, jobs)
    modifies p`personJobs, j`person
    ensures p.Valid() && OwnersHoldJobs(persons, jobs)
  {
    p.AddPersonJob(j);
  }

  /** `removePersonJob` by any Person of the set keeps every owner holding its jobs. */
  method RemoveKeepsOwnersHolding(persons: set<Person>, jobs: set<PersonJob>, p: Person, j: PersonJob)
    requires p in persons && j in jobs && p.Valid()
    requires OwnersHoldJobs(persons, jobs)
    modifies p`personJobs, j`person
    ensures p.Valid() && OwnersHoldJobs(persons, jobs)
  {
    RemoveElementNoDuplicates(p.personJobs, j);
    p.RemovePersonJob(j);
  }

  /** The lifecycle methods in order, PrePersist then PreUpdate, keep the creation instant. */
  method PersistThenUpdate(p: Person, name: string, createdNow: Instant, updatedNow: Instant, laterNow: Instant)
    modifies p`name, p`createdAt, p`updatedAt
    ensures p.Persistable()
    ensures p.createdAt == Some(createdNow) && p.updatedAt == Some(laterNow)
  {
    p.SetName(name);
    p.SetCreatedAtValue(createdNow, updatedNow);
    p.SetUpdatedAtValue(laterNow);
  }
}
