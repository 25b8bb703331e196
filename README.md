# Person aggregate: bidirectional association synchronisation

A Dafny model of the Person aggregate of a biographical catalog API
(`api/src/Entity/Person.php`) and of its job rows
(`api/src/Entity/PersonJob.php`).

A `Person` holds eight in-memory collections of association rows:
identity fields, jobs, relatives, social statuses, schools, categories,
pictures and achievements. Every row carries a `person` back-reference.
That reference is the owning side of the relation. Each collection has an
`addX` and a `removeX`:

- `addX(row)` does nothing if the row is already held. Otherwise it appends
  the row and points the row's `person` at this Person.
- `removeX(row)` does nothing if the row is not held. Otherwise it removes the
  row and clears `person`, but only if `person` still points at this Person.
  A row that has since been added to another Person keeps its new owner.

`PersonJob` is a plain record with setters and getters. It has an optional
company, a required title, owner and source, and optional start and end dates.

Layout:

- `collections.dfy`, module `Collections`: Doctrine `ArrayCollection` as the
  model uses it. `contains` is identity membership, `add` appends, and
  `removeElement` removes the first identical element and reports whether it
  found one.
- `entities.dfy`, module `Entities`: the classes `Person` and `PersonJob`;
  the seven other row classes, reduced to their back-reference; `Company` and
  `Source` as opaque references. It also holds the specification functions
  `Attach` and `Detach`. They give what one add or remove does to the pair
  (collection, row's owner). Every `AddX`/`RemoveX` method is proved to act as
  `Attach`/`Detach`. Its `modifies` clause names only its own collection field
  and the row's `person` field. So the name, the timestamps, the other seven
  collections and every other Person are unchanged by construction.
  `Person.Valid()` states that no collection holds a row twice. The
  constructor establishes it and every add/remove keeps it.
- `sync.dfy`, module `Sync`: lemmas about `Attach` and `Detach`. They hold for
  all eight pairs.
- `scenarios.dfy`, module `Scenarios`: call sequences on real objects. These
  are the stale-owner scenario, recording and withdrawing a job, the lifecycle
  methods in order, and the invariant "a job whose owner is set is held by that
  owner". Add and remove keep that invariant for any Person in a set of
  Persons; a direct `setPerson` breaks it.

Properties one might expect of a two-way association that this code does not have:

- Two-way consistency (every held row points back to its holder) is not
  maintained. After `p2` adds a row held by `p1`, `p1` still holds it while it
  points to `p2`. Only a one-way form holds, and only while owners change
  through `addX`/`removeX`: an owner then holds its rows
  (`Scenarios.OwnersHoldJobs`). A direct `setPerson` on the row, which is how
  an API write to a row sets its owner, breaks it
  (`Scenarios.DirectSetPersonIsNotHeld`).
- `createdAt == updatedAt` after creation is not guaranteed. The PrePersist method
  reads the clock twice (`Person.php:417-418`), so `SetCreatedAtValue` takes two
  instants.
- `createdAt` is not write-once. `setCreatedAt` (`Person.php:393-398`) can
  overwrite it. Only the PreUpdate method leaves it alone.
- Adding or removing rows does not refresh `updatedAt`.
- `updatedAt > createdAt` after an update is not guaranteed. The order of the
  instants depends on the wall clock, and the model leaves the clock
  unconstrained, so no ordering is proved. Only "`createdAt` is unchanged"
  holds, and `SetUpdatedAtValue` states it.

## Model

| member | source | states |
|---|---|---|
| `Collections.IndexOf` | api/src/Entity/Person.php:228 | the position of the first element identical to the argument: that element is there and no earlier one is identical; positions count values in order, not the collection's keys |
| `Collections.RemoveElement` | api/src/Entity/Person.php:228 | the returned flag is true exactly when the element is held; the collection loses exactly one element when it is held and is unchanged otherwise |
| `Collections.RemoveElementCutsFirst` | api/src/Entity/Person.php:228 | when the element is held, the result is the collection with its first occurrence cut out and every other element in its original order |
| `Collections.RemoveElementMultiset` | api/src/Entity/Person.php:228 | removing takes exactly one copy of the element out of the collection's multiset and nothing else |
| `Collections.RemoveElementNoDuplicates` | api/src/Entity/Person.php:228 | on a duplicate-free collection, removal leaves it duplicate-free, without the element, and still holding every other element |
| `Collections.AppendNoDuplicates` | api/src/Entity/Person.php:218-219 | appending an element the `contains` guard found absent keeps the collection duplicate-free |
| `Collections.RemoveAppended` | api/src/Entity/Person.php:218-219 | `add` of a new element followed by `removeElement` of it gives back the original collection, and the flag is true |
| `Entities.Attach` | api/src/Entity/Person.php:216-224 | what every `addX` does to (collection, row's owner): a row not held is appended and claimed; a held row leaves both sides unchanged |
| `Entities.Detach` | api/src/Entity/Person.php:226-236 | what every `removeX` does to (collection, row's owner): a held row loses its first occurrence and its owner is cleared only if it was the remover; a row not held changes nothing |
| `Entities.Person.Valid` | api/src/Entity/Person.php:216-219 | no collection holds a row twice, as the `contains` guard before each `add` ensures |
| `Entities.Person.constructor` | api/src/Entity/Person.php:137-147 | a new Person has all eight collections empty, every scalar field null, and satisfies the no-duplicates invariant |
| `Entities.Person.SetName` | api/src/Entity/Person.php:159-164 | stores the (non-null) name, which `GetName` then returns; changes no other field |
| `Entities.Person.SetRomanizedName` | api/src/Entity/Person.php:171-176 | stores the nullable romanized name, which `GetRomanizedName` then returns; changes no other field |
| `Entities.Person.AddPersonIdentityField` | api/src/Entity/Person.php:186-194 | acts as `Attach` on `personIdentityFields` and the row's `person`: a row not yet held is appended at the end and points to this Person; a held row changes nothing; only `personIdentityFields` and the row's `person` may change; no duplicates |
| `Entities.Person.RemovePersonIdentityField` | api/src/Entity/Person.php:196-206 | acts as `Detach` on `personIdentityFields` and the row's `person`: a row not held changes nothing; a held row loses its first occurrence, the rest keep their order, and `person` is cleared only if it pointed to this Person; only `personIdentityFields` and the row's `person` may change |
| `Entities.Person.AddPersonJob` | api/src/Entity/Person.php:216-224 | acts as `Attach` on `personJobs` and the row's `person`: a row not yet held is appended at the end and points to this Person; a held row changes nothing; only `personJobs` and the row's `person` may change; no duplicates |
| `Entities.Person.RemovePersonJob` | api/src/Entity/Person.php:226-236 | acts as `Detach` on `personJobs` and the row's `person`: a row not held changes nothing; a held row loses its first occurrence, the rest keep their order, and `person` is cleared only if it pointed to this Person; only `personJobs` and the row's `person` may change |
| `Entities.Person.AddPersonRelative` | api/src/Entity/Person.php:246-254 | acts as `Attach` on `personRelatives` and the row's `person`: a row not yet held is appended at the end and points to this Person; a held row changes nothing; only `personRelatives` and the row's `person` may change; no duplicates |
| `Entities.Person.RemovePersonRelative` | api/src/Entity/Person.php:256-266 | acts as `Detach` on `personRelatives` and the row's `person`: a row not held changes nothing; a held row loses its first occurrence, the rest keep their order, and `person` is cleared only if it pointed to this Person; only `personRelatives` and the row's `person` may change |
| `Entities.Person.AddPersonSocialStatus` | api/src/Entity/Person.php:276-284 | acts as `Attach` on `personSocialStatuses` and the row's `person`: a row not yet held is appended at the end and points to this Person; a held row changes nothing; only `personSocialStatuses` and the row's `person` may change; no duplicates |
| `Entities.Person.RemovePersonSocialStatus` | api/src/Entity/Person.php:286-296 | acts as `Detach` on `personSocialStatuses` and the row's `person`: a row not held changes nothing; a held row loses its first occurrence, the rest keep their order, and `person` is cleared only if it pointed to this Person; only `personSocialStatuses` and the row's `person` may change |
| `Entities.Person.AddPersonSchool` | api/src/Entity/Person.php:306-314 | acts as `Attach` on `personSchools` and the row's `person`: a row not yet held is appended at the end and points to this Person; a held row changes nothing; only `personSchools` and the row's `person` may change; no duplicates |
| `Entities.Person.RemovePersonSchool` | api/src/Entity/Person.php:316-326 | acts as `Detach` on `personSchools` and the row's `person`: a row not held changes nothing; a held row loses its first occurrence, the rest keep their order, and `person` is cleared only if it pointed to this Person; only `personSchools` and the row's `person` may change |
| `Entities.Person.AddPersonCategory` | api/src/Entity/Person.php:336-344 | acts as `Attach` on `personCategories` and the row's `person`: a row not yet held is appended at the end and points to this Person; a held row changes nothing; only `personCategories` and the row's `person` may change; no duplicates |
| `Entities.Person.RemovePersonCategory` | api/src/Entity/Person.php:346-356 | acts as `Detach` on `personCategories` and the row's `person`: a row not held changes nothing; a held row loses its first occurrence, the rest keep their order, and `person` is cleared only if it pointed to this Person; only `personCategories` and the row's `person` may change |
| `Entities.Person.AddPersonPictures` | api/src/Entity/Person.php:366-374 | acts as `Attach` on `personPictures` and the row's `person`: a row not yet held is appended at the end and points to this Person; a held row changes nothing; only `personPictures` and the row's `person` may change; no duplicates |
| `Entities.Person.RemovePersonPictures` | api/src/Entity/Person.php:376-386 | acts as `Detach` on `personPictures` and the row's `person`: a row not held changes nothing; a held row loses its first occurrence, the rest keep their order, and `person` is cleared only if it pointed to this Person; only `personPictures` and the row's `person` may change |
| `Entities.Person.AddAchievement` | api/src/Entity/Person.php:437-445 | acts as `Attach` on `achievements` and the row's `person`: a row not yet held is appended at the end and points to this Person; a held row changes nothing; only `achievements` and the row's `person` may change; no duplicates |
| `Entities.Person.RemoveAchievement` | api/src/Entity/Person.php:447-457 | acts as `Detach` on `achievements` and the row's `person`: a row not held changes nothing; a held row loses its first occurrence, the rest keep their order, and `person` is cleared only if it pointed to this Person; only `achievements` and the row's `person` may change |
| `Entities.Person.SetCreatedAt` | api/src/Entity/Person.php:393-398 | stores the creation instant, which `GetCreatedAt` then returns; changes no other field |
| `Entities.Person.SetUpdatedAt` | api/src/Entity/Person.php:405-410 | stores the update instant, which `GetUpdatedAt` then returns; changes no other field |
| `Entities.Person.SetCreatedAtValue` | api/src/Entity/Person.php:412-419 | the method marked PrePersist sets both timestamps, each from its own clock reading, and nothing else; a named Person is then persistable |
| `Entities.Person.SetUpdatedAtValue` | api/src/Entity/Person.php:421-427 | the method marked PreUpdate sets only `updatedAt`; `createdAt` is untouched and persistability is kept |
| `Entities.PersonJob.constructor` | api/src/Entity/PersonJob.php:19-54 | a fresh PersonJob has every field null (`id` included, which has no setter) and is not persistable |
| `Entities.PersonJob.SetJob` | api/src/Entity/PersonJob.php:61-66 | stores the nullable title, which `GetJob` then returns; changes no other field |
| `Entities.PersonJob.SetCompany` | api/src/Entity/PersonJob.php:73-78 | stores the company, null allowed (the relation is optional), which `GetCompany` then returns; changes no other field |
| `Entities.PersonJob.SetPerson` | api/src/Entity/PersonJob.php:85-90 | stores the owner, null allowed, which `GetPerson` then returns; changes no other field; with null the job is no longer persistable |
| `Entities.PersonJob.SetSource` | api/src/Entity/PersonJob.php:97-102 | stores the source, null allowed in memory, which `GetSource` then returns; changes no other field; with null the job is not persistable |
| `Entities.PersonJob.SetStartDate` | api/src/Entity/PersonJob.php:109-114 | stores the optional start date, which `GetStartDate` then returns; no ordering against the end date is checked; changes no other field |
| `Entities.PersonJob.SetEndDate` | api/src/Entity/PersonJob.php:121-126 | stores the optional end date, which `GetEndDate` then returns; no ordering against the start date is checked; changes no other field |
| `Entities.Person.Persistable` | api/src/Entity/Person.php:65-128 | a Person can be written only with a name and both timestamps set; the romanized name may be null |
| `Entities.Person.GetId` | api/src/Entity/Person.php:149-152 | reads the identifier, which stays null in memory |
| `Entities.Person.GetName` | api/src/Entity/Person.php:154-157 | reads the stored name; `SetName` is stated through it |
| `Entities.Person.GetRomanizedName` | api/src/Entity/Person.php:166-169 | reads the stored romanized name; `SetRomanizedName` is stated through it |
| `Entities.Person.GetPersonIdentityFields` | api/src/Entity/Person.php:181-184 | reads the collection as a sequence value |
| `Entities.Person.GetPersonJobs` | api/src/Entity/Person.php:211-214 | reads the collection as a sequence value |
| `Entities.Person.GetPersonRelatives` | api/src/Entity/Person.php:241-244 | reads the collection as a sequence value |
| `Entities.Person.GetPersonSocialStatuses` | api/src/Entity/Person.php:271-274 | reads the collection as a sequence value |
| `Entities.Person.GetPersonSchools` | api/src/Entity/Person.php:301-304 | reads the collection as a sequence value |
| `Entities.Person.GetPersonCategories` | api/src/Entity/Person.php:331-334 | reads the collection as a sequence value |
| `Entities.Person.GetPersonPictures` | api/src/Entity/Person.php:361-364 | reads the collection as a sequence value |
| `Entities.Person.GetAchievements` | api/src/Entity/Person.php:432-435 | reads the collection as a sequence value |
| `Entities.Person.GetCreatedAt` | api/src/Entity/Person.php:388-391 | reads the creation instant; `SetCreatedAt` is stated through it |
| `Entities.Person.GetUpdatedAt` | api/src/Entity/Person.php:400-403 | reads the update instant; `SetUpdatedAt` is stated through it |
| `Entities.PersonJob.Persistable` | api/src/Entity/PersonJob.php:25-41 | a job can be written only with a title, an owner and a source; company and both dates may be null |
| `Entities.PersonJob.GetId` | api/src/Entity/PersonJob.php:51-54 | reads the identifier, which has no setter and stays null in memory |
| `Entities.PersonJob.GetJob` | api/src/Entity/PersonJob.php:56-59 | reads the stored field; the matching setter is stated through it |
| `Entities.PersonJob.GetCompany` | api/src/Entity/PersonJob.php:68-71 | reads the stored field; the matching setter is stated through it |
| `Entities.PersonJob.GetPerson` | api/src/Entity/PersonJob.php:80-83 | reads the stored field; the matching setter is stated through it |
| `Entities.PersonJob.GetSource` | api/src/Entity/PersonJob.php:92-95 | reads the stored field; the matching setter is stated through it |
| `Entities.PersonJob.GetStartDate` | api/src/Entity/PersonJob.php:104-107 | reads the stored field; the matching setter is stated through it |
| `Entities.PersonJob.GetEndDate` | api/src/Entity/PersonJob.php:116-119 | reads the stored field; the matching setter is stated through it |
| `Entities.PersonIdentityField.GetPerson` | api/src/Entity/Person.php:200 | reads the back-reference that the remove method compares with the remover |
| `Entities.PersonRelative.GetPerson` | api/src/Entity/Person.php:260 | reads the back-reference that the remove method compares with the remover |
| `Entities.PersonSocialStatus.GetPerson` | api/src/Entity/Person.php:290 | reads the back-reference that the remove method compares with the remover |
| `Entities.PersonSchool.GetPerson` | api/src/Entity/Person.php:320 | reads the back-reference that the remove method compares with the remover |
| `Entities.PersonCategory.GetPerson` | api/src/Entity/Person.php:350 | reads the back-reference that the remove method compares with the remover |
| `Entities.PersonPicture.GetPerson` | api/src/Entity/Person.php:380 | reads the back-reference that the remove method compares with the remover |
| `Entities.Achievement.GetPerson` | api/src/Entity/Person.php:451 | reads the back-reference that the remove method compares with the remover |
| `Entities.PersonIdentityField.SetPerson` | api/src/Entity/Person.php:190 | stores the back-reference (null allowed), which `GetPerson` then returns, as `add`/`remove` of `personIdentityFields` rely on |
| `Entities.PersonRelative.SetPerson` | api/src/Entity/Person.php:250 | stores the back-reference (null allowed), which `GetPerson` then returns, as `add`/`remove` of `personRelatives` rely on |
| `Entities.PersonSocialStatus.SetPerson` | api/src/Entity/Person.php:280 | stores the back-reference (null allowed), which `GetPerson` then returns, as `add`/`remove` of `personSocialStatuses` rely on |
| `Entities.PersonSchool.SetPerson` | api/src/Entity/Person.php:310 | stores the back-reference (null allowed), which `GetPerson` then returns, as `add`/`remove` of `personSchools` rely on |
| `Entities.PersonCategory.SetPerson` | api/src/Entity/Person.php:340 | stores the back-reference (null allowed), which `GetPerson` then returns, as `add`/`remove` of `personCategories` rely on |
| `Entities.PersonPicture.SetPerson` | api/src/Entity/Person.php:370 | stores the back-reference (null allowed), which `GetPerson` then returns, as `add`/`remove` of `personPictures` rely on |
| `Entities.Achievement.SetPerson` | api/src/Entity/Person.php:441 | stores the back-reference (null allowed), which `GetPerson` then returns, as `add`/`remove` of `achievements` rely on |
| `Sync.AttachAppendsAndClaims` | api/src/Entity/Person.php:216-224 | adding a row not held puts it after all existing members, which keep their positions, and makes this Person its owner |
| `Sync.AttachHeldIsNoop` | api/src/Entity/Person.php:216-224 | adding a held row changes neither the collection nor the owner, even a different owner; adding twice equals adding once |
| `Sync.AttachKeepsNoDuplicates` | api/src/Entity/Person.php:216-224 | after adding, the row is held and a duplicate-free collection stays duplicate-free |
| `Sync.DetachAbsentIsNoop` | api/src/Entity/Person.php:226-236 | removing a row not held leaves the collection and the owner unchanged |
| `Sync.DetachRemovesHeld` | api/src/Entity/Person.php:226-236 | removing a held row cuts out its first occurrence keeping the others in order, removes exactly one copy, and nulls the owner exactly when it was the remover (another owner is kept) |
| `Sync.DetachKeepsNoDuplicates` | api/src/Entity/Person.php:226-236 | on a duplicate-free collection the removed row is no longer held and no duplicates appear |
| `Sync.DetachAfterAttach` | api/src/Entity/Person.php:216-236 | adding a row not held then removing it restores the collection and leaves the row without owner |
| `Sync.StaleDetachKeepsNewOwner` | api/src/Entity/Person.php:216-236 | stale-owner guard: after p1 adds, p2 (not holding it) adds and p1 removes, the row is out of p1's collection, in p2's, and owned by p2 |
| `Sync.HeldRowIsNotReclaimed` | api/src/Entity/Person.php:216-236 | when p2 already held the row, its add does not reclaim it, so p1's later remove leaves p2 holding a row with no owner |
| `Scenarios.ReassignThenStaleRemove` | api/src/Entity/Person.php:216-236 | the stale-owner scenario on real objects: p1 no longer holds the job, p2 holds it and owns it, both keep the invariant |
| `Scenarios.RecordJob` | api/src/Entity/PersonJob.php:25-41 | a fresh job given a title and a source and added to a Person is the last of its jobs, points back to it and is persistable |
| `Scenarios.RecordThenWithdrawJob` | api/src/Entity/PersonJob.php:25-41 | recording a job and removing it again restores the Person's jobs and leaves the job ownerless and not persistable |
| `Scenarios.DirectSetPersonIsNotHeld` | api/src/Entity/PersonJob.php:85-90 | setting a job's owner directly gives it an owner that does not hold it, so the owners-hold-their-jobs invariant is broken |
| `Scenarios.AddKeepsOwnersHolding` | api/src/Entity/Person.php:216-224 | `addPersonJob` by any Person keeps: every job whose owner is set is held by that owner |
| `Scenarios.RemoveKeepsOwnersHolding` | api/src/Entity/Person.php:226-236 | `removePersonJob` by any Person keeps: every job whose owner is set is held by that owner |
| `Scenarios.PersistThenUpdate` | api/src/Entity/Person.php:412-427 | PrePersist then PreUpdate leave a named Person persistable with its creation instant from PrePersist and its update instant from PreUpdate |

## Left out

- API Platform resource, filter and serialization-group attributes: framework configuration with no behaviour in these files.
- Doctrine persistence: identity generation (`id` is never assigned in memory), cascades, the `CURRENT_TIMESTAMP` column defaults and the calls that would trigger the lifecycle methods. Non-nullable columns are kept only as the `Persistable()` predicates.
- Wall-clock reads: the lifecycle methods take the instants as parameters.
- Dates and instants are opaque integers; no calendar arithmetic is done in the source.
- `startDate`/`endDate` are mutable `\DateTimeInterface` objects in the source, held by reference; a caller that changes a date object after setting it changes the job's date too. The integer values of the model do not capture that aliasing.
- The collections' integer keys are not modelled, only the order of their values. `removeElement` unsets a key without renumbering the rest, so after a removal a key is not the position in the model; keys matter for `get`/`indexOf` and for whether a gapped collection serialises as a list or as an object.
- Entities.Person.SetCreatedAtValue, Entities.Person.SetUpdatedAtValue: the source marks them as PrePersist/PreUpdate callbacks only with docblock annotations (`Person.php:412-414`, `421-423`), while the entity is mapped with PHP attributes (`#[ORM\HasLifecycleCallbacks]`, `Person.php:23`). An attribute mapping does not read docblocks, so the persistence layer probably never calls them. Whether and when they run is not modelled; the model states what their bodies do when called.
- The getters of collections return the live `Collection` object in the source, so a caller could change it behind the aggregate's back. In the model they return the sequence as a value, so the no-duplicates invariant cannot be broken that way.
- The fluent `return $this` of every setter and add/remove method is not modelled; nothing in the model chains calls.
- PersonIdentityField, PersonRelative, PersonSocialStatus, PersonSchool, PersonCategory, PersonPicture and Achievement are not part of this model beyond the `person` back-reference that Person.php reads and writes. Their source is not part of this model: their constructors are taken to start with a null reference, and their `getPerson`/`setPerson` to be a plain read and a plain store, like `PersonJob.php:80-90`.
- Company and Source are lookup entities whose contents are not part of this model.
- Scenarios.AddKeepsOwnersHolding, Scenarios.RemoveKeepsOwnersHolding: stated for the jobs collection only; the other seven pairs go through the same `Attach`/`Detach` and the same argument applies.
- The controllers, the search filter, the repositories and the web front end are not part of this model.
