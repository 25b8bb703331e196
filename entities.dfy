/**
  The Person aggregate and its association entities.

  `Person` holds eight in-memory collections of association rows. Each row
  carries a `person` back-reference (the owning side of the relation).
  `addX`/`removeX` keep the two sides in step: adding claims the row,
  removing releases it, but only when the row still points to this Person.

  Person and PersonJob refer to each other, so they share this module.
 */
module Entities {
  import opened Collections

  datatype Option<T> = None | Some(value: T)

  /** A `DateTimeImmutable` reading; instants are opaque and only compared for equality. */
  type Instant = int

  /** A calendar date; no calendar arithmetic is done on it. */
  type Date = int

  /** Lookup entities referenced by PersonJob; their contents are not modelled. */
  class Company { }
  class Source { }

  /**
    The state one add/remove step acts on: the inverse side (a Person's
    collection) and the owning side (the item's `person` reference).
   */
  datatype Link<T> = Link(members: seq<T>, owner: Person?)

  /** What `addX(item)` on `self` does: append and claim, unless already held. */
  function Attach<T(==)>(members: seq<T>, owner: Person?, self: Person, item: T): (r: Link<T>) {
    if item in members then Link(members, owner) else Link(members + [item], self)
  }

  /** What `removeX(item)` on `self` does: remove if held, and clear the owner only if it is `self`. */
  function Detach<T(==)>(members: seq<T>, owner: Person?, self: Person, item: T): (r: Link<T>) {
    var removed := RemoveElement(members, item);
    if removed.1 then Link(removed.0, if owner == self then null else owner) else Link(members, owner)
  }

  class Person {
    var id: Option<int>
    var name: Option<string>
    var romanizedName: Option<string>
    var personIdentityFields: seq<PersonIdentityField>
    var personJobs: seq<PersonJob>
    var personRelatives: seq<PersonRelative>
    var personSocialStatuses: seq<PersonSocialStatus>
    var personSchools: seq<PersonSchool>
    var personCategories: seq<PersonCategory>
    var personPictures: seq<PersonPicture>
    var createdAt: Option<Instant>
    var updatedAt: Option<Instant>
    var achievements: seq<Achievement>

    /** Every collection is guarded by `contains` on add, so none holds a row twice. */
    ghost predicate Valid()
      reads this
    {
      && NoDuplicates(personIdentityFields)
      && NoDuplicates(personJobs)
      && NoDuplicates(personRelatives)
      && NoDuplicates(personSocialStatuses)
      && NoDuplicates(personSchools)
      && NoDuplicates(personCategories)
      && NoDuplicates(personPictures)
      && NoDuplicates(achievements)
    }

    /** The columns that may not be null when the row is written: name and both timestamps. */
    predicate Persistable()
      reads this
    {
      name.Some? && createdAt.Some? && updatedAt.Some?
    }

    constructor ()
      ensures Valid()
      ensures id == None && name == None && romanizedName == None
      ensures createdAt == None && updatedAt == None
      ensures personIdentityFields == [] && personJobs == [] && personRelatives == []
      ensures personSocialStatuses == [] && personSchools == [] && personCategories == []
      ensures personPictures == [] && achievements == []
    {
      id, name, romanizedName := None, None, None;
      createdAt, updatedAt := None, None;
      personIdentityFields, personJobs, personRelatives := [], [], [];
      personSocialStatuses, personSchools, personCategories := [], [], [];
      personPictures, achievements := [], [];
    }

    function GetId(): (r: Option<int>)
      reads this
    {
      id
    }

    function GetName(): (r: Option<string>)
      reads this
    {
      name
    }

    /** `setName` takes a non-null string. */
    method SetName(name: string)
      modifies this`name
      ensures GetName() == Some(name)
    {
      this.name := Some(name);
    }

    function GetRomanizedName(): (r: Option<string>)
      reads this
    {
      romanizedName
    }

    method SetRomanizedName(romanizedName: Option<string>)
      modifies this`romanizedName
      ensures GetRomanizedName() == romanizedName
    {
      this.romanizedName := romanizedName;
    }

    function GetPersonIdentityFields(): (r: seq<PersonIdentityField>)
      reads this
    {
      personIdentityFields
    }

    /** `addPersonIdentityField`: append `personIdentityField` unless it is already held, then point its owning side here. */
    method AddPersonIdentityField(personIdentityField: PersonIdentityField)
      requires Valid()
      modifies this`personIdentityFields, personIdentityField`person
      ensures Valid()
      ensures Link(personIdentityFields, personIdentityField.person) == Attach(old(personIdentityFields), old(personIdentityField.person), this, personIdentityField)
    {
      if personIdentityField !in personIdentityFields {
        AppendNoDuplicates(personIdentityFields, personIdentityField);
        personIdentityFields := personIdentityFields + [personIdentityField];
        personIdentityField.SetPerson(this);
      }
    }

    /** `removePersonIdentityField`: drop `personIdentityField` if held; clear its owning side only if it still points here. */
    method RemovePersonIdentityField(personIdentityField: PersonIdentityField)
      requires Valid()
      modifies this`personIdentityFields, personIdentityField`person
      ensures Valid()
      ensures Link(personIdentityFields, personIdentityField.person) == Detach(old(personIdentityFields), old(personIdentityField.person), this, personIdentityField)
    {
      var r := RemoveElement(personIdentityFields, personIdentityField);
      RemoveElementNoDuplicates(personIdentityFields, personIdentityField);
      personIdentityFields := r.0;
      if r.1 {
        if personIdentityField.GetPerson() == this {
          personIdentityField.SetPerson(null);
        }
      }
    }

    function GetPersonJobs(): (r: seq<PersonJob>)
      reads this
    {
      personJobs
    }

    /** `addPersonJob`: append `personJob` unless it is already held, then point its owning side here. */
    method AddPersonJob(personJob: PersonJob)
      requires Valid()
      modifies this`personJobs, personJob`person
      ensures Valid()
      ensures Link(personJobs, personJob.person) == Attach(old(personJobs), old(personJob.person), this, personJob)
    {
      if personJob !in personJobs {
        AppendNoDuplicates(personJobs, personJob);
        personJobs := personJobs + [personJob];
        personJob.SetPerson(this);
      }
    }

    /** `removePersonJob`: drop `personJob` if held; clear its owning side only if it still points here. */
    method RemovePersonJob(personJob: PersonJob)
      requires Valid()
      modifies this`personJobs, personJob`person
      ensures Valid()
      ensures Link(personJobs, personJob.person) == Detach(old(personJobs), old(personJob.person), this, personJob)
    {
      var r := RemoveElement(personJobs, personJob);
      RemoveElementNoDuplicates(personJobs, personJob);
      personJobs := r.0;
      if r.1 {
        if personJob.GetPerson() == this {
          personJob.SetPerson(null);
        }
      }
    }

    function GetPersonRelatives(): (r: seq<PersonRelative>)
      reads this
    {
      personRelatives
    }

    /** `addPersonRelative`: append `personRelative` unless it is already held, then point its owning side here. */
    method AddPersonRelative(personRelative: PersonRelative)
      requires Valid()
      modifies this`personRelatives, personRelative`person
      ensures Valid()
      ensures Link(personRelatives, personRelative.person) == Attach(old(personRelatives), old(personRelative.person), this, personRelative)
    {
      if personRelative !in personRelatives {
        AppendNoDuplicates(personRelatives, personRelative);
        personRelatives := personRelatives + [personRelative];
        personRelative.SetPerson(this);
      }
    }

    /** `removePersonRelative`: drop `personRelative` if held; clear its owning side only if it still points here. */
    method RemovePersonRelative(personRelative: PersonRelative)
      requires Valid()
      modifies this`personRelatives, personRelative`person
      ensures Valid()
      ensures Link(personRelatives, personRelative.person) == Detach(old(personRelatives), old(personRelative.person), this, personRelative)
    {
      var r := RemoveElement(personRelatives, personRelative);
      RemoveElementNoDuplicates(personRelatives, personRelative);
      personRelatives := r.0;
      if r.1 {
        if personRelative.GetPerson() == this {
          personRelative.SetPerson(null);
        }
      }
    }

    function GetPersonSocialStatuses(): (r: seq<PersonSocialStatus>)
      reads this
    {
      personSocialStatuses
    }

    /** `addPersonSocialStatus`: append `personSocialStatus` unless it is already held, then point its owning side here. */
    method AddPersonSocialStatus(personSocialStatus: PersonSocialStatus)
      requires Valid()
      modifies this`personSocialStatuses, personSocialStatus`person
      ensures Valid()
      ensures Link(personSocialStatuses, personSocialStatus.person) == Attach(old(personSocialStatuses), old(personSocialStatus.person), this, personSocialStatus)
    {
      if personSocialStatus !in personSocialStatuses {
        AppendNoDuplicates(personSocialStatuses, personSocialStatus);
        personSocialStatuses := personSocialStatuses + [personSocialStatus];
        personSocialStatus.SetPerson(this);
      }
    }

    /** `removePersonSocialStatus`: drop `personSocialStatus` if held; clear its owning side only if it still points here. */
    method RemovePersonSocialStatus(personSocialStatus: PersonSocialStatus)
      requires Valid()
      modifies this`personSocialStatuses, personSocialStatus`person
      ensures Valid()
      ensures Link(personSocialStatuses, personSocialStatus.person) == Detach(old(personSocialStatuses), old(personSocialStatus.person), this, personSocialStatus)
    {
      var r := RemoveElement(personSocialStatuses, personSocialStatus);
      RemoveElementNoDuplicates(personSocialStatuses, personSocialStatus);
      personSocialStatuses := r.0;
      if r.1 {
        if personSocialStatus.GetPerson() == this {
          personSocialStatus.SetPerson(null);
        }
      }
    }

    function GetPersonSchools(): (r: seq<PersonSchool>)
      reads this
    {
      personSchools
    }

    /** `addPersonSchool`: append `personSchool` unless it is already held, then point its owning side here. */
    method AddPersonSchool(personSchool: PersonSchool)
      requires Valid()
      modifies this`personSchools, personSchool`person
      ensures Valid()
      ensures Link(personSchools, personSchool.person) == Attach(old(personSchools), old(personSchool.person), this, personSchool)
    {
      if personSchool !in personSchools {
        AppendNoDuplicates(personSchools, personSchool);
        personSchools := personSchools + [personSchool];
        personSchool.SetPerson(this);
      }
    }

    /** `removePersonSchool`: drop `personSchool` if held; clear its owning side only if it still points here. */
    method RemovePersonSchool(personSchool: PersonSchool)
      requires Valid()
      modifies this`personSchools, personSchool`person
      ensures Valid()
      ensures Link(personSchools, personSchool.person) == Detach(old(personSchools), old(personSchool.person), this, personSchool)
    {
      var r := RemoveElement(personSchools, personSchool);
      RemoveElementNoDuplicates(personSchools, personSchool);
      personSchools := r.0;
      if r.1 {
        if personSchool.GetPerson() == this {
          personSchool.SetPerson(null);
        }
      }
    }

    function GetPersonCategories(): (r: seq<PersonCategory>)
      reads this
    {
      personCategories
    }

    /** `addPersonCategory`: append `personCategory` unless it is already held, then point its owning side here. */
    method AddPersonCategory(personCategory: PersonCategory)
      requires Valid()
      modifies this`personCategories, personCategory`person
      ensures Valid()
      ensures Link(personCategories, personCategory.person) == Attach(old(personCategories), old(personCategory.person), this, personCategory)
    {
      if personCategory !in personCategories {
        AppendNoDuplicates(personCategories, personCategory);
        personCategories := personCategories + [personCategory];
        personCategory.SetPerson(this);
      }
    }

    /** `removePersonCategory`: drop `personCategory` if held; clear its owning side only if it still points here. */
    method RemovePersonCategory(personCategory: PersonCategory)
      requires Valid()
      modifies this`personCategories, personCategory`person
      ensures Valid()
      ensures Link(personCategories, personCategory.person) == Detach(old(personCategories), old(personCategory.person), this, personCategory)
    {
      var r := RemoveElement(personCategories, personCategory);
      RemoveElementNoDuplicates(personCategories, personCategory);
      personCategories := r.0;
      if r.1 {
        if personCategory.GetPerson() == this {
          personCategory.SetPerson(null);
        }
      }
    }

    function GetPersonPictures(): (r: seq<PersonPicture>)
      reads this
    {
      personPictures
    }

    /** `addPersonPictures`: append `personPicture` unless it is already held, then point its owning side here. */
    method AddPersonPictures(personPicture: PersonPicture)
      requires Valid()
      modifies this`personPictures, personPicture`person
      ensures Valid()
      ensures Link(personPictures, personPicture.person) == Attach(old(personPictures), old(personPicture.person), this, personPicture)
    {
      if personPicture !in personPictures {
        AppendNoDuplicates(personPictures, personPicture);
        personPictures := personPictures + [personPicture];
        personPicture.SetPerson(this);
      }
    }

    /** `removePersonPictures`: drop `personPicture` if held; clear its owning side only if it still points here. */
    method RemovePersonPictures(personPicture: PersonPicture)
      requires Valid()
      modifies this`personPictures, personPicture`person
      ensures Valid()
      ensures Link(personPictures, personPicture.person) == Detach(old(personPictures), old(personPicture.person), this, personPicture)
    {
      var r := RemoveElement(personPictures, personPicture);
      RemoveElementNoDuplicates(personPictures, personPicture);
      personPictures := r.0;
      if r.1 {
        if personPicture.GetPerson() == this {
          personPicture.SetPerson(null);
        }
      }
    }

    function GetAchievements(): (r: seq<Achievement>)
      reads this
    {
      achievements
    }

    /** `addAchievement`: append `achievement` unless it is already held, then point its owning side here. */
    method AddAchievement(achievement: Achievement)
      requires Valid()
      modifies this`achievements, achievement`person
      ensures Valid()
      ensures Link(achievements, achievement.person) == Attach(old(achievements), old(achievement.person), this, achievement)
    {
      if achievement !in achievements {
        AppendNoDuplicates(achievements, achievement);
        achievements := achievements + [achievement];
        achievement.SetPerson(this);
      }
    }

    /** `removeAchievement`: drop `achievement` if held; clear its owning side only if it still points here. */
    method RemoveAchievement(achievement: Achievement)
      requires Valid()
      modifies this`achievements, achievement`person
      ensures Valid()
      ensures Link(achievements, achievement.person) == Detach(old(achievements), old(achievement.person), this, achievement)
    {
      var r := RemoveElement(achievements, achievement);
      RemoveElementNoDuplicates(achievements, achievement);
      achievements := r.0;
      if r.1 {
        if achievement.GetPerson() == this {
          achievement.SetPerson(null);
        }
      }
    }

    function GetCreatedAt(): (r: Option<Instant>)
      reads this
    {
      createdAt
    }

    method SetCreatedAt(createdAt: Instant)
      modifies this`createdAt
      ensures GetCreatedAt() == Some(createdAt)
    {
      this.createdAt := Some(createdAt);
    }

    function GetUpdatedAt(): (r: Option<Instant>)
      reads this
    {
      updatedAt
    }

    method SetUpdatedAt(updatedAt: Instant)
      modifies this`updatedAt
      ensures GetUpdatedAt() == Some(updatedAt)
    {
      this.updatedAt := Some(updatedAt);
    }

    /**
      The method marked as the PrePersist hook. It reads the clock twice, once
      per field, so the two instants are separate parameters and need not be equal.
     */
    method SetCreatedAtValue(createdNow: Instant, updatedNow: Instant)
      modifies this`createdAt, this`updatedAt
      ensures createdAt == Some(createdNow) && updatedAt == Some(updatedNow)
      ensures name.Some? ==> Persistable()
    {
      createdAt := Some(createdNow);
      updatedAt := Some(updatedNow);
    }

    /** The method marked as the PreUpdate hook: refreshes `updatedAt` and leaves `createdAt` alone. */
    method SetUpdatedAtValue(now: Instant)
      modifies this`updatedAt
      ensures updatedAt == Some(now)
      ensures createdAt == old(createdAt)
      ensures old(Persistable()) ==> Persistable()
    {
      updatedAt := Some(now);
    }
  }

  /** One job held by a Person, with its optional company, its provenance and optional dates. */
  class PersonJob {
    var id: Option<int>
    var job: Option<string>
    var company: Company?
    var person: Person?
    var source: Source?
    var startDate: Option<Date>
    var endDate: Option<Date>

    /**
      The columns that may not be null when the row is written: the job title,
      the owning Person and the Source. Company and both dates are nullable.
     */
    predicate Persistable()
      reads this
    {
      job.Some? && person != null && source != null
    }

    /** A fresh PersonJob has every field null; `id` is only ever assigned by storage. */
    constructor ()
      ensures id == None && job == None && company == null && person == null
      ensures source == null && startDate == None && endDate == None
      ensures !Persistable()
    {
      id, job, company, person := None, None, null, null;
      source, startDate, endDate := null, None, None;
    }

    function GetId(): (r: Option<int>)
      reads this
    {
      id
    }

    function GetJob(): (r: Option<string>)
      reads this
    {
      job
    }

    method SetJob(job: Option<string>)
      modifies this`job
      ensures GetJob() == job
    {
      this.job := job;
    }

    function GetCompany(): (r: Company?)
      reads this
    {
      company
    }

    method SetCompany(company: Company?)
      modifies this`company
      ensures GetCompany() == company
    {
      this.company := company;
    }

    function GetPerson(): (r: Person?)
      reads this
    {
      person
    }

    /** Accepts null: this is how `Person.RemovePersonJob` releases a job. */
    method SetPerson(person: Person?)
      modifies this`person
      ensures GetPerson() == person
      ensures person == null ==> !Persistable()
    {
      this.person := person;
    }

    function GetSource(): (r: Source?)
      reads this
    {
      source
    }

    method SetSource(source: Source?)
      modifies this`source
      ensures GetSource() == source
      ensures source == null ==> !Persistable()
    {
      this.source := source;
    }

    function GetStartDate(): (r: Option<Date>)
      reads this
    {
      startDate
    }

    /** No ordering against `endDate` is checked. */
    method SetStartDate(startDate: Option<Date>)
      modifies this`startDate
      ensures GetStartDate() == startDate
    {
      this.startDate := startDate;
    }

    function GetEndDate(): (r: Option<Date>)
      reads this
    {
      endDate
    }

    /** No ordering against `startDate` is checked. */
    method SetEndDate(endDate: Option<Date>)
      modifies this`endDate
      ensures GetEndDate() == endDate
    {
      this.endDate := endDate;
    }
  }

  /** The owning side of `Person`'s PersonIdentityField collection; only its back-reference is modelled. */
  class PersonIdentityField {
    var person: Person?

    constructor ()
      ensures person == null
    {
      person := null;
    }

    function GetPerson(): (r: Person?)
      reads this
    {
      person
    }

    method SetPerson(person: Person?)
      modifies this`person
      ensures GetPerson() == person
    {
      this.person := person;
    }
  }

  /** The owning side of `Person`'s PersonRelative collection; only its back-reference is modelled. */
  class PersonRelative {
    var person: Person?

    constructor ()
      ensures person == null
    {
      person := null;
    }

    function GetPerson(): (r: Person?)
      reads this
    {
      person
    }

    method SetPerson(person: Person?)
      modifies this`person
      ensures GetPerson() == person
    {
      this.person := person;
    }
  }

  /** The owning side of `Person`'s PersonSocialStatus collection; only its back-reference is modelled. */
  class PersonSocialStatus {
    var person: Person?

    constructor ()
      ensures person == null
    {
      person := null;
    }

    function GetPerson(): (r: Person?)
      reads this
    {
      person
    }

    method SetPerson(person: Person?)
      modifies this`person
      ensures GetPerson() == person
    {
      this.person := person;
    }
  }

  /** The owning side of `Person`'s PersonSchool collection; only its back-reference is modelled. */
  class PersonSchool {
    var person: Person?

    constructor ()
      ensures person == null
    {
      person := null;
    }

    function GetPerson(): (r: Person?)
      reads this
    {
      person
    }

    method SetPerson(person: Person?)
      modifies this`person
      ensures GetPerson() == person
    {
      this.person := person;
    }
  }

  /** The owning side of `Person`'s PersonCategory collection; only its back-reference is modelled. */
  class PersonCategory {
    var person: Person?

    constructor ()
      ensures person == null
    {
      person := null;
    }

    function GetPerson(): (r: Person?)
      reads this
    {
      person
    }

    method SetPerson(person: Person?)
      modifies this`person
      ensures GetPerson() == person
    {
      this.person := person;
    }
  }

  /** The owning side of `Person`'s PersonPicture collection; only its back-reference is modelled. */
  class PersonPicture {
    var person: Person?

    constructor ()
      ensures person == null
    {
      person := null;
    }

    function GetPerson(): (r: Person?)
      reads this
    {
      person
    }

    method SetPerson(person: Person?)
      modifies this`person
      ensures GetPerson() == person
    {
      this.person := person;
    }
  }

  /** The owning side of `Person`'s Achievement collection; only its back-reference is modelled. */
  class Achievement {
    var person: Person?

    constructor ()
      ensures person == null
    {
      person := null;
    }

    function GetPerson(): (r: Person?)
      reads this
    {
      person
    }

    method SetPerson(person: Person?)
      modifies this`person
      ensures GetPerson() == person
    {
      this.person := person;
    }
  }
}
