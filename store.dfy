/** The persisted collections the route handlers read and write: dogs and
    their sub-records by id, the kennel pool, and the model-level case-number
    counter. One operation runs at a time. */
module Store {
  import opened Common
  import opened DogModel
  import opened Kennels
  import opened CaseNumbers

  /** No two dogs share a case number (the unique index on `caseNumber`). */
  ghost predicate UniqueCaseNumbers(dogs: map<Id, Dog>)
  {
    forall a, b :: a in dogs && b in dogs && a != b ==> dogs[a].caseNumber != dogs[b].caseNumber
  }

  /** Dogs and kennels agree: every dog that is in a kennel and not released
      holds an occupied kennel, and no two such dogs hold the same kennel. */
  ghost predicate KennelsAgree(dogs: map<Id, Dog>, ks: seq<Kennel>)
  {
    && (forall id :: id in dogs && InKennel(dogs[id]) ==>
          dogs[id].kennel.value < |ks| && Occupied(ks[dogs[id].kennel.value]))
    && (forall a, b :: a in dogs && b in dogs && a != b && InKennel(dogs[a]) && InKennel(dogs[b]) ==>
          dogs[a].kennel != dogs[b].kennel)
  }

  class CaseStore {
    var dogs: map<Id, Dog>
    var catchers: map<Id, CatcherDetails>
    var doctors: map<Id, VetDetails>
    var caretakers: map<Id, CareTakerDetails>
    var reports: map<Id, DailyMonitoring>
    var nextId: Id
    const pool: KennelPool
    const generator: CaseNumberGenerator

    /** Every reference a dog holds resolves. */
    ghost predicate Resolves(d: Dog)
      reads this, pool
    {
      && (d.kennel.Some? ==> d.kennel.value < |pool.kennels|)
      && (d.catcherDetails.Some? ==> d.catcherDetails.value in catchers)
      && (d.vetDetails.Some? ==> d.vetDetails.value in doctors)
      && (d.careTakerDetails.Some? ==> d.careTakerDetails.value in caretakers)
    }

    /** Ids are below `nextId`, every reference resolves, and case numbers are unique. */
    ghost predicate Valid()
      reads this, pool
    {
      && (forall id :: id in dogs ==> id < nextId && Resolves(dogs[id]))
      && (forall id :: id in catchers ==> id < nextId)
      && (forall id :: id in doctors ==> id < nextId)
      && (forall id :: id in reports ==> id < nextId)
      && (forall id :: id in caretakers ==> id < nextId && forall r :: r in caretakers[id].reports ==> r in reports)
      && UniqueCaseNumbers(dogs)
    }

    constructor ()
      ensures Valid() && fresh(pool) && fresh(generator)
      ensures dogs == map[] && catchers == map[] && doctors == map[]
      ensures caretakers == map[] && reports == map[] && pool.kennels == []
      ensures generator.lastGenerated.None?
    {
      dogs, catchers, doctors, caretakers, reports := map[], map[], map[], map[], map[];
      nextId := 0;
      pool := new KennelPool();
      generator := new CaseNumberGenerator();
    }

    /** The case numbers the dogs hold. */
    function CaseNumbers(): (r: set<string>)
      reads this`dogs
      ensures forall id :: id in dogs ==> dogs[id].caseNumber in r
      ensures forall c :: c in r ==> exists id :: id in dogs && dogs[id].caseNumber == c
    {
      set id | id in dogs :: dogs[id].caseNumber
    }

    /** Asks the generator for a case number of `today` that no dog holds. */
    method IssueCaseNumber(today: Date) returns (caseNumber: string)
      requires ValidDate(today)
      modifies generator
      ensures generator.lastGenerated == Some(today)
      ensures FreshlyIssued(today, old(generator.Base(today)), generator.sequence, CaseNumbers(), caseNumber)
    {
      caseNumber := generator.Generate(today, CaseNumbers());
    }

    /** A fresh object id, held by no document yet. */
    method NewId() returns (id: Id)
      requires Valid()
      modifies this`nextId
      ensures Valid() && id == old(nextId) && nextId == id + 1
      ensures id !in dogs && id !in catchers && id !in doctors && id !in caretakers && id !in reports
    {
      id := nextId;
      nextId := nextId + 1;
    }

    /** Saves a new kennel into the pool, through the pre-save hook. */
    method SaveKennel(requested: Option<int>, isOccupied: Option<bool>) returns (ref: nat, id: int)
      requires Valid()
      modifies pool
      ensures Valid()
      ensures ref == |old(pool.kennels)| && id == PreSaveKennelId(requested, old(pool.kennels))
      ensures pool.kennels == old(pool.kennels) + [Kennel(id, isOccupied)]
      ensures old(KennelsAgree(dogs, pool.kennels)) ==> KennelsAgree(dogs, pool.kennels)
    {
      ref, id := pool.Save(requested, isOccupied);
      assert forall i :: 0 <= i < |old(pool.kennels)| ==> pool.kennels[i] == old(pool.kennels)[i];
    }

    /** Saves a new Catcher record. */
    method InsertCatcher(c: CatcherDetails) returns (id: Id)
      requires Valid()
      modifies this`catchers, this`nextId
      ensures Valid() && id !in old(catchers) && catchers == old(catchers)[id := c]
    {
      id := NewId();
      catchers := catchers[id := c];
    }

    /** Saves a new Doctor record. */
    method InsertDoctor(v: VetDetails) returns (id: Id)
      requires Valid()
      modifies this`doctors, this`nextId
      ensures Valid() && id !in old(doctors) && doctors == old(doctors)[id := v]
    {
      id := NewId();
      doctors := doctors[id := v];
    }

    /** Saves a new CareTaker record. */
    method InsertCaretaker(c: CareTakerDetails) returns (id: Id)
      requires Valid() && forall r :: r in c.reports ==> r in reports
      modifies this`caretakers, this`nextId
      ensures Valid() && id !in old(caretakers) && caretakers == old(caretakers)[id := c]
    {
      id := NewId();
      caretakers := caretakers[id := c];
    }

    /** Saves a new DailyMonitoring report. */
    method InsertReport(r: DailyMonitoring) returns (id: Id)
      requires Valid()
      modifies this`reports, this`nextId
      ensures Valid() && id !in old(reports) && reports == old(reports)[id := r]
    {
      id := NewId();
      reports := reports[id := r];
    }

    /** Saves a new Dog; the unique index refuses a case number already held. */
    method InsertDog(d: Dog) returns (id: Id)
      requires Valid() && Resolves(d) && d.caseNumber !in CaseNumbers()
      modifies this`dogs, this`nextId
      ensures Valid() && id !in old(dogs) && dogs == old(dogs)[id := d]
      ensures !InKennel(d) ==> old(KennelsAgree(dogs, pool.kennels)) ==> KennelsAgree(dogs, pool.kennels)
    {
      id := NewId();
      dogs := dogs[id := d];
    }

    /** Saves a changed Dog document under its own id and case number. */
    method PutDog(id: Id, d: Dog)
      requires Valid() && id in dogs && Resolves(d) && d.caseNumber == dogs[id].caseNumber
      modifies this`dogs
      ensures Valid() && dogs == old(dogs)[id := d]
      ensures d.kennel == old(dogs[id].kennel) && d.isReleased == old(dogs[id].isReleased) ==>
                old(KennelsAgree(dogs, pool.kennels)) ==> KennelsAgree(dogs, pool.kennels)
    {
      dogs := dogs[id := d];
    }

    /** Saves a changed Doctor record. */
    method PutDoctor(id: Id, v: VetDetails)
      requires Valid() && id in doctors
      modifies this`doctors
      ensures Valid() && doctors == old(doctors)[id := v]
    {
      doctors := doctors[id := v];
    }

    /** Saves a changed CareTaker record whose reports all exist. */
    method PutCaretaker(id: Id, c: CareTakerDetails)
      requires Valid() && id in caretakers && forall r :: r in c.reports ==> r in reports
      modifies this`caretakers
      ensures Valid() && caretakers == old(caretakers)[id := c]
    {
      caretakers := caretakers[id := c];
    }

    /** Sets the occupied flag of kennel `k` and saves it, through the pre-save hook. */
    method SetOccupied(k: nat, flag: bool)
      requires Valid() && k < |pool.kennels|
      modifies pool
      ensures Valid() && pool.kennels == Resave(old(pool.kennels), k, flag)
    {
      pool.kennels := Resave(pool.kennels, k, flag);
    }

    /** Hands the first explicitly free kennel to a dog (`assignKennelToDog`). */
    method AssignKennel(dogId: Id) returns (picked: Option<nat>)
      requires Valid()
      modifies pool
      ensures Valid()
      ensures picked == FirstFree(old(pool.kennels))
      ensures picked.None? ==> pool.kennels == old(pool.kennels)
      ensures picked.Some? ==> picked.value < |old(pool.kennels)| && pool.kennels == Occupy(old(pool.kennels), picked.value)
      ensures old(KennelsAgree(dogs, pool.kennels)) ==> KennelsAgree(dogs, pool.kennels)
    {
      picked := pool.AssignKennelToDog(dogId);
    }
  }
}
