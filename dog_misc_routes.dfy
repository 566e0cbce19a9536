/** The list filters that drive the later stages of a case (observation,
    dispatch, release) and the dispatch and release transitions. */
module DogMiscRoutes {
  import opened Common
  import opened DogModel
  import opened Kennels
  import opened Store
  import DogRoutes

  /** Waiting for the initial observation: the query
      `{ kennel: { $exists: false }, isReleased: false, isDispatched: false }`. */
  predicate IsObservable(d: Dog)
  {
    d.kennel.None? && !d.isReleased && !d.isDispatched
  }

  /** The Doctor record's surgery date is at least three days before `today`
      (`surgeryDate <= now - 3 days`). A record with no surgery date does not
      match the query. */
  predicate SurgeryDaysAgo(v: VetDetails, today: Day)
  {
    v.surgeryDate.Some? && v.surgeryDate.value <= today - 3
  }

  /** Ready for dispatch: linked to a Doctor record whose surgery is three
      days past, and neither released nor dispatched. */
  predicate IsDispatchable(d: Dog, doctors: map<Id, VetDetails>, today: Day)
  {
    && d.vetDetails.Some? && d.vetDetails.value in doctors
    && SurgeryDaysAgo(doctors[d.vetDetails.value], today)
    && !d.isReleased && !d.isDispatched
  }

  /** Ready for release: `{ isDispatched: true, isReleased: false }`. */
  predicate IsReleasable(d: Dog)
  {
    d.isDispatched && !d.isReleased
  }

  /** `Dog.find(filter)`: the ids of the dogs that match, in insertion (id) order. */
  method FindDogs(s: CaseStore, matches: Dog -> bool) returns (ids: seq<Id>)
    requires s.Valid()
    ensures forall id :: id in ids <==> id in s.dogs && matches(s.dogs[id])
    ensures forall i, j :: 0 <= i < j < |ids| ==> ids[i] < ids[j]
  {
    ids := [];
    var id := 0;
    while id < s.nextId
      invariant id <= s.nextId
      invariant forall j :: j in ids <==> j < id && j in s.dogs && matches(s.dogs[j])
      invariant forall i :: 0 <= i < |ids| ==> ids[i] < id
      invariant forall i, j :: 0 <= i < j < |ids| ==> ids[i] < ids[j]
    {
      if id in s.dogs && matches(s.dogs[id]) {
        ids := ids + [id];
      }
      id := id + 1;
    }
  }

  /** `GET /observable`. */
  method ListObservable(s: CaseStore) returns (code: int, ids: seq<Id>)
    requires s.Valid()
    ensures code == HttpOk
    ensures forall id :: id in ids <==> id in s.dogs && IsObservable(s.dogs[id])
    ensures forall i, j :: 0 <= i < j < |ids| ==> ids[i] < ids[j]
  {
    ids := FindDogs(s, IsObservable);
    code := HttpOk;
  }

  /** Populating a Doctor record's four photo fields as Image references
      casts every stored path to an ObjectId, so it succeeds only when each
      of them casts. */
  predicate PhotosPopulate(v: VetDetails)
  {
    && (v.surgeryPhoto.Some? ==> CastsToObjectId(v.surgeryPhoto.value))
    && (forall p :: p in v.additionalPhotos ==> CastsToObjectId(p))
    && (v.surgeryNotesPhoto.Some? ==> CastsToObjectId(v.surgeryNotesPhoto.value))
    && (forall p :: p in v.additionalNotesPhotos ==> CastsToObjectId(p))
  }

  /** A dispatchable dog whose Doctor record holds a photo path that does
      not cast: populating the list's results fails on it. */
  predicate BlocksPopulate(d: Dog, doctors: map<Id, VetDetails>, today: Day)
  {
    IsDispatchable(d, doctors, today) && !PhotosPopulate(doctors[d.vetDetails.value])
  }

  /** `GET /dispatchable`, with `today` the current day. The matching dogs are
      found, and their Doctor records' photos populated as Image references;
      a single record whose photo path does not cast fails the whole query
      (500). Otherwise the call lists the matching dogs (200). */
  method ListDispatchable(s: CaseStore, today: Day) returns (code: int, ids: seq<Id>)
    requires s.Valid()
    ensures code == HttpServerError || code == HttpOk
    ensures code == HttpServerError <==> exists id :: id in s.dogs && BlocksPopulate(s.dogs[id], s.doctors, today)
    ensures code == HttpServerError ==> ids == []
    ensures code == HttpOk ==> forall id :: id in ids <==> id in s.dogs && IsDispatchable(s.dogs[id], s.doctors, today)
    ensures forall i, j :: 0 <= i < j < |ids| ==> ids[i] < ids[j]
  {
    var doctors := s.doctors;
    ids := FindDogs(s, d => IsDispatchable(d, doctors, today));
    if exists id :: id in ids && !PhotosPopulate(doctors[s.dogs[id].vetDetails.value]) {
      return HttpServerError, [];
    }
    code := HttpOk;
  }

  /** A vet update that uploads a surgery photo stores its upload path on the
      Doctor record, and that record can never be populated: once its surgery
      date is three days past, the dispatchable list fails for every caller
      until the dog is dispatched or released. */
  lemma UploadedVetPhotoBlocksDispatchList(v: VetDetails, up: DogRoutes.VetUploads, field: string, millis: string,
                                           extension: string, d: Dog, doctors: map<Id, VetDetails>, today: Day)
    requires |up.surgeryPhoto| > 0 && up.surgeryPhoto[0] == DogRoutes.UploadPath(field, millis, extension)
    requires IsDispatchable(d, doctors, today)
    requires doctors[d.vetDetails.value] == DogRoutes.ApplyPhotos(v, DogRoutes.RouteVetPhotos(up))
    ensures !PhotosPopulate(doctors[d.vetDetails.value])
    ensures BlocksPopulate(d, doctors, today)
  {
    DogRoutes.RoutedPhotosKeepOrder(up);
    DogRoutes.UploadedPhotoNeverCasts(field, millis, extension);
  }

  /** A later vet update whose form sends `surgeryDate` as `null` or `""`
      erases the stored surgery date, so the dog leaves the dispatchable list
      on every day until a later form gives a date again. */
  lemma ClearedSurgeryDateLeavesDispatchList(d: Dog, doctors: map<Id, VetDetails>, form: VetForm,
                                             up: DogRoutes.VetUploads, today: Day)
    requires d.vetDetails.Some? && d.vetDetails.value in doctors
    requires form.surgeryDate.DateCleared?
    ensures var id := d.vetDetails.value;
            var after := doctors[id := DogRoutes.ApplyPhotos(DogRoutes.MergeVetForm(doctors[id], form),
                                                             DogRoutes.RouteVetPhotos(up))];
            after[id].surgeryDate.None? && !IsDispatchable(DogRoutes.TreatedDog(d, id), after, today)
  {
  }

  /** `GET /releasable`. */
  method ListReleasable(s: CaseStore) returns (code: int, ids: seq<Id>)
    requires s.Valid()
    ensures code == HttpOk
    ensures forall id :: id in ids <==> id in s.dogs && IsReleasable(s.dogs[id])
    ensures forall i, j :: 0 <= i < j < |ids| ==> ids[i] < ids[j]
  {
    ids := FindDogs(s, IsReleasable);
    code := HttpOk;
  }

  /** The dog after dispatch, whatever its status was. */
  function DispatchedDog(d: Dog): Dog
  {
    d.(isDispatched := true, status := Dispatched)
  }

  /** The dog after release: released on `today` at `location`. Its kennel
      reference is kept. */
  function ReleasedDog(d: Dog, today: Day, location: Option<string>): Dog
  {
    d.(isReleased := true, status := Released, releaseDate := Some(today), releaseLocation := location)
  }

  /** How the transitions move a dog between the three lists: a new intake is
      observable; an observed dog is not; a dispatched dog is releasable
      unless it was released already; a released dog is in no list and keeps
      its kennel reference; a releasable dog is in neither other list. */
  lemma TransitionsAndLists(d: Dog, caseNumber: string, catcherId: Id, refs: seq<string>, k: nat,
                            obs: Observation, doctors: map<Id, VetDetails>, today: Day, location: Option<string>)
    ensures IsObservable(DogRoutes.IntakeDog(caseNumber, catcherId, refs))
    ensures !IsObservable(DogRoutes.ObservedDog(d, k, obs, refs))
    ensures IsReleasable(DispatchedDog(d)) == !d.isReleased
    ensures !IsObservable(DispatchedDog(d)) && !IsDispatchable(DispatchedDog(d), doctors, today)
    ensures var r := ReleasedDog(d, today, location);
      && !IsObservable(r) && !IsDispatchable(r, doctors, today) && !IsReleasable(r)
      && r.kennel == d.kennel && !InKennel(r)
    ensures IsReleasable(d) ==> !IsObservable(d) && !IsDispatchable(d, doctors, today)
  {
  }

  /** A dispatchable dog stays dispatchable as days pass, until dispatched or released. */
  lemma DispatchableStaysDispatchable(d: Dog, doctors: map<Id, VetDetails>, today: Day, later: Day)
    requires IsDispatchable(d, doctors, today) && today <= later
    ensures IsDispatchable(d, doctors, later)
  {
  }

  /** Dispatch (`POST /:id/dispatch`): no role check and no condition on the
      dog's status. An unknown dog is answered with 404 and nothing changes. */
  method Dispatch(s: CaseStore, dogId: Id) returns (code: int)
    requires s.Valid()
    modifies s
    ensures s.Valid()
    ensures dogId !in old(s.dogs) ==> code == HttpNotFound && unchanged(s)
    ensures dogId in old(s.dogs) ==>
      code == HttpOk && s.dogs == old(s.dogs)[dogId := DispatchedDog(old(s.dogs)[dogId])]
    ensures unchanged(s`catchers, s`doctors, s`caretakers, s`reports)
    ensures old(KennelsAgree(s.dogs, s.pool.kennels)) ==> KennelsAgree(s.dogs, s.pool.kennels)
  {
    if dogId !in s.dogs {
      return HttpNotFound;
    }
    var dog := s.dogs[dogId];
    dog := dog.(isDispatched := true, status := Dispatched);
    s.PutDog(dogId, dog);
    code := HttpOk;
  }

  /** Releasing a dog that was not yet released vacates the kennel it held,
      which no other dog in a kennel held, so dogs and kennels still agree. */
  lemma ReleaseKeepsKennelsAgree(dogs: map<Id, Dog>, ks: seq<Kennel>, id: Id, today: Day, location: Option<string>)
    requires KennelsAgree(dogs, ks) && id in dogs && !dogs[id].isReleased
    requires dogs[id].kennel.Some? ==> dogs[id].kennel.value < |ks|
    ensures var dogs' := dogs[id := ReleasedDog(dogs[id], today, location)];
      KennelsAgree(dogs', if dogs[id].kennel.Some? then Vacate(ks, dogs[id].kennel.value) else ks)
  {
    var dogs' := dogs[id := ReleasedDog(dogs[id], today, location)];
    var ks' := if dogs[id].kennel.Some? then Vacate(ks, dogs[id].kennel.value) else ks;
    forall a | a in dogs' && InKennel(dogs'[a])
      ensures dogs'[a].kennel.value < |ks'| && Occupied(ks'[dogs'[a].kennel.value])
    {
      assert a != id && dogs'[a] == dogs[a];
      if dogs[id].kennel.Some? {
        assert InKennel(dogs[id]);
        assert dogs[a].kennel != dogs[id].kennel;
      }
    }
    forall a, b | a in dogs' && b in dogs' && a != b && InKennel(dogs'[a]) && InKennel(dogs'[b])
      ensures dogs'[a].kennel != dogs'[b].kennel
    {
      assert a != id && b != id;
      assert dogs'[a] == dogs[a] && dogs'[b] == dogs[b];
    }
  }

  /** Releasing a dog a second time vacates its old kennel again, even when
      the kennel has since been given to another dog, which then sits in a
      kennel marked free. */
  lemma ReleasingAgainFreesAnotherDogsKennel(dogs: map<Id, Dog>, ks: seq<Kennel>, a: Id, b: Id, k: nat,
                                             today: Day, location: Option<string>)
    requires KennelsAgree(dogs, ks) && k < |ks|
    requires a in dogs && dogs[a].isReleased && dogs[a].kennel == Some(k)
    requires b in dogs && InKennel(dogs[b]) && dogs[b].kennel == Some(k)
    ensures !KennelsAgree(dogs[a := ReleasedDog(dogs[a], today, location)], Vacate(ks, k))
  {
    var dogs' := dogs[a := ReleasedDog(dogs[a], today, location)];
    assert a != b;
    assert dogs'[b] == dogs[b] && InKennel(dogs'[b]);
    assert !Occupied(Vacate(ks, k)[k]);
  }

  /** Release (`POST /:id/release`): the dog is marked released with the
      current day and the given location and saved; then its kennel is
      marked free. An unknown dog is answered with 404 and nothing changes.
      A dog without a kennel stays released while the call fails (500). */
  method Release(s: CaseStore, dogId: Id, location: Option<string>, today: Day) returns (code: int)
    requires s.Valid()
    modifies s, s.pool
    ensures s.Valid()
    ensures dogId !in old(s.dogs) ==> code == HttpNotFound && unchanged(s, s.pool)
    ensures dogId in old(s.dogs) ==>
      var d := old(s.dogs)[dogId];
      && s.dogs == old(s.dogs)[dogId := ReleasedDog(d, today, location)]
      && (d.kennel.None? ==> code == HttpServerError && s.pool.kennels == old(s.pool.kennels))
      && (d.kennel.Some? ==>
            && code == HttpOk
            && s.pool.kennels == Vacate(old(s.pool.kennels), d.kennel.value)
            && Free(s.pool.kennels[d.kennel.value]))
    ensures unchanged(s`catchers, s`doctors, s`caretakers, s`reports)
    ensures dogId in old(s.dogs) && !old(s.dogs)[dogId].isReleased && old(KennelsAgree(s.dogs, s.pool.kennels)) ==>
      KennelsAgree(s.dogs, s.pool.kennels)
  {
    if dogId !in s.dogs {
      return HttpNotFound;
    }
    ghost var dogs0, ks0 := s.dogs, s.pool.kennels;
    var dog := s.dogs[dogId];
    dog := dog.(isReleased := true, status := Released, releaseDate := Some(today), releaseLocation := location);
    s.PutDog(dogId, dog);

    if dog.kennel.None? {
      code := HttpServerError;
    } else {
      s.SetOccupied(dog.kennel.value, false);
      code := HttpOk;
    }
    if !dogs0[dogId].isReleased && KennelsAgree(dogs0, ks0) {
      ReleaseKeepsKennelsAgree(dogs0, ks0, dogId, today, location);
    }
  }
}
