/** The dog case handlers: intake, initial observation, vet update,
    caretaker report and the dog-by-kennel lookup. Each handler runs against
    the store and answers with an HTTP status code. */
module DogRoutes {
  import opened Common
  import opened DogModel
  import opened Kennels
  import opened CaseNumbers
  import opened Store
  import UserModel

  /** The identity the bearer token carries. */
  datatype Caller = Caller(userId: Id, role: UserModel.Role)

  /** Roles allowed to submit vet details. */
  predicate CanTreat(role: UserModel.Role)
  {
    role == UserModel.Vet || role == UserModel.Admin
  }

  /** Roles allowed to submit caretaker reports. */
  predicate CanReport(role: UserModel.Role)
  {
    role == UserModel.Caretaker || role == UserModel.Admin
  }

  /** Pushes the path of every uploaded photo onto `refs`, in upload order. */
  method PushPaths(refs: seq<string>, photos: seq<string>) returns (r: seq<string>)
    ensures r == refs + photos
  {
    r := refs;
    var i := 0;
    while i < |photos|
      invariant 0 <= i <= |photos|
      invariant r == refs + photos[..i]
    {
      r := r + [photos[i]];
      i := i + 1;
    }
    assert photos[..i] == photos;
  }

  /** Only the first file of a single-photo field is used. */
  function FirstPhoto(files: seq<string>): seq<string>
  {
    if |files| > 0 then [files[0]] else []
  }

  /** The paths of a single-photo field followed by those of its
      additional-photos field: the first file of `single`, if any, then every
      file of `additional`. */
  method CollectPaths(single: seq<string>, additional: seq<string>) returns (imageRefs: seq<string>)
    ensures imageRefs == FirstPhoto(single) + additional
  {
    imageRefs := [];
    if |single| > 0 {
      imageRefs := imageRefs + [single[0]];
    }
    if |additional| > 0 {
      imageRefs := PushPaths(imageRefs, additional);
    }
  }

  // ---------------------------------------------------------------- intake

  /** The dog an intake creates: status `Adopted`, the first photo as its
      image and the remaining photos as additional images. */
  function IntakeDog(caseNumber: string, catcherId: Id, imageRefs: seq<string>): Dog
  {
    NewDog(caseNumber).(catcherDetails := Some(catcherId), dogImage := Head(imageRefs),
                        dogAdditionalImages := Tail(imageRefs), status := Adopted)
  }

  /** The spot photo comes first: with a spot photo it is the dog's image and
      every additional photo follows; without one the first additional photo
      takes its place. The new case is `Adopted`, not released or dispatched,
      and has no kennel. */
  lemma IntakeDogPhotos(caseNumber: string, catcherId: Id, spot: seq<string>, additional: seq<string>)
    ensures var d := IntakeDog(caseNumber, catcherId, FirstPhoto(spot) + additional);
      && (|spot| > 0 ==> d.dogImage == Some(spot[0]) && d.dogAdditionalImages == additional)
      && (|spot| == 0 ==> d.dogImage == Head(additional) && d.dogAdditionalImages == Tail(additional))
      && d.status == Adopted && !d.isReleased && !d.isDispatched && d.kennel.None?
      && d.catcherDetails == Some(catcherId)
  {
    if |spot| > 0 {
      assert (FirstPhoto(spot) + additional)[1..] == additional;
    } else {
      assert FirstPhoto(spot) + additional == additional;
    }
  }

  /** Saves the intake's Catcher record for the caller, then its Dog under
      case number `caseNumber`, which no dog holds yet. */
  method RecordIntake(s: CaseStore, caller: Caller, form: CatchForm, caseNumber: string, imageRefs: seq<string>)
    returns (catcherId: Id, dogId: Id)
    requires s.Valid() && caseNumber !in s.CaseNumbers()
    modifies s`catchers, s`dogs, s`nextId
    ensures s.Valid()
    ensures catcherId !in old(s.catchers) && dogId !in old(s.dogs)
    ensures s.catchers == old(s.catchers)[catcherId := CatcherDetails(caller.userId,
              form.catchingLocation, form.locationDetails, form.catchingDate)]
    ensures s.dogs == old(s.dogs)[dogId := IntakeDog(caseNumber, catcherId, imageRefs)]
    ensures unchanged(s`doctors, s`caretakers, s`reports)
    ensures old(KennelsAgree(s.dogs, s.pool.kennels)) ==> KennelsAgree(s.dogs, s.pool.kennels)
  {
    catcherId := s.InsertCatcher(CatcherDetails(caller.userId,
                   form.catchingLocation, form.locationDetails, form.catchingDate));
    var dog := NewDog(caseNumber).(catcherDetails := Some(catcherId), dogImage := Head(imageRefs),
                                   dogAdditionalImages := Tail(imageRefs), status := Adopted);
    dogId := s.InsertDog(dog);
  }

  /** Intake (`POST /`): saves a Catcher record for the caller, then a Dog
      with a freshly generated case number. The handler saves the Catcher
      before generating the number; the model generates it first, which ends
      in the same state, since the Catcher record touches neither the dogs
      nor the generator. */
  method CreateDog(s: CaseStore, caller: Caller, form: CatchForm, spot: seq<string>,
                   additional: seq<string>, today: Date)
    returns (code: int, catcherId: Id, dogId: Id, caseNumber: string)
    requires s.Valid() && ValidDate(today)
    modifies s, s.generator
    ensures s.Valid() && code == HttpCreated
    ensures catcherId !in old(s.catchers) && dogId !in old(s.dogs)
    ensures s.catchers == old(s.catchers)[catcherId := CatcherDetails(caller.userId,
              form.catchingLocation, form.locationDetails, form.catchingDate)]
    ensures s.generator.lastGenerated == Some(today)
    ensures FreshlyIssued(today, old(s.generator.Base(today)), s.generator.sequence, old(s.CaseNumbers()), caseNumber)
    ensures s.dogs == old(s.dogs)[dogId := IntakeDog(caseNumber, catcherId, FirstPhoto(spot) + additional)]
    ensures unchanged(s`doctors, s`caretakers, s`reports)
    ensures old(KennelsAgree(s.dogs, s.pool.kennels)) ==> KennelsAgree(s.dogs, s.pool.kennels)
  {
    var imageRefs := CollectPaths(spot, additional);
    caseNumber := s.IssueCaseNumber(today);
    catcherId, dogId := RecordIntake(s, caller, form, caseNumber, imageRefs);
    code := HttpCreated;
  }

  // ---------------------------------------------------- initial observation

  /** The dog after its initial observation: in kennel `k`, with the
      observation fields the request gives, the first kennel photo if any,
      the remaining photos, and status `Available`. Fields the request leaves
      out keep their stored values (`undefined` keys are dropped from the
      update). */
  function ObservedDog(d: Dog, k: nat, obs: Observation, imageRefs: seq<string>): Dog
  {
    d.(kennel := Some(k), observation := UpdateObservation(d.observation, obs),
       kennelPhoto := Overwrite(d.kennelPhoto, Head(imageRefs)),
       additionalKennelPhotos := Tail(imageRefs), status := Available)
  }

  /** A successful observation keeps the dogs and kennels in agreement: the
      chosen kennel was not occupied, so no dog in a kennel held it. */
  lemma ObservationKeepsKennelsAgree(dogs: map<Id, Dog>, ks: seq<Kennel>, id: Id, k: nat,
                                     obs: Observation, imageRefs: seq<string>)
    requires KennelsAgree(dogs, ks) && id in dogs && k < |ks| && !Occupied(ks[k])
    ensures KennelsAgree(dogs[id := ObservedDog(dogs[id], k, obs, imageRefs)], Occupy(ks, k))
  {
    var dogs', ks' := dogs[id := ObservedDog(dogs[id], k, obs, imageRefs)], Occupy(ks, k);
    forall a | a in dogs' && InKennel(dogs'[a])
      ensures dogs'[a].kennel.value < |ks'| && Occupied(ks'[dogs'[a].kennel.value])
    {
      if a != id {
        assert dogs'[a] == dogs[a];
      }
    }
    forall a, b | a in dogs' && b in dogs' && a != b && InKennel(dogs'[a]) && InKennel(dogs'[b])
      ensures dogs'[a].kennel != dogs'[b].kennel
    {
      if a == id {
        assert dogs'[b] == dogs[b];
      } else if b == id {
        assert dogs'[a] == dogs[a];
      }
    }
  }

  /** Marking a kennel occupied with no dog moving in keeps the agreement. */
  lemma OccupyKeepsKennelsAgree(dogs: map<Id, Dog>, ks: seq<Kennel>, k: nat)
    requires KennelsAgree(dogs, ks) && k < |ks|
    ensures KennelsAgree(dogs, Occupy(ks, k))
  {
  }

  /** Initial observation (`POST /:id/initialObservations`): looks the kennel
      up by its human-facing id, refuses an unknown (404) or occupied (401)
      kennel, then moves the dog in and marks the kennel occupied. The dog is
      updated only if it exists; the kennel is marked occupied either way, and
      an unknown dog makes the call fail (500) after that. A kennel the dog
      held before is not freed. */
  method InitialObservations(s: CaseStore, dogId: Id, kennelId: int, obs: Observation,
                             kennelPhoto: seq<string>, additionalKennelPhotos: seq<string>)
    returns (code: int)
    requires s.Valid()
    modifies s, s.pool
    ensures s.Valid()
    ensures var k := FindByKennelId(old(s.pool.kennels), kennelId);
      && (k.None? ==> code == HttpNotFound && unchanged(s, s.pool))
      && (k.Some? && Occupied(old(s.pool.kennels)[k.value]) ==> code == HttpUnauthorized && unchanged(s, s.pool))
      && (k.Some? && !Occupied(old(s.pool.kennels)[k.value]) ==>
            && s.pool.kennels == Occupy(old(s.pool.kennels), k.value)
            && (dogId in old(s.dogs) ==>
                  code == HttpCreated
                  && s.dogs == old(s.dogs)[dogId := ObservedDog(old(s.dogs)[dogId], k.value, obs,
                                                      FirstPhoto(kennelPhoto) + additionalKennelPhotos)])
            && (dogId !in old(s.dogs) ==> code == HttpServerError && s.dogs == old(s.dogs)))
    ensures unchanged(s`catchers, s`doctors, s`caretakers, s`reports, s`nextId)
    ensures old(KennelsAgree(s.dogs, s.pool.kennels)) ==> KennelsAgree(s.dogs, s.pool.kennels)
  {
    var found := FindByKennelId(s.pool.kennels, kennelId);
    if found.None? {
      return HttpNotFound;
    }
    var k := found.value;
    if Occupied(s.pool.kennels[k]) {
      return HttpUnauthorized;
    }

    var imageRefs := CollectPaths(kennelPhoto, additionalKennelPhotos);

    ghost var dogs0, ks0 := s.dogs, s.pool.kennels;
    var dogExists := dogId in s.dogs;
    if dogExists {
      var dog := s.dogs[dogId];
      s.PutDog(dogId, ObservedDog(dog, k, obs, imageRefs));
    }

    s.SetOccupied(k, true);

    if dogExists {
      code := HttpCreated;
      if KennelsAgree(dogs0, ks0) {
        ObservationKeepsKennelsAgree(dogs0, ks0, dogId, k, obs, imageRefs);
      }
    } else {
      code := HttpServerError;
      if KennelsAgree(dogs0, ks0) {
        OccupyKeepsKennelsAgree(dogs0, ks0, k);
      }
    }
  }

  // ------------------------------------------------------------ vet update

  /** The uploaded photo paths of a vet update, per field. */
  datatype VetUploads = VetUploads(
    surgeryPhoto: seq<string>,
    additionalPhotos: seq<string>,
    surgeryNotesPhoto: seq<string>,
    additionalNotesPhotos: seq<string>)

  /** `imageRefs` of a vet update: surgery photo, surgery notes photo,
      additional photos, additional notes photos. */
  function VetImageRefs(up: VetUploads): seq<string>
  {
    FirstPhoto(up.surgeryPhoto) + FirstPhoto(up.surgeryNotesPhoto) + up.additionalPhotos + up.additionalNotesPhotos
  }

  /** Collects the paths of a vet update's uploads in `imageRefs` order. */
  method CollectVetPaths(up: VetUploads) returns (imageRefs: seq<string>)
    ensures imageRefs == VetImageRefs(up)
  {
    imageRefs := [];
    if |up.surgeryPhoto| > 0 {
      imageRefs := imageRefs + [up.surgeryPhoto[0]];
    }
    if |up.surgeryNotesPhoto| > 0 {
      imageRefs := imageRefs + [up.surgeryNotesPhoto[0]];
    }
    if |up.additionalPhotos| > 0 {
      imageRefs := PushPaths(imageRefs, up.additionalPhotos);
    }
    if |up.additionalNotesPhotos| > 0 {
      imageRefs := PushPaths(imageRefs, up.additionalNotesPhotos);
    }
  }

  /** Where the uploaded photos of a vet update go. */
  datatype PhotoRoute = ToSurgery(first: string, rest: seq<string>) | ToNotes(first: string, rest: seq<string>) | Nowhere

  /** With a surgery photo or additional photos uploaded, all photos go to the
      surgery fields; otherwise, with a surgery notes photo uploaded, to the
      notes fields; otherwise nowhere. */
  function RouteVetPhotos(up: VetUploads): PhotoRoute
  {
    var refs := VetImageRefs(up);
    if |refs| == 0 then Nowhere
    else if |up.surgeryPhoto| > 0 || |up.additionalPhotos| > 0 then ToSurgery(refs[0], refs[1..])
    else if |up.surgeryNotesPhoto| > 0 then ToNotes(refs[0], refs[1..])
    else Nowhere
  }

  function ApplyPhotos(v: VetDetails, route: PhotoRoute): VetDetails
  {
    match route
    case ToSurgery(first, rest) => v.(surgeryPhoto := Some(first), additionalPhotos := rest)
    case ToNotes(first, rest) => v.(surgeryNotesPhoto := Some(first), additionalNotesPhotos := rest)
    case Nowhere => v
  }

  /** Stores the collected paths on the Doctor record: the first path and
      the rest go to the surgery fields when a surgery photo or additional
      photos were uploaded, else to the notes fields when a surgery notes
      photo was uploaded (the key tested for the additional notes photos
      lacks the brackets of the upload field, so it never matches). */
  method PlacePhotos(v: VetDetails, up: VetUploads, imageRefs: seq<string>) returns (r: VetDetails)
    requires imageRefs == VetImageRefs(up)
    ensures r == ApplyPhotos(v, RouteVetPhotos(up))
  {
    r := v;
    if |imageRefs| > 0 {
      if |up.surgeryPhoto| > 0 || |up.additionalPhotos| > 0 {
        r := r.(surgeryPhoto := Some(imageRefs[0]), additionalPhotos := imageRefs[1..]);
      } else if |up.surgeryNotesPhoto| > 0 {
        r := r.(surgeryNotesPhoto := Some(imageRefs[0]), additionalNotesPhotos := imageRefs[1..]);
      }
    }
  }

  /** A routed upload keeps every photo, in `imageRefs` order, and a surgery
      photo, when uploaded, is the one stored as `surgeryPhoto`. */
  lemma RoutedPhotosKeepOrder(up: VetUploads)
    ensures RouteVetPhotos(up).ToSurgery? ==>
      [RouteVetPhotos(up).first] + RouteVetPhotos(up).rest == VetImageRefs(up)
    ensures RouteVetPhotos(up).ToNotes? ==>
      [RouteVetPhotos(up).first] + RouteVetPhotos(up).rest == VetImageRefs(up)
    ensures |up.surgeryPhoto| > 0 ==> RouteVetPhotos(up) == ToSurgery(up.surgeryPhoto[0], VetImageRefs(up)[1..])
    ensures |up.surgeryPhoto| == 0 && |up.additionalPhotos| == 0 && |up.surgeryNotesPhoto| > 0 ==>
      RouteVetPhotos(up).ToNotes? && RouteVetPhotos(up).first == up.surgeryNotesPhoto[0]
  {
  }

  /** Uploading both groups at once sends the notes photo into the surgery
      group's additional photos. */
  lemma MixedUploadJoinsSurgeryGroup(up: VetUploads)
    requires |up.surgeryPhoto| > 0 && |up.surgeryNotesPhoto| > 0
    ensures RouteVetPhotos(up).ToSurgery?
    ensures RouteVetPhotos(up).rest == [up.surgeryNotesPhoto[0]] + up.additionalPhotos + up.additionalNotesPhotos
  {
    var refs := VetImageRefs(up);
    assert refs == [up.surgeryPhoto[0]] + ([up.surgeryNotesPhoto[0]] + up.additionalPhotos + up.additionalNotesPhotos);
  }

  /** Additional notes photos uploaded without a surgery notes photo (and
      without surgery photos) are stored nowhere. */
  lemma LoneNotesPhotosAreDropped(up: VetUploads)
    requires up.surgeryPhoto == [] && up.additionalPhotos == [] && up.surgeryNotesPhoto == []
    requires up.additionalNotesPhotos != []
    ensures |VetImageRefs(up)| > 0 && RouteVetPhotos(up) == Nowhere
  {
  }

  /** The Doctor record the first vet update creates. */
  function NewVetDetails(vet: Id, form: VetForm): VetDetails
  {
    VetDetails(vet, WrittenDate(form.surgeryDate), form.fields, None, [], None, [])
  }

  /** `findByIdAndUpdate` with the form: keys present in the form overwrite,
      and a `surgeryDate` sent as `null` or `""` is stored as no date
      (only keys left out of the JSON are skipped). */
  function MergeVetForm(v: VetDetails, form: VetForm): VetDetails
  {
    v.(surgeryDate := if form.surgeryDate.DateOmitted? then v.surgeryDate else WrittenDate(form.surgeryDate),
       fields := v.fields + form.fields)
  }

  /** A later update keeps the vet of record and overwrites exactly what the
      form carries; a cleared surgery date erases the stored one. */
  lemma MergeKeepsVet(v: VetDetails, form: VetForm)
    ensures MergeVetForm(v, form).vet == v.vet
    ensures form.surgeryDate.DateGiven? ==> MergeVetForm(v, form).surgeryDate == Some(form.surgeryDate.day)
    ensures form.surgeryDate.DateCleared? ==> MergeVetForm(v, form).surgeryDate == None
    ensures form.surgeryDate.DateOmitted? ==> MergeVetForm(v, form).surgeryDate == v.surgeryDate
    ensures forall f :: f in form.fields ==> MergeVetForm(v, form).fields[f] == form.fields[f]
    ensures forall f :: f in v.fields && f !in form.fields ==> MergeVetForm(v, form).fields[f] == v.fields[f]
  {
  }

  /** The dog after a vet update linked to record `doctorId`: `UnderTreatment`
      on the first update, `Operated` on every later one. */
  function TreatedDog(d: Dog, doctorId: Id): Dog
  {
    d.(vetDetails := Some(doctorId), status := if d.vetDetails.None? then UnderTreatment else Operated)
  }

  /** The first vet update of a dog: creates the Doctor record with `vet`
      as its vet, the form's fields and the uploaded photos, and links it to
      the dog. (The record is saved once before the photos are set and once
      after; only the second save's state is observable.) */
  method FirstTreatment(s: CaseStore, vet: Id, dogId: Id, form: VetForm, up: VetUploads)
    returns (doctorId: Id)
    requires s.Valid() && dogId in s.dogs && s.dogs[dogId].vetDetails.None?
    modifies s
    ensures s.Valid()
    ensures doctorId !in old(s.doctors)
    ensures s.doctors == old(s.doctors)[doctorId := ApplyPhotos(NewVetDetails(vet, form), RouteVetPhotos(up))]
    ensures s.dogs == old(s.dogs)[dogId := TreatedDog(old(s.dogs)[dogId], doctorId)]
    ensures unchanged(s`catchers, s`caretakers, s`reports)
    ensures old(KennelsAgree(s.dogs, s.pool.kennels)) ==> KennelsAgree(s.dogs, s.pool.kennels)
  {
    var dog := s.dogs[dogId];
    var imageRefs := CollectVetPaths(up);
    var vetDetails := PlacePhotos(NewVetDetails(vet, form), up, imageRefs);
    doctorId := s.InsertDoctor(vetDetails);
    dog := dog.(vetDetails := Some(doctorId), status := UnderTreatment);
    s.PutDog(dogId, dog);
  }

  /** A later vet update: the linked Doctor record takes the form's fields,
      then the photos, and the dog is marked `Operated`. */
  method LaterTreatment(s: CaseStore, dogId: Id, form: VetForm, up: VetUploads)
    returns (doctorId: Id)
    requires s.Valid() && dogId in s.dogs && s.dogs[dogId].vetDetails.Some?
    modifies s
    ensures s.Valid()
    ensures doctorId == old(s.dogs)[dogId].vetDetails.value
    ensures s.doctors == old(s.doctors)[doctorId := ApplyPhotos(MergeVetForm(old(s.doctors)[doctorId], form), RouteVetPhotos(up))]
    ensures s.dogs == old(s.dogs)[dogId := TreatedDog(old(s.dogs)[dogId], doctorId)]
    ensures unchanged(s`catchers, s`caretakers, s`reports)
    ensures old(KennelsAgree(s.dogs, s.pool.kennels)) ==> KennelsAgree(s.dogs, s.pool.kennels)
  {
    var dog := s.dogs[dogId];
    var imageRefs := CollectVetPaths(up);
    doctorId := dog.vetDetails.value;
    var vetDetails := MergeVetForm(s.doctors[doctorId], form);
    dog := dog.(status := Operated);
    vetDetails := PlacePhotos(vetDetails, up, imageRefs);
    s.PutDoctor(doctorId, vetDetails);
    s.PutDog(dogId, dog);
  }

  /** Vet update (`PUT /:id/update/vet`): the form is parsed first (a parse
      failure fails the call), then the caller's role is checked (403 unless
      vet or admin), then the dog is looked up (404); otherwise the treatment
      is saved with the caller as vet. */
  method UpdateVet(s: CaseStore, caller: Caller, dogId: Id, form: Option<VetForm>, up: VetUploads)
    returns (code: int, doctorId: Id)
    requires s.Valid()
    modifies s
    ensures s.Valid()
    ensures form.None? ==> code == HttpServerError && unchanged(s)
    ensures form.Some? && !CanTreat(caller.role) ==> code == HttpForbidden && unchanged(s)
    ensures form.Some? && CanTreat(caller.role) && dogId !in old(s.dogs) ==> code == HttpNotFound && unchanged(s)
    ensures form.Some? && CanTreat(caller.role) && dogId in old(s.dogs) ==>
      var d := old(s.dogs)[dogId];
      && code == HttpOk
      && s.dogs == old(s.dogs)[dogId := TreatedDog(d, doctorId)]
      && (d.vetDetails.None? ==>
            doctorId !in old(s.doctors)
            && s.doctors == old(s.doctors)[doctorId := ApplyPhotos(NewVetDetails(caller.userId, form.value), RouteVetPhotos(up))])
      && (d.vetDetails.Some? ==>
            doctorId == d.vetDetails.value
            && s.doctors == old(s.doctors)[doctorId := ApplyPhotos(MergeVetForm(old(s.doctors)[doctorId], form.value), RouteVetPhotos(up))])
    ensures unchanged(s`catchers, s`caretakers, s`reports)
    ensures old(KennelsAgree(s.dogs, s.pool.kennels)) ==> KennelsAgree(s.dogs, s.pool.kennels)
  {
    doctorId := 0;
    if form.None? {
      return HttpServerError, doctorId;
    }
    if !CanTreat(caller.role) {
      return HttpForbidden, doctorId;
    }
    if dogId !in s.dogs {
      return HttpNotFound, doctorId;
    }
    if s.dogs[dogId].vetDetails.None? {
      doctorId := FirstTreatment(s, caller.userId, dogId, form.value, up);
    } else {
      doctorId := LaterTreatment(s, dogId, form.value, up);
    }
    code := HttpOk;
  }

  // ------------------------------------------------------ caretaker report

  /** The dog after a report that brings its CareTaker record `careTakerId`
      to `reportCount` reports: `FitForRelease` from the second report on,
      whatever the status was; otherwise the status is kept. */
  function ReportedDog(d: Dog, careTakerId: Id, reportCount: nat): Dog
  {
    d.(careTakerDetails := Some(careTakerId),
       status := if reportCount >= 2 then FitForRelease else d.status)
  }

  /** The FitForRelease threshold: the status after a report is FitForRelease
      exactly when the record now has two or more reports or it already was;
      below two reports nothing but the link changes. */
  lemma FitForReleaseThreshold(d: Dog, careTakerId: Id, reportCount: nat)
    ensures (ReportedDog(d, careTakerId, reportCount).status == FitForRelease)
        == (reportCount >= 2 || d.status == FitForRelease)
    ensures reportCount < 2 ==> ReportedDog(d, careTakerId, reportCount).status == d.status
  {
  }

  /** A report on a released dog with a second report reopens it as FitForRelease. */
  lemma ReportReopensReleasedCase(d: Dog, careTakerId: Id, reportCount: nat)
    requires d.status == Released && d.isReleased && reportCount >= 2
    ensures ReportedDog(d, careTakerId, reportCount).status == FitForRelease
    ensures ReportedDog(d, careTakerId, reportCount).isReleased
  {
  }

  /** The path disk storage gives an upload: the `uploads/` directory, then
      the form field's name, a dash, the upload time in milliseconds, a dot
      and the extension taken from the MIME type. */
  function UploadPath(field: string, millis: string, extension: string): string
  {
    "uploads/" + field + "-" + millis + "." + extension
  }

  /** No uploaded photo casts to an ObjectId, whatever its field: its path
      starts with the letter `u`, which is no hexadecimal digit. */
  lemma UploadedPhotoNeverCasts(field: string, millis: string, extension: string)
    ensures !CastsToObjectId(UploadPath(field, millis, extension))
  {
    var path := UploadPath(field, millis, extension);
    assert path[0] == 'u' && !IsHexDigit('u');
  }

  /** The report can be saved: no photo was uploaded, or the path of the
      first one casts to the report's ObjectId `photo` field. */
  predicate PhotoSaves(photo: seq<string>)
  {
    |photo| == 0 || CastsToObjectId(photo[0])
  }

  /** The first report on a dog with no CareTaker record: the record is
      created with `caretaker` as its caretaker. If the report's photo does
      not cast, saving the report fails (500), leaving the new record without
      reports and unlinked. Otherwise the record is linked to the dog and the
      report becomes its only report. */
  method FirstReport(s: CaseStore, caretaker: Id, dogId: Id, form: ReportForm, photo: seq<string>)
    returns (code: int, careTakerId: Id, reportId: Id)
    requires s.Valid() && dogId in s.dogs && s.dogs[dogId].careTakerDetails.None?
    modifies s
    ensures s.Valid()
    ensures careTakerId !in old(s.caretakers)
    ensures !PhotoSaves(photo) ==>
      && code == HttpServerError
      && s.caretakers == old(s.caretakers)[careTakerId := CareTakerDetails(caretaker, [])]
      && s.dogs == old(s.dogs) && s.reports == old(s.reports)
    ensures PhotoSaves(photo) ==>
      && code == HttpOk && reportId !in old(s.reports)
      && s.reports == old(s.reports)[reportId := DailyMonitoring(form, Head(photo))]
      && s.caretakers == old(s.caretakers)[careTakerId := CareTakerDetails(caretaker, [reportId])]
      && s.dogs == old(s.dogs)[dogId := ReportedDog(old(s.dogs)[dogId], careTakerId, 1)]
    ensures unchanged(s`catchers, s`doctors)
    ensures old(KennelsAgree(s.dogs, s.pool.kennels)) ==> KennelsAgree(s.dogs, s.pool.kennels)
  {
    reportId := 0;
    var dog := s.dogs[dogId];
    careTakerId := s.InsertCaretaker(CareTakerDetails(caretaker, []));
    dog := dog.(careTakerDetails := Some(careTakerId));
    var reportImage := None;
    if |photo| > 0 {
      reportImage := Some(photo[0]);
      if !CastsToObjectId(photo[0]) {
        return HttpServerError, careTakerId, reportId;
      }
    }
    reportId := s.InsertReport(DailyMonitoring(form, reportImage));
    ghost var inserted := s.caretakers;
    s.PutCaretaker(careTakerId, CareTakerDetails(caretaker, [reportId]));
    assert inserted[careTakerId := CareTakerDetails(caretaker, [reportId])]
        == old(s.caretakers)[careTakerId := CareTakerDetails(caretaker, [reportId])];
    s.PutDog(dogId, dog);
    code := HttpOk;
  }

  /** A report on a dog that has a CareTaker record. If the report's photo
      does not cast, saving the report fails (500) and nothing changes.
      Otherwise the report is saved and appended to the record, and the dog
      becomes `FitForRelease` once the record holds two reports. */
  method LaterReport(s: CaseStore, dogId: Id, form: ReportForm, photo: seq<string>)
    returns (code: int, careTakerId: Id, reportId: Id)
    requires s.Valid() && dogId in s.dogs && s.dogs[dogId].careTakerDetails.Some?
    modifies s
    ensures s.Valid()
    ensures careTakerId == old(s.dogs)[dogId].careTakerDetails.value
    ensures !PhotoSaves(photo) ==> code == HttpServerError && unchanged(s)
    ensures PhotoSaves(photo) ==>
      && code == HttpOk && reportId !in old(s.reports)
      && s.reports == old(s.reports)[reportId := DailyMonitoring(form, Head(photo))]
      && var before := old(s.caretakers)[careTakerId];
      && s.caretakers == old(s.caretakers)[careTakerId := before.(reports := before.reports + [reportId])]
      && s.dogs == old(s.dogs)[dogId := ReportedDog(old(s.dogs)[dogId], careTakerId, |before.reports| + 1)]
    ensures unchanged(s`catchers, s`doctors)
    ensures old(KennelsAgree(s.dogs, s.pool.kennels)) ==> KennelsAgree(s.dogs, s.pool.kennels)
  {
    reportId := 0;
    var dog := s.dogs[dogId];
    careTakerId := dog.careTakerDetails.value;
    var reportImage := None;
    if |photo| > 0 {
      reportImage := Some(photo[0]);
      if !CastsToObjectId(photo[0]) {
        return HttpServerError, careTakerId, reportId;
      }
    }
    reportId := s.InsertReport(DailyMonitoring(form, reportImage));
    var record := s.caretakers[careTakerId];
    record := record.(reports := record.reports + [reportId]);
    if |record.reports| >= 2 {
      dog := dog.(status := FitForRelease);
    }
    s.PutCaretaker(careTakerId, record);
    s.PutDog(dogId, dog);
    code := HttpOk;
  }

  /** Caretaker report (`POST /:id/caretaker/report`): 403 unless caretaker or
      admin, 404 for an unknown dog; otherwise the dog's CareTaker record is
      created if it has none (with the caller as caretaker). A photo that does
      not cast fails the report's save (500): the record just created stays,
      unlinked and empty. Otherwise the new report is saved and appended to
      the record's reports, and the dog becomes `FitForRelease` once the
      record holds two reports (200). */
  method AddCaretakerReport(s: CaseStore, caller: Caller, dogId: Id, form: ReportForm, photo: seq<string>)
    returns (code: int, careTakerId: Id, reportId: Id)
    requires s.Valid()
    modifies s
    ensures s.Valid()
    ensures !CanReport(caller.role) ==> code == HttpForbidden && unchanged(s)
    ensures CanReport(caller.role) && dogId !in old(s.dogs) ==> code == HttpNotFound && unchanged(s)
    ensures CanReport(caller.role) && dogId in old(s.dogs) && !PhotoSaves(photo) ==>
      && code == HttpServerError && s.dogs == old(s.dogs) && s.reports == old(s.reports)
      && (old(s.dogs)[dogId].careTakerDetails.None? ==>
            careTakerId !in old(s.caretakers)
            && s.caretakers == old(s.caretakers)[careTakerId := CareTakerDetails(caller.userId, [])])
      && (old(s.dogs)[dogId].careTakerDetails.Some? ==> s.caretakers == old(s.caretakers))
    ensures CanReport(caller.role) && dogId in old(s.dogs) && PhotoSaves(photo) ==>
      code == HttpOk && reportId !in old(s.reports)
      && s.reports == old(s.reports)[reportId := DailyMonitoring(form, Head(photo))]
    ensures CanReport(caller.role) && dogId in old(s.dogs) && PhotoSaves(photo)
            && old(s.dogs)[dogId].careTakerDetails.None? ==>
      && careTakerId !in old(s.caretakers)
      && s.caretakers == old(s.caretakers)[careTakerId := CareTakerDetails(caller.userId, [reportId])]
      && s.dogs == old(s.dogs)[dogId := ReportedDog(old(s.dogs)[dogId], careTakerId, 1)]
    ensures CanReport(caller.role) && dogId in old(s.dogs) && PhotoSaves(photo)
            && old(s.dogs)[dogId].careTakerDetails.Some? ==>
      var before := old(s.caretakers)[old(s.dogs)[dogId].careTakerDetails.value];
      && careTakerId == old(s.dogs)[dogId].careTakerDetails.value
      && s.caretakers == old(s.caretakers)[careTakerId := before.(reports := before.reports + [reportId])]
      && s.dogs == old(s.dogs)[dogId := ReportedDog(old(s.dogs)[dogId], careTakerId, |before.reports| + 1)]
    ensures unchanged(s`catchers, s`doctors)
    ensures old(KennelsAgree(s.dogs, s.pool.kennels)) ==> KennelsAgree(s.dogs, s.pool.kennels)
  {
    careTakerId, reportId := 0, 0;
    if !CanReport(caller.role) {
      return HttpForbidden, careTakerId, reportId;
    }
    if dogId !in s.dogs {
      return HttpNotFound, careTakerId, reportId;
    }
    if s.dogs[dogId].careTakerDetails.None? {
      code, careTakerId, reportId := FirstReport(s, caller.userId, dogId, form, photo);
    } else {
      code, careTakerId, reportId := LaterReport(s, dogId, form, photo);
    }
  }

  // --------------------------------------------------- dog-by-kennel lookup

  /** The dog is in kennel `k` and not released: the query `{ kennel, isReleased: false }`. */
  predicate HeldIn(d: Dog, k: nat)
  {
    d.kennel == Some(k) && !d.isReleased
  }

  /** Dog by kennel (`GET /kennel/:id`): 404 when no kennel has the id; 400
      ("Kennel is Empty") when no unreleased dog refers to that kennel;
      otherwise 200 with the first such dog in insertion (id) order. */
  method DogInKennel(s: CaseStore, kennelId: int) returns (code: int, dogId: Option<Id>)
    requires s.Valid()
    ensures var k := FindByKennelId(s.pool.kennels, kennelId);
      && (k.None? ==> code == HttpNotFound && dogId.None?)
      && (k.Some? && (forall id :: id in s.dogs ==> !HeldIn(s.dogs[id], k.value)) ==>
            code == HttpBadRequest && dogId.None?)
      && (k.Some? && (exists id :: id in s.dogs && HeldIn(s.dogs[id], k.value)) ==>
            && code == HttpOk && dogId.Some?
            && dogId.value in s.dogs && HeldIn(s.dogs[dogId.value], k.value)
            && forall id :: id in s.dogs && id < dogId.value ==> !HeldIn(s.dogs[id], k.value))
  {
    var found := FindByKennelId(s.pool.kennels, kennelId);
    if found.None? {
      return HttpNotFound, None;
    }
    var k := found.value;
    var id := 0;
    while id < s.nextId
      invariant id <= s.nextId
      invariant forall j :: j in s.dogs && j < id ==> !HeldIn(s.dogs[j], k)
    {
      if id in s.dogs && HeldIn(s.dogs[id], k) {
        return HttpOk, Some(id);
      }
      id := id + 1;
    }
    return HttpBadRequest, None;
  }
}
