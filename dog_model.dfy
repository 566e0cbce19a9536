/** The Dog document and the sub-records it owns: catcher, vet (Doctor) and
    caretaker details, and the caretaker's daily monitoring reports. */
module DogModel {
  import opened Common

  /** The seven values the `status` enum admits, in the schema's order. */
  datatype Status = Adopted | Available | Operated | UnderTreatment | FitForRelease | Dispatched | Released

  function StatusName(s: Status): string
  {
    match s
    case Adopted => "Adopted"
    case Available => "Available"
    case Operated => "Operated"
    case UnderTreatment => "UnderTreatment"
    case FitForRelease => "FitForRelease"
    case Dispatched => "Dispatched"
    case Released => "Released"
  }

  /** The enum validator: a status string is accepted only if it is one of the seven names. */
  function ParseStatus(name: string): (r: Option<Status>)
    ensures r.Some? ==> StatusName(r.value) == name
  {
    if name == "Adopted" then Some(Adopted)
    else if name == "Available" then Some(Available)
    else if name == "Operated" then Some(Operated)
    else if name == "UnderTreatment" then Some(UnderTreatment)
    else if name == "FitForRelease" then Some(FitForRelease)
    else if name == "Dispatched" then Some(Dispatched)
    else if name == "Released" then Some(Released)
    else None
  }

  /** Every status is accepted under its own name, so the enum is exactly the seven names. */
  lemma StatusNamesRoundTrip(s: Status)
    ensures ParseStatus(StatusName(s)) == Some(s)
  {
  }

  /** Capture metadata; `catcher` is the user who brought the dog in. */
  datatype CatcherDetails = CatcherDetails(
    catcher: Id,
    catchingLocation: Option<string>,
    locationDetails: Option<string>,
    catchingDate: Option<Day>)

  /** The capture fields of an intake request. */
  datatype CatchForm = CatchForm(
    catchingLocation: Option<string>,
    locationDetails: Option<string>,
    catchingDate: Option<Day>)

  /** The `surgeryDate` key of a vet form: a day, sent as `null` or `""`
      (which cast to no date), or left out of the JSON altogether. */
  datatype DateField = DateGiven(day: Day) | DateCleared | DateOmitted

  /** The date a `Date` path holds once the field is written: a cleared
      field writes no date, and a new record without the field has none. */
  function WrittenDate(f: DateField): Option<Day>
  {
    if f.DateGiven? then Some(f.day) else None
  }

  /** The parsed `vetDetails` JSON of a vet update: the surgery date, which
      the dispatch query reads, and the remaining form fields by name. */
  datatype VetForm = VetForm(surgeryDate: DateField, fields: map<string, string>)

  /** The Doctor record. */
  datatype VetDetails = VetDetails(
    vet: Id,
    surgeryDate: Option<Day>,
    fields: map<string, string>,
    surgeryPhoto: Option<string>,
    additionalPhotos: seq<string>,
    surgeryNotesPhoto: Option<string>,
    additionalNotesPhotos: seq<string>)

  /** The fields of a daily monitoring report (observations are not read from the request). */
  datatype ReportForm = ReportForm(
    foodIntake: Option<string>,
    waterIntake: Option<string>,
    antibiotics: Option<string>,
    painkiller: Option<string>,
    date: Option<Day>)

  /** A DailyMonitoring report. Its `photo` is typed as an Image reference
      (an ObjectId), so only text that casts to an ObjectId can be stored. */
  datatype DailyMonitoring = DailyMonitoring(form: ReportForm, photo: Option<string>)

  predicate IsHexDigit(c: char)
  {
    '0' <= c <= '9' || 'a' <= c <= 'f' || 'A' <= c <= 'F'
  }

  /** Text that Mongoose casts to an ObjectId: 24 hexadecimal digits. A value
      that does not cast makes the document fail validation when saved. */
  predicate CastsToObjectId(s: string)
  {
    |s| == 24 && forall i :: 0 <= i < |s| ==> IsHexDigit(s[i])
  }

  /** The CareTaker record: its caretaker and its reports, oldest first. */
  datatype CareTakerDetails = CareTakerDetails(careTaker: Id, reports: seq<Id>)

  /** Descriptive fields recorded by the initial observation. */
  datatype Observation = Observation(
    dogName: Option<string>,
    mainColor: Option<string>,
    description: Option<string>,
    gender: Option<string>,
    breed: Option<string>)

  /** A field of an update document: a value given in the request replaces
      the stored one; a field the request leaves out keeps its stored value. */
  function Overwrite<T>(stored: Option<T>, given: Option<T>): Option<T>
  {
    if given.Some? then given else stored
  }

  /** The observation fields after an update carrying `given`. */
  function UpdateObservation(stored: Observation, given: Observation): Observation
  {
    Observation(Overwrite(stored.dogName, given.dogName), Overwrite(stored.mainColor, given.mainColor),
                Overwrite(stored.description, given.description), Overwrite(stored.gender, given.gender),
                Overwrite(stored.breed, given.breed))
  }

  /** An observation update that gives no field. */
  const NoObservation := Observation(None, None, None, None, None)

  /** The laws of a partial update: giving nothing keeps the stored
      observation; giving every field replaces it; applying the same update
      twice is applying it once; and two updates in a row are one update
      with the later one's fields taking precedence. */
  lemma ObservationUpdateLaws(stored: Observation, g1: Observation, g2: Observation)
    ensures UpdateObservation(stored, NoObservation) == stored
    ensures g1.dogName.Some? && g1.mainColor.Some? && g1.description.Some? && g1.gender.Some? && g1.breed.Some? ==>
              UpdateObservation(stored, g1) == g1
    ensures UpdateObservation(UpdateObservation(stored, g1), g1) == UpdateObservation(stored, g1)
    ensures UpdateObservation(UpdateObservation(stored, g1), g2) == UpdateObservation(stored, UpdateObservation(g1, g2))
  {
  }

  /** The Dog document. `kennel` is the position of the kennel in the pool;
      the three details fields refer to the owned sub-records by id. */
  datatype Dog = Dog(
    caseNumber: string,
    kennel: Option<nat>,
    observation: Observation,
    dogImage: Option<string>,
    dogAdditionalImages: seq<string>,
    status: Status,
    kennelPhoto: Option<string>,
    additionalKennelPhotos: seq<string>,
    isReleased: bool,
    isDispatched: bool,
    releaseDate: Option<Day>,
    releaseLocation: Option<string>,
    catcherDetails: Option<Id>,
    vetDetails: Option<Id>,
    careTakerDetails: Option<Id>)

  /** A dog built from the schema alone: every default applied, nothing else set. */
  function NewDog(caseNumber: string): Dog
  {
    Dog(caseNumber, None, Observation(None, None, None, None, None), None, [], Available,
        None, [], false, false, None, None, None, None, None)
  }

  /** The schema defaults: status `Available`, neither released nor dispatched,
      no kennel and no sub-records. */
  lemma NewDogDefaults(caseNumber: string)
    ensures var d := NewDog(caseNumber);
      && d.status == Available && !d.isReleased && !d.isDispatched
      && d.kennel.None? && d.vetDetails.None? && d.careTakerDetails.None?
  {
  }

  /** The dog holds a kennel and has not been released. */
  predicate InKennel(d: Dog)
  {
    d.kennel.Some? && !d.isReleased
  }
}
