# Dog case lifecycle of the animal-birth-control backend, in Dafny

The backend tracks street dogs through a sterilisation programme. A catcher
brings a dog in and a case is opened with a case number of the form
`YY-MON-DD-SS`. The dog is then observed and put in a kennel, operated on
by a vet and monitored by a caretaker with daily reports. Once the surgery is
three days old the dog matches the dispatchable query, and staff can dispatch
it by hand (the dispatch call itself checks nothing). Finally it is released
and its kennel freed. Staff accounts (admin, catcher, vet, caretaker) are created by signup,
activated by setting a PIN, and then log in with that PIN.

This project models that core as Dafny state and proves properties of it:

- `CaseNumbers` (case_number.dfy): the case-number format and the
  generator's model-level counter, with its collision retry. The
  `CaseNumberGenerator` class keeps `lastGenerated` and `sequence`.
- `Kennels` (kennel.dfy): the kennel pool. The pre-save id assignment, the
  first-free assignment, lookup by human-facing `kennelId`, and the unset
  `isOccupied` flag, which the code reads two ways.
- `DogModel` and `UserModel`: the Dog and User documents, their enums,
  defaults and validators.
- `Store` (store.dfy): the `CaseStore` class. It holds the dogs and their
  Catcher, Doctor and CareTaker records and the daily reports, keyed by
  object id, plus the kennel pool and the case-number generator. Its
  `Valid()` says every reference resolves and case numbers are unique.
  `KennelsAgree` says every unreleased dog in a kennel holds an occupied
  kennel, and no two such dogs hold the same one.
- `DogRoutes` and `DogMiscRoutes`: one method per handler. Each answers with
  the HTTP status code the handler sends and states the new store.
- `UserRoutes`: the `UserRegistry` class, users keyed by contact number,
  with signup, setpin, login and enterpin.

The clock, bcrypt and JSON Web Tokens are parameters of the model:
- the current day is an input: a `Date` for case numbers, a day number for
  release and for the three-day dispatch window;
- PIN hashing is a fixed function `hash`;
- whether a stored token still verifies is a set `validTokens`, and the
  token a refresh signs is an input `minted`.

Behaviour of the code that the model keeps as it is:
- An initial observation on an occupied kennel answers 401 (Unauthorized).
- Release saves the dog before it frees the kennel, as two separate writes.
  A dog with no kennel is therefore left released while the call answers 500.
- A caretaker report can move a `Released` dog back to `FitForRelease`.
- A caretaker report with a photo always fails. The report's `photo` field is
  typed as an Image reference (an ObjectId), but the handler stores the
  upload's file path there. Saving the report then fails and the call
  answers 500. On a dog's first report, the CareTaker record created just
  before stays behind, empty and not linked to the dog.
- The dispatchable list populates the Doctor records' photo fields as Image
  references, but those fields hold upload paths. Populating them fails, so
  a single matching dog whose vet uploaded a photo makes the whole list
  answer 500.
- A later vet form that sends `surgeryDate` as `null` or `""` erases the
  stored surgery date, and the dog drops out of the dispatchable list until a
  later form gives a date again.
- Every save of a kennel runs the pre-save id hook, including the saves that
  occupy and free it. A kennel whose id is 0 is renumbered on such a save.

## Model

| member | source | states |
|---|---|---|
| CaseNumbers.DecimalRoundTrip | backend/models/Dog.js:145 | the decimal text of a number reads back as that number |
| CaseNumbers.SequencePartShape | backend/models/Dog.js:145 | the sequence field reads back as the sequence; it starts with `0` exactly when the sequence is below 10; it has two digits below 100 and three from 100 to 999 |
| CaseNumbers.YearPartValue | backend/models/Dog.js:126 | the year field is two digits equal to the year modulo 100 |
| CaseNumbers.DayPartValue | backend/models/Dog.js:130 | the day field is two digits that read back as the day of the month |
| CaseNumbers.CaseNumberLayout | backend/models/Dog.js:126-147 | a case number has dashes at positions 2, 6 and 9, the two-digit year, the upper-case month name, the two-digit day and the sequence in between |
| CaseNumbers.FirstCasesOfMarchFifth | backend/models/Dog.js:126-147 | the first two cases of 5 March 2024 are `24-MAR-05-01` and `24-MAR-05-02` |
| CaseNumbers.CaseNumberInjective | backend/models/Dog.js:145-147 | on one day, different sequences give different case numbers |
| CaseNumbers.TakenShrinks | backend/models/Dog.js:149-154 | each collision leaves strictly fewer existing numbers above the counter, so the retry terminates |
| CaseNumbers.NoCollisionTakesNext | backend/models/Dog.js:149-154 | when the number after the base is free it is the one issued, so the first case of a day with no case yet gets sequence 1 |
| CaseNumbers.CaseNumberGenerator.Generate | backend/models/Dog.js:124-157 | the counter goes on from the last value on the same day and from 1 on a new day; the day is recorded; the returned number is held by no dog; every number skipped was taken |
| Kennels.HighestKennelId | backend/models/Kennel.js:11 | the result bounds every kennel id and is one of them |
| Kennels.NextKennelId | backend/models/Kennel.js:11-12 | the next id is above every existing id; it is 1 for an empty pool, and otherwise one above an existing id |
| Kennels.PreSaveKennelId | backend/models/Kennel.js:9-13 | a non-zero requested id is kept; an unset or zero id becomes the next id, which is above every existing one |
| Kennels.AutoIdsIncreaseByOne | backend/models/Kennel.js:9-13 | kennels saved one after another with automatic ids keep ids distinct, and each id is one above the previous |
| Kennels.FirstFreeFrom | backend/models/Kennel.js:18 | finds nothing exactly when no kennel is explicitly free; otherwise the first explicitly free kennel |
| Kennels.FindFrom | backend/routes/DogRoutes.js:278 | finds nothing exactly when no kennel has the id; otherwise the first kennel that has it |
| Kennels.ResaveChangesOneKennel | backend/models/Kennel.js:9-13 | saving a kennel's flag sets that flag and changes no other kennel; its id is kept unless it is 0, which becomes the next id; ids stay distinct |
| Kennels.ZeroIdIsReachable | backend/models/Kennel.js:9-13 | after a kennel saved with id -1 the next automatic id is 0, and occupying that kennel renumbers it to 1 |
| Kennels.UnsetFlagReadTwoWays | backend/models/Kennel.js:18 | a kennel with no flag is never handed out by the free-kennel query, yet it counts as not occupied for an initial observation |
| Kennels.KennelPool.Save | backend/models/Kennel.js:8-15 | saving appends one kennel with the id the pre-save hook chooses |
| Kennels.KennelPool.AssignKennelToDog | backend/models/Kennel.js:17-27 | returns nothing exactly when no kennel is explicitly free, and then nothing changes; otherwise the first free kennel, which was free and is now occupied, and no other kennel changes; the dog id plays no part |
| DogModel.ParseStatus | backend/models/Dog.js:98-102 | a status string is accepted only as one of the seven enum names |
| DogModel.StatusNamesRoundTrip | backend/models/Dog.js:100 | each of the seven statuses is accepted under its own name |
| DogModel.NewDogDefaults | backend/models/Dog.js:98-109 | a new dog is `Available`, neither released nor dispatched, with no kennel and no vet or caretaker record |
| DogModel.ObservationUpdateLaws | backend/routes/DogRoutes.js:319-330 | an observation update that gives no field keeps the stored one; one that gives every field replaces it; applying an update twice equals applying it once; two updates in a row equal one update in which the later fields win |
| UserModel.ParseRole | backend/models/User.js:24-29 | a role name is accepted exactly when it is admin, catcher, vet or caretaker, and then names that role |
| UserModel.RoleNamesRoundTrip | backend/models/User.js:3 | each of the four roles is accepted under its own name |
| UserModel.MakeUser | backend/models/User.js:5-29 | a user document validates exactly when name and contact number are present and non-empty and the role is absent or one of the four; role defaults to catcher, `isActive` to false |
| Common.HeadTail | backend/routes/DogRoutes.js:239-240 | the first element and the rest of a list together give the whole list |
| Store.CaseStore.CaseNumbers | backend/models/Dog.js:150 | the numbers the generator checks against are exactly the case numbers the dogs hold |
| Store.CaseStore.IssueCaseNumber | backend/models/Dog.js:149-154 | the generator records today and issues a number no dog holds, counting on from its base and skipping only taken numbers |
| Store.CaseStore.InsertDog | backend/models/Dog.js:78 | a dog is saved under a fresh id only with a case number no dog holds, so case numbers stay unique |
| Store.CaseStore.SaveKennel | backend/models/Kennel.js:8-15 | saving a kennel appends it and keeps dogs and kennels in agreement |
| Store.CaseStore.AssignKennel | backend/models/Kennel.js:17-27 | assigning the first free kennel keeps the store valid and dogs and kennels in agreement |
| DogRoutes.PushPaths | backend/routes/DogRoutes.js:209-219 | pushing every uploaded photo's path appends the paths in upload order |
| DogRoutes.CollectPaths | backend/routes/DogRoutes.js:189-220 | the paths are the first file of the single-photo field, then every additional photo |
| DogRoutes.IntakeDogPhotos | backend/routes/DogRoutes.js:237-242 | the intake dog is `Adopted` with no kennel; with a spot photo that photo is its image and all additional photos follow, and otherwise the first additional photo is its image |
| DogRoutes.RecordIntake | backend/routes/DogRoutes.js:222-244 | one Catcher record for the caller and one Dog holding it and the given case number are saved under fresh ids; nothing else changes, and dogs and kennels keep agreeing |
| DogRoutes.CreateDog | backend/routes/DogRoutes.js:177-254 | intake answers 201 and saves one Catcher for the caller and one Dog; the generator records today and the dog's number is freshly issued against the old case numbers, skipping only taken ones; no other record changes, and dogs and kennels keep agreeing |
| DogRoutes.ObservationKeepsKennelsAgree | backend/routes/DogRoutes.js:319-337 | moving a dog into a kennel that was not occupied, and marking it occupied, keeps dogs and kennels in agreement |
| DogRoutes.OccupyKeepsKennelsAgree | backend/routes/DogRoutes.js:336-337 | marking a kennel occupied with no dog moving in keeps dogs and kennels in agreement |
| DogRoutes.InitialObservations | backend/routes/DogRoutes.js:257-346 | unknown kennel id answers 404 and an occupied kennel 401, both with no change; otherwise the kennel becomes occupied, and a known dog is moved in and made `Available` (201) while an unknown dog answers 500 with the kennel still marked; dogs and kennels keep agreeing |
| DogRoutes.CollectVetPaths | backend/routes/DogRoutes.js:395-458 | the paths are ordered surgery photo, surgery notes photo, additional photos, additional notes photos |
| DogRoutes.PlacePhotos | backend/routes/DogRoutes.js:484-498 | the collected paths go to the surgery fields when a surgery or additional photo was uploaded, else to the notes fields when a surgery notes photo was, else nowhere |
| DogRoutes.RoutedPhotosKeepOrder | backend/routes/DogRoutes.js:395-498 | a routed upload stores every path in collection order, and an uploaded surgery photo is the one stored as the surgery photo |
| DogRoutes.MixedUploadJoinsSurgeryGroup | backend/routes/DogRoutes.js:484-488 | uploading a surgery photo and a notes photo together puts the notes photo first among the surgery group's additional photos |
| DogRoutes.LoneNotesPhotosAreDropped | backend/routes/DogRoutes.js:489-494 | additional notes photos uploaded on their own are stored nowhere |
| DogRoutes.MergeKeepsVet | backend/routes/DogRoutes.js:475-479 | a later vet form keeps the vet of record, overwrites the fields it carries, and keeps the others; a surgery date it gives replaces the stored one, one it sends as `null` or `""` erases it, and one it leaves out keeps it |
| DogRoutes.FirstTreatment | backend/routes/DogRoutes.js:462-471 | the first vet update creates one Doctor record with the caller as vet, links it, and makes the dog `UnderTreatment` |
| DogRoutes.LaterTreatment | backend/routes/DogRoutes.js:473-481 | a later vet update changes the linked Doctor record in place and makes the dog `Operated` |
| DogRoutes.UpdateVet | backend/routes/DogRoutes.js:374-515 | an unparsable form answers 500, a role other than vet or admin 403, and an unknown dog 404, all with no change; otherwise 200 with the first or later treatment |
| DogRoutes.FitForReleaseThreshold | backend/routes/DogRoutes.js:584-586 | after a report the dog is `FitForRelease` exactly when its record holds two or more reports or it already was; below two its status is untouched |
| DogRoutes.ReportReopensReleasedCase | backend/routes/DogRoutes.js:584-586 | a second report on a released dog moves its status back to `FitForRelease` while it stays released |
| DogRoutes.UploadedPhotoNeverCasts | backend/routes/DogRoutes.js:23-27 | no uploaded photo's path, whatever its field, casts to an ObjectId, so a report with a photo can never be saved |
| DogRoutes.FirstReport | backend/routes/DogRoutes.js:542-590 | a dog with no CareTaker record gets a new record with the caller as caretaker; with a photo that does not cast, the call answers 500 and leaves that record empty and unlinked, with no report and the dog unchanged; otherwise 200, and the record holds just the new report and is linked to the dog |
| DogRoutes.LaterReport | backend/routes/DogRoutes.js:565-590 | with a photo that does not cast, the call answers 500 and nothing changes; otherwise 200, and the new report is appended at the end of the dog's existing record |
| DogRoutes.AddCaretakerReport | backend/routes/DogRoutes.js:518-600 | a role other than caretaker or admin answers 403 and an unknown dog 404, both with no change; a photo that does not cast answers 500 with no report saved and no dog changed, and only a first report leaves a new empty record; otherwise 200 with one new report appended to the (possibly new) record |
| DogRoutes.DogInKennel | backend/routes/DogRoutes.js:111-158 | unknown kennel id answers 404; 400 exactly when no unreleased dog refers to the kennel; otherwise 200 with the first such dog |
| DogMiscRoutes.FindDogs | backend/routes/DogMiscRoutes.js:271 | a query returns exactly the matching dogs, in insertion order |
| DogMiscRoutes.ListObservable | backend/routes/DogMiscRoutes.js:269-284 | lists exactly the dogs with no kennel that are neither released nor dispatched |
| DogMiscRoutes.ListDispatchable | backend/routes/DogMiscRoutes.js:287-323 | answers 500 with nothing listed exactly when some matching dog's Doctor record holds a photo path that does not cast; otherwise 200 listing exactly the dogs whose Doctor record has a surgery date at least three days past and that are neither released nor dispatched, in insertion order |
| DogMiscRoutes.ClearedSurgeryDateLeavesDispatchList | backend/routes/DogRoutes.js:475-479 | a later vet update that sends the surgery date as `null` or `""` leaves the Doctor record with no date, so the dog is not dispatchable on any day |
| DogMiscRoutes.UploadedVetPhotoBlocksDispatchList | backend/routes/DogMiscRoutes.js:309-316 | a dispatchable dog whose Doctor record got an uploaded surgery photo from a vet update blocks the populate step, so the list fails |
| DogMiscRoutes.ListReleasable | backend/routes/DogMiscRoutes.js:326-350 | lists exactly the dispatched dogs that are not released |
| DogMiscRoutes.TransitionsAndLists | backend/routes/DogMiscRoutes.js:269-393 | a new intake is observable and an observed dog is not; a dispatched dog is releasable unless already released; a released dog is in no list yet keeps its kennel reference; a releasable dog is in no other list |
| DogMiscRoutes.DispatchableStaysDispatchable | backend/routes/DogMiscRoutes.js:289-299 | a dispatchable dog stays dispatchable as days pass |
| DogMiscRoutes.Dispatch | backend/routes/DogMiscRoutes.js:353-372 | an unknown dog answers 404 with no change; otherwise 200 with the dog dispatched whatever its status, and dogs and kennels still agree |
| DogMiscRoutes.ReleaseKeepsKennelsAgree | backend/routes/DogMiscRoutes.js:385-393 | releasing a dog not yet released and freeing its kennel keeps dogs and kennels in agreement |
| DogMiscRoutes.ReleasingAgainFreesAnotherDogsKennel | backend/routes/DogMiscRoutes.js:385-393 | releasing an already released dog frees its old kennel even when another dog now holds it, which breaks the agreement |
| DogMiscRoutes.Release | backend/routes/DogMiscRoutes.js:375-401 | an unknown dog answers 404 with no change; otherwise the dog is released with today's date and the given location; its kennel is freed (200) or, with no kennel, the call answers 500 with the dog still released |
| UserRoutes.RefreshedTokenVerifies | backend/middleware/tokenGenerator.js:4-19 | after a refresh the stored token verifies, and refreshing it again keeps it |
| UserRoutes.PinCheck | backend/routes/UserRoutes.js:170-204 | enterpin succeeds exactly for an active user and a PIN whose hash is the stored password; 205 exactly for an inactive user |
| UserRoutes.SetPinThenEnterPin | backend/routes/UserRoutes.js:99-194 | after setpin the account is active and enterpin accepts the PIN that was set and rejects any PIN with a different hash |
| UserRoutes.UserRegistry.ContactNumbersUnique | backend/models/User.js:10-14 | no two accounts share a contact number |
| UserRoutes.UserRegistry.Signup | backend/routes/UserRoutes.js:63-90 | a taken contact number answers 400 and a user the validator refuses 500, both with no change; otherwise 201 with exactly one new user that is inactive, has an empty password, no token, and the given or default role |
| UserRoutes.UserRegistry.SetPin | backend/routes/UserRoutes.js:92-135 | an unknown number answers 401 and a missing PIN 500, both with no change; otherwise 201 with the PIN's hash stored, the account active whatever it was, and the token replaced only when expired |
| UserRoutes.UserRegistry.Login | backend/routes/UserRoutes.js:137-161 | changes nothing; 401 exactly for an unknown number, 200 exactly for an active account, 205 exactly for an inactive one |
| UserRoutes.UserRegistry.EnterPin | backend/routes/UserRoutes.js:163-211 | 401 for an unknown number, then the answer of the PIN check; only a successful check changes anything, and it only refreshes an expired token, which is returned |

## Left out

- HTTP, Express wiring, JSON Web Token verification of the caller and the
  role a token carries: the caller is given as a user id and a role.
- Multer storage and the upload limits (`maxCount`): uploads are lists of
  path strings per field, and the model does not cap their length.
- The clock and locale: the current date is an input triple with a fixed
  English month table, and "now minus three days" compares day numbers, so
  the time of day within the surgery date's day is not modelled.
- `CaseNumbers.CaseNumberGenerator.Generate`: the clock is read once per
  call, so a retry that crosses midnight is not modelled.
- bcrypt: hashing is a deterministic function of the PIN, so the salt is
  not modelled; a missing PIN is the only hashing failure.
- Request bodies that leave out `contactNumber` or `kennelId`: Mongoose then
  turns the lookup into a match-anything query. The model always has these
  keys. A `kennelId` that is not a number, which makes the lookup throw, is
  also not modelled.
- Malformed dog ids in the URL: a malformed id answers 500 when the dog is
  looked up. In dispatch and release that is at once. In the vet and report
  updates it is after the role check. In an initial observation it is after
  the kennel checks and before the kennel is marked. The model's ids are
  always well formed, so an unknown id is only the "not found" path.
- Request values that do not cast to a date: a `catchingDate` that does not
  cast fails the Catcher save, so intake answers 400 with nothing saved. A
  report `date` that does not cast fails the report save, so the call answers
  500, and on a first report the new CareTaker record stays behind. The
  model's dates are always parsed.
- Older BSON versions also cast any 12-character text to an ObjectId. The
  model follows the current rule, which takes only 24 hexadecimal digits.
  Upload paths are longer than 12 characters, so report photos fail under
  both rules.
- The vet form's keys beyond `surgeryDate` are an opaque map, so a form that
  carries `vet` or photo keys of its own is not modelled.
- DogRoutes.UpdateVet: a form value that does not cast to its schema type
  (`dogWeight` and `temperature` are numbers, `ARV` a boolean) is not
  modelled. Such a value fails the Doctor save on a first update, or the
  update on a later one. The source then answers 500, with nothing linked and
  the status unchanged, while the model answers 200.
- DogRoutes.UpdateVet: form keys outside the Doctor schema are dropped by the
  source, while the model keeps them in the record's `fields` map.
- The observation field `aggression`: the request sends it under that name,
  but the schema spells the field `agression`, so it is never stored and the
  model has no such field.
- Concurrency: the model runs one operation at a time. The kennel
  double-assignment race, the in-memory counter race and the interleaving of
  asynchronous saves are not modelled.
- The second response attempted after a 404 for an unknown dog in dispatch
  and release: the client receives the 404, and the model answers 404 with
  no change.
- The dog list, retrieve, delete and update-catcher routes, the spreadsheet
  export, the image model and the server set-up: they contain no rule to
  state.
- The user list, retrieve, update and delete routes (`GET /user`,
  `GET /user/:id`, `PUT /user/:id`, `DELETE /user/:id`). `PUT /user/:id`
  writes the request body through `findByIdAndUpdate` without validators,
  so it can store any role text, flip `isActive` or replace the PIN hash
  outside signup and setpin (the hash is the `password` field). The model assumes it is never called:
  `UserModel.ParseRole`, `UserModel.MakeUser` and the activation contracts of
  `UserRoutes.UserRegistry` hold only for accounts changed by signup, setpin,
  login and enterpin.
- The first vet update saves the Doctor record twice, once before its photos
  are set and once after. The model saves it once, with the photos, which
  gives the same final state.
- `Store.CaseStore.AssignKennel`: it is the kennel model's static. No
  modelled handler calls it, because the initial observation picks its
  kennel by id.
