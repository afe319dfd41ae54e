# Interventions, means and their clients, in Dafny

This project models the core of an emergency-response coordination system.
The server keeps interventions (incidents). Each intervention holds an ordered list of means (vehicles or units) sent to it.
Every mean follows a fixed lifecycle:

- ACTIVATED: assigned to the intervention.
- ARRIVED: on scene.
- ENGAGED: at work, possibly validated in position.
- RELEASED: terminal.
- REFUSED: terminal.

The model covers the following, module by module.

- **Server, `MeanLifecycle` and `Interventions`.** The transition engine: one function per operation (confirmArrival, updatePosition, validatePosition, sendBackToCRM, release). Each returns the updated mean or a rejection. The intervention aggregate is a class holding the means list; the intervention store (`InterventionDAO`) is a class over a map of whole documents.
- **Server, `Rest`.** The REST service. It runs each mean operation as one sequential cycle: load from the store, apply the engine to the STORED mean, store on success. Each service method is proved against the pure step function `Step` and its store successor `After`. The scenarios exercised by the service's tests are lemmas.
- **Server, `JavaValues`, `Json`, `UserDao`, `IconDao`.** The document codecs of users and icons, over JSON objects as string-keyed maps and Java's decimal `long` keys. Also the row-selection loop of `UserDAO.getByUsername`.
- **Server, `GeoImages`.** The `GeoImage` entity: its setters and its null-safe field-wise `equals`.
- **Android client, `ClientModel`, `ClientContext`, `ClientActivity`, `ClientStrategy`.**
  - The drone path container `Target`.
  - The list adapter's mapping from a display position to the n-th mean that was not refused (`ItemsAdapter`).
  - The guarded append of `InterventionListActivity`.
  - The lazily created, registered-once strategy `StrategyMeanSupplAdd`.

The model does not cover the code of the server's service classes (`InterventionRest`, `Mean`, `Intervention` and its DAO). Their behaviour follows `server-rest/src/test/java/rest/InterventionRestTest.java`, which fixes it operation by operation. Where that test file leaves a detail open, the model chooses as follows; a reader can check each choice in the Dafny.

- **Unknown intervention or mean.**
  - A mutating call on an unknown intervention or an unknown mean answers 400 with no body.
  - `getMeanListForIntervention` on an unknown intervention answers 204.
  - `getMeanForIntervention` answers 204 when the intervention or the mean is unknown; the test asserts 204 for an unknown mean.
- **Refused operations.** The tests check a body only for a refused release (InterventionRestTest.java:274); the model gives the other refusals none. A refused release carries the fixed message "Mean is already released or not in a state where it can be released".
- **Lookup by id.** A mean is found by id. The first mean with that id is the one acted on.
- **The caller's copy of the mean.** It contributes only its id and, for updatePosition, its coordinates. The guard always reads the stored state, which is why the same stale copy sent twice is refused the second time (test lines 402-417).
- **A fresh intervention** holds one ACTIVATED mean with no position. Its generated ids and the mean's vehicle are parameters.
- **The store** keeps every document under its own id (`Interventions.WellKeyed`), and each read hands out a fresh object.

## Model

| member | source | states |
|---|---|---|
| MeanLifecycle.ConfirmArrival | server-rest/src/test/java/rest/InterventionRestTest.java:388-400 | succeeds exactly from ACTIVATED; the mean becomes ARRIVED with id, vehicle, coordinates and inPosition kept; otherwise the rejection names the operation and the stored state |
| MeanLifecycle.UpdatePosition | server-rest/src/test/java/rest/InterventionRestTest.java:94-111 | succeeds exactly from ARRIVED or ENGAGED; the mean becomes ENGAGED at the given position with inPosition false; otherwise rejected |
| MeanLifecycle.ValidatePosition | server-rest/src/test/java/rest/InterventionRestTest.java:215-233 | succeeds exactly from ENGAGED; inPosition becomes true, state and coordinates stay; otherwise rejected |
| MeanLifecycle.SendBackToCrm | server-rest/src/test/java/rest/InterventionRestTest.java:114-134 | succeeds exactly from ENGAGED; the mean becomes ARRIVED with no position and inPosition false; otherwise rejected |
| MeanLifecycle.Release | server-rest/src/test/java/rest/InterventionRestTest.java:251-284 | succeeds exactly from ACTIVATED, ARRIVED or ENGAGED; the mean becomes RELEASED with no position and inPosition false; from RELEASED or REFUSED rejected |
| MeanLifecycle.Apply | server-rest/src/test/java/rest/InterventionRestTest.java:94-440 | the engine succeeds exactly when the stored state is in the operation's allowed set, keeps id and vehicle, and otherwise reports that state |
| MeanLifecycle.AllowedFrom | server-rest/src/test/java/rest/InterventionRestTest.java:94-440 | every operation is allowed from some state and never from RELEASED or REFUSED; ACTIVATED allows exactly confirmArrival and release; ENGAGED allows every operation but confirmArrival |
| MeanLifecycle.TransitionKeepsInPositionInvariant | server-rest/src/test/java/rest/InterventionRestTest.java:215-249 | every transition keeps "in position only while ENGAGED", and a mean is in position afterwards only after validatePosition |
| MeanLifecycle.TerminalStatesRejectEverything | server-rest/src/test/java/rest/InterventionRestTest.java:189-212 | from RELEASED or REFUSED every operation is rejected |
| MeanLifecycle.NoTransitionRefuses | server-rest/src/test/java/rest/InterventionRestTest.java:251-284 | no transition produces a REFUSED mean |
| MeanLifecycle.RetryIsSafe | server-rest/src/test/java/rest/InterventionRestTest.java:402-417 | repeating a succeeded operation is refused or gives the same mean again; a repeated confirmArrival, sendBackToCRM or release is always refused |
| MeanLifecycle.FullLifecycle | server-rest/src/test/java/rest/InterventionRestTest.java:215-233 | confirm, update, validate, release from ACTIVATED reach ARRIVED, ENGAGED at the position, in position, then RELEASED |
| MeanLifecycle.SendBackNeedsEngaged | server-rest/src/test/java/rest/InterventionRestTest.java:136-158 | sendBackToCRM is refused from ACTIVATED, from ARRIVED and from RELEASED |
| Interventions.FindMean | server-rest/src/test/java/rest/InterventionRestTest.java:324-353 | the index found holds the id and no earlier mean does; none is found exactly when no mean has the id |
| Interventions.GetMean | server-rest/src/test/java/rest/InterventionRestTest.java:324-353 | a found mean is the first in the list with the asked id; none exactly when the id is absent |
| Interventions.ApplyToMeans | server-rest/src/test/java/rest/InterventionRestTest.java:251-284 | MeanNotFound iff the id is absent; rejected iff the stored mean's state forbids the operation; on success the list keeps its length, means of other ids keep place and value, and the id now yields the engine's result |
| Interventions.FindMeanIsFirst | server-rest/src/test/java/rest/InterventionRestTest.java:324-353 | the first index holding the id is the one found |
| Interventions.Intervention.constructor | server-rest/src/test/java/rest/InterventionRestTest.java:46-50 | a new intervention has the given fields, no position and one ACTIVATED mean |
| Interventions.Intervention.FromData | server-rest/src/test/java/rest/InterventionRestTest.java:76-92 | the object read from the store holds exactly the stored value |
| Interventions.Intervention.SetCoordinates | server-rest/src/test/java/rest/InterventionRestTest.java:50 | only the coordinates change |
| Interventions.Intervention.SetMeansList | server-rest/src/test/java/rest/InterventionRestTest.java:265 | only the means list changes, to the given one |
| Interventions.Intervention.ReplaceMean | server-rest/src/test/java/rest/InterventionRestTest.java:104-110 | only the k-th mean changes |
| Interventions.Intervention.AddMean | server-rest/src/test/java/rest/InterventionRestTest.java:355-386 | the mean is appended, nothing else changes |
| Interventions.InterventionDAO.constructor | server-rest/src/test/java/rest/InterventionRestTest.java:58-64 | a new store is empty |
| Interventions.InterventionDAO.Create | server-rest/src/test/java/rest/InterventionRestTest.java:76-83 | the intervention's current value is stored under its id, replacing an earlier one; documents stay keyed by their own id |
| Interventions.InterventionDAO.GetById | server-rest/src/test/java/rest/InterventionRestTest.java:76-92 | null exactly for an unknown id; otherwise a fresh object equal to the stored value |
| Interventions.InterventionDAO.Delete | server-rest/src/test/java/rest/InterventionRestTest.java:53-56 | the document of that id is removed, the others stay |
| Interventions.InterventionDAO.GetAll | server-rest/src/test/java/rest/InterventionRestTest.java:58-74 | one entry per stored document, every stored document listed, nothing else |
| Rest.Step | server-rest/src/test/java/rest/InterventionRestTest.java:402-417 | a successful step acts on a stored intervention and changes only its means list |
| Rest.After | server-rest/src/test/java/rest/InterventionRestTest.java:402-417 | the store keeps its ids and every other intervention; a refused call leaves it unchanged; the store invariant is kept |
| Rest.RejectionBody | server-rest/src/test/java/rest/InterventionRestTest.java:274 | a refused release has the fixed message as body, every other refusal none |
| Rest.Answer | server-rest/src/test/java/rest/InterventionRestTest.java:251-284 | 200 exactly on success, with the resulting mean as body; on failure 400 with no mean, the text body exactly for a refused release |
| Rest.StepOnFirstMean | server-rest/src/test/java/rest/InterventionRestTest.java:94-440 | a call on the first stored mean answers 200 exactly when the engine accepts the operation, which then yields the new first mean; a refused call answers 400 and leaves the store as it was |
| Rest.AnswerOkIffAllowed | server-rest/src/test/java/rest/InterventionRestTest.java:136-158 | 200 exactly when the addressed mean exists and its STORED state allows the operation, with the stored mean after the change as body; otherwise 400 and the store unchanged |
| Rest.ReleaseOfRefusedMean | server-rest/src/test/java/rest/InterventionRestTest.java:251-284 | releasing a stored REFUSED mean answers 400 with the fixed message and leaves the store unchanged |
| Rest.StepChangesOnlyTheMean | server-rest/src/test/java/rest/InterventionRestTest.java:251-284 | a successful call keeps the list length, every mean of another id, the intervention's other fields and every other intervention |
| Rest.RepeatedRequestIsSafe | server-rest/src/test/java/rest/InterventionRestTest.java:402-417 | sending a succeeded request again never changes the store further; a repeated confirmArrival, sendBackToCRM or release answers 400 |
| Rest.AddExtraMean | server-rest/src/test/java/rest/InterventionRestTest.java:355-386 | fails exactly for an unknown intervention; otherwise the same ids are stored, every other intervention is unchanged, and the addressed one keeps its other fields while its list is the old one with the mean appended |
| Rest.InterventionRest.GetAllIntervention | server-rest/src/test/java/rest/InterventionRestTest.java:58-74 | lists every stored intervention once and nothing else |
| Rest.InterventionRest.constructor | server-rest/src/test/java/rest/InterventionRestTest.java:58-64 | the service works on the given store |
| Rest.InterventionRest.SetIntervention | server-rest/src/test/java/rest/InterventionRestTest.java:76-83 | the intervention is stored under its id |
| Rest.InterventionRest.GetIntervention | server-rest/src/test/java/rest/InterventionRestTest.java:85-92 | a fresh object equal to the stored value, or null for an unknown id |
| Rest.InterventionRest.Transition | server-rest/src/test/java/rest/InterventionRestTest.java:402-417 | the load, apply, store cycle answers as Step says and leaves the store as After says |
| Rest.InterventionRest.ConfirmMeanArrivalForIntervention | server-rest/src/test/java/rest/InterventionRestTest.java:388-400 | answer and new store are those of the confirmArrival step |
| Rest.InterventionRest.UpdateMeanPositionForIntervention | server-rest/src/test/java/rest/InterventionRestTest.java:94-111 | answer and new store are those of the updatePosition step to the caller's coordinates |
| Rest.InterventionRest.ValidateMeanPositionForIntervention | server-rest/src/test/java/rest/InterventionRestTest.java:215-233 | answer and new store are those of the validatePosition step |
| Rest.InterventionRest.SendMeanBackToCRMForIntervention | server-rest/src/test/java/rest/InterventionRestTest.java:114-134 | answer and new store are those of the sendBackToCRM step |
| Rest.InterventionRest.ReleaseMeanForIntervention | server-rest/src/test/java/rest/InterventionRestTest.java:251-284 | answer and new store are those of the release step |
| Rest.InterventionRest.AddExtraMeanToIntervention | server-rest/src/test/java/rest/InterventionRestTest.java:355-386 | 200 with the added mean and the store of AddExtraMean, or 400 and the store unchanged |
| Rest.InterventionRest.GetMeanListForIntervention | server-rest/src/test/java/rest/InterventionRestTest.java:286-322 | 200 with the whole stored list in stored order, or 204 for an unknown intervention |
| Rest.InterventionRest.GetMeanForIntervention | server-rest/src/test/java/rest/InterventionRestTest.java:324-353 | 200 exactly when the stored list has a mean of that id, and then the first stored mean of that id; 204 otherwise |
| Rest.ScenarioUpdatePositionTwice | server-rest/src/test/java/rest/InterventionRestTest.java:160-187 | after confirmArrival, two updatePositions each answer 200 and the stored mean is ENGAGED at the latest position, not in position |
| Rest.ScenarioUpdatePositionRefused | server-rest/src/test/java/rest/InterventionRestTest.java:189-212 | updatePosition is refused from ACTIVATED and after a release, and the store is unchanged by it |
| Rest.ScenarioValidateThenSendBack | server-rest/src/test/java/rest/InterventionRestTest.java:114-134 | after confirm and update, validatePosition answers 200 with the mean in position, and sendBackToCRM answers 200 with it ARRIVED and unset |
| Rest.NotEngagedRefused | server-rest/src/test/java/rest/InterventionRestTest.java:419-440 | validatePosition and sendBackToCRM on a first mean that is not ENGAGED both answer 400 |
| Rest.ScenarioNotEngagedRefusals | server-rest/src/test/java/rest/InterventionRestTest.java:419-440 | validatePosition and sendBackToCRM answer 400 from ACTIVATED, ARRIVED and RELEASED |
| Rest.ScenarioReleaseActivatedAndRefused | server-rest/src/test/java/rest/InterventionRestTest.java:251-284 | of an ACTIVATED and a REFUSED mean, the first release answers 200 with the mean RELEASED, the second 400 with the message; both stay, in order |
| JavaValues.ParseLong | server-rest/src/main/java/dao/UserDAO.java:30 | a parsed value comes from a non-empty string, negative only after a minus sign |
| JavaValues.DecimalString | server-rest/src/main/java/dao/UserDAO.java:53 | the key written for a long is non-empty and its digits, after a minus sign exactly for a negative value |
| JavaValues.ParseLongOfDecimalString | server-rest/src/main/java/dao/UserDAO.java:53 | the decimal key written for a long parses back to that long |
| JavaValues.DecimalStringInjective | server-rest/src/main/java/dao/UserDAO.java:53 | distinct ids give distinct document keys |
| Json.GetString | server-rest/src/main/java/dao/UserDAO.java:31-32 | a string entry gives the string, a missing or null entry gives null, any other entry throws |
| Json.GetObject | server-rest/src/main/java/dao/UserDAO.java:29 | an object entry gives the object, a missing or null entry gives null, any other entry throws |
| Json.GetStringOfFromString | server-rest/src/main/java/dao/UserDAO.java:45-48 | what put stores for a nullable string, getString gives back |
| UserDao.EntityToJsonDocument | server-rest/src/main/java/dao/UserDAO.java:43-55 | the content holds only "properties", and the key parses back to the user's id |
| UserDao.JsonDocumentToEntity | server-rest/src/main/java/dao/UserDAO.java:24-41 | a decoded user has the key as id and the user datatype |
| UserDao.DecodeRequiresUserDatatype | server-rest/src/main/java/dao/UserDAO.java:29-35 | a "properties" datatype other than the user tag decodes to null |
| UserDao.DecodeFailsOnMalformedDocument | server-rest/src/main/java/dao/UserDAO.java:28-39 | a non-numeric key, or a missing or non-object "properties", decodes to null |
| UserDao.RoundTrip | server-rest/src/main/java/dao/UserDAO.java:24-55 | a user with the user datatype survives encoding then decoding unchanged |
| UserDao.GetByUsername | server-rest/src/main/java/dao/UserDAO.java:57-73 | the loop over the rows computes the selection SelectByUsername |
| UserDao.SelectByUsername | server-rest/src/main/java/dao/UserDAO.java:64-72 | a failure is a NullPointerException and needs at least one row; over a non-empty row list a normal result is never null; a result other than the start value is one of the decoded rows |
| UserDao.SelectReturnsFirstMatch | server-rest/src/main/java/dao/UserDAO.java:65-70 | the result is the first decoded row with the username |
| UserDao.SelectWithoutMatchReturnsLastRow | server-rest/src/main/java/dao/UserDAO.java:63-72 | with no match the result is the last decoded row, null only for no rows |
| UserDao.SelectThrowsOnUndecodableRow | server-rest/src/main/java/dao/UserDAO.java:66-67 | a row that decodes to null before any match makes the call throw NullPointerException |
| UserDao.LookupOfAbsentNameReturnsOtherUser | server-rest/src/main/java/dao/UserDAO.java:63-72 | a one-row table of "alice" asked for "bob" answers alice |
| UserDao.LookupThrowsOnNonNumericKey | server-rest/src/main/java/dao/UserDAO.java:66-67 | a row with a non-numeric key makes the lookup throw |
| UserDao.FindByUsername | server-rest/src/main/java/dao/UserDAO.java:57-73 | the intended lookup: a result carries the username and is a decoded row; null exactly when no decodable row has it |
| UserDao.FindReturnsFirstMatch | server-rest/src/main/java/dao/UserDAO.java:65-70 | the intended lookup also answers the first matching row |
| UserDao.FindAgreesWithSelectOnMatch | server-rest/src/main/java/dao/UserDAO.java:65-70 | where a match exists and earlier rows decode, the loop and the intended lookup agree |
| IconDao.EntityToJsonDocument | server-rest/src/main/java/dao/IconDAO.java:31-41 | the content has exactly "datatype", "adress" and "id", with the address and the id, and the key parses back to the id |
| IconDao.JsonDocumentToEntity | server-rest/src/main/java/dao/IconDAO.java:13-29 | a decoded icon has id 7878, needs the icon datatype and a numeric key, and takes its address from "MON ADRESSE !" |
| IconDao.DecodeRejects | server-rest/src/main/java/dao/IconDAO.java:18-27 | a wrong datatype or a non-numeric key decodes to null |
| IconDao.RoundTripAsWritten | server-rest/src/main/java/dao/IconDAO.java:13-41 | any icon round-trips to id 7878 with no address |
| IconDao.RoundTripLosesFields | server-rest/src/main/java/dao/IconDAO.java:19-21 | an icon with an address or an id other than 7878 does not survive the round trip |
| IconDao.JsonDocumentToEntityIntended | server-rest/src/main/java/dao/IconDAO.java:13-29 | the intended decoder: the id is the key, the datatype the icon tag |
| IconDao.RoundTripIntended | server-rest/src/main/java/dao/IconDAO.java:13-41 | with the intended decoder every icon survives the round trip |
| GeoImages.GeoImage.constructor | server-rest/src/main/java/entity/GeoImage.java:7-12 | every field starts at its Java default |
| GeoImages.GeoImage.SetImage | server-rest/src/main/java/entity/GeoImage.java:18-20 | only the image changes, to the given value |
| GeoImages.GeoImage.SetPosition | server-rest/src/main/java/entity/GeoImage.java:26-28 | only the position changes |
| GeoImages.GeoImage.SetWidth | server-rest/src/main/java/entity/GeoImage.java:34-36 | only the width changes |
| GeoImages.GeoImage.SetInterventionId | server-rest/src/main/java/entity/GeoImage.java:42-44 | only the intervention id changes |
| GeoImages.GeoImage.SetHeight | server-rest/src/main/java/entity/GeoImage.java:50-52 | only the height changes |
| GeoImages.GeoImage.Equals | server-rest/src/main/java/entity/GeoImage.java:54-67 | true exactly for a GeoImage whose five fields are equal, null equal only to null |
| GeoImages.EqualsReflexive | server-rest/src/main/java/entity/GeoImage.java:56 | equals is reflexive |
| GeoImages.EqualsSymmetric | server-rest/src/main/java/entity/GeoImage.java:59-66 | equals is symmetric |
| GeoImages.EqualsTransitive | server-rest/src/main/java/entity/GeoImage.java:59-66 | equals is transitive |
| GeoImages.EqualsRejectsNullAndOthers | server-rest/src/main/java/entity/GeoImage.java:57 | null and objects of other classes are never equal |
| ClientModel.Target.constructor | DroneApplication/app/src/main/java/fr/m2gla/istic/projet/model/Target.java:18-20 | a new path is empty, not closed, with no intervention id |
| ClientModel.Target.SetPositions | DroneApplication/app/src/main/java/fr/m2gla/istic/projet/model/Target.java:34-36 | the whole list is replaced; the other fields stay |
| ClientModel.Target.AddPosition | DroneApplication/app/src/main/java/fr/m2gla/istic/projet/model/Target.java:42-44 | one more position, the new one last, earlier ones and the other fields unchanged |
| ClientModel.Target.SetClose | DroneApplication/app/src/main/java/fr/m2gla/istic/projet/model/Target.java:50-60 | isClose then answers the value set; the other fields stay |
| ClientModel.Target.SetInterventionsId | DroneApplication/app/src/main/java/fr/m2gla/istic/projet/model/Target.java:66-76 | the getter then answers the id set; the other fields stay |
| ClientContext.CountVisible | DroneApplication/app/src/main/java/fr/m2gla/istic/projet/context/ItemsAdapter.java:103-116 | never more shown means than means |
| ClientContext.CountVisibleSnoc | DroneApplication/app/src/main/java/fr/m2gla/istic/projet/context/ItemsAdapter.java:125-136 | appending a mean adds one to the count exactly when it is not refused |
| ClientContext.CountVisiblePrefix | DroneApplication/app/src/main/java/fr/m2gla/istic/projet/context/ItemsAdapter.java:125-136 | a prefix, with the next mean, shows no more than the whole list |
| ClientContext.NthVisibleIndex | DroneApplication/app/src/main/java/fr/m2gla/istic/projet/context/ItemsAdapter.java:124-136 | the index holds a mean that is not refused with exactly p shown means before it |
| ClientContext.NthVisibleIndexUnique | DroneApplication/app/src/main/java/fr/m2gla/istic/projet/context/ItemsAdapter.java:124-136 | that index is the only one with this property |
| ClientContext.NthVisible | DroneApplication/app/src/main/java/fr/m2gla/istic/projet/context/ItemsAdapter.java:103-116 | a mean found by the front-to-back walk is in the list and not refused |
| ClientContext.NthVisibleAtIndex | DroneApplication/app/src/main/java/fr/m2gla/istic/projet/context/ItemsAdapter.java:98-139 | the walk finds a mean exactly for positions 0 to count - 1, and it is the mean at NthVisibleIndex |
| ClientContext.MeanInList | DroneApplication/app/src/main/java/fr/m2gla/istic/projet/context/ItemsAdapter.java:98-117 | null for a null list; a found mean is in the list and not refused |
| ClientContext.MeanPositionInList | DroneApplication/app/src/main/java/fr/m2gla/istic/projet/context/ItemsAdapter.java:119-139 | -1 or a valid index of the list |
| ClientContext.LookupsAgree | DroneApplication/app/src/main/java/fr/m2gla/istic/projet/context/ItemsAdapter.java:98-139 | -1 exactly when the mean lookup gives null, exactly for a null list, a negative position or one past the shown count; a found index holds the found mean, not refused, with position shown means before it |
| ClientContext.ItemsAdapter.FromTitles | DroneApplication/app/src/main/java/fr/m2gla/istic/projet/context/ItemsAdapter.java:45-60 | titles and images as given, no mean list, the command as given |
| ClientContext.ItemsAdapter.FromMeans | DroneApplication/app/src/main/java/fr/m2gla/istic/projet/context/ItemsAdapter.java:62-78 | titles, images, intervention id, mean list and command as given |
| ClientContext.ItemsAdapter.Remove | DroneApplication/app/src/main/java/fr/m2gla/istic/projet/context/ItemsAdapter.java:81-96 | titles, images and means never change; one refresh is requested exactly when the position is below the number of titles and a command is set |
| ClientContext.ItemsAdapter.GetMeanInList | DroneApplication/app/src/main/java/fr/m2gla/istic/projet/context/ItemsAdapter.java:98-117 | the loop answers the position-th mean that is not refused, or null |
| ClientContext.ItemsAdapter.GetMeanPositionInList | DroneApplication/app/src/main/java/fr/m2gla/istic/projet/context/ItemsAdapter.java:119-139 | the loop answers the raw index of that mean, or -1 |
| ClientActivity.MakeEntry | DroneApplication/app/src/main/java/fr/m2gla/istic/projet/activity/InterventionListActivity.java:58-67 | an entry maps exactly "code" to the code and "data" to the data |
| ClientActivity.InterventionListActivity.OnCreate | DroneApplication/app/src/main/java/fr/m2gla/istic/projet/activity/InterventionListActivity.java:27-49 | the list then holds the three sample entries with codes "1", "2", "3" in that order |
| ClientActivity.InterventionListActivity.AddInterventionInList | DroneApplication/app/src/main/java/fr/m2gla/istic/projet/activity/InterventionListActivity.java:52-73 | a null or empty code leaves the list unchanged; otherwise exactly one entry is appended after the existing ones, the data unchecked |
| ClientStrategy.StrategyMeanSupplAdd.constructor | DroneApplication/app/src/main/java/fr/m2gla/istic/projet/strategy/impl/StrategyMeanSupplAdd.java:22-25 | a new strategy has no fragment |
| ClientStrategy.StrategyMeanSupplAdd.GetScopeName | DroneApplication/app/src/main/java/fr/m2gla/istic/projet/strategy/impl/StrategyMeanSupplAdd.java:27-30 | the scope is always "xtra" |
| ClientStrategy.StrategyMeanSupplAdd.SetFragment | DroneApplication/app/src/main/java/fr/m2gla/istic/projet/strategy/impl/StrategyMeanSupplAdd.java:17-20 | the forwarding target is replaced |
| ClientStrategy.StrategyMeanSupplAdd.Call | DroneApplication/app/src/main/java/fr/m2gla/istic/projet/strategy/impl/StrategyMeanSupplAdd.java:37-42 | with a fragment set, that fragment receives the mean; without one nothing changes |
| ClientStrategy.StrategyStatics.constructor | DroneApplication/app/src/main/java/fr/m2gla/istic/projet/strategy/impl/StrategyMeanSupplAdd.java:15 | no instance yet; the registry is the given one, whatever it already holds |
| ClientStrategy.StrategyStatics.GetInstance | DroneApplication/app/src/main/java/fr/m2gla/istic/projet/strategy/impl/StrategyMeanSupplAdd.java:44-51 | the first call creates a strategy without fragment and appends it to the registry, keeping what it held; later calls return the same one and leave the registry alone; the registry then holds it exactly once |
| ClientStrategy.GetInstanceTwice | DroneApplication/app/src/main/java/fr/m2gla/istic/projet/strategy/impl/StrategyMeanSupplAdd.java:44-51 | two calls return the same strategy; the registry is its old contents with that strategy appended only if none existed before, and holds it exactly once |

## Left out

- Timestamps of a mean (dates requested, activated, engaged and so on): the tests this model follows assert none of them.
- The VehicleType enumeration: a mean's vehicle is an uninterpreted string.
- Floating-point positions: a position is three reals or Unset. The NaN sentinel of the source and its equality are not modelled.
- Concurrency: the service cycle is modelled as sequential, and concurrent requests on the same intervention are not modelled.
- Couchbase I/O: bucket get and query, design documents and views, connect and disconnect. The rows of the username view are a parameter of `UserDao.GetByUsername`, and the store is a map.
- The geocoding service used in the tests' setup: it is an external call.
- Android UI: `MapActivity`, `ItemsAdapter.getCustomView` and its listeners, `Log` calls, `notifyDataSetChanged`, layouts.
- Push notifications (`PushRegister`): their status mapping depends on an external result type.
- `toString` methods: text formatting plays no part in the behaviour modelled.
- `getType` of `StrategyMeanSupplAdd`: it returns a class object and has no behaviour to state.
- Java String and Position equality are value equality here. `entity.Position` is not part of this model.
- `util.Constant` is not part of this model. The user and icon datatype tags are the stand-in strings "user" and "icon".
- The Java defaults of `new User()` and `new Icon()` are assumed: id 0, null strings, the class's datatype tag.
- `Long.parseLong` accepts only ASCII digits here; the non-ASCII Unicode digits Java also accepts are not modelled.
- The client's `model.Mean` is not part of this model. Its `refusedMeans()` answer is a stored flag.
- The fragment, the strategy registry and the adapter command are minimal recording classes. They stand in for classes whose code the model does not cover, and record only the calls made to them.
- The static `INSTANCE` field is a field of an explicit `StrategyStatics` object.
- The client's `Position` type is a type parameter of `Target`.
- ClientModel.Target.SetPositions: stores a copy of the list, so the aliasing of the caller's list that the Java reference assignment creates is not modelled. A null list is not modelled either.
- ClientStrategy.StrategyMeanSupplAdd.Call: takes a client mean, so the `(Mean) object` cast of StrategyMeanSupplAdd.java:40, which throws ClassCastException for an argument of another class, is not modelled.
- UserDao.GetByUsername: takes a non-null username, so the NullPointerException that `username.equals` throws at UserDAO.java:67 for a null username is not modelled.
- ClientContext.ItemsAdapter.GetMeanInList / GetMeanPositionInList: the list holds no null element, so the NullPointerException that `m.refusedMeans()` throws at ItemsAdapter.java:106 and :127 for one is not modelled.
- ClientContext.ItemsAdapter.GetMeanPositionInList: returns an unbounded integer. The Java `int` cannot overflow there, because a list index is below the list size.

## Findings

| source | as written | input that shows it | evidently intended | confidence | as-written member | corrected member |
|---|---|---|---|---|---|---|
| server-rest/src/main/java/dao/UserDAO.java:63-72 | when no row has the username, the loop returns the last decoded row | one row for user "alice", lookup of "bob" returns alice | null when no user has the name | not executed | UserDao.LookupOfAbsentNameReturnsOtherUser | UserDao.FindByUsername |
| server-rest/src/main/java/dao/UserDAO.java:66-67 | a row that fails to decode is dereferenced and throws NullPointerException | a row whose key is "alice" instead of a number | skip rows that do not decode | not executed | UserDao.LookupThrowsOnNonNumericKey | UserDao.FindByUsername |
| server-rest/src/main/java/dao/IconDAO.java:19-21 | the id parsed from the key is overwritten with 7878 | any icon whose id is not 7878 | the id is the document key | not executed | IconDao.RoundTripLosesFields | IconDao.RoundTripIntended |
| server-rest/src/main/java/dao/IconDAO.java:20 | the address is read from "MON ADRESSE !" while the encoder writes "adress" | any icon with an address | read the key the encoder writes | not executed | IconDao.RoundTripAsWritten | IconDao.JsonDocumentToEntityIntended |
