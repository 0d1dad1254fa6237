# Clinic records: a verified model of the in-memory domain logic

This project models the core of a clinic records web app in Dafny. The app keeps
antenatal care (ANC) patients, doctors, nurses and delivery records in one shared
store. The model covers the following:

- **The data store** (`DataContext`). It has four ordered collections with add,
  update (a shallow merge of a `Partial<T>`) and delete by id. Deliveries can only
  be added.
- **The patient form**. It computes BMI (rounded half up to one decimal, 0 when
  weight or height is 0) and chooses between add and update.
- **The delivery form**. This is a two-step workflow. It looks a patient up by exact
  file number. It then stores a *snapshot* of that patient with the six delivery
  fields overlaid.
- **The patient preview page**. It finds the patient by route id and edits a copy
  field by field. Save merges the copy back; Cancel does not revert it.
- **The doctor and nurse forms**. They dispatch between add and update.
- **The derived views**. These are the KPI dashboard's counts and the search
  filters and badges of the ANC, Delivery and Nurses pages.

## How the model is built

Each core source file has its own Dafny module. Four more modules hold shared
pieces: `Wrappers` (the `Option` type), `Seqs` (the array operations), `Text`
(substring search) and `Scenarios` (proved end-to-end scenarios). Components
that keep state become classes:

- `DataContext.DataStore` has four `seq` fields. Every add, update and delete
  states its collection's new value and that the other three are unchanged.
- Each form class has a `closeCalls` counter that stands for the
  `onClose` callback.
- The store keeps a ghost log, `calls`, of every mutation. A form can therefore
  state that it called `updatePatient` exactly once and never `addPatient`.

Fresh ids (`Date.now().toString()` in the source) are a parameter, `newId`. Where
a property needs the id to be unused, the freshness is a hypothesis of the lemma.

A `Partial<T>` is a patch datatype. It has one `Option` per key. An optional key
is `Option<Option<_>>`, which tells "key absent" apart from "key present but
undefined". Every `ApplyTo` states that each supplied key is written and every
other key agrees.

Lower-casing is a parameter `lower: string -> string`. `includes` is modelled
directly as substring containment (`Text.Contains`).

## Model

| member | source | states |
|---|---|---|
| DataContext.DataStore.constructor | src/contexts/DataContext.tsx:33-36 | all four collections start empty |
| DataContext.DataStore.LoadSeed | src/contexts/DataContext.tsx:38-45 | each collection is replaced by the given seed data and no store call is logged |
| DataContext.DataStore.AddPatient | src/contexts/DataContext.tsx:47-50 | exactly one record is appended at the end; it is the supplied data with only `id` overwritten by the fresh id; earlier records and the other collections are unchanged |
| DataContext.DataStore.UpdatePatient | src/contexts/DataContext.tsx:52-54 | patients become the merge of the patch into every record with the id; doctors, nurses and deliveries (the delivery snapshots) are unchanged |
| DataContext.DataStore.DeletePatient | src/contexts/DataContext.tsx:56-58 | patients become those whose id differs, in order; the other collections are unchanged |
| DataContext.DataStore.AddDoctor | src/contexts/DataContext.tsx:60-63 | appends the supplied doctor under the fresh id; the other collections are unchanged |
| DataContext.DataStore.UpdateDoctor | src/contexts/DataContext.tsx:65-67 | merges the patch into every doctor with the id; the other collections are unchanged |
| DataContext.DataStore.DeleteDoctor | src/contexts/DataContext.tsx:69-71 | removes every doctor with the id; patients, including their `assignedDoctor`, are unchanged (no cascade) |
| DataContext.DataStore.AddNurse | src/contexts/DataContext.tsx:73-76 | appends the supplied nurse under the fresh id; the other collections are unchanged |
| DataContext.DataStore.UpdateNurse | src/contexts/DataContext.tsx:78-80 | merges the patch into every nurse with the id; the other collections are unchanged |
| DataContext.DataStore.DeleteNurse | src/contexts/DataContext.tsx:82-84 | removes every nurse with the id; patients' `assignedNurse` is untouched (no cascade) |
| DataContext.DataStore.AddDelivery | src/contexts/DataContext.tsx:86-89 | appends the delivery under the fresh id; the only delivery operation; patients, doctors and nurses are unchanged |
| DataContext.PatientPatch.ApplyTo | src/contexts/DataContext.tsx:53 | `{ ...p, ...patch }`: every key the patch supplies is set to its value, every other key keeps p's value |
| DataContext.DoctorPatch.ApplyTo | src/contexts/DataContext.tsx:66 | the same shallow merge for doctors |
| DataContext.NursePatch.ApplyTo | src/contexts/DataContext.tsx:79 | the same shallow merge for nurses |
| DataContext.RemoveIdSpec | src/contexts/DataContext.tsx:56-58 | a delete keeps exactly the records whose id differs, each with all its copies, as an order-preserving subsequence |
| DataContext.RemoveIdAbsent | src/contexts/DataContext.tsx:57 | deleting an id no record has leaves the collection unchanged |
| DataContext.RemoveIdIdempotent | src/contexts/DataContext.tsx:56-58 | a second delete of the same id is a no-op |
| DataContext.RemoveUndoesAdd | src/contexts/DataContext.tsx:47-58 | deleting the id just added under a fresh id restores the collection |
| DataContext.UpdateIdAbsent | src/contexts/DataContext.tsx:53 | updating an id no record has leaves the collection unchanged |
| DataContext.UpdateIdIdempotent | src/contexts/DataContext.tsx:52-54 | an update whose merge is idempotent gives the same result when repeated |
| DataContext.PatientPatchIdempotent | src/contexts/DataContext.tsx:53 | merging the same patch twice is merging it once |
| DataContext.PatientsUpdatedIdempotent | src/contexts/DataContext.tsx:52-54 | repeating `updatePatient(id, patch)` changes nothing |
| DataContext.PatientsUpdatedSpec | src/contexts/DataContext.tsx:52-54 | an update keeps the length and order; records with the id become the merge, all others are unchanged (all duplicates are updated) |
| Seqs.Filter | src/pages/ANC.tsx:17-20 | `Array.filter`: the result holds exactly the kept elements and is no longer than the input |
| Seqs.FilterMultiplicity | src/pages/ANC.tsx:17-20 | a filter keeps every copy of a kept element and no copy of a dropped one |
| Seqs.FilterIsSubsequence | src/pages/ANC.tsx:17-20 | a filtered list is an order-preserving subsequence of its input |
| Seqs.FilterKeepsAll | src/pages/ANC.tsx:17-20 | a filter that keeps every element returns the input |
| Seqs.FilterIdempotent | src/contexts/DataContext.tsx:57 | filtering twice by the same predicate is filtering once |
| Seqs.FilterAppend | src/contexts/DataContext.tsx:49 | filtering an appended list filters the prefix and the new element separately |
| Seqs.FilterCountsAdd | src/pages/KPI.tsx:42-71 | counts by two predicates that never hold together add up to the count by their disjunction |
| Seqs.FilterCountsComplement | src/pages/KPI.tsx:34-39 | the count by a predicate plus the count by its negation is the length |
| Seqs.Replace | src/contexts/DataContext.tsx:53 | `Array.map` with a conditional: same length, hits are transformed, misses are unchanged |
| Seqs.FindIndex | src/components/Forms/DeliveryForm.tsx:27 | the index of the first element that matches, or none exactly when nothing matches |
| Seqs.Find | src/pages/PatientPreview.tsx:27 | `Array.find`: the first element that matches, or none exactly when nothing matches |
| Text.ContainsEmpty | src/pages/ANC.tsx:18-19 | every string includes the empty string |
| Text.EmptyTermMatches | src/pages/ANC.tsx:18-19 | when lower-casing maps "" to "", the empty search term matches any field |
| PatientForm.CalculateBmi | src/components/Forms/PatientForm.tsx:30-35 | 0 when weight or height is 0; otherwise a one-decimal value within half a unit of the last place of `weight/(height/100)^2`, rounding half up |
| PatientForm.BmiRoundingIsUnique | src/components/Forms/PatientForm.tsx:32 | only one one-decimal value lies in that rounding window, so the contract determines the BMI |
| PatientForm.BmiExamples | src/components/Forms/PatientForm.tsx:30-35 | (70, 170) gives 24.2, (65, 165) gives 23.9, and a zero weight or height gives 0 |
| PatientForm.ChangeField | src/components/Forms/PatientForm.tsx:26-28 | the named field takes the new value and every other field is unchanged |
| PatientForm.InitialForm | src/components/Forms/PatientForm.tsx:15-24 | blanks and a screening visit without a patient; when editing, all eight fields are the patient's own values |
| PatientForm.SubmittedRecord | src/components/Forms/PatientForm.tsx:40-50 | the form's eight fields are copied; the BMI is recomputed from the submitted weight and height; an edited patient keeps a non-empty `createdAt`, while a new patient or one with an empty `createdAt` gets `now`; no id and none of the optional keys |
| PatientForm.SubmittedPatch | src/components/Forms/PatientForm.tsx:42-53 | the submitted object, as a partial record, carries exactly the form's fields plus `bmi` and `createdAt`, and no id |
| PatientForm.EditStoresConsistentBmi | src/components/Forms/PatientForm.tsx:40-53 | whichever record an edit lands on, its stored BMI matches its stored weight and height |
| PatientForm.EditKeepsUnshownFields | src/components/Forms/PatientForm.tsx:42-53 | an edit keeps the id, vital signs, histories, assignments, risk, schedule and referral |
| PatientForm.UnchangedSubmitIsNoop | src/components/Forms/PatientForm.tsx:15-53 | opening and submitting the form unchanged on a consistent patient leaves the patient unchanged |
| PatientForm.PatientFormState.constructor | src/components/Forms/PatientForm.tsx:13-24 | the form state starts from the initial form and no close call |
| PatientForm.PatientFormState.HandleInputChange | src/components/Forms/PatientForm.tsx:26-28 | the state's form changes only in the named field |
| PatientForm.PatientFormState.HandleSubmit | src/components/Forms/PatientForm.tsx:37-59 | when editing, exactly one `updatePatient(patient.id, data)` and no add; otherwise exactly one `addPatient(data)`; then one `onClose`; other collections unchanged |
| DeliveryForm.ChangeField | src/components/Forms/DeliveryForm.tsx:36-38 | the named delivery field takes the new value and every other field is unchanged |
| DeliveryForm.FindByFileNumber | src/components/Forms/DeliveryForm.tsx:27 | the first patient whose file number is exactly equal (case-sensitive), or none when no patient has it |
| DeliveryForm.ComplicationList | src/components/Forms/DeliveryForm.tsx:49 | `[]` exactly when the text is empty, otherwise the one-element list of the text |
| DeliveryForm.BuildDelivery | src/components/Forms/DeliveryForm.tsx:45-53 | the record's patient part is the matched patient in full, and its date, type, complication list, baby weight, gender and Apgar score come from the form |
| DeliveryForm.StoredDeliveryIsSnapshot | src/components/Forms/DeliveryForm.tsx:45-55 | the stored record agrees with the patient on every field but the id, and its delivery fields come from the form |
| DeliveryForm.DeliveryFormState.constructor | src/components/Forms/DeliveryForm.tsx:14-24 | step 1, empty file number, no patient, defaults `normal` and `female` |
| DeliveryForm.DeliveryFormState.SetFileNumber | src/components/Forms/DeliveryForm.tsx:83 | the file number input sets only `fileNumber` |
| DeliveryForm.DeliveryFormState.HandleFileNumberCheck | src/components/Forms/DeliveryForm.tsx:26-34 | on a hit: the first match becomes the patient and step 2 follows; on a miss: patient and step are unchanged and one "not found" alert is raised |
| DeliveryForm.DeliveryFormState.HandleInputChange | src/components/Forms/DeliveryForm.tsx:36-38 | the state's delivery form changes only in the named field |
| DeliveryForm.DeliveryFormState.HandleSubmit | src/components/Forms/DeliveryForm.tsx:40-57 | without a patient it touches nothing; otherwise exactly one `addDelivery` of the snapshot, then `onClose`; patients unchanged |
| DeliveryForm.DeliveryFormState.Back | src/components/Forms/DeliveryForm.tsx:167 | only the step goes back to 1; the found patient and the entered details are kept |
| DeliveryForm.DeliveryFormState.Cancel | src/components/Forms/DeliveryForm.tsx:170 | one `onClose` call and nothing else |
| PatientPreview.FindById | src/pages/PatientPreview.tsx:27 | the first patient with the route id, or none (the not-found branch) exactly when no patient has it |
| PatientPreview.PatchOf | src/pages/PatientPreview.tsx:43 | `editData` as a partial record supplies exactly the keys it carries, with its values |
| PatientPreview.SaveStoresEditData | src/pages/PatientPreview.tsx:41-46 | merging the edited copy into the stored patient yields the edited copy, when the copy lacks no key the stored record has |
| PatientPreview.EditVitals | src/pages/PatientPreview.tsx:179-213 | a vital-sign updater writes the new value into its reading and keeps the others, starting from no readings when vital signs are absent |
| PatientPreview.ApplyEdit | src/pages/PatientPreview.tsx:120-274 | a field updater writes its field and leaves every other field of the copy as it was; a vital-signs updater also keeps every other reading and `lastUpdated` of the old vital signs |
| PatientPreview.WeightEditLeavesBmiStale | src/pages/PatientPreview.tsx:148 | editing the weight keeps the old BMI (24.2 after 70 kg becomes 80 kg at 170 cm), which no longer matches the formula |
| PatientPreview.VitalEditOnMissingVitals | src/pages/PatientPreview.tsx:179-193 | editing the pulse of a patient with no vital signs yields vital signs holding only the pulse |
| PatientPreview.PreviewState.constructor | src/pages/PatientPreview.tsx:25-28 | not editing, and `editData` starts as the patient found by id |
| PatientPreview.PreviewState.StartEdit | src/pages/PatientPreview.tsx:80 | only `isEditing` becomes true |
| PatientPreview.PreviewState.Cancel | src/pages/PatientPreview.tsx:75 | only `isEditing` becomes false; `editData` is not reverted and the store is untouched |
| PatientPreview.PreviewState.EditField | src/pages/PatientPreview.tsx:120-274 | the copy gets the updater's edit whether or not editing is on; an absent copy stays absent |
| PatientPreview.PreviewState.HandleSave | src/pages/PatientPreview.tsx:41-46 | with a copy: exactly one `updatePatient(patient.id, editData)`, then editing ends; without one: nothing changes |
| DoctorForm.ChangeField | src/components/Forms/DoctorForm.tsx:23-25 | the named field takes the new value and every other field is unchanged |
| DoctorForm.InitialForm | src/components/Forms/DoctorForm.tsx:15-21 | empty strings without a doctor |
| DoctorForm.InitialFormMirrors | src/components/Forms/DoctorForm.tsx:15-33 | the form opened on a doctor holds that doctor's values, so submitting it rebuilds the doctor without the id |
| DoctorForm.SubmittedDoctor | src/components/Forms/DoctorForm.tsx:30-33 | the submitted data is the form with a numeric experience and carries no id |
| DoctorForm.SubmittedPatch | src/components/Forms/DoctorForm.tsx:30-36 | as a partial record it supplies every key except the id |
| DoctorForm.EditKeepsId | src/components/Forms/DoctorForm.tsx:35-36 | an edit never changes the id of the doctor it lands on |
| DoctorForm.UnchangedSubmitIsNoop | src/components/Forms/DoctorForm.tsx:15-36 | submitting an unchanged edit form leaves the doctor unchanged |
| DoctorForm.DoctorFormState.constructor | src/components/Forms/DoctorForm.tsx:13-21 | the form state starts from the initial form and no close call |
| DoctorForm.DoctorFormState.HandleInputChange | src/components/Forms/DoctorForm.tsx:23-25 | the state's form changes only in the named field |
| DoctorForm.DoctorFormState.HandleSubmit | src/components/Forms/DoctorForm.tsx:27-42 | when editing, exactly one `updateDoctor(doctor.id, data)`; otherwise exactly one `addDoctor(data)`; then `onClose`; other collections unchanged |
| NurseForm.ChangeField | src/components/Forms/NurseForm.tsx:23-25 | the named field takes the new value and every other field is unchanged |
| NurseForm.InitialForm | src/components/Forms/NurseForm.tsx:15-21 | empty strings without a nurse |
| NurseForm.InitialFormMirrors | src/components/Forms/NurseForm.tsx:15-33 | the form opened on a nurse holds that nurse's values, so submitting it rebuilds the nurse without the id |
| NurseForm.SubmittedNurse | src/components/Forms/NurseForm.tsx:30-33 | the submitted data is the form with a numeric experience and carries no id |
| NurseForm.SubmittedPatch | src/components/Forms/NurseForm.tsx:30-36 | as a partial record it supplies every key except the id |
| NurseForm.EditKeepsId | src/components/Forms/NurseForm.tsx:35-36 | an edit never changes the id of the nurse it lands on |
| NurseForm.UnchangedSubmitIsNoop | src/components/Forms/NurseForm.tsx:15-36 | submitting an unchanged edit form leaves the nurse unchanged |
| NurseForm.NurseFormState.constructor | src/components/Forms/NurseForm.tsx:13-21 | the form state starts from the initial form and no close call |
| NurseForm.NurseFormState.HandleInputChange | src/components/Forms/NurseForm.tsx:23-25 | the state's form changes only in the named field |
| NurseForm.NurseFormState.HandleSubmit | src/components/Forms/NurseForm.tsx:27-42 | when editing, exactly one `updateNurse(nurse.id, data)`; otherwise exactly one `addNurse(data)`; then `onClose`; other collections unchanged |
| Kpi.FollowUpIsComplement | src/pages/KPI.tsx:34-39 | `total - screening` is the number of follow-up patients |
| Kpi.RiskCountsBounded | src/pages/KPI.tsx:42-57 | low, medium and high counts sum to at most the patients, because the category is optional |
| Kpi.DeliveryTypeCountsBounded | src/pages/KPI.tsx:60-64 | normal, cesarean and assisted counts sum to at most the deliveries |
| Kpi.AgeGroupsDisjoint | src/pages/KPI.tsx:66-71 | the four age groups are pairwise disjoint, and ages under 20 fall in none |
| Kpi.AgeGroupCountsBounded | src/pages/KPI.tsx:66-71 | the four age-group counts sum to at most the patients |
| Kpi.Summary | src/pages/KPI.tsx:31-134 | totals are the lengths; each risk, delivery-type and age-group figure is its filter count; screening plus follow-up is the total; "This Month Visits" equals the patient total; the risk, type and age counts are bounded as above |
| Anc.FilteredPatients | src/pages/ANC.tsx:17-20 | an order-preserving subsequence; a patient is kept iff its lower-cased file number or name includes the lower-cased term, with every copy of a kept row |
| Anc.EmptySearchKeepsAllPatients | src/pages/ANC.tsx:17-20 | an empty search term lists every patient in store order |
| Anc.RiskBadge | src/pages/ANC.tsx:32-39 | low is green, medium yellow, high red, and any other or absent category grey |
| Anc.PatientRiskBadge | src/pages/ANC.tsx:140 | a row's badge is grey exactly when the patient has no risk category, and otherwise the colour of that category |
| Anc.PreviewPath | src/pages/ANC.tsx:22-24 | the route is `/anc/preview/` followed by the patient id |
| Anc.PreviewPathInjective | src/pages/ANC.tsx:22-24 | distinct ids give distinct preview routes |
| Anc.HandleDelete | src/pages/ANC.tsx:26-30 | `deletePatient(id)` runs exactly when the user confirms; otherwise the store is untouched |
| DeliveryPage.FilteredDeliveries | src/pages/Delivery.tsx:14-17 | an order-preserving subsequence; a delivery is kept iff its lower-cased file number or name includes the lower-cased term, with every copy of a kept row |
| DeliveryPage.EmptySearchKeepsAllDeliveries | src/pages/Delivery.tsx:14-17 | an empty search term lists every delivery |
| DeliveryPage.DeliveryBadge | src/pages/Delivery.tsx:19-26 | normal is green, cesarean orange, assisted blue, anything else grey |
| DeliveryPage.TypeLabel | src/pages/Delivery.tsx:118 | the type column shows the type's name, and "N/A" exactly when the type is missing |
| DeliveryPage.TypeBadge | src/pages/Delivery.tsx:117 | a row's badge is never grey; it is green exactly for normal or missing types |
| DeliveryPage.MissingTypeShownAsNormal | src/pages/Delivery.tsx:117-118 | a missing type is coloured like `normal` but labelled "N/A" |
| DeliveryPage.ApgarBadge | src/pages/Delivery.tsx:128-132 | green iff the score is present and at least 7; a missing score is red |
| DeliveryPage.ApgarShown | src/pages/Delivery.tsx:133 | the APGAR column shows "N/A" exactly when the score is missing or 0 |
| NursesPage.FilteredNurses | src/pages/Nurses.tsx:15-19 | an order-preserving subsequence; a nurse is kept iff the lower-cased name, department or email includes the lower-cased term, with every copy of a kept row |
| NursesPage.EmptySearchKeepsAllNurses | src/pages/Nurses.tsx:15-19 | an empty search term lists every nurse |
| NursesPage.NursesPageState.constructor | src/pages/Nurses.tsx:12-13 | the modal is closed and no nurse is being edited |
| NursesPage.NursesPageState.ModalTitle | src/pages/Nurses.tsx:168 | the title is "Add New Nurse" exactly when no nurse is being edited, else "Edit Nurse" |
| NursesPage.NursesPageState.HandleEdit | src/pages/Nurses.tsx:21-24 | the modal opens on the given nurse under the edit title |
| NursesPage.NursesPageState.OpenAdd | src/pages/Nurses.tsx:52 | opens the modal without touching `editingNurse`; from a closed modal the title is the add title |
| NursesPage.NursesPageState.HandleCloseModal | src/pages/Nurses.tsx:32-35 | the modal closes and `editingNurse` is cleared |
| NursesPage.NursesPageState.HandleDelete | src/pages/Nurses.tsx:26-30 | `deleteNurse(id)` runs exactly when the user confirms; otherwise the store is untouched |
| Scenarios.Register | src/components/Forms/PatientForm.tsx:37-59 | registering ANC0042 at 65 kg and 165 cm in an empty store stores her with BMI 23.9 |
| Scenarios.Link | src/components/Forms/DeliveryForm.tsx:26-57 | linking a cesarean delivery to her stores a copy of her under the delivery's id, with no complications |
| Scenarios.Rename | src/components/Forms/PatientForm.tsx:37-59 | renaming her through the edit form keeps her id, file number, measurements and creation time, and leaves deliveries unchanged |
| Scenarios.RegisterLinkRename | src/contexts/DataContext.tsx:52-54 | after the rename the patient is "Jane Smith" while the linked delivery still says "Jane Doe" |

## Left out

- Id allocation: `Date.now().toString()` is replaced by a `newId` parameter. Two adds within the same millisecond would collide in the app. Lemmas that need a fresh id take it as a hypothesis.
- Wall-clock time: `new Date().toISOString()` is a `now` parameter. The delivery page's `toLocaleDateString` formatting is not modelled.
- Number parsing and floating point: form values are numbers already, with an empty input standing for 0 (what `Number('')` gives). BMI is computed over exact reals, not IEEE doubles.
- Lower-casing and Unicode: `toLowerCase` is an arbitrary total function, and the empty-search lemmas assume it maps "" to "".
- `alert` and `confirm`: the delivery form counts "not found" alerts, and the delete handlers take the user's answer as a boolean.
- React mechanics: `useState` and `useEffect` scheduling, re-rendering, routing, the `useData` guard outside a provider, and all markup, styling and charts.
- KPI's hard-coded monthly trends and percentages are not modelled.
- The seed data generator and the mock API client are not part of this model. The seed is an arbitrary input to `LoadSeed`.
- Back sets the step to 1 and keeps the found patient and the entered details, as `DeliveryForm.DeliveryFormState.Back` does.
- Patient age is an `int` in the model. The app stores `Number(...)` of the age input, so a fractional age such as 25.5, 30.5 or 35.2 can occur. The KPI age groups 20-25, 26-30 and 31-35 leave such ages out, and the 36+ group (`age > 35`) catches 35.2. The model's integer ages cannot show these gaps.
- The file-number check is not disabled in the model. The app disables its button while the file number is empty. `HandleFileNumberCheck` accepts any file number instead, and an empty one simply matches patients with an empty file number.
- The ANC and Delivery pages' `isAddModalOpen` flags for their add modals, and the unused delivery "View Details" button, carry no logic and are not modelled.
- Anc.RiskBadge: a category string naming a built-in object property (such as "constructor") would look up that property in JavaScript rather than fall back to grey. The model sends every string other than the three keys to grey. The same holds for DeliveryPage.DeliveryBadge.
- PatientPreview.PreviewState.HandleSave: requires that the route id finds a patient, because the page renders the not-found branch and offers no Save otherwise.
