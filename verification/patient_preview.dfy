/**
 * The patient preview page (src/pages/PatientPreview.tsx): the patient is
 * looked up by the route id; `editData` starts as that patient and is
 * changed by the field updaters; Save merges it into the store.
 */
module PatientPreview {
  import opened Wrappers
  import opened Types
  import opened Seqs
  import opened DataContext
  import PatientForm

  /** `patients.find(p => p.id === id)`. */
  function FindById(patients: seq<Patient>, id: Id): (r: Option<Patient>)
    ensures r.None? <==> forall i :: 0 <= i < |patients| ==> patients[i].id != id
    ensures r.Some? ==> exists k :: 0 <= k < |patients| && patients[k] == r.value &&
                                    r.value.id == id &&
                                    forall j :: 0 <= j < k ==> patients[j].id != id
  {
    Find(patients, (p: Patient) => p.id == id)
  }

  /** `f in p`: required keys are always present; an optional one when it is set. */
  predicate HasKey(p: Patient, f: PatientField) {
    match f
    case VitalSignsField => p.vitalSigns.Some?
    case MedicalHistoryField => p.medicalHistory.Some?
    case SocialHistoryField => p.socialHistory.Some?
    case AssignedDoctorField => p.assignedDoctor.Some?
    case AssignedNurseField => p.assignedNurse.Some?
    case RiskScoreField => p.riskScore.Some?
    case RiskCategoryField => p.riskCategory.Some?
    case VisitScheduleField => p.visitSchedule.Some?
    case ReferralField => p.referral.Some?
    case _ => true
  }

  function Key<T>(x: Option<T>): Option<Option<T>> {
    if x.Some? then Some(x) else None
  }

  /** A whole patient object passed where a `Partial<Patient>` is expected: exactly its own keys. */
  function PatchOf(p: Patient): (d: PatientPatch)
    ensures forall f :: d.Supplies(f) <==> HasKey(p, f)
    ensures forall f :: d.Supplies(f) ==> d.Sets(p, f)
  {
    PatientPatch(Some(p.id), Some(p.fileNumber), Some(p.name), Some(p.nationality), Some(p.age),
                 Some(p.weight), Some(p.height), Some(p.phone), Some(p.bmi), Some(p.typeOfVisit),
                 Some(p.createdAt), Key(p.vitalSigns), Key(p.medicalHistory), Key(p.socialHistory),
                 Key(p.assignedDoctor), Key(p.assignedNurse), Key(p.riskScore), Key(p.riskCategory),
                 Key(p.visitSchedule), Key(p.referral))
  }

  /**
   * Save stores `editData` itself, provided every optional key it lacks is
   * also missing from the stored record (a key the patch lacks keeps the
   * stored value).
   */
  lemma SaveStoresEditData(stored: Patient, e: Patient)
    requires forall f :: !HasKey(e, f) ==> !HasKey(stored, f)
    ensures PatchOf(e).ApplyTo(stored) == e
  {
    var r := PatchOf(e).ApplyTo(stored);
    assert r.vitalSigns == e.vitalSigns by { assert !HasKey(e, VitalSignsField) ==> !HasKey(stored, VitalSignsField); }
    assert r.medicalHistory == e.medicalHistory by { assert !HasKey(e, MedicalHistoryField) ==> !HasKey(stored, MedicalHistoryField); }
    assert r.socialHistory == e.socialHistory by { assert !HasKey(e, SocialHistoryField) ==> !HasKey(stored, SocialHistoryField); }
    assert r.assignedDoctor == e.assignedDoctor by { assert !HasKey(e, AssignedDoctorField) ==> !HasKey(stored, AssignedDoctorField); }
    assert r.assignedNurse == e.assignedNurse by { assert !HasKey(e, AssignedNurseField) ==> !HasKey(stored, AssignedNurseField); }
    assert r.riskScore == e.riskScore by { assert !HasKey(e, RiskScoreField) ==> !HasKey(stored, RiskScoreField); }
    assert r.riskCategory == e.riskCategory by { assert !HasKey(e, RiskCategoryField) ==> !HasKey(stored, RiskCategoryField); }
    assert r.visitSchedule == e.visitSchedule by { assert !HasKey(e, VisitScheduleField) ==> !HasKey(stored, VisitScheduleField); }
    assert r.referral == e.referral by { assert !HasKey(e, ReferralField) ==> !HasKey(stored, ReferralField); }
  }

  /** A vital-signs object with no readings: what spreading `undefined` yields. */
  const NoVitals := VitalSigns(None, None, None, None, None)

  datatype VitalReading = BloodPressure | Pulse | Temperature | Oxygen | LastUpdated
  {
    predicate Agrees(v: VitalSigns, w: VitalSigns) {
      match this
      case BloodPressure => v.bloodPressure == w.bloodPressure
      case Pulse => v.pulse == w.pulse
      case Temperature => v.temperature == w.temperature
      case Oxygen => v.oxygen == w.oxygen
      case LastUpdated => v.lastUpdated == w.lastUpdated
    }
  }

  /** One field updater of the page (an `onChange` that calls `setEditData`). */
  datatype PreviewEdit =
    | EditName(text: string) | EditNationality(text: string) | EditAge(age: int)
    | EditPhone(text: string) | EditWeight(weight: real) | EditHeight(height: real)
    | EditBloodPressure(text: string) | EditPulse(pulse: int)
    | EditTemperature(temperature: real) | EditOxygen(oxygen: int)
    | EditAssignedDoctor(doctor: Id) | EditAssignedNurse(nurse: Id)
  {
    /** The patient field the updater writes. */
    function Field(): PatientField {
      match this
      case EditName(_) => NameField
      case EditNationality(_) => NationalityField
      case EditAge(_) => AgeField
      case EditPhone(_) => PhoneField
      case EditWeight(_) => WeightField
      case EditHeight(_) => HeightField
      case EditAssignedDoctor(_) => AssignedDoctorField
      case EditAssignedNurse(_) => AssignedNurseField
      case _ => VitalSignsField
    }

    /** The vital-signs reading a vital-signs updater writes. */
    function Reading(): Option<VitalReading> {
      match this
      case EditBloodPressure(_) => Some(BloodPressure)
      case EditPulse(_) => Some(Pulse)
      case EditTemperature(_) => Some(Temperature)
      case EditOxygen(_) => Some(Oxygen)
      case _ => None
    }

    /** `p` holds the value this updater writes. */
    predicate Written(p: Patient) {
      match this
      case EditName(s) => p.name == s
      case EditNationality(s) => p.nationality == s
      case EditAge(n) => p.age == n
      case EditPhone(s) => p.phone == s
      case EditWeight(w) => p.weight == w
      case EditHeight(h) => p.height == h
      case EditBloodPressure(s) => p.vitalSigns.Some? && p.vitalSigns.value.bloodPressure == Some(s)
      case EditPulse(n) => p.vitalSigns.Some? && p.vitalSigns.value.pulse == Some(n)
      case EditTemperature(t) => p.vitalSigns.Some? && p.vitalSigns.value.temperature == Some(t)
      case EditOxygen(n) => p.vitalSigns.Some? && p.vitalSigns.value.oxygen == Some(n)
      case EditAssignedDoctor(d) => p.assignedDoctor == Some(d)
      case EditAssignedNurse(n) => p.assignedNurse == Some(n)
    }
  }

  /** `{ ...prev.vitalSigns!, reading: value }`; an absent object spreads as no readings. */
  function EditVitals(v: Option<VitalSigns>, e: PreviewEdit): (w: VitalSigns)
    requires e.Reading().Some?
    ensures forall r :: r != e.Reading().value ==> r.Agrees(v.GetOr(NoVitals), w)
    ensures e.EditBloodPressure? ==> w.bloodPressure == Some(e.text)
    ensures e.EditPulse? ==> w.pulse == Some(e.pulse)
    ensures e.EditTemperature? ==> w.temperature == Some(e.temperature)
    ensures e.EditOxygen? ==> w.oxygen == Some(e.oxygen)
  {
    var base := v.GetOr(NoVitals);
    match e
    case EditBloodPressure(s) => base.(bloodPressure := Some(s))
    case EditPulse(n) => base.(pulse := Some(n))
    case EditTemperature(t) => base.(temperature := Some(t))
    case EditOxygen(n) => base.(oxygen := Some(n))
  }

  /**
   * `{ ...prev, field: value }`: the updater's field changes and no other;
   * a vital-signs updater keeps every other reading of the old object.
   */
  function ApplyEdit(p: Patient, e: PreviewEdit): (r: Patient)
    ensures SameExcept(p, r, e.Field())
    ensures e.Written(r)
    ensures e.Reading().Some? ==>
              r.vitalSigns.Some? &&
              forall rd :: rd != e.Reading().value ==> rd.Agrees(p.vitalSigns.GetOr(NoVitals), r.vitalSigns.value)
  {
    match e
    case EditName(s) => p.(name := s)
    case EditNationality(s) => p.(nationality := s)
    case EditAge(n) => p.(age := n)
    case EditPhone(s) => p.(phone := s)
    case EditWeight(w) => p.(weight := w)
    case EditHeight(h) => p.(height := h)
    case EditAssignedDoctor(d) => p.(assignedDoctor := Some(d))
    case EditAssignedNurse(n) => p.(assignedNurse := Some(n))
    case _ => p.(vitalSigns := Some(EditVitals(p.vitalSigns, e)))
  }

  /**
   * Editing weight or height does not recompute the BMI: the stored BMI of
   * a consistent 70 kg / 170 cm patient stays 24.2 after the weight becomes
   * 80 kg, though the BMI of 80 kg at 170 cm is above 27.
   */
  lemma WeightEditLeavesBmiStale(p: Patient)
    requires p.weight == 70.0 && p.height == 170.0 && p.bmi == 24.2
    ensures ApplyEdit(p, EditWeight(80.0)).bmi == 24.2
    ensures ApplyEdit(p, EditWeight(80.0)).bmi != PatientForm.CalculateBmi(80.0, 170.0)
  {
    assert PatientForm.RawBmi(80.0, 170.0) == 800.0 / 28.9;
  }

  /**
   * A vital-signs updater on a patient with no vital signs yields an object
   * holding only the edited reading.
   */
  lemma VitalEditOnMissingVitals(p: Patient, n: int)
    requires p.vitalSigns.None?
    ensures ApplyEdit(p, EditPulse(n)).vitalSigns == Some(VitalSigns(None, Some(n), None, None, None))
  {
  }

  /** The page's state. The not-found branch has no handlers, so they all need a found patient. */
  class PreviewState {
    const routeId: Id
    var isEditing: bool
    var editData: Option<Patient>

    /** Mount: `editData` is the patient the route id finds, if any; not editing. */
    constructor (patients: seq<Patient>, id: Id)
      ensures routeId == id && editData == FindById(patients, id) && !isEditing
    {
      routeId := id;
      editData := FindById(patients, id);
      isEditing := false;
    }

    /** "Edit Patient". */
    method StartEdit()
      modifies this`isEditing
      ensures isEditing
    {
      isEditing := true;
    }

    /** "Cancel": leaves editing; `editData` is not reverted and the store is untouched. */
    method Cancel()
      modifies this`isEditing
      ensures !isEditing
    {
      isEditing := false;
    }

    /** A field updater; it works whether or not the page is in editing mode. */
    method EditField(e: PreviewEdit)
      modifies this`editData
      ensures editData == if old(editData).Some? then Some(ApplyEdit(old(editData).value, e)) else None
    {
      if editData.Some? {
        editData := Some(ApplyEdit(editData.value, e));
      }
    }

    /** `handleSave`: with `editData` present, one `updatePatient(patient.id, editData)`, then leave editing. */
    method HandleSave(store: DataStore)
      requires FindById(store.patients, routeId).Some?
      modifies store, this`isEditing
      ensures editData.Some? ==>
                store.patients == PatientsUpdated(old(store.patients), routeId, PatchOf(editData.value)) &&
                store.calls == old(store.calls) + [UpdatePatientCall(routeId, PatchOf(editData.value))] &&
                !isEditing
      ensures editData.None? ==>
                store.patients == old(store.patients) && store.calls == old(store.calls) &&
                isEditing == old(isEditing)
      ensures store.doctors == old(store.doctors) && store.nurses == old(store.nurses)
      ensures store.deliveries == old(store.deliveries)
    {
      var patient := FindById(store.patients, routeId).value;
      if editData.Some? {
        store.UpdatePatient(patient.id, PatchOf(editData.value));
        isEditing := false;
      }
    }
  }
}
