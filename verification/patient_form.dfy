/**
 * The patient form (src/components/Forms/PatientForm.tsx): BMI, the form
 * state, and the submit that adds a new patient or updates the one being
 * edited. Form values are held already converted to numbers; an empty
 * numeric input is 0, which is what `Number('')` gives.
 */
module PatientForm {
  import opened Wrappers
  import opened Types
  import opened DataContext

  // ---------------------------------------------------------------------------
  // BMI
  // ---------------------------------------------------------------------------

  /** The unrounded body-mass index: kilograms over metres squared. */
  function RawBmi(weight: real, height: real): real
    requires height != 0.0
  {
    weight / ((height / 100.0) * (height / 100.0))
  }

  /** `x` has at most one decimal place. */
  predicate OneDecimal(x: real) {
    (x * 10.0).Floor as real == x * 10.0
  }

  /**
   * `calculateBMI`: 0 when either input is 0, otherwise the raw BMI rounded
   * half up to one decimal (`Math.round(x * 10) / 10`, where `Math.round(y)`
   * is `Floor(y + 0.5)`).
   */
  function CalculateBmi(weight: real, height: real): (bmi: real)
    ensures weight == 0.0 || height == 0.0 ==> bmi == 0.0
    ensures weight != 0.0 && height != 0.0 ==>
              OneDecimal(bmi) && RawBmi(weight, height) - 0.05 < bmi <= RawBmi(weight, height) + 0.05
  {
    if weight == 0.0 || height == 0.0 then 0.0
    else (RawBmi(weight, height) * 10.0 + 0.5).Floor as real / 10.0
  }

  /**
   * The two properties in `CalculateBmi`'s contract pin its result down: one
   * decimal within half a tenth of the raw value, the upper end included
   * (so a value exactly between two tenths goes up).
   */
  lemma BmiRoundingIsUnique(weight: real, height: real, b: real)
    requires weight != 0.0 && height != 0.0
    requires OneDecimal(b) && RawBmi(weight, height) - 0.05 < b <= RawBmi(weight, height) + 0.05
    ensures b == CalculateBmi(weight, height)
  {
    var c := CalculateBmi(weight, height);
    var m, k := (b * 10.0).Floor, (c * 10.0).Floor;
    assert m as real == b * 10.0 && k as real == c * 10.0;
    assert -1 < m - k < 1;
  }

  /** Worked values: 70 kg at 170 cm and 65 kg at 165 cm, and the zero guard. */
  lemma BmiExamples()
    ensures CalculateBmi(70.0, 170.0) == 24.2
    ensures CalculateBmi(65.0, 165.0) == 23.9
    ensures CalculateBmi(0.0, 170.0) == 0.0
    ensures CalculateBmi(70.0, 0.0) == 0.0
  {
    assert RawBmi(70.0, 170.0) * 10.0 + 0.5 == 700.0 / 2.89 + 0.5;
    assert 242.0 <= 700.0 / 2.89 + 0.5 < 243.0;
    assert RawBmi(65.0, 165.0) * 10.0 + 0.5 == 650.0 / 2.7225 + 0.5;
    assert 239.0 <= 650.0 / 2.7225 + 0.5 < 240.0;
  }

  // ---------------------------------------------------------------------------
  // Form state
  // ---------------------------------------------------------------------------

  datatype PatientFormData = PatientFormData(
    fileNumber: string,
    name: string,
    nationality: string,
    age: int,
    weight: real,
    height: real,
    phone: string,
    typeOfVisit: VisitType)

  datatype PatientFormField =
    | FileNumberInput | NameInput | NationalityInput | AgeInput
    | WeightInput | HeightInput | PhoneInput | TypeOfVisitInput

  /** A form value of any of the form's field types. */
  datatype FormValue = Text(text: string) | Integer(integer: int) | Decimal(decimal: real) | Visit(visit: VisitType)

  /** `formData[field]`. */
  function Get(form: PatientFormData, field: PatientFormField): FormValue {
    match field
    case FileNumberInput => Text(form.fileNumber)
    case NameInput => Text(form.name)
    case NationalityInput => Text(form.nationality)
    case AgeInput => Integer(form.age)
    case WeightInput => Decimal(form.weight)
    case HeightInput => Decimal(form.height)
    case PhoneInput => Text(form.phone)
    case TypeOfVisitInput => Visit(form.typeOfVisit)
  }

  /** One `handleInputChange(field, value)` call, with a value of the field's type. */
  datatype PatientInput =
    | SetFileNumber(text: string) | SetName(text: string) | SetNationality(text: string)
    | SetAge(integer: int) | SetWeight(decimal: real) | SetHeight(decimal: real)
    | SetPhone(text: string) | SetTypeOfVisit(visit: VisitType)
  {
    function Field(): PatientFormField {
      match this
      case SetFileNumber(_) => FileNumberInput
      case SetName(_) => NameInput
      case SetNationality(_) => NationalityInput
      case SetAge(_) => AgeInput
      case SetWeight(_) => WeightInput
      case SetHeight(_) => HeightInput
      case SetPhone(_) => PhoneInput
      case SetTypeOfVisit(_) => TypeOfVisitInput
    }

    function Value(): FormValue {
      match this
      case SetFileNumber(s) => Text(s)
      case SetName(s) => Text(s)
      case SetNationality(s) => Text(s)
      case SetAge(n) => Integer(n)
      case SetWeight(x) => Decimal(x)
      case SetHeight(x) => Decimal(x)
      case SetPhone(s) => Text(s)
      case SetTypeOfVisit(v) => Visit(v)
    }
  }

  /** `{ ...prev, [field]: value }`: the named field takes the value, the others keep theirs. */
  function ChangeField(form: PatientFormData, e: PatientInput): (r: PatientFormData)
    ensures Get(r, e.Field()) == e.Value()
    ensures forall g :: g != e.Field() ==> Get(r, g) == Get(form, g)
  {
    match e
    case SetFileNumber(s) => form.(fileNumber := s)
    case SetName(s) => form.(name := s)
    case SetNationality(s) => form.(nationality := s)
    case SetAge(n) => form.(age := n)
    case SetWeight(x) => form.(weight := x)
    case SetHeight(x) => form.(height := x)
    case SetPhone(s) => form.(phone := s)
    case SetTypeOfVisit(v) => form.(typeOfVisit := v)
  }

  /** The initial `formData`: the edited patient's values, or blanks and a screening visit. */
  function InitialForm(patient: Option<Patient>): (form: PatientFormData)
    ensures patient.None? ==> form == PatientFormData("", "", "", 0, 0.0, 0.0, "", Screening)
    ensures patient.Some? ==>
              form.fileNumber == patient.value.fileNumber && form.name == patient.value.name &&
              form.nationality == patient.value.nationality && form.age == patient.value.age &&
              form.weight == patient.value.weight && form.height == patient.value.height &&
              form.phone == patient.value.phone && form.typeOfVisit == patient.value.typeOfVisit
  {
    match patient
    case None => PatientFormData("", "", "", 0, 0.0, 0.0, "", Screening)
    case Some(p) => PatientFormData(p.fileNumber, p.name, p.nationality, p.age,
                                    p.weight, p.height, p.phone, p.typeOfVisit)
  }

  // ---------------------------------------------------------------------------
  // Submit
  // ---------------------------------------------------------------------------

  /** `patient?.createdAt || now`: an edited patient keeps a non-empty creation time. */
  function CreatedAtFor(existing: Option<Patient>, now: string): string {
    if existing.Some? && existing.value.createdAt != "" then existing.value.createdAt else now
  }

  /**
   * The record `handleSubmit` builds: the form's values, the BMI recomputed
   * from the submitted weight and height, and `createdAt`. It has none of the
   * optional keys and no id (`addPatient` allocates one; "" stands for none).
   */
  function SubmittedRecord(form: PatientFormData, existing: Option<Patient>, now: string): (p: Patient)
    ensures p.bmi == CalculateBmi(p.weight, p.height)
    ensures p.weight == form.weight && p.height == form.height
    ensures existing.Some? && existing.value.createdAt != "" ==> p.createdAt == existing.value.createdAt
    ensures existing.None? || existing.value.createdAt == "" ==> p.createdAt == now
    ensures p.id == ""
    ensures p.fileNumber == form.fileNumber && p.name == form.name && p.nationality == form.nationality
    ensures p.age == form.age && p.phone == form.phone && p.typeOfVisit == form.typeOfVisit
    ensures p.vitalSigns.None? && p.medicalHistory.None? && p.socialHistory.None?
    ensures p.assignedDoctor.None? && p.assignedNurse.None? && p.riskScore.None?
    ensures p.riskCategory.None? && p.visitSchedule.None? && p.referral.None?
  {
    Patient("", form.fileNumber, form.name, form.nationality, form.age, form.weight,
            form.height, form.phone, CalculateBmi(form.weight, form.height), form.typeOfVisit,
            CreatedAtFor(existing, now), None, None, None, None, None, None, None, None, None)
  }

  /** The keys the submitted object carries. */
  const SubmittedFields: set<PatientField> :=
    {FileNumberField, NameField, NationalityField, AgeField, WeightField, HeightField,
     PhoneField, BmiField, TypeOfVisitField, CreatedAtField}

  /** The submitted object seen as the `Partial<Patient>` that `updatePatient` merges. */
  function SubmittedPatch(p: Patient): (d: PatientPatch)
    ensures forall f :: d.Supplies(f) <==> f in SubmittedFields
    ensures forall f :: d.Supplies(f) ==> d.Sets(p, f)
  {
    PatientPatch(None, Some(p.fileNumber), Some(p.name), Some(p.nationality), Some(p.age),
                 Some(p.weight), Some(p.height), Some(p.phone), Some(p.bmi), Some(p.typeOfVisit),
                 Some(p.createdAt), None, None, None, None, None, None, None, None, None)
  }

  /**
   * Whatever record an edit lands on, its stored BMI is the one computed
   * from its stored weight and height.
   */
  lemma EditStoresConsistentBmi(form: PatientFormData, existing: Option<Patient>, now: string, q: Patient)
    ensures var r := SubmittedPatch(SubmittedRecord(form, existing, now)).ApplyTo(q);
            r.bmi == CalculateBmi(r.weight, r.height)
  {
    var d := SubmittedPatch(SubmittedRecord(form, existing, now));
    assert d.Sets(d.ApplyTo(q), BmiField) && d.Sets(d.ApplyTo(q), WeightField) && d.Sets(d.ApplyTo(q), HeightField);
  }

  /**
   * An edit keeps everything the form does not show: id, vital signs,
   * histories, staff assignments, risk, schedule and referral.
   */
  lemma EditKeepsUnshownFields(form: PatientFormData, existing: Option<Patient>, now: string, q: Patient)
    ensures forall f :: f !in SubmittedFields ==>
              f.Agrees(q, SubmittedPatch(SubmittedRecord(form, existing, now)).ApplyTo(q))
  {
  }

  /**
   * Opening the form on a patient whose BMI is consistent and whose creation
   * time is set, and submitting it unchanged, leaves the patient unchanged.
   */
  lemma UnchangedSubmitIsNoop(p: Patient, now: string)
    requires p.bmi == CalculateBmi(p.weight, p.height) && p.createdAt != ""
    ensures SubmittedPatch(SubmittedRecord(InitialForm(Some(p)), Some(p), now)).ApplyTo(p) == p
  {
  }

  /**
   * The form component's state. `closeCalls` counts the calls of the
   * `onClose` callback.
   */
  class PatientFormState {
    const patient: Option<Patient>
    var formData: PatientFormData
    var closeCalls: nat

    constructor (patient: Option<Patient>)
      ensures this.patient == patient && formData == InitialForm(patient) && closeCalls == 0
    {
      this.patient := patient;
      formData := InitialForm(patient);
      closeCalls := 0;
    }

    method HandleInputChange(e: PatientInput)
      modifies this`formData
      ensures formData == ChangeField(old(formData), e)
    {
      formData := ChangeField(formData, e);
    }

    /**
     * `handleSubmit`: with a patient being edited, exactly one
     * `updatePatient(patient.id, data)`; otherwise exactly one
     * `addPatient(data)`. Then `onClose`.
     */
    method HandleSubmit(store: DataStore, now: string, newId: Id)
      modifies store, this`closeCalls
      ensures var rec := SubmittedRecord(formData, patient, now);
              if patient.Some? then
                store.patients == PatientsUpdated(old(store.patients), patient.value.id, SubmittedPatch(rec)) &&
                store.calls == old(store.calls) + [UpdatePatientCall(patient.value.id, SubmittedPatch(rec))]
              else
                store.patients == old(store.patients) + [rec.(id := newId)] &&
                store.calls == old(store.calls) + [AddPatientCall(rec, newId)]
      ensures store.doctors == old(store.doctors) && store.nurses == old(store.nurses)
      ensures store.deliveries == old(store.deliveries)
      ensures closeCalls == old(closeCalls) + 1
    {
      var rec := SubmittedRecord(formData, patient, now);
      if patient.Some? {
        store.UpdatePatient(patient.value.id, SubmittedPatch(rec));
      } else {
        store.AddPatient(rec, newId);
      }
      closeCalls := closeCalls + 1;
    }
  }
}
