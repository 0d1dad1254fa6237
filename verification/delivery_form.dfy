/**
 * The delivery-linking workflow (src/components/Forms/DeliveryForm.tsx).
 * Step 1 looks a patient up by exact file number; step 2 collects the
 * delivery details and adds a delivery record that is a copy of the patient
 * with the delivery fields laid over it.
 */
module DeliveryForm {
  import opened Wrappers
  import opened Types
  import opened Seqs
  import opened DataContext

  /** The two steps (`step === 1` and `step === 2`). */
  datatype Step = Lookup | Details

  /** Step 2's `formData`, with the numeric inputs already numbers (`Number('')` is 0). */
  datatype DeliveryFormData = DeliveryFormData(
    deliveryDate: string,
    deliveryType: DeliveryType,
    complications: string,
    babyWeight: real,
    babyGender: BabyGender,
    apgarScore: int)

  const InitialDeliveryForm := DeliveryFormData("", Normal, "", 0.0, Female, 0)

  datatype DeliveryFormField =
    | DeliveryDateInput | DeliveryTypeInput | ComplicationsInput
    | BabyWeightInput | BabyGenderInput | ApgarScoreInput

  datatype DeliveryValue =
    | TextValue(text: string) | KindValue(kind: DeliveryType) | WeightValue(weight: real)
    | GenderValue(gender: BabyGender) | ScoreValue(score: int)

  /** `formData[field]`. */
  function Get(form: DeliveryFormData, field: DeliveryFormField): DeliveryValue {
    match field
    case DeliveryDateInput => TextValue(form.deliveryDate)
    case DeliveryTypeInput => KindValue(form.deliveryType)
    case ComplicationsInput => TextValue(form.complications)
    case BabyWeightInput => WeightValue(form.babyWeight)
    case BabyGenderInput => GenderValue(form.babyGender)
    case ApgarScoreInput => ScoreValue(form.apgarScore)
  }

  /** One `handleInputChange(field, value)` call, with a value of the field's type. */
  datatype DeliveryInput =
    | SetDeliveryDate(text: string) | SetDeliveryType(kind: DeliveryType)
    | SetComplications(text: string) | SetBabyWeight(weight: real)
    | SetBabyGender(gender: BabyGender) | SetApgarScore(score: int)
  {
    function Field(): DeliveryFormField {
      match this
      case SetDeliveryDate(_) => DeliveryDateInput
      case SetDeliveryType(_) => DeliveryTypeInput
      case SetComplications(_) => ComplicationsInput
      case SetBabyWeight(_) => BabyWeightInput
      case SetBabyGender(_) => BabyGenderInput
      case SetApgarScore(_) => ApgarScoreInput
    }

    function Value(): DeliveryValue {
      match this
      case SetDeliveryDate(s) => TextValue(s)
      case SetDeliveryType(k) => KindValue(k)
      case SetComplications(s) => TextValue(s)
      case SetBabyWeight(w) => WeightValue(w)
      case SetBabyGender(g) => GenderValue(g)
      case SetApgarScore(n) => ScoreValue(n)
    }
  }

  /** `{ ...prev, [field]: value }`: the named field takes the value, the others keep theirs. */
  function ChangeField(form: DeliveryFormData, e: DeliveryInput): (r: DeliveryFormData)
    ensures Get(r, e.Field()) == e.Value()
    ensures forall g :: g != e.Field() ==> Get(r, g) == Get(form, g)
  {
    match e
    case SetDeliveryDate(s) => form.(deliveryDate := s)
    case SetDeliveryType(k) => form.(deliveryType := k)
    case SetComplications(s) => form.(complications := s)
    case SetBabyWeight(w) => form.(babyWeight := w)
    case SetBabyGender(g) => form.(babyGender := g)
    case SetApgarScore(n) => form.(apgarScore := n)
  }

  /** `patients.find(p => p.fileNumber === fileNumber)`: exact, case-sensitive. */
  function FindByFileNumber(patients: seq<Patient>, fileNumber: string): (r: Option<Patient>)
    ensures r.None? <==> forall i :: 0 <= i < |patients| ==> patients[i].fileNumber != fileNumber
    ensures r.Some? ==> exists k :: 0 <= k < |patients| && patients[k] == r.value &&
                                    r.value.fileNumber == fileNumber &&
                                    forall j :: 0 <= j < k ==> patients[j].fileNumber != fileNumber
  {
    Find(patients, (p: Patient) => p.fileNumber == fileNumber)
  }

  /** `complications ? [complications] : []`. */
  function ComplicationList(text: string): (r: seq<string>)
    ensures text == "" <==> r == []
    ensures text != "" ==> r == [text]
  {
    if text == "" then [] else [text]
  }

  /** The `deliveryData` object: every field of the patient, with the delivery fields laid over. */
  function BuildDelivery(p: Patient, form: DeliveryFormData): (d: DeliveryRecord)
    ensures d.patient == p
    ensures d.deliveryDate == Some(form.deliveryDate) && d.deliveryType == Some(form.deliveryType)
    ensures d.complications == Some(ComplicationList(form.complications))
    ensures d.babyWeight == Some(form.babyWeight) && d.babyGender == Some(form.babyGender)
    ensures d.apgarScore == Some(form.apgarScore)
  {
    DeliveryRecord(p, Some(form.deliveryDate), Some(form.deliveryType),
                   Some(ComplicationList(form.complications)), Some(form.babyWeight),
                   Some(form.babyGender), Some(form.apgarScore))
  }

  /**
   * The record `addDelivery` stores for a linked patient carries every field
   * of the patient except the id, which is the newly allocated one, and the
   * delivery details of the form.
   */
  lemma StoredDeliveryIsSnapshot(p: Patient, form: DeliveryFormData, newId: Id)
    ensures var d := BuildDelivery(p, form).WithId(newId);
            SameExcept(p, d.patient, IdField) && d.Id() == newId &&
            d.deliveryDate == Some(form.deliveryDate) && d.deliveryType == Some(form.deliveryType) &&
            d.complications == Some(ComplicationList(form.complications)) &&
            d.babyWeight == Some(form.babyWeight) && d.babyGender == Some(form.babyGender) &&
            d.apgarScore == Some(form.apgarScore)
  {
  }

  /**
   * The workflow's state. `closeCalls` counts calls of `onClose`,
   * `notFoundAlerts` the "Patient not found" alerts.
   */
  class DeliveryFormState {
    var step: Step
    var fileNumber: string
    var existingPatient: Option<Patient>
    var formData: DeliveryFormData
    var closeCalls: nat
    var notFoundAlerts: nat

    constructor ()
      ensures step == Lookup && fileNumber == "" && existingPatient == None
      ensures formData == InitialDeliveryForm
      ensures closeCalls == 0 && notFoundAlerts == 0
    {
      step, fileNumber, existingPatient := Lookup, "", None;
      formData := InitialDeliveryForm;
      closeCalls, notFoundAlerts := 0, 0;
    }

    /** The file-number input's `onChange`. */
    method SetFileNumber(s: string)
      modifies this`fileNumber
      ensures fileNumber == s
    {
      fileNumber := s;
    }

    /**
     * `handleFileNumberCheck`: on a hit, the first patient with exactly this
     * file number becomes the context and the workflow moves to step 2; on a
     * miss, nothing changes but the alert.
     */
    method HandleFileNumberCheck(patients: seq<Patient>) returns (found: bool)
      modifies this`existingPatient, this`step, this`notFoundAlerts
      ensures found <==> FindByFileNumber(patients, fileNumber).Some?
      ensures found ==> existingPatient == FindByFileNumber(patients, fileNumber) && step == Details &&
                        notFoundAlerts == old(notFoundAlerts)
      ensures !found ==> existingPatient == old(existingPatient) && step == old(step) &&
                         notFoundAlerts == old(notFoundAlerts) + 1
    {
      var patient := FindByFileNumber(patients, fileNumber);
      if patient.Some? {
        existingPatient := patient;
        step := Details;
        found := true;
      } else {
        notFoundAlerts := notFoundAlerts + 1;
        found := false;
      }
    }

    method HandleInputChange(e: DeliveryInput)
      modifies this`formData
      ensures formData == ChangeField(old(formData), e)
    {
      formData := ChangeField(formData, e);
    }

    /**
     * `handleSubmit`: with no patient found it returns and touches nothing;
     * otherwise exactly one `addDelivery` of the snapshot, then `onClose`.
     */
    method HandleSubmit(store: DataStore, newId: Id)
      modifies store, this`closeCalls
      ensures existingPatient.None? ==>
                store.patients == old(store.patients) && store.deliveries == old(store.deliveries) &&
                store.calls == old(store.calls) && closeCalls == old(closeCalls)
      ensures existingPatient.Some? ==>
                var d := BuildDelivery(existingPatient.value, formData);
                store.deliveries == old(store.deliveries) + [d.WithId(newId)] &&
                store.calls == old(store.calls) + [AddDeliveryCall(d, newId)] &&
                store.patients == old(store.patients) && closeCalls == old(closeCalls) + 1
      ensures store.doctors == old(store.doctors) && store.nurses == old(store.nurses)
    {
      if existingPatient.None? {
        return;
      }
      store.AddDelivery(BuildDelivery(existingPatient.value, formData), newId);
      closeCalls := closeCalls + 1;
    }

    /** Back: only the step changes; the patient found and the details entered are kept. */
    method Back()
      modifies this`step
      ensures step == Lookup
    {
      step := Lookup;
    }

    /** Cancel, in either step: `onClose`, and nothing else. */
    method Cancel()
      modifies this`closeCalls
      ensures closeCalls == old(closeCalls) + 1
    {
      closeCalls := closeCalls + 1;
    }
  }
}
