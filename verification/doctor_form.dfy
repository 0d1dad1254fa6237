/**
 * The doctor form (src/components/Forms/DoctorForm.tsx): form state initialised
 * from the doctor being edited, field-by-field changes, and a submit that
 * updates that doctor or adds a new one. `experience` is held as a number
 * (`Number('')` is 0).
 */
module DoctorForm {
  import opened Wrappers
  import opened Types
  import opened DataContext

  datatype DoctorFormData = DoctorFormData(
    name: string,
    specialty: string,
    phone: string,
    email: string,
    experience: int)

  datatype DoctorFormField = NameInput | SpecialtyInput | PhoneInput | EmailInput | ExperienceInput

  datatype DoctorFormValue = Text(text: string) | Years(years: int)

  /** `formData[field]`. */
  function Get(form: DoctorFormData, field: DoctorFormField): DoctorFormValue {
    match field
    case NameInput => Text(form.name)
    case SpecialtyInput => Text(form.specialty)
    case PhoneInput => Text(form.phone)
    case EmailInput => Text(form.email)
    case ExperienceInput => Years(form.experience)
  }

  /** One `handleInputChange(field, value)` call, with a value of the field's type. */
  datatype DoctorInput =
    | SetName(text: string) | SetSpecialty(text: string) | SetPhone(text: string)
    | SetEmail(text: string) | SetExperience(years: int)
  {
    function Field(): DoctorFormField {
      match this
      case SetName(_) => NameInput
      case SetSpecialty(_) => SpecialtyInput
      case SetPhone(_) => PhoneInput
      case SetEmail(_) => EmailInput
      case SetExperience(_) => ExperienceInput
    }

    function Value(): DoctorFormValue {
      match this
      case SetExperience(n) => Years(n)
      case SetName(s) => Text(s)
      case SetSpecialty(s) => Text(s)
      case SetPhone(s) => Text(s)
      case SetEmail(s) => Text(s)
    }
  }

  /** `{ ...prev, [field]: value }`: the named field takes the value, the others keep theirs. */
  function ChangeField(form: DoctorFormData, e: DoctorInput): (r: DoctorFormData)
    ensures Get(r, e.Field()) == e.Value()
    ensures forall g :: g != e.Field() ==> Get(r, g) == Get(form, g)
  {
    match e
    case SetName(s) => form.(name := s)
    case SetSpecialty(s) => form.(specialty := s)
    case SetPhone(s) => form.(phone := s)
    case SetEmail(s) => form.(email := s)
    case SetExperience(n) => form.(experience := n)
  }

  /** The initial `formData`: the edited doctor's values, or empty ones. */
  function InitialForm(doctor: Option<Doctor>): (form: DoctorFormData)
    ensures doctor.None? ==> form == DoctorFormData("", "", "", "", 0)
  {
    match doctor
    case None => DoctorFormData("", "", "", "", 0)
    case Some(x) => DoctorFormData(x.name, x.specialty, x.phone, x.email, x.experience)
  }

  /** The submitted `{ ...formData, experience }`: the form's values and no id ("" stands for none). */
  function SubmittedDoctor(form: DoctorFormData): (x: Doctor)
    ensures x.id == ""
    ensures forall g :: Get(InitialForm(Some(x)), g) == Get(form, g)
  {
    Doctor("", form.name, form.specialty, form.phone, form.email, form.experience)
  }

  /** The submitted object seen as the `Partial<Doctor>` that `updateDoctor` merges: every key but the id. */
  function SubmittedPatch(x: Doctor): (d: DoctorPatch)
    ensures forall f :: d.Supplies(f) <==> f != DoctorIdField
    ensures forall f :: d.Supplies(f) ==> d.Sets(x, f)
  {
    DoctorPatch(None, Some(x.name), Some(x.specialty), Some(x.phone), Some(x.email), Some(x.experience))
  }

  /** The form opened on a doctor holds exactly that doctor's values: submitting it rebuilds the doctor, less the id. */
  lemma InitialFormMirrors(x: Doctor)
    ensures SubmittedDoctor(InitialForm(Some(x))) == x.(id := "")
  {
  }

  /** Submitting an edit never changes the id of the doctor it lands on. */
  lemma EditKeepsId(form: DoctorFormData, q: Doctor)
    ensures SubmittedPatch(SubmittedDoctor(form)).ApplyTo(q).id == q.id
  {
    assert !SubmittedPatch(SubmittedDoctor(form)).Supplies(DoctorIdField);
  }

  /** Opening the form on a doctor and submitting it unchanged leaves the doctor unchanged. */
  lemma UnchangedSubmitIsNoop(x: Doctor)
    ensures SubmittedPatch(SubmittedDoctor(InitialForm(Some(x)))).ApplyTo(x) == x
  {
  }

  /** The form component's state. `closeCalls` counts calls of `onClose`. */
  class DoctorFormState {
    const doctor: Option<Doctor>
    var formData: DoctorFormData
    var closeCalls: nat

    constructor (doctor: Option<Doctor>)
      ensures this.doctor == doctor && formData == InitialForm(doctor) && closeCalls == 0
    {
      this.doctor := doctor;
      formData := InitialForm(doctor);
      closeCalls := 0;
    }

    method HandleInputChange(e: DoctorInput)
      modifies this`formData
      ensures formData == ChangeField(old(formData), e)
    {
      formData := ChangeField(formData, e);
    }

    /**
     * `handleSubmit`: with a doctor being edited, exactly one
     * `updateDoctor(doctor.id, data)`; otherwise exactly one `addDoctor(data)`.
     * Then `onClose`.
     */
    method HandleSubmit(store: DataStore, newId: Id)
      modifies store, this`closeCalls
      ensures var x := SubmittedDoctor(formData);
              if doctor.Some? then
                store.doctors == DoctorsUpdated(old(store.doctors), doctor.value.id, SubmittedPatch(x)) &&
                store.calls == old(store.calls) + [UpdateDoctorCall(doctor.value.id, SubmittedPatch(x))]
              else
                store.doctors == old(store.doctors) + [x.(id := newId)] &&
                store.calls == old(store.calls) + [AddDoctorCall(x, newId)]
      ensures store.patients == old(store.patients) && store.nurses == old(store.nurses)
      ensures store.deliveries == old(store.deliveries)
      ensures closeCalls == old(closeCalls) + 1
    {
      var x := SubmittedDoctor(formData);
      if doctor.Some? {
        store.UpdateDoctor(doctor.value.id, SubmittedPatch(x));
      } else {
        store.AddDoctor(x, newId);
      }
      closeCalls := closeCalls + 1;
    }
  }
}
