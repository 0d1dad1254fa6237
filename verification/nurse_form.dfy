/**
 * The nurse form (src/components/Forms/NurseForm.tsx): form state initialised
 * from the nurse being edited, field-by-field changes, and a submit that
 * updates that nurse or adds a new one. `experience` is held as a number
 * (`Number('')` is 0).
 */
module NurseForm {
  import opened Wrappers
  import opened Types
  import opened DataContext

  datatype NurseFormData = NurseFormData(
    name: string,
    department: string,
    phone: string,
    email: string,
    experience: int)

  datatype NurseFormField = NameInput | DepartmentInput | PhoneInput | EmailInput | ExperienceInput

  datatype NurseFormValue = Text(text: string) | Years(years: int)

  /** `formData[field]`. */
  function Get(form: NurseFormData, field: NurseFormField): NurseFormValue {
    match field
    case NameInput => Text(form.name)
    case DepartmentInput => Text(form.department)
    case PhoneInput => Text(form.phone)
    case EmailInput => Text(form.email)
    case ExperienceInput => Years(form.experience)
  }

  /** One `handleInputChange(field, value)` call, with a value of the field's type. */
  datatype NurseInput =
    | SetName(text: string) | SetDepartment(text: string) | SetPhone(text: string)
    | SetEmail(text: string) | SetExperience(years: int)
  {
    function Field(): NurseFormField {
      match this
      case SetName(_) => NameInput
      case SetDepartment(_) => DepartmentInput
      case SetPhone(_) => PhoneInput
      case SetEmail(_) => EmailInput
      case SetExperience(_) => ExperienceInput
    }

    function Value(): NurseFormValue {
      match this
      case SetExperience(n) => Years(n)
      case SetName(s) => Text(s)
      case SetDepartment(s) => Text(s)
      case SetPhone(s) => Text(s)
      case SetEmail(s) => Text(s)
    }
  }

  /** `{ ...prev, [field]: value }`: the named field takes the value, the others keep theirs. */
  function ChangeField(form: NurseFormData, e: NurseInput): (r: NurseFormData)
    ensures Get(r, e.Field()) == e.Value()
    ensures forall g :: g != e.Field() ==> Get(r, g) == Get(form, g)
  {
    match e
    case SetName(s) => form.(name := s)
    case SetDepartment(s) => form.(department := s)
    case SetPhone(s) => form.(phone := s)
    case SetEmail(s) => form.(email := s)
    case SetExperience(n) => form.(experience := n)
  }

  /** The initial `formData`: the edited nurse's values, or empty ones. */
  function InitialForm(nurse: Option<Nurse>): (form: NurseFormData)
    ensures nurse.None? ==> form == NurseFormData("", "", "", "", 0)
  {
    match nurse
    case None => NurseFormData("", "", "", "", 0)
    case Some(x) => NurseFormData(x.name, x.department, x.phone, x.email, x.experience)
  }

  /** The submitted `{ ...formData, experience }`: the form's values and no id ("" stands for none). */
  function SubmittedNurse(form: NurseFormData): (x: Nurse)
    ensures x.id == ""
    ensures forall g :: Get(InitialForm(Some(x)), g) == Get(form, g)
  {
    Nurse("", form.name, form.department, form.phone, form.email, form.experience)
  }

  /** The submitted object seen as the `Partial<Nurse>` that `updateNurse` merges: every key but the id. */
  function SubmittedPatch(x: Nurse): (d: NursePatch)
    ensures forall f :: d.Supplies(f) <==> f != NurseIdField
    ensures forall f :: d.Supplies(f) ==> d.Sets(x, f)
  {
    NursePatch(None, Some(x.name), Some(x.department), Some(x.phone), Some(x.email), Some(x.experience))
  }

  /** The form opened on a nurse holds exactly that nurse's values: submitting it rebuilds the nurse, less the id. */
  lemma InitialFormMirrors(x: Nurse)
    ensures SubmittedNurse(InitialForm(Some(x))) == x.(id := "")
  {
  }

  /** Submitting an edit never changes the id of the nurse it lands on. */
  lemma EditKeepsId(form: NurseFormData, q: Nurse)
    ensures SubmittedPatch(SubmittedNurse(form)).ApplyTo(q).id == q.id
  {
    assert !SubmittedPatch(SubmittedNurse(form)).Supplies(NurseIdField);
  }

  /** Opening the form on a nurse and submitting it unchanged leaves the nurse unchanged. */
  lemma UnchangedSubmitIsNoop(x: Nurse)
    ensures SubmittedPatch(SubmittedNurse(InitialForm(Some(x)))).ApplyTo(x) == x
  {
  }

  /** The form component's state. `closeCalls` counts calls of `onClose`. */
  class NurseFormState {
    const nurse: Option<Nurse>
    var formData: NurseFormData
    var closeCalls: nat

    constructor (nurse: Option<Nurse>)
      ensures this.nurse == nurse && formData == InitialForm(nurse) && closeCalls == 0
    {
      this.nurse := nurse;
      formData := InitialForm(nurse);
      closeCalls := 0;
    }

    method HandleInputChange(e: NurseInput)
      modifies this`formData
      ensures formData == ChangeField(old(formData), e)
    {
      formData := ChangeField(formData, e);
    }

    /**
     * `handleSubmit`: with a nurse being edited, exactly one
     * `updateNurse(nurse.id, data)`; otherwise exactly one `addNurse(data)`.
     * Then `onClose`.
     */
    method HandleSubmit(store: DataStore, newId: Id)
      modifies store, this`closeCalls
      ensures var x := SubmittedNurse(formData);
              if nurse.Some? then
                store.nurses == NursesUpdated(old(store.nurses), nurse.value.id, SubmittedPatch(x)) &&
                store.calls == old(store.calls) + [UpdateNurseCall(nurse.value.id, SubmittedPatch(x))]
              else
                store.nurses == old(store.nurses) + [x.(id := newId)] &&
                store.calls == old(store.calls) + [AddNurseCall(x, newId)]
      ensures store.patients == old(store.patients) && store.doctors == old(store.doctors)
      ensures store.deliveries == old(store.deliveries)
      ensures closeCalls == old(closeCalls) + 1
    {
      var x := SubmittedNurse(formData);
      if nurse.Some? {
        store.UpdateNurse(nurse.value.id, SubmittedPatch(x));
      } else {
        store.AddNurse(x, newId);
      }
      closeCalls := closeCalls + 1;
    }
  }
}
