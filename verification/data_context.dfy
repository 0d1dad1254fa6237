/**
 * The entity store (src/contexts/DataContext.tsx): four ordered collections
 * and the add / update / delete operations over them.
 *
 * `add*` appends `{ ...data, id: Date.now().toString() }`; the clock is not
 * modelled, so each add takes the new id as a parameter. `update*` merges a
 * partial record (`{ ...x, ...patch }`) into every entry whose id matches;
 * `delete*` drops every entry whose id matches. Deliveries can only be added.
 */
module DataContext {
  import opened Wrappers
  import opened Types
  import opened Seqs

  // ---------------------------------------------------------------------------
  // Fields and partial records (`Partial<Patient>`, `Partial<Doctor>`, `Partial<Nurse>`)
  // ---------------------------------------------------------------------------

  datatype PatientField =
    | IdField | FileNumberField | NameField | NationalityField | AgeField
    | WeightField | HeightField | PhoneField | BmiField | TypeOfVisitField
    | CreatedAtField | VitalSignsField | MedicalHistoryField | SocialHistoryField
    | AssignedDoctorField | AssignedNurseField | RiskScoreField | RiskCategoryField
    | VisitScheduleField | ReferralField
  {
    /** `p` and `q` hold the same value in this field. */
    predicate Agrees(p: Patient, q: Patient) {
      match this
      case IdField => p.id == q.id
      case FileNumberField => p.fileNumber == q.fileNumber
      case NameField => p.name == q.name
      case NationalityField => p.nationality == q.nationality
      case AgeField => p.age == q.age
      case WeightField => p.weight == q.weight
      case HeightField => p.height == q.height
      case PhoneField => p.phone == q.phone
      case BmiField => p.bmi == q.bmi
      case TypeOfVisitField => p.typeOfVisit == q.typeOfVisit
      case CreatedAtField => p.createdAt == q.createdAt
      case VitalSignsField => p.vitalSigns == q.vitalSigns
      case MedicalHistoryField => p.medicalHistory == q.medicalHistory
      case SocialHistoryField => p.socialHistory == q.socialHistory
      case AssignedDoctorField => p.assignedDoctor == q.assignedDoctor
      case AssignedNurseField => p.assignedNurse == q.assignedNurse
      case RiskScoreField => p.riskScore == q.riskScore
      case RiskCategoryField => p.riskCategory == q.riskCategory
      case VisitScheduleField => p.visitSchedule == q.visitSchedule
      case ReferralField => p.referral == q.referral
    }
  }

  /** `p` and `q` agree on every field except possibly `f`. */
  predicate SameExcept(p: Patient, q: Patient, f: PatientField) {
    forall g: PatientField :: g != f ==> g.Agrees(p, q)
  }

  /**
   * `Partial<Patient>`: `None` is a key the object lacks. An optional field
   * is `Option<Option<T>>`, whose `Some(None)` is a key present with the
   * value `undefined` (the spread copies that too).
   */
  datatype PatientPatch = PatientPatch(
    id: Option<Id>,
    fileNumber: Option<string>,
    name: Option<string>,
    nationality: Option<string>,
    age: Option<int>,
    weight: Option<real>,
    height: Option<real>,
    phone: Option<string>,
    bmi: Option<real>,
    typeOfVisit: Option<VisitType>,
    createdAt: Option<string>,
    vitalSigns: Option<Option<VitalSigns>>,
    medicalHistory: Option<Option<MedicalHistory>>,
    socialHistory: Option<Option<SocialHistory>>,
    assignedDoctor: Option<Option<Id>>,
    assignedNurse: Option<Option<Id>>,
    riskScore: Option<Option<int>>,
    riskCategory: Option<Option<RiskCategory>>,
    visitSchedule: Option<Option<seq<VisitSchedule>>>,
    referral: Option<Option<Referral>>)
  {
    /** The patch carries the key `f`. */
    predicate Supplies(f: PatientField) {
      match f
      case IdField => id.Some?
      case FileNumberField => fileNumber.Some?
      case NameField => name.Some?
      case NationalityField => nationality.Some?
      case AgeField => age.Some?
      case WeightField => weight.Some?
      case HeightField => height.Some?
      case PhoneField => phone.Some?
      case BmiField => bmi.Some?
      case TypeOfVisitField => typeOfVisit.Some?
      case CreatedAtField => createdAt.Some?
      case VitalSignsField => vitalSigns.Some?
      case MedicalHistoryField => medicalHistory.Some?
      case SocialHistoryField => socialHistory.Some?
      case AssignedDoctorField => assignedDoctor.Some?
      case AssignedNurseField => assignedNurse.Some?
      case RiskScoreField => riskScore.Some?
      case RiskCategoryField => riskCategory.Some?
      case VisitScheduleField => visitSchedule.Some?
      case ReferralField => referral.Some?
    }

    /** The patch carries the key `f`, with exactly the value `r` holds there. */
    predicate Sets(r: Patient, f: PatientField) {
      match f
      case IdField => id == Some(r.id)
      case FileNumberField => fileNumber == Some(r.fileNumber)
      case NameField => name == Some(r.name)
      case NationalityField => nationality == Some(r.nationality)
      case AgeField => age == Some(r.age)
      case WeightField => weight == Some(r.weight)
      case HeightField => height == Some(r.height)
      case PhoneField => phone == Some(r.phone)
      case BmiField => bmi == Some(r.bmi)
      case TypeOfVisitField => typeOfVisit == Some(r.typeOfVisit)
      case CreatedAtField => createdAt == Some(r.createdAt)
      case VitalSignsField => vitalSigns == Some(r.vitalSigns)
      case MedicalHistoryField => medicalHistory == Some(r.medicalHistory)
      case SocialHistoryField => socialHistory == Some(r.socialHistory)
      case AssignedDoctorField => assignedDoctor == Some(r.assignedDoctor)
      case AssignedNurseField => assignedNurse == Some(r.assignedNurse)
      case RiskScoreField => riskScore == Some(r.riskScore)
      case RiskCategoryField => riskCategory == Some(r.riskCategory)
      case VisitScheduleField => visitSchedule == Some(r.visitSchedule)
      case ReferralField => referral == Some(r.referral)
    }

    /** `{ ...p, ...this }`: supplied keys override, the others keep `p`'s values. */
    function ApplyTo(p: Patient): (r: Patient)
      ensures forall f: PatientField :: Supplies(f) ==> Sets(r, f)
      ensures forall f: PatientField :: !Supplies(f) ==> f.Agrees(p, r)
    {
      Patient(
        id.GetOr(p.id), fileNumber.GetOr(p.fileNumber), name.GetOr(p.name),
        nationality.GetOr(p.nationality), age.GetOr(p.age), weight.GetOr(p.weight),
        height.GetOr(p.height), phone.GetOr(p.phone), bmi.GetOr(p.bmi),
        typeOfVisit.GetOr(p.typeOfVisit), createdAt.GetOr(p.createdAt),
        vitalSigns.GetOr(p.vitalSigns), medicalHistory.GetOr(p.medicalHistory),
        socialHistory.GetOr(p.socialHistory), assignedDoctor.GetOr(p.assignedDoctor),
        assignedNurse.GetOr(p.assignedNurse), riskScore.GetOr(p.riskScore),
        riskCategory.GetOr(p.riskCategory), visitSchedule.GetOr(p.visitSchedule),
        referral.GetOr(p.referral))
    }
  }

  datatype DoctorField = DoctorIdField | DoctorNameField | SpecialtyField
                       | DoctorPhoneField | DoctorEmailField | DoctorExperienceField
  {
    predicate Agrees(d: Doctor, e: Doctor) {
      match this
      case DoctorIdField => d.id == e.id
      case DoctorNameField => d.name == e.name
      case SpecialtyField => d.specialty == e.specialty
      case DoctorPhoneField => d.phone == e.phone
      case DoctorEmailField => d.email == e.email
      case DoctorExperienceField => d.experience == e.experience
    }
  }

  /** `Partial<Doctor>`. */
  datatype DoctorPatch = DoctorPatch(
    id: Option<Id>,
    name: Option<string>,
    specialty: Option<string>,
    phone: Option<string>,
    email: Option<string>,
    experience: Option<int>)
  {
    predicate Supplies(f: DoctorField) {
      match f
      case DoctorIdField => id.Some?
      case DoctorNameField => name.Some?
      case SpecialtyField => specialty.Some?
      case DoctorPhoneField => phone.Some?
      case DoctorEmailField => email.Some?
      case DoctorExperienceField => experience.Some?
    }

    predicate Sets(r: Doctor, f: DoctorField) {
      match f
      case DoctorIdField => id == Some(r.id)
      case DoctorNameField => name == Some(r.name)
      case SpecialtyField => specialty == Some(r.specialty)
      case DoctorPhoneField => phone == Some(r.phone)
      case DoctorEmailField => email == Some(r.email)
      case DoctorExperienceField => experience == Some(r.experience)
    }

    /** `{ ...d, ...this }`. */
    function ApplyTo(d: Doctor): (r: Doctor)
      ensures forall f: DoctorField :: Supplies(f) ==> Sets(r, f)
      ensures forall f: DoctorField :: !Supplies(f) ==> f.Agrees(d, r)
    {
      Doctor(id.GetOr(d.id), name.GetOr(d.name), specialty.GetOr(d.specialty),
             phone.GetOr(d.phone), email.GetOr(d.email), experience.GetOr(d.experience))
    }
  }

  datatype NurseField = NurseIdField | NurseNameField | DepartmentField
                      | NursePhoneField | NurseEmailField | NurseExperienceField
  {
    predicate Agrees(n: Nurse, m: Nurse) {
      match this
      case NurseIdField => n.id == m.id
      case NurseNameField => n.name == m.name
      case DepartmentField => n.department == m.department
      case NursePhoneField => n.phone == m.phone
      case NurseEmailField => n.email == m.email
      case NurseExperienceField => n.experience == m.experience
    }
  }

  /** `Partial<Nurse>`. */
  datatype NursePatch = NursePatch(
    id: Option<Id>,
    name: Option<string>,
    department: Option<string>,
    phone: Option<string>,
    email: Option<string>,
    experience: Option<int>)
  {
    predicate Supplies(f: NurseField) {
      match f
      case NurseIdField => id.Some?
      case NurseNameField => name.Some?
      case DepartmentField => department.Some?
      case NursePhoneField => phone.Some?
      case NurseEmailField => email.Some?
      case NurseExperienceField => experience.Some?
    }

    predicate Sets(r: Nurse, f: NurseField) {
      match f
      case NurseIdField => id == Some(r.id)
      case NurseNameField => name == Some(r.name)
      case DepartmentField => department == Some(r.department)
      case NursePhoneField => phone == Some(r.phone)
      case NurseEmailField => email == Some(r.email)
      case NurseExperienceField => experience == Some(r.experience)
    }

    /** `{ ...n, ...this }`. */
    function ApplyTo(n: Nurse): (r: Nurse)
      ensures forall f: NurseField :: Supplies(f) ==> Sets(r, f)
      ensures forall f: NurseField :: !Supplies(f) ==> f.Agrees(n, r)
    {
      Nurse(id.GetOr(n.id), name.GetOr(n.name), department.GetOr(n.department),
            phone.GetOr(n.phone), email.GetOr(n.email), experience.GetOr(n.experience))
    }
  }

  // ---------------------------------------------------------------------------
  // Collection operations, generic in the entity type (`key` reads its id)
  // ---------------------------------------------------------------------------

  function PatientId(p: Patient): Id { p.id }
  function DoctorId(d: Doctor): Id { d.id }
  function NurseId(n: Nurse): Id { n.id }

  /** `prev.filter(x => x.id !== id)`. */
  function RemoveId<T>(s: seq<T>, key: T -> Id, id: Id): seq<T> {
    Filter(s, (x: T) => key(x) != id)
  }

  /** `prev.map(x => x.id === id ? merge(x) : x)`. */
  function UpdateId<T>(s: seq<T>, key: T -> Id, id: Id, merge: T -> T): seq<T> {
    Replace(s, (x: T) => key(x) == id, merge)
  }

  function PatientsUpdated(ps: seq<Patient>, id: Id, patch: PatientPatch): seq<Patient> {
    UpdateId(ps, PatientId, id, (p: Patient) => patch.ApplyTo(p))
  }

  function DoctorsUpdated(ds: seq<Doctor>, id: Id, patch: DoctorPatch): seq<Doctor> {
    UpdateId(ds, DoctorId, id, (d: Doctor) => patch.ApplyTo(d))
  }

  function NursesUpdated(ns: seq<Nurse>, id: Id, patch: NursePatch): seq<Nurse> {
    UpdateId(ns, NurseId, id, (n: Nurse) => patch.ApplyTo(n))
  }

  /** Delete drops exactly the entries with that id; the rest stay, in their order. */
  lemma RemoveIdSpec<T>(s: seq<T>, key: T -> Id, id: Id)
    ensures forall x :: x in RemoveId(s, key, id) ==> x in s && key(x) != id
    ensures forall i :: 0 <= i < |s| && key(s[i]) != id ==> s[i] in RemoveId(s, key, id)
    ensures IsSubsequence(RemoveId(s, key, id), s)
    ensures forall i :: 0 <= i < |s| ==>
              multiset(RemoveId(s, key, id))[s[i]] == if key(s[i]) != id then multiset(s)[s[i]] else 0
  {
    FilterIsSubsequence(s, (x: T) => key(x) != id);
    FilterMultiplicity(s, (x: T) => key(x) != id);
  }

  /** Deleting an id that no entry has leaves the collection unchanged. */
  lemma RemoveIdAbsent<T>(s: seq<T>, key: T -> Id, id: Id)
    requires forall i :: 0 <= i < |s| ==> key(s[i]) != id
    ensures RemoveId(s, key, id) == s
  {
    FilterKeepsAll(s, (x: T) => key(x) != id);
  }

  /** A second delete of the same id is a no-op. */
  lemma RemoveIdIdempotent<T>(s: seq<T>, key: T -> Id, id: Id)
    ensures RemoveId(RemoveId(s, key, id), key, id) == RemoveId(s, key, id)
  {
    FilterIdempotent(s, (x: T) => key(x) != id);
  }

  /** Deleting the id an add just allocated undoes the add, when the id was fresh. */
  lemma RemoveUndoesAdd<T>(s: seq<T>, key: T -> Id, x: T)
    requires forall i :: 0 <= i < |s| ==> key(s[i]) != key(x)
    ensures RemoveId(s + [x], key, key(x)) == s
  {
    FilterAppend(s, x, (y: T) => key(y) != key(x));
    RemoveIdAbsent(s, key, key(x));
  }

  /** Updating an id that no entry has leaves the collection unchanged. */
  lemma UpdateIdAbsent<T>(s: seq<T>, key: T -> Id, id: Id, merge: T -> T)
    requires forall i :: 0 <= i < |s| ==> key(s[i]) != id
    ensures UpdateId(s, key, id, merge) == s
  {
  }

  /**
   * Applying the same update twice is applying it once, for a merge that is
   * idempotent on the entries it selects.
   */
  lemma UpdateIdIdempotent<T>(s: seq<T>, key: T -> Id, id: Id, merge: T -> T)
    requires forall x :: key(x) == id ==> merge(merge(x)) == merge(x)
    ensures UpdateId(UpdateId(s, key, id, merge), key, id, merge) == UpdateId(s, key, id, merge)
  {
    var once := UpdateId(s, key, id, merge);
    var twice := UpdateId(once, key, id, merge);
    forall i | 0 <= i < |s|
      ensures twice[i] == once[i]
    {
      if key(s[i]) == id {
        assert once[i] == merge(s[i]);
      }
    }
  }

  /** Merging a partial patient twice is merging it once. */
  lemma PatientPatchIdempotent(patch: PatientPatch, p: Patient)
    ensures patch.ApplyTo(patch.ApplyTo(p)) == patch.ApplyTo(p)
  {
  }

  /** Updating a patient twice with the same partial record is updating it once. */
  lemma PatientsUpdatedIdempotent(ps: seq<Patient>, id: Id, patch: PatientPatch)
    ensures PatientsUpdated(PatientsUpdated(ps, id, patch), id, patch) == PatientsUpdated(ps, id, patch)
  {
    UpdateIdIdempotent(ps, PatientId, id, (p: Patient) => patch.ApplyTo(p));
  }

  /** Update keeps length and order; matching entries are merged, the others are unchanged. */
  lemma PatientsUpdatedSpec(ps: seq<Patient>, id: Id, patch: PatientPatch)
    ensures |PatientsUpdated(ps, id, patch)| == |ps|
    ensures forall i :: 0 <= i < |ps| && ps[i].id == id ==>
              PatientsUpdated(ps, id, patch)[i] == patch.ApplyTo(ps[i])
    ensures forall i :: 0 <= i < |ps| && ps[i].id != id ==>
              PatientsUpdated(ps, id, patch)[i] == ps[i]
  {
    var r := PatientsUpdated(ps, id, patch);
    forall i | 0 <= i < |ps|
      ensures ps[i].id == id ==> r[i] == patch.ApplyTo(ps[i])
      ensures ps[i].id != id ==> r[i] == ps[i]
    {
      assert PatientId(ps[i]) == ps[i].id;
    }
  }

  // ---------------------------------------------------------------------------
  // The store
  // ---------------------------------------------------------------------------

  /** One call into the store, as recorded in its call log. */
  datatype StoreCall =
    | AddPatientCall(patient: Patient, newId: Id)
    | UpdatePatientCall(id: Id, patientPatch: PatientPatch)
    | DeletePatientCall(id: Id)
    | AddDoctorCall(doctor: Doctor, newId: Id)
    | UpdateDoctorCall(id: Id, doctorPatch: DoctorPatch)
    | DeleteDoctorCall(id: Id)
    | AddNurseCall(nurse: Nurse, newId: Id)
    | UpdateNurseCall(id: Id, nursePatch: NursePatch)
    | DeleteNurseCall(id: Id)
    | AddDeliveryCall(delivery: DeliveryRecord, newId: Id)

  /**
   * The `DataProvider` state. The ghost `calls` log records every mutation
   * in order, so callers can state which operations they invoked.
   */
  class DataStore {
    var patients: seq<Patient>
    var doctors: seq<Doctor>
    var nurses: seq<Nurse>
    var deliveries: seq<DeliveryRecord>
    ghost var calls: seq<StoreCall>

    /** The four `useState([])` slots. */
    constructor ()
      ensures patients == [] && doctors == [] && nurses == [] && deliveries == []
      ensures calls == []
    {
      patients, doctors, nurses, deliveries := [], [], [], [];
      calls := [];
    }

    /** The mount effect: every collection is replaced by the seed data. */
    method LoadSeed(ps: seq<Patient>, ds: seq<Doctor>, ns: seq<Nurse>, dels: seq<DeliveryRecord>)
      modifies this
      ensures patients == ps && doctors == ds && nurses == ns && deliveries == dels
      ensures calls == old(calls)
    {
      patients, doctors, nurses, deliveries := ps, ds, ns, dels;
    }

    method AddPatient(data: Patient, newId: Id)
      modifies this
      ensures patients == old(patients) + [data.(id := newId)]
      ensures doctors == old(doctors) && nurses == old(nurses) && deliveries == old(deliveries)
      ensures calls == old(calls) + [AddPatientCall(data, newId)]
    {
      patients := patients + [data.(id := newId)];
      calls := calls + [AddPatientCall(data, newId)];
    }

    method UpdatePatient(id: Id, patch: PatientPatch)
      modifies this
      ensures patients == PatientsUpdated(old(patients), id, patch)
      ensures doctors == old(doctors) && nurses == old(nurses) && deliveries == old(deliveries)
      ensures calls == old(calls) + [UpdatePatientCall(id, patch)]
    {
      patients := PatientsUpdated(patients, id, patch);
      calls := calls + [UpdatePatientCall(id, patch)];
    }

    method DeletePatient(id: Id)
      modifies this
      ensures patients == RemoveId(old(patients), PatientId, id)
      ensures doctors == old(doctors) && nurses == old(nurses) && deliveries == old(deliveries)
      ensures calls == old(calls) + [DeletePatientCall(id)]
    {
      patients := RemoveId(patients, PatientId, id);
      calls := calls + [DeletePatientCall(id)];
    }

    method AddDoctor(data: Doctor, newId: Id)
      modifies this
      ensures doctors == old(doctors) + [data.(id := newId)]
      ensures patients == old(patients) && nurses == old(nurses) && deliveries == old(deliveries)
      ensures calls == old(calls) + [AddDoctorCall(data, newId)]
    {
      doctors := doctors + [data.(id := newId)];
      calls := calls + [AddDoctorCall(data, newId)];
    }

    method UpdateDoctor(id: Id, patch: DoctorPatch)
      modifies this
      ensures doctors == DoctorsUpdated(old(doctors), id, patch)
      ensures patients == old(patients) && nurses == old(nurses) && deliveries == old(deliveries)
      ensures calls == old(calls) + [UpdateDoctorCall(id, patch)]
    {
      doctors := DoctorsUpdated(doctors, id, patch);
      calls := calls + [UpdateDoctorCall(id, patch)];
    }

    /** No cascade: patients that name this doctor keep their `assignedDoctor`. */
    method DeleteDoctor(id: Id)
      modifies this
      ensures doctors == RemoveId(old(doctors), DoctorId, id)
      ensures patients == old(patients) && nurses == old(nurses) && deliveries == old(deliveries)
      ensures calls == old(calls) + [DeleteDoctorCall(id)]
    {
      doctors := RemoveId(doctors, DoctorId, id);
      calls := calls + [DeleteDoctorCall(id)];
    }

    method AddNurse(data: Nurse, newId: Id)
      modifies this
      ensures nurses == old(nurses) + [data.(id := newId)]
      ensures patients == old(patients) && doctors == old(doctors) && deliveries == old(deliveries)
      ensures calls == old(calls) + [AddNurseCall(data, newId)]
    {
      nurses := nurses + [data.(id := newId)];
      calls := calls + [AddNurseCall(data, newId)];
    }

    method UpdateNurse(id: Id, patch: NursePatch)
      modifies this
      ensures nurses == NursesUpdated(old(nurses), id, patch)
      ensures patients == old(patients) && doctors == old(doctors) && deliveries == old(deliveries)
      ensures calls == old(calls) + [UpdateNurseCall(id, patch)]
    {
      nurses := NursesUpdated(nurses, id, patch);
      calls := calls + [UpdateNurseCall(id, patch)];
    }

    /** No cascade: patients that name this nurse keep their `assignedNurse`. */
    method DeleteNurse(id: Id)
      modifies this
      ensures nurses == RemoveId(old(nurses), NurseId, id)
      ensures patients == old(patients) && doctors == old(doctors) && deliveries == old(deliveries)
      ensures calls == old(calls) + [DeleteNurseCall(id)]
    {
      nurses := RemoveId(nurses, NurseId, id);
      calls := calls + [DeleteNurseCall(id)];
    }

    method AddDelivery(data: DeliveryRecord, newId: Id)
      modifies this
      ensures deliveries == old(deliveries) + [data.WithId(newId)]
      ensures patients == old(patients) && doctors == old(doctors) && nurses == old(nurses)
      ensures calls == old(calls) + [AddDeliveryCall(data, newId)]
    {
      deliveries := deliveries + [data.WithId(newId)];
      calls := calls + [AddDeliveryCall(data, newId)];
    }
  }
}
