/**
 * The entity shapes of the clinic records app (src/types/index.ts).
 *
 * Numbers are modelled by their use: ages, pulse, oxygen, experience, risk
 * score and APGAR score as `int`; weights, heights, BMI and temperature as
 * exact `real`. Optional properties (`x?: T`) are `Option<T>`.
 */
module Types {
  import opened Wrappers

  /** Entity identifiers are strings (`Date.now().toString()` for new entities). */
  type Id = string

  datatype VisitType = Screening | FollowUp
  datatype RiskCategory = Low | Medium | High
  datatype DeliveryType = Normal | Cesarean | Assisted
  datatype BabyGender = Male | Female
  datatype VisitStatus = Scheduled | Completed | Missed
  datatype Urgency = Routine | Urgent | Emergency

  /**
   * Vital signs. The declared type makes every reading required, but the
   * patient preview's updaters spread `prev.vitalSigns!` even when it is
   * undefined, which yields an object holding only the edited reading; so
   * each reading is optional here.
   */
  datatype VitalSigns = VitalSigns(
    bloodPressure: Option<string>,
    pulse: Option<int>,
    temperature: Option<real>,
    oxygen: Option<int>,
    lastUpdated: Option<string>)

  datatype MedicalHistory = MedicalHistory(
    conditions: seq<string>,
    medications: seq<string>,
    allergies: seq<string>,
    previousPregnancies: int,
    complications: seq<string>)

  datatype SocialHistory = SocialHistory(
    smokingStatus: string,
    alcoholUse: string,
    occupation: string,
    supportSystem: string,
    educationLevel: string)

  /** A scheduled visit; the source's `type` property is `visitType` here. */
  datatype VisitSchedule = VisitSchedule(
    id: Id,
    date: string,
    visitType: string,
    status: VisitStatus,
    notes: Option<string>)

  datatype Referral = Referral(
    isRequired: bool,
    clinic: string,
    reason: string,
    urgency: Urgency)

  /** An antenatal-care patient. `assignedDoctor` and `assignedNurse` are weak references (ids). */
  datatype Patient = Patient(
    id: Id,
    fileNumber: string,
    name: string,
    nationality: string,
    age: int,
    weight: real,
    height: real,
    phone: string,
    bmi: real,
    typeOfVisit: VisitType,
    createdAt: string,
    vitalSigns: Option<VitalSigns>,
    medicalHistory: Option<MedicalHistory>,
    socialHistory: Option<SocialHistory>,
    assignedDoctor: Option<Id>,
    assignedNurse: Option<Id>,
    riskScore: Option<int>,
    riskCategory: Option<RiskCategory>,
    visitSchedule: Option<seq<VisitSchedule>>,
    referral: Option<Referral>)

  datatype Doctor = Doctor(
    id: Id,
    name: string,
    specialty: string,
    phone: string,
    email: string,
    experience: int)

  datatype Nurse = Nurse(
    id: Id,
    name: string,
    department: string,
    phone: string,
    email: string,
    experience: int)

  /**
   * A delivery record: `DeliveryRecord extends Patient` with six optional
   * delivery fields. The patient part is held as a value, so it is a copy:
   * its `id` is the delivery record's own id.
   */
  datatype DeliveryRecord = DeliveryRecord(
    patient: Patient,
    deliveryDate: Option<string>,
    deliveryType: Option<DeliveryType>,
    complications: Option<seq<string>>,
    babyWeight: Option<real>,
    babyGender: Option<BabyGender>,
    apgarScore: Option<int>)
  {
    function Id(): Id { patient.id }

    /** The same record under another id (what `{ ...delivery, id }` builds). */
    function WithId(newId: Id): DeliveryRecord {
      this.(patient := patient.(id := newId))
    }
  }
}
