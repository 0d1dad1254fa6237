/**
 * Proved scenarios of the forms against a store: registering a patient on
 * the ANC page, linking a delivery to her, then editing her.
 */
module Scenarios {
  import opened Wrappers
  import opened Types
  import opened DataContext
  import opened PatientForm
  import opened DeliveryForm

  /** Register ANC0042 (65 kg, 165 cm) in an empty store: she is stored with BMI 23.9. */
  method Register() returns (store: DataStore)
    ensures fresh(store) && |store.patients| == 1 && store.deliveries == []
    ensures store.patients[0].id == "p1" && store.patients[0].fileNumber == "ANC0042"
    ensures store.patients[0].name == "Jane Doe" && store.patients[0].bmi == 23.9
    ensures store.patients[0].weight == 65.0 && store.patients[0].height == 165.0
    ensures store.patients[0].createdAt == "2024-03-01T09:00:00.000Z"
  {
    store := new DataStore();
    BmiExamples();
    var register := new PatientFormState(None);
    register.HandleInputChange(SetFileNumber("ANC0042"));
    register.HandleInputChange(SetName("Jane Doe"));
    register.HandleInputChange(SetWeight(65.0));
    register.HandleInputChange(SetHeight(165.0));
    register.HandleSubmit(store, "2024-03-01T09:00:00.000Z", "p1");
  }

  /** Link a cesarean delivery to ANC0042: the stored record is a copy of her under its own id. */
  method Link(store: DataStore)
    requires |store.patients| == 1 && store.patients[0].fileNumber == "ANC0042" && store.deliveries == []
    modifies store
    ensures store.patients == old(store.patients) && |store.deliveries| == 1
    ensures store.deliveries[0].patient == old(store.patients[0]).(id := "d1")
    ensures store.deliveries[0].deliveryType == Some(Cesarean) && store.deliveries[0].complications == Some([])
  {
    var link := new DeliveryFormState();
    link.SetFileNumber("ANC0042");
    var found := link.HandleFileNumberCheck(store.patients);
    assert found;
    link.HandleInputChange(SetDeliveryType(Cesarean));
    link.HandleSubmit(store, "d1");
  }

  /** Rename the patient through the edit form: the linked delivery keeps the old name. */
  method Rename(store: DataStore)
    requires |store.patients| == 1 && store.patients[0].name == "Jane Doe" && store.patients[0].createdAt != ""
    modifies store
    ensures store.deliveries == old(store.deliveries)
    ensures |store.patients| == 1 && store.patients[0].id == old(store.patients[0].id)
    ensures store.patients[0].name == "Jane Smith"
    ensures store.patients[0].createdAt == old(store.patients[0].createdAt)
    ensures store.patients[0].fileNumber == old(store.patients[0].fileNumber)
    ensures store.patients[0].weight == old(store.patients[0].weight)
    ensures store.patients[0].height == old(store.patients[0].height)
    ensures store.patients[0].bmi == CalculateBmi(store.patients[0].weight, store.patients[0].height)
  {
    var before := store.patients;
    var edit := new PatientFormState(Some(before[0]));
    edit.HandleInputChange(SetName("Jane Smith"));
    edit.HandleSubmit(store, "2024-06-01T09:00:00.000Z", "unused");
    PatientsUpdatedSpec(before, before[0].id, SubmittedPatch(SubmittedRecord(edit.formData, edit.patient, "2024-06-01T09:00:00.000Z")));
  }

  /**
   * The whole scenario: after the rename the patient is "Jane Smith" while the
   * delivery linked before it still says "Jane Doe" (snapshot isolation).
   */
  method RegisterLinkRename() returns (patient: Patient, delivery: DeliveryRecord)
    ensures patient.name == "Jane Smith" && patient.bmi == 23.9
    ensures delivery.patient.name == "Jane Doe" && delivery.patient.bmi == 23.9
    ensures delivery.patient.fileNumber == patient.fileNumber == "ANC0042"
    ensures delivery.Id() == "d1" && patient.id == "p1"
  {
    var store := Register();
    BmiExamples();
    Link(store);
    Rename(store);
    patient, delivery := store.patients[0], store.deliveries[0];
  }
}
