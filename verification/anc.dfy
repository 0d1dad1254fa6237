/** The ANC patient list page (src/pages/ANC.tsx). */
module Anc {
  import opened Wrappers
  import opened Types
  import opened Seqs
  import opened Text
  import opened DataContext

  /** The row filter: file number or name includes the search term, both lower-cased. */
  function PatientMatch(term: string, lower: string -> string): Patient -> bool {
    (p: Patient) => Matches(lower, p.fileNumber, term) || Matches(lower, p.name, term)
  }

  function FilteredPatients(patients: seq<Patient>, term: string, lower: string -> string): (r: seq<Patient>)
    ensures IsSubsequence(r, patients)
    ensures forall p :: p in r <==> p in patients && PatientMatch(term, lower)(p)
    ensures forall i :: 0 <= i < |patients| ==>
              multiset(r)[patients[i]] == if PatientMatch(term, lower)(patients[i]) then multiset(patients)[patients[i]] else 0
  {
    FilterIsSubsequence(patients, PatientMatch(term, lower));
    FilterMultiplicity(patients, PatientMatch(term, lower));
    Filter(patients, PatientMatch(term, lower))
  }

  /** An empty search box lists every patient, in store order. */
  lemma EmptySearchKeepsAllPatients(patients: seq<Patient>, lower: string -> string)
    requires lower("") == ""
    ensures FilteredPatients(patients, "", lower) == patients
  {
    forall i | 0 <= i < |patients|
      ensures PatientMatch("", lower)(patients[i])
    {
      EmptyTermMatches(lower, patients[i].fileNumber);
    }
    FilterKeepsAll(patients, PatientMatch("", lower));
  }

  const GreenBadge := "bg-green-100 text-green-800"
  const YellowBadge := "bg-yellow-100 text-yellow-800"
  const RedBadge := "bg-red-100 text-red-800"
  const GreyBadge := "bg-gray-100 text-gray-800"

  /** `getRiskBadge`: a lookup keyed by the category string, grey when the key is absent. */
  function RiskBadge(category: Option<string>): (badge: string)
    ensures badge == GreenBadge <==> category == Some("low")
    ensures badge == YellowBadge <==> category == Some("medium")
    ensures badge == RedBadge <==> category == Some("high")
    ensures badge == GreyBadge <==> !(category in {Some("low"), Some("medium"), Some("high")})
  {
    match category
    case Some("low") => GreenBadge
    case Some("medium") => YellowBadge
    case Some("high") => RedBadge
    case _ => GreyBadge
  }

  function RiskName(c: RiskCategory): string {
    match c
    case Low => "low"
    case Medium => "medium"
    case High => "high"
  }

  /** The badge of a row, `getRiskBadge(patient.riskCategory)`: one colour per category, grey without one. */
  function PatientRiskBadge(p: Patient): (badge: string)
    ensures badge == GreyBadge <==> p.riskCategory.None?
    ensures badge == GreenBadge <==> p.riskCategory == Some(Low)
    ensures badge == YellowBadge <==> p.riskCategory == Some(Medium)
    ensures badge == RedBadge <==> p.riskCategory == Some(High)
  {
    RiskBadge(if p.riskCategory.Some? then Some(RiskName(p.riskCategory.value)) else None)
  }

  const PreviewPrefix := "/anc/preview/"

  /** `handlePreview`: the route of the patient's preview page. */
  function PreviewPath(id: Id): (path: string)
    ensures |path| == |PreviewPrefix| + |id|
    ensures path[..|PreviewPrefix|] == PreviewPrefix && path[|PreviewPrefix|..] == id
  {
    PreviewPrefix + id
  }

  /** Distinct patients get distinct preview routes. */
  lemma PreviewPathInjective(a: Id, b: Id)
    ensures PreviewPath(a) == PreviewPath(b) ==> a == b
  {
    if PreviewPath(a) == PreviewPath(b) {
      assert a == PreviewPath(a)[|PreviewPrefix|..];
    }
  }

  /** `handleDelete`: the store is touched only when the user confirms. */
  method HandleDelete(store: DataStore, id: Id, confirmed: bool)
    modifies store
    ensures confirmed ==> store.patients == RemoveId(old(store.patients), PatientId, id) &&
                          store.calls == old(store.calls) + [DeletePatientCall(id)]
    ensures !confirmed ==> store.patients == old(store.patients) && store.calls == old(store.calls)
    ensures store.doctors == old(store.doctors) && store.nurses == old(store.nurses)
    ensures store.deliveries == old(store.deliveries)
  {
    if confirmed {
      store.DeletePatient(id);
    }
  }
}
