/**
 * The KPI dashboard's figures (src/pages/KPI.tsx): totals and
 * `filter(...).length` counts over patients and deliveries.
 */
module Kpi {
  import opened Wrappers
  import opened Types
  import opened Seqs

  function RiskIs(c: RiskCategory): Patient -> bool {
    (p: Patient) => p.riskCategory == Some(c)
  }

  function VisitIs(v: VisitType): Patient -> bool {
    (p: Patient) => p.typeOfVisit == v
  }

  function DeliveryIs(t: DeliveryType): DeliveryRecord -> bool {
    (d: DeliveryRecord) => d.deliveryType == Some(t)
  }

  /** The age groups `lo <= age <= hi`. */
  function AgeBetween(lo: int, hi: int): Patient -> bool {
    (p: Patient) => lo <= p.age <= hi
  }

  /** The "36+" group, `age > 35`. */
  function AgeOver(n: int): Patient -> bool {
    (p: Patient) => p.age > n
  }

  /** The follow-up figure, `total - screening`, is the number of follow-up patients. */
  lemma {:induction false} FollowUpIsComplement(patients: seq<Patient>)
    ensures |patients| - |Filter(patients, VisitIs(Screening))| == |Filter(patients, VisitIs(FollowUp))|
  {
    FilterCountsComplement(patients, VisitIs(Screening), VisitIs(FollowUp));
  }

  /** Low, medium and high counts together are at most the patients: the category is optional. */
  lemma {:induction false} RiskCountsBounded(patients: seq<Patient>)
    ensures |Filter(patients, RiskIs(Low))| + |Filter(patients, RiskIs(Medium))| +
            |Filter(patients, RiskIs(High))| <= |patients|
  {
    var lowOrMedium := (p: Patient) => RiskIs(Low)(p) || RiskIs(Medium)(p);
    var any := (p: Patient) => lowOrMedium(p) || RiskIs(High)(p);
    FilterCountsAdd(patients, RiskIs(Low), RiskIs(Medium), lowOrMedium);
    FilterCountsAdd(patients, lowOrMedium, RiskIs(High), any);
  }

  /** Normal, cesarean and assisted counts together are at most the deliveries. */
  lemma {:induction false} DeliveryTypeCountsBounded(deliveries: seq<DeliveryRecord>)
    ensures |Filter(deliveries, DeliveryIs(Normal))| + |Filter(deliveries, DeliveryIs(Cesarean))| +
            |Filter(deliveries, DeliveryIs(Assisted))| <= |deliveries|
  {
    var first := (d: DeliveryRecord) => DeliveryIs(Normal)(d) || DeliveryIs(Cesarean)(d);
    var any := (d: DeliveryRecord) => first(d) || DeliveryIs(Assisted)(d);
    FilterCountsAdd(deliveries, DeliveryIs(Normal), DeliveryIs(Cesarean), first);
    FilterCountsAdd(deliveries, first, DeliveryIs(Assisted), any);
  }

  /** The four age groups never overlap, and ages under 20 fall in none of them. */
  lemma AgeGroupsDisjoint(p: Patient)
    ensures !(AgeBetween(20, 25)(p) && AgeBetween(26, 30)(p))
    ensures !(AgeBetween(26, 30)(p) && AgeBetween(31, 35)(p))
    ensures !(AgeBetween(20, 25)(p) && AgeBetween(31, 35)(p))
    ensures !(AgeOver(35)(p) && (AgeBetween(20, 25)(p) || AgeBetween(26, 30)(p) || AgeBetween(31, 35)(p)))
    ensures p.age < 20 ==> !(AgeBetween(20, 25)(p) || AgeBetween(26, 30)(p) ||
                             AgeBetween(31, 35)(p) || AgeOver(35)(p))
  {
  }

  /** The four age-group counts together are at most the patients. */
  lemma {:induction false} AgeGroupCountsBounded(patients: seq<Patient>)
    ensures |Filter(patients, AgeBetween(20, 25))| + |Filter(patients, AgeBetween(26, 30))| +
            |Filter(patients, AgeBetween(31, 35))| + |Filter(patients, AgeOver(35))| <= |patients|
  {
    FilterCountsAdd(patients, AgeBetween(20, 25), AgeBetween(26, 30), AgeBetween(20, 30));
    FilterCountsAdd(patients, AgeBetween(20, 30), AgeBetween(31, 35), AgeBetween(20, 35));
    FilterCountsAdd(patients, AgeBetween(20, 35), AgeOver(35), AgeOver(19));
  }

  /** The dashboard's computed figures (the charts' data and the stat cards). */
  datatype KpiSummary = KpiSummary(
    totalPatients: nat,
    totalDeliveries: nat,
    highRisk: nat,
    screening: nat,
    followUp: int,
    thisMonthVisits: int,
    lowRisk: nat,
    mediumRisk: nat,
    normal: nat,
    cesarean: nat,
    assisted: nat,
    age20to25: nat,
    age26to30: nat,
    age31to35: nat,
    age36plus: nat)

  function Summary(patients: seq<Patient>, deliveries: seq<DeliveryRecord>): (k: KpiSummary)
    ensures k.totalPatients == |patients| && k.totalDeliveries == |deliveries|
    ensures k.screening + k.followUp == k.totalPatients
    ensures k.followUp == |Filter(patients, VisitIs(FollowUp))|
    ensures k.thisMonthVisits == k.totalPatients
    ensures k.lowRisk == |Filter(patients, RiskIs(Low))| && k.mediumRisk == |Filter(patients, RiskIs(Medium))|
    ensures k.highRisk == |Filter(patients, RiskIs(High))|
    ensures k.normal == |Filter(deliveries, DeliveryIs(Normal))|
    ensures k.cesarean == |Filter(deliveries, DeliveryIs(Cesarean))|
    ensures k.assisted == |Filter(deliveries, DeliveryIs(Assisted))|
    ensures k.age20to25 == |Filter(patients, AgeBetween(20, 25))| && k.age26to30 == |Filter(patients, AgeBetween(26, 30))|
    ensures k.age31to35 == |Filter(patients, AgeBetween(31, 35))| && k.age36plus == |Filter(patients, AgeOver(35))|
    ensures k.lowRisk + k.mediumRisk + k.highRisk <= k.totalPatients
    ensures k.normal + k.cesarean + k.assisted <= k.totalDeliveries
    ensures k.age20to25 + k.age26to30 + k.age31to35 + k.age36plus <= k.totalPatients
  {
    FollowUpIsComplement(patients);
    RiskCountsBounded(patients);
    DeliveryTypeCountsBounded(deliveries);
    AgeGroupCountsBounded(patients);
    var total := |patients|;
    var screening := |Filter(patients, VisitIs(Screening))|;
    KpiSummary(
      total,
      |deliveries|,
      |Filter(patients, RiskIs(High))|,
      screening,
      total - screening,
      screening + (total - screening),
      |Filter(patients, RiskIs(Low))|,
      |Filter(patients, RiskIs(Medium))|,
      |Filter(deliveries, DeliveryIs(Normal))|,
      |Filter(deliveries, DeliveryIs(Cesarean))|,
      |Filter(deliveries, DeliveryIs(Assisted))|,
      |Filter(patients, AgeBetween(20, 25))|,
      |Filter(patients, AgeBetween(26, 30))|,
      |Filter(patients, AgeBetween(31, 35))|,
      |Filter(patients, AgeOver(35))|)
  }
}
