/** The delivery list page (src/pages/Delivery.tsx). */
module DeliveryPage {
  import opened Wrappers
  import opened Types
  import opened Seqs
  import opened Text

  /** The row filter: file number or name includes the search term, both lower-cased. */
  function DeliveryMatch(term: string, lower: string -> string): DeliveryRecord -> bool {
    (d: DeliveryRecord) => Matches(lower, d.patient.fileNumber, term) || Matches(lower, d.patient.name, term)
  }

  function FilteredDeliveries(deliveries: seq<DeliveryRecord>, term: string, lower: string -> string): (r: seq<DeliveryRecord>)
    ensures IsSubsequence(r, deliveries)
    ensures forall d :: d in r <==> d in deliveries && DeliveryMatch(term, lower)(d)
    ensures forall i :: 0 <= i < |deliveries| ==>
              multiset(r)[deliveries[i]] == if DeliveryMatch(term, lower)(deliveries[i]) then multiset(deliveries)[deliveries[i]] else 0
  {
    FilterIsSubsequence(deliveries, DeliveryMatch(term, lower));
    FilterMultiplicity(deliveries, DeliveryMatch(term, lower));
    Filter(deliveries, DeliveryMatch(term, lower))
  }

  /** An empty search box lists every delivery, in store order. */
  lemma EmptySearchKeepsAllDeliveries(deliveries: seq<DeliveryRecord>, lower: string -> string)
    requires lower("") == ""
    ensures FilteredDeliveries(deliveries, "", lower) == deliveries
  {
    forall i | 0 <= i < |deliveries|
      ensures DeliveryMatch("", lower)(deliveries[i])
    {
      EmptyTermMatches(lower, deliveries[i].patient.fileNumber);
    }
    FilterKeepsAll(deliveries, DeliveryMatch("", lower));
  }

  const GreenBadge := "bg-green-100 text-green-800"
  const OrangeBadge := "bg-orange-100 text-orange-800"
  const BlueBadge := "bg-blue-100 text-blue-800"
  const RedBadge := "bg-red-100 text-red-800"
  const GreyBadge := "bg-gray-100 text-gray-800"

  /** `getDeliveryBadge`: a lookup keyed by the type string, grey when the key is absent. */
  function DeliveryBadge(key: string): (badge: string)
    ensures badge == GreenBadge <==> key == "normal"
    ensures badge == OrangeBadge <==> key == "cesarean"
    ensures badge == BlueBadge <==> key == "assisted"
    ensures badge == GreyBadge <==> !(key in {"normal", "cesarean", "assisted"})
  {
    match key
    case "normal" => GreenBadge
    case "cesarean" => OrangeBadge
    case "assisted" => BlueBadge
    case _ => GreyBadge
  }

  function TypeName(t: DeliveryType): string {
    match t
    case Normal => "normal"
    case Cesarean => "cesarean"
    case Assisted => "assisted"
  }

  /** The type column's text, `deliveryType || 'N/A'`. */
  function TypeLabel(d: DeliveryRecord): (shownType: string)
    ensures shownType == "N/A" <==> d.deliveryType.None?
    ensures d.deliveryType.Some? ==> shownType == TypeName(d.deliveryType.value)
  {
    if d.deliveryType.Some? then TypeName(d.deliveryType.value) else "N/A"
  }

  /** The type column's badge, `getDeliveryBadge(deliveryType || 'normal')`. */
  function TypeBadge(d: DeliveryRecord): (badge: string)
    ensures badge != GreyBadge
    ensures badge == GreenBadge <==> d.deliveryType in {None, Some(Normal)}
    ensures badge == OrangeBadge <==> d.deliveryType == Some(Cesarean)
    ensures badge == BlueBadge <==> d.deliveryType == Some(Assisted)
  {
    DeliveryBadge(TypeName(d.deliveryType.GetOr(Normal)))
  }

  /** A record without a delivery type is coloured as a normal delivery but labelled "N/A". */
  lemma MissingTypeShownAsNormal(d: DeliveryRecord)
    requires d.deliveryType.None?
    ensures TypeBadge(d) == TypeBadge(d.(deliveryType := Some(Normal)))
    ensures TypeLabel(d) == "N/A" && TypeLabel(d.(deliveryType := Some(Normal))) == "normal"
  {
  }

  /** The APGAR badge, green when `(apgarScore || 0) >= 7` and red otherwise. */
  function ApgarBadge(score: Option<int>): (badge: string)
    ensures badge == GreenBadge <==> score.Some? && score.value >= 7
    ensures badge == RedBadge <==> !(score.Some? && score.value >= 7)
  {
    if score.GetOr(0) >= 7 then GreenBadge else RedBadge
  }

  /**
   * The APGAR column's text, `apgarScore || 'N/A'`: the score, or nothing
   * (shown as "N/A") when it is absent or 0, since 0 is falsy.
   */
  function ApgarShown(score: Option<int>): (shown: Option<int>)
    ensures shown.None? <==> score in {None, Some(0)}
    ensures shown.Some? ==> shown == score
  {
    if score.Some? && score.value != 0 then score else None
  }
}
