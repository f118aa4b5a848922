/** `generateFallbackResponse`: the canned payloads returned when no JSON can
    be recovered from the model's reply. */
module Fallback {

  import opened Wrappers
  import opened Text
  import opened JsonValues

  function Strings(items: seq<string>): (r: JsonValue)
    ensures r.JArray? && |r.items| == |items|
    ensures forall i :: 0 <= i < |items| ==> r.items[i] == JString(items[i])
  {
    if items == [] then JArray([])
    else JArray([JString(items[0])] + Strings(items[1..]).items)
  }

  const DescriptionStart := "Discover the wonders of "
  const WeatherStart := "The weather in "
  // The canned prose after the destination (route.js:317-326) is left unspecified.
  const DescriptionEnd: string
  const CulturalEnd: string
  const WeatherEnd: string
  const SafetyEnd: string
  const Attractions := ["Popular Tourist Attraction 1", "Famous Landmark 2", "Historic Site 3", "Natural Wonder 4"]

  /** The value of a string member that names the destination. */
  predicate MentionsDestination(v: Option<JsonValue>, destination: string) {
    v.Some? && v.value.JString? && Contains(v.value.s, destination)
  }

  /** The canned overview: every prose field names the destination. */
  function OverviewFallback(destination: string): (r: JsonValue)
    ensures MentionsDestination(Get(r, "description"), destination)
    ensures MentionsDestination(Get(r, "cultural"), destination)
    ensures MentionsDestination(Get(r, "weather"), destination)
    ensures MentionsDestination(Get(r, "safety"), destination)
    ensures Get(r, "attractions") == Some(Strings(Attractions))
    ensures Get(r, "error").None?
  {
    ContainsSpliced(DescriptionStart, destination, DescriptionEnd);
    ContainsSpliced("", destination, CulturalEnd);
    ContainsSpliced(WeatherStart, destination, WeatherEnd);
    ContainsSpliced("", destination, SafetyEnd);
    var members := [
      ("description", JString(DescriptionStart + destination + DescriptionEnd)),
      ("attractions", Strings(Attractions)),
      ("cultural", JString("" + destination + CulturalEnd)),
      ("weather", JString(WeatherStart + destination + WeatherEnd)),
      ("safety", JString("" + destination + SafetyEnd))
    ];
    LookupAt(members, 0, "description");
    LookupAt(members, 1, "attractions");
    LookupAt(members, 2, "cultural");
    LookupAt(members, 3, "weather");
    LookupAt(members, 4, "safety");
    LookupMisses(members, "error");
    JObject(members)
  }

  /** The three budget categories of the canned accommodation payload. */
  datatype Tier = BudgetTier | MidRangeTier | LuxuryTier

  const BudgetKind := "Budget Accommodations"
  const MidRangeKind := "Mid-range Hotels"
  const LuxuryKind := "Luxury Options"

  /** The categories in payload order. */
  function TierAt(i: nat): Tier {
    if i == 0 then BudgetTier else if i == 1 then MidRangeTier else LuxuryTier
  }

  function TierKind(t: Tier): string {
    match t
    case BudgetTier => BudgetKind
    case MidRangeTier => MidRangeKind
    case LuxuryTier => LuxuryKind
  }

  function TierPriceRange(t: Tier): string {
    match t
    case BudgetTier => "$50-100 per night"
    case MidRangeTier => "$100-250 per night"
    case LuxuryTier => "$250+ per night"
  }

  // The descriptions of the three categories (route.js:333, 343, 353) are left unspecified.
  const BudgetDescription: string
  const MidRangeDescription: string
  const LuxuryDescription: string

  function TierDescription(t: Tier): string {
    match t
    case BudgetTier => BudgetDescription
    case MidRangeTier => MidRangeDescription
    case LuxuryTier => LuxuryDescription
  }

  // The three recommendations of each category (route.js:335-337, 345-347,
  // 355-357); their wording is left unspecified.
  const BudgetPicks: (string, string, string)
  const MidRangePicks: (string, string, string)
  const LuxuryPicks: (string, string, string)

  function TierRecommendations(t: Tier): (r: seq<string>)
    ensures |r| == 3
  {
    var picks := match t
      case BudgetTier => BudgetPicks
      case MidRangeTier => MidRangePicks
      case LuxuryTier => LuxuryPicks;
    [picks.0, picks.1, picks.2]
  }

  /** A category object whose `type` is `kind` and which lists three recommendations. */
  predicate IsCategory(option: JsonValue, kind: string) {
    Get(option, "type") == Some(JString(kind))
    && Get(option, "recommendations").Some? && Get(option, "recommendations").value.JArray?
    && |Get(option, "recommendations").value.items| == 3
  }

  /** One category of the canned accommodation payload: its type, price range,
      description and recommendations, in that order. */
  function AccommodationOption(t: Tier): (r: JsonValue)
    ensures IsCategory(r, TierKind(t))
    ensures Get(r, "priceRange") == Some(JString(TierPriceRange(t)))
    ensures Get(r, "description") == Some(JString(TierDescription(t)))
    ensures Get(r, "recommendations") == Some(Strings(TierRecommendations(t)))
  {
    var members := [
      ("type", JString(TierKind(t))),
      ("priceRange", JString(TierPriceRange(t))),
      ("description", JString(TierDescription(t))),
      ("recommendations", Strings(TierRecommendations(t)))
    ];
    LookupAt(members, 0, "type");
    LookupAt(members, 1, "priceRange");
    LookupAt(members, 2, "description");
    LookupAt(members, 3, "recommendations");
    JObject(members)
  }

  /** The budget, mid-range and luxury categories, in that order. */
  function AccommodationOptions(): (r: seq<JsonValue>)
    ensures |r| == 3
    ensures forall i :: 0 <= i < 3 ==> r[i] == AccommodationOption(TierAt(i))
    ensures forall i :: 0 <= i < 3 ==> IsCategory(r[i], TierKind(TierAt(i)))
  {
    [AccommodationOption(TierAt(0)), AccommodationOption(TierAt(1)), AccommodationOption(TierAt(2))]
  }

  /** The canned accommodation payload: its `options` are the three categories. */
  function AccommodationFallback(): (r: JsonValue)
    ensures Get(r, "options") == Some(JArray(AccommodationOptions()))
    ensures Get(r, "error").None?
  {
    var members := [("options", JArray(AccommodationOptions()))];
    LookupAt(members, 0, "options");
    LookupMisses(members, "error");
    JObject(members)
  }

  const UnavailablePrefix := "Unable to generate valid data for "
  const UnavailableSuffix := ". Please try again later."

  /** The generic error object for a section without a table entry: it flags
      the error, names the section in its message and echoes the destination. */
  function UnavailableFallback(section: string, destination: string): (r: JsonValue)
    ensures Get(r, "error") == Some(JBool(true))
    ensures Get(r, "destinationName") == Some(JString(destination))
    ensures Get(r, "message").Some? && Get(r, "message").value.JString?
            && Contains(Get(r, "message").value.s, section)
  {
    ContainsSpliced(UnavailablePrefix, section, UnavailableSuffix);
    var members := [
      ("error", JBool(true)),
      ("message", JString(UnavailablePrefix + section + UnavailableSuffix)),
      ("destinationName", JString(destination))
    ];
    LookupAt(members, 0, "error");
    LookupAt(members, 1, "message");
    LookupAt(members, 2, "destinationName");
    JObject(members)
  }

  /** `generateFallbackResponse(section, destination, ...)`: the table entry for
      "overview" and "accommodation", the generic error object for every other section. */
  function FallbackResponse(section: string, destination: string): (r: JsonValue)
    ensures section == "overview" ==> r == OverviewFallback(destination)
    ensures section == "accommodation" ==> r == AccommodationFallback()
    ensures Get(r, "error").Some? <==> section != "overview" && section != "accommodation"
    ensures section != "overview" && section != "accommodation" ==>
              Get(r, "error") == Some(JBool(true))
              && Get(r, "destinationName") == Some(JString(destination))
              && Get(r, "message").Some? && Get(r, "message").value.JString?
              && Contains(Get(r, "message").value.s, section)
  {
    if section == "overview" then OverviewFallback(destination)
    else if section == "accommodation" then AccommodationFallback()
    else UnavailableFallback(section, destination)
  }
}
