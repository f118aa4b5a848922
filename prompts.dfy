/** `generatePrompt`: the base context sentence, the nine-entry section table of
    instructions and response shapes, and the three strings built from them. */
module Prompts {

  import opened Wrappers
  import opened Text
  import opened Duration

  /** The nine content categories a request can ask for. */
  datatype Section =
    | Overview | Accommodation | Food | Transportation | Events
    | Budget | Itinerary | Tips | Shopping

  /** The property name of a section in the two tables. */
  function Key(s: Section): string {
    match s
    case Overview => "overview"
    case Accommodation => "accommodation"
    case Food => "food"
    case Transportation => "transportation"
    case Events => "events"
    case Budget => "budget"
    case Itinerary => "itinerary"
    case Tips => "tips"
    case Shopping => "shopping"
  }

  /** `table[section]` on an object literal: the section whose key is `key`, or
      `undefined` for any other string. */
  function LookupSection(key: string): (r: Option<Section>)
    ensures r.Some? ==> Key(r.value) == key
    ensures r.None? ==> forall s: Section :: Key(s) != key
  {
    if key == "overview" then Some(Overview)
    else if key == "accommodation" then Some(Accommodation)
    else if key == "food" then Some(Food)
    else if key == "transportation" then Some(Transportation)
    else if key == "events" then Some(Events)
    else if key == "budget" then Some(Budget)
    else if key == "itinerary" then Some(Itinerary)
    else if key == "tips" then Some(Tips)
    else if key == "shopping" then Some(Shopping)
    else None
  }

  /** Every section is found under its own key, so no two sections share one. */
  lemma LookupKey(s: Section)
    ensures LookupSection(Key(s)) == Some(s)
  {
  }

  /** The request fields the prompts interpolate. `guests` is the result of
      `parseInt(guests, 10)`: an integer, or `None` for `NaN`. */
  datatype Trip = Trip(destination: string, startDate: Option<DateInput>,
                       endDate: Option<DateInput>, guests: Option<int>)

  /** `${guests}`. */
  function GuestsText(guests: Option<int>): string {
    if guests.None? then "NaN" else IntToDecimal(guests.value)
  }

  /** Different guest counts (and `NaN`) never render alike. */
  lemma GuestsTextInjective(a: Option<int>, b: Option<int>)
    requires GuestsText(a) == GuestsText(b)
    ensures a == b
  {
    if a.Some? && b.Some? {
      IntToDecimalInjective(a.value, b.value);
    }
  }

  /** `${date}`: the text, or "undefined" for a field that was not sent. */
  function DateText(d: Option<DateInput>): string {
    if d.None? then "undefined" else d.value.text
  }

  /** `${value}` of a table lookup: the entry, or "undefined" on a miss. */
  function TemplateText(t: Option<string>): string {
    if t.None? then "undefined" else t.value
  }

  /** `guests === 1 ? 'person' : 'people'`. */
  function PersonWord(guests: Option<int>): (r: string)
    ensures r == "person" <==> guests == Some(1)
    ensures r == "person" || r == "people"
  {
    if guests == Some(1) then "person" else "people"
  }

  /** `guests === 1 ? 'solo travelers' : guests > 2 ? 'groups' : 'couples'`;
      `NaN`, zero and negative counts fall through to "couples". */
  function TravelerLabel(guests: Option<int>): (r: string)
    ensures r == "solo travelers" <==> guests == Some(1)
    ensures r == "groups" <==> guests.Some? && guests.value > 2
    ensures r == "couples" <==> guests.None? || guests.value <= 0 || guests.value == 2
  {
    if guests == Some(1) then "solo travelers"
    else if guests.Some? && guests.value > 2 then "groups"
    else "couples"
  }

  /** `duration ? `for ${duration} days` : ''`; a duration of zero is falsy. */
  function DaysClause(duration: Option<nat>): (r: string)
    ensures r == "" <==> duration.None? || duration.value == 0
    ensures r != "" ==> r == "for " + NatToDecimal(duration.value) + " days"
  {
    if duration.Some? && duration.value != 0 then "for " + NatToDecimal(duration.value) + " days" else ""
  }

  /** `startDate ? then : ''`: only the start date is tested, so a missing end
      date is rendered as "undefined". */
  function IfStartDate(trip: Trip, then_: string): string {
    if Truthy(trip.startDate) then then_ else ""
  }

  function FromTo(trip: Trip): string {
    DateText(trip.startDate) + " to " + DateText(trip.endDate)
  }

  /** `${guests} ${guests === 1 ? 'person' : 'people'}`. */
  function GuestPhrase(guests: Option<int>): string {
    GuestsText(guests) + " " + PersonWord(guests)
  }

  /** The fixed opening of the base context, up to the destination (route.js:9). */
  const BaseIntro: string

  /** The base context up to the guest count. */
  function BaseHead(trip: Trip): string {
    BaseIntro + trip.destination + " for a trip with "
  }

  /** The base context after the guest count: the days clause and the dates. */
  function BaseTail(trip: Trip, duration: Option<nat>): string {
    " " + DaysClause(duration) + ". " + IfStartDate(trip, "The trip is planned from " + FromTo(trip) + ".")
  }

  /** The opening sentence of every system prompt. */
  function BaseContext(trip: Trip, duration: Option<nat>): string {
    BaseHead(trip) + GuestPhrase(trip.guests) + BaseTail(trip, duration)
  }

  /** The base context states the guest count followed by its person/people word. */
  lemma BaseContextStatesGuests(trip: Trip, duration: Option<nat>)
    ensures Contains(BaseContext(trip, duration), GuestsText(trip.guests) + " " + PersonWord(trip.guests))
  {
    ContainsSpliced(BaseHead(trip), GuestPhrase(trip.guests), BaseTail(trip, duration));
  }

  /** A non-zero duration is stated as "for N days" in the base context. */
  lemma BaseContextStatesDays(trip: Trip, duration: Option<nat>)
    requires duration.Some? && duration.value != 0
    ensures Contains(BaseContext(trip, duration), "for " + NatToDecimal(duration.value) + " days")
  {
    var clause := DaysClause(duration);
    var dates := IfStartDate(trip, "The trip is planned from " + FromTo(trip) + ".");
    ContainsSpliced(" ", clause, ". ");
    ContainsExtended(" " + clause + ". ", dates, clause);
    assert BaseTail(trip, duration) == " " + clause + ". " + dates;
    ContainsExtended(BaseHead(trip) + GuestPhrase(trip.guests), BaseTail(trip, duration), clause);
  }

  // The wording of the templates. Which piece a section selects and where it
  // is spliced in are modelled; the prose itself is left unspecified.

  /** The nine entries of `responseFormats` (route.js:13-135), each a textual JSON shape. */
  const OverviewFormat: string
  const AccommodationFormat: string
  const FoodFormat: string
  const TransportationFormat: string
  const EventsFormat: string
  const BudgetFormat: string
  const ItineraryFormat: string
  const TipsFormat: string
  const ShoppingFormat: string

  /** The expected JSON shape of each section (`responseFormats[section]`). */
  function ResponseFormat(s: Section): string {
    match s
    case Overview => OverviewFormat
    case Accommodation => AccommodationFormat
    case Food => FoodFormat
    case Transportation => TransportationFormat
    case Events => EventsFormat
    case Budget => BudgetFormat
    case Itinerary => ItineraryFormat
    case Tips => TipsFormat
    case Shopping => ShoppingFormat
  }

  /** The fixed requests that follow the destination in `sectionPrompts` (route.js:140-156). */
  const OverviewAsk: string
  const AccommodationAsk: string
  const FoodAsk: string
  const TransportationAsk: string
  const EventsAsk: string
  const BudgetAsk: string
  const ItineraryAsk: string
  const TipsAsk: string
  const TipsClose: string
  const ShoppingAsk: string
  const EventsClose := ". Suggest guided tours or day trips."

  /** The section-specific instruction (`sectionPrompts[section]`). */
  function SectionPrompt(s: Section, trip: Trip, duration: Option<nat>): string {
    var d := trip.destination;
    var guests := GuestPhrase(trip.guests);
    var days := if DaysClause(duration) == "" then "" else " " + DaysClause(duration);
    match s
    case Overview =>
      "Provide an overview of " + d + OverviewAsk
      + (if Truthy(trip.startDate) then "the dates " + FromTo(trip) else "typical weather") + ", and any safety tips."
    case Accommodation =>
      "Recommend accommodation options in " + d + " for " + guests
      + AccommodationAsk + TravelerLabel(trip.guests) + "."
    case Food =>
      "Describe the local cuisine in " + d + FoodAsk
    case Transportation =>
      "Explain how to get to " + d + TransportationAsk
    case Events =>
      "List events, festivals, or activities in " + d + IfStartDate(trip, " occurring around " + FromTo(trip))
      + EventsAsk + TravelerLabel(trip.guests) + EventsClose
    case Budget =>
      "Provide a budget estimate for a trip to " + d + " for " + guests + days + BudgetAsk
    case Itinerary =>
      "Create a suggested itinerary for a trip to " + d + days + ItineraryAsk
    case Tips =>
      "Provide travel tips for visiting " + d + TipsAsk + IfStartDate(trip, "(" + FromTo(trip) + ")") + TipsClose
    case Shopping =>
      "Recommend shopping experiences in " + d + ShoppingAsk
  }

  /** The accommodation and events instructions name the traveller group. */
  lemma PromptNamesTravelers(s: Section, trip: Trip, duration: Option<nat>)
    requires s == Accommodation || s == Events
    ensures Contains(SectionPrompt(s, trip, duration), TravelerLabel(trip.guests))
  {
    var travelers := TravelerLabel(trip.guests);
    if s == Accommodation {
      var head := "Recommend accommodation options in " + trip.destination + " for "
                  + GuestPhrase(trip.guests) + AccommodationAsk;
      assert SectionPrompt(s, trip, duration) == head + travelers + ".";
      ContainsSpliced(head, travelers, ".");
    } else {
      var head := "List events, festivals, or activities in " + trip.destination
                  + IfStartDate(trip, " occurring around " + FromTo(trip))
                  + EventsAsk;
      var tail := EventsClose;
      assert SectionPrompt(s, trip, duration) == head + travelers + tail;
      ContainsSpliced(head, travelers, tail);
    }
  }

  const JsonOnlySuffix := " Respond only with " + "JSON" + " in the specified format."
  /** The fixed text joining the section instruction to its shape (route.js:161). */
  const FormatConnector: string

  /** What `generatePrompt` returns; `responseFormat` is `undefined` when the
      section is not one of the nine. */
  datatype PromptBundle = PromptBundle(systemPrompt: string, userPrompt: string,
                                       responseFormat: Option<string>)

  predicate EndsWith(s: string, suffix: string) {
    |suffix| <= |s| && s[|s| - |suffix|..] == suffix
  }

  lemma EndsWithAppended(a: string, b: string)
    ensures EndsWith(a + b, b)
  {
    assert (a + b)[|a|..] == b;
  }

  /** Whatever precedes it, the fixed suffix puts the word "JSON" in the system prompt. */
  lemma SuffixDemandsJson(base: string)
    ensures Contains(base + JsonOnlySuffix, "JSON")
  {
    var a := base + " Respond only with ";
    var system := a + "JSON" + " in the specified format.";
    assert system[|a|..|a| + 4] == "JSON";
    assert OccursAt(system, "JSON", |a|);
    assert system == base + JsonOnlySuffix;
  }

  /** `generatePrompt(destination, startDate, endDate, guests, section)`. */
  function GeneratePrompt(trip: Trip, section: string): (r: PromptBundle)
    ensures r.systemPrompt == BaseContext(trip, CalculateDuration(trip.startDate, trip.endDate)) + JsonOnlySuffix
    ensures Contains(r.systemPrompt, "JSON")
    ensures r.responseFormat.Some? <==> LookupSection(section).Some?
    ensures r.responseFormat.Some? ==> r.responseFormat.value == ResponseFormat(LookupSection(section).value)
    ensures LookupSection(section).Some? ==>
              var s := LookupSection(section).value;
              var p := SectionPrompt(s, trip, CalculateDuration(trip.startDate, trip.endDate));
              r.userPrompt == p + FormatConnector + ResponseFormat(s)
              && EndsWith(r.userPrompt, ResponseFormat(s))
    ensures LookupSection(section).None? ==> r.userPrompt == "undefined" + FormatConnector + "undefined"
  {
    var duration := CalculateDuration(trip.startDate, trip.endDate);
    var base := BaseContext(trip, duration);
    var entry := LookupSection(section);
    var format := if entry.Some? then Some(ResponseFormat(entry.value)) else None;
    var prompt := if entry.Some? then Some(SectionPrompt(entry.value, trip, duration)) else None;
    var system := base + JsonOnlySuffix;
    SuffixDemandsJson(base);
    var user := TemplateText(prompt) + FormatConnector + TemplateText(format);
    EndsWithAppended(TemplateText(prompt) + FormatConnector, TemplateText(format));
    PromptBundle(system, user, format)
  }
}
