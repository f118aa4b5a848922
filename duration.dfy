/** Trip dates and `calculateDuration`: the number of whole or started days
    between two dates, or nothing when either date is missing. */
module Duration {

  import opened Wrappers

  /** 1000 * 60 * 60 * 24: milliseconds in a day. */
  const MillisPerDay: nat := 86400000

  /** A date field of the request: the text the caller sent (interpolated into
      prompts) and the instant `new Date(text)` denotes, in milliseconds. */
  datatype DateInput = DateInput(text: string, millis: int)

  /** JavaScript truthiness of a date field: present and not the empty string. */
  predicate Truthy(d: Option<DateInput>) {
    d.Some? && d.value.text != ""
  }

  function Abs(x: int): (r: nat)
    ensures r == x || r == -x
  {
    if x < 0 then -x else x
  }

  /** Integer ceiling of `a / d`: the fewest whole multiples of `d` covering `a`. */
  function CeilDiv(a: nat, d: nat): (q: nat)
    requires d > 0
    ensures q * d >= a
    ensures q == 0 || (q - 1) * d < a
  {
    (a + d - 1) / d
  }

  /** `calculateDuration(startDate, endDate)`: `null` when either date is falsy,
      otherwise the absolute difference rounded up to whole days. */
  function CalculateDuration(startDate: Option<DateInput>, endDate: Option<DateInput>): (r: Option<nat>)
    ensures r.None? <==> !Truthy(startDate) || !Truthy(endDate)
    ensures r.Some? ==>
              var diff := Abs(endDate.value.millis - startDate.value.millis);
              r.value * MillisPerDay >= diff && (r.value == 0 || (r.value - 1) * MillisPerDay < diff)
  {
    if !Truthy(startDate) || !Truthy(endDate) then None
    else Some(CeilDiv(Abs(endDate.value.millis - startDate.value.millis), MillisPerDay))
  }

  /** Swapping the two dates does not change the duration. */
  lemma DurationSymmetric(a: Option<DateInput>, b: Option<DateInput>)
    ensures CalculateDuration(a, b) == CalculateDuration(b, a)
  {
    if Truthy(a) && Truthy(b) {
      assert Abs(b.value.millis - a.value.millis) == Abs(a.value.millis - b.value.millis);
    }
  }

  /** The duration is zero exactly when both dates denote the same instant. */
  lemma DurationZeroIffSameInstant(a: DateInput, b: DateInput)
    requires a.text != "" && b.text != ""
    ensures CalculateDuration(Some(a), Some(b)) == Some(0) <==> a.millis == b.millis
  {
  }

  /** 2024-01-01 to 2024-01-05 (midnight UTC) is four days. */
  lemma FourDayTrip()
    ensures CalculateDuration(Some(DateInput("2024-01-01", 1704067200000)),
                              Some(DateInput("2024-01-05", 1704412800000))) == Some(4)
  {
  }
}
