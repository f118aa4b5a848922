# TripSage destination-details handler, modelled in Dafny

TripSage is a travel-information web application. Its only backend logic is the
`POST /api/destination-details` handler. The handler builds a section-specific prompt for a
large language model and sends it. It retries once with stricter wording when the reply looks
nothing like JSON. It then recovers a JSON value from the reply in three ordered steps, and falls
back to a canned payload when recovery fails.

This project models that handler and proves properties of the model. It has one module per piece:

- `Wrappers` (`wrappers.dfy`): `Option` for `undefined`/`null`, and `Result` for a thrown error with its message.
- `JsonValues` (`json.dfy`): JSON values as data, plus property access `obj[key]`.
- `Text` (`text.dfy`): the `\s` white-space class and `trim`, `indexOf`/`includes`, and the decimal rendering of integers in template literals.
- `Duration` (`duration.dfy`): `calculateDuration`. Dates are the sent text plus an integer millisecond timestamp. The day count is an exact integer ceiling division by 86 400 000.
- `Prompts` (`prompts.dfy`): `generatePrompt`. It covers the base context sentence, the nine-section table (the lookup is an `Option`, so an unknown section is a miss and not an error), the guest wording, and the three strings returned.
- `Extraction` (`extraction.dfy`): `isValidJSON` and `extractJSON`. `JSON.parse` is a function parameter; it returns a value, or the message of the `SyntaxError` it throws. The two regular expressions are written out by hand:
  - the fence finder gives the trimmed text between the first ```` ``` ```` and the next one, after an optional `json` tag;
  - the brace check asks whether the trimmed text starts with `{` and ends with a separate `}`.
- `Fallback` (`fallback.dfy`): `generateFallbackResponse`. It has canned objects for `overview` and `accommodation`, and a generic error object for every other section.
- `Handler` (`handler.dfy`): `POST` as a method. The model endpoint is a function parameter from (call number, system instruction, user instruction) to a reply text or an exception. A ghost sequence records the instructions of each outbound call.

A few JavaScript behaviours are modelled explicitly:

- Falsy `destination`/`section`: the empty string.
- `parseInt` giving `NaN`: `None`.
- A missing `endDate` printed as `undefined`.
- A zero duration being falsy, so there is no "for 0 days".
- A miss in `sectionPrompts[section]` printed as `undefined`.

## Model

| member | source | states |
|---|---|---|
| `Duration.Truthy` | app/api/destination-details/route.js:168 | a date field is truthy exactly when it was sent and is not the empty string |
| `Duration.CalculateDuration` | app/api/destination-details/route.js:167-176 | null exactly when either date is falsy; otherwise the least day count whose span covers the absolute difference of the two instants |
| `Duration.CeilDiv` | app/api/destination-details/route.js:173 | the ceiling of a division: the quotient covers the dividend, and one fewer does not |
| `Duration.DurationSymmetric` | app/api/destination-details/route.js:172 | swapping start and end dates gives the same duration |
| `Duration.DurationZeroIffSameInstant` | app/api/destination-details/route.js:172-173 | with both dates present, the duration is 0 exactly when the two instants coincide |
| `Duration.FourDayTrip` | app/api/destination-details/route.js:167-176 | 2024-01-01 to 2024-01-05 is 4 days |
| `Text.Trim` | app/api/destination-details/route.js:197 | the trim is a slice of the input with only white space cut from either end, and no white space left at either edge |
| `Text.IndexOf` | app/api/destination-details/route.js:197 | finds the first occurrence at or after the start index, or reports that there is none |
| `Text.NatToDecimal` | app/api/destination-details/route.js:9 | `${n}` is a non-empty string of digits with no leading zero |
| `Text.DecimalRoundTrip` | app/api/destination-details/route.js:9 | reading back the rendered numeral gives the number |
| `Text.IntToDecimal` | app/api/destination-details/route.js:9 | a negative count is rendered with a leading minus sign, and only a negative one; the digits, after the sign if any, are the decimal numeral of the magnitude |
| `Text.IntToDecimalInjective` | app/api/destination-details/route.js:9 | distinct integers render differently |
| `Prompts.GuestsText` | app/api/destination-details/route.js:9 | `${guests}`: "NaN" for a count that did not parse, otherwise the integer's decimal rendering (`Prompts.GuestsTextInjective` states it loses nothing) |
| `Prompts.ResponseFormat` | app/api/destination-details/route.js:12-136 | the shape of each of the nine sections, one entry per section |
| `Prompts.SectionPrompt` | app/api/destination-details/route.js:139-157 | the instruction of each of the nine sections, splicing in the destination, the guest phrase, the days clause, the dates and the traveller label where the source does (`Prompts.PromptNamesTravelers` states the label's presence) |
| `Prompts.DateText` | app/api/destination-details/route.js:9 | `${startDate}`/`${endDate}`: the sent text, or "undefined" for a field that was not sent |
| `Prompts.TemplateText` | app/api/destination-details/route.js:161-162 | `${sectionPrompts[section]}`/`${responseFormats[section]}`: the table entry, or "undefined" on a miss |
| `Prompts.LookupSection` | app/api/destination-details/route.js:161-162 | a table lookup hits exactly the section whose key was given; every other string misses |
| `Prompts.LookupKey` | app/api/destination-details/route.js:12-136 | each of the nine sections is found under its own key |
| `Prompts.GuestsTextInjective` | app/api/destination-details/route.js:9 | different guest counts, and NaN, never render alike |
| `Prompts.PersonWord` | app/api/destination-details/route.js:9 | "person" exactly when guests is 1, otherwise "people" |
| `Prompts.TravelerLabel` | app/api/destination-details/route.js:142 | "solo travelers" exactly for 1 guest; "groups" exactly for more than 2; "couples" exactly for NaN, 0 or less, or 2 |
| `Prompts.DaysClause` | app/api/destination-details/route.js:9 | the "for N days" clause is absent exactly when the duration is null or 0, and otherwise reads "for " + the decimal duration + " days" |
| `Prompts.BaseContext` | app/api/destination-details/route.js:9 | the base context: the fixed opening, the destination, the guest phrase, the days clause and, when a start date is present, the dates (its properties are the two lemmas below) |
| `Prompts.BaseContextStatesDays` | app/api/destination-details/route.js:9 | a non-zero duration appears in the base context as "for N days" |
| `Prompts.BaseContextStatesGuests` | app/api/destination-details/route.js:9 | the base context states the guest count followed by its person/people word |
| `Prompts.PromptNamesTravelers` | app/api/destination-details/route.js:142-148 | the accommodation and events instructions name the traveller group |
| `Prompts.SuffixDemandsJson` | app/api/destination-details/route.js:160 | the system prompt contains "JSON" whatever precedes the suffix |
| `Prompts.GeneratePrompt` | app/api/destination-details/route.js:7-164 | system prompt = base context + fixed JSON-only suffix. For a known section, the user prompt is the section instruction, the fixed connector and the section's shape, and ends with that shape; `responseFormat` is that shape. For an unknown section, both lookups are `undefined` |
| `Extraction.StripTag` | app/api/destination-details/route.js:197 | removes a leading `json` tag when there is one, and leaves the text unchanged otherwise |
| `JsonValues.LookupMisses` | app/api/destination-details/route.js:365 | a property lookup misses exactly when no member carries the key |
| `Extraction.FencedAtFound` | app/api/destination-details/route.js:197 | the first fence and the next fence after it are exactly what the two substring searches find |
| `Extraction.CaptureOfEveryPair` | app/api/destination-details/route.js:197-198 | whenever an opening fence has a closing fence after it, the capture is the trimmed, tag-less text between them |
| `Extraction.CaptureHasPair` | app/api/destination-details/route.js:197-198 | a capture always comes from such a pair of fences, is trimmed, and contains no fence |
| `Extraction.IsValidJSON` | app/api/destination-details/route.js:179-186 | true exactly when the strict parse succeeds |
| `Extraction.FenceCapture` | app/api/destination-details/route.js:197 | group 1 of the fence regex, computed with two substring searches (its properties are `Extraction.FenceCaptureSpec`) |
| `Extraction.FenceCaptureSpec` | app/api/destination-details/route.js:197-198 | a capture exists exactly when an opening fence has a closing fence after it. It is the trimmed, tag-less text between the first fence and the next one, and contains no fence |
| `Extraction.CaptureHasNoFence` | app/api/destination-details/route.js:197 | the lazy capture never contains a fence |
| `Extraction.BraceCapture` | app/api/destination-details/route.js:203-204 | matches exactly when the trimmed text starts with `{` and ends with a separate `}`; the capture is the trimmed text |
| `Extraction.Rethrow` | app/api/destination-details/route.js:210-211 | a strategy's parse error is rethrown with the prefix "Failed to extract JSON: "; a success passes through |
| `Extraction.ExtractJSON` | app/api/destination-details/route.js:189-214 | the three strategies in order. A parsing text is returned unchanged. A non-empty fenced block decides the outcome with no fallthrough to braces. The brace strategy runs only without such a block and only on a brace-delimited text. Every error carries the prefix; every success is the parse of the text, its fence capture or its trim |
| `Extraction.BareObjectExample` | app/api/destination-details/route.js:192 | a bare object is returned by the direct parse |
| `Extraction.OneFencedBlock` | app/api/destination-details/route.js:197 | in a reply made of one ```` ```json ```` block around a body without backticks, the two fences are the block's own |
| `Extraction.TaggedBodyTrimmed` | app/api/destination-details/route.js:197 | the `json` tag and the line breaks around a trimmed body are cut away |
| `Extraction.FencedBodyUnwrapped` | app/api/destination-details/route.js:195-200 | a reply that is one ```` ```json ```` block and fails the direct parse is unwrapped: the result is the parse of the body, with the prefix on failure |
| `Extraction.NoFenceNoBraceFails` | app/api/destination-details/route.js:195-211 | a reply without a non-empty fenced block and without a brace-delimited trimmed text, that fails the direct parse, gets "No valid JSON found in the response" with the prefix |
| `Extraction.NoBacktickNoFence` | app/api/destination-details/route.js:197 | a reply without a backtick has no fenced block |
| `Extraction.ProseBeforeObjectExample` | app/api/destination-details/route.js:203-211 | prose before an object defeats every strategy and raises "No valid JSON found in the response" with the prefix |
| `Fallback.OverviewFallback` | app/api/destination-details/route.js:316-327 | the overview payload's description, cultural, weather and safety texts all name the destination; attractions are the four fixed names; it has no `error` member |
| `Fallback.TierRecommendations` | app/api/destination-details/route.js:334-338 | every category lists three recommendations |
| `Fallback.AccommodationOption` | app/api/destination-details/route.js:330-339 | a category object carries its type, its price range, its description and exactly its three recommendations |
| `Fallback.AccommodationOptions` | app/api/destination-details/route.js:329-360 | three categories, the i-th being the budget, mid-range and luxury category object in that order, each with its type, price range, description and three recommendations |
| `Fallback.AccommodationFallback` | app/api/destination-details/route.js:328-361 | the accommodation payload's `options` are those three categories; it has no `error` member |
| `Fallback.UnavailableFallback` | app/api/destination-details/route.js:365-369 | the generic object has `error: true`, a message naming the section, and `destinationName` equal to the destination |
| `Fallback.FallbackResponse` | app/api/destination-details/route.js:314-370 | the overview and accommodation entries for those two sections. Every other section gets `error: true`, a message naming the section, and `destinationName` equal to the destination. The payload has an `error` member exactly for the other sections |
| `Handler.SuccessBody` | app/api/destination-details/route.js:293-303 | the extracted value when extraction succeeds, otherwise the section's fallback |
| `Handler.MissingParameters` | app/api/destination-details/route.js:221-224 | the 400 body: its `error` member is "Missing required parameters" |
| `Handler.ServerError` | app/api/destination-details/route.js:304-309 | status 500, with `error` "Failed to process request" and `details` the message of the caught exception |
| `Handler.MissingRequired` | app/api/destination-details/route.js:220 | the request lacks a destination or a section (absent or empty) |
| `Handler.NeedsRetry` | app/api/destination-details/route.js:262 | the retry gate: the reply fails the strict parse and contains neither `{` nor `}` |
| `Handler.Converse` | app/api/destination-details/route.js:249-290 | the first call carries the prompts. A second call, with the retry instructions, is made exactly when the first reply fails the gate. The outcome is the last reply's text, or the message of the exception it threw |
| `Handler.Serve` | app/api/destination-details/route.js:227-303 | the calls carry the request's prompts; an exception gives 500 with its message; otherwise 200 with the extracted value or the fallback |
| `Handler.Post` | app/api/destination-details/route.js:216-311 | see the list below the table |
| `Handler.RetryInstructions` | app/api/destination-details/route.js:266-277 | the retry system instruction is the original plus the stricter wording; the retry user instruction is the original, the fixed connector and the response shape ("undefined" on a miss), so the originals are prefixes and the shape ends it |
| `Handler.EmptyReplyRetries` | app/api/destination-details/route.js:259-262 | an empty reply (what a missing text field becomes) always passes the retry gate when the strict parse rejects it |
| `Handler.BraceSuppressesRetry` | app/api/destination-details/route.js:262 | a reply containing `{` or `}` is never retried, however malformed |

What `Handler.Post` promises:

- A body that fails to parse gives 500 with `details`. A missing destination or section gives 400. Neither makes an outbound call.
- Otherwise the first call carries the generated prompts, and at most two calls are made.
- A second call is made exactly when the first reply fails the strict parse and has no brace. Its instructions are the originals plus the fixed stricter wording and the response shape.
- An exception from a call gives 500 with its message.
- Otherwise the status is 200, and the body is the extracted value or the fallback. A failed extraction never gives 400 or 500.

## Left out

- The network call (`fetch` with the API key and endpoint URL), `NextResponse`, `req.json()` and `console` logging are I/O. They are replaced by function parameters: the request body or its parse error, and a reply source.
- The internals of `JSON.parse` are not modelled. It is an arbitrary function from text to a value or an error message, so nothing assumes the JSON grammar. In particular `JSON.parse("")` failing is a hypothesis of `Handler.EmptyReplyRetries`.
- Date parsing (`new Date(text)`) and invalid dates (NaN durations) are not modelled. Each date is given with its millisecond timestamp.
- `Duration.CalculateDuration`: uses exact integer ceiling division instead of floating-point `Math.ceil(diffTime / 86400000)`. The two can differ only when a floating-point quotient rounds onto an integer.
- `parseInt` is reduced to its result: an integer, or `None` for `NaN`. For the numbers this handler sees, integer-to-text is plain decimal; exponent notation for huge values is not modelled.
- Navigating the provider's response envelope is reduced to "reply text, or the empty string". A malformed envelope is an exception of the reply source.
- Request fields of other JSON types (numbers, `null`, objects) are not modelled. `destination` and `section` are strings, with the empty string standing for absent. A property name inherited by every JavaScript object (such as `constructor`) is treated as a miss of the section tables and of the fallback table, not as the inherited value. So for `section` equal to `constructor`, the model answers with the generic error object where the original returns the inherited `Object` function.
- Fixed prose is left unspecified. This covers the nine response-shape templates, the fixed wording of each section instruction, the opening of the base context, the connector before the shape, the retry wording, and the fallback prose, descriptions and recommendations. Each is a named constant of type `string` whose value the model does not fix. What is proved holds for every choice of that wording.
- `Prompts.GeneratePrompt`: states where each fixed piece goes and how the variable parts (destination, dates, guests, duration) are spliced in. It does not state the wording of the fixed pieces.
- `Fallback.OverviewFallback`: states that each prose field names the destination and that the attractions are the four fixed names. It does not state the rest of the prose.
- `Fallback.AccommodationOption`: states where the type, price range, description and recommendations of each category go. It does not state the wording of the descriptions or of the recommendations.
- `Handler.RetryInstructions`: states where the stricter wording and the connector go. It does not state their wording.
- `Fallback.FallbackResponse` takes only the section and the destination. The dates and guest count the original also passes are never used there.
- JSON values are shape only. Numbers are integers, so fractional numbers are not represented. Object members keep the order they are listed in, and a lookup takes the first member with the key. JavaScript puts integer-like keys first, and `JSON.parse` keeps the last of duplicate keys. Nothing here depends on this, because the parser is a parameter and the canned payloads have distinct, non-numeric keys.
- Concurrency is not modelled: each request is a single sequential run with no shared state.
- app/layout.js and app/page.js are page layout with no logic, and are not part of this model.
