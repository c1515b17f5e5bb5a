# HK & Co. storefront — behavioural model in Dafny

This project models the few parts of the HK & Co. produce storefront that hold
logic rather than markup, and proves properties about them:

- **The telemetry store** (`temperature_route.dfy`) is the in-memory reading behind
  `/api/temperature`. `GET` returns it. `POST` merges a sensor's JSON body into it field
  by field, using JavaScript `||` truthiness, and always restamps the timestamp. If the
  parse fails or field access throws, the response is 400 and the reading is unchanged.
  The store is a class with one reading field. The merge is a pure function. A lemma
  shows that any sequence of posts leaves each field at its latest truthy write.
- **The tracking lookup** (`track_page.dfy`) covers the tracking page's submit handler.
  Blank input is rejected. Then the first delivery whose lower-cased tracking number
  equals the lower-cased, trimmed input is found, and the page navigates to that
  delivery's stored number. Otherwise it shows "not found".
- **The delivery fixtures** (`delivery_data.dfy`) are the base quality checks, the base
  travel path and the three mock deliveries. The second and third deliveries are built
  from the bases with index-aware maps and first-occurrence string replacement. A lemma
  shows the duplicate checkpoint id this creates.
- **The product card** (`product_card.dfy`) covers the star row (full, then half, then
  empty stars) and the first-three dietary tags with their `+N` badge.
- **The live temperature page** (`live_temp_page.dfy`) covers:
  - the fetch-result transition;
  - the `loading` flag;
  - the auto-refresh toggle;
  - the Fahrenheit figure;
  - the choice between spinner, reading and empty notice.
- **The contact page** (`contact_page.dfy`) covers:
  - the single-field change handler;
  - the `mailto:` link with its default subject and body template;
  - the reset after submit.

The JavaScript string built-ins these pages use are modelled in `js_strings.dfy`:
`trim`, `toLowerCase`, `replace` with a string pattern, and decimal rendering of an
integer. `Option` is in `wrappers.dfy`.

Injected inputs:
- The clock (`new Date().toISOString()`) and `encodeURIComponent` are parameters.
- `router.push` and the `window.location.href` assignment are returned values.

The handler does no type check. Any truthy value is stored as-is, such as a string
temperature. Every falsy value (0, "", null, false) keeps the old one, so a 0 °C or
0 % reading is ignored. `MergeTakesTruthy`, `MergeKeepsFalsy` and
`ZeroTemperatureIgnored` state this behaviour as written.

The fixture arrays `mockQualityChecks` (src/data/delivery-data.ts:4-50),
`tomatoTravelPath` (src/data/delivery-data.ts:53-108) and `mockDeliveries`
(src/data/delivery-data.ts:110-170) are constants of `DeliveryData` with the same
entries; the lemmas below state what their derivation gives.

## Model

| member | source | states |
|---|---|---|
| TemperatureRoute.Or | src/app/api/temperature/route.ts:27-30 | `a \|\| b` gives `a` when `a` is truthy and `b` otherwise |
| TemperatureRoute.Truthy | src/app/api/temperature/route.ts:27-30 | JavaScript truthiness: false for undefined, null, false, 0 and the empty string, true for every other value |
| TemperatureRoute.Sent | src/app/api/temperature/route.ts:27-30 | reading `body.x` on a non-null body gives the member when the body is an object holding it, and `undefined` otherwise |
| TemperatureRoute.DefaultReading | src/app/api/temperature/route.ts:5-10 | the reading before any post: 25.0 °C, 60.0 %, "Storage Facility", stamped at start-up |
| TemperatureRoute.Merge | src/app/api/temperature/route.ts:21-31 | the merge fails exactly when the parse failed or the body is null or undefined; a successful merge always carries the new timestamp |
| TemperatureRoute.Next | src/app/api/temperature/route.ts:22-31 | the reading after a post: unchanged when the body is rejected; otherwise restamped, each truthy field taken and each falsy one kept |
| TemperatureRoute.MergeTakesTruthy | src/app/api/temperature/route.ts:27-28 | a truthy posted field, of any type, replaces the stored one |
| TemperatureRoute.MergeKeepsFalsy | src/app/api/temperature/route.ts:27-30 | a missing or falsy posted field (0, "", null, false) keeps the stored one |
| TemperatureRoute.ZeroTemperatureIgnored | src/app/api/temperature/route.ts:27 | posting temperature 0 leaves the stored temperature unchanged |
| TemperatureRoute.MergeWithoutFieldsRestamps | src/app/api/temperature/route.ts:26-31 | a body with no usable fields, such as an empty object, changes only the timestamp |
| TemperatureRoute.RejectedLeavesReading | src/app/api/temperature/route.ts:22-31 | a failed parse, or a null or undefined body whose field access throws, leaves the reading as it was |
| TemperatureRoute.MergeKeepsComplete | src/app/api/temperature/route.ts:26-31 | once all three fields are truthy they stay truthy through any post |
| TemperatureRoute.FullPostStored | src/app/api/temperature/route.ts:26-31 | a body with temperature 4.5, humidity 82 and location "Cold Room B" is stored exactly, with the new timestamp |
| TemperatureRoute.PostResponse | src/app/api/temperature/route.ts:33-46 | success iff the body was accepted; then 200 with "Temperature updated successfully" and the newly stored reading, otherwise 400 with "Invalid request" |
| TemperatureRoute.Replay | src/app/api/temperature/route.ts:21-47 | the reading after a sequence of posts: complete readings stay complete, and a sequence of rejected posts changes nothing |
| TemperatureRoute.ReplaySnoc | src/app/api/temperature/route.ts:26-31 | replaying one more post applies one more merge to the replayed reading |
| TemperatureRoute.ReplayIsLatestWrite | src/app/api/temperature/route.ts:26-31 | after any sequence of posts, each field is its latest truthy write (or the initial value if never written), and the timestamp is that of the latest accepted post |
| TemperatureRoute.TemperatureStore.constructor | src/app/api/temperature/route.ts:5-10 | the store starts at the default reading |
| TemperatureRoute.TemperatureStore.Get | src/app/api/temperature/route.ts:13-18 | 200 with `success: true` and exactly the stored reading, whose three fields are always truthy; changes nothing |
| TemperatureRoute.TemperatureStore.Post | src/app/api/temperature/route.ts:21-47 | stores the merged reading and answers as PostResponse; a successful answer carries the new stored reading, and a failed one leaves the store unchanged |
| JsStrings.TrimStart | src/app/track/page.tsx:18 | removes exactly the leading ECMAScript white space |
| JsStrings.TrimEnd | src/app/track/page.tsx:18 | removes exactly the trailing ECMAScript white space |
| JsStrings.Trim | src/app/track/page.tsx:18 | `s.trim()` is no longer than `s`, and neither end is white space |
| JsStrings.TrimStartAllWhitespace | src/app/track/page.tsx:18 | a string of white space only trims to the empty string |
| JsStrings.TrimEmptyIff | src/app/track/page.tsx:18 | `s.trim()` is empty iff every character of `s` is white space |
| JsStrings.TrimOfTrimmed | src/app/track/page.tsx:25 | a string with no white space at either end is its own trim |
| JsStrings.LowerChar | src/app/track/page.tsx:25 | ASCII capitals map to their lower-case letters, KELVIN SIGN maps to `k`, and every other character is kept |
| JsStrings.Lower | src/app/track/page.tsx:25 | `toLowerCase` keeps the length and maps each character |
| JsStrings.LowerKeepsWhitespace | src/app/track/page.tsx:25 | lower-casing neither creates nor removes white space |
| JsStrings.IndexFrom | src/data/delivery-data.ts:137 | the first occurrence of the pattern at or after a position, or none when there is none |
| JsStrings.Replace | src/data/delivery-data.ts:137-139 | `replace` with a string pattern rewrites only the first occurrence, and gives the string back when there is none |
| JsStrings.OccurrenceHasChar | src/data/delivery-data.ts:139 | a string containing the pattern contains each of its characters |
| JsStrings.ReplaceMissingChar | src/data/delivery-data.ts:139 | a pattern with a character the string lacks leaves it unchanged |
| JsStrings.DigitChar | src/data/delivery-data.ts:132 | the digit character of a value below 10 |
| JsStrings.NatToString | src/data/delivery-data.ts:132 | `${n}` is a non-empty run of digits without a leading zero |
| JsStrings.DecimalRoundTrip | src/data/delivery-data.ts:132 | reading the rendered digits back gives the number |
| JsStrings.NatToStringInjective | src/data/delivery-data.ts:132 | distinct numbers render differently |
| TrackPage.FindFirst | src/app/track/page.tsx:24-26 | `find` picks the first delivery whose lower-cased number equals the query, or none when none matches |
| TrackPage.Query | src/app/track/page.tsx:25 | the input lower-cased, then trimmed |
| TrackPage.Matches | src/app/track/page.tsx:25 | the stored number, lower-cased and not trimmed, equals the query |
| TrackPage.Submit | src/app/track/page.tsx:14-33 | blank exactly when the trimmed input is empty; navigation only when `find` succeeds, and "not found" only when it fails |
| TrackPage.BlankIffWhitespace | src/app/track/page.tsx:18-21 | input is rejected as blank iff it is empty or all white space |
| TrackPage.NavigatesToFirstMatch | src/app/track/page.tsx:24-29 | non-blank input navigates to `/track/` plus the stored number of the first match in list order |
| TrackPage.NotFoundIffNoMatch | src/app/track/page.tsx:28-32 | non-blank input reports "not found" iff no delivery matches |
| TrackPage.NavigationIsCanonical | src/app/track/page.tsx:28-29 | every navigation goes to the stored (canonical-case) number of a matching delivery |
| TrackPage.MockLookupUnambiguous | src/app/track/page.tsx:24-26 | on the mock deliveries at most one delivery matches any query |
| TrackPage.LowerIgnoresSameCase | src/app/track/page.tsx:25 | replacing one character by another with the same lower case leaves the lower-cased string unchanged |
| TrackPage.KelvinQueryNotBlank | src/app/track/page.tsx:18-21 | the first number spelled with KELVIN SIGN is not blank |
| TrackPage.KelvinQueryLowers | src/app/track/page.tsx:25 | the first number spelled with KELVIN SIGN lower-cases and trims to the stored number lower-cased |
| TrackPage.KelvinSignQueryFound | src/app/track/page.tsx:24-29 | typing the first number with KELVIN SIGN for `K` navigates to `/track/HKC-TOM-2025-001` |
| TrackPage.TrackForm.constructor | src/app/track/page.tsx:10-11 | the form starts empty with no error |
| TrackPage.TrackForm.SetTrackingNumber | src/app/track/page.tsx:10 | the input's value becomes the tracking number |
| TrackPage.TrackForm.HandleSubmit | src/app/track/page.tsx:14-33 | clears the error, then sets "Please enter a tracking number" on blank input or "Tracking number not found. Please check and try again." when nothing matches; returns the navigation target on a match |
| DeliveryData.OnlyFirstCheckIsTemperature | src/data/delivery-data.ts:4-50 | of the five base checks only the first is a temperature check |
| DeliveryData.DeriveChecks | src/data/delivery-data.ts:130-134 | keeps the length; the spread copies every field but the id and value of each check, and non-temperature checks keep their value |
| DeliveryData.Rename | src/data/delivery-data.ts:139 | chained first-occurrence replaces, applied left to right |
| DeliveryData.DerivePath | src/data/delivery-data.ts:135-141 | keeps the length; every checkpoint records the new temperature, and the spread copies every field but the id, temperature, location and coordinates |
| DeliveryData.DerivedChecksFromBase | src/data/delivery-data.ts:130-134 | a derived check list has the base's five entries in order; entry i is `qc-<no>-<i+1>`, and only the temperature entry gets the new value, with all other fields copied |
| DeliveryData.DerivedCheckIdsDistinct | src/data/delivery-data.ts:153-157 | the derived check ids within a delivery are pairwise distinct |
| DeliveryData.RenameUnchanged | src/data/delivery-data.ts:139 | chained first-occurrence replaces leave a location alone when each pattern has a character it lacks |
| DeliveryData.LaterLocations | src/data/delivery-data.ts:53-108 | the base locations after the first contain no `k`; the first two of them also lack `h`, and the rest lack `M` |
| DeliveryData.LaterLocationsUnchanged | src/data/delivery-data.ts:139 | for the later checkpoints, the location replaces of deliveries 2 and 3 change nothing |
| DeliveryData.DerivedDelivery | src/data/delivery-data.ts:124-169 | deliveries 2 and 3 carry the derived check list, the derived path and the derivation's temperature |
| DeliveryData.DerivedPathFromBase | src/data/delivery-data.ts:135-142 | a derived path has six checkpoints, all recording the delivery's final temperature; only the first gets a new location and coordinates; timestamp, status, humidity and notes are copied from the base checkpoint |
| DeliveryData.FirstCheckpointRenumbered | src/data/delivery-data.ts:137 | replacing `001` in `cp-001` gives `cp-` plus the delivery number |
| DeliveryData.DerivedFirstCheckpointId | src/data/delivery-data.ts:137 | the first derived checkpoint is renumbered `cp-<no>` |
| DeliveryData.DerivedLaterCheckpointId | src/data/delivery-data.ts:160 | every later derived checkpoint keeps its base id |
| DeliveryData.DerivedCheckpointIds | src/data/delivery-data.ts:137-160 | delivery 2's path holds `cp-002` twice and delivery 3's holds `cp-003` twice |
| DeliveryData.LaterIdsLackOne | src/data/delivery-data.ts:53-108 | the later base checkpoint ids contain no `1`; the second and third are `cp-002` and `cp-003` |
| DeliveryData.TrackingNumbersAre | src/data/delivery-data.ts:110-170 | the three deliveries and their tracking numbers, in order |
| JsStrings.LowerDiffersAt | src/app/track/page.tsx:25 | strings whose lower-cased characters differ somewhere differ when lower-cased |
| DeliveryData.TrackingNumbersDistinct | src/data/delivery-data.ts:114-150 | the three tracking numbers differ case-insensitively |
| ProductCard.Ceil | src/components/ProductCard.tsx:28 | `Math.ceil` is the least integer not below the rating |
| ProductCard.HasHalfStar | src/components/ProductCard.tsx:14 | `rating % 1 !== 0`: the rating is not a whole number |
| ProductCard.Stars | src/components/ProductCard.tsx:13-33 | the star row: full stars, an optional half star, then empty stars (see StarsLayout) |
| ProductCard.RenderStars | src/components/ProductCard.tsx:11-36 | the three loops push exactly Stars(rating): floor(rating) full stars, a half star when the rating is not whole, then 5 − ceil(rating) empty stars, each count taken as zero when negative |
| ProductCard.StarsLayout | src/components/ProductCard.tsx:13-33 | the star row has the three counts' length; full stars come first, the half star (if any) right after them, and empty stars last |
| ProductCard.FiveStarsOnScale | src/components/ProductCard.tsx:13-35 | a rating from 0 to 5 always draws exactly five stars |
| ProductCard.VisibleTags | src/components/ProductCard.tsx:99 | the first min(3, len) tags, in order |
| ProductCard.OverflowBadge | src/components/ProductCard.tsx:107-111 | the badge is shown iff there are more than three tags |
| ProductCard.TagsAccounted | src/components/ProductCard.tsx:99-111 | without a badge all tags are shown; with one it reads `+N`, and N plus the shown tags is the tag count |
| LiveTempPage.FahrenheitFixedPoints | src/app/live-temp/page.tsx:99 | 0 °C shows 32 °F, 100 °C shows 212 °F and −40 shows −40 |
| LiveTempPage.FahrenheitStrictlyIncreasing | src/app/live-temp/page.tsx:99 | a warmer reading shows a larger Fahrenheit figure |
| LiveTempPage.FahrenheitRoundTrip | src/app/live-temp/page.tsx:99 | the conversion is inverted by (F − 32) × 5/9 |
| LiveTempPage.Fahrenheit | src/app/live-temp/page.tsx:99 | `C * 9/5 + 32` (see the three lemmas above) |
| LiveTempPage.AfterFetch | src/app/live-temp/page.tsx:19-31 | the reading is replaced by `result.data` only when `result.success`; failures and thrown errors keep it |
| LiveTempPage.ViewOf | src/app/live-temp/page.tsx:77-82 | spinner iff loading, else the reading iff there is one, else the "No temperature data available" notice (lines 176-179) |
| LiveTempPage.AfterFetches | src/app/live-temp/page.tsx:19-31 | fetch outcomes applied in order (see AfterFetchesIsLastSuccess) |
| LiveTempPage.AfterFetchesIsLastSuccess | src/app/live-temp/page.tsx:19-31 | after any run of fetches the page holds the data of the last successful one, or its earlier data if none succeeded |
| LiveTempPage.LiveTemperaturePage.constructor | src/app/live-temp/page.tsx:15-17 | on mount: no data, loading, auto-refresh on, so the spinner is shown |
| LiveTempPage.LiveTemperaturePage.FetchTemperature | src/app/live-temp/page.tsx:19-31 | updates the data as AfterFetch says and clears `loading` on every outcome, so the spinner is gone |
| LiveTempPage.LiveTemperaturePage.ToggleAutoRefresh | src/app/live-temp/page.tsx:154 | flips `autoRefresh`, so two presses restore it |
| ContactPage.WithField | src/app/contact/page.tsx:41-46 | the named field takes the value and the other three are unchanged |
| ContactPage.WithFieldLastWins | src/app/contact/page.tsx:41-46 | a later change to the same field overrides an earlier one; setting a field to its own value changes nothing |
| ContactPage.SubjectLine | src/app/contact/page.tsx:20 | the subject if non-empty, else "Contact Form Submission" |
| ContactPage.MailBody | src/app/contact/page.tsx:21 | `Name: {name}\nEmail: {email}\n\nMessage:\n{message}` (see MailBodyInjective) |
| ContactPage.MailtoLink | src/app/contact/page.tsx:20-22 | the link starts `mailto:hello@hkco.in?subject=`, followed by the encoded subject, `&body=` and the encoded body |
| ContactPage.SplitAtFirst | src/app/contact/page.tsx:20-22 | strings split uniquely at the first separator |
| ContactPage.MailBodyInjective | src/app/contact/page.tsx:21 | when names and emails are single lines, equal bodies mean equal name, email and message |
| ContactPage.MailtoLinkSplits | src/app/contact/page.tsx:20-22 | when encoded subjects hold no `&`, equal links mean equal encoded subjects and bodies |
| ContactPage.MailtoLinkDeterminesForm | src/app/contact/page.tsx:20-22 | with an injective encoding that never emits `&`, the link determines the subject line, name, email and message |
| ContactPage.ContactForm.constructor | src/app/contact/page.tsx:8-14 | the form starts with four empty fields and not submitted |
| ContactPage.ContactForm.HandleChange | src/app/contact/page.tsx:41-46 | the named field now holds the value |
| ContactPage.ContactForm.HandleSubmit | src/app/contact/page.tsx:16-39 | returns the link built from the form as it was, sets `submitted` and clears all four fields |

## Left out

- Concurrent requests to the route are not modelled. Requests are a sequence (`Replay`), because nothing in the handler synchronises them.
- TemperatureRoute.Merge: numbers are exact reals. NaN (falsy in JavaScript) and −0 are not represented.
- The JSON parser itself is not modelled: `request.json()` is its outcome (failure or a value), and `NextResponse` is a plain status-and-body value.
- JsStrings.LowerChar: maps only the ASCII capitals and KELVIN SIGN; other characters are kept rather than lower-cased by the Unicode tables. Apart from KELVIN SIGN, the non-ASCII characters JavaScript lower-cases give strings that still hold a non-ASCII character, so neither spelling can equal a lower-cased ASCII tracking number and the lookup result is the same.
- `encodeURIComponent` is an uninterpreted parameter. The lemmas that read a link back assume only what they state (no `&` in its output, injectivity).
- The clock is a parameter. Timestamps and dates stay the ISO strings of the source; no date arithmetic or parsing is modelled.
- Timers are not modelled: the one-second `setInterval` poll, and the `setTimeout` that clears `submitted` after 5 seconds. A poll is one `FetchTemperature` call.
- React's hook lifecycle, re-rendering, and the asynchrony of `fetch` are not modelled.
- `toFixed`, `toLocaleString` and `toLocaleDateString` are not modelled; they are formatting only.
- JsStrings.Replace: the `$&`, `$$`, `` $` `` and `$'` patterns JavaScript expands in the replacement string are not modelled. No replacement string in the fixtures holds a `$`.
- TrackPage.TrackForm.HandleSubmit: the error is one of three values (none, blank input, not found). Each value renders its exact message through `Message()`; the method stores the value, not the text.
- TrackPage.TrackForm.HandleSubmit: `router.push` is the returned target, and no navigation is performed.
- ContactPage.ContactForm.HandleSubmit: the `window.location.href` assignment is the returned link.
- ContactPage.ContactForm.HandleChange: a control is one of the form's four named fields. An input naming some other key, which would add a property to the object, is not modelled.
- ProductCard.RenderStars: the star icons' React keys and CSS classes are not modelled, only each star's kind.
- The markup-only pages and layout components are not modelled; they render static structure.
- The QR-code generator wraps an external library and the canvas, and is not modelled.
- The Raspberry Pi sender and test scripts read hardware and make HTTP calls, and are not modelled.
- The product type declarations carry no behaviour. They give only the shapes of the delivery records.
