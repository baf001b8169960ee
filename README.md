# Weather app core, modelled in Dafny

This project models the browser weather app that talks to weatherapi.com.
It covers three parts of the app:

- **The weather handler.** It normalises each raw service response onto fixed
  templates and lists, in order, every piece of data that was missing. It also
  keeps two busy flags: one for a pending location search and one for a pending
  current or forecast query.
- **The location record.** It holds a name, a region and a country. From these
  it builds the text shown to the user and the text sent to the service as the
  query.
- **The page.** This covers the location search box (options, highlight,
  typing timer, stale-result rule) and the page controller's logic: the unit
  toggle and its suffixes, the condition-code gradients, the hour label, the
  warning text, the rule for choosing which data to show, the forecast layout,
  and the gating of refreshes.

Modules, one per file:

- `Json`: JSON values, the JavaScript values read out of them, the `in`
  operator, and number-to-text conversion.
- `LocationData`: the `LocationData` class and its display and search rules.
- `Templates`: the processed shapes and the empty templates, with keys in the
  order of the source's object literals.
- `Normalizer`: `processResponse` and its helpers as methods. Each method is
  proved against a function of the response that gives its processed object
  and its diagnostics.
- `NormalizerProperties`: lemmas about those functions.
- `WeatherHandler`: the busy flags and the request/response life cycle.
- `SearchBox`: the `LocationSearchBox` class.
- `WeatherApp`: the page controller. The page's globals are the fields of one
  `WeatherApp` object.

The source mutates a shared diagnostics array and a processed object that
nobody else references. In the model these are passed into each method and
handed back.

A response would make the source throw a TypeError if it applies `in` to null,
a boolean, a number or a string. `processResponse` throws a TypeError on these
inputs; the model excludes them by precondition (`Normalizer.Acceptable` and
the `...Input` predicates).

The clock, timers, the input element's focus, and the fixture used in testing
mode are all parameters.

## Model

| member | source | states |
|---|---|---|
| Json.Props | scripts/WeatherHandler.js:171 | a key is a property exactly when `in` finds it, and reading it gives the response's value |
| Json.NatText | scripts/WeatherHandler.js:232 | the decimal text of a day index or count: at least one digit, all digits, no leading zero |
| Json.NatTextRoundTrip | scripts/WeatherHandler.js:222 | reading the text back gives the number |
| Json.NatTextInjective | scripts/WeatherHandler.js:220-232 | different counts or day indices give different texts |
| LocationData.LocationData.constructor | scripts/LocationData.js:5-9 | the three fields hold the given strings |
| LocationData.LocationData.IsEmpty | scripts/LocationData.js:15-17 | true exactly when the name is the empty string |
| LocationData.LocationData.DisplayString | scripts/LocationData.js:23-32 | the display rule: name, then ", region" unless the region is empty, then ", country" unless it is the United States of America |
| LocationData.LocationData.SearchString | scripts/LocationData.js:38-50 | the search rule: "auto:ip" for an empty name, otherwise the name followed by each non-empty part |
| LocationData.LocationData.UpdateFromJSON | scripts/LocationData.js:57-66 | reports an error exactly when there is no name, and then keeps the old name; region and country are always overwritten, with `undefined` when absent |
| LocationData.FreshIsEmpty | scripts/LocationData.js:5-50 | a default place is empty, queries "auto:ip", and displays a lone separator |
| LocationData.YarmouthDisplay | scripts/LocationData.js:23-32 | a home-country place shows name and region only |
| LocationData.ParisDisplay | scripts/LocationData.js:23-32 | an empty region is skipped and a foreign country is shown |
| LocationData.DisplayStartsWithName | scripts/LocationData.js:23-32 | the display string always starts with the name |
| LocationData.DisplayMatchesSearch | scripts/LocationData.js:23-50 | display and query agree when the name is set and the country is neither empty nor the home country |
| LocationData.HomeCountryHiddenFromDisplayOnly | scripts/LocationData.js:28-47 | the query for a home-country place is the display plus ", United States of America" |
| LocationData.EmptyCountryTrailingSeparator | scripts/LocationData.js:28-47 | an empty country adds a trailing ", " to the display but not to the query |
| LocationData.SearchIsAutoIpIff | scripts/LocationData.js:38-50 | the query is "auto:ip" if and only if the name is empty, or the name is itself "auto:ip" with nothing to append |
| Templates.ConditionTemplate | scripts/WeatherHandler.js:333-337 | keys text, icon, code, in that order, all placeholders |
| Templates.LocationTemplate | scripts/WeatherHandler.js:322-327 | keys name, region, country, localtime, all empty text, no nested record |
| Templates.CurrentTemplate | scripts/WeatherHandler.js:328-340 | the seven current keys in literal order, all placeholders (a nested condition among them) |
| Templates.EmptyCurrentJSON | scripts/WeatherHandler.js:320-346 | location and current templates and no forecast day |
| Templates.DayTemplate | scripts/WeatherHandler.js:358-376 | the thirteen day keys in literal order, all placeholders |
| Templates.EmptyForecastDayJSON | scripts/WeatherHandler.js:355-381 | an empty date, the day template and no hours |
| Templates.EmptyForecastHourJSON | scripts/WeatherHandler.js:389-407 | the eleven hour keys in literal order, all placeholders |
| Templates.DummyForecastDayJSON | scripts/WeatherHandler.js:416-422 | the empty day with exactly 24 empty hours |
| Templates.TemplateKeysDistinct | scripts/WeatherHandler.js:320-407 | no template repeats a key |
| Templates.LookupAt | scripts/WeatherHandler.js:171 | in a record without repeated keys, assigning by key hits the key's own position |
| Normalizer.CopyPresentSpec | scripts/WeatherHandler.js:170-173 | the key loop keeps keys and order, copies each present key's value whole and leaves absent keys as placeholders |
| Normalizer.CopyKeys | scripts/WeatherHandler.js:170-173 | the loop yields that copied record and the absent keys in template order |
| Normalizer.WalkAliased | scripts/WeatherHandler.js:184-189 | the nested condition pass walks the object the key loop has just stored, so it reports nothing |
| Normalizer.AddSection | scripts/WeatherHandler.js:169-177 | one section: the copied record, plus either `section.key` per missing key or the bare section name |
| Normalizer.AddCurrentData | scripts/WeatherHandler.js:167-197 | location and current copied, forecast untouched, and diagnostics appended in source order, including the extra "current.condition" |
| Normalizer.ProcessedHours | scripts/WeatherHandler.js:257-274 | every processed day has exactly 24 hour slots |
| Normalizer.ForecastHour | scripts/WeatherHandler.js:258-271 | one source hour copied onto the hour template; it lacks data exactly when a template key is missing |
| Normalizer.ForecastHours | scripts/WeatherHandler.js:251-274 | the 24 slots, and one "hour data" diagnostic per iteration while the never-reset flag is up |
| Normalizer.AddDaySummary | scripts/WeatherHandler.js:234-248 | the day summary copied, one message per missing day key, or "missing data." |
| Normalizer.AddForecastDay | scripts/WeatherHandler.js:223-277 | the processed day for source day i, with its date, summary and hour diagnostics in that order |
| Normalizer.ProcessedDays | scripts/WeatherHandler.js:223-277 | one processed day per source day |
| Normalizer.AddForecastData | scripts/WeatherHandler.js:207-284 | one processed day appended per source day, the shortfall message first, "Improperly Formatted Forecast Data." for a malformed forecast |
| Normalizer.SomeNamelessSnoc | scripts/WeatherHandler.js:296-301 | the nameless-result flag after one more result |
| Normalizer.AddSearchData | scripts/WeatherHandler.js:292-311 | one fresh place per search result, holding what `updateFromJSON` reads, and at most one of the three search messages |
| Normalizer.ProcessResponse | scripts/WeatherHandler.js:143-159 | current, forecast and search responses each normalised as above; any other type gives the empty current object with no diagnostics |
| NormalizerProperties.Repeat | scripts/WeatherHandler.js:273 | n copies of one message |
| NormalizerProperties.MissingKeysMembers | scripts/WeatherHandler.js:170-173 | a key is reported if and only if the template has it and the response lacks it |
| NormalizerProperties.MissingKeysCount | scripts/WeatherHandler.js:170-173 | with distinct template keys, each missing key is reported exactly once |
| NormalizerProperties.CountAppend | scripts/WeatherHandler.js:172 | counting over consecutive pushes adds up |
| NormalizerProperties.CountAbsent | scripts/WeatherHandler.js:172 | a message never pushed is counted zero times |
| NormalizerProperties.CountPrefixed | scripts/WeatherHandler.js:182 | prefixing with "current." neither merges nor splits reports |
| NormalizerProperties.LocationStaysFlat | scripts/WeatherHandler.js:169-183 | processed location and current keep the template keys; location never holds a nested record |
| NormalizerProperties.CurrentConditionAfterCopy | scripts/WeatherHandler.js:180-183 | after the key loop, condition is the response's object, or the template when absent |
| NormalizerProperties.CurrentKeyLoopCount | scripts/WeatherHandler.js:180-183 | the key loop reports "current.condition" once when it is absent, never otherwise |
| NormalizerProperties.CurrentConditionCount | scripts/WeatherHandler.js:179-196 | "current.condition" is reported twice when absent and never when present |
| NormalizerProperties.ConditionCopiedWhole | scripts/WeatherHandler.js:181-189 | a present condition is copied whole and draws no report, whatever keys it lacks |
| NormalizerProperties.ConditionAbsentReportedTwice | scripts/WeatherHandler.js:182-191 | an absent condition keeps the placeholder template and is reported twice |
| NormalizerProperties.LocationNeverCurrent | scripts/WeatherHandler.js:172-176 | no location diagnostic reads "current.condition" |
| NormalizerProperties.FirstLackingFromSpec | scripts/WeatherHandler.js:257-262 | the first hour from h that exists and lacks a key, with none lacking before it |
| NormalizerProperties.HourFlagIff | scripts/WeatherHandler.js:256-268 | the flag is up after n hours if and only if the first lacking hour is below n |
| NormalizerProperties.HourDiagnosticsRepeat | scripts/WeatherHandler.js:256-274 | after n hours, the hour message has been pushed once per hour from the first lacking one |
| NormalizerProperties.HourDiagnosticsSticky | scripts/WeatherHandler.js:256-274 | a day whose first lacking hour is f gets 24 − f identical "hour data" messages |
| NormalizerProperties.ImproperHoursSilent | scripts/WeatherHandler.js:251-259 | a missing or non-array `hour` gives 24 empty hours and no hour diagnostic |
| NormalizerProperties.StartsWithAppend | scripts/WeatherHandler.js:232 | text appended to a message keeps its start |
| NormalizerProperties.DayPrefixStart | scripts/WeatherHandler.js:232 | each per-day message starts with "Forecast of day " |
| NormalizerProperties.DayDiagnosticsStart | scripts/WeatherHandler.js:230-273 | every diagnostic of a day starts with "Forecast of day " |
| NormalizerProperties.DaysDiagnosticsStart | scripts/WeatherHandler.js:223-277 | the same for every day of a forecast |
| NormalizerProperties.ForecastDiagnosticsOrder | scripts/WeatherHandler.js:220-277 | the shortfall message, when there is one, comes first, and every later message is per-day |
| NormalizerProperties.ProcessedDayComplete | scripts/WeatherHandler.js:228-276 | every processed day has all day keys and 24 complete hours |
| NormalizerProperties.ForecastComplete | scripts/WeatherHandler.js:143-159 | a processed forecast has every template key, and as many days as the source (none when malformed) |
| WeatherHandler.WeatherHandler.constructor | scripts/WeatherHandler.js:8-14 | both flags down, forecast days and testing mode as given |
| WeatherHandler.WeatherHandler.IsFreeToSearch | scripts/WeatherHandler.js:20-22 | free to search if and only if neither flag is up |
| WeatherHandler.WeatherHandler.IsFreeToQuery | scripts/WeatherHandler.js:28-30 | free to query if and only if no weather query is pending |
| WeatherHandler.WeatherHandler.TriggerWaitingForResponse | scripts/WeatherHandler.js:78-93 | current and forecast set the weather flag, search sets the search flag, any other type changes nothing |
| WeatherHandler.WeatherHandler.ResponseDone | scripts/WeatherHandler.js:101-114 | the flag is lowered first; a success callback, if any, receives the normalised response and its diagnostics |
| WeatherHandler.WeatherHandler.ResponseFail | scripts/WeatherHandler.js:121-130 | the flag is lowered; the fail callback runs if and only if there is one |
| WeatherHandler.WeatherHandler.RequestWeather | scripts/WeatherHandler.js:40-71 | the type's flag is raised; in testing mode the fixture is delivered at once and the flag is lowered again |
| WeatherHandler.SearchFreeImpliesQueryFree | scripts/WeatherHandler.js:20-30 | free to search implies free to query |
| WeatherHandler.TriggerRouting | scripts/WeatherHandler.js:78-93 | the routing of the waiting value by query type |
| WeatherHandler.PendingBlocks | scripts/WeatherHandler.js:20-30 | a pending weather query blocks both queries and searches; a pending search blocks only searches |
| WeatherHandler.RoundTripRestores | scripts/WeatherHandler.js:61-104 | a completed request lowers exactly the flag its request raised, whatever the other flag, so a handler free to search is restored |
| SearchBox.LocationSearchBox.constructor | scripts/SearchBox.js:5-30 | no options, no highlight, no timer, the creation time as latest search, the "type more" prompt, and the input keeps its text |
| SearchBox.LocationSearchBox.UpdateIndex | scripts/SearchBox.js:81-92 | the new index wraps: below zero to the last option, at or past the end to the first |
| SearchBox.LocationSearchBox.UpdateValue | scripts/SearchBox.js:98-103 | the input shows the place's display string, or nothing |
| SearchBox.LocationSearchBox.OnInputNodeKeyUp | scripts/SearchBox.js:36-74 | Enter queries and Tab fills in the highlighted or first option, but only when options exist; arrows cycle; other keys clear the highlight |
| SearchBox.LocationSearchBox.SendQuery | scripts/SearchBox.js:265-268 | the input shows the place and the place is handed to the query function |
| SearchBox.LocationSearchBox.DisplayListbox | scripts/SearchBox.js:251-259 | showing or hiding the list clears the highlight |
| SearchBox.LocationSearchBox.ClearListbox | scripts/SearchBox.js:149-159 | no options, no highlight, and the given notice |
| SearchBox.LocationSearchBox.SearchString | scripts/SearchBox.js:132-136 | the list is cleared to "searching", the latest search time is recorded, and the request carries the time its result will be stamped with |
| SearchBox.LocationSearchBox.SearchFail | scripts/SearchBox.js:141-143 | the list is cleared to "Cannot Contact Server." |
| SearchBox.LocationSearchBox.UpdateListbox | scripts/SearchBox.js:169-191 | a stale result changes nothing; a current one offers exactly the places found, or the "no cities" notice |
| SearchBox.LocationSearchBox.TypeTimeoutCall | scripts/SearchBox.js:196-208 | with focus, searches for input of at least 3 characters and prompts for more otherwise; the timer is cleared either way |
| SearchBox.LocationSearchBox.ClearTypeTimeOutCall | scripts/SearchBox.js:213-218 | a pending timer is cancelled and forgotten |
| SearchBox.LocationSearchBox.OnInputNodeValueChange | scripts/SearchBox.js:121-126 | a pending timer is cancelled and a new one started |
| SearchBox.WrapValid | scripts/SearchBox.js:86-88 | wrapping gives an index into a non-empty list |
| SearchBox.KeyIndexValid | scripts/SearchBox.js:36-92 | every key keeps the highlight null or on an offered option |
| SearchBox.ArrowsWrapAround | scripts/SearchBox.js:55-69 | down after the last goes to the first, up before the first to the last, and up undoes down |
| SearchBox.NoOptionsNoMove | scripts/SearchBox.js:36-74 | with no options, no key highlights anything |
| SearchBox.SupersededSearch | scripts/SearchBox.js:132-191 | the latest search's result is shown, and the result of an earlier search arriving after it is ignored: the list keeps the latest result and its notice |
| WeatherApp.SwitchedUnit | scripts/WeatherApp.js:5-11 | "f" switches to "c"; anything else switches to "f" |
| WeatherApp.TempSuffixAsWritten | scripts/WeatherApp.js:20-27 | the literal as written: the character U+C9F8, then F or C |
| WeatherApp.TempSuffix | scripts/WeatherApp.js:20-27 | a degree sign, then F exactly for "f", otherwise C |
| WeatherApp.WindSpeedSuffix | scripts/WeatherApp.js:34-41 | "mph" exactly for "f", otherwise "kph" |
| WeatherApp.BackgroundImage | scripts/WeatherApp.js:269-280 | blue exactly for 1000, gray exactly for 1003, 1006 and 1009, purple for everything else |
| WeatherApp.HourString | scripts/WeatherApp.js:447-449 | the last five characters, or the whole string when it is shorter |
| WeatherApp.DisplayErrors | scripts/WeatherApp.js:527-541 | no errors hides the warning; otherwise the title is the header and one line per error |
| WeatherApp.LastNewline | scripts/WeatherApp.js:536-538 | the position of the last newline, with none after it |
| WeatherApp.SplitAppendLine | scripts/WeatherApp.js:537 | adding one line to the warning adds one line to its split |
| WeatherApp.WarningLinesSplit | scripts/WeatherApp.js:535-539 | splitting the warning at newlines gives the header and the errors in order, when no error spans lines |
| WeatherApp.FirstSummaryThrow | scripts/WeatherApp.js:145-149 | the first later day whose summary throws (no first hour, or a null or missing day condition), or the number of days when none does |
| WeatherApp.FirstHourThrow | scripts/WeatherApp.js:155-158 | the first of the 24 hour rows that throws (a missing hour, a time that has no `slice`, or a null or missing condition), or 24 when none does |
| WeatherApp.Layout | scripts/WeatherApp.js:127-160 | the page stops where the source throws, in the source's order: a null current condition, no first day, the first bad summary, no summary to style, the first bad hour row; it is laid out exactly when none of these holds, then "row" if and only if fewer than 5 days, the later days as summaries, and the first day's 24 hours |
| WeatherApp.RecordProps | scripts/WeatherApp.js:168-172 | the processed location's keys are the properties `updateFromJSON` sees |
| WeatherApp.LookupPresent | scripts/WeatherApp.js:168-172 | every key of a record can be looked up |
| WeatherApp.ProcessedLocationHasName | scripts/WeatherApp.js:168-172 | a processed location always has a name, and the place receives its name, region and country |
| WeatherApp.WeatherApp.FreeToQuery | scripts/WeatherApp.js:547-552 | free if and only if there is a handler and it is free to query |
| WeatherApp.WeatherApp.WeatherRequestFail | scripts/WeatherApp.js:93-98 | the card shows "Could Not Contact Server." and nothing else changes |
| WeatherApp.WeatherApp.LoadWeatherData | scripts/WeatherApp.js:106-160 | hides the card; with no data given and none in memory, shows the failure; otherwise shows the warning and layout of the given data (or the data in memory), remembers it, and rebuilds the current place from its location |
| WeatherApp.WeatherApp.WeatherRequestSuccess | scripts/WeatherApp.js:81-88 | the card is hidden and the data received is shown with its warning and remembered |
| WeatherApp.ForecastDelivered | scripts/WeatherHandler.js:101-114 | a delivered forecast is the processed forecast weather and its diagnostics |
| WeatherApp.WeatherApp.RefreshLocation | scripts/WeatherApp.js:58-67 | fetches if and only if a location is given and the handler is free to query, showing "Loading..." and remembering the location; a testing handler's fixture is then shown and remembered and its flag lowered; otherwise redraws the data in memory, if any, rebuilding the current place from it, and does nothing without it; the handler is untouched when nothing is fetched |
| WeatherApp.WeatherApp.ForceLocationRefresh | scripts/WeatherApp.js:72-74 | every branch of a refresh given the current location: fetching it again when there is one and the handler is free, otherwise redrawing the data in memory |
| WeatherApp.WeatherApp.SwitchTempUnit | scripts/WeatherApp.js:5-13 | toggles the unit, shows its suffix, and redraws the data in memory without fetching, hiding the card and rebuilding the current place from that data |
| WeatherApp.SwitchTwice | scripts/WeatherApp.js:5-11 | toggling twice restores "f" or "c" |
| WeatherApp.SuffixesAgree | scripts/WeatherApp.js:20-41 | temperature and wind suffixes always belong to the same system of units |
| WeatherApp.TempSuffixMisdecoded | scripts/WeatherApp.js:22-25 | the suffix as written differs from the intended one only in its degree sign |
| WeatherApp.PlaceholderCodeIsPurple | scripts/WeatherApp.js:269-280 | a missing code (NaN) or a code sent as text gets the purple gradient |
| WeatherApp.HourStringExample | scripts/WeatherApp.js:447-449 | "2023-09-01 19:00" is labelled "19:00" |
| WeatherApp.ProcessedForecastLaidOut | scripts/WeatherApp.js:138-158 | a processed forecast of two or more days never stops for want of a day or a summary, and when laid out has one summary per later day and 24 hour rows |
| WeatherApp.CurrentPlaceholderReadable | scripts/WeatherApp.js:127-135 | the placeholder current weather has a condition to read |
| WeatherApp.DayPlaceholderReadable | scripts/WeatherApp.js:322 | the placeholder day summary has a condition to read |
| WeatherApp.HourPlaceholderReadable | scripts/WeatherApp.js:379-392 | the placeholder hour has a time to slice and a condition to read |
| WeatherApp.CurrentUnreadableIff | scripts/WeatherApp.js:127-128 | the page stops at the current weather exactly when the response's current condition is null |

## Findings

| source | as written | input that shows it | evidently intended | confidence | as-written member | corrected member |
|---|---|---|---|---|---|---|
| scripts/WeatherApp.js:20-27 | the temperature suffix literals start with U+C9F8 (a Hangul syllable), which is the UTF-8 degree sign misread as EUC-KR and saved again | unit "f" gives U+C9F8 followed by "F" | a degree sign (U+00B0) followed by F or C | not executed; the bytes of the literal were read from the file | WeatherApp.TempSuffixAsWritten, WeatherApp.TempSuffixMisdecoded | WeatherApp.TempSuffix |

## Left out

- The HTTP exchange: jQuery `$.get`, the service address and key, and the URL built for each query type (scripts/WeatherHandler.js:41-59, 64-66). A request is modelled as raising its flag. A later response is an explicit call of `ResponseDone` or `ResponseFail`.
- The built-in test data (`getTestData`, `getTestDay`). In testing mode the fixture is a parameter of `RequestWeather` and `RefreshLocation`.
- `console.log` output, cursor changes, which weather panels are visible, the refresh button, the window resize handler and the animation of the forecast elements: these are page effects with no state in the core.
- Drawing the page. The model returns what reaches the page: the warning title, the suffix text and the forecast layout. It does not model the current-weather fields, the weekday names, the rounding of temperatures, wind and precipitation, or the summary and hour elements.
- `searchForLocations` only forwards a search to the handler. Its request is the `SearchRequest` that `SearchString` returns.
- `onInputNodeFocus`, `createListBoxButton`, `createListBoxDisplayText` and the listbox's hide delay: these are element and timer handling. An empty listbox's message is the `notice` field.
- `Normalizer.ProcessResponse`: a response on which the source throws a TypeError (`in` applied to null, a boolean, a number or a string, the empty string included) is excluded by a precondition. The throw itself is not modelled.
- `WeatherApp.Layout`: a render that throws is reported as the point where it stops (a null current condition, no first day, a summary without hours or with a null day condition, no summary to style, a missing hour, an hour time without `slice`, or a null hour condition). The elements drawn before the throw are not modelled, and the state updates `loadWeatherData` makes before drawing are stated as made.
- `WeatherApp.WeatherApp.SwitchTempUnit`: the button text it states is the corrected suffix `TempSuffix`; the source shows `getTempSuffix()` as written, which is `TempSuffixAsWritten`.
- `SearchBox.LocationSearchBox.UpdateIndex`: the source styles `children[newIndex]` with the unwrapped index, which throws once the index has wrapped. The state is already updated by then, and the model states that state.
- `SearchBox.LocationSearchBox.TypeTimeoutCall`: it counts the input in characters, not in the UTF-16 code units JavaScript's `length` counts.
- `WeatherApp.HourString`: it takes the last five characters, not the last five UTF-16 code units `slice(-5)` takes.
- `SearchBox.LocationSearchBox.SearchString`: the two readings of the clock are parameters, so two searches in the same millisecond are modelled only through those values.
- Numbers are kept as the text JavaScript prints for them. The core only copies them, and concatenates a count and a day index into the diagnostics.
- The initial values of the page's globals are set outside the core files. The controller's constructor takes the unit, the handler and the message card's text.
- `WeatherApp.WeatherApp.SwitchTempUnit` redraws through the data-in-memory branch of `refreshLocation` directly, because `refreshLocation` with a null location never fetches.
