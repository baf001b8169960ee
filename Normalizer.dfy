/**
 * The response normaliser of the weather handler: it copies what a raw response
 * holds onto the fixed templates and lists, in order, what was missing.
 *
 * The shared `errors` array and the processed object, which the source mutates
 * through references that nobody else holds, are passed in and handed back.
 * A response that would make the source throw (the `in` operator applied to
 * null, a boolean, a number or a string, the empty string included) is
 * excluded by the `...Input` predicates.
 */
module Normalizer {
  import opened Json
  import opened Wrappers
  import opened Templates
  import opened LocationData

  lemma AppendAssoc<T>(a: seq<T>, b: seq<T>, c: seq<T>)
    ensures a + b + c == a + (b + c)
  {
  }

  // ---------------------------------------------------------------------------
  // The `for (let key in template)` copy shared by every section

  /** One step of the key loop: the response's value if it has the key, else the template's. */
  function CopyEntry(e: Entry, src: Json): Entry {
    if Has(src, e.key) then Entry(e.key, Copied(Get(src, e.key))) else e
  }

  /** The record after the key loop: same keys in the same order; a key the
      response has holds the response's value (a nested object included, whole),
      any other key keeps the template's value. */
  function CopyPresent(r: Record, src: Json): Record {
    seq(|r|, i requires 0 <= i < |r| => CopyEntry(r[i], src))
  }

  /** The record after the key loop has the same keys in the same order; a key
      the response has holds the response's value (a nested object included,
      whole), any other key keeps the template's value. */
  lemma CopyPresentSpec(r: Record, src: Json)
    ensures Keys(CopyPresent(r, src)) == Keys(r)
    ensures forall i :: 0 <= i < |r| && Has(src, r[i].key) ==>
      CopyPresent(r, src)[i].field == Copied(Get(src, r[i].key))
    ensures forall i :: 0 <= i < |r| && !Has(src, r[i].key) ==> CopyPresent(r, src)[i] == r[i]
  {
  }

  /** The keys of `ks` the response lacks, in the order of `ks`. */
  function MissingKeys(ks: seq<string>, src: Json): (m: seq<string>)
    ensures |m| <= |ks|
  {
    if ks == [] then []
    else
      var last := ks[|ks| - 1];
      MissingKeys(ks[..|ks| - 1], src) + (if Has(src, last) then [] else [last])
  }

  /** `prefix + key + suffix` for each key, in order. */
  function Prefixed(prefix: string, ks: seq<string>, suffix: string): (r: seq<string>)
    ensures |r| == |ks|
    ensures forall i :: 0 <= i < |ks| ==> r[i] == prefix + ks[i] + suffix
  {
    seq(|ks|, i requires 0 <= i < |ks| => prefix + ks[i] + suffix)
  }

  /** The key loop: copies each template key the response has and returns,
      in template order, the keys it lacks. */
  method CopyKeys(r: Record, src: Json) returns (out: Record, missing: seq<string>)
    requires ObjectLike(src)
    ensures out == CopyPresent(r, src)
    ensures missing == MissingKeys(Keys(r), src)
  {
    out, missing := r, [];
    var i := 0;
    while i < |r|
      invariant 0 <= i <= |r| && |out| == |r|
      invariant forall j :: 0 <= j < i ==> out[j] == CopyEntry(r[j], src)
      invariant forall j :: i <= j < |r| ==> out[j] == r[j]
      invariant missing == MissingKeys(Keys(r)[..i], src)
    {
      assert Keys(r)[..i + 1][..i] == Keys(r)[..i];
      var key := out[i].key;
      if Has(src, key) {
        out := out[i := Entry(key, Copied(Get(src, key)))];
      } else {
        missing := missing + [key];
      }
      i := i + 1;
    }
    assert Keys(r)[..|r|] == Keys(r);
  }

  /** The nested `condition` pass. By the time it runs, the key loop has stored
      the response's own condition object in the record, so the pass walks that
      object's keys and looks each one up in the same object: nothing is missing. */
  method WalkAliased(v: Json) returns (missing: seq<string>)
    requires Walkable(v)
    ensures missing == []
  {
    missing := [];
    var pending := ForInKeys(v);
    while pending != {}
      invariant pending <= ForInKeys(v)
      invariant missing == []
      decreases pending
    {
      var k :| k in pending;
      if !Has(v, k) {
        missing := missing + [k];
      }
      pending := pending - {k};
    }
  }

  // ---------------------------------------------------------------------------
  // Current data: `location` and `current`

  predicate CurrentInput(resp: Json) {
    && ObjectLike(resp)
    && (Has(resp, "location") ==> ObjectLike(Get(resp, "location")))
    && (Has(resp, "current") ==>
          && ObjectLike(Get(resp, "current"))
          && (Has(Get(resp, "current"), "condition") ==> Walkable(Get(Get(resp, "current"), "condition"))))
  }

  /** The section's one diagnostic when the response lacks it, otherwise one
      `<section>.<key>` per key of the section the response lacks. */
  function SectionDiagnostics(resp: Json, section: string, keys: seq<string>): seq<string> {
    if Has(resp, section) then Prefixed(section + ".", MissingKeys(keys, Get(resp, section)), "")
    else [section]
  }

  /** Everything `addCurrentData` reports, in the order it reports it. A missing
      `current.condition` is reported by the key loop and again by the nested pass. */
  function CurrentDiagnostics(resp: Json): seq<string> {
    SectionDiagnostics(resp, "location", LocationKeys)
    + SectionDiagnostics(resp, "current", CurrentKeys)
    + (if Has(resp, "current") && !Has(Get(resp, "current"), "condition") then ["current.condition"] else [])
  }

  /** A section of the processed object after the copy: the template when the
      response lacks the section. */
  function SectionAfter(resp: Json, section: string, r: Record): Record {
    if Has(resp, section) then CopyPresent(r, Get(resp, section)) else r
  }

  /** One `if (section in response) { for (key in processed[section]) … } else …`
      block: the copied record and the section's diagnostics. */
  method AddSection(resp: Json, section: string, r: Record, errors: seq<string>)
    returns (r': Record, errors': seq<string>)
    requires Has(resp, section) ==> ObjectLike(Get(resp, section))
    ensures r' == SectionAfter(resp, section, r)
    ensures errors' == errors + SectionDiagnostics(resp, section, Keys(r))
  {
    if Has(resp, section) {
      var missing;
      r', missing := CopyKeys(r, Get(resp, section));
      errors' := errors + Prefixed(section + ".", missing, "");
    } else {
      r', errors' := r, errors + [section];
    }
  }

  method AddCurrentData(resp: Json, w: Weather, errors: seq<string>) returns (w': Weather, errors': seq<string>)
    requires CurrentInput(resp)
    requires Keys(w.location) == LocationKeys && Keys(w.current) == CurrentKeys
    ensures w'.location == SectionAfter(resp, "location", w.location)
    ensures w'.current == SectionAfter(resp, "current", w.current)
    ensures w'.forecastday == w.forecastday
    ensures errors' == errors + CurrentDiagnostics(resp)
  {
    var location, current;
    location, errors' := AddSection(resp, "location", w.location, errors);
    current, errors' := AddSection(resp, "current", w.current, errors');
    w' := w.(location := location, current := current);
    ghost var sections := errors';
    if Has(resp, "current") {
      var cur := Get(resp, "current");
      if Has(cur, "condition") {
        // the key loop has stored the response's own condition object here
        var more := WalkAliased(Get(cur, "condition"));
        errors' := errors' + Prefixed("current.condition.", more, "");
        assert errors' == sections;
      } else {
        errors' := errors' + ["current.condition"];
      }
    }
  }

  // ---------------------------------------------------------------------------
  // Forecast data: one processed day per source day, 24 hours per day

  const ImproperForecast: string := "Improperly Formatted Forecast Data."

  /** `forecast` is present, has `forecastday`, and that is an array. */
  predicate ForecastWellFormed(resp: Json) {
    Has(resp, "forecast") && Has(Get(resp, "forecast"), "forecastday")
    && Get(Get(resp, "forecast"), "forecastday").JArr?
  }

  function SourceDays(resp: Json): seq<Json>
    requires ForecastWellFormed(resp)
  {
    Get(Get(resp, "forecast"), "forecastday").items
  }

  predicate HoursArray(d: Json) {
    Has(d, "hour") && Get(d, "hour").JArr?
  }

  function SourceHours(d: Json): seq<Json>
    requires HoursArray(d)
  {
    Get(d, "hour").items
  }

  predicate HourInput(h: Json) {
    ObjectLike(h) && (Has(h, "condition") ==> Walkable(Get(h, "condition")))
  }

  /** A source day the processing reads without a TypeError; hours past the
      24th are never looked at. */
  predicate DayInput(d: Json) {
    && ObjectLike(d)
    && (Has(d, "day") ==>
          && ObjectLike(Get(d, "day"))
          && (Has(Get(d, "day"), "condition") ==> Walkable(Get(Get(d, "day"), "condition"))))
    && (HoursArray(d) ==>
          forall h :: 0 <= h < |SourceHours(d)| && h < HoursPerDay ==> HourInput(SourceHours(d)[h]))
  }

  predicate ForecastInput(resp: Json) {
    && ObjectLike(resp)
    && (Has(resp, "forecast") ==> ObjectLike(Get(resp, "forecast")))
    && (ForecastWellFormed(resp) ==>
          forall i :: 0 <= i < |SourceDays(resp)| ==> DayInput(SourceDays(resp)[i]))
  }

  /** "Forecast of day <i> is missing ", the start of every per-day diagnostic. */
  function DayPrefix(i: nat): string {
    "Forecast of day " + NatText(i) + " is missing "
  }

  function HourMessage(i: nat): string {
    DayPrefix(i) + "hour data."
  }

  /** Hour slot `h` of a processed day: the hour copied onto the hour template
      when the source has that hour, the bare template otherwise. */
  function HourSlot(d: Json, h: nat): Record {
    if HoursArray(d) && h < |SourceHours(d)| then CopyPresent(EmptyForecastHourJSON(), SourceHours(d)[h])
    else EmptyForecastHourJSON()
  }

  /** Source hour `h` exists and lacks one of the hour template's keys. */
  predicate HourLacks(d: Json, h: nat) {
    HoursArray(d) && h < |SourceHours(d)| && MissingKeys(HourKeys, SourceHours(d)[h]) != []
  }

  /** The never-reset flag after the first `n` hours: some hour below `n` lacks a key. */
  predicate HourFlag(d: Json, n: nat) {
    if n == 0 then false else HourFlag(d, n - 1) || HourLacks(d, n - 1)
  }

  /** The hour diagnostics of the first `n` iterations: one each time the flag is up. */
  function HourDiagnostics(d: Json, i: nat, n: nat): seq<string> {
    if n == 0 then []
    else HourDiagnostics(d, i, n - 1) + (if HourFlag(d, n) then [HourMessage(i)] else [])
  }

  function DateField(d: Json): Field {
    if Has(d, "date") then Copied(Get(d, "date")) else Blank(EmptyText)
  }

  function DaySummary(d: Json): Record {
    SectionAfter(d, "day", DayTemplate())
  }

  /** The processed day for a source day. */
  function ProcessedDay(d: Json): ForecastDay {
    ForecastDay(DateField(d), DaySummary(d), ProcessedHours(d))
  }

  /** The 24 hour slots of a processed day. */
  function ProcessedHours(d: Json): (hs: seq<Record>)
    ensures |hs| == HoursPerDay
  {
    seq(HoursPerDay, h requires 0 <= h < HoursPerDay => HourSlot(d, h))
  }

  function DateDiagnostics(d: Json, i: nat): seq<string> {
    if Has(d, "date") then [] else [DayPrefix(i) + "date."]
  }

  /** A missing day summary once; otherwise one message per missing key of the
      day template (a missing `condition` among them). */
  function SummaryDiagnostics(d: Json, i: nat): seq<string> {
    if Has(d, "day") then Prefixed(DayPrefix(i), MissingKeys(DayKeys, Get(d, "day")), ".")
    else [DayPrefix(i) + "data."]
  }

  /** What processing source day `i` reports: its date, its day summary, then its hours. */
  function DayDiagnostics(d: Json, i: nat): seq<string> {
    DateDiagnostics(d, i) + SummaryDiagnostics(d, i) + HourDiagnostics(d, i, HoursPerDay)
  }

  function ProcessedDays(days: seq<Json>): (ps: seq<ForecastDay>)
    ensures |ps| == |days|
  {
    seq(|days|, i requires 0 <= i < |days| => ProcessedDay(days[i]))
  }

  /** The diagnostics of the first `n` source days, in order. */
  function DaysDiagnostics(days: seq<Json>, n: nat): seq<string>
    requires n <= |days|
  {
    if n == 0 then [] else DaysDiagnostics(days, n - 1) + DayDiagnostics(days[n - 1], n - 1)
  }

  function MissingDaysMessage(m: nat): string {
    "Missing " + NatText(m) + " forecast days of data."
  }

  /** The aggregate message for a response with fewer than `forecastDays + 1` days. */
  function MissingDaysDiagnostics(forecastDays: int, count: nat): seq<string> {
    var m := forecastDays + 1 - count;
    if m > 0 then [MissingDaysMessage(m)] else []
  }

  /** Everything `addForecastData` reports, in the order it reports it. */
  function ForecastDiagnostics(resp: Json, forecastDays: int): seq<string> {
    if ForecastWellFormed(resp) then
      MissingDaysDiagnostics(forecastDays, |SourceDays(resp)|) + DaysDiagnostics(SourceDays(resp), |SourceDays(resp)|)
    else [ImproperForecast]
  }

  /** The processed days a response contributes: none when it is malformed. */
  function ForecastOf(resp: Json): seq<ForecastDay> {
    if ForecastWellFormed(resp) then ProcessedDays(SourceDays(resp)) else []
  }

  /** One hour of the hour loop for a source hour that exists: the copied slot,
      and whether a key of the hour template was missing. */
  method ForecastHour(src: Json) returns (slot: Record, lacking: bool)
    requires HourInput(src)
    ensures slot == CopyPresent(EmptyForecastHourJSON(), src)
    ensures lacking <==> MissingKeys(HourKeys, src) != []
  {
    var missing;
    slot, missing := CopyKeys(EmptyForecastHourJSON(), src);
    lacking := missing != [];
    if Has(src, "condition") {
      var more := WalkAliased(Get(src, "condition"));
      lacking := lacking || more != [];
    }
  }

  /** The hour loop of source day `i`: 24 slots, and one diagnostic per
      iteration from the first hour that lacks a key on, since the flag is
      never reset. */
  method ForecastHours(d: Json, i: nat, errors: seq<string>) returns (hours: seq<Record>, errors': seq<string>)
    requires DayInput(d)
    ensures hours == ProcessedHours(d)
    ensures errors' == errors + HourDiagnostics(d, i, HoursPerDay)
  {
    hours, errors' := [], errors;
    var improper := !HoursArray(d);
    var flag := false;
    var h := 0;
    while h < HoursPerDay
      invariant 0 <= h <= HoursPerDay
      invariant |hours| == h
      invariant forall j :: 0 <= j < h ==> hours[j] == HourSlot(d, j)
      invariant flag == HourFlag(d, h)
      invariant errors' == errors + HourDiagnostics(d, i, h)
    {
      var slot := EmptyForecastHourJSON();
      if !improper && h < |SourceHours(d)| {
        var lacking;
        slot, lacking := ForecastHour(SourceHours(d)[h]);
        flag := flag || lacking;
      }
      hours := hours + [slot];
      if flag {
        AppendAssoc(errors, HourDiagnostics(d, i, h), [HourMessage(i)]);
        errors' := errors' + [HourMessage(i)];
      }
      h := h + 1;
    }
  }

  /** The `day` block of the day loop: the day template filled from the
      source day's summary. */
  method AddDaySummary(d: Json, i: nat, errors: seq<string>) returns (summary: Record, errors': seq<string>)
    requires DayInput(d)
    ensures summary == DaySummary(d)
    ensures errors' == errors + SummaryDiagnostics(d, i)
  {
    summary := DayTemplate();
    if Has(d, "day") {
      var missing;
      summary, missing := CopyKeys(summary, Get(d, "day"));
      errors' := errors + Prefixed(DayPrefix(i), missing, ".");
      if Has(Get(d, "day"), "condition") {
        // the key loop has stored the source day's own condition object here
        var more := WalkAliased(Get(Get(d, "day"), "condition"));
        errors' := errors' + Prefixed(DayPrefix(i) + "condition.", more, ".");
      }
    } else {
      errors' := errors + [DayPrefix(i) + "data."];
    }
  }

  /** The body of the day loop for source day `i`. */
  method AddForecastDay(d: Json, i: nat, errors: seq<string>) returns (day: ForecastDay, errors': seq<string>)
    requires DayInput(d)
    ensures day == ProcessedDay(d)
    ensures errors' == errors + DayDiagnostics(d, i)
  {
    var date := Blank(EmptyText);
    errors' := errors;
    if Has(d, "date") {
      date := Copied(Get(d, "date"));
    } else {
      errors' := errors' + [DayPrefix(i) + "date."];
    }
    var summary, hours;
    summary, errors' := AddDaySummary(d, i, errors');
    hours, errors' := ForecastHours(d, i, errors');
    day := ForecastDay(date, summary, hours);
    AppendAssoc(errors, DateDiagnostics(d, i), SummaryDiagnostics(d, i));
    AppendAssoc(errors, DateDiagnostics(d, i) + SummaryDiagnostics(d, i), HourDiagnostics(d, i, HoursPerDay));
  }

  method AddForecastData(resp: Json, w: Weather, forecastDays: int, errors: seq<string>)
    returns (w': Weather, errors': seq<string>)
    requires ForecastInput(resp)
    ensures w'.location == w.location && w'.current == w.current
    ensures w'.forecastday == w.forecastday + ForecastOf(resp)
    ensures errors' == errors + ForecastDiagnostics(resp, forecastDays)
  {
    w', errors' := w, errors;
    if ForecastWellFormed(resp) {
      var days := SourceDays(resp);
      errors' := errors' + MissingDaysDiagnostics(forecastDays, |days|);
      ghost var before := errors';
      var i := 0;
      while i < |days|
        invariant 0 <= i <= |days|
        invariant w'.location == w.location && w'.current == w.current
        invariant w'.forecastday == w.forecastday + ProcessedDays(days[..i])
        invariant errors' == before + DaysDiagnostics(days, i)
      {
        var day;
        day, errors' := AddForecastDay(days[i], i, errors');
        AppendAssoc(before, DaysDiagnostics(days, i), DayDiagnostics(days[i], i));
        assert ProcessedDays(days[..i + 1]) == ProcessedDays(days[..i]) + [ProcessedDay(days[i])];
        AppendAssoc(w.forecastday, ProcessedDays(days[..i]), [day]);
        w' := w'.(forecastday := w'.forecastday + [day]);
        i := i + 1;
      }
      assert days[..|days|] == days;
      AppendAssoc(errors, MissingDaysDiagnostics(forecastDays, |days|), DaysDiagnostics(days, |days|));
    } else {
      errors' := errors' + [ImproperForecast];
    }
  }

  // ---------------------------------------------------------------------------
  // Search data: one place per search result

  const ImproperSearch: string := "Query Response improperly formatted."
  const NoCities: string := "No Cities Found."
  const SearchResultError: string := "Error in a Search Result Formatting."

  /** Every search result is something `"name" in result` accepts. */
  predicate SearchInput(resp: Json) {
    resp.JArr? ==> forall i :: 0 <= i < |resp.items| ==> ObjectLike(resp.items[i])
  }

  function SearchResults(resp: Json): seq<Json> {
    if resp.JArr? then resp.items else []
  }

  /** Some search result among `items` lacks a name. */
  predicate SomeNameless(items: seq<Json>) {
    exists i :: 0 <= i < |items| && !Has(items[i], "name")
  }

  lemma SomeNamelessSnoc(items: seq<Json>, x: Json)
    ensures SomeNameless(items + [x]) <==> SomeNameless(items) || !Has(x, "name")
  {
    if SomeNameless(items) {
      var i :| 0 <= i < |items| && !Has(items[i], "name");
      assert (items + [x])[i] == items[i];
    }
    if !Has(x, "name") {
      assert (items + [x])[|items|] == x;
    }
  }

  /** Everything `addSearchData` reports: at most one message. */
  function SearchDiagnostics(resp: Json): seq<string> {
    if !resp.JArr? then [ImproperSearch]
    else if resp.items == [] then [NoCities]
    else if SomeNameless(resp.items) then [SearchResultError]
    else []
  }

  /** The name `new LocationData()` ends up with after `updateFromJSON(result)`. */
  function ResultName(result: Json): JsValue {
    if Has(result, "name") then Of(Get(result, "name")) else Of(JStr(""))
  }

  /** `l` holds what `updateFromJSON(result)` puts into a fresh place. */
  predicate HoldsResult(l: LocationData, result: Json)
    reads l
  {
    l.name == ResultName(result)
    && l.region == Read(Props(result), "region")
    && l.country == Read(Props(result), "country")
  }

  method AddSearchData(resp: Json, places: seq<LocationData>, errors: seq<string>)
    returns (places': seq<LocationData>, errors': seq<string>)
    requires SearchInput(resp)
    ensures errors' == errors + SearchDiagnostics(resp)
    ensures |places'| == |places| + |SearchResults(resp)|
    ensures places'[..|places|] == places
    ensures forall i :: |places| <= i < |places'| ==>
      fresh(places'[i]) && HoldsResult(places'[i], SearchResults(resp)[i - |places|])
  {
    places', errors' := places, errors;
    var errorFound := false;
    assert resp.JArr? ==> SearchResults(resp) == resp.items;
    if resp.JArr? {
      if |resp.items| > 0 {
        var i := 0;
        while i < |resp.items|
          invariant 0 <= i <= |resp.items|
          invariant |places'| == |places| + i
          invariant places'[..|places|] == places
          invariant forall j :: |places| <= j < |places'| ==>
            fresh(places'[j]) && HoldsResult(places'[j], resp.items[j - |places|])
          invariant errorFound <==> SomeNameless(resp.items[..i])
        {
          var result := resp.items[i];
          var place := new LocationData("", "", "");
          var nameless := place.UpdateFromJSON(Props(result));
          if nameless {
            errorFound := true;
          }
          assert HoldsResult(place, result);
          SomeNamelessSnoc(resp.items[..i], result);
          assert resp.items[..i + 1] == resp.items[..i] + [result];
          places' := places' + [place];
          i := i + 1;
        }
        assert resp.items[..|resp.items|] == resp.items;
      } else {
        errors' := errors' + [NoCities];
      }
    } else {
      errors' := errors' + [ImproperSearch];
    }
    if errorFound {
      errors' := errors' + [SearchResultError];
    }
  }

  // ---------------------------------------------------------------------------
  // The dispatcher

  /** What processing a response yields: the weather object, or the list of places. */
  datatype Processed = WeatherData(weather: Weather) | Places(places: seq<LocationData>)

  /** The responses of each type that processing reads without a TypeError. */
  predicate Acceptable(queryType: string, resp: Json) {
    if queryType == "current" then CurrentInput(resp)
    else if queryType == "forecast" then CurrentInput(resp) && ForecastInput(resp)
    else if queryType == "search" then SearchInput(resp)
    else true
  }

  /** The empty object filled with a response's location and current data. */
  function CurrentOf(resp: Json): Weather {
    var t := EmptyCurrentJSON();
    Weather(SectionAfter(resp, "location", t.location), SectionAfter(resp, "current", t.current), [])
  }

  /** `r` and `errors'` are what processing `resp` as a `queryType` response
      yields, the diagnostics appended to `errors`. */
  predicate Normalized(resp: Json, queryType: string, forecastDays: int, errors: seq<string>,
                       r: Processed, errors': seq<string>)
    reads if r.Places? then r.places else []
  {
    if queryType == "current" then
      r == WeatherData(CurrentOf(resp)) && errors' == errors + CurrentDiagnostics(resp)
    else if queryType == "forecast" then
      && r == WeatherData(CurrentOf(resp).(forecastday := ForecastOf(resp)))
      && errors' == errors + CurrentDiagnostics(resp) + ForecastDiagnostics(resp, forecastDays)
    else if queryType == "search" then
      && r.Places? && |r.places| == |SearchResults(resp)|
      && (forall i :: 0 <= i < |r.places| ==> HoldsResult(r.places[i], SearchResults(resp)[i]))
      && errors' == errors + SearchDiagnostics(resp)
    else
      r == WeatherData(EmptyCurrentJSON()) && errors' == errors
  }

  method ProcessResponse(resp: Json, queryType: string, forecastDays: int, errors: seq<string>)
    returns (r: Processed, errors': seq<string>)
    requires Acceptable(queryType, resp)
    ensures Normalized(resp, queryType, forecastDays, errors, r, errors')
    ensures r.Places? ==> forall i :: 0 <= i < |r.places| ==> fresh(r.places[i])
  {
    var w := EmptyCurrentJSON();
    errors' := errors;
    if queryType == "current" {
      w, errors' := AddCurrentData(resp, w, errors');
      r := WeatherData(w);
    } else if queryType == "forecast" {
      w, errors' := AddCurrentData(resp, w, errors');
      w, errors' := AddForecastData(resp, w, forecastDays, errors');
      r := WeatherData(w);
    } else if queryType == "search" {
      var places;
      places, errors' := AddSearchData(resp, [], errors');
      r := Places(places);
    } else {
      r := WeatherData(w);
    }
  }
}
