/**
 * The page controller's logic: the unit toggle and its suffixes, the
 * condition-code gradients, the hour label, the warning text, the rule that
 * picks the data to show, the forecast layout and the gating of refreshes.
 * The page's globals are the fields of one `WeatherApp` object. Everything
 * drawn on the page is left out; what reaches the page is returned instead.
 */
module WeatherApp {
  import opened Json
  import opened Wrappers
  import opened Templates
  import opened LocationData
  import opened Normalizer
  import opened NormalizerProperties
  import Handler = WeatherHandler

  // ---------------------------------------------------------------------------
  // Units

  /** The unit after a toggle: "f" becomes "c", anything else becomes "f". */
  function SwitchedUnit(unit: string): (r: string)
    ensures r == "c" || r == "f"
    ensures r == "c" <==> unit == "f"
  {
    if unit == "f" then "c" else "f"
  }

  /** The mis-decoded degree sign the source's temperature suffixes start with. */
  const MisdecodedDegree: char := '\U{C9F8}'
  const Degree: char := '\U{B0}'

  /** `getTempSuffix` as written: the source's literal is "\U{C9F8}F" / "\U{C9F8}C". */
  function TempSuffixAsWritten(unit: string): (s: string)
    ensures |s| == 2 && s[0] == MisdecodedDegree
    ensures s[1] == (if unit == "f" then 'F' else 'C')
  {
    if unit == "f" then [MisdecodedDegree, 'F'] else [MisdecodedDegree, 'C']
  }

  /** The temperature suffix: a degree sign, then F for "f" and C for any other unit. */
  function TempSuffix(unit: string): (s: string)
    ensures |s| == 2 && s[0] == Degree
    ensures s[1] == 'F' <==> unit == "f"
    ensures s[1] == 'F' || s[1] == 'C'
  {
    if unit == "f" then [Degree, 'F'] else [Degree, 'C']
  }

  /** "mph" for "f" and "kph" for any other unit. */
  function WindSpeedSuffix(unit: string): (s: string)
    ensures s == "mph" || s == "kph"
    ensures s == "mph" <==> unit == "f"
  {
    if unit == "f" then "mph" else "kph"
  }

  // ---------------------------------------------------------------------------
  // Labels

  const ClearGradient: string := "linear-gradient(deepskyblue, white)"
  const OvercastGradient: string := "linear-gradient(gray, white)"
  const PrecipitationGradient: string := "linear-gradient(purple, white)"

  /** The number `n` as the service sends it; `switch` compares strictly. */
  function Code(n: string): JsValue {
    Of(JNum(n))
  }

  predicate Overcast(code: JsValue) {
    code == Code("1003") || code == Code("1006") || code == Code("1009")
  }

  /** Clear sky (1000) is blue, the overcast codes are gray, everything else purple. */
  function BackgroundImage(code: JsValue): (r: string)
    ensures r == ClearGradient <==> code == Code("1000")
    ensures r == OvercastGradient <==> Overcast(code)
    ensures r == PrecipitationGradient <==> code != Code("1000") && !Overcast(code)
  {
    if code == Code("1000") then ClearGradient
    else if Overcast(code) then OvercastGradient
    else PrecipitationGradient
  }

  /** `slice(-5)`: the last five characters, or the whole string when shorter. */
  function HourString(time: string): (r: string)
    ensures |r| == if |time| < 5 then |time| else 5
    ensures time == time[..|time| - |r|] + r
  {
    if |time| <= 5 then time else time[|time| - 5..]
  }

  const WarningHeader: string := "Information Missing from Location:"

  /** The header followed by one line per error. */
  function WarningLines(errors: seq<string>): string {
    if errors == [] then WarningHeader
    else WarningLines(errors[..|errors| - 1]) + "\n" + errors[|errors| - 1]
  }

  /** The warning icon's title: hidden without errors. */
  function Warning(errors: seq<string>): Option<string> {
    if errors == [] then None else Some(WarningLines(errors))
  }

  /** `displayErrors`: hides the warning, or composes its text line by line. */
  method DisplayErrors(errors: seq<string>) returns (title: Option<string>)
    ensures title == Warning(errors)
  {
    if |errors| <= 0 {
      title := None;
    } else {
      var warningText := WarningHeader;
      var i := 0;
      while i < |errors|
        invariant 0 <= i <= |errors|
        invariant warningText == WarningLines(errors[..i])
      {
        assert errors[..i + 1][..i] == errors[..i];
        warningText := warningText + "\n" + errors[i];
        i := i + 1;
      }
      assert errors[..|errors|] == errors;
      title := Some(warningText);
    }
  }

  // ---------------------------------------------------------------------------
  // Reading the warning back

  /** The position of the last newline. */
  function LastNewline(s: string): (i: nat)
    requires '\n' in s
    ensures i < |s| && s[i] == '\n'
    ensures forall j :: i < j < |s| ==> s[j] != '\n'
  {
    if s[|s| - 1] == '\n' then |s| - 1
    else
      assert '\n' in s[..|s| - 1] by {
        var k :| 0 <= k < |s| && s[k] == '\n';
        assert s[..|s| - 1][k] == '\n';
      }
      LastNewline(s[..|s| - 1])
  }

  /** The lines of a text. */
  function SplitLines(s: string): seq<string>
    decreases |s|
  {
    if '\n' in s then
      var i := LastNewline(s);
      SplitLines(s[..i]) + [s[i + 1..]]
    else [s]
  }

  lemma SplitAppendLine(a: string, b: string)
    requires '\n' !in b
    ensures SplitLines(a + "\n" + b) == SplitLines(a) + [b]
  {
    var s := a + "\n" + b;
    assert s[|a|] == '\n';
    var i := LastNewline(s);
    assert i == |a|;
    assert s[..i] == a;
    assert s[i + 1..] == b;
  }

  /** The warning text splits back into the header and the errors, in order,
      when no error spans several lines. */
  lemma {:induction false} WarningLinesSplit(errors: seq<string>)
    requires forall k :: 0 <= k < |errors| ==> '\n' !in errors[k]
    ensures SplitLines(WarningLines(errors)) == [WarningHeader] + errors
  {
    if errors == [] {
      assert forall k :: 0 <= k < |WarningHeader| ==> WarningHeader[k] != '\n';
    } else {
      var init := errors[..|errors| - 1];
      WarningLinesSplit(init);
      SplitAppendLine(WarningLines(init), errors[|errors| - 1]);
      assert errors == init + [errors[|errors| - 1]];
    }
  }

  // ---------------------------------------------------------------------------
  // The page layout

  /** Reading `condition.icon`, `.text` or `.code` of a processed record throws
      when the record has no condition or holds null there. */
  predicate ConditionUnreadable(r: Record) {
    match Lookup(r, "condition")
    case None => true
    case Some(f) => f == Copied(JNull)
  }

  /** `time.slice(-5)` throws unless the time is a string or an array. */
  predicate TimeUnreadable(hour: Record) {
    match Lookup(hour, "time")
    case None => true
    case Some(Blank(u)) => u == NaN
    case Some(Copied(j)) => !(j.JStr? || j.JArr?)
    case Some(Group(_)) => true
  }

  /** `createForecastDaySummary` throws: no first hour to take the weekday
      from, or an unreadable condition. */
  predicate SummaryThrows(d: ForecastDay) {
    |d.hour| == 0 || ConditionUnreadable(d.day)
  }

  /** `createForecastHourSummary(hours[h])` throws: no such hour, or an
      unreadable time or condition. */
  predicate HourThrows(hours: seq<Record>, h: nat) {
    h >= |hours| || TimeUnreadable(hours[h]) || ConditionUnreadable(hours[h])
  }

  /** The first day from `j` on whose summary throws, or the number of days. */
  function FirstSummaryThrow(days: seq<ForecastDay>, j: nat): (k: nat)
    requires j <= |days|
    ensures j <= k <= |days|
    ensures k < |days| ==> SummaryThrows(days[k])
    ensures forall m :: j <= m < k ==> !SummaryThrows(days[m])
    decreases |days| - j
  {
    if j == |days| || SummaryThrows(days[j]) then j else FirstSummaryThrow(days, j + 1)
  }

  const HourRows: nat := 24

  /** The first hour row from `h` on that throws, or 24. */
  function FirstHourThrow(hours: seq<Record>, h: nat): (k: nat)
    requires h <= HourRows
    ensures h <= k <= HourRows
    ensures k < HourRows ==> HourThrows(hours, k)
    ensures forall m :: h <= m < k ==> !HourThrows(hours, m)
    decreases HourRows - h
  {
    if h == HourRows || HourThrows(hours, h) then h else FirstHourThrow(hours, h + 1)
  }

  /** How the weather part of the page is filled, or the point where filling it throws. */
  datatype Render =
    | CurrentUnreadable          // the current condition's code, for the background
    | NoFirstDay                 // the snapshot of `forecastday[0]`, with no day
    | SummaryUnreadable(day: nat)  // the summary of this day
    | NoSummaries                // the last summary's border, with no summary
    | HourUnreadable(hour: nat)  // the row of this hour of the first day
    | Laid(direction: string, summaries: seq<ForecastDay>, hours: seq<Record>)

  /** The current weather is drawn first, then the first day's snapshot, the
      later days as summaries (in a row when there are fewer than five days,
      in a column otherwise), and the first day's 24 hours as rows. */
  function Layout(w: Weather): (r: Render)
    ensures r.CurrentUnreadable? <==> ConditionUnreadable(w.current)
    ensures r.NoFirstDay? <==> !ConditionUnreadable(w.current) && |w.forecastday| == 0
    ensures r.NoSummaries? <==> !ConditionUnreadable(w.current) && |w.forecastday| == 1
    ensures r.SummaryUnreadable? ==>
      && !ConditionUnreadable(w.current)
      && 1 <= r.day < |w.forecastday| && SummaryThrows(w.forecastday[r.day])
      && forall m :: 1 <= m < r.day ==> !SummaryThrows(w.forecastday[m])
    ensures r.HourUnreadable? ==>
      && !ConditionUnreadable(w.current) && |w.forecastday| >= 2
      && (forall m :: 1 <= m < |w.forecastday| ==> !SummaryThrows(w.forecastday[m]))
      && r.hour < HourRows && HourThrows(w.forecastday[0].hour, r.hour)
      && forall m :: 0 <= m < r.hour ==> !HourThrows(w.forecastday[0].hour, m)
    ensures r.Laid? <==>
      && !ConditionUnreadable(w.current) && |w.forecastday| >= 2
      && (forall m :: 1 <= m < |w.forecastday| ==> !SummaryThrows(w.forecastday[m]))
      && (forall h :: 0 <= h < HourRows ==> !HourThrows(w.forecastday[0].hour, h))
    ensures r.Laid? ==>
      && |w.forecastday[0].hour| >= HourRows
      && (r.direction == "row" <==> |w.forecastday| < 5)
      && r.summaries == w.forecastday[1..]
      && |r.hours| == HourRows
      && forall h :: 0 <= h < HourRows ==> r.hours[h] == w.forecastday[0].hour[h]
  {
    var days := w.forecastday;
    if ConditionUnreadable(w.current) then CurrentUnreadable
    else if |days| == 0 then NoFirstDay
    else
      var s := FirstSummaryThrow(days, 1);
      if s < |days| then SummaryUnreadable(s)
      else if |days| == 1 then NoSummaries
      else
        var h := FirstHourThrow(days[0].hour, 0);
        if h < HourRows then HourUnreadable(h)
        else
          assert !HourThrows(days[0].hour, HourRows - 1);
          Laid(if |days| < 5 then "row" else "column", days[1..], days[0].hour[..HourRows])
  }

  // ---------------------------------------------------------------------------
  // Reading the processed location

  /** A processed value as the page reads it. */
  function FieldValue(f: Field): JsValue {
    match f
    case Blank(NaN) => NotANumber
    case Blank(EmptyText) => Of(JStr(""))
    case Copied(j) => Of(j)
    case Group(_) => Of(JObj(map[]))
  }

  function LookupValue(r: Record, key: string): JsValue {
    match Lookup(r, key)
    case None => Undefined
    case Some(f) => FieldValue(f)
  }

  /** A processed record as an object whose properties `updateFromJSON` reads. */
  function RecordProps(r: Record): (p: map<string, JsValue>)
    ensures forall k :: k in p <==> k in Keys(r)
  {
    map k | k in Keys(r) :: LookupValue(r, k)
  }

  lemma {:induction false} LookupPresent(r: Record, key: string)
    requires key in Keys(r)
    ensures Lookup(r, key).Some?
  {
    if r[0].key != key {
      assert key in Keys(r[1..]) by {
        var k :| 0 <= k < |r| && Keys(r)[k] == key;
        assert Keys(r[1..])[k - 1] == key;
      }
      LookupPresent(r[1..], key);
    }
  }

  /** A processed location always has a name, so reading it into a place
      never reports an error, and the place shows what the record holds. */
  lemma ProcessedLocationHasName(r: Record)
    requires Keys(r) == LocationKeys
    ensures "name" in RecordProps(r)
    ensures Read(RecordProps(r), "name") == LookupValue(r, "name")
    ensures Read(RecordProps(r), "region") == LookupValue(r, "region")
    ensures Read(RecordProps(r), "country") == LookupValue(r, "country")
  {
    assert Keys(r)[0] == "name" && Keys(r)[1] == "region" && Keys(r)[2] == "country";
  }

  // ---------------------------------------------------------------------------
  // The page state

  /** What showing data produced. */
  datatype Load = NoData | Shown(warning: Option<string>, render: Render)

  /** What a refresh did. */
  datatype Refresh = Fetching | Fetched(load: Load) | Redisplayed(load: Load) | Idle

  const LoadingNotice: string := "Loading..."
  const ServerFailureNotice: string := "Could Not Contact Server."

  /** The weather object a forecast response is processed into. */
  function ForecastWeather(resp: Json): Weather {
    CurrentOf(resp).(forecastday := ForecastOf(resp))
  }

  /** The diagnostics of a forecast response, in the order they are found. */
  function ForecastErrors(resp: Json, forecastDays: int): seq<string> {
    CurrentDiagnostics(resp) + ForecastDiagnostics(resp, forecastDays)
  }

  /** A forecast response processed from no earlier diagnostics yields the
      forecast weather and its diagnostics. */
  lemma ForecastDelivered(resp: Json, forecastDays: int, r: Processed, errors: seq<string>)
    requires Normalized(resp, "forecast", forecastDays, [], r, errors)
    ensures r == WeatherData(ForecastWeather(resp)) && errors == ForecastErrors(resp, forecastDays)
  {
    assert [] + CurrentDiagnostics(resp) == CurrentDiagnostics(resp);
  }

  /** `l` holds what `processLocation` reads from the processed location `r`. */
  predicate HoldsLocation(l: LocationData, r: Record)
    reads l
  {
    && l.name == (if "name" in RecordProps(r) then LookupValue(r, "name") else Of(JStr("")))
    && l.region == Read(RecordProps(r), "region")
    && l.country == Read(RecordProps(r), "country")
  }

  class WeatherApp {
    var temperatureUnit: string
    var currentData: Option<Weather>
    var currentLocation: Option<LocationData>
    var weather: Option<Handler.WeatherHandler>
    /** The message card: the text it shows, or None while it is hidden. */
    var userInformation: Option<string>

    /** The globals are declared outside the core; their first values are parameters. */
    constructor (unit: string, weather: Option<Handler.WeatherHandler>, userInformation: Option<string>)
      ensures temperatureUnit == unit && currentData == None && currentLocation == None
      ensures this.weather == weather && this.userInformation == userInformation
    {
      temperatureUnit := unit;
      currentData := None;
      currentLocation := None;
      this.weather := weather;
      this.userInformation := userInformation;
    }

    /** Free to query: there is a weather handler and it is free to query. */
    function FreeToQuery(): (r: bool)
      reads this, if weather.Some? then {weather.value} else {}
      ensures r <==> weather.Some? && weather.value.IsFreeToQuery()
    {
      if weather.Some? then weather.value.IsFreeToQuery() else false
    }

    /** `weatherRequestFail`: the card shows that the server could not be reached. */
    method WeatherRequestFail()
      modifies this
      ensures userInformation == Some(ServerFailureNotice)
      ensures temperatureUnit == old(temperatureUnit) && currentData == old(currentData)
      ensures currentLocation == old(currentLocation) && weather == old(weather)
    {
      userInformation := Some(ServerFailureNotice);
    }

    /** `loadWeatherData`: hides the card; then, with neither data given nor data
        in memory, shows the failure; otherwise shows the given data, or the
        remembered data when none is given, and remembers what it shows. */
    method LoadWeatherData(data: Option<Weather>, errors: seq<string>) returns (outcome: Load)
      modifies this
      ensures data.None? && old(currentData).None? ==>
        && outcome == NoData && userInformation == Some(ServerFailureNotice)
        && currentData == None && currentLocation == old(currentLocation)
      ensures data.Some? || old(currentData).Some? ==>
        var d := if data.Some? then data.value else old(currentData).value;
        && currentData == Some(d)
        && outcome == Shown(Warning(errors), Layout(d))
        && currentLocation.Some? && fresh(currentLocation.value)
        && HoldsLocation(currentLocation.value, d.location)
        && userInformation == None
      ensures temperatureUnit == old(temperatureUnit) && weather == old(weather)
    {
      userInformation := None;
      if data.None? && currentData.None? {
        WeatherRequestFail();
        return NoData;
      }
      var d := if data.None? then currentData.value else data.value;
      currentData := Some(d);
      var warning := DisplayErrors(errors);
      var place := new LocationData("", "", "");
      var props := RecordProps(d.location);
      var _ := place.UpdateFromJSON(props);
      currentLocation := Some(place);
      outcome := Shown(warning, Layout(d));
    }

    /** `weatherRequestSuccess`: hides the card and shows the data received. */
    method WeatherRequestSuccess(data: Weather, errors: seq<string>) returns (outcome: Load)
      modifies this
      ensures currentData == Some(data) && outcome == Shown(Warning(errors), Layout(data))
      ensures currentLocation.Some? && fresh(currentLocation.value)
      ensures HoldsLocation(currentLocation.value, data.location)
      ensures userInformation == None
      ensures temperatureUnit == old(temperatureUnit) && weather == old(weather)
    {
      userInformation := None;
      outcome := LoadWeatherData(Some(data), errors);
    }

    /** `refreshLocation`: fetches the forecast for `location` when one is given
        and the handler is free to query, showing the loading card meanwhile;
        otherwise shows the data in memory, if any. With a testing handler,
        `fixture` is delivered at once. */
    method RefreshLocation(location: Option<LocationData>, fixture: Json) returns (action: Refresh)
      requires weather.Some? && weather.value.testing ==> Acceptable("forecast", fixture)
      modifies this, if weather.Some? then {weather.value} else {}
      ensures weather == old(weather) && temperatureUnit == old(temperatureUnit)
      ensures (action.Fetching? || action.Fetched?) <==> location.Some? && old(FreeToQuery())
      ensures action.Fetching? <==> location.Some? && old(FreeToQuery()) && !weather.value.testing
      ensures action.Fetching? ==>
        && weather.value.State() == Handler.Trigger(old(weather.value.State()), "forecast", true)
        && !FreeToQuery()
        && currentLocation == location && currentData == old(currentData)
        && userInformation == Some(LoadingNotice)
      ensures action.Fetched? ==>
        var w := ForecastWeather(fixture);
        && weather.value.State() == Handler.Trigger(old(weather.value.State()), "forecast", false)
        && currentData == Some(w)
        && action.load == Shown(Warning(ForecastErrors(fixture, weather.value.forecastDays)), Layout(w))
        && currentLocation.Some? && fresh(currentLocation.value)
        && HoldsLocation(currentLocation.value, w.location)
        && userInformation == None
      ensures action.Redisplayed? ==>
        && old(currentData).Some? && currentData == old(currentData)
        && action.load == Shown(None, Layout(old(currentData).value))
        && currentLocation.Some? && fresh(currentLocation.value)
        && HoldsLocation(currentLocation.value, old(currentData).value.location)
        && userInformation == None
      ensures action.Idle? ==>
        && currentData == None && currentLocation == old(currentLocation)
        && userInformation == old(userInformation)
      ensures (action.Redisplayed? || action.Idle?) && weather.Some? ==>
        weather.value.State() == old(weather.value.State())
    {
      if location.Some? && FreeToQuery() {
        var handler := weather.value;
        userInformation := Some(LoadingNotice);
        currentLocation := location;
        var delivered := handler.RequestWeather("forecast", true, fixture);
        if delivered.None? {
          action := Fetching;
        } else {
          var result := delivered.value.result;
          ForecastDelivered(fixture, handler.forecastDays, result, delivered.value.errors);
          var load := WeatherRequestSuccess(result.weather, delivered.value.errors);
          action := Fetched(load);
        }
      } else if currentData.Some? {
        var load := LoadWeatherData(None, []);
        action := Redisplayed(load);
      } else {
        action := Idle;
      }
    }

    /** `forceLocationRefresh`: refreshes with the current location, so it
        behaves as `refreshLocation` given that location. */
    method ForceLocationRefresh(fixture: Json) returns (action: Refresh)
      requires weather.Some? && weather.value.testing ==> Acceptable("forecast", fixture)
      modifies this, if weather.Some? then {weather.value} else {}
      ensures weather == old(weather) && temperatureUnit == old(temperatureUnit)
      ensures (action.Fetching? || action.Fetched?) <==> old(currentLocation).Some? && old(FreeToQuery())
      ensures action.Fetching? <==> old(currentLocation).Some? && old(FreeToQuery()) && !weather.value.testing
      ensures action.Fetching? ==>
        && weather.value.State() == Handler.Trigger(old(weather.value.State()), "forecast", true)
        && !FreeToQuery()
        && currentLocation == old(currentLocation) && currentData == old(currentData)
        && userInformation == Some(LoadingNotice)
      ensures action.Fetched? ==>
        var w := ForecastWeather(fixture);
        && weather.value.State() == Handler.Trigger(old(weather.value.State()), "forecast", false)
        && currentData == Some(w)
        && action.load == Shown(Warning(ForecastErrors(fixture, weather.value.forecastDays)), Layout(w))
        && currentLocation.Some? && fresh(currentLocation.value)
        && HoldsLocation(currentLocation.value, w.location)
        && userInformation == None
      ensures action.Redisplayed? ==>
        && old(currentData).Some? && currentData == old(currentData)
        && action.load == Shown(None, Layout(old(currentData).value))
        && currentLocation.Some? && fresh(currentLocation.value)
        && HoldsLocation(currentLocation.value, old(currentData).value.location)
        && userInformation == None
      ensures action.Idle? ==>
        && currentData == None && currentLocation == old(currentLocation)
        && userInformation == old(userInformation)
      ensures (action.Redisplayed? || action.Idle?) && weather.Some? ==>
        weather.value.State() == old(weather.value.State())
    {
      action := RefreshLocation(currentLocation, fixture);
    }

    /** `switchTempUnit`: toggles the unit, then redraws the data in memory
        without fetching. */
    method SwitchTempUnit() returns (action: Refresh, buttonText: string)
      modifies this
      ensures temperatureUnit == SwitchedUnit(old(temperatureUnit))
      ensures buttonText == TempSuffix(temperatureUnit)
      ensures old(currentData).Some? ==>
        && action == Redisplayed(Shown(None, Layout(old(currentData).value)))
        && currentData == old(currentData) && userInformation == None
        && currentLocation.Some? && fresh(currentLocation.value)
        && HoldsLocation(currentLocation.value, old(currentData).value.location)
      ensures old(currentData).None? ==>
        && action == Idle && currentLocation == old(currentLocation)
        && userInformation == old(userInformation)
      ensures weather == old(weather)
    {
      temperatureUnit := SwitchedUnit(temperatureUnit);
      buttonText := TempSuffix(temperatureUnit);
      if currentData.Some? {
        var load := LoadWeatherData(None, []);
        action := Redisplayed(load);
      } else {
        action := Idle;
      }
    }
  }

  // ---------------------------------------------------------------------------
  // Properties

  /** Toggling twice restores "f" and "c"; any other unit settles on "c". */
  lemma SwitchTwice(unit: string)
    ensures unit == "f" || unit == "c" ==> SwitchedUnit(SwitchedUnit(unit)) == unit
    ensures unit != "f" && unit != "c" ==> SwitchedUnit(SwitchedUnit(unit)) == "c"
  {
  }

  /** The two suffixes always name the same system of units. */
  lemma SuffixesAgree(unit: string)
    ensures TempSuffix(unit)[1] == 'F' <==> WindSpeedSuffix(unit) == "mph"
  {
  }

  /** The suffix as written differs from the intended one in its first
      character only: the degree sign. */
  lemma TempSuffixMisdecoded(unit: string)
    ensures TempSuffixAsWritten(unit) != TempSuffix(unit)
    ensures TempSuffixAsWritten(unit)[1..] == TempSuffix(unit)[1..]
    ensures TempSuffixAsWritten("f") != [Degree, 'F']
  {
    assert TempSuffixAsWritten(unit)[0] != TempSuffix(unit)[0];
  }

  /** A code the response lacked (the NaN placeholder) or sent as text is
      painted as precipitation. */
  lemma PlaceholderCodeIsPurple(text: string)
    ensures BackgroundImage(NotANumber) == PrecipitationGradient
    ensures BackgroundImage(Of(JStr(text))) == PrecipitationGradient
  {
  }

  lemma HourStringExample()
    ensures HourString("2023-09-01 19:00") == "19:00"
  {
  }

  /** The placeholder current weather is drawn without throwing. */
  lemma CurrentPlaceholderReadable()
    ensures !ConditionUnreadable(CurrentTemplate())
  {
    var r := CurrentTemplate();
    LookupFirst(r, 4);
  }

  /** The placeholder day summary is drawn without throwing. */
  lemma DayPlaceholderReadable()
    ensures !ConditionUnreadable(DayTemplate())
  {
    var r := DayTemplate();
    LookupFirst(r, 12);
  }

  /** The placeholder hour is drawn without throwing. */
  lemma HourPlaceholderReadable()
    ensures !ConditionUnreadable(EmptyForecastHourJSON()) && !TimeUnreadable(EmptyForecastHourJSON())
  {
    var r := EmptyForecastHourJSON();
    LookupFirst(r, 0);
    LookupFirst(r, 3);
  }

  /** Drawing a processed response stops at the current weather exactly when
      the response's current condition is null. */
  lemma {:induction false} CurrentUnreadableIff(resp: Json)
    ensures ConditionUnreadable(CurrentOf(resp).current) <==>
      Has(resp, "current") && Has(Get(resp, "current"), "condition")
      && Get(Get(resp, "current"), "condition") == JNull
  {
    if Has(resp, "current") {
      CurrentConditionAfterCopy(Get(resp, "current"));
    } else {
      assert CurrentTemplate()[4] == Entry("condition", Group(ConditionTemplate()));
      assert Lookup(CurrentTemplate(), "condition") == Some(Group(ConditionTemplate()));
    }
  }

  /** A processed forecast of two days or more never stops for want of a day
      or a summary: it is laid out with one summary per later day and 24 hour
      rows, unless a null condition or an unreadable time stops it. */
  lemma ProcessedForecastLaidOut(resp: Json)
    requires ForecastWellFormed(resp) && |SourceDays(resp)| >= 2
    ensures var r := Layout(ForecastWeather(resp));
      && !r.NoFirstDay? && !r.NoSummaries?
      && (r.Laid? ==> |r.summaries| == |SourceDays(resp)| - 1 && |r.hours| == HourRows)
  {
  }
}
