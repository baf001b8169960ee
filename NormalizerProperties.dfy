/**
 * What the normaliser promises about its output and its diagnostics.
 */
module NormalizerProperties {
  import opened Json
  import opened Wrappers
  import opened Templates
  import opened Normalizer

  predicate StartsWith(s: string, p: string) {
    |p| <= |s| && s[..|p|] == p
  }

  /** How often `x` occurs in `s`. */
  function Count(s: seq<string>, x: string): nat {
    if s == [] then 0 else Count(s[..|s| - 1], x) + (if s[|s| - 1] == x then 1 else 0)
  }

  function Repeat(x: string, n: nat): (r: seq<string>)
    ensures |r| == n && forall i :: 0 <= i < n ==> r[i] == x
  {
    seq(n, _ => x)
  }

  // ---------------------------------------------------------------------------
  // The key loop

  /** The key loop reports exactly the template keys the response lacks. */
  lemma {:induction false} MissingKeysMembers(ks: seq<string>, src: Json)
    ensures forall k :: k in MissingKeys(ks, src) <==> k in ks && !Has(src, k)
  {
    if ks != [] {
      var init := ks[..|ks| - 1];
      MissingKeysMembers(init, src);
      assert ks == init + [ks[|ks| - 1]];
    }
  }

  /** A key of a template without repeats is reported once if the response lacks it, never otherwise. */
  lemma {:induction false} MissingKeysCount(ks: seq<string>, src: Json, k: string)
    requires Distinct(ks)
    ensures Count(MissingKeys(ks, src), k) == if k in ks && !Has(src, k) then 1 else 0
  {
    if ks != [] {
      var init := ks[..|ks| - 1];
      var last := ks[|ks| - 1];
      assert Distinct(init);
      MissingKeysCount(init, src, k);
      assert ks == init + [last];
      assert last !in init;
      CountAppend(MissingKeys(init, src), if Has(src, last) then [] else [last], k);
    }
  }

  lemma {:induction false} CountAppend(a: seq<string>, b: seq<string>, x: string)
    ensures Count(a + b, x) == Count(a, x) + Count(b, x)
  {
    if b != [] {
      var init := b[..|b| - 1];
      assert (a + b)[..|a + b| - 1] == a + init;
      CountAppend(a, init, x);
    } else {
      assert a + b == a;
    }
  }

  lemma {:induction false} CountAbsent(s: seq<string>, x: string)
    requires forall i :: 0 <= i < |s| ==> s[i] != x
    ensures Count(s, x) == 0
  {
    if s != [] {
      CountAbsent(s[..|s| - 1], x);
    }
  }

  /** Prefixing every key with the same text neither merges nor splits occurrences. */
  lemma {:induction false} CountPrefixed(p: string, ks: seq<string>, k: string)
    ensures Count(Prefixed(p, ks, ""), p + k) == Count(ks, k)
  {
    if ks != [] {
      var init := ks[..|ks| - 1];
      var last := ks[|ks| - 1];
      CountPrefixed(p, init, k);
      var all := Prefixed(p, ks, "");
      assert all[..|all| - 1] == Prefixed(p, init, "");
      assert all[|all| - 1] == p + last;
      assert p + last == p + k ==> last == k by {
        if p + last == p + k {
          assert last == (p + last)[|p|..];
        }
      }
    }
  }

  // ---------------------------------------------------------------------------
  // Current data

  /** The location record keeps the template's keys and stays a flat record. */
  lemma LocationStaysFlat(resp: Json)
    ensures Keys(CurrentOf(resp).location) == LocationKeys
    ensures Flat(CurrentOf(resp).location)
    ensures Keys(CurrentOf(resp).current) == CurrentKeys
  {
    var t := EmptyCurrentJSON();
    if Has(resp, "location") {
      CopyPresentSpec(t.location, Get(resp, "location"));
    }
    if Has(resp, "current") {
      CopyPresentSpec(t.current, Get(resp, "current"));
    }
  }

  /** The current record's `condition` after the key loop. */
  lemma CurrentConditionAfterCopy(cur: Json)
    ensures Lookup(CopyPresent(CurrentTemplate(), cur), "condition")
         == if Has(cur, "condition") then Some(Copied(Get(cur, "condition"))) else Some(Group(ConditionTemplate()))
  {
    var t := CurrentTemplate();
    CopyPresentSpec(t, cur);
    TemplateKeysDistinct();
    assert CopyPresent(t, cur)[4].key == "condition";
    LookupAt(CopyPresent(t, cur), 4);
  }

  /** The key loop over `current` reports `condition` once when it is absent. */
  lemma CurrentKeyLoopCount(cur: Json)
    ensures Count(Prefixed("current.", MissingKeys(CurrentKeys, cur), ""), "current.condition")
         == if Has(cur, "condition") then 0 else 1
  {
    TemplateKeysDistinct();
    assert "condition" in CurrentKeys;
    assert "current." + "condition" == "current.condition";
    MissingKeysCount(CurrentKeys, cur, "condition");
    CountPrefixed("current.", MissingKeys(CurrentKeys, cur), "condition");
  }

  /** How often the diagnostics of a response with `current` name `current.condition`. */
  lemma CurrentConditionCount(resp: Json)
    requires Has(resp, "current")
    ensures Count(CurrentDiagnostics(resp), "current.condition")
         == if Has(Get(resp, "current"), "condition") then 0 else 2
  {
    var cur := Get(resp, "current");
    var a := SectionDiagnostics(resp, "location", LocationKeys);
    var b := SectionDiagnostics(resp, "current", CurrentKeys);
    var c: seq<string> := if Has(cur, "condition") then [] else ["current.condition"];
    assert "current" + "." == "current.";
    assert b == Prefixed("current.", MissingKeys(CurrentKeys, cur), "");
    LocationNeverCurrent(resp);
    CurrentKeyLoopCount(cur);
    CountAppend(a, b, "current.condition");
    CountAppend(a + b, c, "current.condition");
    assert Count(c, "current.condition") == if Has(cur, "condition") then 0 else 1;
  }

  /** A present `condition` is copied whole (whatever keys it has) and draws
      no diagnostic at all. */
  lemma ConditionCopiedWhole(resp: Json)
    requires Has(resp, "current") && Has(Get(resp, "current"), "condition")
    ensures Lookup(CurrentOf(resp).current, "condition") == Some(Copied(Get(Get(resp, "current"), "condition")))
    ensures Count(CurrentDiagnostics(resp), "current.condition") == 0
  {
    CurrentConditionAfterCopy(Get(resp, "current"));
    CurrentConditionCount(resp);
  }

  /** An absent `condition` keeps the template's placeholder and is reported
      twice: by the key loop and by the nested pass. */
  lemma ConditionAbsentReportedTwice(resp: Json)
    requires Has(resp, "current") && !Has(Get(resp, "current"), "condition")
    ensures Lookup(CurrentOf(resp).current, "condition") == Some(Group(ConditionTemplate()))
    ensures Count(CurrentDiagnostics(resp), "current.condition") == 2
  {
    CurrentConditionAfterCopy(Get(resp, "current"));
    CurrentConditionCount(resp);
  }

  /** No location diagnostic is about `current.condition`: each starts with "location". */
  lemma LocationNeverCurrent(resp: Json)
    ensures Count(SectionDiagnostics(resp, "location", LocationKeys), "current.condition") == 0
  {
    var s := SectionDiagnostics(resp, "location", LocationKeys);
    forall i | 0 <= i < |s|
      ensures s[i] != "current.condition"
    {
      assert s[i][0] == 'l';
    }
    CountAbsent(s, "current.condition");
  }

  // ---------------------------------------------------------------------------
  // Forecast hours: the sticky flag

  /** The first hour (below 24) that exists and lacks a key, or 24. */
  function FirstLackingFrom(d: Json, h: nat): nat
    requires h <= HoursPerDay
    decreases HoursPerDay - h
  {
    if h == HoursPerDay then HoursPerDay
    else if HourLacks(d, h) then h
    else FirstLackingFrom(d, h + 1)
  }

  function FirstLacking(d: Json): nat {
    FirstLackingFrom(d, 0)
  }

  lemma {:induction false} FirstLackingFromSpec(d: Json, h: nat)
    requires h <= HoursPerDay
    ensures h <= FirstLackingFrom(d, h) <= HoursPerDay
    ensures FirstLackingFrom(d, h) < HoursPerDay ==> HourLacks(d, FirstLackingFrom(d, h))
    ensures forall k :: h <= k < FirstLackingFrom(d, h) ==> !HourLacks(d, k)
    decreases HoursPerDay - h
  {
    if h < HoursPerDay && !HourLacks(d, h) {
      FirstLackingFromSpec(d, h + 1);
    }
  }

  /** The flag is up after `n` hours exactly when the first lacking hour is below `n`. */
  lemma {:induction false} HourFlagIff(d: Json, n: nat)
    requires n <= HoursPerDay
    ensures HourFlag(d, n) <==> FirstLacking(d) < n
  {
    FirstLackingFromSpec(d, 0);
    if n > 0 {
      HourFlagIff(d, n - 1);
    }
  }

  lemma {:induction false} HourDiagnosticsRepeat(d: Json, i: nat, n: nat)
    requires n <= HoursPerDay
    ensures HourDiagnostics(d, i, n) == Repeat(HourMessage(i), if FirstLacking(d) < n then n - FirstLacking(d) else 0)
  {
    if n > 0 {
      HourDiagnosticsRepeat(d, i, n - 1);
      HourFlagIff(d, n);
      HourFlagIff(d, n - 1);
    }
  }

  /** Since the flag is never reset, a day whose first lacking hour is `f`
      reports "hour data" once for each of the hours `f` to 23, and not at all
      when no hour lacks a key. */
  lemma HourDiagnosticsSticky(d: Json, i: nat)
    ensures FirstLacking(d) <= HoursPerDay
    ensures HourDiagnostics(d, i, HoursPerDay) == Repeat(HourMessage(i), HoursPerDay - FirstLacking(d))
    ensures FirstLacking(d) < HoursPerDay ==> HourLacks(d, FirstLacking(d))
    ensures forall h :: 0 <= h < FirstLacking(d) ==> !HourLacks(d, h)
  {
    FirstLackingFromSpec(d, 0);
    HourDiagnosticsRepeat(d, i, HoursPerDay);
  }

  /** A day whose `hour` is missing or not an array is padded with 24 empty
      hours and reports nothing about them. */
  lemma ImproperHoursSilent(d: Json, i: nat)
    requires !HoursArray(d)
    ensures HourDiagnostics(d, i, HoursPerDay) == []
    ensures forall h :: 0 <= h < HoursPerDay ==> ProcessedDay(d).hour[h] == EmptyForecastHourJSON()
  {
    HourDiagnosticsSticky(d, i);
  }

  // ---------------------------------------------------------------------------
  // Forecast days: order of the diagnostics and shape of the output

  const DayMessageStart: string := "Forecast of day "

  lemma StartsWithAppend(s: string, t: string, p: string)
    requires StartsWith(s, p)
    ensures StartsWith(s + t, p)
  {
    assert (s + t)[..|p|] == s[..|p|];
  }

  lemma DayPrefixStart(i: nat, rest: string)
    ensures StartsWith(DayPrefix(i) + rest, DayMessageStart)
  {
    var n := DayMessageStart + NatText(i) + " is missing ";
    assert n[..|DayMessageStart|] == DayMessageStart;
    StartsWithAppend(n, rest, DayMessageStart);
  }

  /** Every diagnostic of a day starts with "Forecast of day ". */
  lemma DayDiagnosticsStart(d: Json, i: nat)
    ensures forall m :: m in DayDiagnostics(d, i) ==> StartsWith(m, DayMessageStart)
  {
    forall m | m in DateDiagnostics(d, i) ensures StartsWith(m, DayMessageStart) {
      DayPrefixStart(i, "date.");
    }
    forall m | m in SummaryDiagnostics(d, i) ensures StartsWith(m, DayMessageStart) {
      if Has(d, "day") {
        var ks := MissingKeys(DayKeys, Get(d, "day"));
        var j :| 0 <= j < |ks| && m == DayPrefix(i) + ks[j] + ".";
        DayPrefixStart(i, ks[j] + ".");
        assert m == DayPrefix(i) + (ks[j] + ".");
      } else {
        DayPrefixStart(i, "data.");
      }
    }
    forall m | m in HourDiagnostics(d, i, HoursPerDay) ensures StartsWith(m, DayMessageStart) {
      HourDiagnosticsSticky(d, i);
      DayPrefixStart(i, "hour data.");
    }
  }

  lemma {:induction false} DaysDiagnosticsStart(days: seq<Json>, n: nat)
    requires n <= |days|
    ensures forall m :: m in DaysDiagnostics(days, n) ==> StartsWith(m, DayMessageStart)
  {
    if n > 0 {
      DaysDiagnosticsStart(days, n - 1);
      DayDiagnosticsStart(days[n - 1], n - 1);
    }
  }

  /** For a well-formed forecast, the shortfall message comes first, and
      appears exactly when fewer than `forecastDays + 1` days arrived; every
      later message is about one day. */
  lemma ForecastDiagnosticsOrder(resp: Json, forecastDays: int)
    requires ForecastWellFormed(resp)
    ensures var diags := ForecastDiagnostics(resp, forecastDays);
            var short := forecastDays + 1 - |SourceDays(resp)|;
            && (short > 0 ==> |diags| > 0 && diags[0] == MissingDaysMessage(short))
            && (forall j :: (if short > 0 then 1 else 0) <= j < |diags| ==> StartsWith(diags[j], DayMessageStart))
            && (short > 0 ==> !StartsWith(MissingDaysMessage(short), DayMessageStart))
  {
    var days := SourceDays(resp);
    DaysDiagnosticsStart(days, |days|);
    var short := forecastDays + 1 - |days|;
    var rest := DaysDiagnostics(days, |days|);
    var diags := ForecastDiagnostics(resp, forecastDays);
    var skip := if short > 0 then 1 else 0;
    assert diags == MissingDaysDiagnostics(forecastDays, |days|) + rest;
    forall j | skip <= j < |diags| ensures StartsWith(diags[j], DayMessageStart) {
      assert diags[j] == rest[j - skip];
      assert diags[j] in rest;
    }
    if short > 0 {
      assert MissingDaysMessage(short)[0] == 'M';
    }
  }

  /** Every processed day holds the day template's keys and 24 hours with the
      hour template's keys. */
  predicate CompleteDay(p: ForecastDay) {
    && Keys(p.day) == DayKeys
    && |p.hour| == HoursPerDay
    && forall h :: 0 <= h < |p.hour| ==> Keys(p.hour[h]) == HourKeys
  }

  predicate Complete(w: Weather) {
    && Keys(w.location) == LocationKeys
    && Keys(w.current) == CurrentKeys
    && forall i :: 0 <= i < |w.forecastday| ==> CompleteDay(w.forecastday[i])
  }

  lemma ProcessedDayComplete(d: Json)
    ensures CompleteDay(ProcessedDay(d))
  {
    if Has(d, "day") {
      CopyPresentSpec(DayTemplate(), Get(d, "day"));
    }
    forall h | 0 <= h < HoursPerDay ensures Keys(ProcessedDay(d).hour[h]) == HourKeys {
      if HoursArray(d) && h < |SourceHours(d)| {
        CopyPresentSpec(EmptyForecastHourJSON(), SourceHours(d)[h]);
      }
    }
  }

  /** A processed forecast holds every template key, one processed day per
      source day (none when the forecast is malformed) and 24 hours per day. */
  lemma ForecastComplete(resp: Json)
    ensures Complete(CurrentOf(resp).(forecastday := ForecastOf(resp)))
    ensures |ForecastOf(resp)| == if ForecastWellFormed(resp) then |SourceDays(resp)| else 0
  {
    LocationStaysFlat(resp);
    forall i | 0 <= i < |ForecastOf(resp)| ensures CompleteDay(ForecastOf(resp)[i]) {
      ProcessedDayComplete(SourceDays(resp)[i]);
    }
  }
}
