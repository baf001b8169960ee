/**
 * The fixed shapes the weather handler fills in: the empty current-weather
 * object, the empty forecast day and the empty forecast hour. A template is a
 * record whose keys come in the order of the source's object literal (the order
 * in which `for…in` visits them); each value starts as a placeholder.
 */
module Templates {
  import opened Json
  import opened Wrappers

  /** The two placeholders of the templates: `NaN` for numbers, `""` for text. */
  datatype Unknown = NaN | EmptyText

  /** A value of a processed record: a placeholder, a value copied from the
      response, or a nested template record (a `condition`). */
  datatype Field = Blank(unknown: Unknown) | Copied(value: Json) | Group(entries: seq<Entry>)

  datatype Entry = Entry(key: string, field: Field)

  /** A record with literal keys, in literal order. */
  type Record = seq<Entry>

  /** A processed forecast day: its date, its day summary and its hours. */
  datatype ForecastDay = ForecastDay(date: Field, day: Record, hour: seq<Record>)

  /** The processed current-weather object: `location`, `current` and `forecast.forecastday`. */
  datatype Weather = Weather(location: Record, current: Record, forecastday: seq<ForecastDay>)

  function Keys(r: Record): (ks: seq<string>)
    ensures |ks| == |r|
    ensures forall i :: 0 <= i < |r| ==> ks[i] == r[i].key
  {
    seq(|r|, i requires 0 <= i < |r| => r[i].key)
  }

  predicate Distinct(ks: seq<string>) {
    forall i, j :: 0 <= i < j < |ks| ==> ks[i] != ks[j]
  }

  /** The value stored under `key`, if the record has that key. */
  function Lookup(r: Record, key: string): Option<Field> {
    if r == [] then None
    else if r[0].key == key then Some(r[0].field)
    else Lookup(r[1..], key)
  }

  const ConditionKeys: seq<string> := ["text", "icon", "code"]
  const LocationKeys: seq<string> := ["name", "region", "country", "localtime"]
  const CurrentKeys: seq<string> :=
    ["last_updated", "temp_c", "temp_f", "is_day", "condition", "wind_mph", "wind_kph"]
  const DayKeys: seq<string> :=
    ["maxtemp_c", "maxtemp_f", "mintemp_c", "mintemp_f", "avgtemp_c", "avgtemp_f",
     "maxwind_mph", "maxwind_kph", "daily_will_it_rain", "daily_chance_of_rain",
     "daily_will_it_snow", "daily_chance_of_snow", "condition"]
  const HourKeys: seq<string> :=
    ["time", "temp_c", "temp_f", "condition", "wind_mph", "wind_kph", "humidity",
     "will_it_rain", "chance_of_rain", "will_it_snow", "chance_of_snow"]

  const Text: Field := Blank(EmptyText)
  const Number: Field := Blank(NaN)

  /** A record still holding only placeholders (nested records included). */
  predicate Pristine(r: Record) {
    forall i :: 0 <= i < |r| ==>
      match r[i].field
      case Blank(_) => true
      case Copied(_) => false
      case Group(g) => forall k :: 0 <= k < |g| ==> g[k].field.Blank?
  }

  /** A record whose values are all plain values: no nested record. */
  predicate Flat(r: Record) {
    forall i :: 0 <= i < |r| ==> !r[i].field.Group?
  }

  function ConditionTemplate(): (r: Record)
    ensures Keys(r) == ConditionKeys && Pristine(r)
  {
    [Entry("text", Text), Entry("icon", Text), Entry("code", Number)]
  }

  function LocationTemplate(): (r: Record)
    ensures Keys(r) == LocationKeys && Pristine(r) && Flat(r)
    ensures forall i :: 0 <= i < |r| ==> r[i].field == Text
  {
    [Entry("name", Text), Entry("region", Text), Entry("country", Text), Entry("localtime", Text)]
  }

  function CurrentTemplate(): (r: Record)
    ensures Keys(r) == CurrentKeys && Pristine(r)
  {
    [Entry("last_updated", Text), Entry("temp_c", Number), Entry("temp_f", Number),
     Entry("is_day", Number), Entry("condition", Group(ConditionTemplate())),
     Entry("wind_mph", Number), Entry("wind_kph", Number)]
  }

  /** `getEmptyCurrentJSON`: every location and current value a placeholder, no forecast day. */
  function EmptyCurrentJSON(): (w: Weather)
    ensures Keys(w.location) == LocationKeys && Pristine(w.location) && Flat(w.location)
    ensures Keys(w.current) == CurrentKeys && Pristine(w.current)
    ensures w.forecastday == []
  {
    Weather(LocationTemplate(), CurrentTemplate(), [])
  }

  function DayTemplate(): (r: Record)
    ensures Keys(r) == DayKeys && Pristine(r)
  {
    [Entry("maxtemp_c", Number), Entry("maxtemp_f", Number),
     Entry("mintemp_c", Number), Entry("mintemp_f", Number),
     Entry("avgtemp_c", Number), Entry("avgtemp_f", Number),
     Entry("maxwind_mph", Number), Entry("maxwind_kph", Number),
     Entry("daily_will_it_rain", Number), Entry("daily_chance_of_rain", Number),
     Entry("daily_will_it_snow", Number), Entry("daily_chance_of_snow", Number),
     Entry("condition", Group(ConditionTemplate()))]
  }

  /** `getEmptyForecastDayJSON`: an empty date, a placeholder day summary and no hours yet. */
  function EmptyForecastDayJSON(): (d: ForecastDay)
    ensures d.date == Blank(EmptyText)
    ensures Keys(d.day) == DayKeys && Pristine(d.day)
    ensures d.hour == []
  {
    ForecastDay(Text, DayTemplate(), [])
  }

  /** `getEmptyForecastHourJSON`: one hour whose every value is a placeholder. */
  function EmptyForecastHourJSON(): (r: Record)
    ensures Keys(r) == HourKeys && Pristine(r)
  {
    [Entry("time", Text), Entry("temp_c", Number), Entry("temp_f", Number),
     Entry("condition", Group(ConditionTemplate())),
     Entry("wind_mph", Number), Entry("wind_kph", Number), Entry("humidity", Number),
     Entry("will_it_rain", Number), Entry("chance_of_rain", Number),
     Entry("will_it_snow", Number), Entry("chance_of_snow", Number)]
  }

  /** Hours per processed forecast day. */
  const HoursPerDay: nat := 24

  /** `getDummyForecastDayJSON`: an empty day padded with 24 empty hours. */
  method DummyForecastDayJSON() returns (d: ForecastDay)
    ensures d.date == Blank(EmptyText) && d.day == DayTemplate()
    ensures |d.hour| == HoursPerDay
    ensures forall h :: 0 <= h < |d.hour| ==> d.hour[h] == EmptyForecastHourJSON()
  {
    d := EmptyForecastDayJSON();
    var i := 0;
    while i < HoursPerDay
      invariant 0 <= i <= HoursPerDay
      invariant d.date == Blank(EmptyText) && d.day == DayTemplate()
      invariant |d.hour| == i
      invariant forall h :: 0 <= h < i ==> d.hour[h] == EmptyForecastHourJSON()
    {
      d := d.(hour := d.hour + [EmptyForecastHourJSON()]);
      i := i + 1;
    }
  }

  /** No template repeats a key, so assigning by key and assigning by position agree. */
  lemma TemplateKeysDistinct()
    ensures Distinct(ConditionKeys) && Distinct(LocationKeys) && Distinct(CurrentKeys)
    ensures Distinct(DayKeys) && Distinct(HourKeys)
  {
  }

  /** In a record without repeated keys, looking a key up finds the entry at its position. */
  lemma {:induction false} LookupAt(r: Record, i: nat)
    requires i < |r| && Distinct(Keys(r))
    ensures Lookup(r, r[i].key) == Some(r[i].field)
  {
    if i > 0 {
      assert Keys(r[1..]) == Keys(r)[1..];
      assert r[0].key != r[i].key by { assert Keys(r)[0] != Keys(r)[i]; }
      LookupAt(r[1..], i - 1);
    }
  }

  /** Looking a key up finds its first entry. */
  lemma {:induction false} LookupFirst(r: Record, i: nat)
    requires i < |r| && forall j :: 0 <= j < i ==> r[j].key != r[i].key
    ensures Lookup(r, r[i].key) == Some(r[i].field)
  {
    if i > 0 {
      LookupFirst(r[1..], i - 1);
    }
  }
}
