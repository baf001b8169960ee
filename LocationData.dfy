/**
 * A place the user can ask the weather for: a name, a region and a country.
 * The object is filled in by its constructor or by `UpdateFromJSON`, and
 * produces the text shown to the user and the query sent to the service.
 */
module LocationData {
  import opened Json

  /** The country whose name the display string leaves out. */
  const HomeCountry: string := "United States of America"

  /** The query that asks the service to locate the caller by IP address. */
  const AutoIp: string := "auto:ip"

  const Separator: string := ", "

  /** The text JavaScript's string concatenation produces for a value. */
  function JsText(v: JsValue): string {
    match v
    case Undefined => "undefined"
    case NotANumber => "NaN"
    case Of(j) => JsonText(j)
  }

  function JsonText(j: Json): string {
    match j
    case JNull => "null"
    case JBool(b) => if b then "true" else "false"
    case JNum(t) => t
    case JStr(s) => s
    case JArr(items) => JoinItems(items)
    case JObj(_) => "[object Object]"
  }

  /** `Array.prototype.join(",")`, which writes a null element as nothing. */
  function JoinItems(items: seq<Json>): string
    decreases items
  {
    if items == [] then ""
    else
      var first := if items[0].JNull? then "" else JsonText(items[0]);
      if |items| == 1 then first else first + "," + JoinItems(items[1..])
  }

  /** The empty string, which is what `name === ""` and `region !== ""` compare against. */
  const Blank: JsValue := Of(JStr(""))

  /** `", " + v` when `show` holds, nothing otherwise. */
  function Part(show: bool, v: JsValue): (s: string)
    ensures show ==> |s| >= 2 && s[..2] == Separator
    ensures !show ==> s == ""
  {
    if show then Separator + JsText(v) else ""
  }

  /** The display rule: the name, the region unless it is empty, and the country
      unless it is the home country (even an empty country is appended). */
  function Display(name: JsValue, region: JsValue, country: JsValue): string {
    JsText(name) + Part(region != Blank, region) + Part(country != Of(JStr(HomeCountry)), country)
  }

  /** The search rule: `"auto:ip"` when the name is empty, otherwise the name
      followed by each non-empty part of region and country. */
  function Search(name: JsValue, region: JsValue, country: JsValue): string {
    if name == Blank then AutoIp
    else JsText(name) + Part(region != Blank, region) + Part(country != Blank, country)
  }

  class LocationData {
    var name: JsValue
    var region: JsValue
    var country: JsValue

    /** `new LocationData(name, region, country)`; the source's defaults are `""`. */
    constructor (name: string, region: string, country: string)
      ensures this.name == Of(JStr(name))
      ensures this.region == Of(JStr(region))
      ensures this.country == Of(JStr(country))
    {
      this.name := Of(JStr(name));
      this.region := Of(JStr(region));
      this.country := Of(JStr(country));
    }

    /** True exactly when the name is the empty string. */
    function IsEmpty(): (r: bool)
      reads this
      ensures r <==> name == Of(JStr(""))
    {
      name == Blank
    }

    function DisplayString(): (s: string)
      reads this
      ensures s == Display(name, region, country)
    {
      Display(name, region, country)
    }

    function SearchString(): (s: string)
      reads this
      ensures s == Search(name, region, country)
    {
      Search(name, region, country)
    }

    /** Copies the name when the source has one (reporting an error otherwise,
        and keeping the old name), and always overwrites region and country with
        whatever the source holds for them, `undefined` included. */
    method UpdateFromJSON(src: map<string, JsValue>) returns (errorFound: bool)
      modifies this
      ensures errorFound <==> "name" !in src
      ensures name == if "name" in src then src["name"] else old(name)
      ensures region == Read(src, "region")
      ensures country == Read(src, "country")
    {
      errorFound := false;
      if "name" in src {
        name := src["name"];
      } else {
        errorFound := true;
      }
      region := Read(src, "region");
      country := Read(src, "country");
    }
  }

  /** A fresh `new LocationData()` is empty, and its query is the IP sentinel. */
  lemma FreshIsEmpty(l: LocationData)
    requires l.name == Of(JStr("")) && l.region == Of(JStr("")) && l.country == Of(JStr(""))
    ensures l.IsEmpty()
    ensures l.SearchString() == AutoIp
    ensures l.DisplayString() == Separator
  {
  }

  lemma YarmouthDisplay()
    ensures Display(Of(JStr("Yarmouth")), Of(JStr("Maine")), Of(JStr(HomeCountry))) == "Yarmouth, Maine"
  {
  }

  lemma ParisDisplay()
    ensures Display(Of(JStr("Paris")), Of(JStr("")), Of(JStr("France"))) == "Paris, France"
  {
  }

  /** The display string always begins with the name, and each part it appends
      starts with the separator. */
  lemma DisplayStartsWithName(name: JsValue, region: JsValue, country: JsValue)
    ensures |JsText(name)| <= |Display(name, region, country)|
    ensures Display(name, region, country)[..|JsText(name)|] == JsText(name)
  {
    var n := JsText(name);
    var p := Part(region != Blank, region);
    var q := Part(country != Of(JStr(HomeCountry)), country);
    PrefixOfConcat(n, p + q);
    assert n + p + q == n + (p + q);
  }

  lemma PrefixOfConcat(a: string, b: string)
    ensures |a| <= |a + b| && (a + b)[..|a|] == a
  {
  }

  /** Display and search agree whenever the name is set and the country is
      neither empty nor the home country. */
  lemma DisplayMatchesSearch(name: JsValue, region: JsValue, country: JsValue)
    requires name != Blank
    requires country != Blank && country != Of(JStr(HomeCountry))
    ensures Display(name, region, country) == Search(name, region, country)
  {
  }

  /** For a home-country place the query carries the country the display hides. */
  lemma HomeCountryHiddenFromDisplayOnly(name: JsValue, region: JsValue)
    requires name != Blank
    ensures Search(name, region, Of(JStr(HomeCountry)))
         == Display(name, region, Of(JStr(HomeCountry))) + Separator + HomeCountry
  {
  }

  /** An empty country still adds a trailing separator to the display, never to the query. */
  lemma EmptyCountryTrailingSeparator(name: JsValue, region: JsValue)
    requires name != Blank
    ensures Display(name, region, Blank) == Search(name, region, Blank) + Separator
  {
  }

  /** The query is the IP sentinel exactly when the name is empty, or when the
      name itself reads "auto:ip" and there is no region or country to add. */
  lemma SearchIsAutoIpIff(name: JsValue, region: JsValue, country: JsValue)
    ensures Search(name, region, country) == AutoIp
        <==> name == Blank || (JsText(name) == AutoIp && region == Blank && country == Blank)
  {
    if name != Blank {
      var p := Part(region != Blank, region);
      var q := Part(country != Blank, country);
      assert p != [] ==> p[0] == Separator[0];
      assert q != [] ==> q[0] == Separator[0];
      SentinelHasNoParts(JsText(name), p, q);
    }
  }

  /** Appended parts start with a comma and the sentinel holds none, so a query
      equal to the sentinel has no parts. */
  lemma SentinelHasNoParts(n: string, p: string, q: string)
    requires p != [] ==> p[0] == ','
    requires q != [] ==> q[0] == ','
    ensures n + p + q == AutoIp <==> n == AutoIp && p == [] && q == []
  {
    if p != [] {
      assert (n + p + q)[|n|] == ',';
    } else if q != [] {
      assert (n + p + q)[|n|] == ',';
    }
    assert forall i :: 0 <= i < |AutoIp| ==> AutoIp[i] != ',';
  }
}
