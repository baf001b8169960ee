/**
 * The weather handler's busy flags: one for a pending location search, one for
 * a pending current or forecast query. A request raises its type's flag; the
 * arrival of the response, successful or not, lowers it again before the
 * caller's callback runs. The HTTP exchange is not modelled: the arrival of a
 * response is an explicit call of `ResponseDone` or `ResponseFail`.
 */
module WeatherHandler {
  import opened Json
  import opened Wrappers
  import opened Normalizer

  /** The two busy flags. */
  datatype Flags = Flags(searching: bool, querying: bool)

  /** Where `triggerWaitingForResponse(type, waiting)` stores `waiting`. */
  function Trigger(f: Flags, queryType: string, waiting: bool): Flags {
    if queryType == "current" || queryType == "forecast" then f.(querying := waiting)
    else if queryType == "search" then f.(searching := waiting)
    else f
  }

  predicate FreeToSearch(f: Flags) {
    !f.searching && !f.querying
  }

  predicate FreeToQuery(f: Flags) {
    !f.querying
  }

  /** What the success callback receives. */
  datatype Delivery = Delivery(result: Processed, errors: seq<string>)

  class WeatherHandler {
    var waitingForSearchResponse: bool
    var waitingForWeatherResponse: bool
    var forecastDays: int
    var testing: bool

    constructor (forecastDays: int, testing: bool)
      ensures State() == Flags(false, false)
      ensures this.forecastDays == forecastDays && this.testing == testing
    {
      waitingForSearchResponse := false;
      waitingForWeatherResponse := false;
      this.forecastDays := forecastDays;
      this.testing := testing;
    }

    function State(): Flags
      reads this
    {
      Flags(waitingForSearchResponse, waitingForWeatherResponse)
    }

    /** Free to search: neither a search nor a weather query is pending. */
    function IsFreeToSearch(): (r: bool)
      reads this
      ensures r <==> FreeToSearch(State())
    {
      !waitingForSearchResponse && !waitingForWeatherResponse
    }

    /** Free to query: no weather query is pending. */
    function IsFreeToQuery(): (r: bool)
      reads this
      ensures r <==> FreeToQuery(State())
    {
      !waitingForWeatherResponse
    }

    method TriggerWaitingForResponse(queryType: string, waiting: bool)
      modifies this
      ensures State() == Trigger(old(State()), queryType, waiting)
      ensures forecastDays == old(forecastDays) && testing == old(testing)
    {
      if queryType == "current" {
        waitingForWeatherResponse := waiting;
      } else if queryType == "forecast" {
        waitingForWeatherResponse := waiting;
      } else if queryType == "search" {
        waitingForSearchResponse := waiting;
      }
    }

    /** A successful response arrives: the flag is lowered, then the success
        callback, when there is one, receives the processed response. */
    method ResponseDone(queryType: string, hasSuccess: bool, response: Json) returns (delivered: Option<Delivery>)
      requires hasSuccess ==> Acceptable(queryType, response)
      modifies this
      ensures State() == Trigger(old(State()), queryType, false)
      ensures forecastDays == old(forecastDays) && testing == old(testing)
      ensures delivered.Some? <==> hasSuccess
      ensures delivered.Some? ==>
        Normalized(response, queryType, forecastDays, [], delivered.value.result, delivered.value.errors)
    {
      TriggerWaitingForResponse(queryType, false);
      if hasSuccess {
        var processed, errors := ProcessResponse(response, queryType, forecastDays, []);
        delivered := Some(Delivery(processed, errors));
      } else {
        delivered := None;
      }
    }

    /** A request fails: the flag is lowered, then the failure callback, when
        there is one, is called. */
    method ResponseFail(queryType: string, hasFail: bool) returns (failCalled: bool)
      modifies this
      ensures State() == Trigger(old(State()), queryType, false)
      ensures forecastDays == old(forecastDays) && testing == old(testing)
      ensures failCalled <==> hasFail
    {
      TriggerWaitingForResponse(queryType, false);
      failCalled := hasFail;
    }

    /** Raises the type's flag and dispatches the request. Outside testing the
        response arrives later, through `ResponseDone` or `ResponseFail`; when
        testing, `fixture` (the built-in test data) is delivered at once. */
    method RequestWeather(queryType: string, hasSuccess: bool, fixture: Json) returns (delivered: Option<Delivery>)
      requires testing && hasSuccess ==> Acceptable(queryType, fixture)
      modifies this
      ensures !testing ==> State() == Trigger(old(State()), queryType, true) && delivered == None
      ensures testing ==> State() == Trigger(old(State()), queryType, false)
      ensures testing ==> (delivered.Some? <==> hasSuccess)
      ensures testing && delivered.Some? ==>
        Normalized(fixture, queryType, forecastDays, [], delivered.value.result, delivered.value.errors)
      ensures forecastDays == old(forecastDays) && testing == old(testing)
    {
      TriggerWaitingForResponse(queryType, true);
      if !testing {
        delivered := None;
      } else {
        delivered := ResponseDone(queryType, hasSuccess, fixture);
      }
    }
  }

  /** Free to search implies free to query. */
  lemma SearchFreeImpliesQueryFree(f: Flags)
    ensures FreeToSearch(f) ==> FreeToQuery(f)
  {
  }

  /** "current" and "forecast" store into the weather flag, "search" into the
      search flag, and any other type changes nothing. */
  lemma TriggerRouting(f: Flags, queryType: string, waiting: bool)
    ensures var g := Trigger(f, queryType, waiting);
      && (queryType in {"current", "forecast"} ==> g == Flags(f.searching, waiting))
      && (queryType == "search" ==> g == Flags(waiting, f.querying))
      && (queryType !in {"current", "forecast", "search"} ==> g == f)
  {
  }

  /** While a weather query is pending nothing else may be queried or searched;
      while a search is pending only queries may start. */
  lemma PendingBlocks(f: Flags, queryType: string)
    ensures queryType in {"current", "forecast"} ==>
      !FreeToQuery(Trigger(f, queryType, true)) && !FreeToSearch(Trigger(f, queryType, true))
    ensures queryType == "search" ==>
      !FreeToSearch(Trigger(f, queryType, true)) && FreeToQuery(Trigger(f, queryType, true)) == FreeToQuery(f)
  {
  }

  /** A completed request (done or failed) lowers exactly the flag its
      request raised, so a handler that was free to search is restored. */
  lemma RoundTripRestores(f: Flags, queryType: string)
    ensures Trigger(Trigger(f, queryType, true), queryType, false) == Trigger(f, queryType, false)
    ensures FreeToSearch(f) ==> Trigger(Trigger(f, queryType, true), queryType, false) == f
  {
  }
}
