/**
 * The state of the location search combobox: the places offered, the one
 * highlighted, the timestamp of the latest search and the pending typing
 * timer. The input element, the listbox element and the clock are not
 * modelled: the input's focus and value, the current time and timer handles
 * are parameters, and the message shown in an empty listbox is a field.
 */
module SearchBox {
  import opened Wrappers
  import opened LocationData

  const TypeMoreNotice: string := "Type in more than 3 characters."
  const SearchingNotice: string := "...Searching for cities."
  const NoCitiesNotice: string := "No cities found with that name."
  const CannotContactNotice: string := "Cannot Contact Server."

  /** The shortest input that starts a search. */
  const MinSearchLength: nat := 3

  /** `updateIndex`: a negative index wraps to the last option, one past the
      end (or more) to the first; null stays null. */
  function Wrap(k: Option<int>, n: nat): Option<int> {
    match k
    case None => None
    case Some(v) => Some(if v < 0 then n - 1 else if v >= n then 0 else v)
  }

  /** Null, or an index into `n` options. */
  predicate ValidIndex(index: Option<int>, n: nat) {
    index.None? || 0 <= index.value < n
  }

  predicate IsUp(key: string) {
    key == "Up" || key == "ArrowUp"
  }

  predicate IsDown(key: string) {
    key == "Down" || key == "ArrowDown"
  }

  /** The highlighted option after a key is released, with `n` options offered. */
  function KeyIndex(n: nat, index: Option<int>, key: string): Option<int> {
    if key == "Enter" then
      (if n > 0 && index.None? then Some(0) else index)
    else if key == "Tab" then
      (if n > 0 then None else index)
    else if IsUp(key) then
      (if n > 0 then Wrap(Some(if index.None? then n - 1 else index.value - 1), n) else index)
    else if IsDown(key) then
      (if n > 0 then Wrap(Some(if index.None? then 0 else index.value + 1), n) else index)
    else
      None
  }

  /** The option Enter or Tab acts on: the highlighted one, or the first. */
  function Chosen(index: Option<int>): int {
    if index.None? then 0 else index.value
  }

  /** A search sent to the weather service, and the timestamp its result will carry. */
  datatype SearchRequest = SearchRequest(text: string, stamp: int)

  class LocationSearchBox {
    var options: seq<LocationData>
    var optionIndex: Option<int>
    var timeoutTyping: Option<nat>
    var latestSearchTimestamp: int
    /** The text of the input element. */
    var inputValue: string
    /** The disabled message an empty listbox shows, if any. */
    var notice: Option<string>

    /** The highlighted option, if any, is one of those offered. */
    predicate Valid()
      reads this
    {
      ValidIndex(optionIndex, |options|)
    }

    /** Starts with no options, no timer, the creation time as latest search
        time, and the prompt to type more; the input element keeps the text it has. */
    constructor (now: int, inputValue: string)
      ensures Valid()
      ensures options == [] && optionIndex == None && timeoutTyping == None
      ensures latestSearchTimestamp == now && this.inputValue == inputValue
      ensures notice == Some(TypeMoreNotice)
    {
      options := [];
      optionIndex := None;
      timeoutTyping := None;
      latestSearchTimestamp := now;
      this.inputValue := inputValue;
      notice := Some(TypeMoreNotice);
    }

    method UpdateIndex(newIndex: Option<int>)
      modifies this
      ensures optionIndex == Wrap(newIndex, |options|)
      ensures |options| > 0 || newIndex.None? ==> Valid()
      ensures options == old(options) && inputValue == old(inputValue) && notice == old(notice)
      ensures timeoutTyping == old(timeoutTyping) && latestSearchTimestamp == old(latestSearchTimestamp)
    {
      optionIndex := newIndex;
      if newIndex.Some? {
        if newIndex.value < 0 {
          optionIndex := Some(|options| - 1);
        } else if newIndex.value >= |options| {
          optionIndex := Some(0);
        }
      }
      WrapValid(newIndex, |options|);
    }

    /** `updateValue`: the input shows the place's display string, or nothing. */
    method UpdateValue(newLocation: Option<LocationData>)
      modifies this
      ensures inputValue == if newLocation.None? then "" else newLocation.value.DisplayString()
      ensures options == old(options) && optionIndex == old(optionIndex) && notice == old(notice)
      ensures timeoutTyping == old(timeoutTyping) && latestSearchTimestamp == old(latestSearchTimestamp)
    {
      if newLocation.None? {
        inputValue := "";
      } else {
        inputValue := newLocation.value.DisplayString();
      }
    }

    /** Enter queries the chosen option and Tab copies it into the input, both
        only when options are offered; the arrows move the highlight around
        the list; any other key removes the highlight. Returns the place
        handed to the query function, if any. */
    method OnInputNodeKeyUp(key: string) returns (queried: Option<LocationData>)
      requires Valid()
      modifies this
      ensures options == old(options) && notice == old(notice)
      ensures timeoutTyping == old(timeoutTyping) && latestSearchTimestamp == old(latestSearchTimestamp)
      ensures Valid()
      ensures optionIndex == KeyIndex(|options|, old(optionIndex), key)
      ensures queried.Some? <==> key == "Enter" && |options| > 0
      ensures queried.Some? ==> queried.value == options[Chosen(old(optionIndex))]
      ensures inputValue ==
        if (key == "Enter" || key == "Tab") && |options| > 0 then options[Chosen(old(optionIndex))].DisplayString()
        else old(inputValue)
    {
      queried := None;
      if key == "Enter" {
        if |options| > 0 {
          if optionIndex.None? {
            optionIndex := Some(0);
          }
          queried := SendQuery(options[optionIndex.value]);
        }
      } else if key == "Tab" {
        if |options| > 0 {
          if optionIndex.None? {
            optionIndex := Some(0);
          }
          UpdateValue(Some(options[optionIndex.value]));
          UpdateIndex(None);
        }
      } else if IsUp(key) {
        if |options| > 0 {
          if optionIndex.None? {
            UpdateIndex(Some(|options| - 1));
          } else {
            UpdateIndex(Some(optionIndex.value - 1));
          }
        }
      } else if IsDown(key) {
        if |options| > 0 {
          if optionIndex.None? {
            UpdateIndex(Some(0));
          } else {
            UpdateIndex(Some(optionIndex.value + 1));
          }
        }
      } else {
        UpdateIndex(None);
      }
    }

    /** `sendQuery`: shows the place in the input and hands it to the query function. */
    method SendQuery(location: LocationData) returns (queried: Option<LocationData>)
      modifies this
      ensures queried == Some(location)
      ensures inputValue == location.DisplayString()
      ensures options == old(options) && optionIndex == old(optionIndex) && notice == old(notice)
      ensures timeoutTyping == old(timeoutTyping) && latestSearchTimestamp == old(latestSearchTimestamp)
    {
      UpdateValue(Some(location));
      queried := Some(location);
    }

    /** Showing or hiding the listbox removes the highlight. */
    method DisplayListbox(display: bool)
      modifies this
      ensures Valid() && optionIndex == None
      ensures options == old(options) && inputValue == old(inputValue) && notice == old(notice)
      ensures timeoutTyping == old(timeoutTyping) && latestSearchTimestamp == old(latestSearchTimestamp)
    {
      UpdateIndex(None);
    }

    method ClearListbox(emptyText: string)
      modifies this
      ensures Valid()
      ensures options == [] && optionIndex == None && notice == Some(emptyText)
      ensures inputValue == old(inputValue)
      ensures timeoutTyping == old(timeoutTyping) && latestSearchTimestamp == old(latestSearchTimestamp)
    {
      options := [];
      optionIndex := None;
      notice := Some(emptyText);
    }

    /** Clears the list, records `now` as the latest search time and sends the
        search; its result will carry the time `later` read a moment after. */
    method SearchString(text: string, now: int, later: int) returns (request: SearchRequest)
      modifies this
      ensures Valid()
      ensures options == [] && optionIndex == None && notice == Some(SearchingNotice)
      ensures latestSearchTimestamp == now
      ensures request == SearchRequest(text, later)
      ensures inputValue == old(inputValue) && timeoutTyping == old(timeoutTyping)
    {
      ClearListbox(SearchingNotice);
      latestSearchTimestamp := now;
      request := SearchRequest(text, later);
    }

    /** The search failed. */
    method SearchFail()
      modifies this
      ensures Valid()
      ensures options == [] && optionIndex == None && notice == Some(CannotContactNotice)
      ensures inputValue == old(inputValue)
      ensures timeoutTyping == old(timeoutTyping) && latestSearchTimestamp == old(latestSearchTimestamp)
    {
      ClearListbox(CannotContactNotice);
    }

    /** A search result arrives. One older than the latest search is ignored;
        otherwise the list offers exactly the places found, none highlighted. */
    method UpdateListbox(timestamp: int, searchResponse: seq<LocationData>)
      modifies this
      ensures timestamp < old(latestSearchTimestamp) ==>
        options == old(options) && optionIndex == old(optionIndex) && notice == old(notice)
      ensures timestamp >= old(latestSearchTimestamp) ==>
        && options == searchResponse && optionIndex == None
        && notice == (if searchResponse == [] then Some(NoCitiesNotice) else None)
      ensures old(Valid()) ==> Valid()
      ensures inputValue == old(inputValue)
      ensures timeoutTyping == old(timeoutTyping) && latestSearchTimestamp == old(latestSearchTimestamp)
    {
      if timestamp >= latestSearchTimestamp {
        options := [];
        optionIndex := None;
        notice := None;
        if |searchResponse| <= 0 {
          ClearListbox(NoCitiesNotice);
        } else {
          var i := 0;
          while i < |searchResponse|
            invariant 0 <= i <= |searchResponse|
            invariant options == searchResponse[..i]
            invariant optionIndex == None && notice == None
            invariant inputValue == old(inputValue)
            invariant timeoutTyping == old(timeoutTyping) && latestSearchTimestamp == old(latestSearchTimestamp)
          {
            options := options + [searchResponse[i]];
            i := i + 1;
          }
        }
      }
    }

    /** The typing timer fires: with the input focused, a value of at least
        three characters is searched for and a shorter one prompts for more;
        the timer is gone either way. */
    method TypeTimeoutCall(focused: bool, now: int, later: int) returns (request: Option<SearchRequest>)
      modifies this
      ensures timeoutTyping == None
      ensures request.Some? <==> focused && |old(inputValue)| >= MinSearchLength
      ensures request.Some? ==>
        && request.value == SearchRequest(old(inputValue), later)
        && latestSearchTimestamp == now
        && options == [] && optionIndex == None && notice == Some(SearchingNotice)
      ensures focused && |old(inputValue)| < MinSearchLength ==>
        && latestSearchTimestamp == old(latestSearchTimestamp)
        && options == [] && optionIndex == None && notice == Some(TypeMoreNotice)
      ensures !focused ==>
        && latestSearchTimestamp == old(latestSearchTimestamp)
        && options == old(options) && optionIndex == old(optionIndex) && notice == old(notice)
      ensures old(Valid()) ==> Valid()
      ensures inputValue == old(inputValue)
    {
      request := None;
      if focused {
        var inputString := inputValue;
        if |inputString| >= MinSearchLength {
          var r := SearchString(inputString, now, later);
          request := Some(r);
        } else {
          ClearListbox(TypeMoreNotice);
        }
      }
      timeoutTyping := None;
    }

    /** Cancels a pending typing timer. Returns the timer cancelled, if any. */
    method ClearTypeTimeOutCall() returns (cancelled: Option<nat>)
      modifies this
      ensures cancelled == old(timeoutTyping) && timeoutTyping == None
      ensures options == old(options) && optionIndex == old(optionIndex) && notice == old(notice)
      ensures inputValue == old(inputValue) && latestSearchTimestamp == old(latestSearchTimestamp)
    {
      cancelled := timeoutTyping;
      if timeoutTyping.Some? {
        timeoutTyping := None;
      }
    }

    /** The input changed to `value`: any pending typing timer is cancelled and
        `timer` is started in its place. */
    method OnInputNodeValueChange(value: string, timer: nat) returns (cancelled: Option<nat>)
      modifies this
      ensures cancelled == old(timeoutTyping) && timeoutTyping == Some(timer)
      ensures inputValue == value
      ensures options == old(options) && optionIndex == old(optionIndex) && notice == old(notice)
      ensures latestSearchTimestamp == old(latestSearchTimestamp)
    {
      inputValue := value;
      cancelled := None;
      if timeoutTyping.Some? {
        cancelled := ClearTypeTimeOutCall();
      }
      timeoutTyping := Some(timer);
    }
  }

  lemma WrapValid(k: Option<int>, n: nat)
    ensures n > 0 || k.None? ==> ValidIndex(Wrap(k, n), n)
  {
  }

  /** Every key keeps the highlight null or on an offered option. */
  lemma KeyIndexValid(n: nat, index: Option<int>, key: string)
    requires ValidIndex(index, n)
    ensures ValidIndex(KeyIndex(n, index, key), n)
  {
  }

  /** With options offered, the arrows cycle through them: down from the last
      option goes to the first, up from the first to the last, and from no
      highlight down selects the first and up the last. */
  lemma ArrowsWrapAround(n: nat, index: Option<int>)
    requires n > 0 && ValidIndex(index, n)
    ensures KeyIndex(n, None, "ArrowDown") == Some(0)
    ensures KeyIndex(n, None, "ArrowUp") == Some(n - 1)
    ensures KeyIndex(n, Some(n - 1), "ArrowDown") == Some(0)
    ensures KeyIndex(n, Some(0), "ArrowUp") == Some(n - 1)
    ensures index.Some? ==> KeyIndex(n, KeyIndex(n, index, "ArrowDown"), "ArrowUp") == index
    ensures index.Some? ==> KeyIndex(n, KeyIndex(n, index, "ArrowUp"), "ArrowDown") == index
  {
  }

  /** With no options offered, only a key outside Enter, Tab and the arrows
      changes anything, and then only to remove a highlight that is not there. */
  lemma NoOptionsNoMove(index: Option<int>, key: string)
    requires ValidIndex(index, 0)
    ensures KeyIndex(0, index, key) == None
  {
  }

  /** The latest search's result is taken, and the result of an earlier
      search that arrives after it is ignored. */
  method SupersededSearch(box: LocationSearchBox, first: string, second: string,
                          t1: int, t2: int, t3: int, t4: int,
                          lateResults: seq<LocationData>, results: seq<LocationData>)
    requires t1 <= t2 < t3 <= t4
    modifies box
    ensures box.Valid()
    ensures box.options == results && box.optionIndex == None
    ensures box.notice == (if results == [] then Some(NoCitiesNotice) else None)
  {
    var r1 := box.SearchString(first, t1, t2);
    var r2 := box.SearchString(second, t3, t4);
    box.UpdateListbox(r2.stamp, results);
    box.UpdateListbox(r1.stamp, lateResults);
  }
}
