/** The search box of the Categories and Brands pages: the local search text,
    the `isInitialMount` ref, and the debounce timer ref, with the effects that
    update them. A timer is modelled as one pending slot holding the text the
    timer's callback will use; arming replaces it, clearing empties it, and
    firing dispatches and empties it. Time itself is not modelled. */
module SearchBox {
  import opened Js
  import opened Entities

  /** What the page dispatches: `setSearchFilter(text)` or a fetch with parameters. */
  datatype Dispatch = SetSearch(text: string) | Fetch(params: QueryParams)

  /** The parameters a fired timer builds: the first page of 10, with `q` the
      trimmed text when that is not empty. */
  function SearchParams(text: string): QueryParams {
    PageParams(10, 0, if Trim(text) != "" then Some(Trim(text)) else None)
  }

  /** The parameters of the fetch on mount. */
  const MountParams := PageParams(10, 0, None)

  /** The `q` a fired timer sends is the trimmed text, present exactly when
      that text is not all white space, and never has white space at either end. */
  lemma SearchParamsShape(text: string)
    ensures SearchParams(text).limit == Num(10) && SearchParams(text).offset == Num(0)
    ensures SearchParams(text).q == Undefined <==> forall i :: 0 <= i < |text| ==> IsSpace(text[i])
    ensures SearchParams(text).q.Str? ==> Trim(SearchParams(text).q.s) == SearchParams(text).q.s
  {
    TrimEmptyIffBlank(text);
    TrimIdempotent(text);
  }

  class SearchBox {
    var localSearch: string
    var isInitialMount: bool
    var pending: Option<string>
    var dispatched: seq<Dispatch>

    /** An armed timer always carries the current text, and none is armed
        before the first effect run. */
    ghost predicate Valid()
      reads this
    {
      pending.Some? ==> pending.value == localSearch && !isInitialMount
    }

    /** The first render: the local text starts as the stored search text or ''. */
    constructor (searchFilter: Option<string>)
      ensures localSearch == TextOr(searchFilter, "") && isInitialMount
      ensures pending == None && dispatched == []
      ensures Valid()
    {
      localSearch := TextOr(searchFilter, "");
      isInitialMount := true;
      pending := None;
      dispatched := [];
    }

    /** The debounced-search effect: its first run only clears the
        initial-mount flag; every later run clears the pending timer and arms
        a new one for the current text. (The cleanup of the previous run,
        which also clears the timer, is folded in.) */
    method SearchEffect()
      requires isInitialMount ==> pending == None
      modifies this
      ensures localSearch == old(localSearch) && dispatched == old(dispatched)
      ensures !isInitialMount
      ensures pending == if old(isInitialMount) then old(pending) else Some(localSearch)
      ensures Valid()
    {
      if isInitialMount {
        isInitialMount := false;
      } else {
        pending := Some(localSearch);
      }
    }

    /** The mount effects in order: the first-page fetch, then the first run
        of the search effect, which is skipped. */
    method Mount()
      requires Valid() && isInitialMount
      modifies this
      ensures dispatched == old(dispatched) + [Fetch(MountParams)]
      ensures !isInitialMount && pending == old(pending) && localSearch == old(localSearch)
      ensures Valid()
    {
      dispatched := dispatched + [Fetch(MountParams)];
      SearchEffect();
    }

    /** `handleSearchChange`: a new text re-renders and re-runs the search
        effect; the same text changes nothing. */
    method Change(value: string)
      requires Valid()
      modifies this
      ensures localSearch == value && dispatched == old(dispatched)
      ensures value == old(localSearch) ==> pending == old(pending) && isInitialMount == old(isInitialMount)
      ensures value != old(localSearch) ==>
        !isInitialMount && pending == (if old(isInitialMount) then old(pending) else Some(value))
      ensures Valid()
    {
      if value != localSearch {
        localSearch := value;
        SearchEffect();
      }
    }

    /** The sync effect: a stored search text that differs from the local one
        replaces it (`searchFilter || ''`), which re-runs the search effect and
        so re-arms the timer; the same text changes nothing. */
    method SyncFromStore(searchFilter: Option<string>)
      requires Valid()
      modifies this
      ensures localSearch == TextOr(searchFilter, "") && dispatched == old(dispatched)
      ensures TextOr(searchFilter, "") == old(localSearch) ==>
        pending == old(pending) && isInitialMount == old(isInitialMount)
      ensures TextOr(searchFilter, "") != old(localSearch) ==>
        !isInitialMount &&
        pending == (if old(isInitialMount) then old(pending) else Some(TextOr(searchFilter, "")))
      ensures Valid()
    {
      Change(TextOr(searchFilter, ""));
    }

    /** The armed timer fires: it stores the text and fetches its first page.
        With no timer armed nothing happens. */
    method TimerFires()
      requires Valid()
      modifies this
      ensures pending == None && localSearch == old(localSearch) && isInitialMount == old(isInitialMount)
      ensures dispatched == old(dispatched) +
        (if old(pending).Some? then [SetSearch(old(pending).value), Fetch(SearchParams(old(pending).value))] else [])
      ensures Valid()
    {
      if pending.Some? {
        var text := pending.value;
        dispatched := dispatched + [SetSearch(text), Fetch(SearchParams(text))];
        pending := None;
      }
    }

    /** The effect cleanup on unmount clears the pending timer. */
    method Unmount()
      requires Valid()
      modifies this
      ensures pending == None && localSearch == old(localSearch) && dispatched == old(dispatched)
      ensures isInitialMount == old(isInitialMount)
      ensures Valid()
    {
      pending := None;
    }

    /** A burst of keystrokes after mount: each one cancels the pending timer
        and arms a new one, so nothing is dispatched and at most one timer,
        for the last text, is left armed. */
    method Type(values: seq<string>)
      requires Valid() && !isInitialMount
      modifies this
      ensures Valid() && !isInitialMount && dispatched == old(dispatched)
      ensures localSearch == if |values| == 0 then old(localSearch) else values[|values| - 1]
      ensures pending.None? <==> old(pending).None? && forall k :: 0 <= k < |values| ==> values[k] == old(localSearch)
    {
      var i := 0;
      while i < |values|
        invariant 0 <= i <= |values|
        invariant Valid() && !isInitialMount && dispatched == old(dispatched)
        invariant localSearch == if i == 0 then old(localSearch) else values[i - 1]
        invariant pending.None? <==> old(pending).None? && forall k :: 0 <= k < i ==> values[k] == old(localSearch)
      {
        Change(values[i]);
        i := i + 1;
      }
    }

    /** A burst followed by the debounce delay dispatches the search text and
        one fetch, both for the last text typed, or nothing when the text never
        changed and no timer was armed. */
    method TypeThenWait(values: seq<string>)
      requires Valid() && !isInitialMount
      modifies this
      ensures Valid() && pending == None
      ensures localSearch == if |values| == 0 then old(localSearch) else values[|values| - 1]
      ensures dispatched == old(dispatched) +
        (if old(pending).None? && forall k :: 0 <= k < |values| ==> values[k] == old(localSearch) then []
         else [SetSearch(localSearch), Fetch(SearchParams(localSearch))])
    {
      Type(values);
      TimerFires();
    }
  }
}
