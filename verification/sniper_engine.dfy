/**
 * The stand-alone sniper engine: a running flag, a cycle counter, a
 * consecutive-failure budget and the set of trade ids seen since the last
 * stop. Each search loads the next selected filter into the game's search
 * view, draws a random maximum bid, and on the response buys the results it
 * has not seen; the next search is armed after a delay picked from a list.
 *
 * The game's search view is a parameter: `Some(criteria)` when the view
 * controller can be reached, `None` when reaching it throws. Timers are the
 * `timerPending` flag plus a returned delay, and each `Math.random()` draw
 * is a parameter in [0, 1). A search response has the same shape as the
 * transfer sniper's, and the result loop is the same loop, so both are
 * shared with that module.
 */
module SniperEngine {
  import opened Js
  import opened CoreFilters
  import S = SniperService

  datatype SniperSettings = SniperSettings(
    isDryRun: bool,
    isSoundEnabled: bool,
    searchDelays: seq<int>,
    cycleCount: int,
    cyclePause: seq<int>)

  const MaxConsecutiveFailures := 3
  const MaxResultsSafeguard := 5

  /** `Math.round((r * (800000 - 300000) + 300000) / 1000) * 1000`. */
  function RandomMaxBid(r: real): (b: int)
    requires 0.0 <= r < 1.0
    ensures 300000 <= b <= 800000 && b % 1000 == 0
  {
    var thousands := Round((r * 500000.0 + 300000.0) / 1000.0);
    assert 300 <= thousands <= 800;
    thousands * 1000
  }

  /**
   * `list[Math.floor(r * list.length)]` used as a timeout: an element of the
   * list, or 0 for an empty list (the timeout is then `undefined`, which
   * fires at once).
   */
  function PickDelay(list: seq<int>, r: real): (d: int)
    requires 0.0 <= r < 1.0
    ensures list != [] ==> d in list
    ensures list == [] ==> d == 0
  {
    if list == [] then 0 else list[S.RandomIndex(r, |list|)]
  }

  /** The filter `loadNextFilterForSearch` loads: the selected one under the cursor, if there is one. */
  function FilterToLoad(selected: seq<Option<FilterData>>, cursor: nat): Option<FilterData> {
    if |selected| == 0 then None else selected[cursor % |selected|]
  }

  /**
   * The search view's criteria after `loadNextFilterForSearch`: the loaded
   * filter's criteria with both bid bounds cleared, or the view as it was
   * when there is no filter to load. An unreachable view stays unreachable.
   */
  function LoadedView(filter: Option<FilterData>, view: Option<Criteria>): (v: Option<Criteria>)
    ensures v.None? <==> view.None?
    ensures v.Some? && filter.Some? ==>
      && v.value.minBid == 0 && v.value.maxBid == 0
      && v.value.minBuy == filter.value.searchCriteria.minBuy && v.value.maxBuy == filter.value.searchCriteria.maxBuy
    ensures filter.None? ==> v == view
  {
    if view.None? then None
    else if filter.None? then view
    else Some(filter.value.searchCriteria.(maxBid := 0, minBid := 0))
  }

  /** The criteria a search is sent with: the view's, with `minBid` 0 and a random `maxBid`. */
  function SearchCriteria(loaded: Criteria, r: real): (c: Criteria)
    requires 0.0 <= r < 1.0
    ensures c.minBid == 0 && 300000 <= c.maxBid <= 800000 && c.maxBid % 1000 == 0
    ensures c.minBuy == loaded.minBuy && c.maxBuy == loaded.maxBuy
  {
    loaded.(minBid := 0, maxBid := RandomMaxBid(r))
  }

  class SniperEngine {
    var settings: SniperSettings
    var isSearchInProgress: bool
    /** A search timeout is armed and has not fired yet. */
    var timerPending: bool
    var currentCycleCount: nat
    var consecutiveFailures: nat
    var seenTradeIds: set<int>
    /** The trade ids handed to `buyItem` since the last stop, in order. */
    ghost var bought: seq<int>
    const filterManager: FilterManager

    /** No trade id is bought twice between two stops, and every bought id has been seen. */
    ghost predicate Valid()
      reads this
    {
      S.BoughtOnce(bought, seenTradeIds)
    }

    /** A stopped engine has no armed timer. */
    ghost predicate Quiet()
      reads this
    {
      !isSearchInProgress ==> !timerPending
    }

    constructor (settings: SniperSettings, filterManager: FilterManager)
      ensures this.settings == settings && this.filterManager == filterManager
      ensures !isSearchInProgress && !timerPending
      ensures currentCycleCount == 0 && consecutiveFailures == 0 && seenTradeIds == {}
      ensures Valid() && Quiet()
    {
      this.settings := settings;
      this.filterManager := filterManager;
      isSearchInProgress := false;
      timerPending := false;
      currentCycleCount := 0;
      consecutiveFailures := 0;
      seenTradeIds := {};
      bought := [];
    }

    /** `updateSettings` (the sound switch is left out). */
    method UpdateSettings(newSettings: SniperSettings)
      modifies this
      ensures settings == newSettings
      ensures isSearchInProgress == old(isSearchInProgress) && timerPending == old(timerPending)
      ensures currentCycleCount == old(currentCycleCount) && consecutiveFailures == old(consecutiveFailures)
      ensures seenTradeIds == old(seenTradeIds) && bought == old(bought)
    {
      settings := newSettings;
    }

    /**
     * `stop`: false when not running; otherwise the engine stops, the
     * timeout is cleared and the seen trade ids are forgotten.
     */
    method Stop() returns (stopped: bool)
      modifies this
      ensures stopped <==> old(isSearchInProgress)
      ensures !stopped ==> unchanged(this)
      ensures stopped ==> !isSearchInProgress && !timerPending && seenTradeIds == {} && bought == []
      ensures settings == old(settings)
      ensures currentCycleCount == old(currentCycleCount) && consecutiveFailures == old(consecutiveFailures)
    {
      if !isSearchInProgress {
        return false;
      }
      isSearchInProgress := false;
      timerPending := false;
      seenTradeIds := {};
      bought := [];
      return true;
    }

    /**
     * `loadNextFilterForSearch`: with a selected filter under the cursor,
     * its criteria are loaded into the view (when the view can be reached)
     * and the cursor moves on; otherwise nothing happens. The result is the
     * view's criteria afterwards.
     */
    method LoadNextFilterForSearch(view: Option<Criteria>) returns (loaded: Option<Criteria>)
      modifies filterManager
      ensures var filter := FilterToLoad(old(filterManager.GetSelectedFilters()), old(filterManager.currentFilterIndex));
        && loaded == LoadedView(filter, view)
        && filterManager.currentFilterIndex == old(filterManager.currentFilterIndex) + (if filter.Some? then 1 else 0)
      ensures filterManager.savedFilters == old(filterManager.savedFilters)
      ensures filterManager.selectedFilterIndices == old(filterManager.selectedFilterIndices)
      ensures filterManager.editingFilterId == old(filterManager.editingFilterId)
    {
      var selectedFilters := filterManager.GetSelectedFilters();
      if |selectedFilters| == 0 {
        return view;
      }
      var filter := filterManager.GetCurrentFilter();
      if filter.None? {
        return view;
      }
      loaded := view;
      if view.Some? {
        loaded := Some(filter.value.searchCriteria.(maxBid := 0, minBid := 0));
      }
      filterManager.MoveToNextFilter();
    }

    /**
     * `performSearch`: nothing when not running. Otherwise the next filter
     * is loaded; without reachable search criteria the engine stops, else
     * a search is sent with `minBid` 0 and a random `maxBid`.
     */
    method PerformSearch(view: Option<Criteria>, r: real) returns (search: Option<Criteria>)
      requires 0.0 <= r < 1.0
      requires Valid()
      modifies this, filterManager
      ensures Valid()
      ensures !old(isSearchInProgress) ==> search.None? && unchanged(this) && unchanged(filterManager)
      ensures old(isSearchInProgress) ==>
        var filter := FilterToLoad(old(filterManager.GetSelectedFilters()), old(filterManager.currentFilterIndex));
        && filterManager.currentFilterIndex == old(filterManager.currentFilterIndex) + (if filter.Some? then 1 else 0)
        && (view.None? ==> search.None? && !isSearchInProgress && !timerPending && seenTradeIds == {})
        && (view.Some? ==>
              && search == Some(SearchCriteria(LoadedView(filter, view).value, r))
              && isSearchInProgress && timerPending == old(timerPending) && seenTradeIds == old(seenTradeIds))
      ensures filterManager.savedFilters == old(filterManager.savedFilters)
      ensures filterManager.selectedFilterIndices == old(filterManager.selectedFilterIndices)
      ensures settings == old(settings)
      ensures currentCycleCount == old(currentCycleCount) && consecutiveFailures == old(consecutiveFailures)
    {
      if !isSearchInProgress {
        return None;
      }
      var loaded := LoadNextFilterForSearch(view);
      if loaded.None? {
        var _ := Stop();
        return None;
      }
      search := Some(SearchCriteria(loaded.value, r));
    }

    /**
     * `start`: false when already running. Otherwise the engine runs with
     * the cycle count and the filter cursor at 0, and the first search is
     * performed. The failure count and the seen trade ids are kept.
     */
    method Start(view: Option<Criteria>, r: real) returns (started: bool, search: Option<Criteria>)
      requires 0.0 <= r < 1.0
      requires Valid()
      modifies this, filterManager
      ensures Valid()
      ensures started <==> !old(isSearchInProgress)
      ensures !started ==> search.None? && unchanged(this) && unchanged(filterManager)
      ensures started ==>
        var filter := FilterToLoad(old(filterManager.GetSelectedFilters()), 0);
        && currentCycleCount == 0 && consecutiveFailures == old(consecutiveFailures)
        && filterManager.currentFilterIndex == (if filter.Some? then 1 else 0)
        && (view.None? ==> search.None? && !isSearchInProgress && !timerPending && seenTradeIds == {})
        && (view.Some? ==>
              && search == Some(SearchCriteria(LoadedView(filter, view).value, r))
              && isSearchInProgress && timerPending == old(timerPending) && seenTradeIds == old(seenTradeIds))
      ensures settings == old(settings)
    {
      if isSearchInProgress {
        return false, None;
      }
      isSearchInProgress := true;
      currentCycleCount := 0;
      filterManager.ResetFilterIndex();
      search := PerformSearch(view, r);
      started := true;
    }

    /** The armed timeout fires and runs `performSearch`. */
    method OnTimer(view: Option<Criteria>, r: real) returns (search: Option<Criteria>)
      requires timerPending && 0.0 <= r < 1.0
      requires Valid()
      modifies this, filterManager
      ensures Valid()
      ensures !old(isSearchInProgress) ==> search.None? && !timerPending
      ensures old(isSearchInProgress) && view.Some? ==>
        var filter := FilterToLoad(old(filterManager.GetSelectedFilters()), old(filterManager.currentFilterIndex));
        search == Some(SearchCriteria(LoadedView(filter, view).value, r)) && isSearchInProgress && !timerPending
      ensures settings == old(settings)
      ensures currentCycleCount == old(currentCycleCount) && consecutiveFailures == old(consecutiveFailures)
    {
      timerPending := false;
      search := PerformSearch(view, r);
    }

    /**
     * `handleSearchError`: a captcha or maintenance status stops at once
     * and leaves the failure count alone; any other failure counts, and the
     * third in a row stops. The result says whether it stopped.
     */
    method HandleSearchError(response: S.Response) returns (stopped: bool)
      requires isSearchInProgress
      modifies this
      ensures S.IsCaptcha(response) || S.IsMaintenance(response) ==>
        stopped && consecutiveFailures == old(consecutiveFailures)
      ensures !S.IsCaptcha(response) && !S.IsMaintenance(response) ==>
        consecutiveFailures == old(consecutiveFailures) + 1 && (stopped <==> consecutiveFailures >= MaxConsecutiveFailures)
      ensures stopped ==> !isSearchInProgress && !timerPending && seenTradeIds == {} && bought == []
      ensures !stopped ==>
        && isSearchInProgress && timerPending == old(timerPending)
        && seenTradeIds == old(seenTradeIds) && bought == old(bought)
      ensures settings == old(settings) && currentCycleCount == old(currentCycleCount)
    {
      var shouldStopBot := false;
      if S.IsCaptcha(response) {
        shouldStopBot := true;
      } else if S.IsMaintenance(response) {
        shouldStopBot := true;
      } else {
        consecutiveFailures := consecutiveFailures + 1;
        if consecutiveFailures >= MaxConsecutiveFailures {
          shouldStopBot := true;
        }
      }
      if shouldStopBot {
        var _ := Stop();
        return true;
      }
      return false;
    }

    /**
     * `processSearchResults`: more than five results stop the engine and
     * buy nothing; otherwise every result with an unseen trade id is marked
     * seen and bought, in order. A dry run never bids.
     */
    method ProcessSearchResults(items: seq<S.Auction>) returns (buys: seq<S.BuyAction>)
      requires isSearchInProgress && Valid()
      modifies this
      ensures Valid()
      ensures |items| > MaxResultsSafeguard ==>
        buys == [] && !isSearchInProgress && !timerPending && seenTradeIds == {}
      ensures |items| <= MaxResultsSafeguard ==>
        && buys == S.BuysFor(S.Fresh(old(seenTradeIds), items), settings.isDryRun)
        && seenTradeIds == old(seenTradeIds) + S.Ids(items)
        && isSearchInProgress && timerPending == old(timerPending)
      ensures settings == old(settings)
      ensures currentCycleCount == old(currentCycleCount) && consecutiveFailures == old(consecutiveFailures)
    {
      if |items| > MaxResultsSafeguard {
        var _ := Stop();
        return [];
      }
      var seen, bs;
      ghost var b;
      seen, bs, b := S.BuyUnseen(seenTradeIds, items, settings.isDryRun, bought);
      seenTradeIds := seen;
      bought := b;
      buys := bs;
    }

    /**
     * `scheduleNextSearch`: the search is counted in the cycle; once the
     * count reaches the configured cycle length it starts over and the
     * delay comes from the cycle pauses, otherwise from the search delays.
     */
    method ScheduleNextSearch(r: real) returns (delay: int)
      requires 0.0 <= r < 1.0
      modifies this
      ensures var count := old(currentCycleCount) + 1;
        var pause := count >= settings.cycleCount;
        && currentCycleCount == (if pause then 0 else count)
        && delay == PickDelay(if pause then settings.cyclePause else settings.searchDelays, r)
      ensures timerPending
      ensures settings == old(settings) && isSearchInProgress == old(isSearchInProgress)
      ensures consecutiveFailures == old(consecutiveFailures)
      ensures seenTradeIds == old(seenTradeIds) && bought == old(bought)
    {
      currentCycleCount := currentCycleCount + 1;
      if currentCycleCount >= settings.cycleCount {
        currentCycleCount := 0;
        delay := PickDelay(settings.cyclePause, r);
      } else {
        delay := PickDelay(settings.searchDelays, r);
      }
      timerPending := true;
    }

    /**
     * `handleSearchResponse` as written. After a stop, nothing happens. A
     * success ends the failure streak and its results are processed (the
     * handler throws when there is no item list); a failure that does not
     * stop the engine buys nothing. Either way the next search is then
     * scheduled, even when result processing has just stopped the engine.
     */
    method HandleSearchResponse(response: S.Response, r: real) returns (outcome: S.Outcome)
      requires 0.0 <= r < 1.0
      requires Valid()
      modifies this
      ensures Valid()
      ensures !old(isSearchInProgress) ==> outcome == S.Ignored && unchanged(this)
      ensures old(isSearchInProgress) ==> outcome != S.Ignored
      ensures outcome == S.StoppedOnError <==>
        && old(isSearchInProgress) && !response.success
        && (S.IsCaptcha(response) || S.IsMaintenance(response) || old(consecutiveFailures) + 1 >= MaxConsecutiveFailures)
      ensures outcome == S.StoppedOnError ==> !isSearchInProgress && !timerPending && seenTradeIds == {}
      ensures outcome == S.NoItems <==> old(isSearchInProgress) && response.success && response.items.None?
      ensures old(isSearchInProgress) && response.success ==> consecutiveFailures == 0
      ensures outcome.Scheduled? ==>
        && timerPending
        && var count := old(currentCycleCount) + 1;
        && var pause := count >= settings.cycleCount;
        && currentCycleCount == (if pause then 0 else count)
        && outcome.delay == PickDelay(if pause then settings.cyclePause else settings.searchDelays, r)
      ensures outcome.Scheduled? && !response.success ==>
        && outcome.buys == [] && consecutiveFailures == old(consecutiveFailures) + 1
        && isSearchInProgress && seenTradeIds == old(seenTradeIds)
      ensures outcome.Scheduled? && response.success && |response.items.value| > MaxResultsSafeguard ==>
        outcome.buys == [] && !isSearchInProgress && seenTradeIds == {}
      ensures outcome.Scheduled? && response.success && |response.items.value| <= MaxResultsSafeguard ==>
        && outcome.buys == S.BuysFor(S.Fresh(old(seenTradeIds), response.items.value), settings.isDryRun)
        && isSearchInProgress && seenTradeIds == old(seenTradeIds) + S.Ids(response.items.value)
      ensures settings == old(settings)
    {
      if !isSearchInProgress {
        return S.Ignored;
      }
      var buys := [];
      if !response.success {
        var stopped := HandleSearchError(response);
        if stopped {
          return S.StoppedOnError;
        }
      } else {
        consecutiveFailures := 0;
        if response.items.None? {
          return S.NoItems;
        }
        buys := ProcessSearchResults(response.items.value);
      }
      var delay := ScheduleNextSearch(r);
      outcome := S.Scheduled(buys, delay);
    }

    /**
     * `handleSearchResponse` as evidently intended: it returns as soon as
     * result processing has stopped the engine, so a stopped engine never
     * arms another search.
     */
    method HandleSearchResponseGuarded(response: S.Response, r: real) returns (outcome: S.Outcome)
      requires 0.0 <= r < 1.0
      requires Valid() && Quiet()
      modifies this
      ensures Valid() && Quiet()
      ensures outcome.Scheduled? ==> isSearchInProgress && timerPending
    {
      if !isSearchInProgress {
        return S.Ignored;
      }
      var buys := [];
      if !response.success {
        var stopped := HandleSearchError(response);
        if stopped {
          return S.StoppedOnError;
        }
      } else {
        consecutiveFailures := 0;
        if response.items.None? {
          return S.NoItems;
        }
        buys := ProcessSearchResults(response.items.value);
        if !isSearchInProgress {
          return S.Ignored;
        }
      }
      var delay := ScheduleNextSearch(r);
      outcome := S.Scheduled(buys, delay);
    }
  }

  /**
   * Six results stop the engine, yet the handler still arms the next
   * search; a restart before that timeout fires leaves two searches
   * running side by side.
   */
  method SafeguardStopKeepsTimeout(settings: SniperSettings) returns (e: SniperEngine, first: Option<Criteria>, second: Option<Criteria>)
    ensures e.isSearchInProgress && first.Some? && second.Some?
  {
    var fm := new FilterManager([]);
    e := new SniperEngine(settings, fm);
    var view := Some(Criteria(0, 0, 0, 0));
    var started, search := e.Start(view, 0.0);
    var items := [S.Auction(1, 100), S.Auction(2, 100), S.Auction(3, 100), S.Auction(4, 100), S.Auction(5, 100), S.Auction(6, 100)];
    var outcome := e.HandleSearchResponse(S.Response(true, S.NoStatus, None, Some(items)), 0.0);
    assert !e.isSearchInProgress && e.timerPending;
    started, first := e.Start(view, 0.0);
    second := e.OnTimer(view, 0.0);
  }
}
