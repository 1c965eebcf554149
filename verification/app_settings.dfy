/**
 * The sniper page's settings record: search options (dry buy, sound, the
 * two random price floors) and safety options (delays and cycles), each
 * written by its own setter. Storage is an input: the constructor and
 * `Reset` take what storage returned, `None` when nothing parsed.
 */
module AppSettings {
  import opened Js

  datatype RandomFloor = RandomFloor(enabled: bool, amount: int)

  datatype Range = Range(min: int, max: int)

  datatype SearchOptions = SearchOptions(
    enableDryBuy: bool,
    enableSound: bool,
    randomMinBid: RandomFloor,
    randomMinBuy: RandomFloor)

  datatype SafetyOptions = SafetyOptions(
    delayBetweenSearches: Range,
    enabledCycles: bool,
    cyclesCount: Range,
    delayBetweenCycles: Range)

  datatype Settings = Settings(search: SearchOptions, safety: SafetyOptions)

  /** Every range runs from its minimum up to its maximum. */
  predicate RangesOrdered(s: Settings) {
    && s.safety.delayBetweenSearches.min <= s.safety.delayBetweenSearches.max
    && s.safety.cyclesCount.min <= s.safety.cyclesCount.max
    && s.safety.delayBetweenCycles.min <= s.safety.delayBetweenCycles.max
  }

  /**
   * The defaults: dry buy off, sound on, both random floors off at 150,
   * 4 to 7 seconds between searches, cycles on with 5 to 10 searches and
   * a 60 to 120 second pause.
   */
  function DefaultSettings(): (d: Settings)
    ensures RangesOrdered(d)
    ensures !d.search.enableDryBuy && d.search.enableSound && d.safety.enabledCycles
    ensures d.search.randomMinBid == d.search.randomMinBuy == RandomFloor(false, 150)
    ensures d.safety.delayBetweenSearches.min > 0 && d.safety.cyclesCount.min > 0
      && d.safety.delayBetweenCycles.min > d.safety.delayBetweenSearches.max
  {
    Settings(
      SearchOptions(false, true, RandomFloor(false, 150), RandomFloor(false, 150)),
      SafetyOptions(Range(4, 7), true, Range(5, 10), Range(60, 120)))
  }

  class SettingsManager {
    var settings: Settings

    /** Loads what storage holds, or the defaults when it holds nothing usable. */
    constructor (stored: Option<Settings>)
      ensures settings == stored.GetOr(DefaultSettings())
    {
      settings := stored.GetOr(DefaultSettings());
    }

    method EnableDryBuy(enabled: bool)
      modifies this
      ensures settings == old(settings).(search := old(settings).search.(enableDryBuy := enabled))
    {
      settings := settings.(search := settings.search.(enableDryBuy := enabled));
    }

    method EnableSound(enabled: bool)
      modifies this
      ensures settings == old(settings).(search := old(settings).search.(enableSound := enabled))
    {
      settings := settings.(search := settings.search.(enableSound := enabled));
    }

    /** Sets the flag; the amount changes only when one is supplied. */
    method UpdateRandomMinBid(enabled: bool, amount: Option<int>)
      modifies this
      ensures GetRandomMinBid() == RandomFloor(enabled, amount.GetOr(old(GetRandomMinBid()).amount))
      ensures settings == old(settings).(search := old(settings).search.(randomMinBid := GetRandomMinBid()))
    {
      var floor := settings.search.randomMinBid.(enabled := enabled);
      if amount.Some? {
        floor := floor.(amount := amount.value);
      }
      settings := settings.(search := settings.search.(randomMinBid := floor));
    }

    /** Sets the flag; the amount changes only when one is supplied. */
    method UpdateRandomMinBuy(enabled: bool, amount: Option<int>)
      modifies this
      ensures GetRandomMinBuy() == RandomFloor(enabled, amount.GetOr(old(GetRandomMinBuy()).amount))
      ensures settings == old(settings).(search := old(settings).search.(randomMinBuy := GetRandomMinBuy()))
    {
      var floor := settings.search.randomMinBuy.(enabled := enabled);
      if amount.Some? {
        floor := floor.(amount := amount.value);
      }
      settings := settings.(search := settings.search.(randomMinBuy := floor));
    }

    /** Stores the bounds as given: nothing checks that `min <= max`. */
    method UpdateDelayBetweenSearches(min: int, max: int)
      modifies this
      ensures GetDelayBetweenSearches() == Range(min, max)
      ensures settings == old(settings).(safety := old(settings).safety.(delayBetweenSearches := Range(min, max)))
      ensures RangesOrdered(old(settings)) ==> (RangesOrdered(settings) <==> min <= max)
    {
      settings := settings.(safety := settings.safety.(delayBetweenSearches := Range(min, max)));
    }

    method EnableCycles(enabled: bool)
      modifies this
      ensures GetCyclesEnabled() == enabled
      ensures settings == old(settings).(safety := old(settings).safety.(enabledCycles := enabled))
    {
      settings := settings.(safety := settings.safety.(enabledCycles := enabled));
    }

    /** Stores the bounds as given: nothing checks that `min <= max`. */
    method UpdateCyclesCount(min: int, max: int)
      modifies this
      ensures GetCyclesCount() == Range(min, max)
      ensures settings == old(settings).(safety := old(settings).safety.(cyclesCount := Range(min, max)))
      ensures RangesOrdered(old(settings)) ==> (RangesOrdered(settings) <==> min <= max)
    {
      settings := settings.(safety := settings.safety.(cyclesCount := Range(min, max)));
    }

    /** Stores the bounds as given: nothing checks that `min <= max`. */
    method UpdateDelayBetweenCycles(min: int, max: int)
      modifies this
      ensures GetDelayBetweenCycles() == Range(min, max)
      ensures settings == old(settings).(safety := old(settings).safety.(delayBetweenCycles := Range(min, max)))
      ensures RangesOrdered(old(settings)) ==> (RangesOrdered(settings) <==> min <= max)
    {
      settings := settings.(safety := settings.safety.(delayBetweenCycles := Range(min, max)));
    }

    function GetRandomMinBid(): RandomFloor
      reads this
    {
      settings.search.randomMinBid
    }

    function GetRandomMinBuy(): RandomFloor
      reads this
    {
      settings.search.randomMinBuy
    }

    function GetDelayBetweenSearches(): Range
      reads this
    {
      settings.safety.delayBetweenSearches
    }

    function GetCyclesEnabled(): bool
      reads this
    {
      settings.safety.enabledCycles
    }

    function GetCyclesCount(): Range
      reads this
    {
      settings.safety.cyclesCount
    }

    function GetDelayBetweenCycles(): Range
      reads this
    {
      settings.safety.delayBetweenCycles
    }

    /** Reloads from storage, exactly as the constructor does. */
    method Reset(stored: Option<Settings>)
      modifies this
      ensures settings == stored.GetOr(DefaultSettings())
    {
      settings := stored.GetOr(DefaultSettings());
    }
  }
}
