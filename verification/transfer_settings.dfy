/**
 * The transfer plugin's settings store: the typed settings record, its
 * defaults, the recursive `deepMerge` that lays a saved JSON value over the
 * defaults, and the manager object whose `settings` field `load` and `reset`
 * assign.
 */
module TransferSettings {
  import opened Js
  import opened Json

  datatype Rotation = Sequential | PerCycle | RandomRotation

  /** `{ enabled, amount }` */
  datatype RandomFloor = RandomFloor(enabled: bool, amount: int)

  /** `{ min, max }` */
  datatype Range = Range(min: int, max: int)

  datatype SearchSettings = SearchSettings(
    enableDryBuy: bool,
    filterRotation: Rotation,
    randomMinBid: RandomFloor,
    randomMinBuy: RandomFloor,
    enableWinSound: bool,
    enableFailSound: bool,
    enableErrorSound: bool)

  datatype SafetySettings = SafetySettings(
    delayBetweenSearches: Range,
    enabledCycles: bool,
    cyclesCount: Range,
    delayBetweenCycles: Range)

  datatype Settings = Settings(search: SearchSettings, safety: SafetySettings)

  /** The defaults: dry buy and both random floors off, sequential rotation, every range positive and ordered. */
  function DefaultSettings(): (d: Settings)
    ensures !d.search.enableDryBuy && d.search.filterRotation == Sequential
    ensures !d.search.randomMinBid.enabled && !d.search.randomMinBuy.enabled
    ensures 0 < d.safety.delayBetweenSearches.min <= d.safety.delayBetweenSearches.max
    ensures 0 < d.safety.cyclesCount.min <= d.safety.cyclesCount.max
    ensures 0 < d.safety.delayBetweenCycles.min <= d.safety.delayBetweenCycles.max
  {
    Settings(
      SearchSettings(false, Sequential, RandomFloor(false, 300), RandomFloor(false, 300), true, true, true),
      SafetySettings(Range(2, 6), true, Range(10, 15), Range(10, 15)))
  }

  // ---------------------------------------------------------------------
  // The settings as the JSON value the store holds

  function RotationJson(r: Rotation): (j: Json)
    ensures j.JStr?
  {
    match r
    case Sequential => JStr("sequential")
    case PerCycle => JStr("per-cycle")
    case RandomRotation => JStr("random")
  }

  function FloorJson(f: RandomFloor): Json {
    JObj(map["enabled" := JBool(f.enabled), "amount" := JNum(f.amount as real)])
  }

  function RangeJson(r: Range): Json {
    JObj(map["min" := JNum(r.min as real), "max" := JNum(r.max as real)])
  }

  function SearchJson(s: SearchSettings): Json {
    JObj(map[
      "enableDryBuy" := JBool(s.enableDryBuy),
      "filterRotation" := RotationJson(s.filterRotation),
      "randomMinBid" := FloorJson(s.randomMinBid),
      "randomMinBuy" := FloorJson(s.randomMinBuy),
      "enableWinSound" := JBool(s.enableWinSound),
      "enableFailSound" := JBool(s.enableFailSound),
      "enableErrorSound" := JBool(s.enableErrorSound)])
  }

  function SafetyJson(s: SafetySettings): Json {
    JObj(map[
      "delayBetweenSearches" := RangeJson(s.delayBetweenSearches),
      "enabledCycles" := JBool(s.enabledCycles),
      "cyclesCount" := RangeJson(s.cyclesCount),
      "delayBetweenCycles" := RangeJson(s.delayBetweenCycles)])
  }

  function ToJson(s: Settings): Json {
    JObj(map["search" := SearchJson(s.search), "safety" := SafetyJson(s.safety)])
  }

  // ---------------------------------------------------------------------
  // deepMerge

  /** `target[key] || {}` */
  function MergeBase(target: Json, key: string): Json {
    var t := Entries(target);
    if key in t && Truthy(t[key]) then t[key] else JObj(map[])
  }

  /**
   * `deepMerge(target, source)`: a fresh object holding the target's own
   * properties, where every key the source enumerates either recurses (the
   * source value is a plain object) or overrides (any other value).
   */
  function DeepMerge(target: Json, source: Json): (r: Json)
    ensures r.JObj?
    ensures r.fields.Keys == Entries(target).Keys + Entries(source).Keys
    decreases source
  {
    var t := Entries(target);
    var s := Entries(source);
    JObj(map k | k in t.Keys + s.Keys ::
      if k in s then
        (if IsPlainObject(s[k]) then DeepMerge(MergeBase(target, k), s[k]) else s[k])
      else t[k])
  }

  /** A key the source does not enumerate keeps the target's value. */
  lemma MergeKeepsMissing(target: Json, source: Json, key: string)
    requires key in Entries(target) && key !in Entries(source)
    ensures DeepMerge(target, source).fields[key] == Entries(target)[key]
  {
  }

  /** A plain-object source value is merged into `target[key] || {}`. */
  lemma MergeRecurses(target: Json, source: Json, key: string)
    requires key in Entries(source) && Entries(source)[key].JObj?
    ensures DeepMerge(target, source).fields[key] == DeepMerge(MergeBase(target, key), Entries(source)[key])
  {
  }

  /** Every other source value, including `false`, `0`, `null` and arrays, overrides. */
  lemma MergeOverrides(target: Json, source: Json, key: string)
    requires key in Entries(source) && !Entries(source)[key].JObj?
    ensures DeepMerge(target, source).fields[key] == Entries(source)[key]
  {
  }

  /** Merging an object into `{}` rebuilds that object. */
  lemma {:induction false} MergeIntoEmpty(source: Json)
    requires source.JObj?
    ensures DeepMerge(JObj(map[]), source) == source
    decreases source
  {
    var r := DeepMerge(JObj(map[]), source);
    forall k | k in source.fields
      ensures r.fields[k] == source.fields[k]
    {
      if source.fields[k].JObj? {
        assert source.fields[k] == Entries(source)[k];
        MergeIntoEmpty(source.fields[k]);
      }
    }
  }

  /** Merging the same source a second time changes nothing. */
  lemma {:induction false} MergeIdempotent(target: Json, source: Json)
    ensures DeepMerge(DeepMerge(target, source), source) == DeepMerge(target, source)
    decreases source, 1
  {
    var once := DeepMerge(target, source);
    var twice := DeepMerge(once, source);
    forall k | k in twice.fields
      ensures twice.fields[k] == once.fields[k]
    {
      MergeIdempotentAt(target, source, k);
    }
  }

  lemma {:induction false} MergeIdempotentAt(target: Json, source: Json, k: string)
    requires k in DeepMerge(DeepMerge(target, source), source).fields
    ensures DeepMerge(DeepMerge(target, source), source).fields[k] == DeepMerge(target, source).fields[k]
    decreases source, 0
  {
    var once := DeepMerge(target, source);
    var s := Entries(source);
    if k in s && s[k].JObj? {
      assert MergeBase(once, k) == once.fields[k];
      MergeIdempotent(MergeBase(target, k), s[k]);
    }
  }

  /**
   * `source` determines the whole merge: it is an object, the target has no
   * key it lacks, and the same holds below every plain-object value.
   */
  predicate Covers(source: Json, target: Json)
    decreases source
  {
    source.JObj? && Entries(target).Keys <= source.fields.Keys &&
    forall k :: k in Entries(source) && Entries(source)[k].JObj? ==>
      Covers(Entries(source)[k], MergeBase(target, k))
  }

  lemma {:induction false} MergeCovered(target: Json, source: Json)
    requires Covers(source, target)
    ensures DeepMerge(target, source) == source
    decreases source
  {
    var r := DeepMerge(target, source);
    forall k | k in source.fields
      ensures r.fields[k] == source.fields[k]
    {
      if source.fields[k].JObj? {
        MergeCovered(MergeBase(target, k), source.fields[k]);
      }
    }
  }

  /** One level of `MergeCovered`: every plain-object child already merges to itself. */
  lemma MergeChildren(target: Json, source: Json)
    requires source.JObj? && Entries(target).Keys <= source.fields.Keys
    requires forall k :: k in source.fields && source.fields[k].JObj? ==>
      DeepMerge(MergeBase(target, k), source.fields[k]) == source.fields[k]
    ensures DeepMerge(target, source) == source
  {
    var r := DeepMerge(target, source);
    assert r.fields.Keys == source.fields.Keys;
    forall k | k in source.fields
      ensures r.fields[k] == source.fields[k]
    {
      if source.fields[k].JObj? {
        MergeRecurses(target, source, k);
      } else {
        MergeOverrides(target, source, k);
      }
    }
    assert r.fields == source.fields;
  }

  lemma MergeFloor(a: RandomFloor, b: RandomFloor)
    ensures DeepMerge(FloorJson(a), FloorJson(b)) == FloorJson(b)
  {
    MergeChildren(FloorJson(a), FloorJson(b));
  }

  lemma MergeRange(a: Range, b: Range)
    ensures DeepMerge(RangeJson(a), RangeJson(b)) == RangeJson(b)
  {
    MergeChildren(RangeJson(a), RangeJson(b));
  }

  lemma SearchObjectKeys(b: SearchSettings, k: string)
    requires k in SearchJson(b).fields && SearchJson(b).fields[k].JObj?
    ensures k == "randomMinBid" || k == "randomMinBuy"
  {
  }

  lemma MergeSearch(a: SearchSettings, b: SearchSettings)
    ensures DeepMerge(SearchJson(a), SearchJson(b)) == SearchJson(b)
  {
    var t, s := SearchJson(a), SearchJson(b);
    forall k | k in s.fields && s.fields[k].JObj?
      ensures DeepMerge(MergeBase(t, k), s.fields[k]) == s.fields[k]
    {
      MergeSearchField(a, b, k);
    }
    MergeChildren(t, s);
  }

  /** Each nested object of the search settings merges onto the matching default object as itself. */
  lemma MergeSearchField(a: SearchSettings, b: SearchSettings, k: string)
    requires k in SearchJson(b).fields && SearchJson(b).fields[k].JObj?
    ensures DeepMerge(MergeBase(SearchJson(a), k), SearchJson(b).fields[k]) == SearchJson(b).fields[k]
  {
    var t, s := SearchJson(a), SearchJson(b);
    SearchObjectKeys(b, k);
    if k == "randomMinBid" {
      assert s.fields[k] == FloorJson(b.randomMinBid) && t.fields[k] == FloorJson(a.randomMinBid);
      MergeFloor(a.randomMinBid, b.randomMinBid);
    } else {
      assert s.fields[k] == FloorJson(b.randomMinBuy) && t.fields[k] == FloorJson(a.randomMinBuy);
      MergeFloor(a.randomMinBuy, b.randomMinBuy);
    }
  }

  lemma SafetyObjectKeys(b: SafetySettings, k: string)
    requires k in SafetyJson(b).fields && SafetyJson(b).fields[k].JObj?
    ensures k == "delayBetweenSearches" || k == "cyclesCount" || k == "delayBetweenCycles"
  {
  }

  lemma MergeSafety(a: SafetySettings, b: SafetySettings)
    ensures DeepMerge(SafetyJson(a), SafetyJson(b)) == SafetyJson(b)
  {
    var t, s := SafetyJson(a), SafetyJson(b);
    forall k | k in s.fields && s.fields[k].JObj?
      ensures DeepMerge(MergeBase(t, k), s.fields[k]) == s.fields[k]
    {
      SafetyObjectKeys(b, k);
      if k == "delayBetweenSearches" {
        assert s.fields[k] == RangeJson(b.delayBetweenSearches) && t.fields[k] == RangeJson(a.delayBetweenSearches);
        MergeRange(a.delayBetweenSearches, b.delayBetweenSearches);
      } else if k == "cyclesCount" {
        assert s.fields[k] == RangeJson(b.cyclesCount) && t.fields[k] == RangeJson(a.cyclesCount);
        MergeRange(a.cyclesCount, b.cyclesCount);
      } else {
        assert s.fields[k] == RangeJson(b.delayBetweenCycles) && t.fields[k] == RangeJson(a.delayBetweenCycles);
        MergeRange(a.delayBetweenCycles, b.delayBetweenCycles);
      }
    }
    MergeChildren(t, s);
  }

  /**
   * Settings saved from a complete settings record load back unchanged,
   * whatever the defaults they are merged over.
   */
  lemma MergeSavedSettings(defaults: Settings, saved: Settings)
    ensures DeepMerge(ToJson(defaults), ToJson(saved)) == ToJson(saved)
  {
    var t, s := ToJson(defaults), ToJson(saved);
    MergeSearch(defaults.search, saved.search);
    MergeSafety(defaults.safety, saved.safety);
    assert MergeBase(t, "search") == SearchJson(defaults.search);
    assert MergeBase(t, "safety") == SafetyJson(defaults.safety);
    MergeChildren(t, s);
  }

  // ---------------------------------------------------------------------
  // The manager

  /** A settings object; several fields may refer to the same one. */
  class SettingsObject {
    var value: Json

    constructor (value: Json)
      ensures this.value == value
    {
      this.value := value;
    }
  }

  /**
   * What `localStorage` holds under the settings key: nothing (or the empty
   * string), or a saved text together with what `JSON.parse` makes of it
   * (`None` when it throws).
   */
  datatype Stored = Nothing | Saved(parsed: Option<Json>)

  class SettingsManager {
    var settings: SettingsObject
    const defaultSettings: SettingsObject
    var storage: Stored

    /**
     * Field initialisation. The source's constructor then calls `Load`,
     * which the model keeps as a separate step so that a parse failure can
     * be reported.
     */
    constructor (storage: Stored)
      ensures fresh(defaultSettings) && defaultSettings.value == ToJson(DefaultSettings())
      ensures settings == defaultSettings && this.storage == storage
    {
      var d := new SettingsObject(ToJson(DefaultSettings()));
      defaultSettings := d;
      settings := d;
      this.storage := storage;
    }

    /**
     * `load`: nothing saved leaves `settings` referring to the defaults
     * object itself; a saved value is merged over the defaults into a fresh
     * object; a text that does not parse throws (`ok` is false).
     */
    method Load() returns (ok: bool)
      modifies this
      ensures storage == old(storage)
      ensures storage.Nothing? ==> ok && settings == defaultSettings
      ensures storage.Saved? && storage.parsed.None? ==> !ok && settings == old(settings)
      ensures storage.Saved? && storage.parsed.Some? ==>
        ok && fresh(settings) && settings.value == DeepMerge(defaultSettings.value, storage.parsed.value)
    {
      match storage
      case Nothing =>
        settings := defaultSettings;
        ok := true;
      case Saved(parsed) =>
        if parsed.None? {
          ok := false;
        } else {
          settings := new SettingsObject(DeepMerge(defaultSettings.value, parsed.value));
          ok := true;
        }
    }

    /** `save`: the stored text parses back to the current settings. */
    method Save()
      modifies this
      ensures storage == Saved(Some(settings.value))
      ensures settings == old(settings)
    {
      storage := Saved(Some(settings.value));
    }

    /** `reset`: `settings` refers to the defaults object again, and is saved. */
    method Reset()
      modifies this
      ensures settings == defaultSettings
      ensures storage == Saved(Some(defaultSettings.value))
    {
      settings := defaultSettings;
      Save();
    }

    /**
     * An in-place edit of one setting, as the settings panel performs it
     * (`settings.search.enableDryBuy = checked` and the like).
     */
    method Edit(section: string, key: string, v: Json)
      requires settings.value.JObj? && section in settings.value.fields
      requires settings.value.fields[section].JObj?
      modifies settings
      ensures settings.value == JObj(old(settings.value.fields)[section :=
        JObj(old(settings.value.fields[section].fields)[key := v])])
    {
      var sec := settings.value.fields[section];
      settings.value := JObj(settings.value.fields[section := JObj(sec.fields[key := v])]);
    }

    /** `reset` as intended: a fresh copy of the default values. */
    method ResetToDefaults()
      modifies this
      ensures fresh(settings) && settings.value == ToJson(DefaultSettings())
      ensures storage == Saved(Some(ToJson(DefaultSettings())))
    {
      settings := new SettingsObject(ToJson(DefaultSettings()));
      Save();
    }
  }

  /**
   * With nothing saved, an edit followed by `reset` keeps the edit: `load`
   * made `settings` and `defaultSettings` the same object, so the edit
   * changed the defaults too.
   */
  method ResetAfterEditKeepsEdit() returns (m: SettingsManager)
    ensures m.settings.value != ToJson(DefaultSettings())
  {
    m := new SettingsManager(Nothing);
    var ok := m.Load();
    m.Edit("search", "enableDryBuy", JBool(true));
    m.Reset();
    assert m.settings.value.fields["search"].fields["enableDryBuy"] == JBool(true);
  }

  /** The same sequence with the intended reset restores the defaults. */
  method ResetToDefaultsAfterEdit() returns (m: SettingsManager)
    ensures m.settings.value == ToJson(DefaultSettings())
  {
    m := new SettingsManager(Nothing);
    var ok := m.Load();
    m.Edit("search", "enableDryBuy", JBool(true));
    m.ResetToDefaults();
  }
}
