/**
 * The statistics panel: a table of named counters ("Searches", "Wins",
 * "Fails", ...). Each stat is a DOM item whose value text is the stored
 * string; the model keeps those texts in a map, next to the value each key
 * was first seeded with.
 */
module StaticService {
  import opened Js

  /** `Object.entries(initialStats)` folded into a map; a later entry wins. */
  function EntriesToMap(entries: seq<(string, string)>): (m: map<string, string>)
    ensures forall i :: 0 <= i < |entries| ==> entries[i].0 in m
    ensures forall k :: k in m ==> exists i :: 0 <= i < |entries| && entries[i] == (k, m[k])
  {
    if entries == [] then map[]
    else
      var init := entries[..|entries| - 1];
      var last := entries[|entries| - 1];
      var m := EntriesToMap(init)[last.0 := last.1];
      assert forall k :: k in m && k != last.0 ==> k in EntriesToMap(init);
      m
  }

  /** The text a stat shows, given the value texts on display. */
  function Shown(values: map<string, string>, key: string): string {
    if key in values && values[key] != "" then values[key] else "0"
  }

  /** The number a stat shows, given the value texts on display. */
  function CountIn(values: map<string, string>, key: string): int {
    ParseInt(Shown(values, key)).GetOr(0)
  }

  /** Showing the text of `n` under `key` makes that stat count `n` and leaves the others alone. */
  lemma CountAfterSet(values: map<string, string>, key: string, n: int)
    ensures CountIn(values[key := IntToString(n)], key) == n
    ensures forall k :: k != key ==> CountIn(values[key := IntToString(n)], k) == CountIn(values, k)
  {
    var text := IntToString(n);
    assert text != "";
    assert Shown(values[key := text], key) == text;
    ParseIntOfIntToString(n);
    assert forall k :: k != key ==> Shown(values[key := text], k) == Shown(values, k);
  }

  class StaticService {
    /** The value text of every stat item on display. */
    var values: map<string, string>
    /** The value each seeded stat started with. */
    var originalValues: map<string, string>

    /** `get`: the value text, with a missing key or an empty text reading as "0". */
    function Get(key: string): (v: string)
      reads this
      ensures key in values && values[key] != "" ==> v == values[key]
      ensures key !in values || values[key] == "" ==> v == "0"
      ensures v != ""
    {
      Shown(values, key)
    }

    /** `parseInt(get(key), 10) || 0`: the number a stat currently shows. */
    function Count(key: string): int
      reads this
    {
      CountIn(values, key)
    }

    /** The constructor: every initial stat is set and remembered as its original value. */
    constructor (initialStats: seq<(string, string)>)
      ensures values == EntriesToMap(initialStats)
      ensures originalValues == EntriesToMap(initialStats)
    {
      values := map[];
      originalValues := map[];
      new;
      var i := 0;
      while i < |initialStats|
        invariant 0 <= i <= |initialStats|
        invariant values == EntriesToMap(initialStats[..i])
        invariant originalValues == EntriesToMap(initialStats[..i])
      {
        var (key, value) := initialStats[i];
        assert initialStats[..i + 1][..i] == initialStats[..i];
        Set(key, value);
        originalValues := originalValues[key := value];
        i := i + 1;
      }
      assert initialStats[..i] == initialStats;
    }

    /** `set`: creates the item for a new key, or replaces the value text of an existing one. */
    method Set(key: string, value: string)
      modifies this
      ensures values == old(values)[key := value]
      ensures originalValues == old(originalValues)
    {
      values := values[key := value];
    }

    /** Shows the number `n`; the stat then counts `n`. */
    method SetNumber(key: string, n: int)
      modifies this
      ensures values == old(values)[key := IntToString(n)]
      ensures originalValues == old(originalValues)
      ensures Count(key) == n
      ensures forall k :: k != key ==> Count(k) == old(Count(k))
    {
      CountAfterSet(values, key, n);
      Set(key, IntToString(n));
    }

    /** `increment`: the shown number goes up by one. */
    method Increment(key: string)
      modifies this
      ensures values == old(values)[key := IntToString(old(Count(key)) + 1)]
      ensures originalValues == old(originalValues)
      ensures Count(key) == old(Count(key)) + 1
      ensures forall k :: k != key ==> Count(k) == old(Count(k))
    {
      var n := Count(key) + 1;
      SetNumber(key, n);
    }

    /** `decrement`: the shown number goes down by one, but never below 0. */
    method Decrement(key: string)
      modifies this
      ensures var n := old(Count(key)) - 1;
        values == old(values)[key := IntToString(if n > 0 then n else 0)]
      ensures originalValues == old(originalValues)
      ensures Count(key) >= 0
      ensures old(Count(key)) >= 1 ==> Count(key) == old(Count(key)) - 1
      ensures forall k :: k != key ==> Count(k) == old(Count(k))
    {
      var n := Count(key) - 1;
      var v := if n > 0 then n else 0;
      SetNumber(key, v);
    }

    /** `remove`: deletes only `key`'s item; nothing happens for an absent key. */
    method Remove(key: string)
      modifies this
      ensures values == old(values) - {key}
      ensures key !in old(values) ==> values == old(values)
      ensures originalValues == old(originalValues)
    {
      if key in values {
        values := values - {key};
      }
    }

    /**
     * `resetStat`, once its animation has finished: a seeded stat shows its
     * original value again. A key that was never seeded is left alone, and
     * so is a seeded key whose item was removed (the source then fails on
     * the missing item before changing anything).
     */
    method ResetStat(key: string)
      modifies this
      ensures key in old(originalValues) && key in old(values) ==>
        values == old(values)[key := old(originalValues)[key]]
      ensures key !in old(originalValues) || key !in old(values) ==> values == old(values)
      ensures originalValues == old(originalValues)
    {
      if key !in originalValues {
        return;
      }
      if key in values {
        values := values[key := originalValues[key]];
      }
    }
  }
}
