/**
 * The filter store of the search page: saved filters keyed by id, each
 * belonging to one search bucket, a set of selected ids per bucket, and a
 * readable name derived from how a filter's criteria differ from the
 * game's default criteria.
 *
 * Search criteria are the ordered entries of the criteria object
 * (`Object.entries` order). The game's default criteria, its current
 * search criteria and player, and `Date.now()` are parameters; storage is
 * left out.
 */
module Filters {
  import opened Js
  import opened Json
  import CoreFilters

  datatype SearchBucket = PLAYER | STAFF | CLUB | CONSUMABLE

  /** The entries of a search-criteria object, in their own order. */
  type Criteria = seq<(string, Json)>

  datatype Filter = Filter(
    id: string,
    name: string,
    searchBucket: SearchBucket,
    playerData: Option<CoreFilters.Player>,
    searchCriteria: Criteria,
    timestamp: int)

  // ---------------------------------------------------------------------
  // JavaScript comparisons and string conversion of criteria values

  /** `a === b`: primitives by value; two arrays or objects from different sources are never identical. */
  predicate StrictEquals(a: Json, b: Json) {
    match (a, b)
    case (JNull, JNull) => true
    case (JBool(x), JBool(y)) => x == y
    case (JNum(x), JNum(y)) => x == y
    case (JStr(x), JStr(y)) => x == y
    case _ => false
  }

  predicate Greater(j: Json, c: real) {
    ToNumber(j).Some? && ToNumber(j).value > c
  }

  predicate Less(j: Json, c: real) {
    ToNumber(j).Some? && ToNumber(j).value < c
  }

  /** `${v}` for a value; numbers are whole in search criteria. */
  function Text(j: Json): (r: string)
    ensures j.JArr? && |j.xs| == 1 && j.xs[0].JNull? ==> r == ""
    decreases j, 0
  {
    match j
    case JNull => "null"
    case JBool(b) => if b then "true" else "false"
    case JNum(n) => IntToString(n.Floor)
    case JStr(s) => s
    case JArr(xs) => Join(seq(|xs|, i requires 0 <= i < |xs| => ElementText(xs[i])), ",")
    case JObj(_) => "[object Object]"
  }

  /** An element as `Array.prototype.join` writes it: `null` is empty, anything else is `${v}`. */
  function ElementText(j: Json): (r: string)
    ensures j.JNull? ==> r == ""
    ensures j.JStr? ==> r == j.s
    decreases j, 1
  {
    if j.JNull? then "" else Text(j)
  }

  /** `v.toLocaleString()`. */
  function LocaleText(j: Json): string {
    if j.JNum? then ToLocaleString(j.n.Floor) else Text(j)
  }

  // ---------------------------------------------------------------------
  // Naming a filter

  const SkipFields: seq<string> := ["count", "offset", "_sort", "blockingRequests", "requests"]

  predicate IsPriceKey(key: string) {
    Includes(key, "Buy") || Includes(key, "Bid")
  }

  /** `value.length === other.length && value.every((v, i) => v === other[i])`. */
  predicate SameElements(xs: seq<Json>, ys: seq<Json>) {
    |xs| == |ys| && forall i :: 0 <= i < |xs| ==> StrictEquals(xs[i], ys[i])
  }

  /**
   * `hasSignificantChange`: whether a criteria entry differs from the
   * default (`None` when the default has no such key). Bookkeeping keys
   * never count, arrays are compared element by element, and a numeric
   * price bound counts exactly when it is positive.
   */
  function HasSignificantChange(key: string, value: Json, defaultValue: Option<Json>): (b: bool)
    ensures key in SkipFields ==> !b
    ensures key !in SkipFields && value.JArr? && defaultValue.Some? && defaultValue.value.JArr? ==>
      (b <==> !SameElements(value.xs, defaultValue.value.xs))
    ensures key !in SkipFields && value.JNum? && defaultValue.Some? && defaultValue.value.JNum? ==>
      (b <==> if IsPriceKey(key) then value.n > 0.0 else value.n != defaultValue.value.n)
    ensures key !in SkipFields && defaultValue.None? ==> b
    ensures defaultValue.Some? && StrictEquals(value, defaultValue.value) && !IsPriceKey(key) ==> !b
  {
    if key in SkipFields then false
    else if value.JArr? && defaultValue.Some? && defaultValue.value.JArr? then
      !SameElements(value.xs, defaultValue.value.xs)
    else if value.JNum? && defaultValue.Some? && defaultValue.value.JNum? then
      if IsPriceKey(key) then value.n > 0.0 else value.n != defaultValue.value.n
    else
      defaultValue.None? || !StrictEquals(value, defaultValue.value)
  }

  /** The keys `formatFieldChange` can render. */
  const FormattedKeys: set<string> := {
    "minBuy", "maxBuy", "nation", "league", "club", "level", "playStyle",
    "_position", "ovrMin", "ovrMax", "_authenticity", "rarities" }

  /**
   * `formatFieldChange`: a short label for a changed entry, or `None`
   * (`null`) for a key or value it does not render. Every label has the
   * form "Label: value".
   */
  function FormatFieldChange(key: string, value: Json): (r: Option<string>)
    ensures r.Some? ==> key in FormattedKeys && ':' in r.value
    ensures r.Some? && (key == "minBuy" || key == "maxBuy") ==> Greater(value, 0.0)
  {
    if key == "minBuy" && Greater(value, 0.0) then Some("Min: " + LocaleText(value))
    else if key == "maxBuy" && Greater(value, 0.0) then Some("Max: " + LocaleText(value))
    else if key == "nation" && Greater(value, -1.0) then Some("Nation: " + Text(value))
    else if key == "league" && Greater(value, -1.0) then Some("League: " + Text(value))
    else if key == "club" && Greater(value, -1.0) then Some("Club: " + Text(value))
    else if key == "level" && !StrictEquals(value, JStr("any")) then Some("Level: " + Text(value))
    else if key == "playStyle" && Greater(value, -1.0) then Some("PlayStyle: " + Text(value))
    else if key == "_position" && !StrictEquals(value, JStr("any")) then Some("Pos: " + Text(value))
    else if key == "ovrMin" && Greater(value, 45.0) then Some("OVR: " + Text(value) + "+")
    else if key == "ovrMax" && Less(value, 99.0) then Some("OVR: -" + Text(value))
    else if key == "_authenticity" && !StrictEquals(value, JStr("any")) then Some("Auth: " + Text(value))
    else if key == "rarities" && value.JArr? && |value.xs| > 0 then Some("Rarities: " + NatToString(|value.xs|))
    else None
  }

  /** The default value for `key`, or `None` (`undefined`). */
  function DefaultFor(defaults: map<string, Json>, key: string): Option<Json> {
    if key in defaults then Some(defaults[key]) else None
  }

  /** The label of one entry, when it is both significant and rendered. */
  function ChangeOf(entry: (string, Json), defaults: map<string, Json>): Option<string> {
    if HasSignificantChange(entry.0, entry.1, DefaultFor(defaults, entry.0)) then FormatFieldChange(entry.0, entry.1)
    else None
  }

  /** `ChangeOf` for the given defaults. */
  function ChangeFn(defaults: map<string, Json>): ((string, Json)) -> Option<string> {
    entry => ChangeOf(entry, defaults)
  }

  /** The labels of the significant, rendered entries, in entry order. */
  function Changes(criteria: Criteria, defaults: map<string, Json>): seq<string> {
    FilterMap(criteria, ChangeFn(defaults))
  }

  /** Every change label comes from an entry of a rendered key, and reads "Label: value". */
  lemma ChangesAreLabels(criteria: Criteria, defaults: map<string, Json>)
    ensures forall c :: c in Changes(criteria, defaults) ==> ':' in c
    ensures forall c :: c in Changes(criteria, defaults) ==>
      exists k :: 0 <= k < |criteria| && ChangeOf(criteria[k], defaults) == Some(c)
  {
    FilterMapFrom(criteria, ChangeFn(defaults));
    forall c | c in Changes(criteria, defaults)
      ensures ':' in c
    {
      var k :| 0 <= k < |criteria| && ChangeFn(defaults)(criteria[k]) == Some(c);
      assert ChangeOf(criteria[k], defaults) == Some(c);
    }
  }

  /** The changes a name built around a player keeps: the price bounds. */
  function PriceChanges(changes: seq<string>): seq<string> {
    if changes == [] then []
    else
      var c := changes[0];
      (if Includes(c, "Min:") || Includes(c, "Max:") then [c] else []) + PriceChanges(changes[1..])
  }

  predicate HasName(player: Option<CoreFilters.Player>) {
    player.Some? && player.value.firstName != ""
  }

  /**
   * The name for the collected changes: the player's label, with the price
   * changes after " | " when there are any; without a player, up to the
   * first four changes, or "Default Filter" when there are none.
   */
  function NameFor(changes: seq<string>, player: Option<CoreFilters.Player>): string {
    if HasName(player) then
      var base := CoreFilters.PlayerLabel(player.value);
      var prices := PriceChanges(changes);
      if |prices| > 0 then base + " | " + Join(prices, ", ") else base
    else if |changes| == 0 then "Default Filter"
    else Join(changes[..if |changes| < 4 then |changes| else 4], ", ")
  }

  lemma JoinKeepsColon(xs: seq<string>, sep: string)
    requires xs != [] && ':' in xs[|xs| - 1]
    ensures ':' in Join(xs, sep)
  {
    var last := xs[|xs| - 1];
    var i :| 0 <= i < |last| && last[i] == ':';
    if |xs| > 1 {
      var j := Join(xs, sep);
      var head := Join(xs[..|xs| - 1], sep) + sep;
      assert j == head + last;
      assert j[|head| + i] == ':';
    }
  }

  lemma LabelHasParenthesis(p: CoreFilters.Player)
    ensures '(' in CoreFilters.PlayerLabel(p)
  {
    var l := CoreFilters.PlayerLabel(p);
    var head := p.firstName + " " + p.lastName + " (";
    assert l[|head| - 1] == '(';
  }

  /** A filter is called "Default Filter" exactly when it names no player and changes nothing rendered. */
  lemma DefaultFilterName(criteria: Criteria, defaults: map<string, Json>, player: Option<CoreFilters.Player>)
    ensures NameFor(Changes(criteria, defaults), player) == "Default Filter" <==>
      !HasName(player) && Changes(criteria, defaults) == []
  {
    ChangesAreLabels(criteria, defaults);
    DefaultNameOfLabels(Changes(criteria, defaults), player);
  }

  /** For changes that are all labels, the name is "Default Filter" only when there is neither a player nor a change. */
  lemma DefaultNameOfLabels(changes: seq<string>, player: Option<CoreFilters.Player>)
    requires forall c :: c in changes ==> ':' in c
    ensures NameFor(changes, player) == "Default Filter" <==> !HasName(player) && changes == []
  {
    if HasName(player) {
      PlayerNameHasParenthesis(changes, player);
      assert '(' !in "Default Filter";
    } else if changes != [] {
      ChangesNameHasColon(changes, player);
      assert ':' !in "Default Filter";
    }
  }

  lemma PlayerNameHasParenthesis(changes: seq<string>, player: Option<CoreFilters.Player>)
    requires HasName(player)
    ensures '(' in NameFor(changes, player)
  {
    var name := NameFor(changes, player);
    var base := CoreFilters.PlayerLabel(player.value);
    LabelHasParenthesis(player.value);
    var i :| 0 <= i < |base| && base[i] == '(';
    var prices := PriceChanges(changes);
    if |prices| > 0 {
      assert name == base + (" | " + Join(prices, ", "));
    }
    assert name[i] == '(';
  }

  lemma ChangesNameHasColon(changes: seq<string>, player: Option<CoreFilters.Player>)
    requires forall c :: c in changes ==> ':' in c
    requires !HasName(player) && changes != []
    ensures ':' in NameFor(changes, player)
  {
    var shown := changes[..if |changes| < 4 then |changes| else 4];
    assert shown[|shown| - 1] in changes;
    JoinKeepsColon(shown, ", ");
  }

  /**
   * `getName`: the entries of the criteria are walked in order, collecting
   * the label of each significant, rendered change; the name is built from
   * those labels.
   */
  method GetName(criteria: Criteria, player: Option<CoreFilters.Player>, defaults: map<string, Json>)
    returns (name: string)
    ensures name == NameFor(Changes(criteria, defaults), player)
  {
    var changes := CollectChanges(criteria, defaults);
    name := NameFor(changes, player);
  }

  /** The loop of `getName`: the labels of the significant, rendered entries, in entry order. */
  method CollectChanges(criteria: Criteria, defaults: map<string, Json>) returns (changes: seq<string>)
    ensures changes == Changes(criteria, defaults)
  {
    changes := [];
    var i := 0;
    while i < |criteria|
      invariant 0 <= i <= |criteria|
      invariant changes == Changes(criteria[..i], defaults)
    {
      var displayName := ChangeOf(criteria[i], defaults);
      assert criteria[..i + 1] == criteria[..i] + [criteria[i]];
      FilterMapSnoc(criteria[..i], criteria[i], ChangeFn(defaults));
      assert ChangeFn(defaults)(criteria[i]) == displayName;
      if displayName.Some? {
        changes := changes + [displayName.value];
      }
      i := i + 1;
    }
    assert criteria[..i] == criteria;
  }

  // ---------------------------------------------------------------------
  // The store

  /** `filters.filter((f) => f.id !== id)`. */
  function WithoutId(filters: seq<Filter>, id: string): seq<Filter> {
    if filters == [] then []
    else (if filters[0].id != id then [filters[0]] else []) + WithoutId(filters[1..], id)
  }

  /** `filters.filter((f) => f.searchBucket !== bucket)`. */
  function OutsideBucket(filters: seq<Filter>, bucket: SearchBucket): seq<Filter> {
    if filters == [] then []
    else (if filters[0].searchBucket != bucket then [filters[0]] else []) + OutsideBucket(filters[1..], bucket)
  }

  /** `filters.filter((f) => f.searchBucket === bucket)`. */
  function InBucket(filters: seq<Filter>, bucket: SearchBucket): seq<Filter> {
    if filters == [] then []
    else (if filters[0].searchBucket == bucket then [filters[0]] else []) + InBucket(filters[1..], bucket)
  }

  /** `a` keeps some of the elements of `b`, in their order. */
  predicate Subsequence(a: seq<Filter>, b: seq<Filter>)
    decreases |b|
  {
    if a == [] then true
    else if b == [] then false
    else if a[0] == b[0] then Subsequence(a[1..], b[1..])
    else Subsequence(a, b[1..])
  }

  /** `remove` drops exactly the filters with this id and keeps the others in order. */
  lemma {:induction false} WithoutIdSpec(filters: seq<Filter>, id: string)
    ensures forall f :: f in WithoutId(filters, id) <==> f in filters && f.id != id
    ensures Subsequence(WithoutId(filters, id), filters)
    decreases |filters|
  {
    if filters != [] {
      WithoutIdSpec(filters[1..], id);
      var r := WithoutId(filters, id);
      if filters[0].id != id {
        assert r[0] == filters[0] && r[1..] == WithoutId(filters[1..], id);
      }
      else {
        assert r == WithoutId(filters[1..], id);
        if r != [] {
          assert r[0] in r && r[0] != filters[0];
        }
      }
      assert forall f :: f in filters <==> f == filters[0] || f in filters[1..];
    }
  }

  /** `clearAll` drops exactly the filters of this bucket and keeps the others in order. */
  lemma {:induction false} OutsideBucketSpec(filters: seq<Filter>, bucket: SearchBucket)
    ensures forall f :: f in OutsideBucket(filters, bucket) <==> f in filters && f.searchBucket != bucket
    ensures Subsequence(OutsideBucket(filters, bucket), filters)
    decreases |filters|
  {
    if filters != [] {
      OutsideBucketSpec(filters[1..], bucket);
      var r := OutsideBucket(filters, bucket);
      if filters[0].searchBucket != bucket {
        assert r[0] == filters[0] && r[1..] == OutsideBucket(filters[1..], bucket);
      }
      else {
        assert r == OutsideBucket(filters[1..], bucket);
        if r != [] {
          assert r[0] in r && r[0] != filters[0];
        }
      }
      assert forall f :: f in filters <==> f == filters[0] || f in filters[1..];
    }
  }

  /** The bucket's filters and the rest partition the store. */
  lemma {:induction false} BucketPartition(filters: seq<Filter>, bucket: SearchBucket)
    ensures |InBucket(filters, bucket)| + |OutsideBucket(filters, bucket)| == |filters|
    decreases |filters|
  {
    if filters != [] {
      BucketPartition(filters[1..], bucket);
    }
  }

  /** After `clearAll` the bucket holds no filters. */
  lemma {:induction false} ClearAllEmptiesBucket(filters: seq<Filter>, bucket: SearchBucket)
    ensures InBucket(OutsideBucket(filters, bucket), bucket) == []
    decreases |filters|
  {
    if filters != [] {
      ClearAllEmptiesBucket(filters[1..], bucket);
      var rest := OutsideBucket(filters[1..], bucket);
      var cleared := OutsideBucket(filters, bucket);
      if filters[0].searchBucket != bucket {
        assert cleared[0] == filters[0] && cleared[1..] == rest;
        assert InBucket(cleared, bucket) == InBucket(rest, bucket);
      } else {
        assert cleared == rest;
      }
    }
  }

  /** `clearAll` of one bucket leaves every other bucket's filters as they were. */
  lemma {:induction false} ClearAllKeepsOtherBuckets(filters: seq<Filter>, bucket: SearchBucket, other: SearchBucket)
    requires other != bucket
    ensures InBucket(OutsideBucket(filters, bucket), other) == InBucket(filters, other)
    decreases |filters|
  {
    if filters != [] {
      ClearAllKeepsOtherBuckets(filters[1..], bucket, other);
      var rest := OutsideBucket(filters[1..], bucket);
      var cleared := OutsideBucket(filters, bucket);
      if filters[0].searchBucket != bucket {
        assert cleared[0] == filters[0] && cleared[1..] == rest;
      } else {
        assert cleared == rest;
        assert InBucket(filters, other) == InBucket(filters[1..], other);
      }
    }
  }

  /** The ids of the filters of a bucket (what `selectAll` selects). */
  function BucketIds(filters: seq<Filter>, bucket: SearchBucket): (ids: set<string>)
    ensures forall id :: id in ids <==> exists f :: f in filters && f.searchBucket == bucket && f.id == id
  {
    set f | f in filters && f.searchBucket == bucket :: f.id
  }

  /** The criteria of the filters whose id is selected, in store order. */
  function SelectedCriteria(filters: seq<Filter>, selected: set<string>): seq<Criteria> {
    if filters == [] then []
    else (if filters[0].id in selected then [filters[0].searchCriteria] else []) + SelectedCriteria(filters[1..], selected)
  }

  /** Each selected filter contributes its criteria; nothing else is listed. */
  lemma {:induction false} SelectedCriteriaSpec(filters: seq<Filter>, selected: set<string>)
    ensures forall f :: f in filters && f.id in selected ==> f.searchCriteria in SelectedCriteria(filters, selected)
    ensures forall c :: c in SelectedCriteria(filters, selected) ==>
      exists f :: f in filters && f.id in selected && f.searchCriteria == c
    ensures SelectedCriteria(filters, selected) == [] <==> forall f :: f in filters ==> f.id !in selected
    decreases |filters|
  {
    if filters != [] {
      SelectedCriteriaSpec(filters[1..], selected);
      assert forall f :: f in filters <==> f == filters[0] || f in filters[1..];
    }
  }

  class FilterManager {
    var filters: seq<Filter>
    var selectedFilters: map<SearchBucket, set<string>>

    /** A new store holds what storage held, with nothing selected. */
    constructor (stored: seq<Filter>)
      ensures filters == stored && selectedFilters == map[]
    {
      filters := stored;
      selectedFilters := map[];
    }

    /**
     * `save`: appends a filter for the game's current criteria and player,
     * named by `getName`; its id is the current time in milliseconds.
     */
    method Save(searchBucket: SearchBucket, searchCriteria: Criteria, playerData: Option<CoreFilters.Player>,
                defaults: map<string, Json>, now: nat)
      modifies this
      ensures filters == old(filters) + [Filter(NatToString(now), NameFor(Changes(searchCriteria, defaults), playerData),
                                              searchBucket, playerData, searchCriteria, now)]
      ensures selectedFilters == old(selectedFilters)
    {
      var name := GetName(searchCriteria, playerData, defaults);
      var data := Filter(NatToString(now), name, searchBucket, playerData, searchCriteria, now);
      filters := filters + [data];
    }

    /** `remove`: every filter with this id goes; the selections are left as they were. */
    method Remove(id: string)
      modifies this
      ensures filters == WithoutId(old(filters), id)
      ensures selectedFilters == old(selectedFilters)
    {
      filters := WithoutId(filters, id);
    }

    /** `select`: what the search view is set to: the filter's criteria and player, or nothing. */
    function Select(id: string): (r: (Criteria, Option<CoreFilters.Player>))
      reads this
      ensures (forall f :: f in filters ==> f.id != id) ==> r == ([], None)
      ensures forall i :: 0 <= i < |filters| && filters[i].id == id &&
                          (forall j :: 0 <= j < i ==> filters[j].id != id) ==>
                r == (filters[i].searchCriteria, filters[i].playerData)
    {
      var i := IndexOfId(filters, id);
      if i.None? then ([], None) else (filters[i.value].searchCriteria, filters[i.value].playerData)
    }

    /**
     * `update`: with an unknown id nothing changes. Otherwise the first
     * filter with that id is rewritten in place from the current criteria
     * and player, keeping its id.
     */
    method Update(id: string, searchBucket: SearchBucket, searchCriteria: Criteria,
                  playerData: Option<CoreFilters.Player>, defaults: map<string, Json>, now: nat)
      modifies this
      ensures IndexOfId(old(filters), id).None? ==> filters == old(filters)
      ensures IndexOfId(old(filters), id).Some? ==>
        var i := IndexOfId(old(filters), id).value;
        filters == old(filters)[i := Filter(id, NameFor(Changes(searchCriteria, defaults), playerData),
                                            searchBucket, playerData, searchCriteria, now)]
      ensures selectedFilters == old(selectedFilters)
    {
      var filterIndex := IndexOfId(filters, id);
      if filterIndex.None? {
        return;
      }
      var name := GetName(searchCriteria, playerData, defaults);
      var old_ := filters[filterIndex.value];
      filters := filters[filterIndex.value := old_.(name := name, searchBucket := searchBucket,
                                                   playerData := playerData, searchCriteria := searchCriteria,
                                                   timestamp := now)];
    }

    /** `clearAll`: the bucket's filters and its selection go; everything else stays. */
    method ClearAll(searchBucket: SearchBucket)
      modifies this
      ensures filters == OutsideBucket(old(filters), searchBucket)
      ensures selectedFilters == old(selectedFilters) - {searchBucket}
    {
      filters := OutsideBucket(filters, searchBucket);
      selectedFilters := selectedFilters - {searchBucket};
    }

    /** `isSelected` */
    predicate IsSelected(filterId: string, searchBucket: SearchBucket)
      reads this
    {
      searchBucket in selectedFilters && filterId in selectedFilters[searchBucket]
    }

    /** `toggleSelection`: flips one id in one bucket's selection, and nothing else. */
    method ToggleSelection(filterId: string, searchBucket: SearchBucket)
      modifies this
      ensures IsSelected(filterId, searchBucket) <==> !old(IsSelected(filterId, searchBucket))
      ensures forall b, id :: (b, id) != (searchBucket, filterId) ==> (IsSelected(id, b) <==> old(IsSelected(id, b)))
      ensures searchBucket in selectedFilters
      ensures forall b :: b != searchBucket ==> (b in selectedFilters <==> b in old(selectedFilters))
      ensures filters == old(filters)
    {
      var bucketSelections := if searchBucket in selectedFilters then selectedFilters[searchBucket] else {};
      if filterId in bucketSelections {
        bucketSelections := bucketSelections - {filterId};
      } else {
        bucketSelections := bucketSelections + {filterId};
      }
      selectedFilters := selectedFilters[searchBucket := bucketSelections];
    }

    /** `selectAll`: the bucket's selection becomes exactly the ids of its filters. */
    method SelectAll(searchBucket: SearchBucket)
      modifies this
      ensures selectedFilters == old(selectedFilters)[searchBucket := BucketIds(filters, searchBucket)]
      ensures forall id :: IsSelected(id, searchBucket) <==>
        exists f :: f in filters && f.searchBucket == searchBucket && f.id == id
      ensures filters == old(filters)
    {
      selectedFilters := selectedFilters[searchBucket := BucketIds(filters, searchBucket)];
    }

    /** `deselectAll`: the bucket's selection becomes empty. */
    method DeselectAll(searchBucket: SearchBucket)
      modifies this
      ensures selectedFilters == old(selectedFilters)[searchBucket := {}]
      ensures forall id :: !IsSelected(id, searchBucket)
      ensures filters == old(filters)
    {
      selectedFilters := selectedFilters[searchBucket := {}];
    }

    /** `getSelectedCount`: the size of the bucket's selection, 0 without one. */
    function GetSelectedCount(searchBucket: SearchBucket): (n: nat)
      reads this
      ensures searchBucket !in selectedFilters ==> n == 0
      ensures searchBucket in selectedFilters ==> n == |selectedFilters[searchBucket]|
    {
      if searchBucket in selectedFilters then |selectedFilters[searchBucket]| else 0
    }

    /** `getTotalCount`: how many filters the bucket holds. */
    function GetTotalCount(searchBucket: SearchBucket): nat
      reads this
    {
      |InBucket(filters, searchBucket)|
    }

    /**
     * `getSearchCriterias`: the criteria of the bucket's selected filters,
     * in store order; with none selected, the game's current criteria
     * alone. The list is never empty.
     */
    method GetSearchCriterias(searchBucket: SearchBucket, current: Criteria) returns (criteria: seq<Criteria>)
      ensures var selected := if searchBucket in selectedFilters then selectedFilters[searchBucket] else {};
        criteria == if SelectedCriteria(filters, selected) == [] then [current] else SelectedCriteria(filters, selected)
      ensures |criteria| >= 1
    {
      var selectedIds := if searchBucket in selectedFilters then selectedFilters[searchBucket] else {};
      criteria := CollectSelected(filters, selectedIds);
      if |criteria| == 0 {
        criteria := criteria + [current];
      }
    }
  }

  /** The loop of `getSearchCriterias`: the criteria of the selected filters, in store order. */
  method CollectSelected(filters: seq<Filter>, selectedIds: set<string>) returns (criteria: seq<Criteria>)
    ensures criteria == SelectedCriteria(filters, selectedIds)
  {
    criteria := [];
    var i := 0;
    while i < |filters|
      invariant 0 <= i <= |filters|
      invariant criteria + SelectedCriteria(filters[i..], selectedIds) == SelectedCriteria(filters, selectedIds)
    {
      assert filters[i..][0] == filters[i] && filters[i..][1..] == filters[i + 1..];
      if filters[i].id in selectedIds {
        criteria := criteria + [filters[i].searchCriteria];
      }
      i := i + 1;
    }
    assert filters[i..] == [];
  }

  /** `findIndex((f) => f.id === id)`. */
  function IndexOfId(filters: seq<Filter>, id: string): (r: Option<nat>)
    ensures r.Some? ==> r.value < |filters| && filters[r.value].id == id
    ensures r.Some? ==> forall j :: 0 <= j < r.value ==> filters[j].id != id
    ensures r.None? ==> forall j :: 0 <= j < |filters| ==> filters[j].id != id
  {
    if filters == [] then None
    else if filters[0].id == id then Some(0)
    else
      var rest := IndexOfId(filters[1..], id);
      if rest.None? then None else Some(rest.value + 1)
  }
}
