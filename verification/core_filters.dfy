/**
 * The filter store of the stand-alone sniper: saved filters addressed by
 * their position in the list, a set of selected positions, a rotation
 * cursor over the selected filters, and an optional id of the filter being
 * edited.
 *
 * Persistence is left out: the constructor receives what storage held, and
 * every change would be written back unchanged.
 */
module CoreFilters {
  import opened Js
  import opened Sorting

  /** The player part of a filter: first and last name and rating (0 when unknown). */
  datatype Player = Player(firstName: string, lastName: string, rating: int)

  /** The search-criteria fields the store reads or writes; an unset bound is 0. */
  datatype Criteria = Criteria(minBid: int, maxBid: int, minBuy: int, maxBuy: int)

  datatype FilterData = FilterData(
    id: string,
    playerData: Option<Player>,
    searchCriteria: Criteria,
    timestamp: int,
    description: string)

  /** The saved filter at `index`, or `None` (`undefined`) past the end of the list. */
  function Lookup(filters: seq<FilterData>, index: nat): (f: Option<FilterData>)
    ensures f.Some? <==> index < |filters|
    ensures f.Some? ==> f.value == filters[index]
  {
    if index < |filters| then Some(filters[index]) else None
  }

  /** The first position holding a filter with this id (`findIndex`). */
  function IndexOfId(filters: seq<FilterData>, id: string): (r: Option<nat>)
    ensures r.Some? ==> r.value < |filters| && filters[r.value].id == id
    ensures r.Some? ==> forall j :: 0 <= j < r.value ==> filters[j].id != id
    ensures r.None? ==> forall j :: 0 <= j < |filters| ==> filters[j].id != id
  {
    if filters == [] then None
    else if filters[0].id == id then Some(0)
    else
      var rest := IndexOfId(filters[1..], id);
      if rest.None? then None else Some(rest.value + 1)
  }

  /** "First Last (rating)", with a missing last name left empty and a missing rating shown as "?". */
  function PlayerLabel(p: Player): string {
    p.firstName + " " + p.lastName + " (" + (if p.rating == 0 then "?" else IntToString(p.rating)) + ")"
  }

  /** The buy-now range of a description, "min-max". */
  function BuyRange(c: Criteria): string {
    IntToString(c.minBuy) + "-" + IntToString(c.maxBuy)
  }

  predicate EndsWith(s: string, suffix: string) {
    |suffix| <= |s| && s[|s| - |suffix|..] == suffix
  }

  lemma AppendEndsWith(head: string, tail: string)
    ensures EndsWith(head + tail, tail) && head <= head + tail
  {
    assert (head + tail)[|head|..] == tail;
  }

  /** The start of a description: the player's label, or "Any Item" without a first name. */
  function DescriptionHead(itemData: Option<Player>): string {
    if itemData.Some? && itemData.value.firstName != "" then PlayerLabel(itemData.value) else "Any Item"
  }

  /**
   * `createFilterDescription`: the player's label, or "Any Item" without a
   * first name, followed by " | Buy: " and the buy-now range, and nothing
   * else.
   */
  function CreateFilterDescription(itemData: Option<Player>, c: Criteria): (d: string)
    ensures DescriptionHead(itemData) <= d
    ensures EndsWith(d, " | Buy: " + BuyRange(c))
    ensures |d| == |DescriptionHead(itemData)| + |" | Buy: " + BuyRange(c)|
  {
    var head := DescriptionHead(itemData);
    var tail := " | Buy: " + BuyRange(c);
    AppendEndsWith(head, tail);
    head + tail
  }

  /** The stored form of search criteria: the bid bounds are cleared. */
  function Cleaned(c: Criteria): (r: Criteria)
    ensures r.minBid == 0 && r.maxBid == 0
    ensures r.minBuy == c.minBuy && r.maxBuy == c.maxBuy
  {
    c.(minBid := 0, maxBid := 0)
  }

  /** The saved filters at the selected positions, in ascending position order. */
  function SelectedIn(filters: seq<FilterData>, selected: set<nat>): seq<Option<FilterData>> {
    var indices := SortedElements(selected);
    seq(|indices|, k requires 0 <= k < |indices| => Lookup(filters, indices[k]))
  }

  /**
   * The selection lists one entry per selected position, ascending by
   * position; a position past the end of the list gives `None`.
   */
  lemma SelectedInOrder(filters: seq<FilterData>, selected: set<nat>)
    ensures |SelectedIn(filters, selected)| == |selected|
    ensures forall k :: 0 <= k < |SelectedIn(filters, selected)| ==>
      exists i :: i in selected && SelectedIn(filters, selected)[k] == Lookup(filters, i)
    ensures forall i :: i in selected && i < |filters| ==> Some(filters[i]) in SelectedIn(filters, selected)
    ensures forall j, k :: 0 <= j < k < |SelectedIn(filters, selected)| ==>
      SortedElements(selected)[j] < SortedElements(selected)[k]
  {
    var indices := SortedElements(selected);
    SortedElementsSpec(selected);
    var r := SelectedIn(filters, selected);
    forall i | i in selected && i < |filters|
      ensures Some(filters[i]) in r
    {
      var k :| 0 <= k < |indices| && indices[k] == i;
      assert r[k] == Some(filters[i]);
    }
  }

  /**
   * The filter the rotation cursor points at: the selected position of rank
   * `cursor` modulo the size of the selection, or `None` without a selection.
   */
  function CurrentIn(filters: seq<FilterData>, selected: set<nat>, cursor: nat): (f: Option<FilterData>)
    ensures selected == {} ==> f.None?
    ensures selected != {} ==>
      |SortedElements(selected)| == |selected| &&
      f == Lookup(filters, SortedElements(selected)[cursor % |selected|])
  {
    var sel := SelectedIn(filters, selected);
    SelectedInOrder(filters, selected);
    if |sel| == 0 then None else sel[cursor % |sel|]
  }

  /** The rotation repeats after one step per selected filter. */
  lemma RotationPeriodic(filters: seq<FilterData>, selected: set<nat>, cursor: nat)
    ensures CurrentIn(filters, selected, cursor + |selected|) == CurrentIn(filters, selected, cursor)
  {
    if selected != {} {
      var n := |selected|;
      DivModUnique(cursor + n, n, cursor / n + 1, cursor % n);
    }
  }

  /** From any cursor, the next `|selected|` steps visit every selected position. */
  lemma RotationVisitsEverySelected(filters: seq<FilterData>, selected: set<nat>, start: nat, i: nat)
    requires i in selected
    ensures exists c :: start <= c < start + |selected| && CurrentIn(filters, selected, c) == Lookup(filters, i)
  {
    var indices := SortedElements(selected);
    SortedElementsSpec(selected);
    var k :| 0 <= k < |indices| && indices[k] == i;
    var c := StepsToRank(start, k, |selected|);
    assert CurrentIn(filters, selected, c) == Lookup(filters, i);
  }

  /** The first cursor at or after `start` whose rank modulo `n` is `k`. */
  function StepsToRank(start: nat, k: nat, n: nat): (c: nat)
    requires k < n
    ensures start <= c < start + n && c % n == k
  {
    var d := (k - start) % n;
    var q := (k - start) / n;
    assert k - start == q * n + d;
    assert start + d == (-q) * n + k;
    DivModUnique(start + d, n, -q, k);
    start + d
  }

  /** Every saved filter, in list order. */
  function Everything(filters: seq<FilterData>): seq<Option<FilterData>> {
    seq(|filters|, k requires 0 <= k < |filters| => Some(filters[k]))
  }

  /** With every position selected, the selection is the whole list, in order. */
  lemma SelectAllSelectsList(filters: seq<FilterData>)
    ensures SelectedIn(filters, Below(|filters|)) == Everything(filters)
  {
    SortedRange(|filters|);
  }

  /** Where the filter at position `i` moves when the one at `deleted` is removed. */
  function Shift(i: nat, deleted: nat): nat {
    if i > deleted then i - 1 else i
  }

  /** The selection renumbered for the removal of position `deleted`, which itself is dropped. */
  function SelectionAfterDelete(selected: set<nat>, deleted: nat): (r: set<nat>)
    ensures forall i :: i in selected && i != deleted ==> Shift(i, deleted) in r
    ensures forall j :: j in r ==> exists i :: i in selected && i != deleted && Shift(i, deleted) == j
  {
    set i | i in selected && i != deleted :: Shift(i, deleted)
  }

  /**
   * Deleting the filter at `index` and renumbering the selection keeps the
   * same filters selected: every other selected filter stays selected, and
   * nothing else becomes selected.
   */
  lemma DeleteKeepsSelectedFilters(filters: seq<FilterData>, selected: set<nat>, index: nat)
    requires index < |filters|
    ensures forall i :: i in selected && i < |filters| && i != index ==>
      Some(filters[i]) in SelectedIn(filters[..index] + filters[index + 1..], SelectionAfterDelete(selected, index))
    ensures forall x :: x in SelectedIn(filters[..index] + filters[index + 1..], SelectionAfterDelete(selected, index)) && x.Some? ==>
      exists i :: i in selected && i < |filters| && i != index && x == Some(filters[i])
  {
    var after := filters[..index] + filters[index + 1..];
    RemovalShifts(filters, index);
    SelectedInOrder(after, SelectionAfterDelete(selected, index));
    DeleteSelectsNothingNew(filters, selected, index);
  }

  /** Removing position `index` moves every other filter to its shifted position. */
  lemma RemovalShifts(filters: seq<FilterData>, index: nat)
    requires index < |filters|
    ensures |filters[..index] + filters[index + 1..]| == |filters| - 1
    ensures forall i :: 0 <= i < |filters| && i != index ==>
      Shift(i, index) < |filters| - 1 && (filters[..index] + filters[index + 1..])[Shift(i, index)] == filters[i]
  {
  }

  lemma DeleteSelectsNothingNew(filters: seq<FilterData>, selected: set<nat>, index: nat)
    requires index < |filters|
    ensures forall x :: x in SelectedIn(filters[..index] + filters[index + 1..], SelectionAfterDelete(selected, index)) && x.Some? ==>
      exists i :: i in selected && i < |filters| && i != index && x == Some(filters[i])
  {
    var after := filters[..index] + filters[index + 1..];
    RemovalShifts(filters, index);
    var sel := SelectionAfterDelete(selected, index);
    SelectedInOrder(after, sel);
    var r := SelectedIn(after, sel);
    forall x | x in r && x.Some?
      ensures exists i :: i in selected && i < |filters| && i != index && x == Some(filters[i])
    {
      var k :| 0 <= k < |r| && r[k] == x;
      var j :| j in sel && r[k] == Lookup(after, j);
      var i :| i in selected && i != index && Shift(i, index) == j;
      assert x == Some(filters[i]);
    }
  }

  /**
   * Deleting without renumbering, as `deleteFilter` does: with three filters
   * and the second one selected, deleting the first leaves the third one
   * selected.
   */
  lemma DeleteMovesSelection(a: FilterData, b: FilterData, c: FilterData)
    requires b != c
    ensures SelectedIn([a, b, c], {1}) == [Some(b)]
    ensures var after := [a, b, c][..0] + [a, b, c][1..];
      SelectedIn(after, {1}) == [Some(c)]
  {
    SortedElementsSpec({1});
    assert SortedElements({1}) == [1];
    assert [a, b, c][..0] + [a, b, c][1..] == [b, c];
  }

  class FilterManager {
    var savedFilters: seq<FilterData>
    var selectedFilterIndices: set<nat>
    var editingFilterId: Option<string>
    var currentFilterIndex: nat

    /** A new store holds what storage held, with nothing selected and nothing being edited. */
    constructor (stored: seq<FilterData>)
      ensures savedFilters == stored && selectedFilterIndices == {}
      ensures editingFilterId.None? && currentFilterIndex == 0
    {
      savedFilters := stored;
      selectedFilterIndices := {};
      editingFilterId := None;
      currentFilterIndex := 0;
    }

    /** `getSelectedFilters` */
    function GetSelectedFilters(): seq<Option<FilterData>>
      reads this
    {
      SelectedIn(savedFilters, selectedFilterIndices)
    }

    /**
     * `getCurrentFilter`: nothing without a selection; otherwise the
     * selected filter the cursor points at, counted modulo the selection.
     */
    function GetCurrentFilter(): (f: Option<FilterData>)
      reads this
      ensures selectedFilterIndices == {} ==> f.None?
      ensures f.Some? ==> Some(f.value) in GetSelectedFilters()
      ensures f == CurrentIn(savedFilters, selectedFilterIndices, currentFilterIndex)
    {
      var selected := GetSelectedFilters();
      SelectedInOrder(savedFilters, selectedFilterIndices);
      if |selected| == 0 then None else selected[currentFilterIndex % |selected|]
    }

    /** `moveToNextFilter` */
    method MoveToNextFilter()
      modifies this
      ensures currentFilterIndex == old(currentFilterIndex) + 1
      ensures savedFilters == old(savedFilters) && selectedFilterIndices == old(selectedFilterIndices)
      ensures editingFilterId == old(editingFilterId)
    {
      currentFilterIndex := currentFilterIndex + 1;
    }

    /** `resetFilterIndex` */
    method ResetFilterIndex()
      modifies this
      ensures currentFilterIndex == 0
      ensures savedFilters == old(savedFilters) && selectedFilterIndices == old(selectedFilterIndices)
      ensures editingFilterId == old(editingFilterId)
    {
      currentFilterIndex := 0;
    }

    /** `isEditing`: any id, even the empty one, counts. */
    predicate IsEditing()
      reads this
    {
      editingFilterId.Some?
    }

    /** `setEditingFilterId` */
    method SetEditingFilterId(id: Option<string>)
      modifies this
      ensures editingFilterId == id
      ensures savedFilters == old(savedFilters) && selectedFilterIndices == old(selectedFilterIndices)
      ensures currentFilterIndex == old(currentFilterIndex)
    {
      editingFilterId := id;
    }

    /** `cancelEditing` */
    method CancelEditing()
      modifies this
      ensures editingFilterId.None?
      ensures savedFilters == old(savedFilters) && selectedFilterIndices == old(selectedFilterIndices)
      ensures currentFilterIndex == old(currentFilterIndex)
    {
      editingFilterId := None;
    }

    /**
     * `saveFilter`. The stored criteria have their bid bounds cleared. In
     * edit mode (a non-empty editing id) the filter with that id, if any,
     * is replaced in place and edit mode ends; otherwise a filter with the
     * freshly generated `newId` is appended. `now` is `Date.now()`.
     */
    method SaveFilter(itemData: Option<Player>, searchCriteria: Criteria, newId: string, now: int)
      modifies this
      ensures var editing := old(editingFilterId).Some? && old(editingFilterId).value != "";
        var saved := FilterData(
          if editing then old(editingFilterId).value else newId,
          itemData, Cleaned(searchCriteria), now, CreateFilterDescription(itemData, searchCriteria));
        && (!editing ==> savedFilters == old(savedFilters) + [saved] && editingFilterId == old(editingFilterId))
        && (editing ==> editingFilterId.None?)
        && (editing && IndexOfId(old(savedFilters), saved.id).Some? ==>
              savedFilters == old(savedFilters)[IndexOfId(old(savedFilters), saved.id).value := saved])
        && (editing && IndexOfId(old(savedFilters), saved.id).None? ==> savedFilters == old(savedFilters))
      ensures selectedFilterIndices == old(selectedFilterIndices) && currentFilterIndex == old(currentFilterIndex)
    {
      var cleaned := Cleaned(searchCriteria);
      var editing := editingFilterId.Some? && editingFilterId.value != "";
      var filterId := if editing then editingFilterId.value else newId;
      var filterData := FilterData(filterId, itemData, cleaned, now, CreateFilterDescription(itemData, searchCriteria));
      if editing {
        var existingIndex := IndexOfId(savedFilters, filterId);
        if existingIndex.Some? {
          savedFilters := savedFilters[existingIndex.value := filterData];
        }
        editingFilterId := None;
      } else {
        savedFilters := savedFilters + [filterData];
      }
    }

    /**
     * `deleteFilter`: removes the filter at `index` and nothing else; an
     * index outside the list changes nothing. The selected positions are
     * left as they were.
     */
    method DeleteFilter(index: int)
      modifies this
      ensures 0 <= index < |old(savedFilters)| ==>
        savedFilters == old(savedFilters)[..index] + old(savedFilters)[index + 1..]
      ensures !(0 <= index < |old(savedFilters)|) ==> savedFilters == old(savedFilters)
      ensures selectedFilterIndices == old(selectedFilterIndices) && currentFilterIndex == old(currentFilterIndex)
      ensures editingFilterId == old(editingFilterId)
    {
      if 0 <= index < |savedFilters| {
        savedFilters := savedFilters[..index] + savedFilters[index + 1..];
      }
    }

    /**
     * `deleteFilter` as evidently intended: the same removal, with the
     * selected positions renumbered so that they still name the same
     * filters.
     */
    method DeleteFilterKeepingSelection(index: int)
      modifies this
      ensures 0 <= index < |old(savedFilters)| ==>
        && savedFilters == old(savedFilters)[..index] + old(savedFilters)[index + 1..]
        && selectedFilterIndices == SelectionAfterDelete(old(selectedFilterIndices), index)
      ensures !(0 <= index < |old(savedFilters)|) ==>
        savedFilters == old(savedFilters) && selectedFilterIndices == old(selectedFilterIndices)
      ensures currentFilterIndex == old(currentFilterIndex) && editingFilterId == old(editingFilterId)
    {
      if 0 <= index < |savedFilters| {
        savedFilters := savedFilters[..index] + savedFilters[index + 1..];
        selectedFilterIndices := SelectionAfterDelete(selectedFilterIndices, index);
      }
    }

    /** `clearAllFilters`: the list is emptied; the selection is left as it was. */
    method ClearAllFilters()
      modifies this
      ensures savedFilters == []
      ensures selectedFilterIndices == old(selectedFilterIndices) && currentFilterIndex == old(currentFilterIndex)
      ensures editingFilterId == old(editingFilterId)
    {
      savedFilters := [];
    }

    /** `toggleFilterSelection`: flips whether `index` is selected, and nothing else. */
    method ToggleFilterSelection(index: nat)
      modifies this
      ensures index in selectedFilterIndices <==> index !in old(selectedFilterIndices)
      ensures forall i :: i != index ==> (i in selectedFilterIndices <==> i in old(selectedFilterIndices))
      ensures savedFilters == old(savedFilters) && currentFilterIndex == old(currentFilterIndex)
      ensures editingFilterId == old(editingFilterId)
    {
      if index in selectedFilterIndices {
        selectedFilterIndices := selectedFilterIndices - {index};
      } else {
        selectedFilterIndices := selectedFilterIndices + {index};
      }
    }

    /** `selectAllFilters`: exactly the positions of the saved filters are selected. */
    method SelectAllFilters()
      modifies this
      ensures selectedFilterIndices == Below(|savedFilters|)
      ensures GetSelectedFilters() == Everything(savedFilters)
      ensures savedFilters == old(savedFilters) && currentFilterIndex == old(currentFilterIndex)
      ensures editingFilterId == old(editingFilterId)
    {
      var selected := {};
      var index := 0;
      while index < |savedFilters|
        invariant 0 <= index <= |savedFilters|
        invariant selected == Below(index)
      {
        selected := selected + {index};
        index := index + 1;
      }
      selectedFilterIndices := selected;
      SelectAllSelectsList(savedFilters);
    }

    /** `clearSelection` */
    method ClearSelection()
      modifies this
      ensures selectedFilterIndices == {}
      ensures savedFilters == old(savedFilters) && currentFilterIndex == old(currentFilterIndex)
      ensures editingFilterId == old(editingFilterId)
    {
      selectedFilterIndices := {};
    }

    /** `getSelectedCount`: the number of selected positions, which is the length of the selection. */
    function GetSelectedCount(): (n: nat)
      reads this
      ensures n == |GetSelectedFilters()|
    {
      SelectedInOrder(savedFilters, selectedFilterIndices);
      |selectedFilterIndices|
    }

    /** `getFilterById`: the first saved filter with this id. */
    function GetFilterById(id: string): (f: Option<FilterData>)
      reads this
      ensures f.Some? ==> f.value in savedFilters && f.value.id == id
      ensures f.Some? ==> (exists i :: 0 <= i < |savedFilters| && savedFilters[i] == f.value &&
                                         forall j :: 0 <= j < i ==> savedFilters[j].id != id)
      ensures f.None? ==> forall g :: g in savedFilters ==> g.id != id
    {
      var i := IndexOfId(savedFilters, id);
      if i.None? then None else Some(savedFilters[i.value])
    }
  }
}
