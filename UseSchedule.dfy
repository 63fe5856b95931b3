/** The `useSchedule` hook: a list of schedule items with append, remove-by-id,
    update-by-id and clear. */
module UseSchedule {
  import opened Lists
  import opened Types

  /** A `Partial<ScheduleItem>`: a field set to `Some(v)` is overwritten with `v`. */
  datatype ItemPatch = ItemPatch(
    id: Option<string>,
    name: Option<string>,
    location: Option<Location>,
    days: Option<seq<Day>>,
    startTime: Option<string>,
    endTime: Option<string>,
    routeName: Option<Option<string>>)

  const NoChange: ItemPatch := ItemPatch(None, None, None, None, None, None, None)

  /** `{ ...i, ...updates }`. */
  function Merge(item: ScheduleItem, u: ItemPatch): ScheduleItem {
    ScheduleItem(Override(u.id, item.id), Override(u.name, item.name), Override(u.location, item.location),
                 Override(u.days, item.days), Override(u.startTime, item.startTime), Override(u.endTime, item.endTime),
                 Override(u.routeName, item.routeName))
  }

  /** An empty patch changes nothing, and applying a patch twice is applying it once. */
  lemma MergeLaws(item: ScheduleItem, u: ItemPatch)
    ensures Merge(item, NoChange) == item
    ensures Merge(Merge(item, u), u) == Merge(item, u)
  {
  }

  /** `prev.filter((i) => i.id !== id)`. */
  function WithoutItem(items: seq<ScheduleItem>, id: string): (r: seq<ScheduleItem>)
    ensures forall x :: x in r <==> x in items && x.id != id
    ensures IsSubsequence(r, items)
    ensures forall x :: multiset(r)[x] == if x.id != id then multiset(items)[x] else 0
  {
    FilterIsSubsequence(items, (x: ScheduleItem) => x.id != id);
    FilterCounts(items, (x: ScheduleItem) => x.id != id);
    Filter(items, (x: ScheduleItem) => x.id != id)
  }

  /** Removing an id twice is removing it once; removing an absent id changes nothing. */
  lemma WithoutItemLaws(items: seq<ScheduleItem>, id: string)
    ensures WithoutItem(WithoutItem(items, id), id) == WithoutItem(items, id)
    ensures (forall i :: 0 <= i < |items| ==> items[i].id != id) ==> WithoutItem(items, id) == items
  {
    FilterIdempotent(items, (x: ScheduleItem) => x.id != id);
    if forall i :: 0 <= i < |items| ==> items[i].id != id {
      FilterKeepsAll(items, (x: ScheduleItem) => x.id != id);
    }
  }

  /** `prev.map((i) => (i.id === id ? { ...i, ...updates } : i))`. */
  function WithUpdate(items: seq<ScheduleItem>, id: string, updates: ItemPatch): (r: seq<ScheduleItem>)
    ensures |r| == |items|
    ensures forall i :: 0 <= i < |items| && items[i].id != id ==> r[i] == items[i]
    ensures forall i :: 0 <= i < |items| && items[i].id == id ==> r[i] == Merge(items[i], updates)
  {
    UpdateWhere(items, (x: ScheduleItem) => x.id == id, (x: ScheduleItem) => Merge(x, updates))
  }

  class ScheduleStore {
    var items: seq<ScheduleItem>

    /** `useSchedule(initial)`; a caller without a list passes `[]`. */
    constructor (initial: seq<ScheduleItem>)
      ensures items == initial
    {
      items := initial;
    }

    /** `setItems`. */
    method SetItems(next: seq<ScheduleItem>)
      modifies this
      ensures items == next
    {
      items := next;
    }

    /** `addItem`: the item goes at the end. */
    method AddItem(item: ScheduleItem)
      modifies this
      ensures items == old(items) + [item]
    {
      items := items + [item];
    }

    /** `removeItem`: every item with the id goes, the rest keep their order. */
    method RemoveItem(id: string)
      modifies this
      ensures items == WithoutItem(old(items), id)
    {
      items := WithoutItem(items, id);
    }

    /** `updateItem`: only items with the id are merged with the updates. */
    method UpdateItem(id: string, updates: ItemPatch)
      modifies this
      ensures items == WithUpdate(old(items), id, updates)
    {
      items := WithUpdate(items, id, updates);
    }

    /** `clear`. */
    method Clear()
      modifies this
      ensures items == []
    {
      items := [];
    }
  }
}
