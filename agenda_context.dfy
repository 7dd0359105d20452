/**
 * The item store of the agenda: the `AgendaItem` record, the four list
 * transforms that the provider applies to its `items` state cell, and the
 * store object that holds that cell together with its `loading` flag.
 */
module AgendaContext {
  import opened Wrappers

  /** One agenda entry. Optional TypeScript properties are `Option`s. */
  datatype AgendaItem = AgendaItem(
    id: string,
    title: string,
    description: Option<string>,
    date: string,
    startTime: Option<string>,
    endTime: Option<string>,
    completed: bool)

  /** The argument of `addItem`: an item without its `id`. */
  datatype ItemDraft = ItemDraft(
    title: string,
    description: Option<string>,
    date: string,
    startTime: Option<string>,
    endTime: Option<string>,
    completed: bool)

  /**
   * A `Partial<AgendaItem>`: every property may be absent (`None`); a
   * present property replaces the item's value when the patch is spread
   * over the item.
   */
  datatype Patch = Patch(
    id: Option<string>,
    title: Option<string>,
    description: Option<Option<string>>,
    date: Option<string>,
    startTime: Option<Option<string>>,
    endTime: Option<Option<string>>,
    completed: Option<bool>)

  /** The patch with no property at all. */
  const EmptyPatch := Patch(None, None, None, None, None, None, None)

  /** True iff some item of `items` carries `id`. */
  predicate HasId(items: seq<AgendaItem>, id: string) {
    exists i :: 0 <= i < |items| && items[i].id == id
  }

  // ---------------------------------------------------------------------
  // addItem

  /**
   * The item that `addItem` builds from a draft: the draft's properties,
   * then the generated `id`, then `completed: false` on top.
   */
  function NewItem(draft: ItemDraft, id: string): (item: AgendaItem)
    ensures item.id == id && !item.completed
    ensures item.title == draft.title && item.description == draft.description
    ensures item.date == draft.date
    ensures item.startTime == draft.startTime && item.endTime == draft.endTime
  {
    AgendaItem(id, draft.title, draft.description, draft.date,
               draft.startTime, draft.endTime, false)
  }

  /** `addItem`'s updater: append the new item at the end. */
  function Added(items: seq<AgendaItem>, draft: ItemDraft, id: string): (r: seq<AgendaItem>)
    ensures |r| == |items| + 1
    ensures r[..|items|] == items
    ensures r[|items|] == NewItem(draft, id)
  {
    items + [NewItem(draft, id)]
  }

  // ---------------------------------------------------------------------
  // updateItem

  /** One property of `{ ...item, ...updates }`. */
  function Merge<T>(current: T, update: Option<T>): (r: T)
    ensures update.Some? ==> r == update.value
    ensures update.None? ==> r == current
  {
    update.GetOr(current)
  }

  /** `{ ...item, ...updates }`: the present properties of the patch win. */
  function Patched(item: AgendaItem, p: Patch): (r: AgendaItem)
    ensures r.id == Merge(item.id, p.id)
    ensures r.title == Merge(item.title, p.title)
    ensures r.description == Merge(item.description, p.description)
    ensures r.date == Merge(item.date, p.date)
    ensures r.startTime == Merge(item.startTime, p.startTime)
    ensures r.endTime == Merge(item.endTime, p.endTime)
    ensures r.completed == Merge(item.completed, p.completed)
  {
    AgendaItem(
      Merge(item.id, p.id),
      Merge(item.title, p.title),
      Merge(item.description, p.description),
      Merge(item.date, p.date),
      Merge(item.startTime, p.startTime),
      Merge(item.endTime, p.endTime),
      Merge(item.completed, p.completed))
  }

  /** `{ ...p, ...q }`: spreading `p` and then `q` is spreading this one. */
  function Combined(p: Patch, q: Patch): Patch {
    Patch(
      if q.id.Some? then q.id else p.id,
      if q.title.Some? then q.title else p.title,
      if q.description.Some? then q.description else p.description,
      if q.date.Some? then q.date else p.date,
      if q.startTime.Some? then q.startTime else p.startTime,
      if q.endTime.Some? then q.endTime else p.endTime,
      if q.completed.Some? then q.completed else p.completed)
  }

  /**
   * `updateItem`'s updater: `prevItems.map(item => item.id === id ? { ...item, ...updates } : item)`.
   * Every item whose id matches is patched, not only the first one.
   */
  function Updated(items: seq<AgendaItem>, id: string, p: Patch): (r: seq<AgendaItem>)
    ensures |r| == |items|
    ensures forall i :: 0 <= i < |items| ==>
      r[i] == if items[i].id == id then Patched(items[i], p) else items[i]
  {
    if items == [] then []
    else
      [if items[0].id == id then Patched(items[0], p) else items[0]]
      + Updated(items[1..], id, p)
  }

  // ---------------------------------------------------------------------
  // deleteItem

  /** `deleteItem`'s updater: `prevItems.filter(item => item.id !== id)`. */
  function Deleted(items: seq<AgendaItem>, id: string): (r: seq<AgendaItem>)
    ensures |r| <= |items|
    ensures forall x :: x in r <==> x in items && x.id != id
    ensures HasId(items, id) ==> |r| < |items|
    ensures !HasId(items, id) ==> r == items
  {
    if items == [] then []
    else if items[0].id == id then Deleted(items[1..], id)
    else [items[0]] + Deleted(items[1..], id)
  }

  // ---------------------------------------------------------------------
  // completeItem

  /** An item with its `completed` flag flipped and nothing else changed. */
  function Flipped(item: AgendaItem): (r: AgendaItem)
    ensures r.completed == !item.completed
    ensures r.(completed := item.completed) == item
  {
    item.(completed := !item.completed)
  }

  /**
   * `completeItem`'s updater:
   * `prevItems.map(item => item.id === id ? { ...item, completed: !item.completed } : item)`.
   */
  function Toggled(items: seq<AgendaItem>, id: string): (r: seq<AgendaItem>)
    ensures |r| == |items|
    ensures forall i :: 0 <= i < |items| ==>
      r[i] == if items[i].id == id then Flipped(items[i]) else items[i]
  {
    if items == [] then []
    else [if items[0].id == id then Flipped(items[0]) else items[0]] + Toggled(items[1..], id)
  }

  // ---------------------------------------------------------------------
  // Properties of the transforms

  /** Adding keeps every earlier item in place and puts a fresh, not completed item last. */
  lemma AddAppendsLast(items: seq<AgendaItem>, draft: ItemDraft, id: string)
    ensures var r := Added(items, draft, id);
      && |r| == |items| + 1
      && (forall i :: 0 <= i < |items| ==> r[i] == items[i])
      && r[|r| - 1].id == id && !r[|r| - 1].completed
      && r[|r| - 1].title == draft.title && r[|r| - 1].date == draft.date
  {
    var r := Added(items, draft, id);
    forall i | 0 <= i < |items| ensures r[i] == items[i] {
      assert r[i] == r[..|items|][i];
    }
  }

  /** A patch without properties leaves an item as it is. */
  lemma EmptyPatchIsIdentity(item: AgendaItem)
    ensures Patched(item, EmptyPatch) == item
  {
  }

  /** Applying the same patch twice is applying it once. */
  lemma PatchIdempotent(item: AgendaItem, p: Patch)
    ensures Patched(Patched(item, p), p) == Patched(item, p)
  {
  }

  /** Spreading `p` and then `q` over an item is spreading `{ ...p, ...q }`. */
  lemma PatchesCompose(item: AgendaItem, p: Patch, q: Patch)
    ensures Patched(Patched(item, p), q) == Patched(item, Combined(p, q))
  {
  }

  /** Items that do not match keep their value, whatever the patch. */
  lemma UpdateKeepsOthers(items: seq<AgendaItem>, id: string, p: Patch, i: int)
    requires 0 <= i < |items| && items[i].id != id
    ensures Updated(items, id, p)[i] == items[i]
  {
  }

  /**
   * Updating twice with the same patch is updating once. When the patch
   * moves the matching items to another id, the second update no longer
   * finds them.
   */
  lemma {:induction false} UpdateIdempotent(items: seq<AgendaItem>, id: string, p: Patch)
    ensures Updated(Updated(items, id, p), id, p) == Updated(items, id, p)
  {
    var once := Updated(items, id, p);
    var twice := Updated(once, id, p);
    forall i | 0 <= i < |items| ensures twice[i] == once[i] {
      if items[i].id == id {
        PatchIdempotent(items[i], p);
      }
    }
  }

  /** Filtering distributes over concatenation: deletion keeps the relative order. */
  lemma {:induction false} DeleteConcat(a: seq<AgendaItem>, b: seq<AgendaItem>, id: string)
    ensures Deleted(a + b, id) == Deleted(a, id) + Deleted(b, id)
  {
    if a == [] {
      assert a + b == b;
    } else {
      assert (a + b)[0] == a[0];
      assert (a + b)[1..] == a[1..] + b;
      DeleteConcat(a[1..], b, id);
    }
  }

  /** Deleting one item: it vanishes exactly when its id matches. */
  lemma DeleteSingleton(x: AgendaItem, id: string)
    ensures Deleted([x], id) == if x.id == id then [] else [x]
  {
    assert [x][1..] == [];
  }

  /** After deletion no item carries the id. */
  lemma DeleteRemovesAll(items: seq<AgendaItem>, id: string)
    ensures !HasId(Deleted(items, id), id)
  {
    var r := Deleted(items, id);
    forall i | 0 <= i < |r| ensures r[i].id != id {
      assert r[i] in r;
    }
  }

  /** `deleteItem` is idempotent. */
  lemma DeleteIdempotent(items: seq<AgendaItem>, id: string)
    ensures Deleted(Deleted(items, id), id) == Deleted(items, id)
  {
    DeleteRemovesAll(items, id);
  }

  /** `completeItem` twice with the same id restores the list. */
  lemma ToggleInvolution(items: seq<AgendaItem>, id: string)
    ensures Toggled(Toggled(items, id), id) == items
  {
    var once := Toggled(items, id);
    var twice := Toggled(once, id);
    forall i | 0 <= i < |items| ensures twice[i] == items[i] {
      assert once[i].id == items[i].id;
    }
  }

  /** `completeItem` only changes the `completed` flag, and only of matching items. */
  lemma ToggleChangesOnlyCompleted(items: seq<AgendaItem>, id: string, i: int)
    requires 0 <= i < |items|
    ensures Toggled(items, id)[i].(completed := items[i].completed) == items[i]
    ensures Toggled(items, id)[i].completed == (items[i].completed != (items[i].id == id))
  {
  }

  /** With an id that no item carries, all three id-based transforms are no-ops. */
  lemma AbsentIdIsNoOp(items: seq<AgendaItem>, id: string, p: Patch)
    requires !HasId(items, id)
    ensures Updated(items, id, p) == items
    ensures Deleted(items, id) == items
    ensures Toggled(items, id) == items
  {
    var u := Updated(items, id, p);
    var t := Toggled(items, id);
    forall i | 0 <= i < |items| ensures u[i] == items[i] && t[i] == items[i] {
      assert items[i].id != id;
    }
  }

  /**
   * The sample session: adding "Pay rent" with generated id "1000", then
   * retitling it and completing it.
   */
  lemma PayRentScenario()
    ensures var draft := ItemDraft("Pay rent", Some(""), "2024-03-15", Some(""), Some(""), false);
      var added := Added([], draft, "1000");
      var retitled := Updated(added, "1000", EmptyPatch.(title := Some("Pay rent early")));
      var done := Toggled(retitled, "1000");
      && added == [AgendaItem("1000", "Pay rent", Some(""), "2024-03-15", Some(""), Some(""), false)]
      && done == [AgendaItem("1000", "Pay rent early", Some(""), "2024-03-15", Some(""), Some(""), true)]
  {
  }

  // ---------------------------------------------------------------------
  // The store object

  /**
   * The provider's state: the `items` cell, replaced wholesale by every
   * updater, and the `loading` flag that is cleared once the initial read
   * from storage has finished.
   */
  class AgendaStore {
    var items: seq<AgendaItem>
    var loading: bool

    /** The initial state: no items, still loading. */
    constructor ()
      ensures items == [] && loading
    {
      items := [];
      loading := true;
    }

    /**
     * The end of the initial load. `stored` is the parsed collection when
     * storage held one, `None` when it held nothing or reading failed; in
     * both failure cases the items are left as they are. Either way the
     * store stops loading.
     */
    method FinishLoading(stored: Option<seq<AgendaItem>>)
      modifies this
      ensures items == stored.GetOr(old(items))
      ensures !loading
    {
      if stored.Some? {
        items := stored.value;
      }
      loading := false;
    }

    /** `addItem(draft)` with `Date.now().toString()` supplied as `id`. */
    method AddItem(draft: ItemDraft, id: string)
      modifies this`items
      ensures items == Added(old(items), draft, id)
      ensures items[..|old(items)|] == old(items)
      ensures items[|items| - 1].id == id && !items[|items| - 1].completed
    {
      items := Added(items, draft, id);
    }

    /** `updateItem(id, updates)`. */
    method UpdateItem(id: string, updates: Patch)
      modifies this`items
      ensures items == Updated(old(items), id, updates)
      ensures !HasId(old(items), id) ==> items == old(items)
    {
      if !HasId(items, id) { AbsentIdIsNoOp(items, id, updates); }
      items := Updated(items, id, updates);
    }

    /** `deleteItem(id)`. */
    method DeleteItem(id: string)
      modifies this`items
      ensures items == Deleted(old(items), id)
      ensures !HasId(items, id)
    {
      items := Deleted(items, id);
      DeleteRemovesAll(old(items), id);
    }

    /** `completeItem(id)`. */
    method CompleteItem(id: string)
      modifies this`items
      ensures items == Toggled(old(items), id)
      ensures !HasId(old(items), id) ==> items == old(items)
    {
      if !HasId(items, id) { AbsentIdIsNoOp(items, id, EmptyPatch); }
      items := Toggled(items, id);
    }
  }

  /** Completing the same item twice through the store leaves the items as they were. */
  method CompleteTwiceRestores(store: AgendaStore, id: string)
    modifies store`items
    ensures store.items == old(store.items)
  {
    store.CompleteItem(id);
    store.CompleteItem(id);
    ToggleInvolution(old(store.items), id);
  }
}
