/** What one agenda row shows, and which store call each of its buttons makes. */
module AgendaItemComponent {
  import opened Wrappers
  import opened AgendaContext

  /** JavaScript truthiness of an optional string: present and non-empty. */
  predicate Truthy(s: Option<string>) {
    s.Some? && s.value != ""
  }

  /** `s ? s : ''`. */
  function TextOrEmpty(s: Option<string>): (r: string)
    ensures r != "" <==> Truthy(s)
    ensures Truthy(s) ==> r == s.value
  {
    if Truthy(s) then s.value else ""
  }

  /** `hasTimeInfo`: the row shows a time line. */
  predicate HasTimeInfo(item: AgendaItem) {
    Truthy(item.startTime) || Truthy(item.endTime)
  }

  /** The text of the time line: start, then " - " when both ends are set, then end. */
  function TimeLabel(item: AgendaItem): (text: string)
    ensures Truthy(item.startTime) && Truthy(item.endTime) ==>
      text == item.startTime.value + " - " + item.endTime.value
    ensures Truthy(item.startTime) && !Truthy(item.endTime) ==> text == item.startTime.value
    ensures !Truthy(item.startTime) && Truthy(item.endTime) ==> text == item.endTime.value
    ensures text != "" <==> HasTimeInfo(item)
  {
    TextOrEmpty(item.startTime)
    + (if Truthy(item.startTime) && Truthy(item.endTime) then " - " else "")
    + TextOrEmpty(item.endTime)
  }

  /** What a row renders. */
  datatype RowView = RowView(
    title: string,
    checkMark: bool,
    description: Option<string>,
    timeLine: Option<string>)

  /** The rendered row: check mark iff completed, description and time line only when they are set. */
  function Render(item: AgendaItem): (v: RowView)
    ensures v.title == item.title
    ensures v.checkMark <==> item.completed
    ensures v.description.Some? <==> Truthy(item.description)
    ensures v.description.Some? ==> v.description.value == item.description.value
    ensures v.timeLine.Some? <==> HasTimeInfo(item)
    ensures v.timeLine.Some? ==> v.timeLine.value == TimeLabel(item) && v.timeLine.value != ""
  {
    RowView(
      item.title,
      item.completed,
      if Truthy(item.description) then item.description else None,
      if HasTimeInfo(item) then Some(TimeLabel(item)) else None)
  }

  /** A call into the store. */
  datatype StoreCall = CompleteCall(id: string) | DeleteCall(id: string)

  /** The checkbox completes the row's own item (after the press animation). */
  function OnCheckboxPress(item: AgendaItem): StoreCall {
    CompleteCall(item.id)
  }

  /** The Remove button deletes the row's own item. */
  function OnRemovePress(item: AgendaItem): StoreCall {
    DeleteCall(item.id)
  }

  /** What a store call does to the items. */
  function Perform(call: StoreCall, items: seq<AgendaItem>): seq<AgendaItem> {
    match call
    case CompleteCall(id) => Toggled(items, id)
    case DeleteCall(id) => Deleted(items, id)
  }

  /**
   * Remove on a listed row takes that item out, together with any item
   * that shares its id, and keeps every other item.
   */
  lemma RemoveDeletesOwnItem(items: seq<AgendaItem>, item: AgendaItem)
    requires item in items
    ensures var r := Perform(OnRemovePress(item), items);
      && item !in r
      && |r| < |items|
      && (forall x :: x in r <==> x in items && x.id != item.id)
  {
    var i :| 0 <= i < |items| && items[i] == item;
    assert HasId(items, item.id);
  }

  /** Pressing the checkbox flips the row's item and leaves items with other ids unchanged. */
  lemma CheckboxFlipsOwnItem(items: seq<AgendaItem>, i: int)
    requires 0 <= i < |items|
    ensures var r := Perform(OnCheckboxPress(items[i]), items);
      && |r| == |items|
      && r[i] == Flipped(items[i])
      && (forall j :: 0 <= j < |items| && items[j].id != items[i].id ==> r[j] == items[j])
  {
  }
}
