/** The choice of what the day panel shows for the selected date. */
module DayDetail {
  import opened AgendaContext
  import opened DateHelpers

  /** The four things the panel can render. */
  datatype Panel =
    | PastDayMessage
    | FutureDayMessage
    | EmptyState
    | ItemList(items: seq<AgendaItem>)

  /**
   * `DayDetail`: the past-day message when the caller says the day is
   * past, else the future-day message when the date is neither past nor
   * today, else the empty state or the items in the given order.
   */
  function ChoosePanel(date: Date, items: seq<AgendaItem>, isPastDay: bool, now: Date): (p: Panel)
    ensures isPastDay ==> p == PastDayMessage
    ensures !isPastDay ==> (p == FutureDayMessage <==> date.day > now.day)
    ensures !isPastDay && date.day <= now.day ==> (p == EmptyState <==> items == [])
    ensures p.ItemList? <==> !isPastDay && date.day <= now.day && items != []
    ensures p.ItemList? ==> p.items == items
  {
    PastIff(date, now);
    SameDayIff(date, now);
    var isFutureDay := !IsPast(date, now) && !IsToday(date, now);
    if isPastDay then PastDayMessage
    else if isFutureDay then FutureDayMessage
    else if |items| == 0 then EmptyState
    else ItemList(items)
  }

  /** A past date handed over with `isPastDay` false is not shown as future. */
  lemma PastDateFallsThrough(date: Date, items: seq<AgendaItem>, now: Date)
    requires IsPast(date, now)
    ensures ChoosePanel(date, items, false, now) == if items == [] then EmptyState else ItemList(items)
  {
    PastIff(date, now);
  }

  /**
   * The week screen passes `isPastDay = isPast(date) && !isToday(date)`:
   * then the panel depends only on how the day compares with today.
   */
  lemma WeekScreenPanel(date: Date, items: seq<AgendaItem>, now: Date)
    ensures var p := ChoosePanel(date, items, IsPast(date, now) && !IsToday(date, now), now);
      && (p == PastDayMessage <==> date.day < now.day)
      && (p == FutureDayMessage <==> date.day > now.day)
      && (date.day == now.day ==> p == if items == [] then EmptyState else ItemList(items))
  {
    PastIff(date, now);
    PastIsNotToday(date, now);
  }
}
