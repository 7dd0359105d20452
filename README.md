# Agenda app core in Dafny

This project models the logic of a small React Native to-do app. The model covers:

- **the item store**: the `AgendaItem` record and the four list transforms the provider applies to its `items` state: add, update, delete and complete. An `AgendaStore` class holds `items` and `loading`. Each of its methods replaces `items` with the result of the matching transform.
- **the calendar-day helpers**: `isToday`, `isSameDay`, `isPast`, the week bounds, and the two loops that build the current week and the next seven days. A date is a local day number plus milliseconds since local midnight. Day 0 is Thursday 1 January 1970. "Now" is a parameter.
- **the day panel rule**: past message, future message, empty state or item list.
- **an agenda row**: its time label, which parts are visible, and which store call each button makes.
- **the date/time picker**: `HH:MM` formatting through `toString().padStart(2, '0')`, and the cancel/confirm rule on Android and iOS. The picker's `selectedValue` state is held in a `PickerModal` class.

Files: `wrappers.dfy` (Option), `agenda_context.dfy`, `date_helpers.dfy`, `day_detail.dfy`, `agenda_item_component.dfy`, `date_time_picker_modal.dfy`.

The model keeps these behaviours of the code as written:

- `addItem` does not make ids unique. The id is `Date.now().toString()`, so two adds in the same millisecond collide. The model takes the id as a parameter and claims no uniqueness. `updateItem` and `completeItem` change every item whose id matches, and `deleteItem` removes them all.
- Mutations are not deferred while loading. The updaters run at any time; only saving waits on `!loading`. A finished load replaces `items` with the stored collection. A missing or unreadable one leaves `items` as it was, which is not necessarily empty.
- `addItem` copies `description`, `startTime` and `endTime` from its argument as given. It does not default them to `""`.
- The store accepts any title, including an empty one. The non-empty check is in the add screen, which is not part of this model.

## Model

| member | source | states |
|---|---|---|
| AgendaContext.NewItem | context/AgendaContext.tsx:82-86 | the new item has the supplied id and `completed == false`, even when the draft says completed; every other field comes from the draft |
| AgendaContext.Added | context/AgendaContext.tsx:88 | appending makes the list one longer, keeps the old list as its prefix, and puts the new item last |
| AgendaContext.AddAppendsLast | context/AgendaContext.tsx:81-89 | after an add, every earlier item is unchanged at its index, and the last item has the given id, is not completed, and has the draft's title and date |
| AgendaContext.Merge | context/AgendaContext.tsx:94 | one property of a spread: a present patch value wins, an absent one keeps the current value |
| AgendaContext.Patched | context/AgendaContext.tsx:94 | `{ ...item, ...updates }` sets exactly the fields present in the patch, including `id` and `completed`, and keeps all other fields |
| AgendaContext.EmptyPatchIsIdentity | context/AgendaContext.tsx:94 | a patch with no properties leaves the item unchanged |
| AgendaContext.PatchIdempotent | context/AgendaContext.tsx:94 | applying the same patch twice is the same as applying it once |
| AgendaContext.PatchesCompose | context/AgendaContext.tsx:94 | patching with p and then q is patching once with `{ ...p, ...q }` |
| AgendaContext.Updated | context/AgendaContext.tsx:91-97 | update keeps length and order; every item with the target id is patched, and every other item is unchanged |
| AgendaContext.UpdateKeepsOthers | context/AgendaContext.tsx:92-96 | an item whose id differs from the target keeps its value under any patch |
| AgendaContext.UpdateIdempotent | context/AgendaContext.tsx:91-97 | updating twice with the same patch equals updating once, for every patch, including one that changes `id` |
| AgendaContext.Deleted | context/AgendaContext.tsx:99-101 | delete keeps exactly the items whose id differs; the list gets no longer, and strictly shorter when the id is present; with the id absent it is unchanged |
| AgendaContext.DeleteConcat | context/AgendaContext.tsx:100 | deleting from a concatenation is concatenating the deletions, so the kept items stay in their original relative order |
| AgendaContext.DeleteSingleton | context/AgendaContext.tsx:100 | deleting from a one-item list removes the item exactly when its id matches |
| AgendaContext.DeleteRemovesAll | context/AgendaContext.tsx:99-101 | after a delete, no item has the id |
| AgendaContext.DeleteIdempotent | context/AgendaContext.tsx:100 | deleting the same id twice equals deleting it once |
| AgendaContext.Flipped | context/AgendaContext.tsx:106 | flipping negates `completed` and changes nothing else |
| AgendaContext.Toggled | context/AgendaContext.tsx:103-109 | complete keeps length and order; it flips every item with the target id and leaves every other item unchanged |
| AgendaContext.ToggleInvolution | context/AgendaContext.tsx:103-109 | completing the same id twice gives back the original list |
| AgendaContext.ToggleChangesOnlyCompleted | context/AgendaContext.tsx:106 | at every index, only `completed` can change, and it changes iff the item's id matches |
| AgendaContext.AbsentIdIsNoOp | context/AgendaContext.tsx:91-109 | with an id that no item has, update, delete and complete all leave the list unchanged |
| AgendaContext.PayRentScenario | context/AgendaContext.tsx:81-109 | adding "Pay rent" with id "1000", retitling it, then completing it gives the expected single item |
| AgendaContext.AgendaStore.constructor | context/AgendaContext.tsx:30-31 | the store starts with no items and in the loading state |
| AgendaContext.AgendaStore.FinishLoading | context/AgendaContext.tsx:34-58 | a finished load replaces the items with the stored collection if there is one, otherwise keeps them, and always clears `loading` |
| AgendaContext.AgendaStore.AddItem | context/AgendaContext.tsx:81-89 | the new items are the old items plus the new item at the end |
| AgendaContext.AgendaStore.UpdateItem | context/AgendaContext.tsx:91-97 | the new items are the updated old items; they are unchanged when the id is absent |
| AgendaContext.AgendaStore.DeleteItem | context/AgendaContext.tsx:99-101 | the new items are the filtered old items, and none has the id |
| AgendaContext.AgendaStore.CompleteItem | context/AgendaContext.tsx:103-109 | the new items are the toggled old items; they are unchanged when the id is absent |
| AgendaContext.CompleteTwiceRestores | context/AgendaContext.tsx:103-109 | two `completeItem` calls with the same id on a store restore its items |
| DateHelpers.TimestampOrder | utils/dateHelpers.ts:35 | comparing Dates orders them by day first and then by time of day; equal timestamps mean equal dates |
| DateHelpers.Weekday | utils/dateHelpers.ts:44 | the weekday is in 0..6 |
| DateHelpers.WeekdayCycle | utils/dateHelpers.ts:44 | the weekday goes up by one each day and wraps from Saturday to Sunday; day 0 (1 January 1970) is a Thursday and day 3 is a Sunday, so 0 stands for Sunday |
| DateHelpers.StartOfDay | utils/dateHelpers.ts:29-33 | definition of `setHours(0, 0, 0, 0)` on a copy; its properties are `SameDayIff` and `PastIff` |
| DateHelpers.AddDays | utils/dateHelpers.ts:52 | definition of `addDays`: same time of day, n days later; used in the contracts of `GetCurrentWeekDates` and `GetNext7Days` |
| DateHelpers.IsSameDay | utils/dateHelpers.ts:20-22 | definition of `isSameDay` as equal start of day; its properties are `SameDayIff` and `SameDayReflexiveSymmetric` |
| DateHelpers.IsToday | utils/dateHelpers.ts:13-15 | definition of `isToday` as the same day as now; its property is `TodayIff` |
| DateHelpers.IsPast | utils/dateHelpers.ts:27-36 | definition of `isPast` as midnight before today's midnight; its properties are `PastIff`, `PastIsNotToday` and `PastSamples` |
| DateHelpers.StartOfWeek | utils/dateHelpers.ts:44 | definition of `startOfWeek` with Sunday start; its properties are `WeekBounds` and `GetCurrentWeekDates` |
| DateHelpers.EndOfWeek | utils/dateHelpers.ts:45 | definition of `endOfWeek` with Sunday start; its properties are `WeekBounds` and `GetCurrentWeekDates` |
| DateHelpers.SameDayIff | utils/dateHelpers.ts:20-22 | two dates are on the same day iff their day numbers are equal |
| DateHelpers.TodayIff | utils/dateHelpers.ts:13-15 | a date is today iff it has today's day number, whatever its time of day |
| DateHelpers.SameDayReflexiveSymmetric | utils/dateHelpers.ts:20-22 | `isSameDay` is reflexive and symmetric |
| DateHelpers.PastIff | utils/dateHelpers.ts:27-36 | a date is past iff its day number is below today's; the time of day does not matter |
| DateHelpers.PastIsNotToday | utils/dateHelpers.ts:29-35 | a past date is never today, so the extra `!isToday` guard callers add changes nothing |
| DateHelpers.PastSamples | utils/dateHelpers.ts:27-36 | today at 00:00 and at 23:59 is not past; yesterday at 23:59 is past |
| DateHelpers.WeekBounds | utils/dateHelpers.ts:44-45 | the week starts on the Sunday midnight on or before now and ends at 23:59:59.999 on the Saturday six days later; now lies between them |
| DateHelpers.GetCurrentWeekDates | utils/dateHelpers.ts:41-56 | the loop ends with exactly 7 dates, and every date lies in [start, end]; the first is the Sunday midnight on or before today, each later date is one day after the previous, and the entry at today's weekday index is today |
| DateHelpers.GetNext7Days | utils/dateHelpers.ts:61-70 | exactly 7 dates, where element i is today plus i days; element 0 is now itself |
| DayDetail.ChoosePanel | components/DayDetail.tsx:17-43 | `isPastDay` always gives the past message; otherwise the future message appears iff the date's day is after today; if not, an empty list gives the empty state and a non-empty list gives the item list in the given order |
| DayDetail.PastDateFallsThrough | components/DayDetail.tsx:18-30 | a past date passed with `isPastDay` false is never shown as future; it gives the empty state or the item list |
| DayDetail.WeekScreenPanel | components/DayDetail.tsx:17-30 | with the flag the week screen passes (`isPast(date) && !isToday(date)`), the panel is the past message iff the day is before today, the future message iff it is after today, and the empty state or the list on today |
| AgendaItemComponent.TextOrEmpty | components/AgendaItemComponent.tsx:80 | `s ? s : ''` is nonempty iff s is present and non-empty, and it is then s |
| AgendaItemComponent.HasTimeInfo | components/AgendaItemComponent.tsx:30 | definition of `hasTimeInfo`; `TimeLabel` and `Render` state that it holds iff the label is non-empty and the time row shows |
| AgendaItemComponent.OnCheckboxPress | components/AgendaItemComponent.tsx:16-21 | definition of the checkbox's store call; its property is `CheckboxFlipsOwnItem` |
| AgendaItemComponent.OnRemovePress | components/AgendaItemComponent.tsx:90 | definition of the Remove button's store call; its property is `RemoveDeletesOwnItem` |
| AgendaItemComponent.TimeLabel | components/AgendaItemComponent.tsx:76-85 | the label is "start - end" when both times are set and exactly the one time when only one is set; it is nonempty iff the time row is shown |
| AgendaItemComponent.Render | components/AgendaItemComponent.tsx:45-85 | the check mark shows iff the item is completed; the description shows only when it is non-empty; the time row shows iff a time is set, and then carries the label |
| AgendaItemComponent.RemoveDeletesOwnItem | components/AgendaItemComponent.tsx:88-91 | Remove deletes the row's own id: that item is gone, the list is shorter, and every item with a different id is kept |
| AgendaItemComponent.CheckboxFlipsOwnItem | components/AgendaItemComponent.tsx:16-21 | the checkbox completes the row's own id: that item is flipped and items with other ids are unchanged |
| DateTimePickerModal.DigitChar | components/DateTimePickerModal.tsx:38 | a digit value becomes a character between '0' and '9' |
| DateTimePickerModal.DecimalString | components/DateTimePickerModal.tsx:38 | `toString()` gives a nonempty string of digits with no leading zero; it is one character long iff the number is below 10 |
| DateTimePickerModal.DecimalRoundTrip | components/DateTimePickerModal.tsx:38 | the digits that `toString()` writes read back as the number |
| DateTimePickerModal.PadStart | components/DateTimePickerModal.tsx:38-39 | `padStart` makes the text at least `width` long, keeps the original text as its suffix, and fills the front with the given character |
| DateTimePickerModal.Pad2OneDigit | components/DateTimePickerModal.tsx:38-39 | a value below 10 gets exactly one leading '0' |
| DateTimePickerModal.Pad2TwoDigits | components/DateTimePickerModal.tsx:38-39 | a two-digit value is not padded |
| DateTimePickerModal.Pad2Digits | components/DateTimePickerModal.tsx:56-57 | below 100, the padded text is the tens digit followed by the units digit |
| DateTimePickerModal.Pad2 | components/DateTimePickerModal.tsx:38-39 | definition of `toString().padStart(2, '0')`; its properties are `Pad2OneDigit`, `Pad2TwoDigits` and `Pad2Digits` |
| DateTimePickerModal.FormatTime | components/DateTimePickerModal.tsx:56-58 | definition of the `${hours}:${minutes}` text; its properties are `FormatTimeShape`, `FormatTimeRoundTrip` and `FormatTimeInjective` |
| DateTimePickerModal.Hours | components/DateTimePickerModal.tsx:56 | definition of `getHours()`; its property is `ClockFields` |
| DateTimePickerModal.Minutes | components/DateTimePickerModal.tsx:57 | definition of `getMinutes()`; its property is `ClockFields` |
| DateTimePickerModal.FormatTimeShape | components/DateTimePickerModal.tsx:38-40 | for hours 0..23 and minutes 0..59 the text has length 5, with ':' at index 2 and two digits on each side |
| DateTimePickerModal.FormatTimeRoundTrip | components/DateTimePickerModal.tsx:56-58 | the `HH:MM` text parses back to the same hours and minutes |
| DateTimePickerModal.FormatTimeInjective | components/DateTimePickerModal.tsx:56-58 | different clock times give different texts |
| DateTimePickerModal.ClockFields | components/DateTimePickerModal.tsx:38-39 | `getHours()` is below 24 and `getMinutes()` is below 60 for every date |
| DateTimePickerModal.ConfirmedValue | components/DateTimePickerModal.tsx:34-40 | date mode confirms the chosen date unchanged; time mode confirms a five-character `HH:MM` text of the date's hours and minutes |
| DateTimePickerModal.AndroidChange | components/DateTimePickerModal.tsx:31-42 | an Android change event always starts by calling `onCancel` |
| DateTimePickerModal.AndroidConfirmsAtMostOnce | components/DateTimePickerModal.tsx:31-42 | on Android, `onConfirm` is called once when a value was selected and never otherwise; it comes after `onCancel` |
| DateTimePickerModal.PickerModal.constructor | components/DateTimePickerModal.tsx:21 | the staged value starts as the `date` prop |
| DateTimePickerModal.PickerModal.OnVisibleChanged | components/DateTimePickerModal.tsx:24-28 | becoming visible resets the staged value to the `date` prop; otherwise the value is kept |
| DateTimePickerModal.PickerModal.HandleChange | components/DateTimePickerModal.tsx:30-49 | on Android: the cancel-then-confirm calls, and the staged value unchanged; elsewhere: no callback, and the selection staged only when a value was selected |
| DateTimePickerModal.PickerModal.HandleConfirm | components/DateTimePickerModal.tsx:51-60 | one `onConfirm` call with the staged value, in the mode's form |
| DateTimePickerModal.ConfirmPathsAgree | components/DateTimePickerModal.tsx:30-60 | for the same selection, Android confirms the same value in its change event that iOS confirms only from the Confirm button, and the iOS change event calls nothing |

## Left out

- Persistence: the storage reads and writes, `JSON.parse`/`JSON.stringify`, the web/native branch and error logging. These are I/O. The parsed load result is a parameter of `FinishLoading`. The save that follows every change once `loading` is false is not modelled.
- React plumbing: the provider check in `useAgenda`, effect scheduling, and the asynchronous `setItems` updater form. Each store method applies its updater at once.
- The press animation and the timer before `completeItem`. Only the store call the checkbox makes is modelled.
- `Patched`: for `id`, `title`, `date` and `completed`, a property that is present but explicitly `undefined` is not modelled. Their patch fields are plain `Option`s, so they cannot express it, although JavaScript spread would copy that `undefined` over the field. For the optional `description`, `startTime` and `endTime`, the patch field `Some(None)` is such an explicit `undefined` and clears the field.
- `formatDate` and the other date-fns formatting functions: their output depends on the locale. `formatDate` is not part of this model.
- The real clock, time zones and daylight-saving shifts. A date is a local day number and a time of day, so every day is 24 hours long. `AddDays` keeps the time of day.
- The week strip's day flags, scroll offsets and styling: these only combine the date predicates. Native picker widgets, the iOS modal layout and the Android `visible` early return are also left out.
- The random quote choice on the past and future messages, the empty state text and the colour constants: these are cosmetic content.
