# CRM Motors Lightning components in Dafny

This project models the client-side logic of the CRM Motors Salesforce Lightning
Web Components and proves properties of that model. It covers:

- the seven-step repair-reservation wizard. This is the controller (`reservationFlow`) and the step
  views it hosts: customer, asset, repair selection, repair shop, date and slot, and final
  confirmation;
- the order delivery tracker;
- the vehicle parts and battery panels;
- the two address pickers (a built-in Korean address table and a place-search picker);
- the account record lists (contracts, orders, opportunities, warranties);
- the account customer card;
- today's visit reservations;
- the navigation bar.

The model follows each component's own form:

- Components whose handlers reassign tracked fields are Dafny classes. Every handler states its
  whole new state, and its `modifies` clause names only the fields the handler assigns. The two
  wizard dispatchers `Dispatch` and `DispatchAll` are not handlers of the component. They exist to
  carry the step invariant to the class, and they state the step only.
- Getters and classifiers are functions with contracts.
- List mappings are sequence comprehensions whose length and per-element contents are stated.
- `Js.dfy` gives the JavaScript meaning the components rely on:
  - `undefined`/`null` is an `Option`, except where the two behave differently. A slot's
    remaining count is one such place, and it has a `Count` datatype of its own;
  - truthiness and `a || b`;
  - how `${…}` prints `undefined`;
  - `split`/`join`, `includes`, `toLowerCase`, `trim`;
  - string comparison;
  - integer printing.
- `RecordLists.dfy` holds what the account lists share: the wired list state, the count, the date
  and currency formatters, and `Math.ceil` of a day count.
- `CrossComponent.dfy` states properties that span components. One is that the service details
  selected in step 3 reach step 6 intact, each with its label.

Remote calls (Apex methods, wire adapters, record updates) are not executed. Their answers are
parameters of the handlers: a `WireResult`, an `Option`, or a success/failure datatype. The
requests sent by `Step6FinalConfirm.HandleSubmit` and `LoadTechnicianPreview`, and the two address
saves are returned as values; `ContractMap.HandleSearch` returns whether it sends its query. Every modelled handler
returns the toasts it raises and the `CustomEvent`s it dispatches (their names and payloads). The clock and the locale formatters are functions passed in, in the
`Env`/`TimeFormat` records. `millisUntil(d)` there is the date `d` minus now, in milliseconds.

One behaviour of the code is worth knowing. In the warranty list, `isExpired` compares instants,
but the status class rounds the day difference up with `Math.ceil`. During the first day after the
expiry instant, a warranty is therefore flagged as expired while its class is `status-expiring`.
`AccountWarrantyList.JustExpiredShowsExpiring` proves this. It is recorded as behaviour, not as a
defect, because nothing in the code says which of the two readings is meant.

## Model

The path prefix `force-app/main/default/lwc/` is written out in every source cell.

| member | source | states |
|---|---|---|
| ReservationFlow.RunStaysInRange | force-app/main/default/lwc/reservationFlow/reservationFlow.js:34-96 | from any step in 1..7, any sequence of the six step handlers and "previous" keeps the step in 1..7 |
| ReservationFlow.PreviousOnlyRetreats | force-app/main/default/lwc/reservationFlow/reservationFlow.js:91-96 | n presses of "previous" take step s to max(s - n, 1) |
| ReservationFlow.StepAfter | force-app/main/default/lwc/reservationFlow/reservationFlow.js:34-96 | one event keeps a step in 1..7; "previous" never advances; a failed submission stays put |
| ReservationFlow.ReservationFlow.constructor | force-app/main/default/lwc/reservationFlow/reservationFlow.js:5-16 | a new wizard is at step 1 with every collected field empty ({} or '') |
| ReservationFlow.ReservationFlow.VisibleSteps | force-app/main/default/lwc/reservationFlow/reservationFlow.js:18-24 | the seven `isStepN` flags, in order |
| ReservationFlow.ExactlyOneStepVisible | force-app/main/default/lwc/reservationFlow/reservationFlow.js:18-24 | in every valid state exactly one `isStepN` is true, the one equal to `step` |
| ReservationFlow.ReservationFlow.SelectedServiceDetails | force-app/main/default/lwc/reservationFlow/reservationFlow.js:27-32 | the stored detail string when truthy, else '' |
| ReservationFlow.ReservationFlow.HandleStep1 | force-app/main/default/lwc/reservationFlow/reservationFlow.js:34-41 | stores the customer, moves to step 2, and writes no other field |
| ReservationFlow.ReservationFlow.HandleStep2 | force-app/main/default/lwc/reservationFlow/reservationFlow.js:43-48 | stores asset and asset id, moves to step 3, and writes no other field |
| ReservationFlow.ReservationFlow.HandleStep3 | force-app/main/default/lwc/reservationFlow/reservationFlow.js:50-63 | stores the service data, type and type value, moves to step 4; `selectedServiceDetails` then returns the sent detail string, or '' when it is missing |
| ReservationFlow.ReservationFlow.HandleStep4 | force-app/main/default/lwc/reservationFlow/reservationFlow.js:65-73 | stores shop id and name, moves to step 5 |
| ReservationFlow.ReservationFlow.HandleStep5 | force-app/main/default/lwc/reservationFlow/reservationFlow.js:75-80 | stores date and slot time, moves to step 6 |
| ReservationFlow.ReservationFlow.HandleStep6 | force-app/main/default/lwc/reservationFlow/reservationFlow.js:82-89 | moves to step 7 only on reported success; otherwise the step is unchanged |
| ReservationFlow.ReservationFlow.HandlePrevious | force-app/main/default/lwc/reservationFlow/reservationFlow.js:91-96 | step decreases by one above 1, stays at 1, and no collected field is touched |
| ReservationFlow.ReservationFlow.Dispatch | force-app/main/default/lwc/reservationFlow/reservationFlow.js:34-96 | one handler call moves the step as the step function says |
| ReservationFlow.ReservationFlow.DispatchAll | force-app/main/default/lwc/reservationFlow/reservationFlow.js:34-96 | a sequence of handler calls ends at the step `Run` computes, so `RunStaysInRange` applies to the class |
| ReservationFlow.CountOneHot | force-app/main/default/lwc/reservationFlow/reservationFlow.js:18-24 | a flag list true at exactly one index has one true flag |
| ReservationFlow.WalkThrough | force-app/main/default/lwc/reservationFlow/reservationFlow.js:34-96 | advancing through steps 1 to 5, a failed and a successful submission, then "previous" pass steps 2, 3, 4, 5, 6, 6, 7, 6, and everything collected is kept |
| CustomerInfo.CustomerInfo.constructor | force-app/main/default/lwc/customerInfo/customerInfo.js:7-10 | name, phone, email and account id start undefined |
| CustomerInfo.CustomerInfo.WiredCustomer | force-app/main/default/lwc/customerInfo/customerInfo.js:13-27 | data maps Name, Phone, PersonEmail and Id to the four fields; an error or no answer leaves them unchanged |
| CustomerInfo.CustomerInfo.HandleNext | force-app/main/default/lwc/customerInfo/customerInfo.js:29-49 | no account id: an error toast and no payload; otherwise a payload of exactly the four fields |
| CustomerAsset.FormatAsset | force-app/main/default/lwc/customerAsset/customerAsset.js:18-24 | keeps the asset; the date is null without an expiry date; icon, variant and text follow `isWarrantyValid` |
| CustomerAsset.WarrantyDisplayOnlyByValidity | force-app/main/default/lwc/customerAsset/customerAsset.js:21-23 | two assets with the same validity get the same icon, variant and status text |
| CustomerAsset.FormatAssets | force-app/main/default/lwc/customerAsset/customerAsset.js:18-24 | the mapping keeps count and order |
| CustomerAsset.CustomerAsset.constructor | force-app/main/default/lwc/customerAsset/customerAsset.js:5 | no assets |
| CustomerAsset.CustomerAsset.WiredAssets | force-app/main/default/lwc/customerAsset/customerAsset.js:16-27 | data replaces the assets with their mapping; an error keeps them |
| CustomerAsset.CustomerAsset.HandlePrevious | force-app/main/default/lwc/customerAsset/customerAsset.js:58-60 | the `previous` event for the wizard, and no change of state |
| CustomerAsset.CustomerAsset.HandleNext | force-app/main/default/lwc/customerAsset/customerAsset.js:40-56 | no assets: `assetInfo` null and no asset id; otherwise the first asset and its `assetInfo.Id` |
| RepairSelector.WithDetail | force-app/main/default/lwc/repairSelector/repairSelector.js:118-121 | checking appends the value only when absent: membership is old plus value, and no duplicates arise |
| RepairSelector.WithoutDetail | force-app/main/default/lwc/repairSelector/repairSelector.js:122-124 | unchecking removes every occurrence and keeps the rest in order, as a subsequence |
| RepairSelector.SubsequenceNoDuplicates | force-app/main/default/lwc/repairSelector/repairSelector.js:122-124 | a subsequence of a duplicate-free list is duplicate-free |
| RepairSelector.DetailsRoundTrip | force-app/main/default/lwc/repairSelector/repairSelector.js:144-157 | splitting the ';'-joined selection on ';' gives the selection back, when it is non-empty and no value contains ';' |
| RepairSelector.FindOption | force-app/main/default/lwc/repairSelector/repairSelector.js:76 | `find` by value: none exactly when no option has the value; otherwise the first option with it |
| RepairSelector.DisplayLabel | force-app/main/default/lwc/repairSelector/repairSelector.js:75-78 | the label of the first option with the value, or the value itself when no option has it |
| RepairSelector.RepairSelector.constructor | force-app/main/default/lwc/repairSelector/repairSelector.js:7-14 | empty type, details, description and options |
| RepairSelector.RepairSelector.FilteredDetailOptions | force-app/main/default/lwc/repairSelector/repairSelector.js:62-68 | same length and order as the options; `isSelected` exactly when the value is selected |
| RepairSelector.RepairSelector.HasSelectedDetails | force-app/main/default/lwc/repairSelector/repairSelector.js:70-72 | exactly when some detail is selected |
| RepairSelector.RepairSelector.SelectedDetailsDisplay | force-app/main/default/lwc/repairSelector/repairSelector.js:74-79 | one display label per selected value, in order |
| RepairSelector.RepairSelector.IsNextDisabled | force-app/main/default/lwc/repairSelector/repairSelector.js:81-83 | disabled exactly when the type is empty or nothing is selected |
| RepairSelector.RepairSelector.ValidateForm | force-app/main/default/lwc/repairSelector/repairSelector.js:176-182 | valid exactly when next is not disabled |
| RepairSelector.RepairSelector.GetFormData | force-app/main/default/lwc/repairSelector/repairSelector.js:168-174 | type, description and the same ';'-joined details as the step payload |
| RepairSelector.RepairSelector.HandleServiceTypeValueChange | force-app/main/default/lwc/repairSelector/repairSelector.js:85-88 | stores the service type value |
| RepairSelector.RepairSelector.LoadDependentPicklistValues | force-app/main/default/lwc/repairSelector/repairSelector.js:99-112 | empty type empties the options; otherwise the fetched options, or unchanged on failure |
| RepairSelector.RepairSelector.HandleServiceTypeChange | force-app/main/default/lwc/repairSelector/repairSelector.js:90-97 | stores the type, empties the selected details, reloads the options |
| RepairSelector.RepairSelector.HandleDetailChange | force-app/main/default/lwc/repairSelector/repairSelector.js:114-127 | check or uncheck as `WithDetail`/`WithoutDetail`, keeping the selection duplicate-free |
| RepairSelector.RepairSelector.HandleDescriptionChange | force-app/main/default/lwc/repairSelector/repairSelector.js:129-131 | stores the description |
| RepairSelector.RepairSelector.HandlePrevious | force-app/main/default/lwc/repairSelector/repairSelector.js:133-135 | the `previous` event for the wizard, and no change of state |
| RepairSelector.RepairSelector.HandleNext | force-app/main/default/lwc/repairSelector/repairSelector.js:138-158 | step 4 payload with the four fields; the details split back into the selection |
| RepairShopSelector.Marked | force-app/main/default/lwc/repairShopSelector/repairShopSelector.js:323-331 | same shops in order; each flagged exactly when its id is the selection, with the matching class |
| RepairShopSelector.ShopClass | force-app/main/default/lwc/repairShopSelector/repairShopSelector.js:196 | `repair-shop selected` exactly for the selected shop, else `repair-shop` |
| RepairShopSelector.MarkedNone | force-app/main/default/lwc/repairShopSelector/repairShopSelector.js:54-58 | with no selection every shop is unflagged with class 'repair-shop' |
| RepairShopSelector.WithCoords | force-app/main/default/lwc/repairShopSelector/repairShopSelector.js:80-81 | only shops with both coordinates, never more than the list |
| RepairShopSelector.WithCoordsExactly | force-app/main/default/lwc/repairShopSelector/repairShopSelector.js:80-81 | an in-order subsequence holding exactly the shops with both coordinates |
| RepairShopSelector.PlainMarker | force-app/main/default/lwc/repairShopSelector/repairShopSelector.js:82-90 | the shop's location, name, address and phone text, and the location icon |
| RepairShopSelector.SelectionMarker | force-app/main/default/lwc/repairShopSelector/repairShopSelector.js:105-116 | the selected shop gets the success icon and a check in its title; the others keep the location icon |
| RepairShopSelector.Markers | force-app/main/default/lwc/repairShopSelector/repairShopSelector.js:78-93 | one plain marker per shop with coordinates, in order |
| RepairShopSelector.SelectionMarkers | force-app/main/default/lwc/repairShopSelector/repairShopSelector.js:95-123 | one selection marker per shop with coordinates, in order |
| RepairShopSelector.FirstWithCoords | force-app/main/default/lwc/repairShopSelector/repairShopSelector.js:127 | the first shop with both coordinates, none exactly when no shop has them |
| RepairShopSelector.DefaultLocation | force-app/main/default/lwc/repairShopSelector/repairShopSelector.js:144-168 | the table entry of a known province, else Seoul |
| RepairShopSelector.Center | force-app/main/default/lwc/repairShopSelector/repairShopSelector.js:125-142 | the first shop with coordinates, else the province default |
| RepairShopSelector.FindShop | force-app/main/default/lwc/repairShopSelector/repairShopSelector.js:178 | `find` by id: none exactly when no shop has the id; otherwise the first shop with it |
| RepairShopSelector.RepairShopSelector.constructor | force-app/main/default/lwc/repairShopSelector/repairShopSelector.js:7-14 | empty search, no selection, Seoul centre, zoom 14 |
| RepairShopSelector.RepairShopSelector.IsSearchDisabled | force-app/main/default/lwc/repairShopSelector/repairShopSelector.js:16-18 | disabled exactly when province or city is empty |
| RepairShopSelector.RepairShopSelector.HasRepairShops | force-app/main/default/lwc/repairShopSelector/repairShopSelector.js:20-22 | exactly when the list is non-empty |
| RepairShopSelector.RepairShopSelector.ShowNoResults | force-app/main/default/lwc/repairShopSelector/repairShopSelector.js:24-26 | exactly when a search ran and the list is empty |
| RepairShopSelector.RepairShopSelector.IsNextDisabled | force-app/main/default/lwc/repairShopSelector/repairShopSelector.js:28-30 | exactly when no shop is selected |
| RepairShopSelector.RepairShopSelector.HandleProvinceChange | force-app/main/default/lwc/repairShopSelector/repairShopSelector.js:32-37 | stores the province; clears city, list and the searched flag |
| RepairShopSelector.RepairShopSelector.HandleSearch | force-app/main/default/lwc/repairShopSelector/repairShopSelector.js:47-76 | success: unflagged list, no selection, markers, centre, zoom 14; failure: empty list and markers; a search is recorded either way |
| RepairShopSelector.RepairShopSelector.HandleCityChange | force-app/main/default/lwc/repairShopSelector/repairShopSelector.js:39-76 | stores the city; without province or city nothing else changes; with both the search runs, with the same success and failure states as `HandleSearch` |
| RepairShopSelector.RepairShopSelector.HandleShopClick | force-app/main/default/lwc/repairShopSelector/repairShopSelector.js:172-232 | an unknown id changes nothing; a listed id selects exactly the shops with it, and with coordinates centres on it at zoom 16 with highlighted markers |
| RepairShopSelector.RepairShopSelector.HandleRefresh | force-app/main/default/lwc/repairShopSelector/repairShopSelector.js:313-360 | new list keeps the selection flags; markers follow; the success toast counts the shops with coordinates, which is the number of markers; a failed query changes nothing and raises the error toast |
| RepairShopSelector.RepairShopSelector.HandlePrevious | force-app/main/default/lwc/repairShopSelector/repairShopSelector.js:309-311 | the `previous` event for the wizard, and no change of state |
| RepairShopSelector.RepairShopSelector.HandleNext | force-app/main/default/lwc/repairShopSelector/repairShopSelector.js:362-383 | no selection: warning and no payload; otherwise the id and the listed name, or '선택된 정비소' |
| RepairShopSelector.ClickSelectsExactly | force-app/main/default/lwc/repairShopSelector/repairShopSelector.js:191-198 | the list keeps its length and flags exactly the shops carrying the clicked id |
| RepairShopSelector.SearchClearsSelection | force-app/main/default/lwc/repairShopSelector/repairShopSelector.js:54-60 | after a search no shop is flagged and next is disabled |
| FinalRepairReservation.SlotViewOf | force-app/main/default/lwc/finalRepairReservation/finalRepairReservation.js:78-83 | full label is the label; a number count: disabled and `destructive` exactly when at most 0; `null` (0 for the comparisons): disabled and `destructive`; `undefined` (NaN): `destructive` but enabled |
| FinalRepairReservation.DisabledIffDestructive | force-app/main/default/lwc/finalRepairReservation/finalRepairReservation.js:81-82 | unless the count is `undefined`, a slot is disabled exactly when it is `destructive` |
| FinalRepairReservation.SlotViews | force-app/main/default/lwc/finalRepairReservation/finalRepairReservation.js:78-83 | the slot mapping keeps count and order |
| FinalRepairReservation.FinalRepairReservation.constructor | force-app/main/default/lwc/finalRepairReservation/finalRepairReservation.js:7-13 | no date, no slot, no slots |
| FinalRepairReservation.FinalRepairReservation.HasSlots | force-app/main/default/lwc/finalRepairReservation/finalRepairReservation.js:32-34 | exactly when the slot list is non-empty |
| FinalRepairReservation.FinalRepairReservation.IsNextDisabled | force-app/main/default/lwc/finalRepairReservation/finalRepairReservation.js:99-101 | exactly when no slot is selected |
| FinalRepairReservation.FinalRepairReservation.HandleDateChange | force-app/main/default/lwc/finalRepairReservation/finalRepairReservation.js:44-91 | a date sorting before today is refused with a toast and changes nothing; otherwise it is stored, the slot reset, and the slots fetched (emptied on failure) |
| FinalRepairReservation.FinalRepairReservation.HandleSlotSelect | force-app/main/default/lwc/finalRepairReservation/finalRepairReservation.js:93-97 | stores the chosen time |
| FinalRepairReservation.FinalRepairReservation.HandlePrevious | force-app/main/default/lwc/finalRepairReservation/finalRepairReservation.js:103-105 | the `previous` event for the wizard, and no change of state |
| FinalRepairReservation.FinalRepairReservation.HandleNext | force-app/main/default/lwc/finalRepairReservation/finalRepairReservation.js:107-133 | a payload `{step 6, date, slot}` exactly when slot, date, account, shop and details are all present |
| FinalRepairReservation.PickDateThenSlot | force-app/main/default/lwc/finalRepairReservation/finalRepairReservation.js:44-133 | taking a date no earlier than today shows its slots with next still disabled; picking a slot then gives the step-6 payload of that date and time |
| Step6FinalConfirm.LabelOf | force-app/main/default/lwc/step6FinalConfirm/step6FinalConfirm.js:90 | the mapped label when non-empty, else the key |
| Step6FinalConfirm.DetailLabels | force-app/main/default/lwc/step6FinalConfirm/step6FinalConfirm.js:88-90 | one label per ';'-separated item, in order |
| Step6FinalConfirm.DetailLabelsCount | force-app/main/default/lwc/step6FinalConfirm/step6FinalConfirm.js:88-90 | the number of labels is the number of ';' plus one |
| Step6FinalConfirm.ServiceDetailsLabel | force-app/main/default/lwc/step6FinalConfirm/step6FinalConfirm.js:84-92 | '' without details, else the labels joined by ', ' |
| Step6FinalConfirm.ServiceTypeLabel | force-app/main/default/lwc/step6FinalConfirm/step6FinalConfirm.js:94-99 | '' without a type, else its label or the raw type |
| Step6FinalConfirm.FullDateTime | force-app/main/default/lwc/step6FinalConfirm/step6FinalConfirm.js:101-103 | date, a space, and the slot time |
| Step6FinalConfirm.Nth | force-app/main/default/lwc/step6FinalConfirm/step6FinalConfirm.js:120-121 | array destructuring: the element, or undefined past the end |
| Step6FinalConfirm.SubmitDateString | force-app/main/default/lwc/step6FinalConfirm/step6FinalConfirm.js:120-124 | the date split on '-' and the time on ':', rebuilt as `Y-M-D h:m:00`; missing pieces print `undefined`. Always ends in `:00` |
| Step6FinalConfirm.SubmitDateMatchesPreview | force-app/main/default/lwc/step6FinalConfirm/step6FinalConfirm.js:120-124 | for 'YYYY-MM-DD' and 'HH:mm' the rebuilt date equals the preview's `date + ' ' + time + ':00'` (line 63) |
| Step6FinalConfirm.Step6FinalConfirm.constructor | force-app/main/default/lwc/step6FinalConfirm/step6FinalConfirm.js:8-24 | the ten inputs as given, not submitting, empty label maps, no preview shown |
| Step6FinalConfirm.Step6FinalConfirm.WiredPicklistMap | force-app/main/default/lwc/step6FinalConfirm/step6FinalConfirm.js:27-34 | data replaces the detail label map; an error keeps it |
| Step6FinalConfirm.Step6FinalConfirm.WiredServiceTypeMap | force-app/main/default/lwc/step6FinalConfirm/step6FinalConfirm.js:37-44 | data replaces the type label map; an error keeps it |
| Step6FinalConfirm.Step6FinalConfirm.LoadTechnicianPreview | force-app/main/default/lwc/step6FinalConfirm/step6FinalConfirm.js:58-82 | no request and no change without shop, date, slot or details; otherwise the preview or the failure preview |
| Step6FinalConfirm.Step6FinalConfirm.HandlePrevious | force-app/main/default/lwc/step6FinalConfirm/step6FinalConfirm.js:105-107 | the `previous` event for the wizard, and no change of state |
| Step6FinalConfirm.Step6FinalConfirm.HandleSubmit | force-app/main/default/lwc/step6FinalConfirm/step6FinalConfirm.js:109-160 | missing input: error toast, no call; otherwise the call, a step-7 payload only on reported success, the matching toast, and `submitting` false at the end |
| OrderDeliveryStatus.CurrentStatus | force-app/main/default/lwc/orderDeliveryStatus/orderDeliveryStatus.js:68-94 | the status table; always one of the four keys |
| OrderDeliveryStatus.IsCancelled | force-app/main/default/lwc/orderDeliveryStatus/orderDeliveryStatus.js:96-98 | cancelled exactly when the order status is `Cancelled` |
| OrderDeliveryStatus.StepIndex | force-app/main/default/lwc/orderDeliveryStatus/orderDeliveryStatus.js:114-116 | `findIndex` by key: the first match or -1 |
| OrderDeliveryStatus.NotCancelledHasStep | force-app/main/default/lwc/orderDeliveryStatus/orderDeliveryStatus.js:114-116 | every non-cancelled status lands on a step |
| OrderDeliveryStatus.ProcessedSteps | force-app/main/default/lwc/orderDeliveryStatus/orderDeliveryStatus.js:100-152 | cancelled: every step inactive, not completed, cancelled, `step pending` and `step-icon-container pending` with no last flag, label or connector class; otherwise active, completed, last and the icon, label and connector classes, each completed, active or pending relative to the status index |
| OrderDeliveryStatus.StepState | force-app/main/default/lwc/orderDeliveryStatus/orderDeliveryStatus.js:121-139 | the class suffix is completed before the current step, active on it and pending after it, each an if-and-only-if |
| OrderDeliveryStatus.OneActiveStep | force-app/main/default/lwc/orderDeliveryStatus/orderDeliveryStatus.js:114-151 | not cancelled: exactly one active step, the status's own, with all earlier steps completed |
| OrderDeliveryStatus.RoundedTenths | force-app/main/default/lwc/orderDeliveryStatus/orderDeliveryStatus.js:172-174 | `Math.round` of (k + 1) * 1000 / n: the nearest integer, halves rounded up |
| OrderDeliveryStatus.ProgressTenths | force-app/main/default/lwc/orderDeliveryStatus/orderDeliveryStatus.js:158-175 | 0 when cancelled; otherwise the rounded share of steps reached, 333, 667 and 1000 tenths for the three steps; 1000 exactly for Delivered |
| OrderDeliveryStatus.ProgressMonotone | force-app/main/default/lwc/orderDeliveryStatus/orderDeliveryStatus.js:164-174 | a later step never shows less progress |
| OrderDeliveryStatus.ProgressTexts | force-app/main/default/lwc/orderDeliveryStatus/orderDeliveryStatus.js:155 | the four progress values print as 0, 33.3, 66.7 and 100 |
| OrderDeliveryStatus.ProgressBarStyle | force-app/main/default/lwc/orderDeliveryStatus/orderDeliveryStatus.js:154-156 | `width: <progress>%` with the progress printed to one decimal; the values are given by `ProgressBarWidths` |
| OrderDeliveryStatus.ProgressBarWidths | force-app/main/default/lwc/orderDeliveryStatus/orderDeliveryStatus.js:154-156 | the bar is `width: 0%` when cancelled, and 33.3%, 66.7% and 100% for the three steps |
| OrderDeliveryStatus.StatusMessage | force-app/main/default/lwc/orderDeliveryStatus/orderDeliveryStatus.js:177-188 | the cancellation text, or the current step's description |
| OrderDeliveryStatus.OrderInfoOf | force-app/main/default/lwc/orderDeliveryStatus/orderDeliveryStatus.js:190-197 | each field, or '' when missing |
| OrderDeliveryStatus.OrderDeliveryStatus.constructor | force-app/main/default/lwc/orderDeliveryStatus/orderDeliveryStatus.js:6-9 | the record id, an empty order, loading, no error |
| OrderDeliveryStatus.OrderDeliveryStatus.LoadOrderData | force-app/main/default/lwc/orderDeliveryStatus/orderDeliveryStatus.js:47-66 | no record id: nothing changes; otherwise the data, or an empty order, the error and a toast |
| OrderDeliveryStatus.FailedLoadShowsPreparation | force-app/main/default/lwc/orderDeliveryStatus/orderDeliveryStatus.js:62 | an order emptied by a failure shows as in preparation at 33.3% |
| VehicleParts.StockRate | force-app/main/default/lwc/vehicleParts/vehicleParts.js:46 | `InvertoryRate || 0` |
| VehicleParts.GaugePercentage | force-app/main/default/lwc/vehicleParts/vehicleParts.js:91 | the rate clamped to 0..100 |
| VehicleParts.GaugeColor | force-app/main/default/lwc/vehicleParts/vehicleParts.js:92-101 | the four colour bands |
| VehicleParts.GaugeColorMonotone | force-app/main/default/lwc/vehicleParts/vehicleParts.js:92-101 | a higher rate never gets a colour of a lower band |
| VehicleParts.GaugeStyle | force-app/main/default/lwc/vehicleParts/vehicleParts.js:98-104 | the clamped rate as the width and its band colour as the background; `GaugeWidthReadsBack` shows the width reads back as the rate |
| VehicleParts.GaugeWidthReadsBack | force-app/main/default/lwc/vehicleParts/vehicleParts.js:90-104 | the style's width is a digit string whose value is the clamped rate |
| VehicleParts.GaugeExamples | force-app/main/default/lwc/vehicleParts/__tests__/vehicleParts.test.js:74-81 | 95 prints as '95' in green, 15 as '15' in red |
| VehicleParts.ClassificationLabel | force-app/main/default/lwc/vehicleParts/vehicleParts.js:78-88 | the six mapped labels; any other value unchanged |
| VehicleParts.PartViewOf | force-app/main/default/lwc/vehicleParts/vehicleParts.js:45-54 | a missing rate counts as 0; the gauge style and the label follow the rate and the classification |
| VehicleParts.ProcessPartsData | force-app/main/default/lwc/vehicleParts/vehicleParts.js:44-55 | keeps count and order |
| VehicleParts.FilterParts | force-app/main/default/lwc/vehicleParts/vehicleParts.js:64-76 | blank term: the first min(3, n) parts; otherwise an in-order subsequence holding exactly the parts whose lower-cased label contains the trimmed lower-cased term |
| VehicleParts.FormatPrice | force-app/main/default/lwc/vehicleParts/vehicleParts.js:106-109 | '0' for a missing or zero price, else the formatter's text |
| VehicleParts.FindPart | force-app/main/default/lwc/vehicleParts/vehicleParts.js:113 | `find` by id: none exactly when no part has the id; otherwise the first part with it |
| VehicleParts.VehicleParts.constructor | force-app/main/default/lwc/vehicleParts/vehicleParts.js:7-11 | no parts, an empty term, not loading, no error, and the shown list is the filter of the parts |
| VehicleParts.VehicleParts.LoadParts | force-app/main/default/lwc/vehicleParts/vehicleParts.js:17-41 | success: the processed parts, filtered by the term; failure: both lists empty, the error and a toast |
| VehicleParts.VehicleParts.RefreshParts | force-app/main/default/lwc/vehicleParts/vehicleParts.js:130-151 | a load, then the second query's answer: it replaces the parts and keeps the filter, or its failure keeps what the load left and raises the refresh error toast; never left loading |
| VehicleParts.VehicleParts.HandleSearchChange | force-app/main/default/lwc/vehicleParts/vehicleParts.js:58-61 | stores the term; the shown list is the filter of the parts by it |
| VehicleParts.VehicleParts.HandlePartClick | force-app/main/default/lwc/vehicleParts/vehicleParts.js:112-126 | no payload exactly when no loaded part has the id; otherwise the id, the name and the data of the first part with it |
| KoreanAddressMap.MatchingAddresses | force-app/main/default/lwc/koreanAddressMap/koreanAddressMap.js:49-50 | an in-order subsequence holding exactly the entries whose name contains the query |
| KoreanAddressMap.Suggestions | force-app/main/default/lwc/koreanAddressMap/koreanAddressMap.js:41-52 | none below two characters; at most ten, all matching, the first matches in table order, all of them when fewer than ten |
| KoreanAddressMap.SeoulHasSuggestions | force-app/main/default/lwc/koreanAddressMap/__tests__/koreanAddressMap.test.js:29-34 | '서울' has suggestions |
| KoreanAddressMap.FindAddress | force-app/main/default/lwc/koreanAddressMap/koreanAddressMap.js:56 | `find` by name: none exactly when no entry has the name; otherwise the first entry with it |
| KoreanAddressMap.Tokenise | force-app/main/default/lwc/koreanAddressMap/koreanAddressMap.js:96-103 | with three or more tokens, state and city are tokens 0 and 1; fewer leave them '' |
| KoreanAddressMap.TokensRebuildName | force-app/main/default/lwc/koreanAddressMap/koreanAddressMap.js:96-103 | state, city and the rest glued by spaces give the name back; state and city contain no space |
| KoreanAddressMap.TokeniseThreePieces | force-app/main/default/lwc/koreanAddressMap/koreanAddressMap.js:96-103 | `state city rest` tokenises to exactly those three pieces |
| KoreanAddressMap.EnglishState | force-app/main/default/lwc/koreanAddressMap/koreanAddressMap.js:106-123 | the English name of a known province, else the token |
| KoreanAddressMap.SaveFields | force-app/main/default/lwc/koreanAddressMap/koreanAddressMap.js:125-132 | trimmed street, city token, English state, empty postal code, 'Korea, Republic of' |
| KoreanAddressMap.KoreanAddressMap.constructor | force-app/main/default/lwc/koreanAddressMap/koreanAddressMap.js:6-39 | empty query, no markers, Seoul centre, input hidden, empty detail, no selection or suggestions, and the built-in address table |
| KoreanAddressMap.KoreanAddressMap.HandleSearchInput | force-app/main/default/lwc/koreanAddressMap/koreanAddressMap.js:41-52 | stores the query and its suggestions |
| KoreanAddressMap.KoreanAddressMap.HandleSelectAddress | force-app/main/default/lwc/koreanAddressMap/koreanAddressMap.js:54-81 | an unknown name changes nothing; a known one sets query and selection, clears suggestions, one marker at it, shows the detail input |
| KoreanAddressMap.KoreanAddressMap.HandleDetailChange | force-app/main/default/lwc/koreanAddressMap/koreanAddressMap.js:83-85 | stores the detail text |
| KoreanAddressMap.KoreanAddressMap.HandleSaveAddress | force-app/main/default/lwc/koreanAddressMap/koreanAddressMap.js:87-144 | no selection: an error toast and no update; otherwise the derived fields, then the success or failure toast and state |
| KoreanAddressMap.KoreanAddressMap.HandleCancel | force-app/main/default/lwc/koreanAddressMap/koreanAddressMap.js:154-158 | hides the input, clears the detail and the selection |
| ContractMap.GetComponent | force-app/main/default/lwc/contractMap/contractMap.js:61-65 | the long name of the first component with the type, or '' |
| ContractMap.NormaliseState | force-app/main/default/lwc/contractMap/contractMap.js:67-91 | the English name of a mapped province, else unchanged |
| ContractMap.NormaliseStateIdempotent | force-app/main/default/lwc/contractMap/contractMap.js:67-91 | normalising twice equals normalising once |
| ContractMap.NormaliseCountry | force-app/main/default/lwc/contractMap/contractMap.js:93-96 | three spellings of Korea become 'Korea, Republic of'; others unchanged |
| ContractMap.City | force-app/main/default/lwc/contractMap/contractMap.js:98 | the sublocality when non-empty, else the locality |
| ContractMap.SaveFields | force-app/main/default/lwc/contractMap/contractMap.js:99-110 | trimmed street, city, normalised state, postal code and normalised country |
| ContractMap.ContractMap.constructor | force-app/main/default/lwc/contractMap/contractMap.js:8-16 | empty query and suggestions, Seoul centre, no markers, input hidden, empty detail, no selection |
| ContractMap.ContractMap.HandleSearch | force-app/main/default/lwc/contractMap/contractMap.js:18-27 | a request exactly for two or more characters; its answer replaces the suggestions |
| ContractMap.ContractMap.HandleSelect | force-app/main/default/lwc/contractMap/contractMap.js:29-51 | the place becomes the selection, centre and only marker; suggestions cleared; input shown |
| ContractMap.ContractMap.HandleDetailChange | force-app/main/default/lwc/contractMap/contractMap.js:53-55 | stores the detail text |
| ContractMap.ContractMap.HandleSaveFullAddress | force-app/main/default/lwc/contractMap/contractMap.js:57-134 | no selection: nothing; otherwise the fields, and on success the input hidden and the detail cleared |
| RecordLists.Wired | force-app/main/default/lwc/accountContractList/accountContractList.js:27-35 | data replaces the records and clears the error; an error makes them undefined |
| RecordLists.RecordCount | force-app/main/default/lwc/accountContractList/accountContractList.js:41-43 | 0 when undefined, else the length |
| RecordLists.HasRecords | force-app/main/default/lwc/accountContractList/accountContractList.js:37-39 | the list shows exactly when its count is positive |
| RecordLists.ErrorHidesList | force-app/main/default/lwc/accountContractList/accountContractList.js:31-33 | after an error the count is 0 and the list hidden |
| RecordLists.FormatDate | force-app/main/default/lwc/accountContractList/accountContractList.js:69-72 | '정보 없음' for a missing date, else the locale text |
| RecordLists.FormatCurrency | force-app/main/default/lwc/accountContractList/accountContractList.js:74-80 | '정보 없음' for a missing or zero amount, else the currency text |
| RecordLists.WithUnit | force-app/main/default/lwc/accountContractList/accountContractList.js:57 | the number with its unit, or '정보 없음' |
| RecordLists.CeilDiv | force-app/main/default/lwc/accountWarrantyList/accountWarrantyList.js:64 | `Math.ceil(a / b)`: the least r with a <= r * b |
| RecordLists.NegativeDaysMeansPast | force-app/main/default/lwc/accountWarrantyList/accountWarrantyList.js:63-66 | the rounded-up day count is negative exactly when at least a whole day has passed |
| AccountContractList.StatusClass | force-app/main/default/lwc/accountContractList/accountContractList.js:82-98 | the status table on the lower-cased status |
| AccountContractList.StatusClassIgnoresCase | force-app/main/default/lwc/accountContractList/accountContractList.js:85 | the class does not depend on case |
| AccountContractList.InsuranceClass | force-app/main/default/lwc/accountContractList/accountContractList.js:100-102 | 'insurance-confirmed' exactly when confirmed |
| AccountContractList.InsuranceLabel | force-app/main/default/lwc/accountContractList/accountContractList.js:61 | '가입완료' exactly when confirmed, else '미가입' |
| AccountContractList.InsuranceLabelMatchesClass | force-app/main/default/lwc/accountContractList/accountContractList.js:61-63 | label and class agree |
| AccountContractList.FormatContract | force-app/main/default/lwc/accountContractList/accountContractList.js:48-65 | every field with its stated fallback and classifier |
| AccountContractList.FormattedContracts | force-app/main/default/lwc/accountContractList/accountContractList.js:45-67 | count and order kept; empty when undefined |
| AccountOrderList.StatusClass | force-app/main/default/lwc/accountOrderList/accountOrderList.js:79-92 | the status table on the lower-cased status |
| AccountOrderList.DeliveryStatusClass | force-app/main/default/lwc/accountOrderList/accountOrderList.js:94-110 | the delivery table on the lower-cased status |
| AccountOrderList.ClassesIgnoreCase | force-app/main/default/lwc/accountOrderList/accountOrderList.js:82-97 | both classes do not depend on case |
| AccountOrderList.FormatOrder | force-app/main/default/lwc/accountOrderList/accountOrderList.js:47-62 | every field with its stated fallback and classifier |
| AccountOrderList.FormattedOrders | force-app/main/default/lwc/accountOrderList/accountOrderList.js:44-64 | count and order kept; empty when undefined |
| AccountOpportunityList.StageClass | force-app/main/default/lwc/accountOpportunityList/accountOpportunityList.js:81-96 | won, lost, proposal, negotiation, then active, in that priority; 'stage-unknown' without a stage |
| AccountOpportunityList.ClosedWonIsWon | force-app/main/default/lwc/accountOpportunityList/accountOpportunityList.js:84-86 | any stage containing 'Closed Won' is 'stage-won' |
| AccountOpportunityList.ProbabilityClass | force-app/main/default/lwc/accountOpportunityList/accountOpportunityList.js:98-105 | the probability bands; 'probability-unknown' for 0 or missing |
| AccountOpportunityList.ProbabilityClassMonotone | force-app/main/default/lwc/accountOpportunityList/accountOpportunityList.js:98-105 | a higher probability never gets a lower band |
| AccountOpportunityList.ProbabilityText | force-app/main/default/lwc/accountOpportunityList/accountOpportunityList.js:55 | `N%` when truthy, else '확률 없음' |
| AccountOpportunityList.ProbabilityTextMatchesClass | force-app/main/default/lwc/accountOpportunityList/accountOpportunityList.js:55-61 | the text is missing exactly when the class is unknown |
| AccountOpportunityList.IsHighValue | force-app/main/default/lwc/accountOpportunityList/accountOpportunityList.js:118-120 | exactly when the amount is present and at least 50,000,000 |
| AccountOpportunityList.FormatOpportunity | force-app/main/default/lwc/accountOpportunityList/accountOpportunityList.js:47-65 | every field with its stated fallback and classifier |
| AccountOpportunityList.FormattedOpportunities | force-app/main/default/lwc/accountOpportunityList/accountOpportunityList.js:44-66 | count and order kept; empty when undefined |
| AccountWarrantyList.StatusClassOfDays | force-app/main/default/lwc/accountWarrantyList/accountWarrantyList.js:66-68 | expired below 0, expiring in 0..30, active above 30, each an if-and-only-if |
| AccountWarrantyList.StatusClass | force-app/main/default/lwc/accountWarrantyList/accountWarrantyList.js:58-69 | 'status-unknown' without a date, else the class of the rounded-up day count |
| AccountWarrantyList.IsExpired | force-app/main/default/lwc/accountWarrantyList/accountWarrantyList.js:53-56 | never expired without a date; otherwise expired exactly when the expiry instant is before now |
| AccountWarrantyList.ExpiredClassMeansExpired | force-app/main/default/lwc/accountWarrantyList/accountWarrantyList.js:53-69 | an 'expired' class implies the expired flag |
| AccountWarrantyList.JustExpiredShowsExpiring | force-app/main/default/lwc/accountWarrantyList/accountWarrantyList.js:53-69 | within a day after expiry the flag says expired while the class says expiring |
| AccountWarrantyList.MileageText | force-app/main/default/lwc/accountWarrantyList/accountWarrantyList.js:41 | the formatted mileage with 'km', or '정보 없음' |
| AccountWarrantyList.FormatWarranty | force-app/main/default/lwc/accountWarrantyList/accountWarrantyList.js:35-44 | every field with its stated fallback and classifier |
| AccountWarrantyList.FormattedWarranties | force-app/main/default/lwc/accountWarrantyList/accountWarrantyList.js:31-46 | count and order kept; empty when undefined |
| AccountCustomerInfo.WiredAccount | force-app/main/default/lwc/accountCustomerInfo/accountCustomerInfo.js:11-25 | data replaces the account; an error makes it undefined |
| AccountCustomerInfo.FieldOr | force-app/main/default/lwc/accountCustomerInfo/accountCustomerInfo.js:27-41 | `account?.field \|\| fallback` |
| AccountCustomerInfo.Birthdate | force-app/main/default/lwc/accountCustomerInfo/accountCustomerInfo.js:43-46 | the default without a birthdate, else the formatted date |
| AccountCustomerInfo.MarketingConsent | force-app/main/default/lwc/accountCustomerInfo/accountCustomerInfo.js:56-58 | always '동의', whatever the record holds |
| AccountCustomerInfo.MarketingConsentClass | force-app/main/default/lwc/accountCustomerInfo/accountCustomerInfo.js:60-62 | always 'consent-agreed' |
| AccountCustomerInfo.NoAccountShowsDefaults | force-app/main/default/lwc/accountCustomerInfo/accountCustomerInfo.js:27-54 | without an account every getter returns its default |
| AccountCustomerInfo.ErrorShowsDefaults | force-app/main/default/lwc/accountCustomerInfo/accountCustomerInfo.js:20-23 | after an error name, email and phones show their defaults |
| AccountCustomerInfo.WiredNameShown | force-app/main/default/lwc/accountCustomerInfo/accountCustomerInfo.js:27-29 | a wired account's non-empty name is shown |
| TodayVisitReservations.ServiceTypeLabel | force-app/main/default/lwc/todayVisitReservations/todayVisitReservations.js:82-101 | '' for empty input, the label of the eleven keys, else the input |
| TodayVisitReservations.KnownTypesAreTranslated | force-app/main/default/lwc/todayVisitReservations/todayVisitReservations.js:82-101 | every known key maps to a label different from itself |
| TodayVisitReservations.DisplayStatus | force-app/main/default/lwc/todayVisitReservations/todayVisitReservations.js:75-80 | 'Working' shows as '배정'; others unchanged |
| TodayVisitReservations.StatusClass | force-app/main/default/lwc/todayVisitReservations/todayVisitReservations.js:70-73 | always 'status-working' |
| TodayVisitReservations.CaseUrl | force-app/main/default/lwc/todayVisitReservations/todayVisitReservations.js:65 | '/lightning/r/Case/' + id + '/view' |
| TodayVisitReservations.FormatTime | force-app/main/default/lwc/todayVisitReservations/todayVisitReservations.js:123-130 | '' for an empty value, else the time text |
| TodayVisitReservations.FormatDateTime | force-app/main/default/lwc/todayVisitReservations/todayVisitReservations.js:111-120 | '' for an empty value, else the date-time text |
| TodayVisitReservations.FirstTruthy | force-app/main/default/lwc/todayVisitReservations/todayVisitReservations.js:60-61 | `a \|\| b \|\| ''` |
| TodayVisitReservations.FormatReservation | force-app/main/default/lwc/todayVisitReservations/todayVisitReservations.js:56-67 | every field with its stated fallback and label |
| TodayVisitReservations.FormattedReservations | force-app/main/default/lwc/todayVisitReservations/todayVisitReservations.js:54-68 | count and order kept; empty when undefined |
| TodayVisitReservations.ReservationCount | force-app/main/default/lwc/todayVisitReservations/todayVisitReservations.js:50-52 | 0 when undefined, else the length |
| TodayVisitReservations.CountMatchesRows | force-app/main/default/lwc/todayVisitReservations/todayVisitReservations.js:50-68 | the count equals the number of rows shown |
| TodayVisitReservations.TodayVisitReservations.constructor | force-app/main/default/lwc/todayVisitReservations/todayVisitReservations.js:6-8 | an empty list, loading, no error |
| TodayVisitReservations.TodayVisitReservations.LoadReservations | force-app/main/default/lwc/todayVisitReservations/todayVisitReservations.js:24-44 | success stores the data; failure empties the list, stores the error and raises a toast; loading ends either way |
| TodayVisitReservations.TodayVisitReservations.HasReservations | force-app/main/default/lwc/todayVisitReservations/todayVisitReservations.js:46-48 | exactly when the count is positive |
| TodayVisitReservations.TodayVisitReservations.HandleRowClick | force-app/main/default/lwc/todayVisitReservations/todayVisitReservations.js:103-108 | opens the case page exactly when there is an id |
| TodayVisitReservations.FailedLoadShowsNothing | force-app/main/default/lwc/todayVisitReservations/todayVisitReservations.js:24-68 | after a failed load the count is 0, the list is hidden, no row is formatted and the error toast is raised |
| NavigationBar.PageFor | force-app/main/default/lwc/navigationBar/navigationBar.js:70-88 | a page exactly for the four menu types, named as the type |
| NavigationBar.MenuSelectOf | force-app/main/default/lwc/navigationBar/navigationBar.js:40-45 | the menu type and the trimmed text |
| NavigationBar.MaintenanceLabel | force-app/main/default/lwc/navigationBar/__tests__/navigationBar.test.js:72-79 | 'maintenance' with text '정비' gives that payload |
| NavigationBar.MenuClass | force-app/main/default/lwc/navigationBar/navigationBar.js:31-33 | contains 'mobile-menu-open' exactly when open |
| NavigationBar.NavigationBar.constructor | force-app/main/default/lwc/navigationBar/navigationBar.js:8-15 | the menu starts closed with no logo error |
| NavigationBar.NavigationBar.ActualLogoUrl | force-app/main/default/lwc/navigationBar/navigationBar.js:17-20 | the configured URL when set, else the static resource |
| NavigationBar.NavigationBar.DisplayLogo | force-app/main/default/lwc/navigationBar/navigationBar.js:22-24 | exactly when there is a URL and no load error |
| NavigationBar.NavigationBar.HandleLogoError | force-app/main/default/lwc/navigationBar/navigationBar.js:26-29 | the logo is no longer displayed |
| NavigationBar.NavigationBar.MobileMenuClass | force-app/main/default/lwc/navigationBar/navigationBar.js:31-33 | contains 'mobile-menu-open' exactly when the menu is open |
| NavigationBar.NavigationBar.HandleMenuClick | force-app/main/default/lwc/navigationBar/navigationBar.js:35-49 | the payload and the page for the type |
| NavigationBar.NavigationBar.HandleMobileMenuClick | force-app/main/default/lwc/navigationBar/navigationBar.js:51-68 | closes the menu; the payload and the page for the type |
| NavigationBar.NavigationBar.ToggleMobileMenu | force-app/main/default/lwc/navigationBar/navigationBar.js:120-123 | negates the open flag |
| NavigationBar.NavigationBar.CloseMobileMenu | force-app/main/default/lwc/navigationBar/navigationBar.js:127-129 | the menu is closed |
| NavigationBar.NavigationBar.HandleLogin | force-app/main/default/lwc/navigationBar/navigationBar.js:90-103 | dispatches a `login` event, then navigates to the `login` page |
| NavigationBar.NavigationBar.HandleSignup | force-app/main/default/lwc/navigationBar/navigationBar.js:105-118 | dispatches a `signup` event, then navigates to the `signup` page |
| NavigationBar.ToggleOpensThenCloses | force-app/main/default/lwc/navigationBar/navigationBar.js:31-33 | the menu class lacks, then has, then lacks `mobile-menu-open` across two toggles from a new bar |
| VehicleBatteryView.BatteryColor | force-app/main/default/lwc/vehicleBatteryView/vehicleBatteryView.js:44-50 | the four charge colour bands |
| VehicleBatteryView.BatteryHealthColor | force-app/main/default/lwc/vehicleBatteryView/vehicleBatteryView.js:37-42 | the three health colour bands |
| VehicleBatteryView.HealthColorMonotone | force-app/main/default/lwc/vehicleBatteryView/vehicleBatteryView.js:37-42 | better health never gets a worse colour |
| VehicleBatteryView.BarStyle | force-app/main/default/lwc/vehicleBatteryView/vehicleBatteryView.js:29-35 | width and colour in the style text |
| VehicleBatteryView.BarWidthReadsBack | force-app/main/default/lwc/vehicleBatteryView/vehicleBatteryView.js:29-35 | the width printed in a bar's style is a digit string whose value is the bar's value |
| VehicleBatteryView.FixedBatteryStyles | force-app/main/default/lwc/vehicleBatteryView/vehicleBatteryView.js:10-35 | the fixed battery draws 85% green and 70% yellow |
| VehicleBatteryView.TooltipStyle | force-app/main/default/lwc/vehicleBatteryView/vehicleBatteryView.js:74-77 | the tooltip sits at (x + 20, y - 320) |
| VehicleBatteryView.VehicleBatteryView.HandleMouseEnter | force-app/main/default/lwc/vehicleBatteryView/vehicleBatteryView.js:52-59 | shows the tooltip at the anchor |
| VehicleBatteryView.VehicleBatteryView.HandleMouseLeave | force-app/main/default/lwc/vehicleBatteryView/vehicleBatteryView.js:61-63 | hides the tooltip |
| VehicleBatteryView.VehicleBatteryView.HandleMouseMove | force-app/main/default/lwc/vehicleBatteryView/vehicleBatteryView.js:65-72 | moves the tooltip only while it is shown |
| VehicleBatteryView.VehicleBatteryView.constructor | force-app/main/default/lwc/vehicleBatteryView/vehicleBatteryView.js:6-7 | the tooltip is hidden at (0, 0) |
| VehicleBatteryView.MoveAfterLeaveKeepsPosition | force-app/main/default/lwc/vehicleBatteryView/vehicleBatteryView.js:52-72 | a move while shown places the tooltip 10 above the pointer; after leaving, a move does not drag it |
| CrossComponent.DetailsReachConfirmation | force-app/main/default/lwc/step6FinalConfirm/step6FinalConfirm.js:84-92 | details selected in step 3, passed through the controller, come out in step 6 as one label per selected value, in order |
| CrossComponent.ProvinceTablesAgree | force-app/main/default/lwc/contractMap/contractMap.js:67-91 | the place-search province map extends the Korean address map and agrees with it |
| CrossComponent.ChargeAndStockGaugesAgree | force-app/main/default/lwc/vehicleBatteryView/vehicleBatteryView.js:44-50 | the charge bar and the stock gauge use the same colour bands |

## Left out

- Remote calls (Apex methods, wire adapters, `updateRecord`) are not executed. Their answers are handler parameters.
- `FinalRepairReservation.HandleDateChange`, `OrderDeliveryStatus.LoadOrderData`, `RepairShopSelector.HandleSearch` and `RepairSelector.LoadDependentPicklistValues` do not return the arguments of their remote calls. Those arguments are all current fields of the component: the date, shop and details; the record id; the province and city; the service type.
- Promise ordering and interleaving are not modelled: each handler applies its call's answer at once.
- `RefreshParts`: the load's answer is taken to arrive before the second query's. The other order, where the load overwrites the refreshed parts, is not modelled.
- `console.*`, `setTimeout` and `setInterval` are left out. They are logging and timing only.
- The `handleBlur` delay of the Korean address picker and the commented-out refresh interval of the order tracker are left out too.
- `NavigationMixin` navigation is returned as the page name. `setActiveMenu`'s DOM queries are left out. So are the `handleViewAll` methods of the account lists, which use the mixin without importing it.
- The clock and locale formatting are function parameters, so their output is not modelled. This covers `toLocaleDateString`, `Intl.NumberFormat` and `toLocaleString`.
- `AccountContractList.IsContractActive` and `AccountOpportunityList.IsClosingSoon` are modelled only as predicates over that clock parameter.
- Invalid dates (`NaN` comparisons) are not distinguished from valid ones.
- A slot's remaining count can be a number, `null` or `undefined`, and the three compare differently with 0. Other `NaN` sources, such as a non-numeric string, are not modelled.
- Floating point is not modelled:
  - coordinates are opaque `real` values that are never computed on;
  - `parseFloat` and `isNaN` on coordinates are identities;
  - the `getBoundingClientRect` geometry of the battery tooltip enters as an anchor position;
  - the order progress percentage is modelled in integer tenths.
  - stock rates and opportunity probabilities are integers, so `Math.round` of a gauge width is the identity. Fractional rates are not modelled.
- `JSON.parse` of place-search answers is not modelled: the parsed prediction list and place are datatypes.
- The fallback that geocodes a clicked shop without coordinates (`getCoordinatesAndMoveMap`) is not modelled, nor are its three toasts. The model leaves the map as it was.
- `toLowerCase` lower-cases ASCII letters only. The Korean spellings in the classifiers have no case.
- `.length` counts characters. Every string the components measure here is within the Basic Multilingual Plane, so this equals JavaScript's UTF-16 count.
- Label lookups in plain objects treat inherited keys such as `toString` as unmapped.
- A place's address components are assumed to carry string `long_name` values.
- The customer card's mailing address is a compound Address field in Salesforce. The model reads it as one optional string, so how the template prints the compound value is not modelled.
- `carImageUrl` and the other static-resource getters are left out.
- Two test expectations disagree with the code and are not asserted: stock rates read from `Stock_Rate__c` (the code reads `InvertoryRate`), and a battery health of 95 (the code fixes it at 70).
- `Step6FinalConfirm.FullDateTime`: stated only for a present date and time. The model prints `undefined` for a missing one, as the template literal does.
- `AccountCustomerInfo.CustomerName`, `Email`, `Phone`, `MobilePhone`, `Gender` and `Address` have no contract of their own. Their behaviour is stated through `FieldOr` and the three lemmas about defaults.
