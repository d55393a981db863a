/** Wizard step 5: pick a date no earlier than today, load that day's time
    slots for the chosen shop, and pick a slot. */
module FinalRepairReservation {
  import opened Js
  import opened ReservationEvents

  /** A JavaScript value that is a number, `null` or `undefined`. */
  datatype Count = Number(value: int) | Null | Undefined

  /** A time slot as the scheduler returns it (`slotLabel` is its `label`). */
  datatype Slot = Slot(slotLabel: Option<string>, time: Option<string>, remaining: Count)

  /** A slot with its button fields. */
  datatype SlotView = SlotView(slot: Slot, fullLabel: Option<string>, variant: string, isDisabled: bool)

  const PastDateToast := Toast("선택할 수 없는 날짜입니다", "오늘 날짜 이후로 선택해주세요.", "error")

  /** `remaining > 0`: `null` converts to 0, `undefined` to NaN, which compares false. */
  predicate Positive(c: Count) {
    match c
    case Number(n) => n > 0
    case Null => false
    case Undefined => false
  }

  /** `remaining <= 0`: true for `null` (0 <= 0), false for `undefined` (NaN). */
  predicate NotPositive(c: Count) {
    match c
    case Number(n) => n <= 0
    case Null => true
    case Undefined => false
  }

  /** The button fields of a slot: neutral when seats remain, destructive otherwise;
      disabled when none remain. A missing (`undefined`) count is shown destructive
      yet stays enabled; a `null` count is destructive and disabled. */
  function SlotViewOf(s: Slot): (v: SlotView)
    ensures v.slot == s && v.fullLabel == s.slotLabel
    ensures v.variant == "neutral" || v.variant == "destructive"
    ensures s.remaining.Number? ==> (v.isDisabled <==> s.remaining.value <= 0)
    ensures s.remaining.Number? ==> (v.variant == "destructive" <==> s.remaining.value <= 0)
    ensures s.remaining.Null? ==> v.variant == "destructive" && v.isDisabled
    ensures s.remaining.Undefined? ==> v.variant == "destructive" && !v.isDisabled
  {
    SlotView(s, s.slotLabel,
             if Positive(s.remaining) then "neutral" else "destructive",
             NotPositive(s.remaining))
  }

  /** A slot is disabled exactly when it is shown destructive, unless its count is
      `undefined`. */
  lemma DisabledIffDestructive(s: Slot)
    requires !s.remaining.Undefined?
    ensures SlotViewOf(s).isDisabled <==> SlotViewOf(s).variant == "destructive"
  {
  }

  /** The slot list as shown: same count, same order, each slot mapped. */
  function SlotViews(slots: seq<Slot>): (r: seq<SlotView>)
    ensures |r| == |slots|
    ensures forall i :: 0 <= i < |r| ==> r[i] == SlotViewOf(slots[i])
  {
    seq(|slots|, i requires 0 <= i < |slots| => SlotViewOf(slots[i]))
  }

  class FinalRepairReservation {
    // set by the wizard controller
    var accountId: Option<string>
    var repairShopId: Option<string>
    var selectedServiceDetails: Option<string>
    // local state
    var selectedDate: Option<string>
    var availableTimeSlots: seq<SlotView>
    var selectedSlot: Option<string>

    constructor (accountId: Option<string>, repairShopId: Option<string>, selectedServiceDetails: Option<string>)
      ensures this.accountId == accountId && this.repairShopId == repairShopId
      ensures this.selectedServiceDetails == selectedServiceDetails
      ensures selectedDate == None && availableTimeSlots == [] && selectedSlot == None
    {
      this.accountId := accountId;
      this.repairShopId := repairShopId;
      this.selectedServiceDetails := selectedServiceDetails;
      selectedDate := None;
      availableTimeSlots := [];
      selectedSlot := None;
    }

    function HasSlots(): (r: bool)
      reads this
      ensures r <==> availableTimeSlots != []
    {
      |availableTimeSlots| > 0
    }

    /** "Next" is disabled until a slot is picked. */
    function IsNextDisabled(): (r: bool)
      reads this
      ensures r <==> !Truthy(selectedSlot)
    {
      !Truthy(selectedSlot)
    }

    /** A new date. `today` is today's zero-padded YYYY-MM-DD; `fetched` is the
        slot query's answer (`None` when it failed). A date that sorts before
        today is refused with a toast and nothing changes; a cleared date (`None`)
        compares false and is taken. A taken date clears the slot and, with a shop
        known, replaces the slot list. */
    method HandleDateChange(value: Option<string>, today: string, fetched: Option<seq<Slot>>)
      returns (refused: Option<Toast>)
      modifies this`selectedDate, this`selectedSlot, this`availableTimeSlots
      ensures refused.Some? <==> value.Some? && LexLess(value.value, today)
      ensures refused.Some? ==> refused.value == PastDateToast
      ensures refused.Some? ==>
                selectedDate == old(selectedDate) && selectedSlot == old(selectedSlot)
                && availableTimeSlots == old(availableTimeSlots)
      ensures refused.None? ==> selectedDate == value && selectedSlot == None
      ensures refused.None? && Truthy(value) && Truthy(repairShopId) ==>
                availableTimeSlots == (if fetched.Some? then SlotViews(fetched.value) else [])
      ensures refused.None? && !(Truthy(value) && Truthy(repairShopId)) ==>
                availableTimeSlots == old(availableTimeSlots)
    {
      if value.Some? && LexLess(value.value, today) {
        return Some(PastDateToast);
      }
      selectedDate := value;
      selectedSlot := None;
      if Truthy(selectedDate) && Truthy(repairShopId) {
        if fetched.Some? {
          availableTimeSlots := SlotViews(fetched.value);
        } else {
          availableTimeSlots := [];
        }
      }
      return None;
    }

    method HandleSlotSelect(time: Option<string>)
      modifies this`selectedSlot
      ensures selectedSlot == time
    {
      selectedSlot := time;
    }

    /** "Previous": the `previous` event for the wizard; nothing here changes. */
    method HandlePrevious() returns (eventName: string)
      ensures eventName == PreviousEventName
    {
      eventName := PreviousEventName;
    }

    /** The step-5 payload, sent only when slot, date, account, shop and details are
        all present. */
    method HandleNext() returns (d: Option<Step5Detail>)
      ensures d.Some? <==> Truthy(selectedSlot) && Truthy(selectedDate) && Truthy(accountId)
                           && Truthy(repairShopId) && Truthy(selectedServiceDetails)
      ensures d.Some? ==> d.value == Step5Detail(6, selectedDate, selectedSlot)
    {
      if !Truthy(selectedSlot) || !Truthy(selectedDate) || !Truthy(accountId)
         || !Truthy(repairShopId) || !Truthy(selectedServiceDetails) {
        return None;
      }
      return Some(Step5Detail(6, selectedDate, selectedSlot));
    }
  }

  /** A slot can be picked only after a date was taken, and picking it enables "next". */
  method PickDateThenSlot(today: string, date: string, slots: seq<Slot>, time: string)
    returns (disabledBeforeSlot: bool, shown: nat, d: Option<Step5Detail>)
    requires !LexLess(date, today) && date != "" && time != ""
    ensures disabledBeforeSlot && shown == |slots|
    ensures d == Some(Step5Detail(6, Some(date), Some(time)))
  {
    var f := new FinalRepairReservation(Some("acc"), Some("shop"), Some("A;B"));
    var refused := f.HandleDateChange(Some(date), today, Some(slots));
    disabledBeforeSlot := f.IsNextDisabled();
    shown := |f.availableTimeSlots|;
    f.HandleSlotSelect(Some(time));
    d := f.HandleNext();
  }
}
