/** The repair-reservation wizard controller: a seven-state machine (`step`
    in 1..7) and the record of what each step has sent up. */
module ReservationFlow {
  import opened Js
  import opened ReservationEvents

  /** One notification the controller reacts to. */
  datatype FlowEvent =
    | Step1Done(d1: Step1Detail)
    | Step2Done(d2: Step2Detail)
    | Step3Done(d3: Step3Detail)
    | Step4Done(d4: Step4Detail)
    | Step5Done(d5: Step5Detail)
    | Step6Done(d6: Step6Detail)
    | Previous

  /** The step the controller shows after `e`, starting from `step`. */
  function StepAfter(step: int, e: FlowEvent): (r: int)
    ensures 1 <= step <= 7 ==> 1 <= r <= 7
    ensures e.Previous? ==> r <= step && (step >= 1 ==> r >= 1)
    ensures e.Step6Done? && !e.d6.success ==> r == step
  {
    match e
    case Step1Done(_) => 2
    case Step2Done(_) => 3
    case Step3Done(_) => 4
    case Step4Done(_) => 5
    case Step5Done(_) => 6
    case Step6Done(d) => if d.success then 7 else step
    case Previous => if step > 1 then step - 1 else step
  }

  /** The step after a whole sequence of notifications. */
  function Run(step: int, events: seq<FlowEvent>): int
    decreases |events|
  {
    if |events| == 0 then step else Run(StepAfter(step, events[0]), events[1..])
  }

  /** Whatever arrives, the wizard stays within its seven steps. */
  lemma {:induction false} RunStaysInRange(step: int, events: seq<FlowEvent>)
    requires 1 <= step <= 7
    ensures 1 <= Run(step, events) <= 7
    decreases |events|
  {
    if |events| > 0 {
      RunStaysInRange(StepAfter(step, events[0]), events[1..]);
    }
  }

  /** "Previous" can only lower the step, and never below 1. */
  lemma {:induction false} PreviousOnlyRetreats(step: int, n: nat)
    requires 1 <= step
    ensures Run(step, seq(n, _ => Previous)) == if step - n < 1 then 1 else step - n
    decreases n
  {
    if n > 0 {
      var evs := seq(n, _ => Previous);
      assert evs[0] == Previous && evs[1..] == seq(n - 1, _ => Previous);
      PreviousOnlyRetreats(StepAfter(step, Previous), n - 1);
    }
  }

  /** Number of `true` entries. */
  function CountTrue(s: seq<bool>): nat {
    if |s| == 0 then 0 else (if s[0] then 1 else 0) + CountTrue(s[1..])
  }

  class ReservationFlow {
    var step: int
    var customerInfo: CustomerData
    var assetInfo: AssetSlot
    var assetId: Option<string>
    var serviceDetails: ServiceData
    var serviceType: Option<string>
    var serviceTypeValue: Option<string>
    var repairShopId: Option<string>
    var repairShopName: Option<string>
    var selectedDate: Option<string>
    var selectedSlotTime: Option<string>

    ghost predicate Valid()
      reads this
    {
      1 <= step <= 7
    }

    /** A new wizard shows step 1 and has collected nothing. */
    constructor ()
      ensures Valid() && step == 1
      ensures customerInfo == NoCustomer && assetInfo == EmptyObject && serviceDetails == NoServiceData
      ensures assetId == Some("") && serviceType == Some("") && serviceTypeValue == Some("")
      ensures repairShopId == Some("") && repairShopName == Some("")
      ensures selectedDate == Some("") && selectedSlotTime == Some("")
    {
      step := 1;
      customerInfo := NoCustomer;
      assetInfo := EmptyObject;
      assetId := Some("");
      serviceDetails := NoServiceData;
      serviceType := Some("");
      serviceTypeValue := Some("");
      repairShopId := Some("");
      repairShopName := Some("");
      selectedDate := Some("");
      selectedSlotTime := Some("");
    }

    function IsStep1(): bool reads this { step == 1 }
    function IsStep2(): bool reads this { step == 2 }
    function IsStep3(): bool reads this { step == 3 }
    function IsStep4(): bool reads this { step == 4 }
    function IsStep5(): bool reads this { step == 5 }
    function IsStep6(): bool reads this { step == 6 }
    function IsStep7(): bool reads this { step == 7 }

    /** The seven visibility flags, in step order. */
    function VisibleSteps(): (v: seq<bool>)
      reads this
      ensures |v| == 7
    {
      [IsStep1(), IsStep2(), IsStep3(), IsStep4(), IsStep5(), IsStep6(), IsStep7()]
    }

    /** The ';'-delimited detail string of step 3, or '' while there is none. */
    function SelectedServiceDetails(): (r: string)
      reads this
      ensures Truthy(serviceDetails.details) ==> r == serviceDetails.details.value
      ensures !Truthy(serviceDetails.details) ==> r == ""
    {
      Or(serviceDetails.details, "")
    }

    method HandleStep1(detail: Step1Detail)
      requires Valid()
      modifies this`step, this`customerInfo
      ensures Valid() && step == 2
      ensures customerInfo == detail.customerInfo
    {
      customerInfo := detail.customerInfo;
      step := 2;
    }

    method HandleStep2(detail: Step2Detail)
      requires Valid()
      modifies this`step, this`assetInfo, this`assetId
      ensures Valid() && step == 3
      ensures assetInfo == detail.assetInfo && assetId == detail.assetId
    {
      assetInfo := detail.assetInfo;
      assetId := detail.assetId;
      step := 3;
    }

    method HandleStep3(detail: Step3Detail)
      requires Valid()
      modifies this`step, this`serviceDetails, this`serviceType, this`serviceTypeValue
      ensures Valid() && step == 4
      ensures serviceDetails == detail.serviceReservationData
      ensures serviceType == detail.serviceReservationData.serviceType
      ensures serviceTypeValue == detail.serviceReservationData.serviceTypeValue
      ensures SelectedServiceDetails() == Or(detail.serviceReservationData.details, "")
    {
      serviceDetails := detail.serviceReservationData;
      serviceType := detail.serviceReservationData.serviceType;
      serviceTypeValue := detail.serviceReservationData.serviceTypeValue;
      step := 4;
    }

    method HandleStep4(detail: Step4Detail)
      requires Valid()
      modifies this`step, this`repairShopId, this`repairShopName
      ensures Valid() && step == 5
      ensures repairShopId == detail.repairShopId && repairShopName == detail.repairShopName
    {
      repairShopId := detail.repairShopId;
      repairShopName := detail.repairShopName;
      step := 5;
    }

    method HandleStep5(detail: Step5Detail)
      requires Valid()
      modifies this`step, this`selectedDate, this`selectedSlotTime
      ensures Valid() && step == 6
      ensures selectedDate == detail.selectedDate && selectedSlotTime == detail.selectedSlotTime
    {
      selectedDate := detail.selectedDate;
      selectedSlotTime := detail.selectedSlotTime;
      step := 6;
    }

    /** Completion is shown only when the submission reported success. */
    method HandleStep6(detail: Step6Detail)
      requires Valid()
      modifies this`step
      ensures Valid()
      ensures step == if detail.success then 7 else old(step)
    {
      if detail.success {
        step := 7;
      }
    }

    /** Back one step; nothing at step 1; no collected field is touched. */
    method HandlePrevious()
      requires Valid()
      modifies this`step
      ensures Valid()
      ensures step == if old(step) > 1 then old(step) - 1 else old(step)
    {
      if step > 1 {
        step := step - 1;
      }
    }

    /** Routes a notification to its handler; the step follows `StepAfter`. */
    method Dispatch(e: FlowEvent)
      requires Valid()
      modifies this
      ensures Valid()
      ensures step == StepAfter(old(step), e)
    {
      match e
      case Step1Done(d) => HandleStep1(d);
      case Step2Done(d) => HandleStep2(d);
      case Step3Done(d) => HandleStep3(d);
      case Step4Done(d) => HandleStep4(d);
      case Step5Done(d) => HandleStep5(d);
      case Step6Done(d) => HandleStep6(d);
      case Previous => HandlePrevious();
    }

    /** Feeds a whole sequence of notifications; the step follows `Run`. */
    method DispatchAll(events: seq<FlowEvent>)
      requires Valid()
      modifies this
      ensures Valid()
      ensures step == Run(old(step), events)
    {
      var i := 0;
      while i < |events|
        invariant 0 <= i <= |events|
        invariant Valid()
        invariant Run(old(step), events) == Run(step, events[i..])
      {
        assert events[i..][1..] == events[i + 1..];
        Dispatch(events[i]);
        i := i + 1;
      }
    }
  }

  /** A sequence with no `true` entry counts none. */
  lemma {:induction false} CountNone(s: seq<bool>)
    requires forall i :: 0 <= i < |s| ==> !s[i]
    ensures CountTrue(s) == 0
    decreases |s|
  {
    if |s| > 0 {
      CountNone(s[1..]);
    }
  }

  /** A sequence whose only `true` entry is at `k` counts one. */
  lemma {:induction false} CountOneHot(s: seq<bool>, k: nat)
    requires k < |s|
    requires forall i :: 0 <= i < |s| ==> (s[i] <==> i == k)
    ensures CountTrue(s) == 1
    decreases |s|
  {
    if k == 0 {
      CountNone(s[1..]);
    } else {
      CountOneHot(s[1..], k - 1);
    }
  }

  /** Exactly one step view is visible, and it is the current step's. */
  lemma ExactlyOneStepVisible(f: ReservationFlow)
    requires f.Valid()
    ensures CountTrue(f.VisibleSteps()) == 1
    ensures forall i :: 0 <= i < 7 ==> (f.VisibleSteps()[i] <==> f.step == i + 1)
  {
    CountOneHot(f.VisibleSteps(), f.step - 1);
  }

  /** The wizard walked end to end: the step after each event while advancing to
      step 6, a failed submission, a successful one and one "previous"; what was
      collected along the way is still there at the end. */
  method WalkThrough(customer: CustomerData, services: ServiceData, date: string, slot: string)
    returns (steps: seq<int>, f: ReservationFlow)
    ensures steps == [2, 3, 4, 5, 6, 6, 7, 6]
    ensures f.customerInfo == customer && f.serviceDetails == services
    ensures f.selectedDate == Some(date) && f.selectedSlotTime == Some(slot)
  {
    f := new ReservationFlow();
    f.HandleStep1(Step1Detail(customer));
    steps := [f.step];
    f.HandleStep2(Step2Detail(NullAsset, None));
    steps := steps + [f.step];
    f.HandleStep3(Step3Detail(services, 4));
    steps := steps + [f.step];
    f.HandleStep4(Step4Detail(Some("shop"), Some("name")));
    steps := steps + [f.step];
    f.HandleStep5(Step5Detail(6, Some(date), Some(slot)));
    steps := steps + [f.step];
    f.HandleStep6(Step6Detail(false, 7, None));
    steps := steps + [f.step];
    f.HandleStep6(Step6Detail(true, 7, None));
    steps := steps + [f.step];
    f.HandlePrevious();
    steps := steps + [f.step];
  }
}
