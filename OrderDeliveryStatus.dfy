/** The order delivery tracker: an order's status mapped onto three delivery
    steps, the step flags and classes, a progress percentage and a message. */
module OrderDeliveryStatus {
  import opened Js
  import opened ReservationEvents

  /** One step of the tracker. */
  datatype StatusStep = StatusStep(key: string, stepLabel: string, icon: string, description: string)

  const StatusSteps: seq<StatusStep> := [
    StatusStep("InPreparation", "주문 준비 중", "utility:package", "주문이 접수되어 준비 중입니다"),
    StatusStep("Delivering", "배송중", "utility:truck", "상품이 배송 중입니다"),
    StatusStep("Delivered", "배송 완료", "utility:success", "배송이 완료되었습니다")
  ]

  const CancelledMessage := "주문이 취소되었습니다"

  /** The order fields the tracker reads; `{}` has them all missing. */
  datatype OrderData = OrderData(
    status: Option<string>,
    orderNumber: Option<string>,
    name: Option<string>,
    createdDate: Option<string>,
    deliveryDate: Option<string>)

  const EmptyOrder := OrderData(None, None, None, None, None)

  /** A step as displayed. A cancelled order's steps have no `isLast`, label class
      or connector class, and carry a `stepClass` the others lack. */
  datatype ProcessedStep = ProcessedStep(
    step: StatusStep,
    isActive: bool,
    isCompleted: bool,
    isLast: Option<bool>,
    isCancelled: bool,
    stepClass: Option<string>,
    stepIconClass: string,
    stepLabelClass: Option<string>,
    connectorClass: Option<string>)

  /** The displayed order fields. */
  datatype OrderInfo = OrderInfo(orderNumber: string, orderName: string, createdDate: string, deliveryDate: string)

  /** The tracker key of an order status; missing, empty and unknown statuses count
      as in preparation. */
  function CurrentStatus(status: Option<string>): (r: string)
    ensures r == "InPreparation" || r == "Delivering" || r == "Delivered" || r == "Cancelled"
    ensures !Truthy(status) ==> r == "InPreparation"
    ensures status == Some("Draft") ==> r == "InPreparation"
    ensures status == Some("Activated") ==> r == "Delivering"
    ensures status == Some("Delivered") ==> r == "Delivered"
    ensures status == Some("Cancelled") ==> r == "Cancelled"
    ensures Truthy(status) && status.value !in {"Draft", "Activated", "Delivered", "Cancelled"} ==> r == "InPreparation"
  {
    if !Truthy(status) then "InPreparation"
    else match status.value
      case "Draft" => "InPreparation"
      case "Activated" => "Delivering"
      case "Delivered" => "Delivered"
      case "Cancelled" => "Cancelled"
      case _ => "InPreparation"
  }

  function IsCancelled(status: Option<string>): (r: bool)
    ensures r <==> status == Some("Cancelled")
  {
    CurrentStatus(status) == "Cancelled"
  }

  /** `findIndex` over the steps by key: the first index, or -1. */
  function StepIndex(key: string): (r: int)
    ensures -1 <= r < |StatusSteps|
    ensures r == -1 <==> forall i :: 0 <= i < |StatusSteps| ==> StatusSteps[i].key != key
    ensures r >= 0 ==> StatusSteps[r].key == key && forall i :: 0 <= i < r ==> StatusSteps[i].key != key
  {
    if StatusSteps[0].key == key then 0
    else if StatusSteps[1].key == key then 1
    else if StatusSteps[2].key == key then 2
    else -1
  }

  /** Every status that is not a cancellation lands on a step. */
  lemma NotCancelledHasStep(status: Option<string>)
    requires !IsCancelled(status)
    ensures 0 <= StepIndex(CurrentStatus(status)) < |StatusSteps|
  {
  }

  /** Suffix of the icon, label and connector classes of the step at `index`
      when the current step is at `current`. */
  function StepState(index: int, current: int): (r: string)
    ensures r == " completed" <==> index < current
    ensures r == " active" <==> index == current
    ensures r == " pending" <==> index > current
  {
    if index < current then " completed" else if index == current then " active" else " pending"
  }

  /** The steps as displayed for an order status. */
  function ProcessedSteps(status: Option<string>): (r: seq<ProcessedStep>)
    ensures |r| == |StatusSteps|
    ensures forall i :: 0 <= i < |r| ==> r[i].step == StatusSteps[i]
    ensures IsCancelled(status) ==>
              forall i :: 0 <= i < |r| ==> !r[i].isActive && !r[i].isCompleted && r[i].isCancelled
    ensures !IsCancelled(status) ==>
              var k := StepIndex(CurrentStatus(status));
              forall i :: 0 <= i < |r| ==>
                (r[i].isActive <==> i == k) && (r[i].isCompleted <==> i < k) && !r[i].isCancelled
                && r[i].isLast == Some(i == |StatusSteps| - 1) && r[i].stepClass == None
                && r[i].stepIconClass == "step-icon-horizontal" + StepState(i, k)
                && r[i].stepLabelClass == Some("step-label-horizontal" + StepState(i, k))
                && r[i].connectorClass == Some("step-connector" + StepState(i, k))
    ensures IsCancelled(status) ==>
              forall i :: 0 <= i < |r| ==>
                r[i].isLast == None && r[i].stepClass == Some("step pending")
                && r[i].stepIconClass == "step-icon-container pending"
                && r[i].stepLabelClass == None && r[i].connectorClass == None
  {
    if IsCancelled(status) then
      seq(|StatusSteps|, i requires 0 <= i < |StatusSteps| =>
        ProcessedStep(StatusSteps[i], false, false, None, true,
                      Some("step pending"), "step-icon-container pending", None, None))
    else
      var k := StepIndex(CurrentStatus(status));
      seq(|StatusSteps|, i requires 0 <= i < |StatusSteps| =>
        ProcessedStep(StatusSteps[i], i == k, i < k, Some(i == |StatusSteps| - 1), false, None,
                      "step-icon-horizontal" + StepState(i, k),
                      Some("step-label-horizontal" + StepState(i, k)),
                      Some("step-connector" + StepState(i, k))))
  }

  /** An order that is not cancelled has exactly one active step: the one its status
      maps to; the steps before it are completed. */
  lemma OneActiveStep(status: Option<string>)
    requires !IsCancelled(status)
    ensures exists k :: 0 <= k < |StatusSteps| && StatusSteps[k].key == CurrentStatus(status)
                        && forall i :: 0 <= i < |StatusSteps| ==>
                             (ProcessedSteps(status)[i].isActive <==> i == k)
                             && (ProcessedSteps(status)[i].isCompleted <==> i < k)
  {
    var k := StepIndex(CurrentStatus(status));
    assert 0 <= k < |StatusSteps|;
  }

  /** `Math.round(((k + 1) / n) * 100 * 10) / 10` in tenths of a percent: the
      nearest integer to (k + 1) * 1000 / n, rounding halves up. */
  function RoundedTenths(k: nat, n: nat): (r: int)
    requires n > 0
    ensures 2 * n * r <= (k + 1) * 2000 + n < 2 * n * (r + 1)
  {
    var r := ((k + 1) * 2000 + n) / (2 * n);
    DivBounds((k + 1) * 2000 + n, 2 * n);
    r
  }

  /** The quotient `a / b` is the largest `q` with `q * b <= a`. */
  lemma DivBounds(a: nat, b: nat)
    requires b > 0
    ensures b * (a / b) <= a < b * (a / b + 1)
  {
    var q, m := a / b, a % b;
    assert a == b * q + m;
    assert b * (q + 1) == b * q + b;
  }

  /** Progress in tenths of a percent: 0 when cancelled, else the share of steps
      reached (333, 667 or 1000). */
  function ProgressTenths(status: Option<string>): (r: int)
    ensures IsCancelled(status) ==> r == 0
    ensures !IsCancelled(status) ==> 0 < r <= 1000
    ensures r == 1000 <==> CurrentStatus(status) == "Delivered"
    ensures CurrentStatus(status) == "InPreparation" ==> r == 333
    ensures CurrentStatus(status) == "Delivering" ==> r == 667
    ensures !IsCancelled(status) ==> r == RoundedTenths(StepIndex(CurrentStatus(status)), |StatusSteps|)
  {
    if IsCancelled(status) then 0
    else
      var k := StepIndex(CurrentStatus(status));
      if k == -1 then 0 else RoundedTenths(k, |StatusSteps|)
  }

  /** Further along the steps never means less progress. */
  lemma ProgressMonotone(a: Option<string>, b: Option<string>)
    requires !IsCancelled(a) && !IsCancelled(b)
    requires StepIndex(CurrentStatus(a)) <= StepIndex(CurrentStatus(b))
    ensures ProgressTenths(a) <= ProgressTenths(b)
  {
  }

  /** A tenths value as JavaScript prints the number `tenths / 10`: no decimal
      point for a whole number, one decimal otherwise. */
  function TenthsText(tenths: nat): string {
    if tenths % 10 == 0 then NatToString(tenths / 10)
    else NatToString(tenths / 10) + "." + [DigitChar(tenths % 10)]
  }

  /** The four progress values print as 0, 33.3, 66.7 and 100. */
  lemma ProgressTexts()
    ensures TenthsText(0) == "0" && TenthsText(333) == "33.3"
    ensures TenthsText(667) == "66.7" && TenthsText(1000) == "100"
  {
    ThirdText();
    TwoThirdsText();
    FullText();
  }

  lemma ThirdText()
    ensures TenthsText(333) == "33.3"
  {
    TwoDigits(33);
    assert DigitChar(3) == '3';
  }

  lemma TwoThirdsText()
    ensures TenthsText(667) == "66.7"
  {
    TwoDigits(66);
    assert DigitChar(6) == '6' && DigitChar(7) == '7';
  }

  lemma FullText()
    ensures TenthsText(1000) == "100"
  {
    TwoDigits(10);
    assert NatToString(100) == NatToString(10) + [DigitChar(0)];
    assert DigitChar(0) == '0';
  }

  /** The text of a two-digit number is its two digits. */
  lemma TwoDigits(n: nat)
    requires 10 <= n < 100
    ensures NatToString(n) == [DigitChar(n / 10), DigitChar(n % 10)]
  {
    assert NatToString(n / 10) == [DigitChar(n / 10)];
  }

  /** The progress bar's inline style. */
  function ProgressBarStyle(status: Option<string>): (s: string)
    ensures |s| >= 9 && s[..7] == "width: " && s[|s| - 1] == '%'
  {
    "width: " + TenthsText(ProgressTenths(status)) + "%"
  }

  /** The bar is empty for a cancelled order and a third, two thirds or all of
      the way along for the three steps. */
  lemma ProgressBarWidths(status: Option<string>)
    ensures IsCancelled(status) ==> ProgressBarStyle(status) == "width: 0%"
    ensures CurrentStatus(status) == "InPreparation" ==> ProgressBarStyle(status) == "width: 33.3%"
    ensures CurrentStatus(status) == "Delivering" ==> ProgressBarStyle(status) == "width: 66.7%"
    ensures CurrentStatus(status) == "Delivered" ==> ProgressBarStyle(status) == "width: 100%"
  {
    if IsCancelled(status) {
      BarWidthOf(status, 0, "width: 0%");
    } else if CurrentStatus(status) == "InPreparation" {
      BarWidthOf(status, 333, "width: 33.3%");
    } else if CurrentStatus(status) == "Delivering" {
      BarWidthOf(status, 667, "width: 66.7%");
    } else if CurrentStatus(status) == "Delivered" {
      BarWidthOf(status, 1000, "width: 100%");
    }
  }

  /** The bar's style for a known progress value. */
  lemma BarWidthOf(status: Option<string>, t: nat, style: string)
    requires ProgressTenths(status) == t
    requires t in {0, 333, 667, 1000}
    requires style == if t == 0 then "width: 0%" else if t == 333 then "width: 33.3%"
                      else if t == 667 then "width: 66.7%" else "width: 100%"
    ensures ProgressBarStyle(status) == style
  {
    assert ProgressBarStyle(status) == "width: " + TenthsText(t) + "%";
    WidthText(t, style);
  }

  /** The style text of each of the four progress values. */
  lemma WidthText(t: nat, style: string)
    requires t in {0, 333, 667, 1000}
    requires style == if t == 0 then "width: 0%" else if t == 333 then "width: 33.3%"
                      else if t == 667 then "width: 66.7%" else "width: 100%"
    ensures "width: " + TenthsText(t) + "%" == style
  {
    ProgressTexts();
    if t == 0 {
      assert "width: " + "0" + "%" == style;
    } else if t == 333 {
      assert "width: " + "33.3" + "%" == style;
    } else if t == 667 {
      assert "width: " + "66.7" + "%" == style;
    } else {
      assert "width: " + "100" + "%" == style;
    }
  }

  /** The cancellation text, or the current step's description. */
  function StatusMessage(status: Option<string>): (r: string)
    ensures IsCancelled(status) ==> r == CancelledMessage
    ensures !IsCancelled(status) ==>
              exists i :: 0 <= i < |StatusSteps| && StatusSteps[i].key == CurrentStatus(status)
                          && r == StatusSteps[i].description
  {
    if IsCancelled(status) then CancelledMessage
    else
      var k := StepIndex(CurrentStatus(status));
      if k >= 0 then StatusSteps[k].description
      else "현재 상태: " + (if CurrentStatus(status) != "" then CurrentStatus(status) else "정보 없음")
  }

  /** Each displayed field, or '' when it is missing. */
  function OrderInfoOf(d: OrderData): (r: OrderInfo)
    ensures r.orderNumber == Or(d.orderNumber, "") && r.orderName == Or(d.name, "")
    ensures r.createdDate == Or(d.createdDate, "") && r.deliveryDate == Or(d.deliveryDate, "")
  {
    OrderInfo(Or(d.orderNumber, ""), Or(d.name, ""), Or(d.createdDate, ""), Or(d.deliveryDate, ""))
  }

  /** How the order query ended. */
  datatype LoadResult = Loaded(data: OrderData) | Failed(error: string)

  const LoadErrorToast := Toast("오류", "주문 정보를 가져오는 중 오류가 발생했습니다.", "error")

  class OrderDeliveryStatus {
    var recordId: Option<string>
    var orderData: OrderData
    var isLoading: bool
    var error: Option<string>

    constructor (recordId: Option<string>)
      ensures this.recordId == recordId && orderData == EmptyOrder && isLoading && error == None
    {
      this.recordId := recordId;
      orderData := EmptyOrder;
      isLoading := true;
      error := None;
    }

    /** Loads the order; `result` is how the query ended. Without a record id
        nothing happens. */
    method LoadOrderData(result: LoadResult) returns (toast: Option<Toast>)
      modifies this`orderData, this`isLoading, this`error
      ensures !Truthy(recordId) ==>
                toast == None && orderData == old(orderData) && isLoading == old(isLoading) && error == old(error)
      ensures Truthy(recordId) ==> !isLoading
      ensures Truthy(recordId) && result.Loaded? ==> orderData == result.data && error == None && toast == None
      ensures Truthy(recordId) && result.Failed? ==>
                orderData == EmptyOrder && error == Some(result.error) && toast == Some(LoadErrorToast)
    {
      if !Truthy(recordId) {
        return None;
      }
      isLoading := true;
      match result {
        case Loaded(data) =>
          orderData, error, isLoading := data, None, false;
          toast := None;
        case Failed(e) =>
          orderData, error, isLoading := EmptyOrder, Some(e), false;
          toast := Some(LoadErrorToast);
      }
    }
  }

  /** A failed load shows the order as in preparation, one third of the way. */
  lemma FailedLoadShowsPreparation()
    ensures CurrentStatus(EmptyOrder.status) == "InPreparation"
    ensures ProgressTenths(EmptyOrder.status) == 333
    ensures StatusMessage(EmptyOrder.status) == "주문이 접수되어 준비 중입니다"
  {
  }
}
