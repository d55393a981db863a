/** The account's order list: each order record with display defaults, an
    order status class and a delivery status class. */
module AccountOrderList {
  import opened Js
  import opened RecordLists

  /** The order fields the list reads; every field may be missing. */
  datatype OrderRecord = OrderRecord(
    id: string,
    orderNumber: Option<string>,
    name: Option<string>,
    status: Option<string>,
    totalAmount: Option<int>,
    effectiveDate: Option<string>,
    deliveryDate: Option<string>,
    deliveryStatus: Option<string>,
    vin: Option<string>,
    orderChannel: Option<string>)

  /** An order as displayed. */
  datatype FormattedOrder = FormattedOrder(
    id: string,
    orderNumber: string,
    name: string,
    status: string,
    totalAmount: string,
    effectiveDate: string,
    deliveryDate: string,
    deliveryStatus: string,
    vin: string,
    orderChannel: string,
    statusClass: string,
    deliveryStatusClass: string)

  /** The order status class, compared case-insensitively. */
  function StatusClass(status: Option<string>): (r: string)
    ensures r in {"status-unknown", "status-active", "status-draft", "status-default"}
    ensures !Truthy(status) ==> r == "status-unknown"
    ensures Truthy(status) ==>
              var s := ToLower(status.value);
              (s == "activated" || s == "활성화" ==> r == "status-active")
              && (s == "draft" || s == "초안" ==> r == "status-draft")
              && (s !in {"activated", "활성화", "draft", "초안"} ==> r == "status-default")
  {
    if !Truthy(status) then "status-unknown"
    else match ToLower(status.value)
      case "activated" => "status-active"
      case "활성화" => "status-active"
      case "draft" => "status-draft"
      case "초안" => "status-draft"
      case _ => "status-default"
  }

  /** The delivery status class, compared case-insensitively. */
  function DeliveryStatusClass(deliveryStatus: Option<string>): (r: string)
    ensures r in {"delivery-unknown", "delivery-completed", "delivery-shipping", "delivery-preparing", "delivery-default"}
    ensures !Truthy(deliveryStatus) ==> r == "delivery-unknown"
    ensures Truthy(deliveryStatus) ==>
              var s := ToLower(deliveryStatus.value);
              (s == "배송완료" || s == "delivered" ==> r == "delivery-completed")
              && (s == "배송중" || s == "shipping" ==> r == "delivery-shipping")
              && (s == "준비중" || s == "preparing" ==> r == "delivery-preparing")
              && (s !in {"배송완료", "delivered", "배송중", "shipping", "준비중", "preparing"} ==> r == "delivery-default")
  {
    if !Truthy(deliveryStatus) then "delivery-unknown"
    else match ToLower(deliveryStatus.value)
      case "배송완료" => "delivery-completed"
      case "delivered" => "delivery-completed"
      case "배송중" => "delivery-shipping"
      case "shipping" => "delivery-shipping"
      case "준비중" => "delivery-preparing"
      case "preparing" => "delivery-preparing"
      case _ => "delivery-default"
  }

  /** Both classifiers read a status the same in any letter case. */
  lemma ClassesIgnoreCase(status: string)
    ensures StatusClass(Some(status)) == StatusClass(Some(ToLower(status)))
    ensures DeliveryStatusClass(Some(status)) == DeliveryStatusClass(Some(ToLower(status)))
  {
    ToLowerIdempotent(status);
  }

  function FormatOrder(o: OrderRecord, env: Env): (f: FormattedOrder)
    ensures f.id == o.id
    ensures f.orderNumber == Or(o.orderNumber, "주문번호 없음") && f.name == Or(o.name, "주문명 없음")
    ensures f.status == Or(o.status, "상태 없음")
    ensures f.totalAmount == FormatCurrency(o.totalAmount, env)
    ensures f.effectiveDate == FormatDate(o.effectiveDate, env) && f.deliveryDate == FormatDate(o.deliveryDate, env)
    ensures f.deliveryStatus == Or(o.deliveryStatus, "배송상태 없음")
    ensures f.vin == Or(o.vin, "VIN 없음") && f.orderChannel == Or(o.orderChannel, "채널 없음")
    ensures f.statusClass == StatusClass(o.status)
    ensures f.deliveryStatusClass == DeliveryStatusClass(o.deliveryStatus)
  {
    FormattedOrder(
      o.id,
      Or(o.orderNumber, "주문번호 없음"),
      Or(o.name, "주문명 없음"),
      Or(o.status, "상태 없음"),
      FormatCurrency(o.totalAmount, env),
      FormatDate(o.effectiveDate, env),
      FormatDate(o.deliveryDate, env),
      Or(o.deliveryStatus, "배송상태 없음"),
      Or(o.vin, "VIN 없음"),
      Or(o.orderChannel, "채널 없음"),
      StatusClass(o.status),
      DeliveryStatusClass(o.deliveryStatus))
  }

  /** The displayed orders: one per record, in order; none while undefined. */
  function FormattedOrders(s: ListState<OrderRecord>, env: Env): (r: seq<FormattedOrder>)
    ensures |r| == RecordCount(s)
    ensures s.records.Some? ==> forall i :: 0 <= i < |r| ==> r[i] == FormatOrder(s.records.value[i], env)
  {
    if s.records.None? then []
    else
      var os := s.records.value;
      seq(|os|, i requires 0 <= i < |os| => FormatOrder(os[i], env))
  }
}
