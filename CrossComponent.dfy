/** Properties that span components: the service details chosen in step 3
    reach the confirmation step intact, the two address pickers agree on
    province names, and the two gauges agree on colours. */
module CrossComponent {
  import opened Js
  import opened ReservationEvents
  import RepairSelector
  import ReservationFlow
  import Step6FinalConfirm
  import KoreanAddressMap
  import ContractMap
  import VehicleParts
  import VehicleBatteryView

  /** The details selected in step 3 travel through the controller to step 6,
      which labels each of them in order, provided something is selected and no
      value contains ';'. */
  method DetailsReachConfirmation(sel: RepairSelector.RepairSelector, labelMap: Step6FinalConfirm.LabelMap)
    returns (labels: seq<string>)
    requires |sel.selectedServiceTypeDetails| > 0
    requires forall i :: 0 <= i < |sel.selectedServiceTypeDetails| ==> ';' !in sel.selectedServiceTypeDetails[i]
    ensures |labels| == |sel.selectedServiceTypeDetails|
    ensures forall i :: 0 <= i < |labels| ==>
              labels[i] == Step6FinalConfirm.LabelOf(labelMap, sel.selectedServiceTypeDetails[i])
  {
    var d := sel.HandleNext();
    var flow := new ReservationFlow.ReservationFlow();
    flow.HandleStep3(d);
    var details := flow.SelectedServiceDetails();
    assert details == d.serviceReservationData.details.value;
    var confirm := new Step6FinalConfirm.Step6FinalConfirm(
      Some(details), flow.serviceType, flow.serviceTypeValue, None, None, None, None, None, None, None);
    labels := Step6FinalConfirm.DetailLabels(labelMap, confirm.selectedServiceDetails.value);
  }

  /** Every province the Korean address table maps is mapped the same way by the
      place-search picker, which only adds newer names. */
  lemma ProvinceTablesAgree()
    ensures forall k :: k in KoreanAddressMap.StateMapping ==>
              k in ContractMap.StateMap && ContractMap.StateMap[k] == KoreanAddressMap.StateMapping[k]
    ensures KoreanAddressMap.StateMapping.Keys < ContractMap.StateMap.Keys
  {
    assert "세종특별자치시" in ContractMap.StateMap && "세종특별자치시" !in KoreanAddressMap.StateMapping;
  }

  /** The battery charge bar and the parts stock gauge use the same thresholds
      and colours. */
  lemma ChargeAndStockGaugesAgree(level: int)
    ensures VehicleBatteryView.BatteryColor(level) == VehicleParts.GaugeColor(level)
  {
  }
}
