/** The `nextstep` payloads the six step views of the repair-reservation
    wizard send to the wizard controller, and the records inside them. */
module ReservationEvents {
  import opened Js

  /** The `customerInfo` record of step 1; the wizard starts with `{}` (all fields missing). */
  datatype CustomerData = CustomerData(
    name: Option<string>, phone: Option<string>, email: Option<string>, accountId: Option<string>)

  const NoCustomer := CustomerData(None, None, None, None)

  /** The nested `assetInfo` record of an asset row (only its `Id` is read). */
  datatype AssetInfo = AssetInfo(id: Option<string>)

  /** One asset row as the asset query returns it. */
  datatype AssetRecord = AssetRecord(
    assetInfo: AssetInfo, warrantyExpirationDate: Option<string>, isWarrantyValid: bool)

  /** An asset row with the warranty display fields added. */
  datatype AssetView = AssetView(
    asset: AssetRecord,
    formattedWarrantyDate: Option<string>,
    warrantyIcon: string,
    warrantyIconVariant: string,
    warrantyStatusText: string)

  /** The wizard's `assetInfo`: the initial `{}`, the `null` sent when the customer
      has no asset, or the chosen asset. */
  datatype AssetSlot = EmptyObject | NullAsset | Chosen(view: AssetView)

  /** The `serviceReservationData` record of step 3; the wizard starts with `{}`. */
  datatype ServiceData = ServiceData(
    serviceTypeValue: Option<string>,  // Service_Type__c
    serviceType: Option<string>,       // ServiceReservationType__c
    details: Option<string>,           // ServiceReservationTypeDetails__c, ';'-delimited
    description: Option<string>)       // Description__c

  const NoServiceData := ServiceData(None, None, None, None)

  /** The technician preview shown on step 6. */
  datatype Preview = Preview(available: bool, message: Option<string>)

  datatype Step1Detail = Step1Detail(customerInfo: CustomerData)
  datatype Step2Detail = Step2Detail(assetInfo: AssetSlot, assetId: Option<string>)
  datatype Step3Detail = Step3Detail(serviceReservationData: ServiceData, step: int)
  datatype Step4Detail = Step4Detail(repairShopId: Option<string>, repairShopName: Option<string>)
  datatype Step5Detail = Step5Detail(step: int, selectedDate: Option<string>, selectedSlotTime: Option<string>)
  datatype Step6Detail = Step6Detail(success: bool, step: int, technicianInfo: Option<Preview>)

  /** The event every step view but the first sends back to the wizard on "previous". */
  const PreviousEventName := "previous"

  /** A toast notification. */
  datatype Toast = Toast(title: string, message: string, variant: string)
}
