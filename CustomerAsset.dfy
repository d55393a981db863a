/** Wizard step 2: lists the customer's vehicles with their warranty state
    and sends the first one up. */
module CustomerAsset {
  import opened Js
  import opened ReservationEvents

  const ValidIcon := "utility:check"
  const ExpiredIcon := "utility:close"
  const ValidText := "보증 기간 유효"
  const ExpiredText := "보증 기간 만료"

  /** One asset row with its warranty display fields; `formatDate` is the
      locale date formatter. */
  function FormatAsset(a: AssetRecord, formatDate: string -> string): (v: AssetView)
    ensures v.asset == a
    ensures !Truthy(a.warrantyExpirationDate) ==> v.formattedWarrantyDate == None
    ensures Truthy(a.warrantyExpirationDate) ==>
              v.formattedWarrantyDate == Some(formatDate(a.warrantyExpirationDate.value))
    ensures a.isWarrantyValid ==>
              v.warrantyIcon == ValidIcon && v.warrantyIconVariant == "success" && v.warrantyStatusText == ValidText
    ensures !a.isWarrantyValid ==>
              v.warrantyIcon == ExpiredIcon && v.warrantyIconVariant == "error" && v.warrantyStatusText == ExpiredText
  {
    AssetView(
      a,
      if Truthy(a.warrantyExpirationDate) then Some(formatDate(a.warrantyExpirationDate.value)) else None,
      if a.isWarrantyValid then ValidIcon else ExpiredIcon,
      if a.isWarrantyValid then "success" else "error",
      if a.isWarrantyValid then ValidText else ExpiredText)
  }

  /** The warranty icon, variant and text depend on nothing but `isWarrantyValid`. */
  lemma WarrantyDisplayOnlyByValidity(a: AssetRecord, b: AssetRecord, f: string -> string, g: string -> string)
    requires a.isWarrantyValid == b.isWarrantyValid
    ensures FormatAsset(a, f).warrantyIcon == FormatAsset(b, g).warrantyIcon
    ensures FormatAsset(a, f).warrantyIconVariant == FormatAsset(b, g).warrantyIconVariant
    ensures FormatAsset(a, f).warrantyStatusText == FormatAsset(b, g).warrantyStatusText
  {
  }

  /** The mapped asset list: same count, same order, each row formatted. */
  function FormatAssets(data: seq<AssetRecord>, formatDate: string -> string): (r: seq<AssetView>)
    ensures |r| == |data|
    ensures forall i :: 0 <= i < |data| ==> r[i].asset == data[i] && r[i] == FormatAsset(data[i], formatDate)
  {
    seq(|data|, i requires 0 <= i < |data| => FormatAsset(data[i], formatDate))
  }

  class CustomerAsset {
    var assets: seq<AssetView>

    constructor ()
      ensures assets == []
    {
      assets := [];
    }

    method WiredAssets(r: WireResult<seq<AssetRecord>>, formatDate: string -> string)
      modifies this`assets
      ensures assets == if r.WireData? then FormatAssets(r.data, formatDate) else old(assets)
    {
      if r.WireData? {
        assets := FormatAssets(r.data, formatDate);
      }
    }

    /** "Previous": the `previous` event for the wizard; nothing here changes. */
    method HandlePrevious() returns (eventName: string)
      ensures eventName == PreviousEventName
    {
      eventName := PreviousEventName;
    }

    /** No asset: `assetInfo` is null and no `assetId` is sent; otherwise the first
        asset and its `assetInfo.Id`. */
    method HandleNext() returns (d: Step2Detail)
      ensures |assets| == 0 ==> d.assetInfo == NullAsset && d.assetId == None
      ensures |assets| > 0 ==> d.assetInfo == Chosen(assets[0]) && d.assetId == assets[0].asset.assetInfo.id
    {
      if |assets| == 0 {
        return Step2Detail(NullAsset, None);
      }
      var selected := assets[0];
      return Step2Detail(Chosen(selected), selected.asset.assetInfo.id);
    }
  }
}
