/** Wizard step 4: search repair shops by province and city, pick one, and
    keep the map markers and centre in line with the list. */
module RepairShopSelector {
  import opened Js
  import opened ReservationEvents

  /** A map position; coordinates are opaque values, never computed on. */
  datatype Location = Location(latitude: real, longitude: real)

  /** A repair-shop row as the shop query returns it. */
  datatype Shop = Shop(
    id: string,
    name: Option<string>,
    address: Option<string>,
    phone: Option<string>,
    latitude: Option<real>,
    longitude: Option<real>)

  /** A listed shop with its selection flag and CSS class. */
  datatype ShopView = ShopView(shop: Shop, isSelected: bool, cssClass: string)

  /** A map marker; `title` is the shop name, which may be missing. */
  datatype Marker = Marker(location: Location, title: Option<string>, description: string, icon: string)

  /** What "next" produces: a warning toast, or the `nextstep` payload. */
  datatype NextOutcome = NoShopSelected(toast: Toast) | Next(detail: Step4Detail)

  const NoShopToast := Toast("정비소 미선택", "정비소를 선택해주세요.", "warning")
  const RefreshFailedToast := Toast("새로고침 실패", "데이터를 새로고침하는 중 오류가 발생했습니다.", "error")

  /** The success toast of a refresh, carrying the number of shops with coordinates. */
  function RefreshDoneToast(withCoords: nat): Toast {
    Toast("새로고침 완료", "정비소 데이터가 업데이트되었습니다. (좌표 있음: " + NatToString(withCoords) + "개)", "success")
  }
  const FallbackShopName := "선택된 정비소"
  const DefaultZoom := 14
  const SelectedZoom := 16

  /** A coordinate is truthy when present and not zero. */
  predicate TruthyCoordinate(c: Option<real>) {
    c.Some? && c.value != 0.0
  }

  /** Both coordinates are truthy. */
  predicate HasCoords(s: Shop) {
    TruthyCoordinate(s.latitude) && TruthyCoordinate(s.longitude)
  }

  function ShopLocation(s: Shop): Location
    requires HasCoords(s)
  {
    Location(s.latitude.value, s.longitude.value)
  }

  function ShopClass(isSelected: bool): (r: string)
    ensures r == "repair-shop selected" || r == "repair-shop"
    ensures r == "repair-shop selected" <==> isSelected
  {
    if isSelected then "repair-shop selected" else "repair-shop"
  }

  /** A view agrees with the selection: flagged exactly when its id is the selected
      id, with the class that goes with the flag. */
  predicate Consistent(v: ShopView, selected: Option<string>) {
    (v.isSelected <==> selected == Some(v.shop.id)) && v.cssClass == ShopClass(v.isSelected)
  }

  /** The shops of a list of views. */
  function ShopsOf(views: seq<ShopView>): (r: seq<Shop>)
    ensures |r| == |views|
    ensures forall i :: 0 <= i < |r| ==> r[i] == views[i].shop
  {
    seq(|views|, i requires 0 <= i < |views| => views[i].shop)
  }

  /** The shops flagged against `selected`: same shops, same order, each one consistent. */
  function Marked(shops: seq<Shop>, selected: Option<string>): (r: seq<ShopView>)
    ensures |r| == |shops|
    ensures forall i :: 0 <= i < |r| ==> r[i].shop == shops[i] && Consistent(r[i], selected)
  {
    seq(|shops|, i requires 0 <= i < |shops| =>
      var sel := selected == Some(shops[i].id);
      ShopView(shops[i], sel, ShopClass(sel)))
  }

  /** With no selection every shop is unflagged and plain. */
  lemma MarkedNone(shops: seq<Shop>)
    ensures forall i :: 0 <= i < |shops| ==>
              !Marked(shops, None)[i].isSelected && Marked(shops, None)[i].cssClass == "repair-shop"
  {
  }

  /** The listed shops that have both coordinates, in list order. */
  function WithCoords(views: seq<ShopView>): (r: seq<ShopView>)
    ensures |r| <= |views|
    ensures forall i :: 0 <= i < |r| ==> HasCoords(r[i].shop)
  {
    var r := Filter((v: ShopView) => HasCoords(v.shop), views);
    assert forall i :: 0 <= i < |r| ==> r[i] in r;
    r
  }

  /** The shops kept for the map are exactly the listed shops with coordinates,
      in list order. */
  lemma WithCoordsExactly(views: seq<ShopView>)
    ensures IsSubsequence(WithCoords(views), views)
    ensures forall v :: v in WithCoords(views) <==> v in views && HasCoords(v.shop)
  {
  }

  /** The plain marker of a shop: at the shop, titled with its name, described by
      its address and phone. */
  function PlainMarker(s: Shop): (m: Marker)
    requires HasCoords(s)
    ensures m.location == ShopLocation(s) && m.title == s.name && m.icon == "utility:location"
    ensures m.description == TemplateText(s.address) + "\n" + Or(s.phone, "")
  {
    Marker(ShopLocation(s), s.name, TemplateText(s.address) + "\n" + Or(s.phone, ""), "utility:location")
  }

  /** The marker of a shop when `selectedId` is selected: the selected shop gets a
      check mark in its title and the success icon, the others the location icon. */
  function SelectionMarker(s: Shop, selectedId: string): (m: Marker)
    requires HasCoords(s)
    ensures m.location == ShopLocation(s)
    ensures s.id == selectedId ==> m.icon == "utility:success" && m.title == Some(TemplateText(s.name) + " ✓ 선택됨")
    ensures s.id != selectedId ==> m.icon == "utility:location" && m.title == Some(TemplateText(s.name))
  {
    var sel := s.id == selectedId;
    assert TemplateText(s.name) + "" == TemplateText(s.name);
    Marker(ShopLocation(s),
           Some(TemplateText(s.name) + (if sel then " ✓ 선택됨" else "")),
           Or(s.address, "주소 정보 없음") + "\n" + Or(s.phone, "전화번호 정보 없음") + "\n"
             + (if sel then "✅ 선택된 정비소" else "📍 정비소"),
           if sel then "utility:success" else "utility:location")
  }

  /** One plain marker per shop with coordinates, in list order. */
  function Markers(views: seq<ShopView>): (r: seq<Marker>)
    ensures |r| == |WithCoords(views)| <= |views|
    ensures forall i :: 0 <= i < |r| ==> r[i] == PlainMarker(WithCoords(views)[i].shop)
  {
    var shops := WithCoords(views);
    seq(|shops|, i requires 0 <= i < |shops| => PlainMarker(shops[i].shop))
  }

  /** One marker per shop with coordinates, with the shop `selectedId` highlighted. */
  function SelectionMarkers(views: seq<ShopView>, selectedId: string): (r: seq<Marker>)
    ensures |r| == |WithCoords(views)| <= |views|
    ensures forall i :: 0 <= i < |r| ==> r[i] == SelectionMarker(WithCoords(views)[i].shop, selectedId)
  {
    var shops := WithCoords(views);
    seq(|shops|, i requires 0 <= i < |shops| => SelectionMarker(shops[i].shop, selectedId))
  }

  /** The first listed shop with coordinates, if any. */
  function FirstWithCoords(views: seq<ShopView>): (r: Option<Shop>)
    ensures r.None? <==> forall i :: 0 <= i < |views| ==> !HasCoords(views[i].shop)
    ensures r.Some? ==> HasCoords(r.value)
                        && exists k :: 0 <= k < |views| && views[k].shop == r.value
                                       && forall j :: 0 <= j < k ==> !HasCoords(views[j].shop)
    decreases |views|
  {
    if |views| == 0 then None
    else if HasCoords(views[0].shop) then Some(views[0].shop)
    else
      var r := FirstWithCoords(views[1..]);
      assert forall i :: 1 <= i < |views| ==> views[i] == views[1..][i - 1];
      assert r.Some? ==> exists k :: 0 <= k < |views| && views[k].shop == r.value
                                    && forall j :: 0 <= j < k ==> !HasCoords(views[j].shop) by {
        if r.Some? {
          var k :| 0 <= k < |views[1..]| && views[1..][k].shop == r.value
                   && forall j :: 0 <= j < k ==> !HasCoords(views[1..][j].shop);
          assert views[k + 1].shop == r.value;
          forall j | 0 <= j < k + 1 ensures !HasCoords(views[j].shop) {
            if j > 0 {
              assert views[j] == views[1..][j - 1];
            }
          }
        }
      }
      r
  }

  const Seoul := Location(37.5665, 126.9780)

  /** Default map centre per province. */
  const RegionCenters: map<string, Location> := map[
    "서울특별시" := Seoul,
    "부산광역시" := Location(35.1796, 129.0756),
    "대구광역시" := Location(35.8714, 128.6014),
    "인천광역시" := Location(37.4563, 126.7052),
    "광주광역시" := Location(35.1595, 126.8526),
    "대전광역시" := Location(36.3504, 127.3845),
    "울산광역시" := Location(35.5384, 129.3114),
    "경기도" := Location(37.4138, 127.5183),
    "강원도" := Location(37.8228, 128.1555),
    "충청북도" := Location(36.8, 127.7),
    "충청남도" := Location(36.5, 126.8),
    "전라북도" := Location(35.7, 127.1),
    "전라남도" := Location(34.8, 126.9),
    "경상북도" := Location(36.4, 128.9),
    "경상남도" := Location(35.4, 128.1),
    "제주특별자치도" := Location(33.4996, 126.5312)
  ]

  /** The table entry for a known province, Seoul otherwise; always a table value. */
  function DefaultLocation(province: string): (r: Location)
    ensures province in RegionCenters ==> r == RegionCenters[province]
    ensures province !in RegionCenters ==> r == Seoul
    ensures r in RegionCenters.Values
  {
    assert RegionCenters["서울특별시"] == Seoul;
    if province in RegionCenters then RegionCenters[province] else Seoul
  }

  /** The map centre after a search: the first shop with coordinates, or the
      province's default. */
  function Center(views: seq<ShopView>, province: string): (r: Location)
    ensures (forall i :: 0 <= i < |views| ==> !HasCoords(views[i].shop)) ==> r == DefaultLocation(province)
    ensures (exists i :: 0 <= i < |views| && HasCoords(views[i].shop)) ==>
              exists k :: 0 <= k < |views| && HasCoords(views[k].shop) && r == ShopLocation(views[k].shop)
                          && forall j :: 0 <= j < k ==> !HasCoords(views[j].shop)
  {
    var first := FirstWithCoords(views);
    if first.Some? then ShopLocation(first.value) else DefaultLocation(province)
  }

  /** The first listed shop with id `id`, if any. */
  function FindShop(views: seq<ShopView>, id: string): (r: Option<ShopView>)
    ensures r.None? <==> forall i :: 0 <= i < |views| ==> views[i].shop.id != id
    ensures r.Some? ==> r.value.shop.id == id
    ensures r.Some? ==> exists k :: 0 <= k < |views| && views[k] == r.value
                          && forall j :: 0 <= j < k ==> views[j].shop.id != id
    decreases |views|
  {
    if |views| == 0 then None
    else if views[0].shop.id == id then Some(views[0])
    else
      assert forall i :: 1 <= i < |views| ==> views[i] == views[1..][i - 1];
      var r := FindShop(views[1..], id);
      assert r.Some? ==> exists k :: 0 <= k < |views| && views[k] == r.value
                          && forall j :: 0 <= j < k ==> views[j].shop.id != id by {
        if r.Some? {
          var k :| 0 <= k < |views[1..]| && views[1..][k] == r.value
                   && forall j :: 0 <= j < k ==> views[1..][j].shop.id != id;
          assert views[k + 1] == r.value;
          forall j | 0 <= j < k + 1 ensures views[j].shop.id != id {
            if j > 0 { assert views[j] == views[1..][j - 1]; }
          }
        }
      }
      r
  }

  class RepairShopSelector {
    var selectedProvince: string
    var selectedCity: string
    var repairShops: seq<ShopView>
    var selectedRepairShopId: Option<string>
    var searchPerformed: bool
    var mapMarkers: seq<Marker>
    var mapCenter: Location
    var zoomLevel: int

    /** Every listed shop's flag and class agree with the selected id. */
    ghost predicate Valid()
      reads this`repairShops, this`selectedRepairShopId
    {
      forall i :: 0 <= i < |repairShops| ==> Consistent(repairShops[i], selectedRepairShopId)
    }

    constructor ()
      ensures Valid()
      ensures selectedProvince == "" && selectedCity == "" && repairShops == []
      ensures selectedRepairShopId == None && !searchPerformed && mapMarkers == []
      ensures mapCenter == Seoul && zoomLevel == DefaultZoom
    {
      selectedProvince := "";
      selectedCity := "";
      repairShops := [];
      selectedRepairShopId := None;
      searchPerformed := false;
      mapMarkers := [];
      mapCenter := Seoul;
      zoomLevel := DefaultZoom;
    }

    /** Search needs both a province and a city. */
    function IsSearchDisabled(): (r: bool)
      reads this
      ensures r <==> selectedProvince == "" || selectedCity == ""
    {
      !(selectedProvince != "" && selectedCity != "")
    }

    function HasRepairShops(): (r: bool)
      reads this
      ensures r <==> repairShops != []
    {
      |repairShops| > 0
    }

    /** "No results" shows only after a search that found nothing. */
    function ShowNoResults(): (r: bool)
      reads this
      ensures r <==> searchPerformed && !HasRepairShops()
    {
      searchPerformed && |repairShops| == 0
    }

    function IsNextDisabled(): (r: bool)
      reads this
      ensures r <==> !Truthy(selectedRepairShopId)
    {
      !Truthy(selectedRepairShopId)
    }

    /** A new province clears the city, the list and the searched flag. */
    method HandleProvinceChange(value: string)
      requires Valid()
      modifies this`selectedProvince, this`selectedCity, this`repairShops, this`searchPerformed
      ensures Valid()
      ensures selectedProvince == value && selectedCity == "" && repairShops == [] && !searchPerformed
    {
      selectedProvince := value;
      selectedCity := "";
      repairShops := [];
      searchPerformed := false;
    }

    /** Applies the shop query's answer (`None` when it failed). */
    method HandleSearch(fetched: Option<seq<Shop>>)
      requires Valid()
      modifies this`repairShops, this`selectedRepairShopId, this`searchPerformed, this`mapMarkers,
               this`mapCenter, this`zoomLevel
      ensures Valid() && searchPerformed
      ensures fetched.Some? ==>
                repairShops == Marked(fetched.value, None) && selectedRepairShopId == None
                && mapMarkers == Markers(repairShops) && mapCenter == Center(repairShops, selectedProvince)
                && zoomLevel == DefaultZoom
      ensures fetched.Some? ==> (ShowNoResults() <==> |fetched.value| == 0)
      ensures fetched.None? ==>
                repairShops == [] && mapMarkers == [] && selectedRepairShopId == old(selectedRepairShopId)
                && mapCenter == old(mapCenter) && zoomLevel == old(zoomLevel)
    {
      if fetched.Some? {
        ShowShops(fetched.value);
        ShowMap();
      } else {
        repairShops := [];
        searchPerformed := true;
        mapMarkers := [];
      }
    }

    /** A search's answer lists its shops, none of them selected. */
    method ShowShops(data: seq<Shop>)
      modifies this`repairShops, this`selectedRepairShopId, this`searchPerformed
      ensures Valid() && searchPerformed
      ensures repairShops == Marked(data, None) && selectedRepairShopId == None
    {
      repairShops := Marked(data, None);
      selectedRepairShopId := None;
      searchPerformed := true;
    }

    /** The map shows a marker per listed shop with coordinates, centred on the first
        of them, at the default zoom. */
    method ShowMap()
      modifies this`mapMarkers, this`mapCenter, this`zoomLevel
      ensures mapMarkers == Markers(repairShops) && mapCenter == Center(repairShops, selectedProvince)
      ensures zoomLevel == DefaultZoom
    {
      mapMarkers := Markers(repairShops);
      mapCenter := Center(repairShops, selectedProvince);
      zoomLevel := DefaultZoom;
    }

    /** A new city; with both a province and a city the search runs at once. */
    method HandleCityChange(value: string, fetched: Option<seq<Shop>>)
      requires Valid()
      modifies this`selectedCity, this`repairShops, this`selectedRepairShopId, this`searchPerformed,
               this`mapMarkers, this`mapCenter, this`zoomLevel
      ensures Valid() && selectedCity == value
      ensures value == "" || selectedProvince == "" ==>
                repairShops == old(repairShops) && searchPerformed == old(searchPerformed)
                && selectedRepairShopId == old(selectedRepairShopId)
                && mapMarkers == old(mapMarkers) && mapCenter == old(mapCenter) && zoomLevel == old(zoomLevel)
      ensures value != "" && selectedProvince != "" ==> searchPerformed
      ensures value != "" && selectedProvince != "" && fetched.Some? ==>
                repairShops == Marked(fetched.value, None) && selectedRepairShopId == None
                && mapMarkers == Markers(repairShops) && mapCenter == Center(repairShops, selectedProvince)
                && zoomLevel == DefaultZoom
      ensures value != "" && selectedProvince != "" && fetched.None? ==>
                repairShops == [] && mapMarkers == [] && selectedRepairShopId == old(selectedRepairShopId)
                && mapCenter == old(mapCenter) && zoomLevel == old(zoomLevel)
    {
      selectedCity := value;
      if selectedCity != "" && selectedProvince != "" {
        HandleSearch(fetched);
      }
    }

    /** Clicking a listed shop selects it alone; an unknown id changes nothing. With
        coordinates the map centres on it, zooms in and highlights its marker. */
    method HandleShopClick(shopId: string)
      requires Valid()
      modifies this`selectedRepairShopId, this`repairShops, this`mapCenter, this`zoomLevel, this`mapMarkers
      ensures Valid()
      ensures var found := FindShop(old(repairShops), shopId);
                found.None? ==>
                  selectedRepairShopId == old(selectedRepairShopId) && repairShops == old(repairShops)
                  && mapCenter == old(mapCenter) && zoomLevel == old(zoomLevel) && mapMarkers == old(mapMarkers)
      ensures var found := FindShop(old(repairShops), shopId);
                found.Some? ==>
                  selectedRepairShopId == Some(shopId) && repairShops == Marked(ShopsOf(old(repairShops)), Some(shopId))
      ensures var found := FindShop(old(repairShops), shopId);
                found.Some? && HasCoords(found.value.shop) ==>
                  mapCenter == ShopLocation(found.value.shop)
                  && zoomLevel == SelectedZoom && mapMarkers == SelectionMarkers(repairShops, shopId)
      ensures var found := FindShop(old(repairShops), shopId);
                found.Some? && !HasCoords(found.value.shop) ==>
                  mapCenter == old(mapCenter) && zoomLevel == old(zoomLevel) && mapMarkers == old(mapMarkers)
    {
      var shop := FindShop(repairShops, shopId);
      if shop.None? {
        return;
      }
      Select(shop.value.shop);
    }

    /** Selects a listed shop alone, and centres the map on it when it has coordinates. */
    method Select(shop: Shop)
      modifies this`selectedRepairShopId, this`repairShops, this`mapCenter, this`zoomLevel, this`mapMarkers
      ensures Valid()
      ensures selectedRepairShopId == Some(shop.id) && repairShops == Marked(ShopsOf(old(repairShops)), Some(shop.id))
      ensures HasCoords(shop) ==>
                mapCenter == ShopLocation(shop) && zoomLevel == SelectedZoom
                && mapMarkers == SelectionMarkers(repairShops, shop.id)
      ensures !HasCoords(shop) ==>
                mapCenter == old(mapCenter) && zoomLevel == old(zoomLevel) && mapMarkers == old(mapMarkers)
    {
      var marked := Marked(ShopsOf(repairShops), Some(shop.id));
      selectedRepairShopId := Some(shop.id);
      repairShops := marked;
      if HasCoords(shop) {
        mapCenter := ShopLocation(shop);
        zoomLevel := SelectedZoom;
        mapMarkers := SelectionMarkers(marked, shop.id);
      }
    }

    /** Re-applies the shop query's answer keeping the current selection flags and
        reports the number of shops with coordinates; a failed query changes nothing
        but raises the error toast. */
    method HandleRefresh(fetched: Option<seq<Shop>>) returns (toast: Toast)
      requires Valid()
      modifies this`repairShops, this`mapMarkers
      ensures Valid()
      ensures fetched.Some? ==> repairShops == Marked(fetched.value, selectedRepairShopId)
      ensures fetched.Some? && Truthy(selectedRepairShopId) ==>
                mapMarkers == SelectionMarkers(repairShops, selectedRepairShopId.value)
      ensures fetched.Some? && !Truthy(selectedRepairShopId) ==> mapMarkers == Markers(repairShops)
      ensures fetched.Some? ==> toast == RefreshDoneToast(|WithCoords(repairShops)|)
      ensures fetched.Some? ==> toast == RefreshDoneToast(|mapMarkers|)
      ensures fetched.None? ==>
                repairShops == old(repairShops) && mapMarkers == old(mapMarkers) && toast == RefreshFailedToast
    {
      if fetched.Some? {
        repairShops := Marked(fetched.value, selectedRepairShopId);
        mapMarkers := Markers(repairShops);
        if Truthy(selectedRepairShopId) {
          mapMarkers := SelectionMarkers(repairShops, selectedRepairShopId.value);
        }
        toast := RefreshDoneToast(|WithCoords(repairShops)|);
      } else {
        toast := RefreshFailedToast;
      }
    }

    /** "Previous": the `previous` event for the wizard; nothing here changes. */
    method HandlePrevious() returns (eventName: string)
      ensures eventName == PreviousEventName
    {
      eventName := PreviousEventName;
    }

    /** No selection: a warning and no payload. Otherwise the selected id and the
        listed shop's name, or the fallback name when the shop is no longer listed. */
    method HandleNext() returns (out: NextOutcome)
      ensures out.NoShopSelected? <==> !Truthy(selectedRepairShopId)
      ensures out.NoShopSelected? ==> out.toast == NoShopToast
      ensures out.Next? ==> out.detail.repairShopId == selectedRepairShopId
      ensures out.Next? && FindShop(repairShops, selectedRepairShopId.value).Some? ==>
                out.detail.repairShopName == FindShop(repairShops, selectedRepairShopId.value).value.shop.name
      ensures out.Next? && (forall i :: 0 <= i < |repairShops| ==> repairShops[i].shop.id != selectedRepairShopId.value) ==>
                out.detail.repairShopName == Some(FallbackShopName)
    {
      if !Truthy(selectedRepairShopId) {
        return NoShopSelected(NoShopToast);
      }
      var shop := FindShop(repairShops, selectedRepairShopId.value);
      var name := if shop.Some? then shop.value.shop.name else Some(FallbackShopName);
      return Next(Step4Detail(selectedRepairShopId, name));
    }
  }

  /** Clicking a listed shop keeps the list's shops and order and flags exactly the
      shops carrying the clicked id. */
  lemma ClickSelectsExactly(views: seq<ShopView>, shopId: string)
    ensures |Marked(ShopsOf(views), Some(shopId))| == |views|
    ensures forall i :: 0 <= i < |views| ==>
              Marked(ShopsOf(views), Some(shopId))[i].shop == views[i].shop
              && (Marked(ShopsOf(views), Some(shopId))[i].isSelected <==> views[i].shop.id == shopId)
              && Marked(ShopsOf(views), Some(shopId))[i].cssClass
                 == (if views[i].shop.id == shopId then "repair-shop selected" else "repair-shop")
  {
  }

  /** After a successful search nothing is selected and "next" is disabled. */
  lemma SearchClearsSelection(s: RepairShopSelector, data: seq<Shop>)
    requires s.repairShops == Marked(data, None) && s.selectedRepairShopId == None
    ensures s.IsNextDisabled()
    ensures forall i :: 0 <= i < |s.repairShops| ==> !s.repairShops[i].isSelected
  {
  }
}
