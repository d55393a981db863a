/** The contract address picker backed by place search: suggestions for a query,
    a selected place on the map, and the shipping fields derived from the place's
    address components. */
module ContractMap {
  import opened Js
  import opened ReservationEvents

  /** A point on the map. */
  datatype Coordinates = Coordinates(latitude: real, longitude: real)

  /** One suggestion of the place search. */
  datatype Prediction = Prediction(description: string, placeId: string)

  /** One address component of a place: its long name and its types. */
  datatype AddressComponent = AddressComponent(longName: string, types: seq<string>)

  /** A place as the details lookup returns it, already parsed. */
  datatype Place = Place(
    name: string,
    formattedAddress: string,
    components: seq<AddressComponent>,
    lat: real,
    lng: real)

  /** The marker of the selected place. */
  datatype MapMarker = MapMarker(location: Coordinates, title: string, description: string)

  /** The record fields the save sends. */
  datatype ShippingFields = ShippingFields(
    id: Option<string>,
    shippingStreet: string,
    shippingCity: string,
    shippingState: string,
    shippingPostalCode: string,
    shippingCountry: string)

  /** How the record update ended. */
  datatype SaveOutcome = Saved | SaveFailed(message: string)

  const SeoulCenter := Coordinates(37.5665, 126.9780)
  const KoreaCountry := "Korea, Republic of"
  const SavedToast := Toast("주소 저장 완료", "상세 주소까지 함께 저장되었습니다.", "success")

  /** Korean province names, old and new, to their English names. */
  const StateMap: map<string, string> := map[
    "서울특별시" := "Seoul",
    "부산광역시" := "Busan",
    "대구광역시" := "Daegu",
    "인천광역시" := "Incheon",
    "광주광역시" := "Gwangju",
    "대전광역시" := "Daejeon",
    "울산광역시" := "Ulsan",
    "세종특별자치시" := "Sejong",
    "경기도" := "Gyeonggi-do",
    "강원도" := "Gangwon-do",
    "강원특별자치도" := "Gangwon-do",
    "충청북도" := "Chungcheongbuk-do",
    "충청남도" := "Chungcheongnam-do",
    "전라북도" := "Jeollabuk-do",
    "전라남도" := "Jeollanam-do",
    "경상북도" := "Gyeongsangbuk-do",
    "경상남도" := "Gyeongsangnam-do",
    "제주특별자치도" := "Jeju-do",
    "제주도" := "Jeju-do"
  ]

  /** The index of the first component whose types include `key`, or -1. */
  function FirstWithType(components: seq<AddressComponent>, key: string): (k: int)
    ensures -1 <= k < |components|
    ensures k == -1 <==> forall i :: 0 <= i < |components| ==> key !in components[i].types
    ensures k >= 0 ==> key in components[k].types && forall i :: 0 <= i < k ==> key !in components[i].types
    decreases |components|
  {
    if |components| == 0 then -1
    else if key in components[0].types then 0
    else
      var rest := components[1..];
      assert forall i :: 1 <= i < |components| ==> components[i] == rest[i - 1];
      var k := FirstWithType(rest, key);
      if k == -1 then -1 else k + 1
  }

  /** The long name of the first component whose types include `key`, or ''. */
  function GetComponent(components: seq<AddressComponent>, key: string): (r: string)
    ensures (forall i :: 0 <= i < |components| ==> key !in components[i].types) ==> r == ""
    ensures FirstWithType(components, key) >= 0 ==>
              r == components[FirstWithType(components, key)].longName
    decreases |components|
  {
    if |components| == 0 then ""
    else if key in components[0].types then components[0].longName
    else
      var rest := components[1..];
      assert forall i :: 1 <= i < |components| ==> components[i] == rest[i - 1];
      GetComponent(rest, key)
  }

  /** The English name of a known province, else the state as given. */
  function NormaliseState(state: string): (r: string)
    ensures state in StateMap ==> r == StateMap[state]
    ensures state !in StateMap ==> r == state
  {
    if state in StateMap && StateMap[state] != "" then StateMap[state] else state
  }

  /** The three spellings of Korea become the standard country name. */
  function NormaliseCountry(country: string): (r: string)
    ensures country in {"대한민국", "South Korea", "Republic of Korea"} ==> r == KoreaCountry
    ensures country !in {"대한민국", "South Korea", "Republic of Korea"} ==> r == country
  {
    if country == "대한민국" || country == "South Korea" || country == "Republic of Korea" then KoreaCountry
    else country
  }

  /** Every Korean key starts with a Hangul syllable. */
  lemma KeysAreKorean()
    ensures forall k :: k in StateMap ==> |k| > 0 && k[0] >= '\U{AC00}'
  {
  }

  /** Every English name starts with an ASCII letter. */
  lemma EnglishNamesAreAscii(state: string)
    requires state in StateMap
    ensures |StateMap[state]| > 0 && StateMap[state][0] < '\U{80}'
  {
  }

  /** No English name is itself a Korean key, so normalising twice changes nothing. */
  lemma NormaliseStateIdempotent(state: string)
    ensures NormaliseState(NormaliseState(state)) == NormaliseState(state)
  {
    if state in StateMap {
      KeysAreKorean();
      EnglishNamesAreAscii(state);
    }
  }

  lemma NormaliseCountryIdempotent(country: string)
    ensures NormaliseCountry(NormaliseCountry(country)) == NormaliseCountry(country)
  {
  }

  /** The city: the sublocality when there is one, else the locality. */
  function City(components: seq<AddressComponent>): (r: string)
    ensures GetComponent(components, "sublocality") != "" ==> r == GetComponent(components, "sublocality")
    ensures GetComponent(components, "sublocality") == "" ==> r == GetComponent(components, "locality")
  {
    var sub := GetComponent(components, "sublocality");
    if sub != "" then sub else GetComponent(components, "locality")
  }

  /** The fields saved for a place and a detail text. */
  function SaveFields(recordId: Option<string>, place: Place, detail: Option<string>): (f: ShippingFields)
    ensures f.id == recordId
    ensures f.shippingStreet == Trim(place.formattedAddress + " " + Or(detail, ""))
    ensures f.shippingCity == City(place.components)
    ensures f.shippingState == NormaliseState(GetComponent(place.components, "administrative_area_level_1"))
    ensures f.shippingPostalCode == GetComponent(place.components, "postal_code")
    ensures f.shippingCountry == NormaliseCountry(GetComponent(place.components, "country"))
  {
    var c := place.components;
    ShippingFields(recordId, Trim(place.formattedAddress + " " + Or(detail, "")), City(c),
                   NormaliseState(GetComponent(c, "administrative_area_level_1")),
                   GetComponent(c, "postal_code"), NormaliseCountry(GetComponent(c, "country")))
  }

  class ContractMap {
    var recordId: Option<string>
    var searchQuery: string
    var suggestions: seq<Prediction>
    var mapCenter: Coordinates
    var mapMarkers: seq<MapMarker>
    var showDetailInput: bool
    var detailAddress: Option<string>
    var selectedAddress: Option<Place>

    constructor (recordId: Option<string>)
      ensures this.recordId == recordId && searchQuery == "" && suggestions == []
      ensures mapCenter == SeoulCenter && mapMarkers == [] && !showDetailInput
      ensures detailAddress == Some("") && selectedAddress == None
    {
      this.recordId := recordId;
      searchQuery := "";
      suggestions := [];
      mapCenter := SeoulCenter;
      mapMarkers := [];
      showDetailInput := false;
      detailAddress := Some("");
      selectedAddress := None;
    }

    /** A new query. Below two characters no suggestion request is made;
        otherwise `fetched` is the request's answer (`None` when it failed, which
        leaves the suggestions as they were). */
    method HandleSearch(value: string, fetched: Option<seq<Prediction>>) returns (requested: bool)
      modifies this`searchQuery, this`suggestions
      ensures searchQuery == value
      ensures requested <==> |value| >= 2
      ensures requested && fetched.Some? ==> suggestions == fetched.value
      ensures !requested || fetched.None? ==> suggestions == old(suggestions)
    {
      searchQuery := value;
      if |searchQuery| < 2 {
        return false;
      }
      requested := true;
      if fetched.Some? {
        suggestions := fetched.value;
      }
    }

    /** A picked suggestion; `fetched` is the details lookup's answer (`None` when it
        failed, which changes nothing). */
    method HandleSelect(fetched: Option<Place>)
      modifies this`selectedAddress, this`mapCenter, this`mapMarkers, this`suggestions,
               this`searchQuery, this`showDetailInput
      ensures fetched.None? ==>
                selectedAddress == old(selectedAddress) && mapCenter == old(mapCenter)
                && mapMarkers == old(mapMarkers) && suggestions == old(suggestions)
                && searchQuery == old(searchQuery) && showDetailInput == old(showDetailInput)
      ensures fetched.Some? ==>
                var p := fetched.value;
                selectedAddress == fetched && mapCenter == Coordinates(p.lat, p.lng)
                && mapMarkers == [MapMarker(Coordinates(p.lat, p.lng), p.name, p.formattedAddress)]
                && suggestions == [] && searchQuery == p.formattedAddress && showDetailInput
    {
      if fetched.None? {
        return;
      }
      var p := fetched.value;
      selectedAddress := fetched;
      mapCenter := Coordinates(p.lat, p.lng);
      mapMarkers := [MapMarker(Coordinates(p.lat, p.lng), p.name, p.formattedAddress)];
      suggestions := [];
      searchQuery := p.formattedAddress;
      showDetailInput := true;
    }

    method HandleDetailChange(value: Option<string>)
      modifies this`detailAddress
      ensures detailAddress == value
    {
      detailAddress := value;
    }

    /** Saves the selected place with the detail text; `outcome` is how the record
        update ended. Without a selected place nothing happens. */
    method HandleSaveFullAddress(outcome: SaveOutcome) returns (request: Option<ShippingFields>, toast: Option<Toast>)
      modifies this`showDetailInput, this`detailAddress
      ensures request.Some? <==> selectedAddress.Some?
      ensures selectedAddress.None? ==> toast == None && unchanged(this)
      ensures selectedAddress.Some? ==>
                request.value == SaveFields(recordId, selectedAddress.value, old(detailAddress))
      ensures selectedAddress.Some? && outcome.Saved? ==>
                toast == Some(SavedToast) && !showDetailInput && detailAddress == Some("")
      ensures selectedAddress.Some? && outcome.SaveFailed? ==>
                toast == Some(Toast("주소 저장 실패", outcome.message, "error"))
                && showDetailInput == old(showDetailInput) && detailAddress == old(detailAddress)
    {
      if selectedAddress.None? {
        return None, None;
      }
      var fields := SaveFields(recordId, selectedAddress.value, detailAddress);
      request := Some(fields);
      toast := FinishSave(outcome);
    }

    /** After the record update: on success the detail input closes and clears;
        a failure raises its message. */
    method FinishSave(outcome: SaveOutcome) returns (toast: Option<Toast>)
      modifies this`showDetailInput, this`detailAddress
      ensures outcome.Saved? ==> toast == Some(SavedToast) && !showDetailInput && detailAddress == Some("")
      ensures outcome.SaveFailed? ==>
                toast == Some(Toast("주소 저장 실패", outcome.message, "error"))
                && showDetailInput == old(showDetailInput) && detailAddress == old(detailAddress)
    {
      match outcome {
        case Saved =>
          toast := Some(SavedToast);
          showDetailInput := false;
          detailAddress := Some("");
        case SaveFailed(message) =>
          toast := Some(Toast("주소 저장 실패", message, "error"));
      }
    }
  }
}
