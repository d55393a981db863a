/** The Korean address picker: suggestions from a fixed table of addresses,
    selecting one onto the map, and the shipping fields saved from it. */
module KoreanAddressMap {
  import opened Js
  import opened ReservationEvents

  /** A point on the map. */
  datatype Coordinates = Coordinates(latitude: real, longitude: real)

  /** One entry of the address table. */
  datatype KoreanAddress = KoreanAddress(name: string, lat: real, lng: real)

  /** The single marker shown for a selected address. */
  datatype MapMarker = MapMarker(location: Coordinates, title: string, description: string, icon: string)

  /** The record fields the save sends. */
  datatype ShippingFields = ShippingFields(
    id: Option<string>,
    shippingStreet: string,
    shippingCity: string,
    shippingState: string,
    shippingPostalCode: string,
    shippingCountry: string)

  /** The pieces of a table name: province, district and the rest. */
  datatype AddressParts = AddressParts(state: string, city: string, street: string)

  const SeoulCenter := Coordinates(37.5665, 126.9780)
  const MaxSuggestions: nat := 10
  const Country := "Korea, Republic of"
  const SelectedTitle := "선택된 위치"
  const NoSelectionToast := Toast("오류", "주소를 먼저 선택해주세요.", "error")
  const SavedToast := Toast("성공", "주소가 성공적으로 저장되었습니다.", "success")
  const SaveFailedToast := Toast("오류", "주소 저장 중 오류가 발생했습니다.", "error")

  const KoreanAddresses: seq<KoreanAddress> := [
    KoreanAddress("서울특별시 강남구 테헤란로", 37.5012767, 127.0396597),
    KoreanAddress("서울특별시 종로구 종로", 37.5720161, 126.9794068),
    KoreanAddress("서울특별시 마포구 홍대입구", 37.5563017, 126.9236066),
    KoreanAddress("부산광역시 해운대구 해운대해변로", 35.1587177, 129.1603577),
    KoreanAddress("부산광역시 남구 용호로", 35.1367847, 129.1154798),
    KoreanAddress("대구광역시 중구 동성로", 35.8688416, 128.5934096),
    KoreanAddress("인천광역시 연수구 송도국제도시", 37.3894119, 126.6513169),
    KoreanAddress("광주광역시 동구 금남로", 35.1498211, 126.9196633),
    KoreanAddress("대전광역시 유성구 대학로", 36.3740697, 127.3602795),
    KoreanAddress("울산광역시 남구 삼산로", 35.5396538, 129.3115895),
    KoreanAddress("경기도 수원시 영통구 월드컵로", 37.2635727, 127.0286009),
    KoreanAddress("경기도 성남시 분당구 판교역로", 37.3947747, 127.1113461),
    KoreanAddress("경기도 고양시 일산동구 장항동", 37.6583574, 126.7702978),
    KoreanAddress("강원도 춘천시 춘천로", 37.8813153, 127.7298393),
    KoreanAddress("충청북도 청주시 흥덕구 가경동", 36.6282844, 127.4570503),
    KoreanAddress("충청남도 천안시 동남구 병천면", 36.7870488, 127.1753804),
    KoreanAddress("전라북도 전주시 완산구 한옥마을길", 35.8160535, 127.1531594),
    KoreanAddress("전라남도 여수시 돌산읍 돌산로", 34.7462057, 127.7348877),
    KoreanAddress("경상북도 경주시 불국로", 35.7901137, 129.3313950),
    KoreanAddress("경상남도 창원시 성산구 중앙대로", 35.2271311, 128.6818421),
    KoreanAddress("제주특별자치도 제주시 연동", 33.4890113, 126.4983023),
    KoreanAddress("제주특별자치도 서귀포시 중문관광로", 33.2565715, 126.4120275)
  ]

  /** Korean province names to their English names. */
  const StateMapping: map<string, string> := map[
    "서울특별시" := "Seoul",
    "부산광역시" := "Busan",
    "대구광역시" := "Daegu",
    "인천광역시" := "Incheon",
    "광주광역시" := "Gwangju",
    "대전광역시" := "Daejeon",
    "울산광역시" := "Ulsan",
    "경기도" := "Gyeonggi-do",
    "강원도" := "Gangwon-do",
    "충청북도" := "Chungcheongbuk-do",
    "충청남도" := "Chungcheongnam-do",
    "전라북도" := "Jeollabuk-do",
    "전라남도" := "Jeollanam-do",
    "경상북도" := "Gyeongsangbuk-do",
    "경상남도" := "Gyeongsangnam-do",
    "제주특별자치도" := "Jeju-do"
  ]

  /** The entries of `table` whose name contains the query, in table order. */
  function MatchingAddresses(table: seq<KoreanAddress>, query: string): (r: seq<KoreanAddress>)
    ensures IsSubsequence(r, table)
    ensures forall a :: a in r ==> a in table && Contains(a.name, query)
    ensures forall i :: 0 <= i < |table| && Contains(table[i].name, query) ==> table[i] in r
  {
    Filter((a: KoreanAddress) => Contains(a.name, query), table)
  }

  /** The suggestions for a query: none below two characters, otherwise the first
      ten matching addresses. */
  function Suggestions(table: seq<KoreanAddress>, query: string): (r: seq<KoreanAddress>)
    ensures |query| < 2 ==> r == []
    ensures |r| <= MaxSuggestions
    ensures forall a :: a in r ==> a in table && Contains(a.name, query)
    ensures |query| >= 2 ==>
              |r| <= |MatchingAddresses(table, query)| && r == MatchingAddresses(table, query)[..|r|]
    ensures |query| >= 2 && |r| < MaxSuggestions ==> r == MatchingAddresses(table, query)
  {
    if |query| < 2 then []
    else
      var m := MatchingAddresses(table, query);
      var r := Take(m, MaxSuggestions);
      assert forall a :: a in r ==> a in m;
      r
  }

  /** Typing "서울" suggests at least one address of the table. */
  lemma SeoulHasSuggestions()
    ensures Suggestions(KoreanAddresses, "서울") != []
  {
    var a := KoreanAddresses[0];
    assert a.name[..2] == "서울";
    ContainsPrefix(a.name, "서울");
    assert a in MatchingAddresses(KoreanAddresses, "서울");
  }

  /** `find` by exact name: the first table entry called `name`. */
  function FindAddress(table: seq<KoreanAddress>, name: string): (r: Option<KoreanAddress>)
    ensures r.None? <==> forall i :: 0 <= i < |table| ==> table[i].name != name
    ensures r.Some? ==> r.value in table && r.value.name == name
    ensures r.Some? ==> exists k :: 0 <= k < |table| && table[k] == r.value
                          && forall j :: 0 <= j < k ==> table[j].name != name
    decreases |table|
  {
    if |table| == 0 then None
    else if table[0].name == name then Some(table[0])
    else
      assert forall i :: 1 <= i < |table| ==> table[i] == table[1..][i - 1];
      var r := FindAddress(table[1..], name);
      assert r.Some? ==> exists k :: 0 <= k < |table| && table[k] == r.value
                          && forall j :: 0 <= j < k ==> table[j].name != name by {
        if r.Some? {
          var k :| 0 <= k < |table[1..]| && table[1..][k] == r.value
                   && forall j :: 0 <= j < k ==> table[1..][j].name != name;
          assert table[k + 1] == r.value;
          forall j | 0 <= j < k + 1 ensures table[j].name != name {
            if j > 0 { assert table[j] == table[1..][j - 1]; }
          }
        }
      }
      r
  }

  /** The name split on spaces: with three or more pieces, province, district and
      the remaining pieces joined by spaces; otherwise all three empty. */
  function Tokenise(name: string): (r: AddressParts)
    ensures |Split(name, ' ')| >= 3 ==>
              r.state == Split(name, ' ')[0] && r.city == Split(name, ' ')[1]
              && r.street == Join(Split(name, ' ')[2..], " ")
    ensures |Split(name, ' ')| < 3 ==> r == AddressParts("", "", "")
  {
    var parts := Split(name, ' ');
    if |parts| >= 3 then AddressParts(parts[0], parts[1], Join(parts[2..], " "))
    else AddressParts("", "", "")
  }

  /** With three or more pieces, province, district and rest put back together with
      spaces give the name again, and neither of the first two holds a space. */
  lemma {:induction false} TokensRebuildName(name: string)
    requires |Split(name, ' ')| >= 3
    ensures Tokenise(name).state + " " + Tokenise(name).city + " " + Tokenise(name).street == name
    ensures ' ' !in Tokenise(name).state && ' ' !in Tokenise(name).city
  {
    var p := Split(name, ' ');
    JoinSplit(name, ' ');
    SplitNoSeparator(name, ' ');
    assert p[1..][1..] == p[2..];
    assert Join(p, " ") == p[0] + " " + (p[1] + " " + Join(p[2..], " "));
  }

  /** No piece of a split holds the separator. */
  lemma {:induction false} SplitNoSeparator(s: string, sep: char)
    ensures forall i :: 0 <= i < |Split(s, sep)| ==> sep !in Split(s, sep)[i]
    decreases |s|
  {
    if |s| > 0 {
      SplitNoSeparator(s[1..], sep);
      var rest := Split(s[1..], sep);
      if s[0] != sep {
        assert Split(s, sep)[0] == [s[0]] + rest[0];
        assert forall i :: 1 <= i < |Split(s, sep)| ==> Split(s, sep)[i] == rest[i];
      } else {
        assert forall i :: 1 <= i < |Split(s, sep)| ==> Split(s, sep)[i] == rest[i - 1];
      }
    }
  }

  /** `stateMapping[state] || state`: the English name of a known province, else the
      raw piece. */
  function EnglishState(state: string): (r: string)
    ensures state in StateMapping ==> r == StateMapping[state]
    ensures state !in StateMapping ==> r == state
  {
    if state in StateMapping && StateMapping[state] != "" then StateMapping[state] else state
  }

  /** The fields saved for a selected address name and a detail text. */
  function SaveFields(recordId: Option<string>, name: string, detail: Option<string>): (f: ShippingFields)
    ensures f.id == recordId
    ensures f.shippingStreet == Trim(name + " " + Or(detail, ""))
    ensures f.shippingCity == Tokenise(name).city
    ensures f.shippingState == EnglishState(Tokenise(name).state)
    ensures f.shippingPostalCode == "" && f.shippingCountry == Country
  {
    var parts := Tokenise(name);
    ShippingFields(recordId, Trim(name + " " + Or(detail, "")), parts.city,
                   EnglishState(parts.state), "", Country)
  }

  /** A piece free of the separator, then the separator: the piece comes off whole. */
  lemma {:induction false} SplitLeadingPiece(piece: string, rest: string, sep: char)
    requires sep !in piece
    ensures Split(piece + [sep] + rest, sep) == [piece] + Split(rest, sep)
  {
    var t := Split(rest, sep);
    assert ([sep] + rest)[1..] == rest;
    assert Split([sep] + rest, sep) == [""] + t;
    SplitGluedPrefix(piece, [sep] + rest, sep);
    assert piece + ([sep] + rest) == piece + [sep] + rest;
    assert piece + "" == piece && ([""] + t)[1..] == t;
  }

  /** Province, district and a rest with no spaces in the first two come back out
      of the tokeniser as they went in. */
  lemma {:induction false} TokeniseThreePieces(state: string, city: string, rest: string)
    requires ' ' !in state && ' ' !in city
    ensures Tokenise(state + " " + city + " " + rest) == AddressParts(state, city, rest)
  {
    var t := Split(rest, ' ');
    JoinSplit(rest, ' ');
    SplitLeadingPiece(city, rest, ' ');
    SplitLeadingPiece(state, city + " " + rest, ' ');
    assert state + " " + (city + " " + rest) == state + " " + city + " " + rest;
    assert ([state] + ([city] + t))[2..] == t;
  }

  class KoreanAddressMap {
    var recordId: Option<string>
    var koreanAddresses: seq<KoreanAddress>
    var searchQuery: string
    var mapMarkers: seq<MapMarker>
    var mapCenter: Coordinates
    var showDetailInput: bool
    var detailAddress: Option<string>
    var selectedAddress: Option<KoreanAddress>
    var addressSuggestions: seq<KoreanAddress>

    constructor (recordId: Option<string>)
      ensures this.recordId == recordId && koreanAddresses == KoreanAddresses
      ensures searchQuery == "" && mapMarkers == []
      ensures mapCenter == SeoulCenter && !showDetailInput && detailAddress == Some("")
      ensures selectedAddress == None && addressSuggestions == []
    {
      this.recordId := recordId;
      koreanAddresses := KoreanAddresses;
      searchQuery := "";
      mapMarkers := [];
      mapCenter := SeoulCenter;
      showDetailInput := false;
      detailAddress := Some("");
      selectedAddress := None;
      addressSuggestions := [];
    }

    method HandleSearchInput(value: string)
      modifies this`searchQuery, this`addressSuggestions
      ensures searchQuery == value && addressSuggestions == Suggestions(koreanAddresses, value)
    {
      searchQuery := value;
      if |searchQuery| < 2 {
        addressSuggestions := [];
        return;
      }
      addressSuggestions := Take(MatchingAddresses(koreanAddresses, searchQuery), MaxSuggestions);
    }

    /** Selects the table entry called `name`: it becomes the query and the one
        marker, and the detail input opens. An unknown name changes nothing. */
    method HandleSelectAddress(name: Option<string>)
      modifies this`searchQuery, this`selectedAddress, this`addressSuggestions, this`mapCenter,
               this`mapMarkers, this`showDetailInput
      ensures name.None? || FindAddress(koreanAddresses, name.value).None? ==>
                searchQuery == old(searchQuery) && selectedAddress == old(selectedAddress)
                && addressSuggestions == old(addressSuggestions) && mapCenter == old(mapCenter)
                && mapMarkers == old(mapMarkers) && showDetailInput == old(showDetailInput)
      ensures name.Some? && FindAddress(koreanAddresses, name.value).Some? ==>
                var a := FindAddress(koreanAddresses, name.value).value;
                searchQuery == a.name && selectedAddress == Some(a) && addressSuggestions == []
                && mapCenter == Coordinates(a.lat, a.lng)
                && mapMarkers == [MapMarker(Coordinates(a.lat, a.lng), SelectedTitle, a.name, "standard:location")]
                && showDetailInput
    {
      if name.None? {
        return;
      }
      var found := FindAddress(koreanAddresses, name.value);
      if found.Some? {
        var a := found.value;
        searchQuery := a.name;
        selectedAddress := found;
        addressSuggestions := [];
        mapCenter := Coordinates(a.lat, a.lng);
        mapMarkers := [MapMarker(Coordinates(a.lat, a.lng), SelectedTitle, a.name, "standard:location")];
        showDetailInput := true;
      }
    }

    method HandleDetailChange(value: Option<string>)
      modifies this`detailAddress
      ensures detailAddress == value
    {
      detailAddress := value;
    }

    /** Saves the selected address; `saved` is whether the record update went
        through. Without a selection: an error toast and no update. */
    method HandleSaveAddress(saved: bool) returns (request: Option<ShippingFields>, toast: Toast)
      modifies this`showDetailInput, this`detailAddress
      ensures request.Some? <==> selectedAddress.Some?
      ensures selectedAddress.None? ==>
                toast == NoSelectionToast && unchanged(this)
      ensures selectedAddress.Some? ==>
                request.value == SaveFields(recordId, selectedAddress.value.name, old(detailAddress))
      ensures selectedAddress.Some? && saved ==>
                toast == SavedToast && !showDetailInput && detailAddress == Some("")
      ensures selectedAddress.Some? && !saved ==>
                toast == SaveFailedToast && showDetailInput == old(showDetailInput)
                && detailAddress == old(detailAddress)
    {
      if selectedAddress.None? {
        return None, NoSelectionToast;
      }
      var fields := SaveFields(recordId, selectedAddress.value.name, detailAddress);
      request := Some(fields);
      toast := FinishSave(saved);
    }

    /** After the record update: on success the detail input closes and clears. */
    method FinishSave(saved: bool) returns (toast: Toast)
      modifies this`showDetailInput, this`detailAddress
      ensures saved ==> toast == SavedToast && !showDetailInput && detailAddress == Some("")
      ensures !saved ==>
                toast == SaveFailedToast && showDetailInput == old(showDetailInput)
                && detailAddress == old(detailAddress)
    {
      if saved {
        toast := SavedToast;
        showDetailInput := false;
        detailAddress := Some("");
      } else {
        toast := SaveFailedToast;
      }
    }

    method HandleCancel()
      modifies this`showDetailInput, this`detailAddress, this`selectedAddress
      ensures !showDetailInput && detailAddress == Some("") && selectedAddress == None
    {
      showDetailInput := false;
      detailAddress := Some("");
      selectedAddress := None;
    }
  }
}
