/** The vehicle parts panel: stock gauges, classification labels and the
    search filter over the loaded parts. */
module VehicleParts {
  import opened Js
  import opened ReservationEvents

  /** A part as the parts query returns it; `inventoryRate` is `InvertoryRate`,
      the stock rate in percent. */
  datatype Part = Part(
    id: Option<string>,
    name: Option<string>,
    inventoryRate: Option<int>,
    partsClassification: Option<string>)

  /** A part with its display fields. */
  datatype PartView = PartView(
    part: Part,
    stockRateFormatted: int,
    gaugeStyle: string,
    classificationLabel: Option<string>)

  /** The `partselected` payload. */
  datatype PartSelected = PartSelected(partId: Option<string>, partName: Option<string>, partData: PartView)

  const Red := "#F44336"
  const Orange := "#FF9800"
  const Blue := "#2196F3"
  const Green := "#4CAF50"

  const LoadFailedMessage := "부품 정보를 불러오는데 실패했습니다."
  const RefreshFailedMessage := "부품 정보를 새로고침하는데 실패했습니다."

  const ClassificationLabels: map<string, string> := map[
    "EngineMotor" := "엔진/모터",
    "Gearbox" := "변속기",
    "Battery" := "배터리",
    "AirCon" := "에어컨",
    "Fuse" := "퓨즈/램프/배터리",
    "Wiper" := "와이퍼 블레이드"
  ]

  /** `rate || 0`. */
  function StockRate(rate: Option<int>): (r: int)
    ensures TruthyNum(rate) ==> r == rate.value
    ensures rate.None? ==> r == 0
  {
    if TruthyNum(rate) then rate.value else 0
  }

  /** The gauge width: the stock rate clamped to 0..100. */
  function GaugePercentage(rate: int): (p: nat)
    ensures 0 <= p <= 100
    ensures 0 <= rate <= 100 ==> p == rate
    ensures rate < 0 ==> p == 0
    ensures rate > 100 ==> p == 100
  {
    if rate < 0 then 0 else if rate > 100 then 100 else rate
  }

  /** The gauge colour of a clamped rate. */
  function GaugeColor(p: int): (c: string)
    ensures p < 20 ==> c == Red
    ensures 20 <= p < 50 ==> c == Orange
    ensures 50 <= p < 80 ==> c == Blue
    ensures 80 <= p ==> c == Green
  {
    if p < 20 then Red else if p < 50 then Orange else if p < 80 then Blue else Green
  }

  /** A lower rate never gets a colour that signals more stock. */
  function ColorRank(c: string): int {
    if c == Red then 0 else if c == Orange then 1 else if c == Blue then 2 else 3
  }

  lemma GaugeColorMonotone(a: int, b: int)
    requires a <= b
    ensures ColorRank(GaugeColor(a)) <= ColorRank(GaugeColor(b))
  {
  }

  /** The gauge's inline style. */
  function GaugeStyle(rate: int): (s: string)
    ensures s == "width: " + NatToString(GaugePercentage(rate)) + "%; background-color: "
                 + GaugeColor(GaugePercentage(rate)) + ";"
  {
    var p := GaugePercentage(rate);
    "width: " + NatToString(p) + "%; background-color: " + GaugeColor(p) + ";"
  }

  /** The width printed in the style reads back as the clamped rate. */
  lemma GaugeWidthReadsBack(rate: int)
    ensures exists w :: (forall i :: 0 <= i < |w| ==> '0' <= w[i] <= '9')
                        && GaugeStyle(rate) == "width: " + w + "%; background-color: " + GaugeColor(GaugePercentage(rate)) + ";"
                        && DigitsValue(w) == GaugePercentage(rate)
  {
    NatToStringRoundTrip(GaugePercentage(rate));
  }

  /** Two worked gauges: 95 prints as "95" in green, 15 as "15" in red. */
  lemma GaugeExamples()
    ensures NatToString(GaugePercentage(95)) == "95" && GaugeColor(GaugePercentage(95)) == Green
    ensures NatToString(GaugePercentage(15)) == "15" && GaugeColor(GaugePercentage(15)) == Red
  {
    assert DigitChar(9) == '9' && DigitChar(5) == '5' && DigitChar(1) == '1';
    assert NatToString(9) == "9";
    assert NatToString(1) == "1";
  }

  /** The label of a classification API value: its mapped label, else the value. */
  function ClassificationLabel(apiValue: Option<string>): (r: Option<string>)
    ensures apiValue.Some? && apiValue.value in ClassificationLabels ==> r == Some(ClassificationLabels[apiValue.value])
    ensures apiValue.Some? && apiValue.value !in ClassificationLabels ==> r == apiValue
    ensures apiValue.None? ==> r == None
  {
    if apiValue.Some? && apiValue.value in ClassificationLabels then Some(ClassificationLabels[apiValue.value])
    else apiValue
  }

  /** A part with its display fields: a missing rate counts as 0. */
  function PartViewOf(p: Part): (v: PartView)
    ensures v.part == p && v.stockRateFormatted == StockRate(p.inventoryRate)
    ensures v.gaugeStyle == GaugeStyle(StockRate(p.inventoryRate))
    ensures v.classificationLabel == ClassificationLabel(p.partsClassification)
  {
    var rate := StockRate(p.inventoryRate);
    PartView(p, rate, GaugeStyle(rate), ClassificationLabel(p.partsClassification))
  }

  /** The loaded parts: same count, same order. */
  function ProcessPartsData(raw: seq<Part>): (r: seq<PartView>)
    ensures |r| == |raw|
    ensures forall i :: 0 <= i < |r| ==> r[i] == PartViewOf(raw[i])
  {
    seq(|raw|, i requires 0 <= i < |raw| => PartViewOf(raw[i]))
  }

  /** A part matches a lower-cased, trimmed term when its lower-cased label
      contains it; a part without a label matches only the empty term. */
  predicate Matches(v: PartView, needle: string) {
    Contains(if Truthy(v.classificationLabel) then ToLower(v.classificationLabel.value) else "", needle)
  }

  /** The search term after `toLowerCase().trim()`. */
  function Needle(term: string): string {
    Trim(ToLower(term))
  }

  /** A blank term shows the first three parts; otherwise the parts whose label
      contains the term, case-insensitively, in their order. */
  function FilterParts(parts: seq<PartView>, term: Option<string>): (r: seq<PartView>)
    ensures !Truthy(term) || Trim(term.value) == "" ==>
              |r| == (if |parts| < 3 then |parts| else 3) && r == parts[..|r|]
    ensures Truthy(term) && Trim(term.value) != "" ==>
              IsSubsequence(r, parts)
              && (forall v :: v in r ==> v in parts && Matches(v, Needle(term.value)))
              && (forall i :: 0 <= i < |parts| && Matches(parts[i], Needle(term.value)) ==> parts[i] in r)
  {
    if !Truthy(term) || Trim(term.value) == "" then Take(parts, 3)
    else
      var needle := Needle(term.value);
      Filter((v: PartView) => Matches(v, needle), parts)
  }

  /** `formatPrice`: '0' for a missing or zero price; otherwise the locale
      formatter's text. */
  function FormatPrice(price: Option<int>, format: int -> string): (r: string)
    ensures !TruthyNum(price) ==> r == "0"
    ensures TruthyNum(price) ==> r == format(price.value)
  {
    if !TruthyNum(price) then "0" else format(price.value)
  }

  /** The first part whose id is `partId`, if any. */
  function FindPart(parts: seq<PartView>, partId: string): (r: Option<PartView>)
    ensures r.None? <==> forall i :: 0 <= i < |parts| ==> parts[i].part.id != Some(partId)
    ensures r.Some? ==> r.value in parts && r.value.part.id == Some(partId)
    ensures r.Some? ==> exists k :: 0 <= k < |parts| && parts[k] == r.value
                          && forall j :: 0 <= j < k ==> parts[j].part.id != Some(partId)
    decreases |parts|
  {
    if |parts| == 0 then None
    else if parts[0].part.id == Some(partId) then Some(parts[0])
    else
      assert forall i :: 1 <= i < |parts| ==> parts[i] == parts[1..][i - 1];
      var r := FindPart(parts[1..], partId);
      assert r.Some? ==> exists k :: 0 <= k < |parts| && parts[k] == r.value
                          && forall j :: 0 <= j < k ==> parts[j].part.id != Some(partId) by {
        if r.Some? {
          var k :| 0 <= k < |parts[1..]| && parts[1..][k] == r.value
                   && forall j :: 0 <= j < k ==> parts[1..][j].part.id != Some(partId);
          assert parts[k + 1] == r.value;
          forall j | 0 <= j < k + 1 ensures parts[j].part.id != Some(partId) {
            if j > 0 { assert parts[j] == parts[1..][j - 1]; }
          }
        }
      }
      r
  }

  class VehicleParts {
    var parts: seq<PartView>
    var filteredParts: seq<PartView>
    var searchTerm: Option<string>
    var isLoading: bool
    var error: Option<string>

    /** The shown parts are always the filter of the loaded parts by the term. */
    ghost predicate Valid()
      reads this
    {
      filteredParts == FilterParts(parts, searchTerm)
    }

    constructor ()
      ensures Valid()
      ensures parts == [] && filteredParts == [] && searchTerm == Some("") && !isLoading && error == None
    {
      parts := [];
      filteredParts := [];
      searchTerm := Some("");
      isLoading := false;
      error := None;
    }

    /** Loads the parts; `result` is the query's answer (`None` when it failed).
        A failure empties both lists and raises an error toast. */
    method LoadParts(result: Option<seq<Part>>) returns (toast: Option<Toast>)
      modifies this`parts, this`filteredParts, this`isLoading, this`error
      ensures !isLoading
      ensures result.Some? ==>
                Valid() && parts == ProcessPartsData(result.value) && error == None && toast == None
      ensures result.None? ==>
                parts == [] && filteredParts == [] && error == Some(LoadFailedMessage)
                && toast == Some(Toast("오류", LoadFailedMessage, "error"))
    {
      isLoading := true;
      error := None;
      if result.Some? {
        ShowParts(ProcessPartsData(result.value));
        error := None;
        isLoading := false;
        toast := None;
      } else {
        error := Some(LoadFailedMessage);
        parts := [];
        filteredParts := [];
        isLoading := false;
        toast := Some(Toast("오류", LoadFailedMessage, "error"));
      }
    }

    /** Refresh: a fresh load, then a second query. `loaded` is the load's answer and
        `refreshed` the second query's, taken to arrive in that order. The second
        answer replaces the parts and keeps the filter; its failure keeps what the
        load left and raises the refresh error toast. */
    method RefreshParts(loaded: Option<seq<Part>>, refreshed: Option<seq<Part>>)
      returns (loadToast: Option<Toast>, refreshToast: Option<Toast>)
      modifies this`parts, this`filteredParts, this`isLoading, this`error
      ensures !isLoading
      ensures loadToast == if loaded.Some? then None else Some(Toast("오류", LoadFailedMessage, "error"))
      ensures refreshed.Some? ==>
                Valid() && parts == ProcessPartsData(refreshed.value) && error == None && refreshToast == None
      ensures refreshed.None? ==>
                parts == (if loaded.Some? then ProcessPartsData(loaded.value) else [])
                && filteredParts == (if loaded.Some? then FilterParts(parts, searchTerm) else [])
                && error == Some(RefreshFailedMessage)
                && refreshToast == Some(Toast("새로고침 오류", RefreshFailedMessage, "error"))
    {
      loadToast := LoadParts(loaded);
      if refreshed.Some? {
        ShowParts(ProcessPartsData(refreshed.value));
        error := None;
        refreshToast := None;
      } else {
        error := Some(RefreshFailedMessage);
        refreshToast := Some(Toast("새로고침 오류", RefreshFailedMessage, "error"));
      }
      isLoading := false;
    }

    /** Stores loaded parts and shows their filter by the current term. */
    method ShowParts(loaded: seq<PartView>)
      modifies this`parts, this`filteredParts
      ensures parts == loaded && filteredParts == FilterParts(loaded, searchTerm)
      ensures Valid()
    {
      parts := loaded;
      filteredParts := FilterParts(loaded, searchTerm);
    }

    method HandleSearchChange(value: Option<string>)
      modifies this`searchTerm, this`filteredParts
      ensures Valid() && searchTerm == value && filteredParts == FilterParts(parts, value)
    {
      searchTerm := value;
      filteredParts := FilterParts(parts, searchTerm);
    }

    /** The `partselected` payload of the first loaded part with id `partId`, if any. */
    method HandlePartClick(partId: string) returns (event: Option<PartSelected>)
      ensures event.None? <==> forall i :: 0 <= i < |parts| ==> parts[i].part.id != Some(partId)
      ensures event.Some? ==>
                event.value.partId == Some(partId) && event.value.partData in parts
                && event.value.partName == event.value.partData.part.name
      ensures event.Some? ==>
                exists k :: 0 <= k < |parts| && parts[k] == event.value.partData
                            && forall j :: 0 <= j < k ==> parts[j].part.id != Some(partId)
    {
      var found := FindPart(parts, partId);
      if found.None? {
        return None;
      }
      var p := found.value;
      return Some(PartSelected(p.part.id, p.part.name, p));
    }
  }
}
