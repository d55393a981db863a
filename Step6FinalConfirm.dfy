/** Wizard step 6: show the collected reservation with readable labels,
    preview the technician, and submit the reservation. */
module Step6FinalConfirm {
  import opened Js
  import opened ReservationEvents

  /** The picklist label maps are plain objects: API name to label. */
  type LabelMap = map<string, string>

  /** What the technician preview is asked for. */
  datatype PreviewRequest = PreviewRequest(repairShopId: string, preferredDate: string, selectedDetails: string)

  /** What the reservation call is asked for. */
  datatype SubmitRequest = SubmitRequest(
    accountId: string,
    assetId: Option<string>,
    repairShopId: string,
    preferredDate: string,
    selectedDetails: string,
    serviceType: Option<string>,
    serviceTypeValue: Option<string>,
    description: Option<string>)

  /** How the reservation call ended: a result object, or a rejection. */
  datatype SubmitOutcome = Resolved(success: bool, message: Option<string>) | Rejected

  const PreviewFailure := Preview(false, Some("정비사 조회 중 오류가 발생했습니다."))
  const MissingInputToast := Toast("입력 누락", "예약 정보를 모두 확인해주세요.", "error")
  const SuccessToast := Toast("예약 완료", "정비 예약이 성공적으로 접수되었습니다.", "success")
  const DefaultFailureMessage := "예약 중 문제가 발생했습니다."

  /** `labelMap[key] || key`: the mapped label, or the key itself when it is unmapped
      or mapped to ''. */
  function LabelOf(labelMap: LabelMap, key: string): (r: string)
    ensures key in labelMap && labelMap[key] != "" ==> r == labelMap[key]
    ensures key !in labelMap || labelMap[key] == "" ==> r == key
  {
    if key in labelMap && labelMap[key] != "" then labelMap[key] else key
  }

  /** The label of each ';'-separated item, in order. */
  function DetailLabels(labelMap: LabelMap, details: string): (r: seq<string>)
    ensures |r| == |Split(details, ';')|
    ensures forall i :: 0 <= i < |r| ==> r[i] == LabelOf(labelMap, Split(details, ';')[i])
  {
    var items := Split(details, ';');
    seq(|items|, i requires 0 <= i < |items| => LabelOf(labelMap, items[i]))
  }

  /** There is one label per ';'-separated item: one more than there are ';'. */
  lemma {:induction false} DetailLabelsCount(labelMap: LabelMap, details: string)
    ensures |DetailLabels(labelMap, details)| == Count(details, ';') + 1
  {
    SplitLength(details, ';');
  }

  /** The detail labels joined by ", ", or '' when there are no details. */
  function ServiceDetailsLabel(details: Option<string>, labelMap: LabelMap): (r: string)
    ensures !Truthy(details) ==> r == ""
    ensures Truthy(details) ==> r == Join(DetailLabels(labelMap, details.value), ", ")
  {
    if !Truthy(details) then "" else Join(DetailLabels(labelMap, details.value), ", ")
  }

  /** The service type's label, the raw type when unmapped, '' when there is none. */
  function ServiceTypeLabel(serviceType: Option<string>, labelMap: LabelMap): (r: string)
    ensures !Truthy(serviceType) ==> r == ""
    ensures Truthy(serviceType) ==> r == LabelOf(labelMap, serviceType.value)
  {
    if !Truthy(serviceType) then Or(serviceType, "") else LabelOf(labelMap, serviceType.value)
  }

  /** Date and slot as shown; a missing one prints as "undefined". */
  function FullDateTime(date: Option<string>, time: Option<string>): (r: string)
    ensures date.Some? && time.Some? ==> r == date.value + " " + time.value
  {
    TemplateText(date) + " " + TemplateText(time)
  }

  /** The preferred date sent with the technician preview. */
  function PreviewDateString(date: string, time: string): string {
    date + " " + time + ":00"
  }

  /** The `i`-th element of an array, `undefined` past its end. */
  function Nth(parts: seq<string>, i: nat): (r: Option<string>)
    ensures i < |parts| ==> r == Some(parts[i])
    ensures i >= |parts| ==> r == None
  {
    if i < |parts| then Some(parts[i]) else None
  }

  /** The preferred date sent with the reservation: the date split on '-' into
      year, month and day and the time split on ':' into hour and minute, then
      put back together with ":00" seconds. */
  function SubmitDateString(date: string, time: string): (s: string)
    ensures |s| >= 7 && s[|s| - 3..] == ":00"
  {
    var d := Split(date, '-');
    var t := Split(time, ':');
    var dateAndMinute := TemplateText(Nth(d, 0)) + "-" + TemplateText(Nth(d, 1)) + "-" + TemplateText(Nth(d, 2))
      + " " + TemplateText(Nth(t, 0)) + ":" + TemplateText(Nth(t, 1));
    assert (dateAndMinute + ":00")[|dateAndMinute|..] == ":00";
    dateAndMinute + ":00"
  }

  /** For a YYYY-MM-DD date (two '-') and an HH:mm time (one ':') the reservation and
      the preview send the same preferred date. */
  lemma SubmitDateMatchesPreview(date: string, time: string)
    requires Count(date, '-') == 2 && Count(time, ':') == 1
    ensures SubmitDateString(date, time) == PreviewDateString(date, time)
  {
    ThreePiecesRebuild(date, '-');
    TwoPiecesRebuild(time, ':');
  }

  /** A string with two separators is its three pieces glued back with them. */
  lemma ThreePiecesRebuild(s: string, sep: char)
    requires Count(s, sep) == 2
    ensures |Split(s, sep)| == 3
    ensures s == Split(s, sep)[0] + [sep] + Split(s, sep)[1] + [sep] + Split(s, sep)[2]
  {
    var d := Split(s, sep);
    SplitLength(s, sep);
    JoinSplit(s, sep);
    assert d[1..][1..] == [d[2]];
    assert Join(d[1..], [sep]) == d[1] + [sep] + d[2];
  }

  /** A string with one separator is its two pieces glued back with it. */
  lemma TwoPiecesRebuild(s: string, sep: char)
    requires Count(s, sep) == 1
    ensures |Split(s, sep)| == 2
    ensures s == Split(s, sep)[0] + [sep] + Split(s, sep)[1]
  {
    var t := Split(s, sep);
    SplitLength(s, sep);
    JoinSplit(s, sep);
    assert t[1..] == [t[1]];
  }

  class Step6FinalConfirm {
    // set by the wizard controller
    var selectedServiceDetails: Option<string>
    var serviceType: Option<string>
    var serviceTypeValue: Option<string>
    var repairShopName: Option<string>
    var repairShopId: Option<string>
    var selectedDate: Option<string>
    var selectedSlotTime: Option<string>
    var accountId: Option<string>
    var assetId: Option<string>
    var description: Option<string>
    // local state
    var submitting: bool
    var picklistLabelMap: LabelMap
    var serviceTypeLabelMap: LabelMap
    var showTechnicianInfo: bool
    var technicianPreview: Option<Preview>

    constructor (details: Option<string>, serviceType: Option<string>, serviceTypeValue: Option<string>,
                 repairShopName: Option<string>, repairShopId: Option<string>, selectedDate: Option<string>,
                 selectedSlotTime: Option<string>, accountId: Option<string>, assetId: Option<string>,
                 description: Option<string>)
      ensures selectedServiceDetails == details && this.serviceType == serviceType
      ensures this.serviceTypeValue == serviceTypeValue && this.repairShopName == repairShopName
      ensures this.repairShopId == repairShopId && this.selectedDate == selectedDate
      ensures this.selectedSlotTime == selectedSlotTime && this.accountId == accountId
      ensures this.assetId == assetId && this.description == description
      ensures !submitting && picklistLabelMap == map[] && serviceTypeLabelMap == map[]
      ensures !showTechnicianInfo && technicianPreview == None
    {
      selectedServiceDetails := details;
      this.serviceType := serviceType;
      this.serviceTypeValue := serviceTypeValue;
      this.repairShopName := repairShopName;
      this.repairShopId := repairShopId;
      this.selectedDate := selectedDate;
      this.selectedSlotTime := selectedSlotTime;
      this.accountId := accountId;
      this.assetId := assetId;
      this.description := description;
      submitting := false;
      picklistLabelMap := map[];
      serviceTypeLabelMap := map[];
      showTechnicianInfo := false;
      technicianPreview := None;
    }

    method WiredPicklistMap(r: WireResult<LabelMap>)
      modifies this`picklistLabelMap
      ensures picklistLabelMap == if r.WireData? then r.data else old(picklistLabelMap)
    {
      if r.WireData? {
        picklistLabelMap := r.data;
      }
    }

    method WiredServiceTypeMap(r: WireResult<LabelMap>)
      modifies this`serviceTypeLabelMap
      ensures serviceTypeLabelMap == if r.WireData? then r.data else old(serviceTypeLabelMap)
    {
      if r.WireData? {
        serviceTypeLabelMap := r.data;
      }
    }

    /** All the inputs a reservation needs. */
    predicate CanSubmit()
      reads this
    {
      Truthy(accountId) && Truthy(repairShopId) && Truthy(selectedDate)
      && Truthy(selectedSlotTime) && Truthy(selectedServiceDetails)
    }

    /** Asks for a technician preview; `result` is the answer (`None` when the call
        failed). Without shop, date, slot or details nothing is asked and nothing
        changes. */
    method LoadTechnicianPreview(result: Option<Preview>) returns (request: Option<PreviewRequest>)
      modifies this`technicianPreview, this`showTechnicianInfo
      ensures request.Some? <==> Truthy(repairShopId) && Truthy(selectedDate)
                                 && Truthy(selectedSlotTime) && Truthy(selectedServiceDetails)
      ensures request.None? ==>
                technicianPreview == old(technicianPreview) && showTechnicianInfo == old(showTechnicianInfo)
      ensures request.Some? ==>
                request.value == PreviewRequest(repairShopId.value,
                                                PreviewDateString(selectedDate.value, selectedSlotTime.value),
                                                selectedServiceDetails.value)
      ensures request.Some? && result.Some? ==>
                technicianPreview == result && showTechnicianInfo == result.value.available
      ensures request.Some? && result.None? ==>
                technicianPreview == Some(PreviewFailure) && showTechnicianInfo == old(showTechnicianInfo)
    {
      if !Truthy(repairShopId) || !Truthy(selectedDate) || !Truthy(selectedSlotTime) || !Truthy(selectedServiceDetails) {
        return None;
      }
      request := Some(PreviewRequest(repairShopId.value,
                                     PreviewDateString(selectedDate.value, selectedSlotTime.value),
                                     selectedServiceDetails.value));
      if result.Some? {
        technicianPreview := result;
        showTechnicianInfo := result.value.available;
      } else {
        technicianPreview := Some(PreviewFailure);
      }
    }

    /** "Previous": the `previous` event for the wizard; nothing here changes. */
    method HandlePrevious() returns (eventName: string)
      ensures eventName == PreviousEventName
    {
      eventName := PreviousEventName;
    }

    /** Submits the reservation; `outcome` is how the call ended. Missing inputs: an
        error toast, no call, `submitting` untouched. Otherwise the call is made, the
        step-7 payload is sent only on a reported success, and `submitting` ends false. */
    method HandleSubmit(outcome: SubmitOutcome)
      returns (request: Option<SubmitRequest>, toast: Toast, next: Option<Step6Detail>)
      modifies this`submitting
      ensures request.Some? <==> CanSubmit()
      ensures !CanSubmit() ==> toast == MissingInputToast && next == None && submitting == old(submitting)
      ensures CanSubmit() ==> !submitting
      ensures CanSubmit() ==>
                request.value == SubmitRequest(accountId.value, assetId, repairShopId.value,
                                               SubmitDateString(selectedDate.value, selectedSlotTime.value),
                                               selectedServiceDetails.value, serviceType, serviceTypeValue,
                                               description)
      ensures next.Some? <==> CanSubmit() && outcome.Resolved? && outcome.success
      ensures next.Some? ==> next.value == Step6Detail(true, 7, technicianPreview) && toast == SuccessToast
      ensures CanSubmit() && outcome.Resolved? && !outcome.success ==>
                toast == Toast("예약 실패", Or(outcome.message, DefaultFailureMessage), "error")
      ensures CanSubmit() && outcome.Rejected? ==> toast == Toast("예약 실패", DefaultFailureMessage, "error")
    {
      if !CanSubmit() {
        return None, MissingInputToast, None;
      }
      submitting := true;
      request := Some(SubmitRequest(accountId.value, assetId, repairShopId.value,
                                    SubmitDateString(selectedDate.value, selectedSlotTime.value),
                                    selectedServiceDetails.value, serviceType, serviceTypeValue, description));
      match outcome {
        case Resolved(success, message) =>
          if success {
            toast, next := SuccessToast, Some(Step6Detail(true, 7, technicianPreview));
          } else {
            toast, next := Toast("예약 실패", Or(message, DefaultFailureMessage), "error"), None;
          }
        case Rejected =>
          toast, next := Toast("예약 실패", DefaultFailureMessage, "error"), None;
      }
      submitting := false;
    }
  }
}
