/** Today's visit reservations: the loaded reservation cases with customer,
    phone, technician, service type label and display status. */
module TodayVisitReservations {
  import opened Js
  import opened ReservationEvents

  /** A reservation case as the query returns it. */
  datatype Reservation = Reservation(
    id: Option<string>,
    preferredDate: Option<string>,
    contactName: Option<string>,
    accountName: Option<string>,
    contactPhone: Option<string>,
    contactMobile: Option<string>,
    technicianName: Option<string>,
    serviceReservationType: Option<string>,
    status: Option<string>)

  /** A reservation with its display fields. */
  datatype FormattedReservation = FormattedReservation(
    reservation: Reservation,
    formattedTime: string,
    customerName: string,
    phoneNumber: string,
    technicianName: string,
    serviceType: string,
    displayStatus: Option<string>,
    caseUrl: string,
    statusClass: string)

  /** The locale's time and date-time texts. */
  datatype TimeFormat = TimeFormat(time: string -> string, dateTime: string -> string)

  /** How the reservation query ended: data (possibly `undefined`), or an error. */
  datatype LoadResult = Loaded(data: Option<seq<Reservation>>) | Failed(error: string)

  const LoadErrorToast := Toast("오류", "예약 정보를 가져오는 중 오류가 발생했습니다.", "error")

  const ServiceTypeLabels: map<string, string> := map[
    "engine_problem" := "엔진 문제",
    "transmission" := "변속기",
    "fuse_lamp_battery" := "전장(전기/전장품)",
    "wiper_blades" := "소모품/경정비",
    "air_conditioning_refrigerant" := "에어컨/HVAC",
    "engine_oil_filter" := "엔진 오일/필터",
    "transmission_oil" := "변속기 오일",
    "warning_lights" := "경고등",
    "noise_vibration" := "소음/진동",
    "washer_fluid_coolant" := "워셔액/냉각수",
    "other_consumables" := "기타 소모품"
  ]

  /** '' for no type, the Korean label of a known key, else the key itself. */
  function ServiceTypeLabel(serviceType: Option<string>): (r: string)
    ensures !Truthy(serviceType) ==> r == ""
    ensures Truthy(serviceType) && serviceType.value in ServiceTypeLabels ==> r == ServiceTypeLabels[serviceType.value]
    ensures Truthy(serviceType) && serviceType.value !in ServiceTypeLabels ==> r == serviceType.value
  {
    if !Truthy(serviceType) then ""
    else if serviceType.value in ServiceTypeLabels && ServiceTypeLabels[serviceType.value] != "" then
      ServiceTypeLabels[serviceType.value]
    else serviceType.value
  }

  /** A known key is never shown raw: each label differs from every key. */
  lemma KnownTypesAreTranslated(serviceType: string)
    requires serviceType in ServiceTypeLabels
    ensures ServiceTypeLabel(Some(serviceType)) != serviceType
    ensures ServiceTypeLabel(Some(serviceType)) in ServiceTypeLabels.Values
  {
    assert serviceType != "";
  }

  /** 'Working' is shown as '배정'; every other status as it is. */
  function DisplayStatus(status: Option<string>): (r: Option<string>)
    ensures status == Some("Working") ==> r == Some("배정")
    ensures status != Some("Working") ==> r == status
  {
    if status == Some("Working") then Some("배정") else status
  }

  /** Only working reservations are listed, so every row has the same class. */
  function StatusClass(status: Option<string>): (r: string)
    ensures r == "status-working"
  {
    "status-working"
  }

  /** The case's record page. */
  function CaseUrl(id: Option<string>): (r: string)
    ensures id.Some? ==> r == "/lightning/r/Case/" + id.value + "/view"
  {
    "/lightning/r/Case/" + TemplateText(id) + "/view"
  }

  /** '' for an empty or missing value, else the locale's time. */
  function FormatTime(value: Option<string>, fmt: TimeFormat): (r: string)
    ensures !Truthy(value) ==> r == ""
    ensures Truthy(value) ==> r == fmt.time(value.value)
  {
    if !Truthy(value) then "" else fmt.time(value.value)
  }

  /** '' for an empty or missing value, else the locale's date and time. */
  function FormatDateTime(value: Option<string>, fmt: TimeFormat): (r: string)
    ensures !Truthy(value) ==> r == ""
    ensures Truthy(value) ==> r == fmt.dateTime(value.value)
  {
    if !Truthy(value) then "" else fmt.dateTime(value.value)
  }

  /** `a || b || ''` for strings. */
  function FirstTruthy(a: Option<string>, b: Option<string>): (r: string)
    ensures Truthy(a) ==> r == a.value
    ensures !Truthy(a) && Truthy(b) ==> r == b.value
    ensures !Truthy(a) && !Truthy(b) ==> r == ""
  {
    if Truthy(a) then a.value else Or(b, "")
  }

  function FormatReservation(r: Reservation, fmt: TimeFormat): (f: FormattedReservation)
    ensures f.reservation == r
    ensures f.formattedTime == FormatTime(r.preferredDate, fmt)
    ensures f.customerName == FirstTruthy(r.contactName, r.accountName)
    ensures f.phoneNumber == FirstTruthy(r.contactPhone, r.contactMobile)
    ensures f.technicianName == Or(r.technicianName, "")
    ensures f.serviceType == ServiceTypeLabel(r.serviceReservationType)
    ensures f.displayStatus == DisplayStatus(r.status)
    ensures f.caseUrl == CaseUrl(r.id) && f.statusClass == StatusClass(r.status)
  {
    FormattedReservation(
      r,
      FormatTime(r.preferredDate, fmt),
      FirstTruthy(r.contactName, r.accountName),
      FirstTruthy(r.contactPhone, r.contactMobile),
      Or(r.technicianName, ""),
      ServiceTypeLabel(r.serviceReservationType),
      DisplayStatus(r.status),
      CaseUrl(r.id),
      StatusClass(r.status))
  }

  /** The displayed reservations: one per loaded case, in order; none while undefined. */
  function FormattedReservations(reservations: Option<seq<Reservation>>, fmt: TimeFormat): (r: seq<FormattedReservation>)
    ensures reservations.None? ==> r == []
    ensures reservations.Some? ==> |r| == |reservations.value|
    ensures reservations.Some? ==> forall i :: 0 <= i < |r| ==> r[i] == FormatReservation(reservations.value[i], fmt)
  {
    if reservations.None? then []
    else
      var rs := reservations.value;
      seq(|rs|, i requires 0 <= i < |rs| => FormatReservation(rs[i], fmt))
  }

  /** The number of loaded cases, 0 while undefined. */
  function ReservationCount(reservations: Option<seq<Reservation>>): (n: nat)
    ensures reservations.None? ==> n == 0
    ensures reservations.Some? ==> n == |reservations.value|
  {
    if reservations.Some? then |reservations.value| else 0
  }

  /** The count is the number of rows displayed. */
  lemma CountMatchesRows(reservations: Option<seq<Reservation>>, fmt: TimeFormat)
    ensures ReservationCount(reservations) == |FormattedReservations(reservations, fmt)|
  {
  }

  class TodayVisitReservations {
    var reservations: Option<seq<Reservation>>
    var isLoading: bool
    var error: Option<string>

    constructor ()
      ensures reservations == Some([]) && isLoading && error == None
    {
      reservations := Some([]);
      isLoading := true;
      error := None;
    }

    /** Loads today's reservations; `result` is how the query ended. A failure
        empties the list and raises an error toast. */
    method LoadReservations(result: LoadResult) returns (toast: Option<Toast>)
      modifies this`reservations, this`isLoading, this`error
      ensures !isLoading
      ensures result.Loaded? ==> reservations == result.data && error == None && toast == None
      ensures result.Failed? ==>
                reservations == Some([]) && error == Some(result.error) && toast == Some(LoadErrorToast)
    {
      isLoading := true;
      match result {
        case Loaded(data) =>
          reservations, error, isLoading := data, None, false;
          toast := None;
        case Failed(e) =>
          error, reservations, isLoading := Some(e), Some([]), false;
          toast := Some(LoadErrorToast);
      }
    }

    function HasReservations(): (r: bool)
      reads this
      ensures r <==> ReservationCount(reservations) > 0
    {
      reservations.Some? && |reservations.value| > 0
    }

    /** The case page opened for a clicked row, when the row carries a case id. */
    method HandleRowClick(caseId: Option<string>) returns (url: Option<string>)
      ensures Truthy(caseId) <==> url.Some?
      ensures url.Some? ==> url.value == CaseUrl(caseId)
    {
      if Truthy(caseId) {
        return Some(CaseUrl(caseId));
      }
      return None;
    }
  }

  /** A failed load shows no rows. */
  method FailedLoadShowsNothing(fmt: TimeFormat, message: string)
    returns (count: nat, shown: bool, rows: seq<FormattedReservation>, toast: Option<Toast>)
    ensures count == 0 && !shown && rows == [] && toast == Some(LoadErrorToast)
  {
    var t := new TodayVisitReservations();
    toast := t.LoadReservations(Failed(message));
    count := ReservationCount(t.reservations);
    shown := t.HasReservations();
    rows := FormattedReservations(t.reservations, fmt);
  }
}
