/** The account's warranty list: each warranty with display defaults, an
    expiry flag and a status class counted in days. */
module AccountWarrantyList {
  import opened Js
  import opened RecordLists

  /** A warranty record as the query returns it. */
  datatype WarrantyRecord = WarrantyRecord(
    id: Option<string>,
    name: Option<string>,
    registrationDate: Option<string>,
    expirationDate: Option<string>,
    warrantyPeriod: Option<int>,
    warrantyMileage: Option<int>)

  /** A warranty as displayed. */
  datatype FormattedWarranty = FormattedWarranty(
    id: Option<string>,
    name: string,
    registrationDate: string,
    expirationDate: string,
    warrantyPeriod: string,
    warrantyMileage: string,
    isExpired: bool,
    statusClass: string)

  /** Expired when the expiration instant lies before now; never without a date. */
  function IsExpired(expirationDate: Option<string>, env: Env): (r: bool)
    ensures !Truthy(expirationDate) ==> !r
    ensures Truthy(expirationDate) ==> (r <==> env.millisUntil(expirationDate.value) < 0)
  {
    Truthy(expirationDate) && env.millisUntil(expirationDate.value) < 0
  }

  /** The class for a whole-day count to expiry. */
  function StatusClassOfDays(days: int): (r: string)
    ensures days < 0 <==> r == "status-expired"
    ensures 0 <= days <= 30 <==> r == "status-expiring"
    ensures days > 30 <==> r == "status-active"
  {
    if days < 0 then "status-expired" else if days <= 30 then "status-expiring" else "status-active"
  }

  /** The status class: unknown without a date, else by days to expiry, rounded up. */
  function StatusClass(expirationDate: Option<string>, env: Env): (r: string)
    ensures !Truthy(expirationDate) ==> r == "status-unknown"
    ensures Truthy(expirationDate) ==> r == StatusClassOfDays(DaysUntil(expirationDate.value, env))
  {
    if !Truthy(expirationDate) then "status-unknown"
    else StatusClassOfDays(DaysUntil(expirationDate.value, env))
  }

  /** A warranty shown as expired is flagged expired. */
  lemma ExpiredClassMeansExpired(expirationDate: Option<string>, env: Env)
    ensures StatusClass(expirationDate, env) == "status-expired" ==> IsExpired(expirationDate, env)
  {
    if Truthy(expirationDate) {
      NegativeDaysMeansPast(env.millisUntil(expirationDate.value));
    }
  }

  /** The converse fails: during the first day after the expiration instant the
      warranty is flagged expired, yet its day count rounds up to 0 and it is
      shown as expiring. */
  lemma JustExpiredShowsExpiring(expirationDate: string, env: Env)
    requires expirationDate != ""
    requires -DayMillis < env.millisUntil(expirationDate) < 0
    ensures IsExpired(Some(expirationDate), env)
    ensures StatusClass(Some(expirationDate), env) == "status-expiring"
  {
    NegativeDaysMeansPast(env.millisUntil(expirationDate));
  }

  /** `N km` with the locale's digit grouping for a present, non-zero mileage. */
  function MileageText(mileage: Option<int>, env: Env): (r: string)
    ensures !TruthyNum(mileage) ==> r == MissingInfo
    ensures TruthyNum(mileage) ==> r == env.formatNumber(mileage.value) + "km"
  {
    if TruthyNum(mileage) then env.formatNumber(mileage.value) + "km" else MissingInfo
  }

  function FormatWarranty(w: WarrantyRecord, env: Env): (f: FormattedWarranty)
    ensures f.id == w.id && f.name == Or(w.name, "보증서명 없음")
    ensures f.registrationDate == FormatDate(w.registrationDate, env)
    ensures f.expirationDate == FormatDate(w.expirationDate, env)
    ensures f.warrantyPeriod == WithUnit(w.warrantyPeriod, "개월")
    ensures f.warrantyMileage == MileageText(w.warrantyMileage, env)
    ensures f.isExpired == IsExpired(w.expirationDate, env)
    ensures f.statusClass == StatusClass(w.expirationDate, env)
  {
    FormattedWarranty(
      w.id,
      Or(w.name, "보증서명 없음"),
      FormatDate(w.registrationDate, env),
      FormatDate(w.expirationDate, env),
      WithUnit(w.warrantyPeriod, "개월"),
      MileageText(w.warrantyMileage, env),
      IsExpired(w.expirationDate, env),
      StatusClass(w.expirationDate, env))
  }

  /** The displayed warranties: one per record, in order; none while undefined. */
  function FormattedWarranties(s: ListState<WarrantyRecord>, env: Env): (r: seq<FormattedWarranty>)
    ensures |r| == RecordCount(s)
    ensures s.records.Some? ==> forall i :: 0 <= i < |r| ==> r[i] == FormatWarranty(s.records.value[i], env)
  {
    if s.records.None? then []
    else
      var ws := s.records.value;
      seq(|ws|, i requires 0 <= i < |ws| => FormatWarranty(ws[i], env))
  }
}
