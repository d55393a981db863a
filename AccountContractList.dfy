/** The account's contract list: each contract record with display defaults,
    status and insurance classes. */
module AccountContractList {
  import opened Js
  import opened RecordLists

  /** The contract fields the list reads; every field may be missing. */
  datatype ContractRecord = ContractRecord(
    id: string,
    contractNumber: Option<string>,
    name: Option<string>,
    status: Option<string>,
    startDate: Option<string>,
    endDate: Option<string>,
    contractTerm: Option<int>,
    totalAmount: Option<int>,
    paymentMethod: Option<string>,
    vehicleConfig: Option<string>,
    insuranceConfirmed: Option<bool>)

  /** A contract as displayed. */
  datatype FormattedContract = FormattedContract(
    id: string,
    contractNumber: string,
    name: string,
    status: string,
    startDate: string,
    endDate: string,
    contractTerm: string,
    totalAmount: string,
    paymentMethod: string,
    vehicleConfig: string,
    insuranceConfirmed: string,
    statusClass: string,
    insuranceClass: string,
    isActive: bool)

  /** The status class, compared case-insensitively. */
  function StatusClass(status: Option<string>): (r: string)
    ensures r in {"status-unknown", "status-active", "status-draft", "status-expired", "status-default"}
    ensures !Truthy(status) ==> r == "status-unknown"
    ensures Truthy(status) ==>
              var s := ToLower(status.value);
              (s == "activated" || s == "활성화" ==> r == "status-active")
              && (s == "draft" || s == "초안" ==> r == "status-draft")
              && (s == "expired" || s == "만료" ==> r == "status-expired")
              && (s !in {"activated", "활성화", "draft", "초안", "expired", "만료"} ==> r == "status-default")
  {
    if !Truthy(status) then "status-unknown"
    else match ToLower(status.value)
      case "activated" => "status-active"
      case "활성화" => "status-active"
      case "draft" => "status-draft"
      case "초안" => "status-draft"
      case "expired" => "status-expired"
      case "만료" => "status-expired"
      case _ => "status-default"
  }

  /** Upper and lower case spell the same status. */
  lemma StatusClassIgnoresCase(status: string)
    ensures StatusClass(Some(status)) == StatusClass(Some(ToLower(status)))
  {
    ToLowerIdempotent(status);
  }

  /** A checked insurance flag is the only truthy one. */
  predicate InsuranceChecked(confirmed: Option<bool>) {
    confirmed == Some(true)
  }

  function InsuranceClass(confirmed: Option<bool>): (r: string)
    ensures InsuranceChecked(confirmed) <==> r == "insurance-confirmed"
    ensures !InsuranceChecked(confirmed) <==> r == "insurance-pending"
  {
    if InsuranceChecked(confirmed) then "insurance-confirmed" else "insurance-pending"
  }

  function InsuranceLabel(confirmed: Option<bool>): (r: string)
    ensures InsuranceChecked(confirmed) <==> r == "가입완료"
    ensures !InsuranceChecked(confirmed) <==> r == "미가입"
  {
    if InsuranceChecked(confirmed) then "가입완료" else "미가입"
  }

  /** The label and the class of the insurance flag always agree. */
  lemma InsuranceLabelMatchesClass(confirmed: Option<bool>)
    ensures InsuranceLabel(confirmed) == "가입완료" <==> InsuranceClass(confirmed) == "insurance-confirmed"
  {
  }

  /** A contract is active when both dates are present and today lies between them. */
  predicate IsContractActive(startDate: Option<string>, endDate: Option<string>, env: Env) {
    Truthy(startDate) && Truthy(endDate)
    && env.millisUntil(startDate.value) <= 0 && env.millisUntil(endDate.value) >= 0
  }

  function FormatContract(c: ContractRecord, env: Env): (f: FormattedContract)
    ensures f.id == c.id
    ensures f.contractNumber == Or(c.contractNumber, "계약번호 없음") && f.name == Or(c.name, "계약명 없음")
    ensures f.status == Or(c.status, "상태 없음")
    ensures f.startDate == FormatDate(c.startDate, env) && f.endDate == FormatDate(c.endDate, env)
    ensures f.contractTerm == WithUnit(c.contractTerm, "개월")
    ensures f.totalAmount == FormatCurrency(c.totalAmount, env)
    ensures f.paymentMethod == Or(c.paymentMethod, "결제방식 없음")
    ensures f.vehicleConfig == Or(c.vehicleConfig, "구성정보 없음")
    ensures f.insuranceConfirmed == InsuranceLabel(c.insuranceConfirmed)
    ensures f.statusClass == StatusClass(c.status) && f.insuranceClass == InsuranceClass(c.insuranceConfirmed)
    ensures f.isActive == IsContractActive(c.startDate, c.endDate, env)
  {
    FormattedContract(
      c.id,
      Or(c.contractNumber, "계약번호 없음"),
      Or(c.name, "계약명 없음"),
      Or(c.status, "상태 없음"),
      FormatDate(c.startDate, env),
      FormatDate(c.endDate, env),
      WithUnit(c.contractTerm, "개월"),
      FormatCurrency(c.totalAmount, env),
      Or(c.paymentMethod, "결제방식 없음"),
      Or(c.vehicleConfig, "구성정보 없음"),
      InsuranceLabel(c.insuranceConfirmed),
      StatusClass(c.status),
      InsuranceClass(c.insuranceConfirmed),
      IsContractActive(c.startDate, c.endDate, env))
  }

  /** The displayed contracts: one per record, in order; none while undefined. */
  function FormattedContracts(s: ListState<ContractRecord>, env: Env): (r: seq<FormattedContract>)
    ensures |r| == RecordCount(s)
    ensures s.records.Some? ==> forall i :: 0 <= i < |r| ==> r[i] == FormatContract(s.records.value[i], env)
  {
    if s.records.None? then []
    else
      var cs := s.records.value;
      seq(|cs|, i requires 0 <= i < |cs| => FormatContract(cs[i], env))
  }
}
