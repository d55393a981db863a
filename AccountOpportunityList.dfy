/** The account's opportunity list: each opportunity with display defaults,
    a stage class, a probability class and the high-value flag. */
module AccountOpportunityList {
  import opened Js
  import opened RecordLists

  /** The opportunity fields the list reads; `salesPerson` is the display value of
      the person in charge. */
  datatype OpportunityRecord = OpportunityRecord(
    id: string,
    name: Option<string>,
    stageName: Option<string>,
    amount: Option<int>,
    closeDate: Option<string>,
    probability: Option<int>,
    leadSource: Option<string>,
    kind: Option<string>,
    nextStep: Option<string>,
    salesPerson: Option<string>)

  /** An opportunity as displayed. */
  datatype FormattedOpportunity = FormattedOpportunity(
    id: string,
    name: string,
    stageName: string,
    amount: string,
    closeDate: string,
    probability: string,
    leadSource: string,
    kind: string,
    nextStep: string,
    salesPerson: string,
    stageClass: string,
    probabilityClass: string,
    isClosingSoon: bool,
    isHighValue: bool)

  const HighValueAmount: int := 50000000

  predicate StageHas(stage: string, english: string, korean: string) {
    Contains(stage, english) || Contains(stage, korean)
  }

  /** The stage class: the lower-cased stage is tested for won, lost, proposal and
      negotiation in that order, and anything else is active. */
  function StageClass(stageName: Option<string>): (r: string)
    ensures !Truthy(stageName) ==> r == "stage-unknown"
    ensures Truthy(stageName) ==>
              var s := ToLower(stageName.value);
              var won, lost := StageHas(s, "closed won", "성사"), StageHas(s, "closed lost", "실패");
              var proposal, negotiation := StageHas(s, "proposal", "제안"), StageHas(s, "negotiation", "협상");
              (won ==> r == "stage-won")
              && (!won && lost ==> r == "stage-lost")
              && (!won && !lost && proposal ==> r == "stage-proposal")
              && (!won && !lost && !proposal && negotiation ==> r == "stage-negotiation")
              && (!won && !lost && !proposal && !negotiation ==> r == "stage-active")
  {
    if !Truthy(stageName) then "stage-unknown"
    else
      var s := ToLower(stageName.value);
      if StageHas(s, "closed won", "성사") then "stage-won"
      else if StageHas(s, "closed lost", "실패") then "stage-lost"
      else if StageHas(s, "proposal", "제안") then "stage-proposal"
      else if StageHas(s, "negotiation", "협상") then "stage-negotiation"
      else "stage-active"
  }

  /** "Closed Won" in any case is a won stage. */
  lemma ClosedWonIsWon(prefix: string, suffix: string)
    ensures StageClass(Some(prefix + "Closed Won" + suffix)) == "stage-won"
  {
    var s := prefix + "Closed Won" + suffix;
    var lower := ToLower(s);
    var k := |prefix|;
    assert lower[k..][..10] == "closed won" by {
      assert forall j :: k <= j < k + 10 ==> s[j] == "Closed Won"[j - k];
      assert forall i :: 0 <= i < 10 ==> lower[k..][..10][i] == LowerChar("Closed Won"[i]);
    }
    ContainsPrefix(lower[k..], "closed won");
    ContainsFrom(lower, k, "closed won");
  }

  /** The probability class by threshold; a zero or missing probability is unknown. */
  function ProbabilityClass(probability: Option<int>): (r: string)
    ensures !TruthyNum(probability) ==> r == "probability-unknown"
    ensures TruthyNum(probability) ==>
              var p := probability.value;
              (p >= 80 ==> r == "probability-high")
              && (50 <= p < 80 ==> r == "probability-medium")
              && (20 <= p < 50 ==> r == "probability-low")
              && (p < 20 ==> r == "probability-very-low")
  {
    if !TruthyNum(probability) then "probability-unknown"
    else if probability.value >= 80 then "probability-high"
    else if probability.value >= 50 then "probability-medium"
    else if probability.value >= 20 then "probability-low"
    else "probability-very-low"
  }

  function ProbabilityRank(c: string): int {
    if c == "probability-very-low" then 0 else if c == "probability-low" then 1
    else if c == "probability-medium" then 2 else 3
  }

  /** A higher positive probability never gets a lower class. */
  lemma ProbabilityClassMonotone(a: int, b: int)
    requires 0 < a <= b
    ensures ProbabilityRank(ProbabilityClass(Some(a))) <= ProbabilityRank(ProbabilityClass(Some(b)))
  {
  }

  /** `N%` for a present, non-zero probability, else '확률 없음'. */
  function ProbabilityText(probability: Option<int>): (r: string)
    ensures !TruthyNum(probability) ==> r == "확률 없음"
    ensures TruthyNum(probability) ==> r == IntToString(probability.value) + "%"
  {
    if TruthyNum(probability) then IntToString(probability.value) + "%" else "확률 없음"
  }

  /** Shown with a probability class exactly when shown with a percentage. */
  lemma ProbabilityTextMatchesClass(probability: Option<int>)
    ensures ProbabilityText(probability) == "확률 없음" <==> ProbabilityClass(probability) == "probability-unknown"
  {
    if TruthyNum(probability) {
      var t := IntToString(probability.value);
      assert (t + "%")[|t|] == '%';
      assert "확률 없음"[|"확률 없음"| - 1] != '%';
      assert |t + "%"| == |t| + 1;
    }
  }

  /** At least fifty million, and present. */
  function IsHighValue(amount: Option<int>): (r: bool)
    ensures r <==> amount.Some? && amount.value >= HighValueAmount
  {
    TruthyNum(amount) && amount.value >= HighValueAmount
  }

  /** Closing within the next thirty days, counted in whole days rounded up. */
  predicate IsClosingSoon(closeDate: Option<string>, env: Env) {
    Truthy(closeDate) && 0 <= DaysUntil(closeDate.value, env) <= 30
  }

  function FormatOpportunity(o: OpportunityRecord, env: Env): (f: FormattedOpportunity)
    ensures f.id == o.id
    ensures f.name == Or(o.name, "기회명 없음") && f.stageName == Or(o.stageName, "단계 없음")
    ensures f.amount == FormatCurrency(o.amount, env) && f.closeDate == FormatDate(o.closeDate, env)
    ensures f.probability == ProbabilityText(o.probability)
    ensures f.leadSource == Or(o.leadSource, "리드소스 없음") && f.kind == Or(o.kind, "유형 없음")
    ensures f.nextStep == Or(o.nextStep, "다음단계 없음") && f.salesPerson == Or(o.salesPerson, "담당자 없음")
    ensures f.stageClass == StageClass(o.stageName) && f.probabilityClass == ProbabilityClass(o.probability)
    ensures f.isClosingSoon == IsClosingSoon(o.closeDate, env) && f.isHighValue == IsHighValue(o.amount)
  {
    FormattedOpportunity(
      o.id,
      Or(o.name, "기회명 없음"),
      Or(o.stageName, "단계 없음"),
      FormatCurrency(o.amount, env),
      FormatDate(o.closeDate, env),
      ProbabilityText(o.probability),
      Or(o.leadSource, "리드소스 없음"),
      Or(o.kind, "유형 없음"),
      Or(o.nextStep, "다음단계 없음"),
      Or(o.salesPerson, "담당자 없음"),
      StageClass(o.stageName),
      ProbabilityClass(o.probability),
      IsClosingSoon(o.closeDate, env),
      IsHighValue(o.amount))
  }

  /** The displayed opportunities: one per record, in order; none while undefined. */
  function FormattedOpportunities(s: ListState<OpportunityRecord>, env: Env): (r: seq<FormattedOpportunity>)
    ensures |r| == RecordCount(s)
    ensures s.records.Some? ==> forall i :: 0 <= i < |r| ==> r[i] == FormatOpportunity(s.records.value[i], env)
  {
    if s.records.None? then []
    else
      var os := s.records.value;
      seq(|os|, i requires 0 <= i < |os| => FormatOpportunity(os[i], env))
  }
}
