/** What the account record lists share: a list that a wire adapter fills,
    its count, and the locale and clock services their getters call, passed in
    as functions. */
module RecordLists {
  import opened Js

  /** A wired list: `records` is undefined before data arrives and after an error. */
  datatype ListState<T> = ListState(records: Option<seq<T>>, hasError: bool)

  /** The locale formatters and the clock. `millisUntil(d)` is the date `d` minus
      now, in milliseconds. */
  datatype Env = Env(
    formatDate: string -> string,
    formatCurrency: int -> string,
    formatNumber: int -> string,
    millisUntil: string -> int)

  const MissingInfo := "정보 없음"
  const DayMillis: int := 1000 * 60 * 60 * 24

  function InitialList<T>(): (s: ListState<T>)
    ensures s.records.None? && !s.hasError
  {
    ListState(None, false)
  }

  /** The wire handler: data replaces the records and clears the error, an error
      drops the records, and an answer with neither changes nothing. */
  function Wired<T>(s: ListState<T>, r: WireResult<seq<T>>): (t: ListState<T>)
    ensures r.WireData? ==> t.records == Some(r.data) && !t.hasError
    ensures r.WireError? ==> t.records.None? && t.hasError
    ensures r.WirePending? ==> t == s
  {
    match r
    case WireData(d) => ListState(Some(d), false)
    case WireError => ListState(None, true)
    case WirePending => s
  }

  /** The number of records, 0 while there are none. */
  function RecordCount<T>(s: ListState<T>): (n: nat)
    ensures s.records.None? ==> n == 0
    ensures s.records.Some? ==> n == |s.records.value|
  {
    if s.records.Some? then |s.records.value| else 0
  }

  /** The list is shown exactly when its count is positive. */
  function HasRecords<T>(s: ListState<T>): (r: bool)
    ensures r <==> RecordCount(s) > 0
  {
    s.records.Some? && |s.records.value| > 0
  }

  /** After an error the list is empty and hidden. */
  lemma ErrorHidesList<T>(s: ListState<T>)
    ensures RecordCount(Wired(s, WireError)) == 0 && !HasRecords(Wired(s, WireError))
  {
  }

  /** `formatDate`: '정보 없음' for a missing date, else the locale's date text. */
  function FormatDate(value: Option<string>, env: Env): (r: string)
    ensures !Truthy(value) ==> r == MissingInfo
    ensures Truthy(value) ==> r == env.formatDate(value.value)
  {
    if !Truthy(value) then MissingInfo else env.formatDate(value.value)
  }

  /** `formatCurrency`: '정보 없음' for a missing or zero amount, else the locale's
      currency text. */
  function FormatCurrency(amount: Option<int>, env: Env): (r: string)
    ensures !TruthyNum(amount) ==> r == MissingInfo
    ensures TruthyNum(amount) ==> r == env.formatCurrency(amount.value)
  {
    if !TruthyNum(amount) then MissingInfo else env.formatCurrency(amount.value)
  }

  /** A present, non-zero count with a unit after it, else '정보 없음'. */
  function WithUnit(n: Option<int>, unit: string): (r: string)
    ensures !TruthyNum(n) ==> r == MissingInfo
    ensures TruthyNum(n) ==> r == IntToString(n.value) + unit
  {
    if TruthyNum(n) then IntToString(n.value) + unit else MissingInfo
  }

  /** `Math.ceil(a / b)` for a positive divisor. */
  function CeilDiv(a: int, b: int): (r: int)
    requires b > 0
    ensures (r - 1) * b < a <= r * b
  {
    var q := (-a) / b;
    assert q * b <= -a < q * b + b;
    -q
  }

  /** Whole days from now to a date, rounded up as `Math.ceil` does. */
  function DaysUntil(date: string, env: Env): int {
    CeilDiv(env.millisUntil(date), DayMillis)
  }

  /** A day count below zero means the date has passed. */
  lemma NegativeDaysMeansPast(ms: int)
    ensures CeilDiv(ms, DayMillis) < 0 <==> ms <= -DayMillis
  {
  }
}
