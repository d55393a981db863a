/** The account's customer card: each field of the wired account, or a fixed
    default when the account or the field is missing. */
module AccountCustomerInfo {
  import opened Js
  import opened RecordLists

  /** The account fields the card reads. */
  datatype AccountInfo = AccountInfo(
    name: Option<string>,
    personEmail: Option<string>,
    phone: Option<string>,
    personMobilePhone: Option<string>,
    personBirthdate: Option<string>,
    gender: Option<string>,
    personMailingAddress: Option<string>,
    marketingConsent: Option<bool>)

  /** The card's state: the account (undefined before data and after an error). */
  datatype CardState = CardState(account: Option<AccountInfo>, hasError: bool)

  const DefaultName := "Tom Ko"
  const DefaultEmail := "tom.ko@gmail.com"
  const DefaultPhone := "+61 479 351 768"
  const DefaultBirthdate := "1985-03-15"
  const DefaultGender := "남성"
  const DefaultAddress := "Sydney, NSW, Australia"

  function WiredAccount(s: CardState, r: WireResult<AccountInfo>): (t: CardState)
    ensures r.WireData? ==> t.account == Some(r.data) && !t.hasError
    ensures r.WireError? ==> t.account.None? && t.hasError
    ensures r.WirePending? ==> t == s
  {
    match r
    case WireData(d) => CardState(Some(d), false)
    case WireError => CardState(None, true)
    case WirePending => s
  }

  /** `account?.field || fallback`. */
  function FieldOr(account: Option<AccountInfo>, field: AccountInfo -> Option<string>, fallback: string): (r: string)
    ensures account.None? ==> r == fallback
    ensures account.Some? ==> r == Or(field(account.value), fallback)
  {
    if account.None? then fallback else Or(field(account.value), fallback)
  }

  function CustomerName(s: CardState): string {
    FieldOr(s.account, (a: AccountInfo) => a.name, DefaultName)
  }

  function Email(s: CardState): string {
    FieldOr(s.account, (a: AccountInfo) => a.personEmail, DefaultEmail)
  }

  function Phone(s: CardState): string {
    FieldOr(s.account, (a: AccountInfo) => a.phone, DefaultPhone)
  }

  function MobilePhone(s: CardState): string {
    FieldOr(s.account, (a: AccountInfo) => a.personMobilePhone, DefaultPhone)
  }

  function Gender(s: CardState): string {
    FieldOr(s.account, (a: AccountInfo) => a.gender, DefaultGender)
  }

  function Address(s: CardState): string {
    FieldOr(s.account, (a: AccountInfo) => a.personMailingAddress, DefaultAddress)
  }

  /** The birth date in the locale's format, or the default date. */
  function Birthdate(s: CardState, env: Env): (r: string)
    ensures s.account.None? || !Truthy(s.account.value.personBirthdate) ==> r == DefaultBirthdate
    ensures s.account.Some? && Truthy(s.account.value.personBirthdate) ==>
              r == env.formatDate(s.account.value.personBirthdate.value)
  {
    if s.account.Some? && Truthy(s.account.value.personBirthdate) then
      env.formatDate(s.account.value.personBirthdate.value)
    else DefaultBirthdate
  }

  /** Both branches of the consent getter say '동의'. */
  function MarketingConsent(s: CardState): (r: string)
    ensures r == "동의"
  {
    if s.account.Some? && s.account.value.marketingConsent == Some(true) then "동의" else "동의"
  }

  function MarketingConsentClass(s: CardState): (r: string)
    ensures r == "consent-agreed"
  {
    "consent-agreed"
  }

  const OwnerSince := "2009"
  const OwnerId := "HDM20A09876"

  /** With no account every getter shows its default. */
  lemma NoAccountShowsDefaults(s: CardState, env: Env)
    requires s.account.None?
    ensures CustomerName(s) == DefaultName && Email(s) == DefaultEmail
    ensures Phone(s) == DefaultPhone && MobilePhone(s) == DefaultPhone
    ensures Gender(s) == DefaultGender && Address(s) == DefaultAddress
    ensures Birthdate(s, env) == DefaultBirthdate
  {
  }

  /** A wire error drops the account, so the card falls back to every default. */
  lemma ErrorShowsDefaults(s: CardState, env: Env)
    ensures CustomerName(WiredAccount(s, WireError)) == DefaultName
    ensures Email(WiredAccount(s, WireError)) == DefaultEmail
    ensures Phone(WiredAccount(s, WireError)) == DefaultPhone
    ensures MobilePhone(WiredAccount(s, WireError)) == DefaultPhone
  {
    NoAccountShowsDefaults(WiredAccount(s, WireError), env);
  }

  /** A wired account with a name shows that name. */
  lemma WiredNameShown(s: CardState, a: AccountInfo)
    requires Truthy(a.name)
    ensures CustomerName(WiredAccount(s, WireData(a))) == a.name.value
  {
  }
}
