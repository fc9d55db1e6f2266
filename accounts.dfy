/** One linked Wise account (`WiseAccountManager`): its currencies, the ids it
    resolves against the remote service when it is created, the balance
    lookups it performs and the transfer it posts to its jar. */
module Accounts {
  import opened Common

  /** `CurrencyType`: the three currencies an account may be configured with. */
  datatype Currency = USD | EUR | UAH

  /** The enum member's value, the code the remote service uses. */
  function Code(c: Currency): string
  {
    match c
    case USD => "USD"
    case EUR => "EUR"
    case UAH => "UAH"
  }

  /** `CurrencyType(s)`: the member whose value is `s`; `None` where the enum
      constructor raises `ValueError`. */
  function ParseCurrency(s: string): (r: Option<Currency>)
    ensures r.Some? ==> Code(r.value) == s
    ensures r.None? ==> forall c: Currency :: Code(c) != s
  {
    if s == "USD" then Some(USD)
    else if s == "EUR" then Some(EUR)
    else if s == "UAH" then Some(UAH)
    else None
  }

  /** Parsing a code gives back the currency it came from. */
  lemma ParseCode(c: Currency)
    ensures ParseCurrency(Code(c)) == Some(c)
  {
  }

  /** One entry `{id, currency, amount: {value}}` of a balance list. */
  datatype Balance = Balance(id: int, currency: string, amount: int)

  /** What a `balance-movements` POST carries: the profile in its URL and the
      JSON payload built by `send_money_to_jar`. */
  datatype Transfer = Transfer(profileId: int, value: int, currency: string,
                               sourceBalanceId: int, targetBalanceId: int)

  /** The remote service, as answers to the requests the account makes. Each
      request is keyed by what the HTTP call depends on (the bearer token and
      the URL's profile id, or the payload); `None` stands for a call that
      raised: a timeout, a refused connection or a body that is not the
      expected JSON. `postTransfer` also covers the idempotency-key fetch
      that precedes the POST. */
  datatype Service = Service(
    profiles: string -> Option<seq<int>>,
    standardBalances: (string, int) -> Option<seq<Balance>>,
    savingsBalances: (string, int) -> Option<seq<Balance>>,
    postTransfer: (string, Transfer) -> Option<int>)

  /** An account as constructed: its configuration and the three ids cached
      at construction. */
  datatype Account = Account(name: string, accessToken: string,
                             balanceCurrency: Currency, jarCurrency: Currency,
                             profileId: int, balanceId: int, jarId: int)

  /** `InvalidCurrency` is the `ValueError` of `CurrencyType(...)`, raised
      before any remote call; every remote failure collapses into
      `InvalidAccessToken`. */
  datatype AccountError = InvalidCurrency | InvalidAccessToken

  function Currencies(balances: seq<Balance>): (cs: seq<string>)
    ensures |cs| == |balances|
    ensures forall i :: 0 <= i < |balances| ==> cs[i] == balances[i].currency
  {
    seq(|balances|, i requires 0 <= i < |balances| => balances[i].currency)
  }

  function Ids(balances: seq<Balance>): (ids: seq<int>)
    ensures |ids| == |balances|
    ensures forall i :: 0 <= i < |balances| ==> ids[i] == balances[i].id
  {
    seq(|balances|, i requires 0 <= i < |balances| => balances[i].id)
  }

  /** `get_balance_id_by_currency`: the id of the first balance in the
      currency; `None` where the source raises "Could not find balance". */
  function BalanceIdByCurrency(balances: seq<Balance>, currency: Currency): (r: Option<int>)
    ensures r.None? <==> forall i :: 0 <= i < |balances| ==> balances[i].currency != Code(currency)
    ensures r.Some? ==> exists i :: 0 <= i < |balances| && balances[i].currency == Code(currency)
                                    && balances[i].id == r.value
                                    && forall j :: 0 <= j < i ==> balances[j].currency != Code(currency)
  {
    match FirstIndexOf(Currencies(balances), Code(currency))
    case None => None
    case Some(i) => Some(balances[i].id)
  }

  /** `get_amount_of_money_by_balance_id` over a fetched list: the amount of
      the first balance with the id; `None` where the source raises. */
  function AmountByBalanceId(balances: seq<Balance>, id: int): (r: Option<int>)
    ensures r.None? <==> forall i :: 0 <= i < |balances| ==> balances[i].id != id
    ensures r.Some? ==> exists i :: 0 <= i < |balances| && balances[i].id == id
                                    && balances[i].amount == r.value
                                    && forall j :: 0 <= j < i ==> balances[j].id != id
  {
    match FirstIndexOf(Ids(balances), id)
    case None => None
    case Some(i) => Some(balances[i].amount)
  }

  /** The loop of `get_balance_id_by_currency`. */
  method FindBalanceIdByCurrency(balances: seq<Balance>, currency: Currency) returns (r: Option<int>)
    ensures r == BalanceIdByCurrency(balances, currency)
  {
    var code := Code(currency);
    var i := 0;
    while i < |balances|
      invariant 0 <= i <= |balances|
      invariant forall j :: 0 <= j < i ==> balances[j].currency != code
    {
      if balances[i].currency == code {
        return Some(balances[i].id);
      }
      i := i + 1;
    }
    return None;
  }

  /** The loop of `get_amount_of_money_by_balance_id`. */
  method FindAmountByBalanceId(balances: seq<Balance>, id: int) returns (r: Option<int>)
    ensures r == AmountByBalanceId(balances, id)
  {
    var i := 0;
    while i < |balances|
      invariant 0 <= i <= |balances|
      invariant forall j :: 0 <= j < i ==> balances[j].id != id
    {
      if balances[i].id == id {
        return Some(balances[i].amount);
      }
      i := i + 1;
    }
    return None;
  }

  /** `get_profile_id`: the id of the first profile; `None` where the fetch
      raises or the list is empty (`profiles_list[0]` raises). */
  function ProfileId(svc: Service, token: string): (r: Option<int>)
    ensures r.Some? <==> svc.profiles(token).Some? && |svc.profiles(token).value| > 0
    ensures r.Some? ==> r.value == svc.profiles(token).value[0]
  {
    match svc.profiles(token)
    case None => None
    case Some(ps) => if |ps| == 0 then None else Some(ps[0])
  }

  /** The fetch-then-search of `get_balance_id_by_currency` and
      `get_jar_id_by_currency`: the id of the first balance in `currency` of
      the fetched list; `None` where the fetch raised or nothing matches. */
  function LookupIn(fetched: Option<seq<Balance>>, currency: Currency): (r: Option<int>)
    ensures r.None? <==> fetched.None? || forall i :: 0 <= i < |fetched.value| ==> fetched.value[i].currency != Code(currency)
    ensures r.Some? ==> exists i :: 0 <= i < |fetched.value| && fetched.value[i].currency == Code(currency)
                                    && fetched.value[i].id == r.value
                                    && forall j :: 0 <= j < i ==> fetched.value[j].currency != Code(currency)
  {
    match fetched
    case None => None
    case Some(bs) => BalanceIdByCurrency(bs, currency)
  }

  /** The account's ids all resolve against the service: the first profile,
      its first standard balance in the balance currency and its first
      savings balance (jar) in the jar currency. */
  ghost predicate Resolved(svc: Service, a: Account)
  {
    && ProfileId(svc, a.accessToken) == Some(a.profileId)
    && LookupIn(svc.standardBalances(a.accessToken, a.profileId), a.balanceCurrency) == Some(a.balanceId)
    && LookupIn(svc.savingsBalances(a.accessToken, a.profileId), a.jarCurrency) == Some(a.jarId)
  }

  /** The constructor of `WiseAccountManager`: parse both currencies (a bad
      one raises `ValueError` before the `try`), then resolve the profile,
      balance and jar ids, turning any failure there into
      `InvalidAccessTokenError`. */
  function NewAccount(svc: Service, name: string, token: string,
                      balanceCurrency: string, jarCurrency: string): (r: Result<Account, AccountError>)
    ensures r == Err(InvalidCurrency) <==> ParseCurrency(balanceCurrency).None? || ParseCurrency(jarCurrency).None?
    ensures r.Ok? ==> && r.value.name == name && r.value.accessToken == token
                      && Code(r.value.balanceCurrency) == balanceCurrency
                      && Code(r.value.jarCurrency) == jarCurrency
                      && Resolved(svc, r.value)
    ensures r.Err? && ParseCurrency(balanceCurrency).Some? && ParseCurrency(jarCurrency).Some? ==>
              r.error == InvalidAccessToken &&
              forall a: Account :: (&& a.accessToken == token
                                    && a.balanceCurrency == ParseCurrency(balanceCurrency).value
                                    && a.jarCurrency == ParseCurrency(jarCurrency).value) ==> !Resolved(svc, a)
  {
    if ParseCurrency(balanceCurrency).None? || ParseCurrency(jarCurrency).None? then
      Err(InvalidCurrency)
    else
      var bc, jc := ParseCurrency(balanceCurrency).value, ParseCurrency(jarCurrency).value;
      match ProfileId(svc, token)
      case None => Err(InvalidAccessToken)
      case Some(profile) =>
        match LookupIn(svc.standardBalances(token, profile), bc)
        case None => Err(InvalidAccessToken)
        case Some(balance) =>
          match LookupIn(svc.savingsBalances(token, profile), jc)
          case None => Err(InvalidAccessToken)
          case Some(jar) => Ok(Account(name, token, bc, jc, profile, balance, jar))
  }

  /** The profile is resolved first: when the profile fetch raises or
      returns no profile, construction fails with `InvalidAccessToken`
      whatever the balances would say, and only a bad currency takes
      precedence over it. */
  lemma NoProfileRejects(svc: Service, name: string, token: string,
                         balanceCurrency: string, jarCurrency: string)
    requires svc.profiles(token).None? || svc.profiles(token) == Some([])
    ensures NewAccount(svc, name, token, balanceCurrency, jarCurrency)
            == if ParseCurrency(balanceCurrency).None? || ParseCurrency(jarCurrency).None?
               then Err(InvalidCurrency) else Err(InvalidAccessToken)
  {
    assert ProfileId(svc, token).None?;
  }

  /** The constructor step by step: parse both currencies, then fetch the
      profile, the standard balances and the jars, searching each list with
      the loops above; the first failure decides the error. */
  method Construct(svc: Service, name: string, token: string,
                   balanceCurrency: string, jarCurrency: string)
    returns (r: Result<Account, AccountError>)
    ensures r == NewAccount(svc, name, token, balanceCurrency, jarCurrency)
  {
    var bc, jc := ParseCurrency(balanceCurrency), ParseCurrency(jarCurrency);
    if bc.None? || jc.None? {
      return Err(InvalidCurrency);
    }
    var profile := ProfileId(svc, token);
    if profile.None? {
      return Err(InvalidAccessToken);
    }
    var balances := svc.standardBalances(token, profile.value);
    if balances.None? {
      return Err(InvalidAccessToken);
    }
    var balance := FindBalanceIdByCurrency(balances.value, bc.value);
    if balance.None? {
      return Err(InvalidAccessToken);
    }
    var jars := svc.savingsBalances(token, profile.value);
    if jars.None? {
      return Err(InvalidAccessToken);
    }
    var jar := FindBalanceIdByCurrency(jars.value, jc.value);
    if jar.None? {
      return Err(InvalidAccessToken);
    }
    return Ok(Account(name, token, bc.value, jc.value, profile.value, balance.value, jar.value));
  }

  /** `send_money_to_jar(amount, currency)`: the request it posts. */
  function Payload(a: Account, amount: int, currency: Currency): (t: Transfer)
    ensures t.profileId == a.profileId && t.value == amount && t.currency == Code(currency)
    ensures t.sourceBalanceId == a.balanceId && t.targetBalanceId == a.jarId
  {
    Transfer(a.profileId, amount, Code(currency), a.balanceId, a.jarId)
  }
}
