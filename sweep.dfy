/** One sweep cycle: `act_money_transfer` for one account and `run` over the
    enabled list. The two worker pools of `run` are modelled as the
    order-preserving maps they are collected into. */
module Sweep {
  import opened Common
  import opened Accounts

  /** `default_success_code`: reported for a transfer that succeeded and for
      every sweep that was skipped or raised. */
  const SuccessCode: int := 201

  /** The tuple `(name, access_token, status_code)` of one account's sweep. */
  datatype SweepResult = SweepResult(name: string, accessToken: string, code: int)

  /** `get_amount_of_money_by_balance_id(_balance_id)`: the live amount of the
      account's cached balance; `None` where fetching the list raises or no
      entry has the id. */
  function FetchAmount(svc: Service, a: Account): (r: Option<int>)
    ensures var fetched := svc.standardBalances(a.accessToken, a.profileId);
            r.None? <==> fetched.None? || forall i :: 0 <= i < |fetched.value| ==> fetched.value[i].id != a.balanceId
    ensures var fetched := svc.standardBalances(a.accessToken, a.profileId);
            r.Some? ==> exists i :: 0 <= i < |fetched.value| && fetched.value[i].id == a.balanceId
                                    && fetched.value[i].amount == r.value
                                    && forall j :: 0 <= j < i ==> fetched.value[j].id != a.balanceId
  {
    match svc.standardBalances(a.accessToken, a.profileId)
    case None => None
    case Some(bs) => AmountByBalanceId(bs, a.balanceId)
  }

  /** `get_amount_of_money_by_balance_id(_balance_id)` step by step: fetch
      the standard balances, then run the search loop over them. */
  method GetAmount(svc: Service, a: Account) returns (r: Option<int>)
    ensures r == FetchAmount(svc, a)
  {
    var fetched := svc.standardBalances(a.accessToken, a.profileId);
    if fetched.None? {
      return None;
    }
    r := FindAmountByBalanceId(fetched.value, a.balanceId);
  }

  /** The transfer `act_money_transfer` posts for the account, if any: the
      whole fetched amount, in the balance currency, from the cached balance
      to the cached jar, and only when that amount is positive. */
  function SweepTransfer(svc: Service, a: Account): (t: Option<Transfer>)
    ensures t.Some? <==> FetchAmount(svc, a).Some? && FetchAmount(svc, a).value > 0
    ensures t.Some? ==> && t.value.value == FetchAmount(svc, a).value
                        && t.value.currency == Code(a.balanceCurrency)
                        && t.value.sourceBalanceId == a.balanceId
                        && t.value.targetBalanceId == a.jarId
                        && t.value.profileId == a.profileId
  {
    match FetchAmount(svc, a)
    case None => None
    case Some(amount) => if amount > 0 then Some(Payload(a, amount, a.balanceCurrency)) else None
  }

  /** `act_money_transfer`: the account's own name and token, with the
      status of the one transfer it posts, or `SuccessCode` when there is
      nothing to transfer or any step raises. */
  function ActMoneyTransfer(svc: Service, a: Account): (r: SweepResult)
    ensures r.name == a.name && r.accessToken == a.accessToken
    ensures SweepTransfer(svc, a).None? ==> r.code == SuccessCode
    ensures SweepTransfer(svc, a).Some? && svc.postTransfer(a.accessToken, SweepTransfer(svc, a).value).None?
            ==> r.code == SuccessCode
    ensures SweepTransfer(svc, a).Some? && svc.postTransfer(a.accessToken, SweepTransfer(svc, a).value).Some?
            ==> r.code == svc.postTransfer(a.accessToken, SweepTransfer(svc, a).value).value
  {
    var code :=
      match SweepTransfer(svc, a)
      case None => SuccessCode
      case Some(t) =>
        match svc.postTransfer(a.accessToken, t)
        case None => SuccessCode
        case Some(status) => status;
    SweepResult(a.name, a.accessToken, code)
  }

  /** A failure code is only ever the service's answer to a transfer of the
      account's whole positive balance into its jar. */
  lemma FailureCodeComesFromTransfer(svc: Service, a: Account)
    requires ActMoneyTransfer(svc, a).code != SuccessCode
    ensures FetchAmount(svc, a).Some? && FetchAmount(svc, a).value > 0
    ensures svc.postTransfer(a.accessToken, Payload(a, FetchAmount(svc, a).value, a.balanceCurrency))
            == Some(ActMoneyTransfer(svc, a).code)
  {
  }

  /** `executor.map(act_money_transfer, accounts)` collected in submission
      order: one result per account, the i-th about the i-th account. */
  function SweepAll(svc: Service, accounts: seq<Account>): (rs: seq<SweepResult>)
    ensures |rs| == |accounts|
    ensures forall i :: 0 <= i < |accounts| ==> rs[i] == ActMoneyTransfer(svc, accounts[i])
  {
    if accounts == [] then []
    else [ActMoneyTransfer(svc, accounts[0])] + SweepAll(svc, accounts[1..])
  }

  /** `run`: the first `int(n/2)` enabled accounts go to one pool, the rest to
      the other, and the two result lists are concatenated in that order. */
  function Run(svc: Service, enabled: seq<Account>): (rs: seq<SweepResult>)
    ensures |rs| == |enabled|
    ensures forall i :: 0 <= i < |enabled| ==> rs[i] == ActMoneyTransfer(svc, enabled[i])
  {
    var half := |enabled| / 2;
    SweepAll(svc, enabled[..half]) + SweepAll(svc, enabled[half..])
  }

  /** The split is invisible in the result: the cycle is one map over the
      whole enabled list, first-half results first. */
  lemma RunIsOneMap(svc: Service, enabled: seq<Account>)
    ensures Run(svc, enabled) == SweepAll(svc, enabled)
    ensures Run(svc, enabled)[..|enabled| / 2] == SweepAll(svc, enabled[..|enabled| / 2])
  {
  }

  /** The results of a cycle carry the enabled accounts' tokens, in order:
      every account exactly once, none twice, none left out. */
  lemma RunCoversEnabled(svc: Service, enabled: seq<Account>)
    ensures |Run(svc, enabled)| == |enabled|
    ensures forall i :: 0 <= i < |enabled| ==>
              Run(svc, enabled)[i].accessToken == enabled[i].accessToken
              && Run(svc, enabled)[i].name == enabled[i].name
  {
  }

  /** The transfers a cycle posts, in order: at most one per account. */
  function CycleTransfers(svc: Service, accounts: seq<Account>): seq<Transfer>
  {
    if accounts == [] then []
    else
      (match SweepTransfer(svc, accounts[0]) case None => [] case Some(t) => [t])
      + CycleTransfers(svc, accounts[1..])
  }

  /** The accounts whose fetched balance is positive. */
  function Funded(svc: Service, accounts: seq<Account>): seq<Account>
  {
    if accounts == [] then []
    else
      (if SweepTransfer(svc, accounts[0]).Some? then [accounts[0]] else [])
      + Funded(svc, accounts[1..])
  }

  /** A cycle posts exactly one transfer per account with a positive balance,
      in list order, each of that account's whole balance into its own jar. */
  lemma {:induction false} OneTransferPerFundedAccount(svc: Service, accounts: seq<Account>)
    ensures |CycleTransfers(svc, accounts)| == |Funded(svc, accounts)| <= |accounts|
    ensures forall k :: 0 <= k < |Funded(svc, accounts)| ==>
              && FetchAmount(svc, Funded(svc, accounts)[k]).Some?
              && CycleTransfers(svc, accounts)[k]
                 == Payload(Funded(svc, accounts)[k], FetchAmount(svc, Funded(svc, accounts)[k]).value,
                            Funded(svc, accounts)[k].balanceCurrency)
  {
    if accounts != [] {
      OneTransferPerFundedAccount(svc, accounts[1..]);
    }
  }

  /** The four-account cycle A, B, C, D with balances 0, 100, 0 and 50: A and
      C are reported as successes without a transfer, B and D report the
      service's answer to a transfer of 100 and of 50, and A, B (the first
      half) come before C, D. */
  lemma FourAccountCycle(svc: Service, a: Account, b: Account, c: Account, d: Account)
    requires FetchAmount(svc, a) == Some(0) && FetchAmount(svc, b) == Some(100)
    requires FetchAmount(svc, c) == Some(0) && FetchAmount(svc, d) == Some(50)
    requires svc.postTransfer(b.accessToken, Payload(b, 100, b.balanceCurrency)).Some?
    requires svc.postTransfer(d.accessToken, Payload(d, 50, d.balanceCurrency)).Some?
    ensures Run(svc, [a, b, c, d]) ==
      [ SweepResult(a.name, a.accessToken, SuccessCode),
        SweepResult(b.name, b.accessToken, svc.postTransfer(b.accessToken, Payload(b, 100, b.balanceCurrency)).value),
        SweepResult(c.name, c.accessToken, SuccessCode),
        SweepResult(d.name, d.accessToken, svc.postTransfer(d.accessToken, Payload(d, 50, d.balanceCurrency)).value) ]
    ensures CycleTransfers(svc, [a, b, c, d]) == [Payload(b, 100, b.balanceCurrency), Payload(d, 50, d.balanceCurrency)]
  {
    var accounts := [a, b, c, d];
    assert accounts[1..] == [b, c, d] && accounts[2..] == [c, d] && accounts[3..] == [d];
    assert [d][1..] == [];
    assert CycleTransfers(svc, [d]) == [Payload(d, 50, d.balanceCurrency)];
    assert [c, d][1..] == [d];
    assert CycleTransfers(svc, [c, d]) == [Payload(d, 50, d.balanceCurrency)];
    assert [b, c, d][1..] == [c, d];
    assert CycleTransfers(svc, [b, c, d]) == [Payload(b, 100, b.balanceCurrency), Payload(d, 50, d.balanceCurrency)];
  }
}
