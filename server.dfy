/** The web server's use of the registry: loading the stored accounts at
    startup, routing each cycle's results (mail and `disable`), adding an
    account from the form and switching an account's status. */
module Server {
  import opened Common
  import opened Accounts
  import opened Registry
  import opened Sweep

  /** The status the service answers with when the token is rejected. */
  const AuthFailureCode: int := 401
  const AuthSubject: string := "Authentication error"
  const ErrorSubject: string := "Wise account error"

  /** What a notification says; its text names the account, and the generic
      one also the status code. All go to one fixed, configured address. */
  datatype MailBody = AuthFailure(account: string) | ServiceFailure(code: int, account: string)
  datatype Mail = Mail(subject: string, body: MailBody)

  /** The mail `execute_state_manager` sends for one result, if any. */
  function Notice(r: SweepResult): (m: Option<Mail>)
    ensures m.None? <==> r.code == SuccessCode
    ensures m.Some? ==> m.value.body.account == r.name
    ensures m.Some? ==> (m.value.subject == AuthSubject <==> r.code == AuthFailureCode)
    ensures m.Some? && r.code != AuthFailureCode ==> m.value.subject == ErrorSubject && m.value.body == ServiceFailure(r.code, r.name)
  {
    if r.code == SuccessCode then None
    else if r.code == AuthFailureCode then Some(Mail(AuthSubject, AuthFailure(r.name)))
    else Some(Mail(ErrorSubject, ServiceFailure(r.code, r.name)))
  }

  /** The mails for a list of results, in order. */
  function Notices(rs: seq<SweepResult>): seq<Mail>
  {
    if rs == [] then []
    else (match Notice(rs[0]) case None => [] case Some(m) => [m]) + Notices(rs[1..])
  }

  lemma {:induction false} NoticesConcat(a: seq<SweepResult>, b: seq<SweepResult>)
    ensures Notices(a + b) == Notices(a) + Notices(b)
  {
    if a == [] {
      assert a + b == b;
    } else {
      assert (a + b)[1..] == a[1..] + b;
      NoticesConcat(a[1..], b);
    }
  }

  /** One more result adds its mail, if it has one, at the end. */
  lemma NoticesStep(rs: seq<SweepResult>, i: nat)
    requires i < |rs|
    ensures Notices(rs[..i + 1]) == Notices(rs[..i]) + (if rs[i].code == SuccessCode then [] else [Notice(rs[i]).value])
  {
    assert rs[..i + 1] == rs[..i] + [rs[i]];
    NoticesConcat(rs[..i], [rs[i]]);
    assert [rs[i]][1..] == [];
  }

  /** Each result is about the account at the same position: it carries
      that account's name and token. */
  ghost predicate Aligned(accounts: seq<Account>, results: seq<SweepResult>)
  {
    && |results| == |accounts|
    && forall k :: 0 <= k < |accounts| ==>
         results[k].name == accounts[k].name && results[k].accessToken == accounts[k].accessToken
  }

  /** The results of a cycle are aligned with the enabled accounts. */
  lemma CycleAligned(svc: Service, enabled: seq<Account>)
    ensures Aligned(enabled, Run(svc, enabled))
  {
    RunCoversEnabled(svc, enabled);
  }

  /** The accounts whose result is `SuccessCode`, in order. */
  function Kept(accounts: seq<Account>, results: seq<SweepResult>): seq<Account>
    requires |results| == |accounts|
  {
    if accounts == [] then []
    else (if results[0].code == SuccessCode then [accounts[0]] else [])
         + Kept(accounts[1..], results[1..])
  }

  /** The accounts whose result is any other code, in order. */
  function Dropped(accounts: seq<Account>, results: seq<SweepResult>): seq<Account>
    requires |results| == |accounts|
  {
    if accounts == [] then []
    else (if results[0].code == SuccessCode then [] else [accounts[0]])
         + Dropped(accounts[1..], results[1..])
  }

  /** Splitting the accounts and their results splits the kept ones. */
  lemma {:induction false} KeptConcat(a: seq<Account>, ra: seq<SweepResult>,
                                      b: seq<Account>, rb: seq<SweepResult>)
    requires |ra| == |a| && |rb| == |b|
    ensures Kept(a + b, ra + rb) == Kept(a, ra) + Kept(b, rb)
  {
    if a == [] {
      assert a + b == b && ra + rb == rb;
    } else {
      var head := if ra[0].code == SuccessCode then [a[0]] else [];
      assert (a + b)[0] == a[0] && (ra + rb)[0] == ra[0];
      assert (a + b)[1..] == a[1..] + b;
      assert (ra + rb)[1..] == ra[1..] + rb;
      assert Kept(a + b, ra + rb) == head + Kept(a[1..] + b, ra[1..] + rb);
      KeptConcat(a[1..], ra[1..], b, rb);
      assert head + (Kept(a[1..], ra[1..]) + Kept(b, rb)) == (head + Kept(a[1..], ra[1..])) + Kept(b, rb);
    }
  }

  /** Splitting the accounts and their results splits the dropped ones. */
  lemma {:induction false} DroppedConcat(a: seq<Account>, ra: seq<SweepResult>,
                                         b: seq<Account>, rb: seq<SweepResult>)
    requires |ra| == |a| && |rb| == |b|
    ensures Dropped(a + b, ra + rb) == Dropped(a, ra) + Dropped(b, rb)
  {
    if a == [] {
      assert a + b == b && ra + rb == rb;
    } else {
      var head := if ra[0].code != SuccessCode then [a[0]] else [];
      assert (a + b)[0] == a[0] && (ra + rb)[0] == ra[0];
      assert (a + b)[1..] == a[1..] + b;
      assert (ra + rb)[1..] == ra[1..] + rb;
      assert Dropped(a + b, ra + rb) == head + Dropped(a[1..] + b, ra[1..] + rb);
      DroppedConcat(a[1..], ra[1..], b, rb);
      assert head + (Dropped(a[1..], ra[1..]) + Dropped(b, rb)) == (head + Dropped(a[1..], ra[1..])) + Dropped(b, rb);
    }
  }

  lemma PartsOfOne(a: Account, r: SweepResult)
    ensures r.code == SuccessCode ==> Kept([a], [r]) == [a] && Dropped([a], [r]) == []
    ensures r.code != SuccessCode ==> Kept([a], [r]) == [] && Dropped([a], [r]) == [a]
  {
    assert [a][1..] == [] && [r][1..] == [];
  }

  /** Kept accounts are taken from the list, so they hold no other tokens. */
  lemma {:induction false} KeptTokens(accounts: seq<Account>, results: seq<SweepResult>, t: string)
    requires |results| == |accounts|
    requires t !in TokenBag(accounts)
    ensures t !in TokenBag(Kept(accounts, results))
  {
    if accounts != [] {
      assert accounts == [accounts[0]] + accounts[1..];
      TokensConcat([accounts[0]], accounts[1..]);
      var head := if results[0].code == SuccessCode then [accounts[0]] else [];
      TokensConcat(head, Kept(accounts[1..], results[1..]));
      KeptTokens(accounts[1..], results[1..], t);
    }
  }

  /** One mail per dropped account, in the same order, each naming it. */
  lemma {:induction false} OneMailPerDroppedAccount(accounts: seq<Account>, results: seq<SweepResult>)
    requires Aligned(accounts, results)
    ensures |Notices(results)| == |Dropped(accounts, results)|
    ensures forall k :: 0 <= k < |Dropped(accounts, results)| ==>
              Notices(results)[k].body.account == Dropped(accounts, results)[k].name
  {
    if accounts != [] {
      assert Aligned(accounts[1..], results[1..]) by {
        forall k | 0 <= k < |accounts| - 1
          ensures results[1..][k].name == accounts[1..][k].name
        {
          assert results[1..][k] == results[k + 1];
        }
      }
      OneMailPerDroppedAccount(accounts[1..], results[1..]);
    }
  }

  /** When no token is held before the account at `|prefix|`, the lookup
      stops at it. */
  lemma FirstHolderAfter(prefix: seq<Account>, rest: seq<Account>, t: string)
    requires t !in TokenBag(prefix)
    requires |rest| > 0 && rest[0].accessToken == t
    ensures TokenIndex(prefix + rest, t) == Some(|prefix|)
  {
    forall j | 0 <= j < |prefix| ensures prefix[j].accessToken != t {
      assert Tokens(prefix)[j] in TokenBag(prefix);
    }
    var s := prefix + rest;
    assert s[|prefix|].accessToken == t;
    TokensConcat(prefix, rest);
  }

  /** What the routing loop knows before result `i`: the unprocessed
      accounts' tokens are all still enabled, and with distinct tokens the
      processed dropped accounts have moved, in order, to the disabled list. */
  ghost predicate Routed(E: seq<Account>, results: seq<SweepResult>, D: seq<Account>, i: nat,
                         enabled: seq<Account>, disabled: seq<Account>)
    requires i <= |E| == |results|
  {
    && TokenBag(E[i..]) <= TokenBag(enabled)
    && (DistinctTokens(E) ==> && enabled == Kept(E[..i], results[..i]) + E[i..]
                              && disabled == D + Dropped(E[..i], results[..i]))
  }

  /** The unprocessed suffix loses the token of the account it drops. */
  lemma SuffixBag(E: seq<Account>, i: nat)
    requires i < |E|
    ensures TokenBag(E[i..]) == multiset{E[i].accessToken} + TokenBag(E[i + 1..])
  {
    assert E[i..] == [E[i]] + E[i + 1..];
    TokensConcat([E[i]], E[i + 1..]);
    assert Tokens([E[i]]) == [E[i].accessToken];
  }

  /** A success result changes nothing and the loop moves on. */
  lemma PassingStep(E: seq<Account>, results: seq<SweepResult>, D: seq<Account>, i: nat,
                    enabled: seq<Account>, disabled: seq<Account>)
    requires i < |E| == |results| && results[i].code == SuccessCode
    requires Routed(E, results, D, i, enabled, disabled)
    ensures Routed(E, results, D, i + 1, enabled, disabled)
  {
    SuffixBag(E, i);
    if DistinctTokens(E) {
      StepOrder(E, results, D, i, enabled, disabled);
    }
  }

  /** The placement after one more result, as the step produces it. */
  lemma StepOrder(E: seq<Account>, results: seq<SweepResult>, D: seq<Account>, i: nat,
                  enabled: seq<Account>, disabled: seq<Account>)
    requires i < |E| == |results|
    requires enabled == Kept(E[..i], results[..i]) + E[i..]
    requires disabled == D + Dropped(E[..i], results[..i])
    ensures results[i].code == SuccessCode ==>
              && enabled == Kept(E[..i + 1], results[..i + 1]) + E[i + 1..]
              && disabled == D + Dropped(E[..i + 1], results[..i + 1])
    ensures results[i].code != SuccessCode ==>
              && Kept(E[..i], results[..i]) + E[i + 1..] == Kept(E[..i + 1], results[..i + 1]) + E[i + 1..]
              && disabled + [E[i]] == D + Dropped(E[..i + 1], results[..i + 1])
  {
    assert E[..i + 1] == E[..i] + [E[i]];
    assert results[..i + 1] == results[..i] + [results[i]];
    KeptConcat(E[..i], results[..i], [E[i]], [results[i]]);
    DroppedConcat(E[..i], results[..i], [E[i]], [results[i]]);
    PartsOfOne(E[i], results[i]);
    assert E[i..] == [E[i]] + E[i + 1..];
  }

  /** A dropped result's token is still enabled, so `disable` finds it, and
      the routing invariant survives the move. */
  lemma FailingStep(E: seq<Account>, results: seq<SweepResult>, D: seq<Account>, i: nat,
                    enabled: seq<Account>, disabled: seq<Account>)
    requires Aligned(E, results)
    requires i < |E| && results[i].code != SuccessCode
    requires Routed(E, results, D, i, enabled, disabled)
    ensures results[i].accessToken in TokenBag(enabled)
    ensures var p := MoveByToken(enabled, disabled, results[i].accessToken).value;
            Routed(E, results, D, i + 1, p.0, p.1)
  {
    var t := E[i].accessToken;
    SuffixBag(E, i);
    MovePreservesAccounts(enabled, disabled, t);
    if DistinctTokens(E) {
      FailingMoveOrder(E, results, D, i, enabled, disabled);
    }
  }

  /** With distinct tokens, `disable` moves exactly the account whose result
      is being routed. */
  lemma FailingMoveOrder(E: seq<Account>, results: seq<SweepResult>, D: seq<Account>, i: nat,
                         enabled: seq<Account>, disabled: seq<Account>)
    requires i < |E| == |results| && results[i].code != SuccessCode
    requires DistinctTokens(E)
    requires enabled == Kept(E[..i], results[..i]) + E[i..]
    requires disabled == D + Dropped(E[..i], results[..i])
    ensures E[i].accessToken in TokenBag(enabled)
    ensures var p := MoveByToken(enabled, disabled, E[i].accessToken).value;
            && p.0 == Kept(E[..i + 1], results[..i + 1]) + E[i + 1..]
            && p.1 == D + Dropped(E[..i + 1], results[..i + 1])
  {
    var t := E[i].accessToken;
    var h := Kept(E[..i], results[..i]);
    DistinctPrefix(E, i);
    KeptTokens(E[..i], results[..i], t);
    FirstHolderAfter(h, E[i..], t);
    RemoveAtSpec(enabled, |h|);
    StepOrder(E, results, D, i, enabled, disabled);
    var p := MoveByToken(enabled, disabled, t).value;
    assert p.0 == h + E[i + 1..];
  }

  /** The loop invariant of `RouteAll` survives one result. */
  lemma RouteStep(E: seq<Account>, results: seq<SweepResult>, D: seq<Account>, i: nat,
                  mails: seq<Mail>, enabled: seq<Account>, disabled: seq<Account>,
                  mail: Option<Mail>, status: Outcome<RegistryError>,
                  enabled': seq<Account>, disabled': seq<Account>)
    requires Aligned(E, results) && i < |E|
    requires mails == Notices(results[..i])
    requires Routed(E, results, D, i, enabled, disabled)
    requires mail == Notice(results[i])
    requires results[i].code == SuccessCode ==> status == Pass && enabled' == enabled && disabled' == disabled
    requires results[i].code != SuccessCode ==> Moved(enabled, disabled, enabled', disabled', results[i].accessToken, status)
    ensures status == Pass
    ensures mails + (if mail.Some? then [mail.value] else []) == Notices(results[..i + 1])
    ensures Routed(E, results, D, i + 1, enabled', disabled')
  {
    NoticesStep(results, i);
    if results[i].code == SuccessCode {
      PassingStep(E, results, D, i, enabled, disabled);
    } else {
      FailingStep(E, results, D, i, enabled, disabled);
    }
  }

  /** The body of the routing loop for one result: nothing on
      `SuccessCode`; otherwise the authentication mail for 401 or the
      generic mail for any other code, then `disable` on the result's token. */
  method RouteResult(reg: StateManager, result: SweepResult)
    returns (mail: Option<Mail>, status: Outcome<RegistryError>)
    modifies reg
    ensures mail == Notice(result)
    ensures result.code == SuccessCode ==>
              status == Pass && reg.enabled == old(reg.enabled) && reg.disabled == old(reg.disabled)
    ensures result.code != SuccessCode ==>
              Moved(old(reg.enabled), old(reg.disabled), reg.enabled, reg.disabled, result.accessToken, status)
    ensures multiset(reg.enabled) + multiset(reg.disabled) == old(multiset(reg.enabled) + multiset(reg.disabled))
  {
    if result.code == SuccessCode {
      return None, Pass;
    } else if result.code == AuthFailureCode {
      mail := Some(Mail(AuthSubject, AuthFailure(result.name)));
      status := reg.Disable(result.accessToken);
    } else {
      mail := Some(Mail(ErrorSubject, ServiceFailure(result.code, result.name)));
      status := reg.Disable(result.accessToken);
    }
  }

  /** One turn of the routing loop: route result `i`, append its mail and
      report whether `disable` raised, which it never does here. */
  method RouteNext(reg: StateManager, ghost E: seq<Account>, ghost D: seq<Account>,
                   results: seq<SweepResult>, i: nat, mails: seq<Mail>)
    returns (mails': seq<Mail>, status: Outcome<RegistryError>)
    modifies reg
    requires Aligned(E, results) && i < |E|
    requires mails == Notices(results[..i])
    requires multiset(reg.enabled) + multiset(reg.disabled) == multiset(E) + multiset(D)
    requires Routed(E, results, D, i, reg.enabled, reg.disabled)
    ensures status == Pass
    ensures mails' == Notices(results[..i + 1])
    ensures multiset(reg.enabled) + multiset(reg.disabled) == multiset(E) + multiset(D)
    ensures Routed(E, results, D, i + 1, reg.enabled, reg.disabled)
  {
    ghost var enabled, disabled := reg.enabled, reg.disabled;
    var mail;
    mail, status := RouteResult(reg, results[i]);
    RouteStep(E, results, D, i, mails, enabled, disabled, mail, status, reg.enabled, reg.disabled);
    mails' := mails;
    if mail.Some? {
      mails' := mails + [mail.value];
    }
  }

  /** The loop of `execute_state_manager` over a cycle's results, each about
      the enabled account at its position. A `disable` that raised would end
      the loop and the rest of the results would go unrouted (`raised`); it
      never does: every dropped token is still enabled when its turn comes.
      With distinct tokens, exactly the dropped accounts move, in order, to
      the end of the disabled list, and the others keep their places. */
  method RouteAll(reg: StateManager, results: seq<SweepResult>) returns (mails: seq<Mail>, raised: bool)
    modifies reg
    requires Aligned(reg.enabled, results)
    ensures !raised
    ensures mails == Notices(results)
    ensures multiset(reg.enabled) + multiset(reg.disabled) == old(multiset(reg.enabled) + multiset(reg.disabled))
    ensures DistinctTokens(old(reg.enabled)) ==>
              && reg.enabled == Kept(old(reg.enabled), results)
              && reg.disabled == old(reg.disabled) + Dropped(old(reg.enabled), results)
  {
    ghost var E, D := reg.enabled, reg.disabled;
    mails, raised := [], false;
    var i := 0;
    RouteStart(E, results, D);
    assert results[..0] == [];
    while i < |results| && !raised
      invariant 0 <= i <= |E| && !raised
      invariant mails == Notices(results[..i])
      invariant multiset(reg.enabled) + multiset(reg.disabled) == multiset(E) + multiset(D)
      invariant Routed(E, results, D, i, reg.enabled, reg.disabled)
    {
      var status;
      mails, status := RouteNext(reg, E, D, results, i, mails);
      raised := status.Fail?;
      i := i + 1;
    }
    RouteDone(E, results, D, mails, reg.enabled, reg.disabled);
  }

  /** Before the first result the invariant holds with nothing routed. */
  lemma RouteStart(E: seq<Account>, results: seq<SweepResult>, D: seq<Account>)
    requires |results| == |E|
    ensures Routed(E, results, D, 0, E, D)
  {
    assert E[..0] == [] && E[0..] == E && results[..0] == [];
  }

  /** After the last result the invariant is the postcondition. */
  lemma RouteDone(E: seq<Account>, results: seq<SweepResult>, D: seq<Account>,
                  mails: seq<Mail>, enabled: seq<Account>, disabled: seq<Account>)
    requires |results| == |E|
    requires mails == Notices(results[..|E|])
    requires Routed(E, results, D, |E|, enabled, disabled)
    ensures mails == Notices(results)
    ensures DistinctTokens(E) ==> enabled == Kept(E, results) && disabled == D + Dropped(E, results)
  {
    assert results[..|E|] == results;
    assert E[..|E|] == E;
    assert E[|E|..] == [];
  }

  /** `execute_state_manager`: run a cycle over the enabled accounts and
      route its results in order. The mails are those of the results; with
      distinct tokens, the accounts whose sweep reported `SuccessCode` stay
      enabled in order and the others are appended, in order, to the
      disabled list. No `disable` raises, so every result is routed. */
  method ExecuteStateManager(reg: StateManager, svc: Service) returns (mails: seq<Mail>, raised: bool)
    modifies reg
    ensures !raised
    ensures mails == Notices(Run(svc, old(reg.enabled)))
    ensures multiset(reg.enabled) + multiset(reg.disabled) == old(multiset(reg.enabled) + multiset(reg.disabled))
    ensures DistinctTokens(old(reg.enabled)) ==>
              && reg.enabled == Kept(old(reg.enabled), Run(svc, old(reg.enabled)))
              && reg.disabled == old(reg.disabled) + Dropped(old(reg.enabled), Run(svc, old(reg.enabled)))
  {
    var results := Run(svc, reg.enabled);
    CycleAligned(svc, reg.enabled);
    mails, raised := RouteAll(reg, results);
  }

  /** In a list of distinct tokens, the token at `i` is not held before it. */
  lemma DistinctPrefix(accounts: seq<Account>, i: nat)
    requires DistinctTokens(accounts) && i < |accounts|
    ensures accounts[i].accessToken !in TokenBag(accounts[..i])
  {
    var t := accounts[i].accessToken;
    assert accounts == accounts[..i] + [accounts[i]] + accounts[i + 1..];
    TokensConcat(accounts[..i] + [accounts[i]], accounts[i + 1..]);
    TokensConcat(accounts[..i], [accounts[i]]);
    assert TokenBag(accounts)[t] <= 1;
  }

  /** One stored record: the account's name and its `get_state` triple. */
  datatype StoredAccount = StoredAccount(name: string, accessToken: string,
                                         balanceCurrency: string, jarCurrency: string)

  /** `WiseAccountManager(name, *state)` for a stored record: an account
      with the record's name and token whose ids resolve, or the error. */
  function Rebuild(svc: Service, s: StoredAccount): (r: Result<Account, AccountError>)
    ensures r.Ok? ==> r.value.name == s.name && r.value.accessToken == s.accessToken && Resolved(svc, r.value)
  {
    NewAccount(svc, s.name, s.accessToken, s.balanceCurrency, s.jarCurrency)
  }

  /** The accounts of the successful constructions, in order. */
  function Successes(rs: seq<Result<Account, AccountError>>): (accounts: seq<Account>)
    ensures |accounts| <= |rs|
  {
    if rs == [] then []
    else Successes(rs[..|rs| - 1]) + (match rs[|rs| - 1] case Ok(a) => [a] case Err(_) => [])
  }

  /** One more construction adds its account, if it succeeded, at the end. */
  lemma SuccessesStep(rs: seq<Result<Account, AccountError>>, i: nat)
    requires i < |rs|
    ensures Successes(rs[..i + 1]) == Successes(rs[..i]) + (match rs[i] case Ok(a) => [a] case Err(_) => [])
  {
    assert rs[..i + 1][..i] == rs[..i];
  }

  /** Every successful construction is kept. */
  lemma {:induction false} SuccessesComplete(rs: seq<Result<Account, AccountError>>)
    ensures forall k :: 0 <= k < |rs| && rs[k].Ok? ==> rs[k].value in Successes(rs)
  {
    if rs != [] {
      var n := |rs| - 1;
      SuccessesComplete(rs[..n]);
      forall k | 0 <= k < |rs| && rs[k].Ok?
        ensures rs[k].value in Successes(rs)
      {
        if k < n {
          assert rs[..n][k] == rs[k];
        }
      }
    }
  }

  /** Nothing but a successful construction is kept. */
  lemma {:induction false} SuccessesSound(rs: seq<Result<Account, AccountError>>)
    ensures forall a :: a in Successes(rs) ==> exists k :: 0 <= k < |rs| && rs[k] == Ok(a)
  {
    if rs != [] {
      var n := |rs| - 1;
      SuccessesSound(rs[..n]);
      forall a | a in Successes(rs)
        ensures exists k :: 0 <= k < |rs| && rs[k] == Ok(a)
      {
        if a in Successes(rs[..n]) {
          var k :| 0 <= k < n && rs[..n][k] == Ok(a);
          assert rs[k] == Ok(a);
        } else {
          assert rs[n] == Ok(a);
        }
      }
    }
  }

  /** Each stored record rebuilt, in order. */
  function RebuildAll(svc: Service, stored: seq<StoredAccount>): (rs: seq<Result<Account, AccountError>>)
    ensures |rs| == |stored|
    ensures forall k :: 0 <= k < |stored| ==> rs[k] == Rebuild(svc, stored[k])
  {
    seq(|stored|, k requires 0 <= k < |stored| => Rebuild(svc, stored[k]))
  }

  /** `get_all_wise_accounts`: the stored records rebuilt in order; a record
      whose construction raises is skipped without a trace. */
  function Loaded(svc: Service, stored: seq<StoredAccount>): seq<Account>
  {
    Successes(RebuildAll(svc, stored))
  }

  /** Every loaded account is the rebuild of some stored record, so it has
      that record's name and token and its ids resolve. */
  lemma LoadedSound(svc: Service, stored: seq<StoredAccount>)
    ensures |Loaded(svc, stored)| <= |stored|
    ensures forall a :: a in Loaded(svc, stored) ==>
              Resolved(svc, a) && exists k :: 0 <= k < |stored| && Rebuild(svc, stored[k]) == Ok(a)
  {
    var rs := RebuildAll(svc, stored);
    SuccessesSound(rs);
    forall a | a in Loaded(svc, stored)
      ensures Resolved(svc, a) && exists k :: 0 <= k < |stored| && Rebuild(svc, stored[k]) == Ok(a)
    {
      var k :| 0 <= k < |rs| && rs[k] == Ok(a);
      assert Rebuild(svc, stored[k]) == Ok(a);
    }
  }

  /** Every record that can be rebuilt is loaded. */
  lemma LoadedComplete(svc: Service, stored: seq<StoredAccount>)
    ensures forall k :: 0 <= k < |stored| && Rebuild(svc, stored[k]).Ok? ==>
              Rebuild(svc, stored[k]).value in Loaded(svc, stored)
  {
    SuccessesComplete(RebuildAll(svc, stored));
  }

  /** A record that cannot be rebuilt (its token revoked, or the service
      unreachable at startup) is absent from what the loader returns, so
      it never reaches the registry. */
  lemma {:induction false} FailedRecordDropped(svc: Service, stored: seq<StoredAccount>, k: nat)
    requires k < |stored| && Rebuild(svc, stored[k]).Err?
    requires forall j :: 0 <= j < |stored| && j != k ==> stored[j].accessToken != stored[k].accessToken
    ensures forall a :: a in Loaded(svc, stored) ==> a.accessToken != stored[k].accessToken
  {
    LoadedSound(svc, stored);
    forall a | a in Loaded(svc, stored)
      ensures a.accessToken != stored[k].accessToken
    {
      var j :| 0 <= j < |stored| && Rebuild(svc, stored[j]) == Ok(a);
      assert j != k;
    }
  }

  /** The loop of `get_all_wise_accounts`. */
  method LoadAll(svc: Service, stored: seq<StoredAccount>) returns (accounts: seq<Account>)
    ensures accounts == Loaded(svc, stored)
  {
    ghost var rs := RebuildAll(svc, stored);
    accounts := [];
    for i := 0 to |stored|
      invariant accounts == Successes(rs[..i])
    {
      var s := stored[i];
      var r := Construct(svc, s.name, s.accessToken, s.balanceCurrency, s.jarCurrency);
      SuccessesStep(rs, i);
      if r.Ok? {
        accounts := accounts + [r.value];
      }
    }
    assert rs[..|stored|] == rs;
  }

  /** `add_account_to_wise_state_manager`: every account the loader returns
      is added, so each starts in the disabled list, in the stored order. */
  method HydrateAtStartup(reg: StateManager, svc: Service, stored: seq<StoredAccount>)
    modifies reg
    ensures reg.enabled == old(reg.enabled)
    ensures reg.disabled == old(reg.disabled) + Loaded(svc, stored)
  {
    var accounts := LoadAll(svc, stored);
    for i := 0 to |accounts|
      invariant reg.enabled == old(reg.enabled)
      invariant reg.disabled == old(reg.disabled) + accounts[..i]
    {
      assert accounts[..i + 1] == accounts[..i] + [accounts[i]];
      reg.Add(accounts[i]);
    }
    assert accounts[..|accounts|] == accounts;
  }

  /** `add_new_account`: the registry gains the account only when its
      construction succeeds; the form has already checked both currencies,
      so the only failure is `InvalidAccessTokenError`, and then neither
      list changes. Persisting the account is not part of this model. */
  method AddNewAccount(reg: StateManager, svc: Service, name: string, token: string,
                       balanceCurrency: Currency, jarCurrency: Currency)
    returns (r: Result<Account, AccountError>)
    modifies reg
    ensures r == NewAccount(svc, name, token, Code(balanceCurrency), Code(jarCurrency))
    ensures r.Err? ==> r.error == InvalidAccessToken
                       && reg.enabled == old(reg.enabled) && reg.disabled == old(reg.disabled)
    ensures r.Ok? ==> && r.value.accessToken == token
                      && reg.enabled == old(reg.enabled) && reg.disabled == old(reg.disabled) + [r.value]
  {
    ParseCode(balanceCurrency);
    ParseCode(jarCurrency);
    r := Construct(svc, name, token, Code(balanceCurrency), Code(jarCurrency));
    if r.Ok? {
      reg.Add(r.value);
    }
  }

  /** The `status` query parameter of the status route. */
  datatype StatusChange = EnableAccount | DisableAccount

  /** `change_account_status`: exactly `enable` or `disable` on the token. */
  method ChangeAccountStatus(reg: StateManager, token: string, status: StatusChange)
    returns (r: Outcome<RegistryError>)
    modifies reg
    ensures status == EnableAccount ==>
              Moved(old(reg.disabled), old(reg.enabled), reg.disabled, reg.enabled, token, r)
    ensures status == DisableAccount ==>
              Moved(old(reg.enabled), old(reg.disabled), reg.enabled, reg.disabled, token, r)
  {
    match status
    case EnableAccount => r := reg.Enable(token);
    case DisableAccount => r := reg.Disable(token);
  }

  /** Starting empty: add, enable, disable and delete one account succeed in
      turn and leave the registry empty; enabling it again then fails. */
  method Lifecycle(a: Account) returns (reg: StateManager, steps: seq<Outcome<RegistryError>>)
    ensures steps == [Pass, Pass, Pass, Fail(NotFound)]
    ensures reg.enabled == [] && reg.disabled == []
  {
    var t := a.accessToken;
    assert Tokens([a]) == [t];
    assert TokenBag([]) == multiset{};
    reg := new StateManager();
    reg.Add(a);
    var enabled := reg.Enable(t);
    var disabled := reg.Disable(t);
    var deleted := reg.Delete(t);
    var again := reg.Enable(t);
    steps := [enabled, disabled, deleted, again];
  }
}
