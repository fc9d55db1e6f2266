/** The account registry (`WiseStateManager`): two ordered lists, the enabled
    and the disabled accounts, changed in place by `add`, `enable`,
    `disable` and `delete`. Every lookup is a first-match search by access
    token that raises when nothing matches. */
module Registry {
  import opened Common
  import opened Accounts

  /** The exception of `_get_account_index_by_access_token`. */
  datatype RegistryError = NotFound

  function Tokens(accounts: seq<Account>): (ts: seq<string>)
    ensures |ts| == |accounts|
    ensures forall i :: 0 <= i < |accounts| ==> ts[i] == accounts[i].accessToken
  {
    seq(|accounts|, i requires 0 <= i < |accounts| => accounts[i].accessToken)
  }

  lemma TokensConcat(a: seq<Account>, b: seq<Account>)
    ensures Tokens(a + b) == Tokens(a) + Tokens(b)
  {
  }

  /** The tokens of the accounts, with repetitions. */
  function TokenBag(accounts: seq<Account>): multiset<string>
  {
    multiset(Tokens(accounts))
  }

  /** No token occurs twice in the bag. */
  ghost predicate Unique(tokens: multiset<string>)
  {
    forall t :: tokens[t] <= 1
  }

  /** No token is held by two accounts of the list. */
  ghost predicate DistinctTokens(accounts: seq<Account>)
  {
    Unique(TokenBag(accounts))
  }

  /** No token is held by two accounts across the two lists. Tokens are
      meant to identify accounts uniquely, but `add` itself does not check
      this. Under it every known token is in exactly one of the lists. */
  ghost predicate Partitioned(enabled: seq<Account>, disabled: seq<Account>)
  {
    Unique(TokenBag(enabled) + TokenBag(disabled))
  }

  lemma PartitionedSymmetric(a: seq<Account>, b: seq<Account>)
    ensures Partitioned(a, b) == Partitioned(b, a)
  {
    assert TokenBag(a) + TokenBag(b) == TokenBag(b) + TokenBag(a);
  }

  /** `_get_account_index_by_access_token`: the index of the first account
      holding the token, `None` where the source raises. */
  function TokenIndex(accounts: seq<Account>, t: string): (r: Option<nat>)
    ensures r.None? <==> t !in TokenBag(accounts)
    ensures r.Some? ==> r.value < |accounts| && accounts[r.value].accessToken == t
    ensures r.Some? ==> forall j :: 0 <= j < r.value ==> accounts[j].accessToken != t
  {
    FirstIndexOf(Tokens(accounts), t)
  }

  /** The loop of `_get_account_index_by_access_token`. */
  method FindTokenIndex(accounts: seq<Account>, t: string) returns (r: Option<nat>)
    ensures r == TokenIndex(accounts, t)
  {
    var i := 0;
    while i < |accounts|
      invariant 0 <= i <= |accounts|
      invariant forall j :: 0 <= j < i ==> accounts[j].accessToken != t
    {
      if accounts[i].accessToken == t {
        return Some(i);
      }
      i := i + 1;
    }
    return None;
  }

  /** `target.append(source.pop(i))` with `i` the first index of the token in
      `source`: the new `(source, target)`, or `None` where the lookup raises. */
  function MoveByToken(source: seq<Account>, target: seq<Account>, t: string): (r: Option<(seq<Account>, seq<Account>)>)
    ensures r.None? <==> t !in TokenBag(source)
  {
    match TokenIndex(source, t)
    case None => None
    case Some(i) => Some((RemoveAt(source, i), target + [source[i]]))
  }

  /** `accounts.pop(i)` with `i` the first index of the token, or `None`
      where the lookup raises. */
  function RemoveByToken(accounts: seq<Account>, t: string): (r: Option<seq<Account>>)
    ensures r.None? <==> t !in TokenBag(accounts)
  {
    match TokenIndex(accounts, t)
    case None => None
    case Some(i) => Some(RemoveAt(accounts, i))
  }

  /** `delete`: the first holder of the token in `enabled` goes, or else the
      first in `disabled`; `None` where both lookups raise. */
  function DeleteByToken(enabled: seq<Account>, disabled: seq<Account>, t: string): (r: Option<(seq<Account>, seq<Account>)>)
    ensures r.None? <==> t !in TokenBag(enabled) && t !in TokenBag(disabled)
  {
    match RemoveByToken(enabled, t)
    case Some(e) => Some((e, disabled))
    case None =>
      match RemoveByToken(disabled, t)
      case Some(d) => Some((enabled, d))
      case None => None
  }

  /** The state change of `enable` (source: disabled, target: enabled) and
      of `disable` (the other way round), with the status it reports. */
  ghost predicate Moved(source0: seq<Account>, target0: seq<Account>,
                        source1: seq<Account>, target1: seq<Account>,
                        t: string, r: Outcome<RegistryError>)
  {
    match MoveByToken(source0, target0, t)
    case None => r == Fail(NotFound) && source1 == source0 && target1 == target0
    case Some(p) => r == Pass && source1 == p.0 && target1 == p.1
  }

  /** A move takes away the FIRST holder of the token from the source, keeps
      the order of the others, and appends that same account to the end of
      the target, whose earlier entries stay as they were. */
  lemma MoveIsFirstMatchToEnd(source: seq<Account>, target: seq<Account>, t: string)
    requires t in TokenBag(source)
    ensures var p := MoveByToken(source, target, t).value;
            exists i :: 0 <= i < |source| && source[i].accessToken == t
                        && (forall j :: 0 <= j < i ==> source[j].accessToken != t)
                        && p.0[..i] == source[..i] && p.0[i..] == source[i + 1..]
                        && p.1 == target + [source[i]]
  {
    var i := TokenIndex(source, t).value;
    RemoveAtSpec(source, i);
  }

  /** A move is not a copy: the accounts of the two lists together are the
      same before and after, one token leaves the source and enters the
      target, and every other token stays where it was. */
  lemma MovePreservesAccounts(source: seq<Account>, target: seq<Account>, t: string)
    requires t in TokenBag(source)
    ensures var p := MoveByToken(source, target, t).value;
            && multiset(p.0) + multiset(p.1) == multiset(source) + multiset(target)
            && |p.0| + |p.1| == |source| + |target|
            && TokenBag(p.0) == TokenBag(source) - multiset{t}
            && TokenBag(p.1) == TokenBag(target) + multiset{t}
  {
    var i := TokenIndex(source, t).value;
    var p := MoveByToken(source, target, t).value;
    assert p.0 == RemoveAt(source, i) && p.1 == target + [source[i]];
    RemoveAtSpec(source, i);
    assert multiset(p.1) == multiset(target) + multiset{source[i]};
    RemovePreservesOthers(source, i);
    TokensConcat(target, [source[i]]);
    assert Tokens([source[i]]) == [t];
  }

  lemma RemovePreservesOthers(accounts: seq<Account>, i: nat)
    requires i < |accounts|
    ensures TokenBag(RemoveAt(accounts, i)) == TokenBag(accounts) - multiset{accounts[i].accessToken}
  {
    var ts := Tokens(accounts);
    assert Tokens(RemoveAt(accounts, i)) == RemoveAt(ts, i);
    RemoveAtSpec(ts, i);
  }

  /** The partition invariant: if no token is held twice across the two
      lists, a move keeps it so, and afterwards the token is held in the
      target only. */
  lemma MoveKeepsPartition(source: seq<Account>, target: seq<Account>, t: string)
    requires t in TokenBag(source)
    requires Partitioned(source, target)
    ensures var p := MoveByToken(source, target, t).value;
            && Partitioned(p.0, p.1)
            && t !in TokenBag(p.0) && TokenBag(p.1)[t] == 1
  {
    MovePreservesAccounts(source, target, t);
    var p := MoveByToken(source, target, t).value;
    var before := TokenBag(source) + TokenBag(target);
    assert TokenBag(p.0) + TokenBag(p.1) == before;
    assert before[t] <= 1;
  }

  /** Deleting takes exactly one holder of the token out of the registry,
      from `enabled` when it has one and from `disabled` otherwise, and
      leaves every other token where it was. */
  lemma DeleteRemovesOneHolder(enabled: seq<Account>, disabled: seq<Account>, t: string)
    requires t in TokenBag(enabled) || t in TokenBag(disabled)
    ensures var p := DeleteByToken(enabled, disabled, t).value;
            && TokenBag(p.0) + TokenBag(p.1) == TokenBag(enabled) + TokenBag(disabled) - multiset{t}
            && |p.0| + |p.1| == |enabled| + |disabled| - 1
            && (t in TokenBag(enabled) ==> p.1 == disabled)
            && (t !in TokenBag(enabled) ==> p.0 == enabled)
  {
    if t in TokenBag(enabled) {
      var i := TokenIndex(enabled, t).value;
      RemoveAtSpec(enabled, i);
      RemovePreservesOthers(enabled, i);
    } else {
      var i := TokenIndex(disabled, t).value;
      RemoveAtSpec(disabled, i);
      RemovePreservesOthers(disabled, i);
    }
  }

  /** With distinct tokens a deleted account's token is gone from both lists
      (the terminal state), and the rest stay distinct. */
  lemma DeleteKeepsPartition(enabled: seq<Account>, disabled: seq<Account>, t: string)
    requires t in TokenBag(enabled) || t in TokenBag(disabled)
    requires Partitioned(enabled, disabled)
    ensures var p := DeleteByToken(enabled, disabled, t).value;
            Partitioned(p.0, p.1) && t !in TokenBag(p.0) && t !in TokenBag(p.1)
  {
    DeleteRemovesOneHolder(enabled, disabled, t);
    var p := DeleteByToken(enabled, disabled, t).value;
    var before := TokenBag(enabled) + TokenBag(disabled);
    assert before[t] <= 1;
    assert (TokenBag(p.0) + TokenBag(p.1))[t] == 0;
    forall u ensures (TokenBag(p.0) + TokenBag(p.1))[u] <= 1 {
      assert before[u] <= 1;
    }
  }

  /** Adding an account whose token the registry does not know yet keeps
      every token held once; the added token is then held in `disabled`. */
  lemma AddKeepsPartition(enabled: seq<Account>, disabled: seq<Account>, a: Account)
    requires Partitioned(enabled, disabled)
    requires a.accessToken !in TokenBag(enabled) + TokenBag(disabled)
    ensures Partitioned(enabled, disabled + [a])
    ensures a.accessToken !in TokenBag(enabled) && TokenBag(disabled + [a])[a.accessToken] == 1
  {
    TokensConcat(disabled, [a]);
    var before := TokenBag(enabled) + TokenBag(disabled);
    forall u ensures (TokenBag(enabled) + TokenBag(disabled + [a]))[u] <= 1 {
      assert before[u] <= 1;
    }
  }

  /** `add` with a token the registry already holds leaves it held twice. */
  lemma AddDuplicateBreaksPartition(enabled: seq<Account>, disabled: seq<Account>, a: Account)
    requires a.accessToken in TokenBag(enabled) + TokenBag(disabled)
    ensures !Partitioned(enabled, disabled + [a])
  {
    TokensConcat(disabled, [a]);
    assert Tokens([a]) == [a.accessToken];
    assert (TokenBag(enabled) + TokenBag(disabled + [a]))[a.accessToken] >= 2;
  }

  /** `WiseStateManager`. */
  class StateManager {
    var enabled: seq<Account>
    var disabled: seq<Account>

    /** Both lists start empty. */
    constructor ()
      ensures enabled == [] && disabled == []
    {
      enabled := [];
      disabled := [];
    }

    /** `add`: appends to the disabled list, without checking the token. */
    method Add(account: Account)
      modifies this
      ensures enabled == old(enabled)
      ensures disabled == old(disabled) + [account]
      ensures old(Partitioned(enabled, disabled)) && account.accessToken !in old(TokenBag(enabled) + TokenBag(disabled))
              ==> Partitioned(enabled, disabled)
    {
      if Partitioned(enabled, disabled) && account.accessToken !in TokenBag(enabled) + TokenBag(disabled) {
        AddKeepsPartition(enabled, disabled, account);
      }
      disabled := disabled + [account];
    }

    /** `enable`: the first disabled account with the token moves to the end
      of the enabled list; both lists stay as they were when none has it. */
    method Enable(t: string) returns (r: Outcome<RegistryError>)
      modifies this
      ensures Moved(old(disabled), old(enabled), disabled, enabled, t, r)
      ensures r.Pass? <==> t in TokenBag(old(disabled))
      ensures multiset(enabled) + multiset(disabled) == old(multiset(enabled) + multiset(disabled))
      ensures old(Partitioned(enabled, disabled)) ==> Partitioned(enabled, disabled)
    {
      var i := FindTokenIndex(disabled, t);
      if i.None? {
        return Fail(NotFound);
      }
      ghost var e0, d0 := enabled, disabled;
      var account := disabled[i.value];
      disabled := RemoveAt(disabled, i.value);
      enabled := enabled + [account];
      r := Pass;
      MovePreservesAccounts(d0, e0, t);
      assert multiset(e0) + multiset(d0) == multiset(d0) + multiset(e0);
      assert multiset(enabled) + multiset(disabled) == multiset(disabled) + multiset(enabled);
      PartitionedSymmetric(e0, d0);
      PartitionedSymmetric(enabled, disabled);
      if Partitioned(e0, d0) {
        MoveKeepsPartition(d0, e0, t);
      }
    }

    /** `disable`: the first enabled account with the token moves to the end
      of the disabled list; both lists stay as they were when none has it. */
    method Disable(t: string) returns (r: Outcome<RegistryError>)
      modifies this
      ensures Moved(old(enabled), old(disabled), enabled, disabled, t, r)
      ensures r.Pass? <==> t in TokenBag(old(enabled))
      ensures multiset(enabled) + multiset(disabled) == old(multiset(enabled) + multiset(disabled))
      ensures old(Partitioned(enabled, disabled)) ==> Partitioned(enabled, disabled)
    {
      var i := FindTokenIndex(enabled, t);
      if i.None? {
        return Fail(NotFound);
      }
      MovePreservesAccounts(enabled, disabled, t);
      if Partitioned(enabled, disabled) {
        MoveKeepsPartition(enabled, disabled, t);
      }
      var account := enabled[i.value];
      enabled := RemoveAt(enabled, i.value);
      disabled := disabled + [account];
      r := Pass;
    }

    /** `delete`: removes the first holder of the token from the enabled
      list, or failing that from the disabled list; nothing changes when
      neither has it. */
    method Delete(t: string) returns (r: Outcome<RegistryError>)
      modifies this
      ensures match DeleteByToken(old(enabled), old(disabled), t)
              case None => r == Fail(NotFound) && enabled == old(enabled) && disabled == old(disabled)
              case Some(p) => r == Pass && enabled == p.0 && disabled == p.1
      ensures old(Partitioned(enabled, disabled)) ==>
                Partitioned(enabled, disabled) && t !in TokenBag(enabled) && t !in TokenBag(disabled)
    {
      if Partitioned(enabled, disabled) && (t in TokenBag(enabled) || t in TokenBag(disabled)) {
        DeleteKeepsPartition(enabled, disabled, t);
      }
      var i := FindTokenIndex(enabled, t);
      if i.Some? {
        enabled := RemoveAt(enabled, i.value);
        return Pass;
      }
      var j := FindTokenIndex(disabled, t);
      if j.Some? {
        disabled := RemoveAt(disabled, j.value);
        return Pass;
      }
      return Fail(NotFound);
    }
  }
}
