# Wise jar sweeper: registry, sweep cycle and outcome router

This project models, in Dafny, the core of a small service. The service keeps
a set of Wise accounts and, every few seconds, moves each enabled account's
whole balance into its savings jar. It does this in four parts:

- **Accounts** (`accounts.dfy`, `WiseAccountManager`). An account is
  configured with a name, an access token, a balance currency and a jar
  currency. When it is constructed it resolves three ids against the remote
  service: its first profile, the first standard balance in the balance
  currency, and the first savings balance (jar) in the jar currency. A bad
  currency is a `ValueError`. Any remote failure collapses into
  `InvalidAccessTokenError`. The transfer it posts carries the profile, the
  amount and currency, and the source and target balance ids.
- **Registry** (`registry.dfy`, `WiseStateManager`). This is a class with
  two ordered lists, the enabled and the disabled accounts:
  - `add` appends to the disabled list;
  - `enable` and `disable` pop the first holder of a token from one list and
    append it to the other;
  - `delete` removes the first holder from the enabled list, or else from the
    disabled list.

  Every lookup is a first-match search by token that raises when nothing
  matches (`Fail(NotFound)` here).
- **Sweep** (`sweep.dfy`, `act_money_transfer`, `run`). For each account, the
  sweep fetches the amount of its cached balance. If that amount is positive,
  it posts one transfer of the whole amount to the jar and reports the
  returned status. It reports `201` when there is nothing to move or any step
  raises. `run` splits the enabled list at half its length, maps the sweep
  over each half and concatenates the two result lists.
- **Server** (`server.dfy`, `server.py`). At startup every stored record is
  rebuilt (which calls the remote service again); the records whose
  rebuild fails are skipped silently, and every account that is rebuilt is
  added. Each cycle's results are routed in order: nothing happens on 201; on
  401 an authentication mail is sent and the account is disabled; on any
  other code a generic mail naming the code is sent and the account is
  disabled. An account from the form is added only when its construction
  succeeds, and the status route calls exactly `enable` or `disable`.

The remote service is a value of type `Service`. It gives the answer to each
request the account makes, keyed by what the request depends on (the token,
the profile id, the transfer payload). `None` stands for a call that raised.
The two worker pools of `run` are modelled as the order-preserving map they
are collected into. The mails are values in a returned log.

Tokens are meant to identify accounts uniquely, but the code does not
enforce it, and the model follows the code:

- `add` does not check that the token is new, and neither do
  `add_new_account` and startup hydration. Token uniqueness across the two
  lists is the predicate `Partitioned`. `enable`, `disable` and `delete`
  preserve it; `add` preserves it only for a token the registry does not
  hold yet.
- A failed lookup raises a plain `Exception`. The model's `Fail(NotFound)`
  stands for that exception.
- Construction raises `InvalidAccessTokenError` for every remote failure,
  and a bad currency raises `ValueError` before any remote call
  (`InvalidCurrency` here).

Main results:

- The router never makes `disable` raise, so it never abandons the rest of
  a cycle's results (`raised` is always false). Every failing token is
  still enabled when its turn comes, even when tokens repeat, and the two
  lists keep the same accounts throughout.
- With distinct tokens, routing leaves exactly the accounts that reported 201
  enabled, in their order. The failing accounts are appended to the disabled
  list, in order.
- A cycle's results are the sweep mapped over the whole enabled list: the
  split into halves is invisible.
- `enable`, `disable` and `delete` keep every token held at most once across
  the two lists; `add` does so only for a new token.

## Model

| member | source | states |
|---|---|---|
| Common.FirstIndexOf | wise_manager.py:166-169 | the index of the first key equal to `k`, with no earlier match; `None` exactly when no key matches |
| Common.RemoveAtSpec | wise_manager.py:131 | `pop(i)` removes exactly one occurrence of the element at `i`, keeps the others in order and shortens the list by one |
| Accounts.ParseCurrency | wise_manager.py:17-20 | a code parses to the currency whose value it is; any string that is no currency's value is rejected |
| Accounts.ParseCode | wise_manager.py:17-20 | parsing a currency's own code gives that currency back |
| Accounts.BalanceIdByCurrency | wise_manager.py:67-75 | the id of the first balance in the currency; `None` (the raise) exactly when no balance has that currency |
| Accounts.FindBalanceIdByCurrency | wise_manager.py:72-75 | the search loop returns exactly the first-match id, or `None` when nothing matches |
| Accounts.AmountByBalanceId | wise_manager.py:100-104 | the amount of the first balance with the id; `None` (the raise) exactly when no balance has that id |
| Accounts.FindAmountByBalanceId | wise_manager.py:101-104 | the search loop returns exactly the first-match amount, or `None` when nothing matches |
| Accounts.LookupIn | wise_manager.py:67-82 | the id of the first balance in the currency of a fetched list; `None` exactly when the fetch raised or no balance has that currency |
| Accounts.NewAccount | wise_manager.py:39-50 | `InvalidCurrency` exactly when either currency does not parse; on success the account keeps its name, token and currencies, and its ids all resolve; every other failure is `InvalidAccessToken`, and then no account with that token and those currencies resolves |
| Accounts.NoProfileRejects | wise_manager.py:44-60 | when the profile fetch raises or returns no profile, construction fails with `InvalidAccessToken` whatever the balances hold; only a bad currency takes precedence |
| Accounts.Construct | wise_manager.py:39-50 | the constructor step by step, searching the fetched lists with the loops, gives exactly the account or error of `NewAccount` |
| Registry.TokenIndex | wise_manager.py:162-169 | index of the first account holding the token, with no earlier holder; `None` (the raise) exactly when no account holds it |
| Registry.FindTokenIndex | wise_manager.py:166-169 | the search loop returns exactly that first index, or `None` |
| Registry.MoveByToken | wise_manager.py:128-136 | a move fails exactly when the source list does not hold the token |
| Registry.RemoveByToken | wise_manager.py:140-146 | a removal fails exactly when the list does not hold the token |
| Registry.DeleteByToken | wise_manager.py:138-146 | a delete fails exactly when neither list holds the token |
| Registry.MoveIsFirstMatchToEnd | wise_manager.py:128-136 | a move takes the first holder out of the source, keeps the other accounts in order, and appends that same account to the unchanged target |
| Registry.MovePreservesAccounts | wise_manager.py:128-136 | a move is not a copy: the two lists together hold the same accounts and total length, and one occurrence of the token passes from source to target |
| Registry.RemovePreservesOthers | wise_manager.py:142 | a `pop` takes exactly one occurrence of the removed account's token and no other token |
| Registry.MoveKeepsPartition | wise_manager.py:128-136 | if no token is held twice across the lists, a move keeps it so, and afterwards the token is held once, in the target only |
| Registry.DeleteRemovesOneHolder | wise_manager.py:138-146 | delete takes one holder of the token out of the registry, from `enabled` when it has one (leaving `disabled` as it was) and otherwise from `disabled` (leaving `enabled` as it was) |
| Registry.DeleteKeepsPartition | wise_manager.py:138-146 | with distinct tokens, a deleted token is gone from both lists and the rest stay distinct |
| Registry.AddKeepsPartition | wise_manager.py:125-126 | adding an account with a new token keeps every token held once, in `disabled` |
| Registry.AddDuplicateBreaksPartition | wise_manager.py:125-126 | `add` does not check the token: adding an account whose token either list already holds leaves that token held twice |
| Registry.StateManager.constructor | wise_manager.py:121-123 | both lists start empty |
| Registry.StateManager.Add | wise_manager.py:125-126 | appends the account to the end of `disabled`, leaves `enabled` unchanged, and keeps tokens distinct when the token is new |
| Registry.StateManager.Enable | wise_manager.py:128-131 | the first disabled holder moves to the end of `enabled`; it fails exactly when `disabled` lacks the token, and then neither list changes; the accounts of the two lists together and token distinctness are preserved |
| Registry.StateManager.Disable | wise_manager.py:133-136 | the first enabled holder moves to the end of `disabled`; it fails exactly when `enabled` lacks the token, and then neither list changes; the accounts of the two lists together and token distinctness are preserved |
| Registry.StateManager.Delete | wise_manager.py:138-146 | removes the first holder from `enabled`, or else from `disabled`; nothing changes when neither list holds the token; with distinct tokens the token is gone afterwards |
| Sweep.FetchAmount | wise_manager.py:100-104 | the amount of the first fetched balance with the cached id; `None` exactly when the balance fetch raised or no balance has that id |
| Sweep.GetAmount | wise_manager.py:100-104 | fetching the balances and running the search loop gives exactly that amount or `None` |
| Sweep.SweepTransfer | wise_manager.py:153-157 | a transfer is posted exactly when the fetched amount exists and is positive, and then it moves that whole amount, in the balance currency, from the account's balance to its jar |
| Sweep.ActMoneyTransfer | wise_manager.py:148-160 | the result has the account's own name and token; its code is 201 when there is nothing to move or a step raises, and otherwise the status of that one transfer |
| Sweep.FailureCodeComesFromTransfer | wise_manager.py:153-157 | a code other than 201 is always the service's answer to a transfer of the account's whole positive balance |
| Sweep.SweepAll | wise_manager.py:171-172 | one result per account, the i-th about the i-th account |
| Sweep.Run | wise_manager.py:174-181 | as many results as enabled accounts, the i-th being the sweep of the i-th account |
| Sweep.RunIsOneMap | wise_manager.py:174-181 | the two halves concatenated equal the sweep mapped over the whole enabled list, and the first `n/2` results are the first half's |
| Sweep.RunCoversEnabled | wise_manager.py:174-181 | the results carry the enabled accounts' tokens and names in order: none missing, none repeated |
| Sweep.OneTransferPerFundedAccount | wise_manager.py:148-160 | a cycle posts exactly one transfer per account with a positive balance, in list order, each of that account's whole balance into its own jar |
| Sweep.FourAccountCycle | wise_manager.py:174-181 | with balances 0, 100, 0, 50 the two empty accounts report 201 without a transfer, the others report the service's answer to transfers of 100 and 50, and results keep list order |
| Server.Notice | server.py:58-71 | no mail exactly on 201; the authentication subject exactly on 401; otherwise the generic subject with a body carrying the code; every mail names the account |
| Server.NoticesStep | server.py:56-71 | routing one more result adds its mail, if any, at the end of the log |
| Server.CycleAligned | wise_manager.py:174-181 | the i-th result of a cycle carries the name and token of the i-th enabled account, which is all the router reads of an account |
| Server.OneMailPerDroppedAccount | server.py:56-71 | the results send one mail per account whose code is not 201, in order, each naming its account |
| Server.KeptConcat | server.py:56-59 | processing results in order: the accounts kept by a concatenation of results are those kept by each part, in order |
| Server.PassingStep | server.py:58-59 | a 201 result changes nothing and keeps the routing invariant |
| Server.FailingStep | server.py:60-71 | a failing result's token is still enabled when its turn comes, so `disable` finds it, and the routing invariant survives the move |
| Server.FailingMoveOrder | server.py:65-71 | with distinct tokens, `disable` moves exactly the account whose result is being routed, to the end of `disabled`, and the accounts still to be routed keep their places |
| Server.RouteStep | server.py:56-71 | one routed result keeps the loop invariant: `disable` did not raise, and the mail log and the lists advance by that result |
| Server.RouteResult | server.py:57-71 | the mail of the result; on 201 nothing changes, otherwise exactly `disable` on the result's token; the two lists keep the same accounts |
| Server.RouteNext | server.py:56-71 | one turn of the loop: `disable` did not raise, the log covers one more result and the invariant holds for it |
| Server.RouteAll | server.py:56-71 | for results aligned with the enabled accounts: the loop is never abandoned (`raised` is false) and `disable` never raises; the two lists keep the same accounts; with distinct tokens exactly the 201 accounts stay enabled in order, and the others are appended to `disabled` in order |
| Server.ExecuteStateManager | server.py:52-71 | the same for the results of one cycle over the enabled accounts: no `disable` raises, one mail per non-201 result in order, and with distinct tokens the accounts whose sweep reported 201 stay enabled while the others move to `disabled`, in order |
| Server.LoadedSound | db.py:44-53 | every account the loader returns is the rebuild of a stored record, with its name and token, and its ids resolve; there are no more of them than records |
| Server.LoadedComplete | db.py:44-53 | every stored record that can be rebuilt is among the accounts the loader returns |
| Server.FailedRecordDropped | db.py:49-52 | a record whose rebuild raises is skipped silently: with its token held by no other record, no loaded account has it |
| Server.LoadAll | db.py:44-53 | the loader's loop returns exactly the successful rebuilds, in stored order |
| Server.HydrateAtStartup | server.py:43-47 | every account the loader returns is appended to `disabled`, in stored order, after the accounts already there; `enabled` is unchanged |
| Server.AddNewAccount | server.py:82-98 | the registry gains the account, at the end of `disabled`, only when construction succeeds; on `InvalidAccessToken` neither list changes |
| Server.ChangeAccountStatus | server.py:105-108 | the route performs exactly `enable` or `disable` on the token, with that operation's outcome |
| Server.Lifecycle | wise_manager.py:120-146 | from empty: add, enable, disable and delete one account succeed, leave the registry empty, and enabling the token again fails |

## Left out

- HTTP transport (`requests.Session`, routes, headers, the 1 s and 2 s timeouts): every call is an answer of `Service`, and `None` stands for any exception.
- `get_uuid` and the idempotency header: the key is fetched from an external generator whose uniqueness the code cannot show, and the header does not change the status the model reports.
- The service model: answers are keyed by the request, not by time, so two identical accounts get identical answers within a model, and balances that change between calls are not captured.
- Concurrency of the process and thread pools: both are modelled as the sequential, order-preserving map whose results they collect. The process pool returns the thread pool's lazy `map` iterator from the worker process, and such an iterator cannot be pickled back to the parent; the model assumes the results arrive as the code evidently intends.
- Sweep.Run: the split point `int(len/2)` is modelled as integer division; the two agree for every list length below 2^53.
- Balances are `int`, as the code annotates them; the service's decimal amounts (and `> 0` on a fraction) are not modelled.
- Mail delivery (`email_sender.py`, SMTP) and the fixed recipient address: a mail is a subject and a body naming the account (and the code). The router passes the message text as the third argument of `send_mail`, which is its attachment file name, so a real send would try to open that text as a file and raise before `disable` runs. The model describes the routing the code evidently intends: the mail is logged and `disable` follows.
- Persistence (`db.py`): reading and writing the JSON file is not modelled. The stored records are a parameter of `Server.HydrateAtStartup`, and `add_new_account` saving the account before adding it is not modelled.
- `get_state`: it only serialises an account for persistence.
- `temp`: it only wraps the thread-pool map, so it is part of `Sweep.SweepAll`.
- The `repeat_every` timer, FastAPI routing, templates, `flash` and the session middleware: this is web plumbing. `change_account_status` is modelled with its query parameter restricted to `enable`/`disable`, as the route declares.
- Server.RouteAll: the exact final placement of the accounts is stated only when the enabled tokens are distinct. With a repeated token, `disable` moves the first holder, which may not be the account whose result is being routed; for that case only the absence of raises and the preservation of the accounts are proved. `Server.ExecuteStateManager` inherits the same limit.
- Concurrency between a cycle and the status route: a cycle is modelled as atomic with respect to `change_account_status`. The timer task runs on a worker thread while the web server serves the status route, so a `disable` through the route between `run()` and the end of the loop would make the loop's `disable` raise and abandon the remaining results; the model does not capture that interleaving.
- Registry uniqueness: `add` does not refuse a token already present, so `Partitioned` is not an invariant of the registry: it is preserved by `enable`, `disable` and `delete`, and by `add` only for a new token.
