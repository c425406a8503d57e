# steam-sender: a Dafny model of the trade-automation workflow

The program logs in a list of trading-platform accounts, sends every item of
each account to one fixed partner in a single trade offer, approves the
confirmations that offer creates, and then triages the offers received by a
separate monitoring account: gifts are accepted, everything else is flagged.

The model keeps the decision rules and treats every platform call as an input.
A call's reply is a `Result`: `Ok(value)` when the call returned no error,
`Err` when it did. Each operation is a pure function from the configuration
and the replies to a record of what was done: login calls, registry writes,
fetches, the offer submitted, answer calls, and triage decisions.

Modules follow the source files:

- `Platform` (`platform.dfy`): the library's values the workflow sees (items,
  confirmations, received offers, login arguments) and the machine-integer
  conversions the code applies: `uint16(n)`, `int64` subtraction and
  `Time.Unix()`.
- `Core` (`core.dfy`): the account, configuration and session records of `core/core.go`.
- `Sessions` (`sessions.dfy`): the `GetSessions` loop of `main.go` and the session registry it fills.
- `Confirm` (`confirm.dfy`): `handleInventory`, `actionConfirm`,
  `handleReceiveTrades` and the order of steps in `Start` of `confirm/service.go`.
- `Scenarios` (`scenarios.dfy`): concrete runs.

Behaviour the model keeps on purpose:

- The login offset is server seconds minus local seconds, wrapped to 64
  bits. It is passed on as a raw duration with no unit conversion
  (`main.go:67`).
- The session's `TimeDiff` is the server time itself, not that offset
  (`main.go:80`). The confirmation calls sign with `now + TimeDiff`. This
  pushes the local clock forward by the server time read as *nanoseconds*
  (about 1.7 s), whatever the real clock offset is.
  `Confirm.ApprovalClockShiftsByServerTimeNanos` states this.
- Item amounts are cut to 16 bits (`uint16(item.Amount)`). An amount of
  65539 is sent as 3.
- A failed API-key request is harmless during acquisition, but during triage
  it returns early.
- When the code logs an error and then goes on using the reply, the model uses
  Go's zero value for that reply. A failed inventory or confirmation listing
  gives an empty list, and a failed API-key request gives the empty string.
  For a failed time fetch or offer listing during triage, the reply is a nil
  pointer. Reading its fields panics (`TriageRun.NilTimeTip`,
  `TriageRun.NilOffers`). This assumes the library returns a nil pointer
  alongside an error, as Go convention has. The library is not part of this
  model.

## Model

| member | source | states |
|---|---|---|
| Platform.Truncate16 | confirm/service.go:78 | the 16-bit amount equals the original below 2^16 and is congruent to it modulo 2^16 |
| Platform.Wrap64 | main.go:67 | int64 subtraction: exact when the difference fits in 64 bits, otherwise congruent modulo 2^64 and in range |
| Platform.Unix | main.go:67 | `Time.Unix()` is the whole second containing the instant, rounded down |
| Sessions.LoginOffset | main.go:67 | the login offset is server seconds minus local seconds, exact when it fits in 64 bits and wrapped modulo 2^64 otherwise |
| Sessions.LoginFor | main.go:63-68 | login receives the account's own username, password and shared secret, and the server-minus-local offset in seconds, cast directly to a duration |
| Sessions.KeyOrEmpty | main.go:73-77 | a failed API-key request leaves the key empty; a successful one keeps the returned key |
| Sessions.SessionFor | main.go:78-83 | the stored session has the server time as time difference, the account's identity secret, and the API key, empty when the key request failed |
| Sessions.GetSessions | main.go:52-86 | accounts run in configuration order; the i-th registry write is account i's username with its own session; the first failed time fetch (Fatal) or failed login (Panic) ends the loop; login call i carries account i's username, password, shared secret and the wrapped server-minus-local offset; a failed time fetch makes no login call |
| Sessions.Registry | main.go:84 | the registry's keys are exactly the usernames written |
| Sessions.RegistryLookup | main.go:84 | a username maps to the session of its last write |
| Sessions.RegistrySize | main.go:84 | writes under distinct usernames give one registry entry per write |
| Sessions.CompleteRunRegistersEveryAccount | main.go:52-86 | when every time fetch and login succeeds, the loop completes, and with distinct usernames the registry has one entry per account holding that account's session (identity secret, server time, API key or "") |
| Sessions.FirstFailureStopsTheLoop | main.go:52-72 | when account k is the first to fail, exactly k sessions are stored. Login calls number k+1 after a failed login and k after a failed time fetch. No later account, and not account k, ends up in the registry unless its username was already registered |
| Sessions.StoredTimeDiffIsServerTime | main.go:63-80 | the stored time difference is the server time, and it equals the login offset exactly when the local clock reads second zero |
| Confirm.ToSendItems | confirm/service.go:73-80 | each fetched item yields exactly one send-item at the same position, with the same asset, app and context ids and the amount mod 2^16 |
| Confirm.AppContexts | confirm/service.go:67-68 | one fetch per context of an application, in the order the loop visits them, with that application's id |
| Confirm.Contexts | confirm/service.go:66-68 | exactly the summary's (application, context) pairs are fetched: every pair is fetched, nothing else is, and the number of fetches equals the number of contexts reported |
| Confirm.ContextsAppend | confirm/service.go:66-68 | applications are visited one after another: the fetches for a concatenated summary are the fetches of its first part followed by those of its second |
| Confirm.FetchAll | confirm/service.go:68-73 | an item is collected iff some visited context's fetch returned it; a failed fetch returns nothing |
| Confirm.FailedFetchSkipsOnlyItsContext | confirm/service.go:68-71 | a failed context fetch contributes no items, and the items of every context before and after it are still collected |
| Confirm.AppSendItems | confirm/service.go:67-83 | the context and item loops for one application build the item-wise conversion of that application's fetches, in fetch order |
| Confirm.SendList | confirm/service.go:66-84 | the nested app/context/item loops build exactly the item-wise conversion of the concatenated fetches, so the send list is as long as the total number of items fetched |
| Confirm.AnswerAll | confirm/service.go:113-127 | one answer call per confirmation, in listed order, each with "allow", whatever the earlier calls returned |
| Confirm.ActionConfirm | confirm/service.go:103-128 | the confirmation step uses the session's identity secret and `Unix(now + TimeDiff)`, and answers every listed confirmation, or none when the listing failed |
| Confirm.Confirmed | confirm/service.go:117-125 | an offer id is logged as confirmed iff some answer call for it succeeded |
| Confirm.ApprovalClockShiftsByServerTimeNanos | confirm/service.go:104-119 | for a session stored by the acquisition loop, the signing time is the local second plus server-time/10^9 seconds (rounded up by at most one), not the clock offset |
| Confirm.HandleInventory | confirm/service.go:58-101 | a failed summary does nothing. Otherwise every context is fetched and the send list is the converted fetch. An offer to the configured partner and token is built iff the send list is non-empty. Confirmation runs iff that offer was submitted without error and got a positive id |
| Confirm.Classify | confirm/service.go:167-178 | one offer is skipped iff it is not active or is mobile-confirmed, accepted as a gift iff it is examined and asks for nothing, and flagged iff it is examined and asks for items; a gift carries its accept outcome |
| Confirm.Triage | confirm/service.go:164-179 | one decision per received offer, in order. Gift iff active, not mobile-confirmed and asking for nothing. Flagged iff active, not mobile and asking for items. Skipped iff not active or mobile-confirmed. A gift records its own accept outcome, which changes no other decision |
| Confirm.AcceptCalls | confirm/service.go:170-176 | accept is called on an offer id iff some decision for it is a gift |
| Confirm.AcceptedIffGift | confirm/service.go:164-179 | with distinct offer ids, accept is called on an offer iff it is a gift, so a flagged offer is never accepted |
| Confirm.HandleReceiveTrades | confirm/service.go:130-179 | the monitoring account logs in with its own credentials and the wrapped offset. Offers are triaged iff time fetch, login, API key and listing all succeed. A failed API-key request returns with nothing examined. A failed time fetch, login or listing panics |
| Confirm.LiquidateAll | confirm/service.go:36-41 | one liquidation per visited registry key, in visiting order, with that key's session |
| Confirm.Start | confirm/service.go:31-48 | every registered session is liquidated exactly once, every offer goes to the configured partner, triage then runs once, and the host is told to stop iff triage did not panic |
| Scenarios.EmptyInventorySendsNothing | confirm/service.go:85-100 | an account with only empty contexts submits no offer and confirms nothing |
| Scenarios.ThreeItemsMakeOneOffer | confirm/service.go:73-99 | three items in bob's one context make one three-item offer to the partner (amount 65539 sent as 3), and offer id 12345 starts confirmation with bob's identity secret |
| Scenarios.FailedConfirmationDoesNotStopTheNext | confirm/service.go:113-127 | with confirmations for offers 111 and 222 where 111 fails, both are answered and only 222 is logged |
| Scenarios.MixedOffersAreTriaged | confirm/service.go:164-179 | a gift is accepted, an offer asking for an item is flagged, an already accepted offer is skipped |
| Scenarios.LoginFailureAbortsAcquisition | main.go:52-84 | when the second of three logins fails, only the first account is registered and the third is never tried |

## Left out

- The platform library is left out: login, time fetch, inventory and
  app-stats fetches, offer submission, confirmation listing and answering,
  accept, SteamID parsing, and code cryptography. Each call is an input.
  Per-item replies are functions of the call's arguments: the context for an
  inventory fetch, the confirmation for an answer, the offer id for an accept.
- The library session handle (`Session.Session`) is not in the record.
  Replies for a registered session are supplied per registry key.
- HTTP clients and network I/O are left out.
- Pacing sleeps are left out; they do not change what is called or in which order.
- The wall clock is left out. Each operation takes one clock reading as a
  parameter, in Unix nanoseconds. The source reads the clock separately for
  the listing and for each answer call, seconds apart; the model uses one
  reading for all of them.
- `Time.Add` saturation on overflow is left out: `now + TimeDiff` is unbounded.
- Signal handling, the cancellation goroutine, the host framework's start
  and stop machinery, and the process exit code are left out. A `Fatal` or
  `Panic` ends the modelled run; whether the host framework would recover a
  panic is not part of this model.
- The registry's iteration order is left unspecified. `Start` takes the
  visiting order as a parameter, required to list every key exactly once.
  A `Range` error is only logged, so it changes nothing in the model.
- Logging is left out. Only the "Confirm action" log (`Confirm.Confirmed`) is
  kept, and gift versus flagged appears as triage decisions.
- Item names, read only for a log line, are not modelled. So is a missing
  item description, which that log line would dereference.
- Configuration loading, flag parsing and the `core/core.go` getters are left out.
- Repeated usernames: a later write replaces an earlier one, as a keyed
  store does. The size statement of
  `CompleteRunRegistersEveryAccount` assumes distinct usernames.
