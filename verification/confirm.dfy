/**
 The offers service of `confirm/service.go`: inventory liquidation,
 confirmation approval and inbound-offer triage, and the order in which the
 service runs them.
 */
module Confirm {
  import opened Platform
  import opened Core
  import opened Sessions

  // ---------------------------------------------------------------------------
  // Inventory liquidation
  // ---------------------------------------------------------------------------

  /** One application of the inventory summary, with its context ids in the order the loop visits them. */
  datatype AppStats = AppStats(appId: nat, contexts: seq<nat>)

  /** The arguments of one inventory fetch. */
  datatype ContextRef = ContextRef(appId: nat, contextId: nat)

  /** The platform's replies while one session is liquidated. */
  datatype InventoryReplies = InventoryReplies(
    appStats: Result<seq<AppStats>>,
    inventory: ContextRef -> Result<seq<InventoryItem>>,
    send: Result<nat>,                        // the offer id assigned on submission
    confirmations: Result<seq<Confirmation>>,
    answer: Confirmation -> bool,             // the answer call returned no error
    clock: int64)                             // local wall clock, Unix nanoseconds, while confirming

  /** The offer built from a session's inventory. */
  datatype OutgoingOffer = OutgoingOffer(sendItems: seq<EconItem>, partner: uint32, token: string)

  /** One answer call: the confirmation, the answer given, and whether the call succeeded. */
  datatype Attempt = Attempt(confirmation: Confirmation, answer: string, ok: bool)

  /** The confirmation step: the secret and synchronized time used for every call, and the answer calls. */
  datatype Approval = Approval(secret: string, time: int, attempts: seq<Attempt>)

  /** What liquidating one session did: fetches, send list, submitted offer, confirmation step. */
  datatype Liquidation = Liquidation(
    requests: seq<ContextRef>,
    sendItems: seq<EconItem>,
    offer: Option<OutgoingOffer>,
    approval: Option<Approval>)

  /** A listing whose call failed is used as Go's zero value, the empty list. */
  function Listed<T>(r: Result<seq<T>>): seq<T>
  {
    if r.Ok? then r.value else []
  }

  /** The send-item built for one inventory item. */
  function SendItemOf(item: InventoryItem): EconItem
  {
    EconItem(item.assetId, item.appId, item.contextId, Truncate16(item.amount))
  }

  /** Every item gives exactly one send-item, at the same position, with its ids and its amount mod 2^16. */
  function ToSendItems(items: seq<InventoryItem>): (r: seq<EconItem>)
    ensures |r| == |items|
    ensures forall i :: 0 <= i < |items| ==>
              && r[i].assetId == items[i].assetId
              && r[i].appId == items[i].appId
              && r[i].contextId == items[i].contextId
              && r[i].amount == items[i].amount % 0x1_0000
  {
    if |items| == 0 then [] else [SendItemOf(items[0])] + ToSendItems(items[1..])
  }

  lemma {:induction false} ToSendItemsAppend(a: seq<InventoryItem>, b: seq<InventoryItem>)
    ensures ToSendItems(a + b) == ToSendItems(a) + ToSendItems(b)
    decreases |a|
  {
    if |a| > 0 {
      assert (a + b)[1..] == a[1..] + b;
      ToSendItemsAppend(a[1..], b);
    }
  }

  /** The fetches for one application, one per context, in the order the loop visits them. */
  function AppContexts(appId: nat, contexts: seq<nat>): (r: seq<ContextRef>)
    ensures |r| == |contexts|
    ensures forall i :: 0 <= i < |contexts| ==> r[i] == ContextRef(appId, contexts[i])
  {
    if |contexts| == 0 then [] else [ContextRef(appId, contexts[0])] + AppContexts(appId, contexts[1..])
  }

  /** The number of contexts the summary reports, over all applications. */
  function ContextCount(apps: seq<AppStats>): nat
  {
    if |apps| == 0 then 0 else |apps[0].contexts| + ContextCount(apps[1..])
  }

  /**
   The fetches of the liquidation: exactly the (application, context) pairs of
   the summary, one per reported context, applications first, then contexts.
   */
  function Contexts(apps: seq<AppStats>): (r: seq<ContextRef>)
    ensures |r| == ContextCount(apps)
    ensures forall a, c :: 0 <= a < |apps| && 0 <= c < |apps[a].contexts| ==>
              ContextRef(apps[a].appId, apps[a].contexts[c]) in r
    ensures forall x :: x in r ==>
              exists a, c :: 0 <= a < |apps| && 0 <= c < |apps[a].contexts| && x == ContextRef(apps[a].appId, apps[a].contexts[c])
  {
    if |apps| == 0 then []
    else
      var first := AppContexts(apps[0].appId, apps[0].contexts);
      var rest := Contexts(apps[1..]);
      assert forall a :: 1 <= a < |apps| ==> apps[1..][a - 1] == apps[a];
      assert forall x :: x in first + rest ==>
               exists a, c :: 0 <= a < |apps| && 0 <= c < |apps[a].contexts| && x == ContextRef(apps[a].appId, apps[a].contexts[c])
      by {
        forall x | x in first + rest
          ensures exists a, c :: 0 <= a < |apps| && 0 <= c < |apps[a].contexts| && x == ContextRef(apps[a].appId, apps[a].contexts[c])
        {
          if x in first {
            var c :| 0 <= c < |first| && first[c] == x;
            assert x == ContextRef(apps[0].appId, apps[0].contexts[c]);
          } else {
            assert x in rest;
            var a', c :| 0 <= a' < |apps[1..]| && 0 <= c < |apps[1..][a'].contexts| && x == ContextRef(apps[1..][a'].appId, apps[1..][a'].contexts[c]);
            assert apps[1..][a'] == apps[a' + 1];
          }
        }
      }
      first + rest
  }

  /** Applications are visited in order: the fetches of a concatenated summary are the fetches of its parts, in order. */
  lemma {:induction false} ContextsAppend(a1: seq<AppStats>, a2: seq<AppStats>)
    ensures Contexts(a1 + a2) == Contexts(a1) + Contexts(a2)
    decreases |a1|
  {
    if |a1| == 0 {
      assert a1 + a2 == a2;
    } else {
      assert (a1 + a2)[0] == a1[0];
      assert (a1 + a2)[1..] == a1[1..] + a2;
      ContextsAppend(a1[1..], a2);
    }
  }

  /** The items every fetch returned, concatenated in fetch order; a failed fetch adds nothing. */
  function FetchAll(cs: seq<ContextRef>, inventory: ContextRef -> Result<seq<InventoryItem>>): (r: seq<InventoryItem>)
    ensures forall i, x :: 0 <= i < |cs| && x in Listed(inventory(cs[i])) ==> x in r
    ensures forall x :: x in r ==> exists i :: 0 <= i < |cs| && x in Listed(inventory(cs[i]))
  {
    if |cs| == 0 then []
    else
      var rest := FetchAll(cs[1..], inventory);
      assert forall i :: 1 <= i < |cs| ==> cs[1..][i - 1] == cs[i];
      Listed(inventory(cs[0])) + rest
  }

  lemma {:induction false} FetchAllAppend(c1: seq<ContextRef>, c2: seq<ContextRef>, inventory: ContextRef -> Result<seq<InventoryItem>>)
    ensures FetchAll(c1 + c2, inventory) == FetchAll(c1, inventory) + FetchAll(c2, inventory)
    decreases |c1|
  {
    if |c1| == 0 {
      assert c1 + c2 == c2;
    } else {
      assert (c1 + c2)[0] == c1[0];
      assert (c1 + c2)[1..] == c1[1..] + c2;
      FetchAllAppend(c1[1..], c2, inventory);
    }
  }

  /**
   A context whose fetch fails contributes no items and stops nothing: the
   items of the contexts before and after it are all collected.
   */
  lemma FailedFetchSkipsOnlyItsContext(
    before: seq<ContextRef>, c: ContextRef, after: seq<ContextRef>,
    inventory: ContextRef -> Result<seq<InventoryItem>>)
    requires inventory(c).Err?
    ensures FetchAll(before + [c] + after, inventory) == FetchAll(before, inventory) + FetchAll(after, inventory)
  {
    var tail := [c] + after;
    assert tail[0] == c && tail[1..] == after;
    assert FetchAll(tail, inventory) == FetchAll(after, inventory);
    assert before + [c] + after == before + tail;
    FetchAllAppend(before, tail, inventory);
  }

  /**
   The inner loops of the liquidation, over the contexts of one application:
   the conversion of everything fetched for that application, in fetch order.
   */
  function AppSendItems(appId: nat, contexts: seq<nat>, inventory: ContextRef -> Result<seq<InventoryItem>>): (r: seq<EconItem>)
    ensures r == ToSendItems(FetchAll(AppContexts(appId, contexts), inventory))
  {
    if |contexts| == 0 then []
    else
      var cs := AppContexts(appId, contexts);
      assert cs[1..] == AppContexts(appId, contexts[1..]);
      ToSendItemsAppend(Listed(inventory(cs[0])), FetchAll(cs[1..], inventory));
      ToSendItems(Listed(inventory(ContextRef(appId, contexts[0])))) + AppSendItems(appId, contexts[1..], inventory)
  }

  /**
   The nested loops of the liquidation: applications, then contexts, then
   items. The send list is the item-by-item conversion of everything fetched,
   in fetch order, so its length is the number of items fetched and its i-th
   entry comes from the i-th fetched item.
   */
  function SendList(apps: seq<AppStats>, inventory: ContextRef -> Result<seq<InventoryItem>>): (r: seq<EconItem>)
    ensures r == ToSendItems(FetchAll(Contexts(apps), inventory))
    ensures |r| == |FetchAll(Contexts(apps), inventory)|
  {
    if |apps| == 0 then []
    else
      var first := AppContexts(apps[0].appId, apps[0].contexts);
      FetchAllAppend(first, Contexts(apps[1..]), inventory);
      ToSendItemsAppend(FetchAll(first, inventory), FetchAll(Contexts(apps[1..]), inventory));
      AppSendItems(apps[0].appId, apps[0].contexts, inventory) + SendList(apps[1..], inventory)
  }

  // ---------------------------------------------------------------------------
  // Confirmation approval
  // ---------------------------------------------------------------------------

  const Allow: string := "allow"

  /** One answer call per confirmation, in listed order, whatever the earlier calls returned. */
  function AnswerAll(cs: seq<Confirmation>, answer: Confirmation -> bool): (r: seq<Attempt>)
    ensures |r| == |cs|
    ensures forall i :: 0 <= i < |cs| ==> r[i] == Attempt(cs[i], Allow, answer(cs[i]))
  {
    if |cs| == 0 then [] else [Attempt(cs[0], Allow, answer(cs[0]))] + AnswerAll(cs[1..], answer)
  }

  /**
   The confirmation step for a session: list the pending confirmations and
   answer each of them with "allow", using the session's identity secret and
   the local clock shifted by the session's time difference. A failed listing
   leaves nothing to answer.
   */
  function ActionConfirm(s: Session, confirmations: Result<seq<Confirmation>>, answer: Confirmation -> bool, clock: int64): (a: Approval)
    ensures a.secret == s.secretIdentity
    ensures a.time == Unix(clock + s.timeDiff)
    ensures |a.attempts| == |Listed(confirmations)|
    ensures forall i :: 0 <= i < |a.attempts| ==>
              a.attempts[i] == Attempt(Listed(confirmations)[i], Allow, answer(Listed(confirmations)[i]))
  {
    Approval(s.secretIdentity, Unix(clock + s.timeDiff), AnswerAll(Listed(confirmations), answer))
  }

  /** The offer ids logged as confirmed: exactly those whose answer call succeeded. */
  function Confirmed(attempts: seq<Attempt>): (r: seq<nat>)
    ensures |r| <= |attempts|
    ensures forall id :: id in r <==>
              exists i :: 0 <= i < |attempts| && attempts[i].ok && attempts[i].confirmation.offerId == id
  {
    if |attempts| == 0 then []
    else
      var rest := Confirmed(attempts[1..]);
      assert forall i :: 1 <= i < |attempts| ==> attempts[1..][i - 1] == attempts[i];
      if attempts[0].ok then [attempts[0].confirmation.offerId] + rest else rest
  }

  /**
   The time the confirmation codes are signed with is the local clock pushed
   forward by the server time read as nanoseconds (the stored time difference),
   not by the offset between server and local clocks.
   */
  lemma ApprovalClockShiftsByServerTimeNanos(
    acc: Account, login: LoginReplies, confirmations: Result<seq<Confirmation>>, answer: Confirmation -> bool, clock: int64)
    requires login.timeTip.Ok? && login.timeTip.value >= 0
    ensures var t := ActionConfirm(SessionFor(acc, login), confirmations, answer, clock).time;
            var shift := login.timeTip.value / NanosPerSecond;
            Unix(clock) + shift <= t <= Unix(clock) + shift + 1
  {
    var T := login.timeTip.value;
    var u := Unix(clock);
    var x := Unix(clock + T);
    var shift := T / NanosPerSecond;
    assert shift * NanosPerSecond <= T < (shift + 1) * NanosPerSecond;
    assert (u + shift) * NanosPerSecond <= clock + T < (u + shift + 2) * NanosPerSecond;
  }

  // ---------------------------------------------------------------------------
  // Liquidation of one session
  // ---------------------------------------------------------------------------

  /**
   Liquidate one session. A failed summary ends the step with nothing done.
   Otherwise every reported context is fetched and its items converted; an
   offer to the partner is submitted only for a non-empty send list, and the
   confirmation step runs only when the submission succeeded with a positive
   offer id.
   */
  function HandleInventory(s: Session, partner: uint32, token: string, r: InventoryReplies): (l: Liquidation)
    ensures r.appStats.Err? ==> l == Liquidation([], [], None, None)
    ensures r.appStats.Ok? ==> l.requests == Contexts(r.appStats.value)
    ensures l.sendItems == ToSendItems(FetchAll(l.requests, r.inventory))
    ensures l.offer.Some? <==> r.appStats.Ok? && |FetchAll(l.requests, r.inventory)| > 0
    ensures l.offer.Some? ==> l.offer.value == OutgoingOffer(l.sendItems, partner, token)
    ensures l.approval.Some? <==> l.offer.Some? && r.send.Ok? && r.send.value > 0
    ensures l.approval.Some? ==> l.approval.value == ActionConfirm(s, r.confirmations, r.answer, r.clock)
  {
    match r.appStats
    case Err => Liquidation([], [], None, None)
    case Ok(apps) =>
      var items := SendList(apps, r.inventory);
      if |items| == 0 then Liquidation(Contexts(apps), items, None, None)
      else
        var offer := OutgoingOffer(items, partner, token);
        if r.send.Err? || r.send.value == 0 then Liquidation(Contexts(apps), items, Some(offer), None)
        else Liquidation(Contexts(apps), items, Some(offer), Some(ActionConfirm(s, r.confirmations, r.answer, r.clock)))
  }

  // ---------------------------------------------------------------------------
  // Inbound triage
  // ---------------------------------------------------------------------------

  /** The verdict on one received offer; a gift records whether the accept call succeeded. */
  datatype Decision = Skipped(offerId: nat) | Gift(offerId: nat, accepted: bool) | Flagged(offerId: nat)

  /** Offers a human handles in the mobile authenticator, or no longer open, are left alone. */
  predicate Examined(o: TradeOffer)
  {
    o.state == Active && o.confirmationMethod != MobileApp
  }

  /** An examined offer that asks for nothing in return. */
  predicate IsGift(o: TradeOffer)
  {
    Examined(o) && |o.sendItems| == 0
  }

  /** The verdict on one offer: skip unless examined, accept a gift, flag anything else. */
  function Classify(o: TradeOffer, accept: nat -> bool): (d: Decision)
    ensures d.offerId == o.id
    ensures d.Skipped? <==> !Examined(o)
    ensures d.Gift? <==> IsGift(o)
    ensures d.Flagged? <==> Examined(o) && |o.sendItems| > 0
    ensures d.Gift? ==> d.accepted == accept(o.id)
  {
    if o.state != Active || o.confirmationMethod == MobileApp then Skipped(o.id)
    else if |o.sendItems| == 0 then Gift(o.id, accept(o.id))
    else Flagged(o.id)
  }

  /**
   Triage of the received offers, one decision per offer in listed order:
   gifts are accepted, other examined offers are flagged and never accepted,
   the rest are skipped; an accept failure changes nothing else.
   */
  function Triage(offers: seq<TradeOffer>, accept: nat -> bool): (ds: seq<Decision>)
    ensures |ds| == |offers|
    ensures forall i :: 0 <= i < |offers| ==> ds[i].offerId == offers[i].id
    ensures forall i :: 0 <= i < |offers| ==> (ds[i].Gift? <==> IsGift(offers[i]))
    ensures forall i :: 0 <= i < |offers| ==> (ds[i].Flagged? <==> Examined(offers[i]) && |offers[i].sendItems| > 0)
    ensures forall i :: 0 <= i < |offers| ==> (ds[i].Skipped? <==> !Examined(offers[i]))
    ensures forall i :: 0 <= i < |offers| && ds[i].Gift? ==> ds[i].accepted == accept(offers[i].id)
  {
    if |offers| == 0 then [] else [Classify(offers[0], accept)] + Triage(offers[1..], accept)
  }

  /** The offer ids the triage called accept on: exactly those of gift decisions. */
  function AcceptCalls(ds: seq<Decision>): (r: seq<nat>)
    ensures forall id :: id in r <==> exists i :: 0 <= i < |ds| && ds[i].Gift? && ds[i].offerId == id
  {
    if |ds| == 0 then []
    else
      var rest := AcceptCalls(ds[1..]);
      assert forall i :: 1 <= i < |ds| ==> ds[1..][i - 1] == ds[i];
      if ds[0].Gift? then [ds[0].offerId] + rest else rest
  }

  /**
   With distinct offer ids, accept is called on an offer if and only if it is
   a gift; a flagged offer is never accepted.
   */
  lemma AcceptedIffGift(offers: seq<TradeOffer>, accept: nat -> bool, i: nat)
    requires i < |offers|
    requires forall j, k :: 0 <= j < k < |offers| ==> offers[j].id != offers[k].id
    ensures offers[i].id in AcceptCalls(Triage(offers, accept)) <==> IsGift(offers[i])
  {
    var ds := Triage(offers, accept);
    if offers[i].id in AcceptCalls(ds) {
      var j :| 0 <= j < |ds| && ds[j].Gift? && ds[j].offerId == offers[i].id;
      assert j == i;
    }
  }

  /** The platform's replies during the triage of the monitoring account. */
  datatype TriageReplies = TriageReplies(
    login: LoginReplies,
    offers: Result<seq<TradeOffer>>,
    accept: nat -> bool)

  /**
   How the triage step ended. `NilTimeTip` and `NilOffers` are the panics of
   dereferencing the nil reply of a failed time fetch or offer listing, and
   `LoginFailed` the explicit panic after a failed login; `NoApiKey` is the
   early return after a failed API-key request.
   */
  datatype TriageRun =
    | NilTimeTip
    | LoginFailed(login: LoginCall)
    | NoApiKey(login: LoginCall)
    | NilOffers(login: LoginCall)
    | Triaged(login: LoginCall, decisions: seq<Decision>)
  {
    predicate Halted()
    {
      NilTimeTip? || LoginFailed? || NilOffers?
    }
  }

  /**
   Triage of the offers received by the monitoring account. Offers are
   examined only after a successful time fetch, login, API-key request and
   offer listing; a failed API-key request returns without examining any offer.
   */
  function HandleReceiveTrades(m: MainAccount, r: TriageReplies): (t: TriageRun)
    ensures t.NilTimeTip? <==> r.login.timeTip.Err?
    ensures !t.NilTimeTip? ==> t.login == LoginFor(m.username, m.password, m.sharedSecret, r.login)
    ensures t.Triaged? <==> Healthy(r.login) && r.login.apiKey.Ok? && r.offers.Ok?
    ensures t.Triaged? ==> t.decisions == Triage(r.offers.value, r.accept)
    ensures t.NoApiKey? <==> Healthy(r.login) && r.login.apiKey.Err?
    ensures t.Halted() <==> !Healthy(r.login) || (r.login.apiKey.Ok? && r.offers.Err?)
  {
    if r.login.timeTip.Err? then NilTimeTip
    else
      var call := LoginFor(m.username, m.password, m.sharedSecret, r.login);
      if !r.login.login then LoginFailed(call)
      else if r.login.apiKey.Err? then NoApiKey(call)
      else if r.offers.Err? then NilOffers(call)
      else Triaged(call, Triage(r.offers.value, r.accept))
  }

  // ---------------------------------------------------------------------------
  // The service
  // ---------------------------------------------------------------------------

  /** `order` visits every registry key exactly once, as the registry's iteration does. */
  predicate Enumerates(order: seq<string>, registry: map<string, Session>)
  {
    && (forall i :: 0 <= i < |order| ==> order[i] in registry)
    && (forall u :: u in registry ==> u in order)
    && (forall i, j :: 0 <= i < j < |order| ==> order[i] != order[j])
  }

  lemma {:induction false} DistinctCardinality(order: seq<string>)
    requires forall i, j :: 0 <= i < j < |order| ==> order[i] != order[j]
    ensures |set i | 0 <= i < |order| :: order[i]| == |order|
    decreases |order|
  {
    if |order| > 0 {
      var prefix := order[..|order| - 1];
      DistinctCardinality(prefix);
      var last := order[|order| - 1];
      var s := set i | 0 <= i < |order| :: order[i];
      var sp := set i | 0 <= i < |prefix| :: prefix[i];
      assert s == sp + {last} by {
        forall x | x in s ensures x in sp + {last} {
          var i :| 0 <= i < |order| && order[i] == x;
          if i < |order| - 1 { assert prefix[i] == x; }
        }
      }
      assert last !in sp;
    }
  }

  function LiquidateAll(cfg: Config, registry: map<string, Session>, order: seq<string>, replies: string -> InventoryReplies): (ls: seq<Liquidation>)
    requires forall i :: 0 <= i < |order| ==> order[i] in registry
    ensures |ls| == |order|
    ensures forall i :: 0 <= i < |order| ==>
              ls[i] == HandleInventory(registry[order[i]], cfg.partner, cfg.token, replies(order[i]))
  {
    if |order| == 0 then []
    else
      [HandleInventory(registry[order[0]], cfg.partner, cfg.token, replies(order[0]))]
      + LiquidateAll(cfg, registry, order[1..], replies)
  }

  /** The service run: each liquidation in registry order, the triage, and whether the host was told to stop. */
  datatype ServiceRun = ServiceRun(liquidations: seq<Liquidation>, triage: TriageRun, stopped: bool)

  /**
   The service: every registered session is liquidated exactly once, then the
   triage runs once, then the host is told to stop, unless the triage panicked.
   */
  function Start(cfg: Config, registry: map<string, Session>, order: seq<string>,
                 replies: string -> InventoryReplies, triage: TriageReplies): (run: ServiceRun)
    requires Enumerates(order, registry)
    ensures |run.liquidations| == |order| == |registry|
    ensures forall i :: 0 <= i < |order| ==>
              run.liquidations[i] == HandleInventory(registry[order[i]], cfg.partner, cfg.token, replies(order[i]))
    ensures forall i :: 0 <= i < |run.liquidations| && run.liquidations[i].offer.Some? ==>
              run.liquidations[i].offer.value.partner == cfg.partner
    ensures run.triage == HandleReceiveTrades(cfg.mainAccount, triage)
    ensures run.stopped <==> !run.triage.Halted()
  {
    DistinctCardinality(order);
    assert registry.Keys == set i | 0 <= i < |order| :: order[i];
    var t := HandleReceiveTrades(cfg.mainAccount, triage);
    ServiceRun(LiquidateAll(cfg, registry, order, replies), t, !t.Halted())
  }
}
