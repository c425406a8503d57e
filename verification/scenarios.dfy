/**
 Concrete runs of the workflow: an empty inventory, a three-item inventory,
 a partially failing confirmation step, a mixed set of received offers, and
 an acquisition that stops at a failed login.
 */
module Scenarios {
  import opened Platform
  import opened Core
  import opened Sessions
  import opened Confirm

  const Partner: uint32 := 4242
  const Token: string := "tok"

  function SessionOfAlice(): Session
  {
    Session(1_700_000_000, "", "alice-identity")
  }

  function SessionOfBob(): Session
  {
    Session(1_700_000_000, "bob-key", "bob-identity")
  }

  /** An account whose only context is empty sends no offer and confirms nothing. */
  lemma EmptyInventorySendsNothing()
    ensures var r := InventoryReplies(Ok([AppStats(730, [2])]), _ => Ok([]), Ok(1), Ok([]), _ => true, 0);
            var l := HandleInventory(SessionOfAlice(), Partner, Token, r);
            l.requests == [ContextRef(730, 2)] && l.offer.None? && l.approval.None?
  {
    var r := InventoryReplies(Ok([AppStats(730, [2])]), _ => Ok([]), Ok(1), Ok([]), _ => true, 0);
    assert FetchAll([ContextRef(730, 2)], r.inventory) == [];
  }

  /**
   Three items in one context make one offer of three send-items to the
   partner, the third amount wrapped to 16 bits; offer id 12345 starts the
   confirmation step for bob's session.
   */
  lemma ThreeItemsMakeOneOffer()
    ensures var items := [InventoryItem(1, 730, 2, 1), InventoryItem(2, 730, 2, 5), InventoryItem(3, 730, 2, 0x1_0003)];
            var r := InventoryReplies(Ok([AppStats(730, [2])]), _ => Ok(items), Ok(12345), Ok([]), _ => true, 0);
            var l := HandleInventory(SessionOfBob(), Partner, Token, r);
            && l.offer.Some?
            && l.offer.value.partner == Partner
            && |l.offer.value.sendItems| == 3
            && l.offer.value.sendItems[2] == EconItem(3, 730, 2, 3)
            && l.approval.Some?
            && l.approval.value.secret == "bob-identity"
  {
    var items := [InventoryItem(1, 730, 2, 1), InventoryItem(2, 730, 2, 5), InventoryItem(3, 730, 2, 0x1_0003)];
    var r := InventoryReplies(Ok([AppStats(730, [2])]), _ => Ok(items), Ok(12345), Ok([]), _ => true, 0);
    assert FetchAll([ContextRef(730, 2)], r.inventory) == items;
  }

  /** The first of two confirmations fails to be answered; both are attempted and only the second is logged. */
  lemma FailedConfirmationDoesNotStopTheNext()
    ensures var cs := [Confirmation(1, 10, 111), Confirmation(2, 20, 222)];
            var a := ActionConfirm(SessionOfAlice(), Ok(cs), (c: Confirmation) => c.offerId != 111, 0);
            && |a.attempts| == 2
            && a.attempts[0] == Attempt(cs[0], "allow", false)
            && a.attempts[1] == Attempt(cs[1], "allow", true)
            && Confirmed(a.attempts) == [222]
  {
    var cs := [Confirmation(1, 10, 111), Confirmation(2, 20, 222)];
    var a := ActionConfirm(SessionOfAlice(), Ok(cs), (c: Confirmation) => c.offerId != 111, 0);
    assert a.attempts[1..][1..] == [];
  }

  /** A gift is accepted, an offer asking for an item is flagged, an accepted offer is skipped. */
  lemma MixedOffersAreTriaged()
    ensures var item := EconItem(7, 730, 2, 1);
            var offers := [TradeOffer(1, 9, Active, NoMethod, [], [item]),
                           TradeOffer(2, 9, Active, NoMethod, [item], []),
                           TradeOffer(3, 9, Accepted, NoMethod, [], [item])];
            Triage(offers, _ => true) == [Gift(1, true), Flagged(2), Skipped(3)]
  {
    var item := EconItem(7, 730, 2, 1);
    var offers := [TradeOffer(1, 9, Active, NoMethod, [], [item]),
                   TradeOffer(2, 9, Active, NoMethod, [item], []),
                   TradeOffer(3, 9, Accepted, NoMethod, [], [item])];
    var ds := Triage(offers, _ => true);
    assert ds[0] == Gift(1, true) && ds[1] == Flagged(2) && ds[2] == Skipped(3);
  }

  /** The second of three accounts fails to log in: one session is stored and the third account is never tried. */
  lemma LoginFailureAbortsAcquisition()
    ensures var accounts := [Account("alice", "pa", "sa", "ia"), Account("bob", "pb", "sb", "ib"), Account("carol", "pc", "sc", "ic")];
            var ok := LoginReplies(Ok(1_700_000_000), 1_700_000_000_000_000_000, true, Err);
            var bad := LoginReplies(Ok(1_700_000_000), 1_700_000_000_000_000_000, false, Err);
            var a := GetSessions(accounts, [ok, bad, ok]);
            && a.halt == Some(Panic)
            && |a.logins| == 2
            && Registry(a.writes) == map["alice" := Session(1_700_000_000, "", "ia")]
  {
    var accounts := [Account("alice", "pa", "sa", "ia"), Account("bob", "pb", "sb", "ib"), Account("carol", "pc", "sc", "ic")];
    var ok := LoginReplies(Ok(1_700_000_000), 1_700_000_000_000_000_000, true, Err);
    var bad := LoginReplies(Ok(1_700_000_000), 1_700_000_000_000_000_000, false, Err);
    FirstFailureStopsTheLoop(accounts, [ok, bad, ok], 1);
    var a := GetSessions(accounts, [ok, bad, ok]);
    assert a.writes == [Write("alice", Session(1_700_000_000, "", "ia"))];
  }
}
