/**
 Session acquisition: the `GetSessions` method registered in `main.go`.

 Accounts are processed in configuration order. For each one the server time
 is fetched, the account logs in, an API key is requested and the session is
 written to the registry under the account's username. A failed time fetch
 ends the process (`Fatal`), a failed login panics; a failed API-key request
 is only logged.
 */
module Sessions {
  import opened Platform
  import opened Core

  /** The platform's replies during one iteration of the acquisition loop. */
  datatype LoginReplies = LoginReplies(
    timeTip: Result<int64>,   // the server's Unix time, in seconds
    clock: int64,             // local wall clock, Unix nanoseconds, when the offset is computed
    login: bool,              // the login call returned no error
    apiKey: Result<string>)

  /** An iteration that neither stops the process nor panics. */
  predicate Healthy(r: LoginReplies)
  {
    r.timeTip.Ok? && r.login
  }

  /**
   The offset handed to login: server seconds minus local seconds, in 64-bit
   arithmetic, passed on as a raw duration without any unit conversion.
   */
  function LoginOffset(serverTime: int64, clock: int64): (offset: int64)
    ensures -0x8000_0000_0000_0000 <= serverTime - Unix(clock) < 0x8000_0000_0000_0000 ==>
              offset == serverTime - Unix(clock)
    ensures (serverTime - Unix(clock) - offset) % 0x1_0000_0000_0000_0000 == 0
  {
    Wrap64(serverTime - Unix(clock))
  }

  /** The login call for one account: its own credentials and the offset computed from this iteration's replies. */
  function LoginFor(username: string, password: string, sharedSecret: string, r: LoginReplies): (c: LoginCall)
    requires r.timeTip.Ok?
    ensures c.username == username && c.password == password && c.sharedSecret == sharedSecret
    ensures -0x8000_0000_0000_0000 <= r.timeTip.value - Unix(r.clock) < 0x8000_0000_0000_0000 ==>
              c.offset == r.timeTip.value - Unix(r.clock)
  {
    LoginCall(username, password, sharedSecret, LoginOffset(r.timeTip.value, r.clock))
  }

  /** The API key kept in the session: Go's zero value, the empty string, when the request failed. */
  function KeyOrEmpty(r: Result<string>): (key: string)
    ensures r.Err? ==> key == ""
    ensures r.Ok? ==> key == r.value
  {
    if r.Ok? then r.value else ""
  }

  /**
   The record stored for an account: the server time itself as time
   difference, the account's identity secret, and the API key or, when the key
   request failed, the empty string.
   */
  function SessionFor(a: Account, r: LoginReplies): (s: Session)
    requires r.timeTip.Ok?
    ensures s.timeDiff == r.timeTip.value
    ensures s.secretIdentity == a.identitySecret
    ensures r.apiKey.Err? ==> s.webApiKey == ""
    ensures r.apiKey.Ok? ==> s.webApiKey == r.apiKey.value
  {
    Session(r.timeTip.value, KeyOrEmpty(r.apiKey), a.identitySecret)
  }

  /** How the loop ended early: `Fatal` exits the process, `Panic` unwinds it. */
  datatype Halt = Fatal | Panic

  /** One write to the session registry. */
  datatype Write = Write(username: string, session: Session)

  /** The trace of the loop: login calls made, registry writes, and how it ended. */
  datatype Acquisition = Acquisition(logins: seq<LoginCall>, writes: seq<Write>, halt: Option<Halt>)

  /**
   The acquisition loop. `replies[i]` answers the calls made for `accounts[i]`.
   The i-th write, if any, is account i's session; the loop stops at the first
   unhealthy iteration, after that account's login call only when the time
   fetch succeeded.
   */
  function GetSessions(accounts: seq<Account>, replies: seq<LoginReplies>): (a: Acquisition)
    requires |replies| == |accounts|
    ensures |a.writes| <= |accounts|
    ensures forall i :: 0 <= i < |a.writes| ==>
              Healthy(replies[i]) && a.writes[i] == Write(accounts[i].username, SessionFor(accounts[i], replies[i]))
    ensures a.halt.None? <==> |a.writes| == |accounts|
    ensures a.halt.Some? ==> !Healthy(replies[|a.writes|])
    ensures a.halt == Some(Fatal) <==> |a.writes| < |accounts| && replies[|a.writes|].timeTip.Err?
    ensures a.halt == Some(Panic) <==> |a.writes| < |accounts| && replies[|a.writes|].timeTip.Ok? && !replies[|a.writes|].login
    ensures |a.logins| == |a.writes| + (if a.halt == Some(Panic) then 1 else 0)
    ensures forall i :: 0 <= i < |a.logins| ==>
              replies[i].timeTip.Ok? &&
              a.logins[i] == LoginFor(accounts[i].username, accounts[i].password, accounts[i].sharedSecret, replies[i])
    decreases |accounts|
  {
    if |accounts| == 0 then Acquisition([], [], None)
    else
      var acc := accounts[0];
      var r := replies[0];
      if r.timeTip.Err? then Acquisition([], [], Some(Fatal))
      else
        var call := LoginFor(acc.username, acc.password, acc.sharedSecret, r);
        if !r.login then Acquisition([call], [], Some(Panic))
        else
          var rest := GetSessions(accounts[1..], replies[1..]);
          Acquisition([call] + rest.logins, [Write(acc.username, SessionFor(acc, r))] + rest.writes, rest.halt)
  }

  /** The session registry after a sequence of writes; a later write to a key replaces an earlier one. */
  function Registry(writes: seq<Write>): (m: map<string, Session>)
    ensures m.Keys == set i | 0 <= i < |writes| :: writes[i].username
    decreases |writes|
  {
    if |writes| == 0 then map[]
    else
      var last := writes[|writes| - 1];
      var m0 := Registry(writes[..|writes| - 1]);
      assert forall i :: 0 <= i < |writes| - 1 ==> writes[..|writes| - 1][i] == writes[i];
      m0[last.username := last.session]
  }

  /** The registry holds, for each username, the session of the last write to it. */
  lemma {:induction false} RegistryLookup(writes: seq<Write>, i: nat)
    requires i < |writes|
    requires forall j :: i < j < |writes| ==> writes[j].username != writes[i].username
    ensures writes[i].username in Registry(writes)
    ensures Registry(writes)[writes[i].username] == writes[i].session
    decreases |writes|
  {
    if i < |writes| - 1 {
      var prefix := writes[..|writes| - 1];
      assert prefix[i] == writes[i];
      RegistryLookup(prefix, i);
    }
  }

  predicate DistinctUsernames(accounts: seq<Account>)
  {
    forall i, j :: 0 <= i < j < |accounts| ==> accounts[i].username != accounts[j].username
  }

  /** Distinct keys written make a registry with one entry per write. */
  lemma {:induction false} RegistrySize(writes: seq<Write>)
    requires forall i, j :: 0 <= i < j < |writes| ==> writes[i].username != writes[j].username
    ensures |Registry(writes)| == |writes|
    decreases |writes|
  {
    if |writes| > 0 {
      var prefix := writes[..|writes| - 1];
      RegistrySize(prefix);
      var last := writes[|writes| - 1];
      assert last.username !in Registry(prefix);
    }
  }

  /**
   A run in which every time fetch and every login succeeds registers every
   configured account, under its own username, with its own identity secret;
   with distinct usernames the registry has one entry per account.
   */
  lemma CompleteRunRegistersEveryAccount(accounts: seq<Account>, replies: seq<LoginReplies>)
    requires |replies| == |accounts|
    requires forall i :: 0 <= i < |replies| ==> Healthy(replies[i])
    requires DistinctUsernames(accounts)
    ensures GetSessions(accounts, replies).halt.None?
    ensures |Registry(GetSessions(accounts, replies).writes)| == |accounts|
    ensures forall i :: 0 <= i < |accounts| ==>
              accounts[i].username in Registry(GetSessions(accounts, replies).writes) &&
              Registry(GetSessions(accounts, replies).writes)[accounts[i].username] == SessionFor(accounts[i], replies[i])
  {
    var a := GetSessions(accounts, replies);
    var m := Registry(a.writes);
    assert a.halt.None?;
    assert |a.writes| == |accounts|;
    RegistrySize(a.writes);
    forall i | 0 <= i < |accounts|
      ensures accounts[i].username in m && m[accounts[i].username] == SessionFor(accounts[i], replies[i])
    {
      RegistryLookup(a.writes, i);
    }
  }

  /**
   The first failing iteration ends the loop: no later account logs in or is
   registered, and the failing account itself is never registered.
   */
  lemma FirstFailureStopsTheLoop(accounts: seq<Account>, replies: seq<LoginReplies>, k: nat)
    requires |replies| == |accounts|
    requires k < |accounts| && !Healthy(replies[k])
    requires forall i :: 0 <= i < k ==> Healthy(replies[i])
    ensures |GetSessions(accounts, replies).writes| == k
    ensures |GetSessions(accounts, replies).logins| == if replies[k].timeTip.Ok? then k + 1 else k
    ensures forall i :: k <= i < |accounts| && (forall j :: 0 <= j < k ==> accounts[j].username != accounts[i].username) ==>
              accounts[i].username !in Registry(GetSessions(accounts, replies).writes)
  {
    var a := GetSessions(accounts, replies);
    assert |a.writes| == k;
  }

  /**
   The stored time difference is the server time, not the offset given to
   login: the two agree exactly when the local clock reads second zero.
   */
  lemma StoredTimeDiffIsServerTime(a: Account, r: LoginReplies)
    requires r.timeTip.Ok?
    ensures SessionFor(a, r).timeDiff == r.timeTip.value
    ensures SessionFor(a, r).timeDiff == LoginFor(a.username, a.password, a.sharedSecret, r).offset <==> Unix(r.clock) == 0
  {
    var s := r.timeTip.value;
    var u := Unix(r.clock);
    var off := LoginOffset(s, r.clock);
    assert -10_000_000_000 < u < 10_000_000_000;
    assert ((s - u) - off) % 0x1_0000_0000_0000_0000 == 0;
    if off == s {
      assert (-u) % 0x1_0000_0000_0000_0000 == 0;
    }
  }
}
