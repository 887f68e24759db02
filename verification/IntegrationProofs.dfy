// Credentials match status in every reachable state, refresh passes add up, refresh attempts count
// consecutive failures, and the lock spaces refresh attempts.
module IntegrationProofs {
  import opened Common
  import opened IntegrationModel

  // ---------- Credentials match status ----------

  ghost predicate RowOk(s: State, id: Id)
    requires id in s.integrations
  {
    var row := s.integrations[id];
    && row.status != ErrorStatus
    && (HasLiveToken(s, id) <==> row.status == Connected || row.status == Expired || row.status == ValidationFailed)
    && (row.lastError.Some? <==> row.status == Expired || row.status == ValidationFailed)
  }

  ghost predicate Inv(s: State) {
    && (forall id :: id in s.integrations ==> RowOk(s, id) && id < s.nextId)
    && (forall id :: id in s.tokens ==> id in s.integrations)
    && (forall id :: id in s.tokens ==> (s.tokens[id].lastRefreshError.Some? <==> s.tokens[id].refreshAttempts > 0))
    && (forall i, j, org, provider :: IsProviderRow(s, i, org, provider) && IsProviderRow(s, j, org, provider) ==>
      i == j)
  }

  // Writing one integration row and its token keeps the invariant when the written pair is in order.
  lemma WriteRow(s: State, t: State, id: Id)
    requires Inv(s) && id in t.integrations && RowOk(t, id) && id < t.nextId && s.nextId <= t.nextId
    requires forall x :: x != id ==>
      (x in s.integrations <==> x in t.integrations) && (x in s.tokens <==> x in t.tokens)
    requires forall x :: x in s.integrations && x != id ==> t.integrations[x] == s.integrations[x]
    requires forall x :: x in s.tokens && x != id ==> t.tokens[x] == s.tokens[x]
    requires id in t.tokens ==> (t.tokens[id].lastRefreshError.Some? <==> t.tokens[id].refreshAttempts > 0)
    requires forall x :: IsProviderRow(t, x, t.integrations[id].org, t.integrations[id].provider) ==> x == id
    ensures Inv(t)
  {
    forall x | x in t.integrations
      ensures RowOk(t, x) && x < t.nextId
    {
      if x != id {
        assert RowOk(s, x);
      }
    }
    forall i, j, org, provider | IsProviderRow(t, i, org, provider) && IsProviderRow(t, j, org, provider)
      ensures i == j
    {
      if i != id && j != id {
        assert IsProviderRow(s, i, org, provider) && IsProviderRow(s, j, org, provider);
      }
    }
  }

  // A row that keeps its organization and provider keeps the pair unique.
  lemma SameOwner(s: State, t: State, id: Id)
    requires Inv(s) && id in s.integrations && id in t.integrations
    requires t.integrations == s.integrations[id := t.integrations[id]]
    requires t.integrations[id].org == s.integrations[id].org
    requires t.integrations[id].provider == s.integrations[id].provider
    ensures forall x :: IsProviderRow(t, x, t.integrations[id].org, t.integrations[id].provider) ==> x == id
  {
    forall x | IsProviderRow(t, x, t.integrations[id].org, t.integrations[id].provider)
      ensures x == id
    {
      assert IsProviderRow(s, x, s.integrations[id].org, s.integrations[id].provider);
      assert IsProviderRow(s, id, s.integrations[id].org, s.integrations[id].provider);
    }
  }

  lemma GrantKeepsInv(s: State, id: Id, expiresAt: int)
    requires Inv(s) && id in s.integrations
    ensures Inv(Granted(s, id, expiresAt))
  {
    var t := Granted(s, id, expiresAt);
    assert RowOk(s, id);
    SameOwner(s, t, id);
    WriteRow(s, t, id);
  }

  lemma ConnectKeepsInv(s: State, org: Id, provider: Provider, withCode: bool, expiresAt: int)
    requires Inv(s)
    ensures Inv(Connect(s, org, provider, withCode, expiresAt).0)
  {
    var existing := ByProvider(s, org, provider);
    if !(existing.Some? && s.integrations[existing.value].status != Disconnected) {
      var id := if existing.Some? then existing.value else s.nextId;
      var begun := Begun(s, id, org, provider);
      BeginKeepsInv(s, id, org, provider);
      if withCode {
        GrantKeepsInv(begun, id, expiresAt);
      }
    }
  }

  lemma BeginKeepsInv(s: State, id: Id, org: Id, provider: Provider)
    requires Inv(s)
    requires
      if id in s.integrations then IsProviderRow(s, id, org, provider) && s.integrations[id].status == Disconnected
      else id == s.nextId && forall x :: !IsProviderRow(s, x, org, provider)
    ensures Inv(Begun(s, id, org, provider))
  {
    var t := Begun(s, id, org, provider);
    if id in s.integrations {
      assert RowOk(s, id);
      SameOwner(s, t, id);
    } else {
      forall x | IsProviderRow(t, x, org, provider)
        ensures x == id
      {
        assert x != id ==> IsProviderRow(s, x, org, provider);
      }
    }
    assert RowOk(t, id);
    WriteRow(s, t, id);
  }

  lemma UpdateKeepsInv(s: State, t: State, id: Id)
    requires Inv(s) && id in s.integrations && id in t.integrations && t.nextId == s.nextId
    requires t.integrations == s.integrations[id := t.integrations[id]]
    requires t.integrations[id].org == s.integrations[id].org
    requires t.integrations[id].provider == s.integrations[id].provider
    requires t.tokens == s.tokens || (id in s.tokens && id in t.tokens && t.tokens == s.tokens[id := t.tokens[id]])
    requires id in t.tokens ==> (t.tokens[id].lastRefreshError.Some? <==> t.tokens[id].refreshAttempts > 0)
    requires RowOk(t, id)
    ensures Inv(t)
  {
    SameOwner(s, t, id);
    WriteRow(s, t, id);
  }

  lemma AttemptKeepsInv(cfg: Config, s: State, id: Id, at: int, outcome: Outcome)
    requires Inv(s) && Refreshable(s, id)
    ensures Inv(Attempt(cfg, s, id, at, outcome).0)
  {
    var t := Attempt(cfg, s, id, at, outcome).0;
    if LockFree(cfg, s.locks, id, at) {
      assert RowOk(s, id) && RowOk(t, id);
      UpdateKeepsInv(s, t, id);
    }
  }

  lemma StepKeepsInv(cfg: Config, s: State, ev: Event, t: State)
    requires Inv(s) && Next(cfg, s, ev, t)
    ensures Inv(t)
  {
    match ev
    case ConnectEvent(org, provider, withCode, expiresAt) => ConnectKeepsInv(s, org, provider, withCode, expiresAt);
    case AuthenticateEvent(decoded, provider, expiresAt) =>
      if Authenticate(s, decoded, provider, expiresAt).1.Done? {
        GrantKeepsInv(s, decoded.value.integration, expiresAt);
      }
    case ValidateEvent(org, id, problem) =>
      if Validate(s, org, id, problem).1.Done? {
        assert RowOk(s, id) && RowOk(t, id);
        UpdateKeepsInv(s, t, id);
      }
    case DisconnectEvent(org, id) =>
      if Disconnect(s, org, id).1.Done? {
        assert RowOk(s, id) && RowOk(t, id);
        UpdateKeepsInv(s, t, id);
      }
    case AttemptEvent(id, at, outcome) => AttemptKeepsInv(cfg, s, id, at, outcome);
  }

  lemma {:induction false} ReachableInv(cfg: Config, states: seq<State>, events: seq<Event>, n: nat)
    requires IsRun(cfg, states, events) && n < |states|
    ensures Inv(states[n])
    decreases n
  {
    if n > 0 {
      ReachableInv(cfg, states, events, n - 1);
      hide Inv;
      StepKeepsInv(cfg, states[n - 1], events[n - 1], states[n]);
    }
  }

  // In every reachable state an integration has a live token exactly when it is connected, expired or
  // failed validation, carries an error exactly in the last two cases, and so is healthy exactly when it
  // is connected: the two counts of the status page agree.
  lemma CredentialsMatchStatus(cfg: Config, states: seq<State>, events: seq<Event>, n: nat)
    requires IsRun(cfg, states, events) && n < |states|
    ensures var s := states[n];
      && (forall id :: id in s.integrations ==> RowOk(s, id))
      && (set id | id in s.integrations && s.integrations[id].status == Connected)
         == (set id | id in s.integrations && s.integrations[id].status == Connected
           && s.integrations[id].lastError.None?)
  {
    ReachableInv(cfg, states, events, n);
    forall id | id in states[n].integrations
      ensures RowOk(states[n], id)
    {
    }
  }

  // ---------- Refresh attempts count consecutive failures ----------

  // Consecutive failed refreshes of the integration's token among the first n events, since the last
  // success or authentication.
  ghost function ConsecutiveFailures(cfg: Config, states: seq<State>, events: seq<Event>, n: nat, id: Id): nat
    requires |states| == |events| + 1 && n <= |events|
    decreases n
  {
    if n == 0 then 0
    else
      var s, ev, before := states[n - 1], events[n - 1], ConsecutiveFailures(cfg, states, events, n - 1, id);
      if Authenticates(s, ev, id) then 0 else AttemptsAfter(before, s, ev, cfg, id)
  }

  ghost predicate Authenticates(s: State, ev: Event, id: Id) {
    match ev
    case ConnectEvent(org, provider, withCode, expiresAt) => withCode
      && Connect(s, org, provider, withCode, expiresAt).1 == Done(id)
    case AuthenticateEvent(decoded, provider, expiresAt) => Authenticate(s, decoded, provider, expiresAt).1 == Done(id)
    case _ => false
  }

  ghost function AttemptsAfter(before: nat, s: State, ev: Event, cfg: Config, id: Id): nat {
    if ev.AttemptEvent? && ev.id == id && LockFree(cfg, s.locks, id, ev.at) then
      (if ev.outcome.Renewed? then 0 else before + 1)
    else before
  }

  lemma TokenStep(cfg: Config, s: State, ev: Event, t: State, id: Id)
    requires Next(cfg, s, ev, t) && id in t.tokens
    ensures
      && (Authenticates(s, ev, id) ==> t.tokens[id].refreshAttempts == 0)
      && (!Authenticates(s, ev, id) ==>
            id in s.tokens
              && t.tokens[id].refreshAttempts == AttemptsAfter(s.tokens[id].refreshAttempts, s, ev, cfg, id))
  {
  }

  lemma {:induction false} AttemptsAreConsecutiveFailures(cfg: Config, states: seq<State>, events: seq<Event>,
                                                          n: nat, id: Id)
    requires IsRun(cfg, states, events) && n < |states| && id in states[n].tokens
    ensures states[n].tokens[id].refreshAttempts == ConsecutiveFailures(cfg, states, events, n, id)
    decreases n
  {
    hide Next, Authenticates, LockFree;
    if n > 0 {
      TokenStep(cfg, states[n - 1], events[n - 1], states[n], id);
      if !Authenticates(states[n - 1], events[n - 1], id) {
        AttemptsAreConsecutiveFailures(cfg, states, events, n - 1, id);
      }
    }
  }

  // ---------- Accounting of a pass ----------

  lemma {:induction false} VerdictsAddUp(verdicts: seq<Verdict>)
    ensures Count(verdicts, Refreshed) + Count(verdicts, Failed) + Count(verdicts, Skipped) == |verdicts|
  {
    if verdicts != [] {
      VerdictsAddUp(verdicts[..|verdicts| - 1]);
    }
  }

  predicate NoRepeats(ids: seq<Id>) {
    forall i, j :: 0 <= i < j < |ids| ==> ids[i] != ids[j]
  }

  ghost predicate MayPass(s: State, ids: seq<Id>, clock: seq<int>, answers: map<Id, Outcome>) {
    |clock| == |ids| && forall i :: 0 <= i < |ids| ==>
      ids[i] in s.tokens && ids[i] in s.integrations && ids[i] in answers
  }

  // The two states hold the same rows and lock for the integration.
  ghost predicate SameAt(s: State, t: State, id: Id) {
    && id in s.tokens && id in t.tokens && t.tokens[id] == s.tokens[id]
    && id in s.integrations && id in t.integrations && t.integrations[id] == s.integrations[id]
    && (id in t.locks <==> id in s.locks) && (id in s.locks ==> t.locks[id] == s.locks[id])
  }

  lemma AttemptIsLocal(cfg: Config, s: State, t: State, id: Id, at: int, outcome: Outcome)
    requires SameAt(s, t, id)
    ensures SameAt(Attempt(cfg, s, id, at, outcome).0, Attempt(cfg, t, id, at, outcome).0, id)
    ensures Attempt(cfg, t, id, at, outcome).1 == Attempt(cfg, s, id, at, outcome).1
  {
  }

  lemma AttemptLeavesOthers(cfg: Config, s: State, id: Id, at: int, outcome: Outcome, x: Id)
    requires id in s.tokens && id in s.integrations && x in s.tokens && x in s.integrations && x != id
    ensures SameAt(s, Attempt(cfg, s, id, at, outcome).0, x)
  {
  }

  // Tokens outside the list are not touched, and each token in it is as one attempt on it alone leaves it.
  lemma {:induction false} PassTouchesOnce(cfg: Config, s: State, ids: seq<Id>, clock: seq<int>,
                                           answers: map<Id, Outcome>, id: Id)
    requires MayPass(s, ids, clock, answers) && NoRepeats(ids) && id in s.tokens && id in s.integrations
    ensures id !in ids ==> SameAt(s, Pass(cfg, s, ids, clock, answers).0, id)
    ensures forall i :: 0 <= i < |ids| && ids[i] == id ==>
      var t := Pass(cfg, s, ids, clock, answers);
      var alone := Attempt(cfg, s, id, clock[i], answers[id]);
      SameAt(alone.0, t.0, id) && t.1[i] == alone.1
    decreases |ids|
  {
    hide Attempt;
    if ids != [] {
      var last := |ids| - 1;
      var ids0, clock0 := ids[..last], clock[..last];
      assert forall i :: 0 <= i < last ==> ids0[i] == ids[i] && clock0[i] == clock[i];
      PassTouchesOnce(cfg, s, ids0, clock0, answers, id);
      var before := Pass(cfg, s, ids0, clock0, answers);
      if ids[last] == id {
        AttemptIsLocal(cfg, s, before.0, id, clock[last], answers[id]);
      } else {
        AttemptLeavesOthers(cfg, before.0, ids[last], clock[last], answers[ids[last]], id);
      }
    }
  }

  // A pass is a run of attempts, each on a token that is refreshable at that moment; so it keeps the invariant.
  lemma {:induction false} PassKeepsInv(cfg: Config, s: State, ids: seq<Id>, clock: seq<int>, answers: map<Id, Outcome>)
    requires Inv(s) && MayPass(s, ids, clock, answers) && NoRepeats(ids)
    requires forall i :: 0 <= i < |ids| ==> Refreshable(s, ids[i])
    ensures Inv(Pass(cfg, s, ids, clock, answers).0)
    decreases |ids|
  {
    if ids != [] {
      var last := |ids| - 1;
      PassKeepsInv(cfg, s, ids[..last], clock[..last], answers);
      assert ids[last] !in ids[..last];
      PassTouchesOnce(cfg, s, ids[..last], clock[..last], answers, ids[last]);
      AttemptKeepsInv(cfg, Pass(cfg, s, ids[..last], clock[..last], answers).0, ids[last], clock[last],
          answers[ids[last]]);
    }
  }

  // The placeholder providers answer with an expiry one hour after the attempt.  Then no token that an
  // instantaneous pass refreshes is still due at its end, exactly when the window is under an hour.
  lemma RefreshedIsNotDue(cfg: Config, s: State, ids: seq<Id>, clock: seq<int>, answers: map<Id, Outcome>, now: int,
                          i: nat)
    requires MayPass(s, ids, clock, answers) && NoRepeats(ids) && i < |ids|
    requires forall k :: 0 <= k < |ids| ==> clock[k] == now && Refreshable(s, ids[k])
    requires answers[ids[i]] == Renewed(now + 3600)
    requires Pass(cfg, s, ids, clock, answers).1[i] == Refreshed
    ensures ids[i] in Due(Pass(cfg, s, ids, clock, answers).0, Cutoff(cfg, now)) <==> cfg.windowMinutes >= 60
  {
    PassTouchesOnce(cfg, s, ids, clock, answers, ids[i]);
  }

  // ---------- Spacing ----------

  // Calls of _acquire_refresh_lock by any number of workers, interleaved in any order.
  datatype Call = Call(id: Id, at: int)

  function LocksAfter(cfg: Config, calls: seq<Call>): map<Id, int>
    decreases |calls|
  {
    if calls == [] then map[]
    else
      var last := calls[|calls| - 1];
      Locked(cfg, LocksAfter(cfg, calls[..|calls| - 1]), last.id, last.at)
  }

  // Whether call i got the lock, and so attempted a refresh.
  predicate Attempted(cfg: Config, calls: seq<Call>, i: nat)
    requires i < |calls|
  {
    LockFree(cfg, LocksAfter(cfg, calls[..i]), calls[i].id, calls[i].at)
  }

  predicate TimesRise(calls: seq<Call>) {
    forall i, j :: 0 <= i <= j < |calls| ==> calls[i].at <= calls[j].at
  }

  // The key of an integration stands for its last attempt.
  ghost predicate LastAttempt(cfg: Config, calls: seq<Call>, n: nat, id: Id, i: nat)
    requires i < n <= |calls|
  {
    calls[i].id == id && Attempted(cfg, calls, i) && forall j :: i < j < n && calls[j].id == id ==>
      !Attempted(cfg, calls, j)
  }

  lemma {:induction false} KeyIsLastAttempt(cfg: Config, calls: seq<Call>, n: nat, id: Id)
    requires cfg.hasRedis && n <= |calls|
    ensures var locks := LocksAfter(cfg, calls[..n]);
      if id in locks then
        exists i :: 0 <= i < n && LastAttempt(cfg, calls, n, id, i) && locks[id] == calls[i].at + cfg.lockSeconds
      else forall i :: 0 <= i < n && calls[i].id == id ==> !Attempted(cfg, calls, i)
    decreases n
  {
    if n > 0 {
      KeyIsLastAttempt(cfg, calls, n - 1, id);
      assert calls[..n][..n - 1] == calls[..n - 1];
      var before, now := LocksAfter(cfg, calls[..n - 1]), LocksAfter(cfg, calls[..n]);
      if calls[n - 1].id == id && Attempted(cfg, calls, n - 1) {
        assert LastAttempt(cfg, calls, n, id, n - 1);
      } else if id in before {
        var i :| 0 <= i < n - 1 && LastAttempt(cfg, calls, n - 1, id, i) && before[id] == calls[i].at + cfg.lockSeconds;
        assert LastAttempt(cfg, calls, n, id, i);
      }
    }
  }

  // Call i attempted the integration of call n less than lockSeconds before.
  ghost predicate TooSoon(cfg: Config, calls: seq<Call>, i: nat, n: nat)
    requires i < n < |calls|
  {
    calls[i].id == calls[n].id && Attempted(cfg, calls, i) && calls[n].at - calls[i].at < cfg.lockSeconds
  }

  // With Redis, a call is turned away exactly when the same integration was attempted less than
  // lockSeconds earlier.
  lemma TurnedAwayIff(cfg: Config, calls: seq<Call>, n: nat)
    requires cfg.hasRedis && TimesRise(calls) && n < |calls|
    ensures !Attempted(cfg, calls, n) <==>
      exists i :: 0 <= i < n && TooSoon(cfg, calls, i, n)
  {
    var id := calls[n].id;
    KeyIsLastAttempt(cfg, calls, n, id);
    var locks := LocksAfter(cfg, calls[..n]);
    if id in locks {
      var last :| 0 <= last < n && LastAttempt(cfg, calls, n, id, last)
        && locks[id] == calls[last].at + cfg.lockSeconds;
      if exists i :: 0 <= i < n && TooSoon(cfg, calls, i, n) {
        var i :| 0 <= i < n && TooSoon(cfg, calls, i, n);
        assert i <= last;
      }
      assert calls[n].at < locks[id] ==> TooSoon(cfg, calls, last, n);
    }
  }

  // Two refresh attempts on the same integration are at least lockSeconds apart, however the workers interleave.
  lemma AttemptsAreSpaced(cfg: Config, calls: seq<Call>, i: nat, j: nat)
    requires cfg.hasRedis && TimesRise(calls) && i < j < |calls| && calls[i].id == calls[j].id
    requires Attempted(cfg, calls, i) && Attempted(cfg, calls, j)
    ensures calls[j].at - calls[i].at >= cfg.lockSeconds
  {
    TurnedAwayIff(cfg, calls, j);
    assert !TooSoon(cfg, calls, i, j);
  }

  // The same over runs of the service, whatever other calls come in between.

  predicate AttemptTimesRise(events: seq<Event>) {
    forall i, j :: 0 <= i <= j < |events| && events[i].AttemptEvent? && events[j].AttemptEvent? ==>
      events[i].at <= events[j].at
  }

  // The event attempts a refresh of the integration and is not turned away.
  predicate Tries(cfg: Config, s: State, ev: Event, id: Id) {
    ev.AttemptEvent? && ev.id == id && Refreshable(s, id) && Attempt(cfg, s, id, ev.at, ev.outcome).1 != Skipped
  }

  lemma LockStep(cfg: Config, s: State, ev: Event, t: State, id: Id, until: int)
    requires cfg.hasRedis && Next(cfg, s, ev, t)
    requires ev.AttemptEvent? ==> ev.at + cfg.lockSeconds >= until
    ensures Tries(cfg, s, ev, id) ==> id in t.locks && t.locks[id] == ev.at + cfg.lockSeconds
    ensures id in s.locks && s.locks[id] >= until ==> id in t.locks && t.locks[id] >= until
  {
    hide ByProvider;
  }

  // The lock an attempt takes outlasts the lock time, through any later calls.
  lemma {:induction false} LockStands(cfg: Config, states: seq<State>, events: seq<Event>, i: nat, k: nat, id: Id)
    requires cfg.hasRedis && IsRun(cfg, states, events) && AttemptTimesRise(events) && i < k <= |events|
    requires Tries(cfg, states[i], events[i], id)
    ensures id in states[k].locks && states[k].locks[id] >= events[i].at + cfg.lockSeconds
    decreases k
  {
    hide Next, Attempt;
    if k > i + 1 {
      LockStands(cfg, states, events, i, k - 1, id);
    }
    hide Tries;
    LockStep(cfg, states[k - 1], events[k - 1], states[k], id, events[i].at + cfg.lockSeconds);
  }

  // In any run two attempts on one integration that are not turned away are at least lockSeconds apart.
  lemma RunAttemptsAreSpaced(cfg: Config, states: seq<State>, events: seq<Event>, i: nat, j: nat, id: Id)
    requires cfg.hasRedis && IsRun(cfg, states, events) && AttemptTimesRise(events) && i < j < |events|
    requires Tries(cfg, states[i], events[i], id) && Tries(cfg, states[j], events[j], id)
    ensures events[j].at - events[i].at >= cfg.lockSeconds
  {
    hide IsRun, Next;
    LockStands(cfg, states, events, i, j, id);
  }
}
