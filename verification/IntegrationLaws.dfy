// What each integration call answers and leaves behind, when a token is due, and how a failed refresh recovers.
module IntegrationLaws {
  import opened Common
  import opened IntegrationModel
  import opened IntegrationProofs

  // ---------- What a call answers and leaves ----------

  // The row and the token of every other integration are untouched.
  ghost predicate OnlyWrites(s: State, t: State, id: Id) {
    && (forall x :: x != id ==> (x in t.integrations <==> x in s.integrations) && (x in t.tokens <==> x in s.tokens))
    && (forall x :: x != id && x in s.integrations ==> t.integrations[x] == s.integrations[x])
    && (forall x :: x != id && x in s.tokens ==> t.tokens[x] == s.tokens[x])
    && t.locks == s.locks
  }

  predicate IsConnected(t: State, id: Id, org: Id, provider: Provider, expiresAt: int) {
    && id in t.integrations && t.integrations[id] == Integration(org, provider, Connected, None)
    && id in t.tokens && t.tokens[id] == Token(expiresAt, 0, None, false)
  }

  ghost predicate HasRow(s: State, org: Id, provider: Provider) {
    exists x :: IsProviderRow(s, x, org, provider)
  }

  ghost predicate HasOpenRow(s: State, org: Id, provider: Provider) {
    exists x :: IsProviderRow(s, x, org, provider) && s.integrations[x].status != Disconnected
  }

  // The integration waits for its authorization, without credentials.
  predicate IsPending(t: State, id: Id, org: Id, provider: Provider) {
    id in t.integrations && t.integrations[id] == Integration(org, provider, Pending, None) && !HasLiveToken(t, id)
  }

  lemma RowsOfProvider(s: State, org: Id, provider: Provider)
    requires Inv(s)
    ensures var existing := ByProvider(s, org, provider);
      && (existing.Some? <==> HasRow(s, org, provider))
      && (existing.Some? ==>
            && IsProviderRow(s, existing.value, org, provider)
            && (HasOpenRow(s, org, provider) <==> s.integrations[existing.value].status != Disconnected))
      && (existing.None? ==> !HasOpenRow(s, org, provider)) && s.nextId !in s.integrations
  {
  }

  lemma BeginLeaves(s: State, id: Id, org: Id, provider: Provider)
    requires id in s.tokens ==> s.tokens[id].revoked
    ensures var t := Begun(s, id, org, provider);
      OnlyWrites(s, t, id) && IsPending(t, id, org, provider) && t.tokens == s.tokens
  {
  }

  lemma GrantLeaves(s: State, begun: State, id: Id, expiresAt: int)
    requires OnlyWrites(s, begun, id) && id in begun.integrations
    ensures var row, t := begun.integrations[id], Granted(begun, id, expiresAt);
      OnlyWrites(s, t, id) && IsConnected(t, id, row.org, row.provider, expiresAt)
  {
  }

  lemma NoLiveToken(s: State, id: Id)
    requires Inv(s) && (id in s.integrations ==> s.integrations[id].status == Disconnected)
    ensures id in s.tokens ==> s.tokens[id].revoked
  {
    if id in s.integrations {
      assert RowOk(s, id);
    }
  }

  // A connection conflicts exactly with one of the organization and the provider that is not disconnected.
  // Otherwise it takes the disconnected row, or a new one, and waits for its authorization unless a code came
  // with it.
  lemma ConnectAnswers(s: State, org: Id, provider: Provider, withCode: bool, expiresAt: int)
    requires Inv(s)
    ensures var (t, reply) := Connect(s, org, provider, withCode, expiresAt);
      if HasOpenRow(s, org, provider) then t == s && reply == Conflict
      else
        && reply.Done? && OnlyWrites(s, t, reply.id)
        && (reply.id in s.integrations <==> HasRow(s, org, provider))
        && (reply.id in s.integrations ==> IsProviderRow(s, reply.id, org, provider))
        && if withCode then IsConnected(t, reply.id, org, provider, expiresAt)
           else IsPending(t, reply.id, org, provider) && t.tokens == s.tokens
  {
    hide Inv, ByProvider, Begun, Granted, OnlyWrites, IsConnected, HasRow, HasOpenRow, HasLiveToken;
    RowsOfProvider(s, org, provider);
    var existing := ByProvider(s, org, provider);
    if !HasOpenRow(s, org, provider) {
      var id := if existing.Some? then existing.value else s.nextId;
      NoLiveToken(s, id);
      BeginLeaves(s, id, org, provider);
      GrantLeaves(s, Begun(s, id, org, provider), id, expiresAt);
    }
  }

  // A connection that has been taken up conflicts with the next one.
  lemma SecondConnectConflicts(s: State, org: Id, provider: Provider, withCode: bool, expiresAt: int,
      again: bool, expires: int)
    requires Inv(s) && Connect(s, org, provider, withCode, expiresAt).1.Done?
    ensures var t := Connect(s, org, provider, withCode, expiresAt).0;
      Connect(t, org, provider, again, expires) == (t, Conflict)
  {
    var t, id := Connect(s, org, provider, withCode, expiresAt).0, Connect(s, org, provider, withCode, expiresAt).1.id;
    ConnectAnswers(s, org, provider, withCode, expiresAt);
    ConnectKeepsInv(s, org, provider, withCode, expiresAt);
    assert IsProviderRow(t, id, org, provider) && t.integrations[id].status != Disconnected;
    hide Inv, Connect, OnlyWrites;
    ConnectAnswers(t, org, provider, again, expires);
  }

  // A callback must name the provider it came from and an integration of its organization.
  lemma AuthenticateAnswers(s: State, decoded: Option<OAuthState>, provider: Provider, expiresAt: int)
    ensures var (t, reply) := Authenticate(s, decoded, provider, expiresAt);
      && (reply == NotFound <==>
            decoded.Some? && decoded.value.provider == provider && decoded.value.integration !in s.integrations)
      && (reply.Done? <==>
            decoded.Some? && decoded.value.provider == provider
            && HasIntegration(s, decoded.value.org, decoded.value.integration))
      && (reply.Done? ==>
            && reply.id == decoded.value.integration && OnlyWrites(s, t, reply.id)
            && IsConnected(t, reply.id, decoded.value.org, s.integrations[reply.id].provider, expiresAt))
      && (!reply.Done? ==> t == s && (reply == NotFound || reply == Invalid))
  {
  }

  // Only integrations that were connected once and are not disconnected can be validated; the verdict decides
  // whether they are connected, and the credentials stay.
  lemma ValidateAnswers(s: State, org: Id, id: Id, problem: Option<string>)
    requires Inv(s)
    ensures var (t, reply) := Validate(s, org, id, problem);
      if HasIntegration(s, org, id) && s.integrations[id].status in {Connected, Expired, ValidationFailed} then
        && reply == Done(id) && OnlyWrites(s, t, id) && t.tokens == s.tokens && id in t.integrations
        && t.integrations[id].org == org && t.integrations[id].provider == s.integrations[id].provider
        && t.integrations[id].lastError == problem
        && (t.integrations[id].status == Connected <==> problem.None?)
        && (t.integrations[id].status == ValidationFailed <==> problem.Some?)
      else t == s && reply == NotFound
  {
    if HasIntegration(s, org, id) {
      assert RowOk(s, id);
    }
  }

  // A disconnected integration has no live token, cannot be validated, is due for no cutoff, and the next connect
  // takes it up again.
  lemma DisconnectAnswers(s: State, org: Id, id: Id, cutoff: int, problem: Option<string>, expiresAt: int)
    requires Inv(s)
    ensures var (t, reply) := Disconnect(s, org, id);
      if HasIntegration(s, org, id) then
        && reply == Done(id) && OnlyWrites(s, t, id) && id in t.integrations
        && t.integrations[id].status == Disconnected && t.integrations[id].lastError == None
        && !HasLiveToken(t, id) && id !in Due(t, cutoff)
        && Validate(t, org, id, problem) == (t, NotFound)
        && Connect(t, org, s.integrations[id].provider, true, expiresAt).1 == Done(id)
      else t == s && reply == NotFound
  {
    if HasIntegration(s, org, id) {
      var t := Disconnect(s, org, id).0;
      DisconnectKeepsInv(s, org, id);
      hide Inv, Connect;
      ConnectTakesUp(t, id, org, s.integrations[id].provider, expiresAt);
    }
  }

  lemma DisconnectKeepsInv(s: State, org: Id, id: Id)
    requires Inv(s) && HasIntegration(s, org, id)
    ensures Inv(Disconnect(s, org, id).0)
  {
    var t := Disconnect(s, org, id).0;
    assert RowOk(s, id) && RowOk(t, id);
    UpdateKeepsInv(s, t, id);
  }

  lemma ConnectTakesUp(t: State, id: Id, org: Id, provider: Provider, expiresAt: int)
    requires Inv(t) && IsProviderRow(t, id, org, provider) && t.integrations[id].status == Disconnected
    ensures Connect(t, org, provider, true, expiresAt).1 == Done(id)
  {
    ConnectAnswers(t, org, provider, true, expiresAt);
  }

  // ---------- When a token is due ----------

  // The call makes the integration one whose token is refreshed: an authentication or a good verdict.
  ghost predicate Enables(s: State, ev: Event, id: Id) {
    || Authenticates(s, ev, id)
    || (ev.ValidateEvent? && ev.id == id && ev.problem.None? && Validate(s, ev.org, id, None).1 == Done(id))
  }

  // The call ends that: a bad verdict or a disconnection.
  ghost predicate Disables(s: State, ev: Event, id: Id) {
    || (ev.ValidateEvent? && ev.id == id && ev.problem.Some? && Validate(s, ev.org, id, ev.problem).1 == Done(id))
    || (ev.DisconnectEvent? && ev.id == id && Disconnect(s, ev.org, id).1 == Done(id))
  }

  lemma RefreshableStep(cfg: Config, s: State, ev: Event, t: State, id: Id)
    requires Inv(s) && Next(cfg, s, ev, t)
    ensures Refreshable(t, id) <==> Enables(s, ev, id) || (Refreshable(s, id) && !Disables(s, ev, id))
    ensures !(Enables(s, ev, id) && Disables(s, ev, id))
  {
    match ev
    case ConnectEvent(org, provider, withCode, expiresAt) =>
      ConnectRefreshable(s, org, provider, withCode, expiresAt, id);
    case _ =>
      hide Inv;
  }

  lemma ConnectRefreshable(s: State, org: Id, provider: Provider, withCode: bool, expiresAt: int, id: Id)
    requires Inv(s)
    ensures var (t, reply) := Connect(s, org, provider, withCode, expiresAt);
      Refreshable(t, id) <==> (withCode && reply == Done(id)) || Refreshable(s, id)
  {
    var reply := Connect(s, org, provider, withCode, expiresAt).1;
    ConnectAnswers(s, org, provider, withCode, expiresAt);
    RowsOfProvider(s, org, provider);
    hide Inv, ByProvider, HasRow, Begun, Granted;
  }

  // Call i enables the refreshing of the integration and no later one of the first n disables it.
  ghost predicate EnabledSince(states: seq<State>, events: seq<Event>, i: nat, n: nat, id: Id)
    requires i < n <= |events| < |states|
  {
    && Enables(states[i], events[i], id)
    && forall j :: i < j < n ==> !Disables(states[j], events[j], id)
  }

  // In every run the token of an integration is refreshable exactly when the last of its authentications,
  // verdicts and disconnections is an authentication or a good verdict; failed refreshes do not matter.
  lemma {:induction false} RefreshableIff(cfg: Config, states: seq<State>, events: seq<Event>, n: nat, id: Id)
    requires IsRun(cfg, states, events) && n < |states|
    ensures Refreshable(states[n], id) <==> exists i :: 0 <= i < n && EnabledSince(states, events, i, n, id)
    decreases n
  {
    hide Next, Enables, Disables, Refreshable, Inv;
    if n == 0 {
      NothingRefreshable(id);
    } else {
      var m := n - 1;
      RefreshableIff(cfg, states, events, m, id);
      ReachableInv(cfg, states, events, m);
      RefreshableStep(cfg, states[m], events[m], states[n], id);
      if Enables(states[m], events[m], id) {
        assert EnabledSince(states, events, m, n, id);
      } else {
        forall i | 0 <= i < m
          ensures EnabledSince(states, events, i, n, id) <==>
            EnabledSince(states, events, i, m, id) && !Disables(states[m], events[m], id)
        {
          EnabledStep(states, events, i, m, id);
        }
      }
    }
  }

  lemma EnabledStep(states: seq<State>, events: seq<Event>, i: nat, m: nat, id: Id)
    requires i < m < |events| < |states|
    ensures EnabledSince(states, events, i, m + 1, id) <==>
      EnabledSince(states, events, i, m, id) && !Disables(states[m], events[m], id)
  {
    hide Enables, Disables;
  }

  lemma NothingRefreshable(id: Id)
    ensures !Refreshable(EMPTY, id)
  {
  }

  // After a bad verdict or a disconnection the token is due for no cutoff, until the next good verdict or
  // authentication.
  lemma BadVerdictStopsRefreshing(cfg: Config, states: seq<State>, events: seq<Event>, i: nat, n: nat, id: Id,
      cutoff: int)
    requires IsRun(cfg, states, events) && i < n < |states| && Disables(states[i], events[i], id)
    requires forall j :: i < j < n ==> !Enables(states[j], events[j], id)
    ensures id !in Due(states[n], cutoff)
  {
    RefreshableIff(cfg, states, events, n, id);
    ReachableInv(cfg, states, events, i);
    RefreshableStep(cfg, states[i], events[i], states[i + 1], id);
    hide IsRun, Inv, Enables, Disables;
  }

  // The expiry the provider grants the integration in this call, if it does.
  ghost function Grants(cfg: Config, s: State, ev: Event, id: Id): Option<int> {
    if Authenticates(s, ev, id) then Some(ev.expiresAt)
    else if Tries(cfg, s, ev, id) && ev.outcome.Renewed? then Some(ev.outcome.expiresAt)
    else None
  }

  lemma ExpiryStep(cfg: Config, s: State, ev: Event, t: State, id: Id)
    requires Next(cfg, s, ev, t) && id in t.tokens
    ensures var granted := Grants(cfg, s, ev, id);
      if granted.Some? then t.tokens[id].expiresAt == granted.value
      else id in s.tokens && t.tokens[id].expiresAt == s.tokens[id].expiresAt
  {
  }

  // Call g granted this expiry, and no later one of the first n granted any.
  ghost predicate LastGrant(cfg: Config, states: seq<State>, events: seq<Event>, g: nat, n: nat, id: Id, expiry: int)
    requires g < n <= |events| < |states|
  {
    && Grants(cfg, states[g], events[g], id) == Some(expiry)
    && forall j :: g < j < n ==> Grants(cfg, states[j], events[j], id).None?
  }

  lemma {:induction false} ExpiryIsLastGrant(cfg: Config, states: seq<State>, events: seq<Event>, n: nat, id: Id)
    requires IsRun(cfg, states, events) && n < |states| && id in states[n].tokens
    ensures exists g :: 0 <= g < n && LastGrant(cfg, states, events, g, n, id, states[n].tokens[id].expiresAt)
    decreases n
  {
    hide Next, Grants;
    if n > 0 {
      var m := n - 1;
      ExpiryStep(cfg, states[m], events[m], states[n], id);
      if Grants(cfg, states[m], events[m], id).Some? {
        assert LastGrant(cfg, states, events, m, n, id, states[n].tokens[id].expiresAt);
      } else {
        ExpiryIsLastGrant(cfg, states, events, m, id);
        var g :| 0 <= g < m && LastGrant(cfg, states, events, g, m, id, states[m].tokens[id].expiresAt);
        assert LastGrant(cfg, states, events, g, n, id, states[n].tokens[id].expiresAt);
      }
    }
  }

  // In every run a token is due exactly when its integration is enabled and the expiry last granted to it is not
  // after the cutoff.
  lemma DueIff(cfg: Config, states: seq<State>, events: seq<Event>, n: nat, id: Id, cutoff: int)
    requires IsRun(cfg, states, events) && n < |states|
    ensures id in Due(states[n], cutoff) <==>
      && (exists i :: 0 <= i < n && EnabledSince(states, events, i, n, id))
      && (exists g, expiry :: 0 <= g < n && LastGrant(cfg, states, events, g, n, id, expiry) && expiry <= cutoff)
  {
    RefreshableIff(cfg, states, events, n, id);
    hide IsRun, EnabledSince, Grants;
    if Refreshable(states[n], id) {
      ExpiryIsLastGrant(cfg, states, events, n, id);
    }
  }

  // ---------- What a pass leaves of a token ----------

  // What a tried token and its integration are afterwards; a turned away one is as it was.
  predicate IsAfterTry(s: State, t: State, id: Id, verdict: Verdict, outcome: Outcome)
    requires id in s.tokens && id in s.integrations
  {
    && id in t.tokens && id in t.integrations
    && t.integrations[id].org == s.integrations[id].org && t.integrations[id].provider == s.integrations[id].provider
    && t.tokens[id].revoked == s.tokens[id].revoked
    && match verdict
       case Refreshed => outcome.Renewed?
         && t.tokens[id].expiresAt == outcome.expiresAt && t.tokens[id].refreshAttempts == 0
         && t.tokens[id].lastRefreshError == None
         && t.integrations[id].status == Connected && t.integrations[id].lastError == None
       case Failed => outcome.Refused?
         && t.tokens[id].expiresAt == s.tokens[id].expiresAt
         && t.tokens[id].refreshAttempts == s.tokens[id].refreshAttempts + 1
         && t.tokens[id].lastRefreshError == Some(outcome.error)
         && t.integrations[id].status == Expired && t.integrations[id].lastError == Some(outcome.error)
       case Skipped => t.tokens[id] == s.tokens[id] && t.integrations[id] == s.integrations[id]
  }

  // A token of a pass is turned away exactly while its lock is held.  One that is refused stays due for the same
  // cutoffs, so the next pass lists it again; a renewed one is due by its new expiry.
  lemma RefusedStaysDue(cfg: Config, s: State, ids: seq<Id>, clock: seq<int>, answers: map<Id, Outcome>, i: nat,
      cutoff: int)
    requires MayPass(s, ids, clock, answers) && NoRepeats(ids) && i < |ids| && Refreshable(s, ids[i])
    ensures var (t, verdicts) := Pass(cfg, s, ids, clock, answers);
      var id := ids[i];
      && (verdicts[i] == Skipped <==> !LockFree(cfg, s.locks, id, clock[i]))
      && IsAfterTry(s, t, id, verdicts[i], answers[id])
      && (id in Due(t, cutoff) <==>
            if verdicts[i] == Refreshed then answers[id].expiresAt <= cutoff else id in Due(s, cutoff))
  {
    hide Pass;
    PassTouchesOnce(cfg, s, ids, clock, answers, ids[i]);
  }

  // A token that a pass tries and is refused is connected again, without an error, by the first later pass that
  // tries it and gets a renewal; with Redis that is one which comes to it when the lock time is over, and any
  // earlier one turns it away.  Meanwhile the rows of other integrations may change in any way.
  lemma LaterPassRecovers(cfg: Config, s: State, ids: seq<Id>, clock: seq<int>, answers: map<Id, Outcome>, i: nat,
      u: State, ids': seq<Id>, clock': seq<int>, answers': map<Id, Outcome>, j: nat, expiresAt: int)
    requires MayPass(s, ids, clock, answers) && NoRepeats(ids) && i < |ids| && Refreshable(s, ids[i])
    requires Pass(cfg, s, ids, clock, answers).1[i] == Failed
    requires SameAt(Pass(cfg, s, ids, clock, answers).0, u, ids[i])
    requires MayPass(u, ids', clock', answers') && NoRepeats(ids') && j < |ids'| && ids'[j] == ids[i]
    requires answers'[ids[i]] == Renewed(expiresAt)
    ensures var (t, verdicts) := Pass(cfg, u, ids', clock', answers');
      if !cfg.hasRedis || clock'[j] >= clock[i] + cfg.lockSeconds then
        verdicts[j] == Refreshed && IsAfterTry(u, t, ids[i], Refreshed, Renewed(expiresAt))
      else verdicts[j] == Skipped && SameAt(u, t, ids[i])
  {
    hide Pass;
    var id := ids[i];
    PassTouchesOnce(cfg, s, ids, clock, answers, id);
    PassTouchesOnce(cfg, u, ids', clock', answers', id);
    RefusedStaysDue(cfg, u, ids', clock', answers', j, 0);
  }

  // ---------- A limited pass ----------

  function Listed(ids: seq<Id>): set<Id> {
    set id | id in ids
  }

  lemma {:induction false} ListedCount(ids: seq<Id>)
    requires NoRepeats(ids)
    ensures |Listed(ids)| == |ids|
  {
    if ids != [] {
      var last := |ids| - 1;
      ListedCount(ids[..last]);
      assert Listed(ids) == Listed(ids[..last]) + {ids[last]};
      assert ids[last] !in ids[..last];
    }
  }

  // Every token of the list is due, free to be tried, and renewed beyond the cutoff.
  ghost predicate AllRenewed(cfg: Config, s: State, ids: seq<Id>, clock: seq<int>, answers: map<Id, Outcome>,
      cutoff: int)
    requires MayPass(s, ids, clock, answers)
  {
    forall i :: 0 <= i < |ids| ==>
      && ids[i] in Due(s, cutoff) && LockFree(cfg, s.locks, ids[i], clock[i])
      && answers[ids[i]].Renewed? && answers[ids[i]].expiresAt > cutoff
  }

  lemma DueAfterRenewal(cfg: Config, s: State, ids: seq<Id>, clock: seq<int>, answers: map<Id, Outcome>, cutoff: int,
      id: Id)
    requires MayPass(s, ids, clock, answers) && NoRepeats(ids) && AllRenewed(cfg, s, ids, clock, answers, cutoff)
    ensures id in Due(Pass(cfg, s, ids, clock, answers).0, cutoff) <==> id in Due(s, cutoff) && id !in ids
  {
    hide LockFree;
    if id in ids {
      var i :| 0 <= i < |ids| && ids[i] == id;
      RefusedStaysDue(cfg, s, ids, clock, answers, i, cutoff);
    } else if id in s.tokens && id in s.integrations {
      PassTouchesOnce(cfg, s, ids, clock, answers, id);
    }
  }

  // How many of so many tokens a limit leaves out; a negative one leaves out that many.
  function LeftOut(count: nat, limit: int): int {
    if limit >= 0 then Max(count - limit, 0) else Min(count, -limit)
  }

  lemma TakenCount(all: seq<Id>, limit: int)
    requires NoRepeats(all)
    ensures NoRepeats(Take(all, limit))
    ensures |Listed(all) - Listed(Take(all, limit))| == LeftOut(|all|, limit)
  {
    var ids := Take(all, limit);
    assert forall i :: 0 <= i < |ids| ==> ids[i] == all[i];
    ListedCount(all);
    ListedCount(ids);
    assert Listed(ids) <= Listed(all);
    assert |Listed(all)| == |Listed(all) - Listed(ids)| + |Listed(all) * Listed(ids)|;
    assert Listed(all) * Listed(ids) == Listed(ids);
  }

  // A pass limited to so many tokens takes that many off the due list, if all of them are renewed beyond the cutoff.
  lemma PassShortensDueList(cfg: Config, s: State, all: seq<Id>, limit: int, ids: seq<Id>, clock: seq<int>,
      answers: map<Id, Outcome>, cutoff: int)
    requires NoRepeats(all) && Listed(all) == Due(s, cutoff) && ids == Take(all, limit)
    requires MayPass(s, ids, clock, answers) && AllRenewed(cfg, s, ids, clock, answers, cutoff)
    ensures Due(Pass(cfg, s, ids, clock, answers).0, cutoff) == Due(s, cutoff) - Listed(ids)
    ensures |Due(s, cutoff) - Listed(ids)| == LeftOut(|Due(s, cutoff)|, limit)
  {
    hide Pass, Due, AllRenewed, Take, NoRepeats;
    TakenCount(all, limit);
    ListedCount(all);
    forall id: Id
      ensures id in Due(Pass(cfg, s, ids, clock, answers).0, cutoff) <==> id in Due(s, cutoff) && id !in ids
    {
      DueAfterRenewal(cfg, s, ids, clock, answers, cutoff, id);
    }
  }
}
