// The integration service: rows and locks are fields updated in place, and refresh_due_tokens is the
// loop over the due tokens.
module IntegrationServices {
  import opened Common
  import opened IntegrationModel
  import opened IntegrationProofs

  class IntegrationService {
    const cfg: Config
    var integrations: map<Id, Integration>
    var tokens: map<Id, Token>
    var locks: map<Id, int>
    var nextId: Id

    ghost function View(): State
      reads this
    {
      State(integrations, tokens, locks, nextId)
    }

    ghost predicate Valid()
      reads this
    {
      Inv(View())
    }

    constructor (cfg: Config)
      ensures Valid() && this.cfg == cfg && View() == EMPTY
    {
      this.cfg := cfg;
      integrations, tokens, locks, nextId := map[], map[], map[], 0;
    }

    method GetByProvider(org: Id, provider: Provider) returns (found: Option<Id>)
      requires Valid()
      ensures found == ByProvider(View(), org, provider)
    {
      if id :| id in integrations && integrations[id].org == org && integrations[id].provider == provider {
        assert IsProviderRow(View(), id, org, provider);
        found := Some(id);
      } else {
        assert forall x :: !IsProviderRow(View(), x, org, provider);
        found := None;
      }
    }

    // OAuthTokenRepository.upsert with a freshly granted token, and the fields authenticate sets.
    method PersistTokens(id: Id, expiresAt: int)
      requires id in integrations
      modifies this`tokens, this`integrations
      ensures View() == Granted(old(View()), id, expiresAt)
    {
      if id in tokens {
        tokens := tokens[id := tokens[id].(expiresAt := expiresAt, refreshAttempts := 0, lastRefreshError := None,
            revoked := false)];
      } else {
        tokens := tokens[id := Token(expiresAt, 0, None, false)];
      }
      integrations := integrations[id := integrations[id].(status := Connected, lastError := None)];
    }

    method Connect(org: Id, provider: Provider, withCode: bool, expiresAt: int) returns (reply: Reply)
      requires Valid()
      modifies this
      ensures Valid() && (View(), reply) == IntegrationModel.Connect(old(View()), org, provider, withCode, expiresAt)
    {
      hide Inv, ByProvider, Granted;
      ConnectKeepsInv(View(), org, provider, withCode, expiresAt);
      var existing := GetByProvider(org, provider);
      ProviderRowIs(View(), org, provider);
      if existing.Some? && integrations[existing.value].status != Disconnected {
        return Conflict;
      }
      var id := nextId;
      if existing.Some? {
        id := existing.value;
        integrations := integrations[id := integrations[id].(status := Pending, lastError := None)];
      } else {
        integrations := integrations[id := Integration(org, provider, Pending, None)];
        nextId := nextId + 1;
      }
      assert View() == Begun(old(View()), id, org, provider);
      if withCode {
        PersistTokens(id, expiresAt);
      }
      reply := Done(id);
    }

    method Authenticate(decoded: Option<OAuthState>, provider: Provider, expiresAt: int) returns (reply: Reply)
      requires Valid()
      modifies this
      ensures Valid() && (View(), reply) == IntegrationModel.Authenticate(old(View()), decoded, provider, expiresAt)
    {
      hide Inv;
      if decoded.None? || decoded.value.provider != provider {
        return Invalid;
      }
      var id := decoded.value.integration;
      if id !in integrations {
        return NotFound;
      }
      if integrations[id].org != decoded.value.org {
        return Invalid;
      }
      GrantKeepsInv(View(), id, expiresAt);
      PersistTokens(id, expiresAt);
      reply := Done(id);
    }

    method Validate(org: Id, id: Id, problem: Option<string>) returns (reply: Reply)
      requires Valid()
      modifies this
      ensures Valid() && (View(), reply) == IntegrationModel.Validate(old(View()), org, id, problem)
    {
      hide Inv;
      StepKeepsInv(cfg, View(), ValidateEvent(org, id, problem), IntegrationModel.Validate(View(), org, id, problem).0);
      if id !in integrations || integrations[id].org != org {
        return NotFound;
      }
      if id !in tokens || tokens[id].revoked {
        return NotFound;
      }
      integrations := integrations[id := integrations[id].(lastError := problem)];
      var status := if problem.None? then Connected else ValidationFailed;
      integrations := integrations[id := integrations[id].(status := status)];
      assert integrations == old(integrations)[id := integrations[id]];
      reply := Done(id);
    }

    method Disconnect(org: Id, id: Id) returns (reply: Reply)
      requires Valid()
      modifies this
      ensures Valid() && (View(), reply) == IntegrationModel.Disconnect(old(View()), org, id)
    {
      hide Inv;
      StepKeepsInv(cfg, View(), DisconnectEvent(org, id), IntegrationModel.Disconnect(View(), org, id).0);
      if id !in integrations || integrations[id].org != org {
        return NotFound;
      }
      if id in tokens {
        tokens := tokens[id := tokens[id].(revoked := true)];
      }
      integrations := integrations[id := integrations[id].(status := Disconnected)];
      integrations := integrations[id := integrations[id].(lastError := None)];
      assert integrations == old(integrations)[id := integrations[id]];
      reply := Done(id);
    }

    // The set-if-absent lock with an expiry; nothing ever releases it early.
    method AcquireRefreshLock(id: Id, at: int) returns (acquired: bool)
      modifies this`locks
      ensures acquired == LockFree(cfg, old(locks), id, at) && locks == Locked(cfg, old(locks), id, at)
      ensures acquired && cfg.hasRedis ==>
        forall later :: LockFree(cfg, locks, id, later) <==> later >= at + cfg.lockSeconds
      ensures forall x, later :: x != id || !acquired ==>
        (LockFree(cfg, locks, x, later) <==> LockFree(cfg, old(locks), x, later))
    {
      if !cfg.hasRedis {
        return true;
      }
      if id in locks && at < locks[id] {
        return false;
      }
      locks := locks[id := at + cfg.lockSeconds];
      acquired := true;
    }

    // The body of the loop for one token: the refreshed or failed branch.
    method RefreshOne(id: Id, at: int, outcome: Outcome) returns (verdict: Verdict)
      requires id in tokens && id in integrations
      modifies this
      ensures (View(), verdict) == Attempt(cfg, old(View()), id, at, outcome)
    {
      var acquired := AcquireRefreshLock(id, at);
      if !acquired {
        return Skipped;
      }
      match outcome {
        case Renewed(expiresAt) =>
          tokens := tokens[id := tokens[id].(expiresAt := expiresAt, lastRefreshError := None, refreshAttempts := 0)];
          integrations := integrations[id := integrations[id].(status := Connected, lastError := None)];
          verdict := Refreshed;
        case Refused(error) =>
          tokens := tokens[id := tokens[id].(refreshAttempts := tokens[id].refreshAttempts + 1)];
          tokens := tokens[id := tokens[id].(lastRefreshError := Some(error))];
          assert tokens == old(tokens)[id := tokens[id]];
          integrations := integrations[id := integrations[id].(status := Expired, lastError := Some(error))];
          verdict := Failed;
      }
    }

    // The due tokens in the order the database happens to return them.
    method ListDue(cutoff: int) returns (due: seq<Id>)
      ensures NoRepeats(due) && (set id | id in due) == Due(View(), cutoff) && |due| == |Due(View(), cutoff)|
    {
      var todo := set id | id in tokens && id in integrations && tokens[id].expiresAt <= cutoff
        && !tokens[id].revoked && (integrations[id].status == Connected || integrations[id].status == Expired);
      ghost var all := todo;
      assert all == Due(View(), cutoff);
      due := [];
      while todo != {}
        invariant todo <= all && NoRepeats(due)
        invariant forall id :: id in due <==> id in all && id !in todo
        invariant |due| + |todo| == |all|
        decreases |todo|
      {
        var id :| id in todo;
        due := due + [id];
        todo := todo - {id};
      }
    }

    // The loop over the batch; it counts the successes.
    method RefreshBatch(batch: seq<Id>, clock: seq<int>, answers: map<Id, Outcome>)
      returns (refreshed: nat, ghost verdicts: seq<Verdict>)
      requires MayPass(View(), batch, clock, answers)
      modifies this
      ensures (View(), verdicts) == Pass(cfg, old(View()), batch, clock, answers)
      ensures refreshed == Count(verdicts, Refreshed)
    {
      hide Attempt;
      verdicts, refreshed := [], 0;
      ghost var s := View();
      for i := 0 to |batch|
        invariant |verdicts| == i && MayPass(s, batch[..i], clock[..i], answers)
        invariant (View(), verdicts) == Pass(cfg, s, batch[..i], clock[..i], answers)
        invariant refreshed == Count(verdicts, Refreshed)
      {
        PassSnoc(cfg, s, batch, clock, answers, i);
        var verdict := RefreshOne(batch[i], clock[i], answers[batch[i]]);
        CountSnoc(verdicts, verdict);
        verdicts := verdicts + [verdict];
        if verdict == Refreshed {
          refreshed := refreshed + 1;
        }
      }
      assert batch[..|batch|] == batch && clock[..|batch|] == clock;
    }

    // `clock` gives the time of each attempt and `answers` what the provider answers.  The pass tries the
    // first `limit` due tokens, each once, and every one of them is refreshed, failed or skipped.
    method RefreshDueTokens(limit: int, now: int, clock: seq<int>, answers: map<Id, Outcome>)
      returns (refreshed: nat, ghost tried: seq<Id>, ghost verdicts: seq<Verdict>)
      requires Valid() && |clock| >= |Due(View(), Cutoff(cfg, now))|
      requires forall id :: id in Due(View(), Cutoff(cfg, now)) ==> id in answers
      modifies this
      ensures Valid()
      ensures NoRepeats(tried) && forall id :: id in tried ==> id in Due(old(View()), Cutoff(cfg, now))
      ensures limit >= 0 ==>
        var due := |Due(old(View()), Cutoff(cfg, now))|; |tried| == if limit <= due then limit else due
      ensures |tried| <= |clock| && MayPass(old(View()), tried, clock[..|tried|], answers)
      ensures (View(), verdicts) == Pass(cfg, old(View()), tried, clock[..|tried|], answers)
      ensures refreshed == Count(verdicts, Refreshed)
      ensures refreshed + Count(verdicts, Failed) + Count(verdicts, Skipped) == |tried|
    {
      hide Inv, Pass, Due;
      ghost var s := View();
      var dueTokens := ListDue(Cutoff(cfg, now));
      var batch := Take(dueTokens, limit);
      TakeFromDue(s, dueTokens, Cutoff(cfg, now), limit);
      tried := batch;
      BatchMayPass(cfg, s, batch, Cutoff(cfg, now), clock[..|batch|], answers);
      refreshed, verdicts := RefreshBatch(batch, clock[..|batch|], answers);
      VerdictsAddUp(verdicts);
    }
  }

  lemma PassSnoc(cfg: Config, s: State, ids: seq<Id>, clock: seq<int>, answers: map<Id, Outcome>, i: nat)
    requires MayPass(s, ids, clock, answers) && i < |ids|
    ensures MayPass(s, ids[..i], clock[..i], answers) && MayPass(s, ids[..i + 1], clock[..i + 1], answers)
    ensures ids[i] in answers
    ensures var before := Pass(cfg, s, ids[..i], clock[..i], answers);
      ids[i] in before.0.tokens && ids[i] in before.0.integrations
      && (var step := Attempt(cfg, before.0, ids[i], clock[i], answers[ids[i]]);
          Pass(cfg, s, ids[..i + 1], clock[..i + 1], answers) == (step.0, before.1 + [step.1]))
  {
    hide Attempt;
    assert ids[..i + 1][..i] == ids[..i] && clock[..i + 1][..i] == clock[..i];
  }

  lemma CountSnoc(verdicts: seq<Verdict>, v: Verdict)
    ensures forall x :: Count(verdicts + [v], x) == Count(verdicts, x) + if v == x then 1 else 0
  {
    assert (verdicts + [v])[..|verdicts|] == verdicts;
  }

  lemma TakeFromDue(s: State, due: seq<Id>, cutoff: int, limit: int)
    requires NoRepeats(due) && (set id | id in due) == Due(s, cutoff) && |due| == |Due(s, cutoff)|
    ensures var batch := Take(due, limit);
      NoRepeats(batch) && |batch| <= |due| && (forall id :: id in batch ==> id in Due(s, cutoff))
      && (limit >= 0 ==> |batch| == if limit <= |due| then limit else |due|)
  {
    hide Due;
    assert forall id :: id in Take(due, limit) ==> id in due;
  }

  lemma BatchMayPass(cfg: Config, s: State, batch: seq<Id>, cutoff: int, clock: seq<int>, answers: map<Id, Outcome>)
    requires Inv(s) && NoRepeats(batch) && |clock| == |batch|
    requires forall id :: id in batch ==> id in Due(s, cutoff) && id in answers
    ensures MayPass(s, batch, clock, answers) && Inv(Pass(cfg, s, batch, clock, answers).0)
  {
    hide Inv, Pass;
    assert forall i :: 0 <= i < |batch| ==> batch[i] in batch;
    PassKeepsInv(cfg, s, batch, clock, answers);
  }

  lemma ProviderRowIs(s: State, org: Id, provider: Provider)
    requires Inv(s)
    ensures var found := ByProvider(s, org, provider);
      found.Some? ==> IsProviderRow(s, found.value, org, provider) && found.value < s.nextId
  {
  }
}
