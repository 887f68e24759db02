// Session rotation, one-time tokens and revocation over whole runs.
module TokenProofs {
  import opened Common
  import opened TokenModel

  // ---------- How a step changes the key and the record of a token ----------

  // The step uses the token up: a rotation or a logout of a refresh token, or the consumption of a
  // one-time token.
  predicate Spends(s: State, ev: Event, now: real, p: Payload) {
    match ev
    case RefreshEvent(token) =>
      token == p && Passes(s.tokens, p, now, Refresh) && HasUser(s, p.user, p.org) && s.users[p.user].status == Active
    case LogoutEvent(token, _) => token == p && Decodes(s.tokens, p, now, Refresh)
    case ResetEvent(token, _) => token == p && Passes(s.tokens, p, now, PasswordReset)
    case VerifyEvent(token) => token == p && Passes(s.tokens, p, now, EmailVerification)
    case AcceptEvent(token, _) => token == p && Passes(s.tokens, p, now, Invite)
    case _ => false
  }

  // The step puts the access token on the blacklist.
  predicate Revokes(s: State, ev: Event, now: real, p: Payload) {
    ev.LogoutEvent? && ev.access == Some(p) && Decodes(s.tokens, p, now, Access)
  }

  // Issued tokens are filed under their own id, below the counter, and keys exist only for issued tokens.
  ghost predicate Filed(t: Tokens) {
    && (forall j :: j in t.issued ==> t.issued[j].jti == j && j < t.nextId)
    && (forall key :: key in t.store ==> key.jti in t.issued && key == KeyOf(t.issued[key.jti]))
    && (forall key :: key in t.store ==> t.store[key] >= t.issued[key.jti].exp as real)
  }

  // The key of a token set at any moment outlives the token.
  lemma KeyOutlivesToken(exp: int, now: real)
    ensures now + TtlSeconds(exp, now) as real >= exp as real
    ensures now + TtlSeconds(exp, now) as real > now
  {
  }

  lemma CreateFiled(t: Tokens, p: Payload)
    requires Filed(t) && p.jti == t.nextId
    ensures Filed(Created(t, p)) && p.jti !in t.issued
  {
  }

  lemma StoreFiled(t: Tokens, p: Payload, now: real)
    requires Filed(t)
    ensures Filed(Stored(t, p, now))
  {
    KeyOutlivesToken(p.exp, now);
  }

  lemma RevokeFiled(t: Tokens, p: Payload, now: real)
    requires Filed(t)
    ensures Filed(RevokedAccess(t, p, now))
  {
    KeyOutlivesToken(p.exp, now);
  }

  lemma IssueOneTimeFiled(s: State, tokenType: TokenType, user: Id, org: Id, now: real, seconds: int)
    requires Filed(s.tokens)
    ensures Filed(IssueOneTime(s, tokenType, user, org, now, seconds).0.tokens)
  {
    var p := NewPayload(s.tokens, user, org, tokenType, now, seconds);
    CreateFiled(s.tokens, p);
    StoreFiled(Created(s.tokens, p), p, now);
  }

  lemma IssueSessionFiled(cfg: Config, s: State, user: Id, org: Id, now: real, chain: Option<Id>)
    requires Filed(s.tokens)
    ensures Filed(IssueSession(cfg, s, user, org, now, chain).0.tokens)
  {
    hide Filed;
    var access := NewPayload(s.tokens, user, org, Access, now, cfg.accessSeconds);
    var withAccess := Created(s.tokens, access);
    var refresh := NewPayload(withAccess, user, org, Refresh, now, cfg.refreshSeconds);
    CreateFiled(s.tokens, access);
    CreateFiled(withAccess, refresh);
    StoreFiled(Created(withAccess, refresh), refresh, now);
  }

  lemma DropFiled(t: Tokens, key: RedisKey)
    requires Filed(t)
    ensures Filed(Dropped(t, key))
  {
  }

  lemma StepFiled(cfg: Config, s: State, ev: Event, now: real)
    requires Filed(s.tokens)
    ensures Filed(Apply(cfg, s, ev, now).0.tokens)
  {
    hide Filed, IssueOneTime, IssueSession, Dropped, RevokedAccess;
    match ev
    case RegisterEvent(org, password) =>
      var id := s.nextUser;
      IssueOneTimeFiled(s.(users := s.users[id := User(org, PendingVerification, false, password)], nextUser := id + 1),
                        EmailVerification, id, org, now, cfg.verifySeconds);
    case InviteEvent(org, password) =>
      var id := s.nextUser;
      IssueOneTimeFiled(s.(users := s.users[id := User(org, Invited, false, password)], nextUser := id + 1),
                        Invite, id, org, now, INVITE_SECONDS);
    case ForgotEvent(user) =>
      if user in s.users {
        IssueOneTimeFiled(s, PasswordReset, user, s.users[user].org, now, cfg.resetSeconds);
      }
    case LoginEvent(user, _) =>
      if user in s.users {
        IssueSessionFiled(cfg, s, user, s.users[user].org, now, None);
      }
    case RefreshEvent(token) =>
      DropFiled(s.tokens, KeyOf(token));
      IssueSessionFiled(cfg, s.(tokens := Dropped(s.tokens, KeyOf(token))), token.user, token.org, now,
                        if token.jti in s.lineage then Some(s.lineage[token.jti]) else None);
    case LogoutEvent(token, access) =>
      if access.Some? {
        RevokeFiled(s.tokens, access.value, now);
        DropFiled(RevokedAccess(s.tokens, access.value, now), KeyOf(token));
      }
      DropFiled(s.tokens, KeyOf(token));
    case ResetEvent(token, _) => DropFiled(s.tokens, KeyOf(token));
    case VerifyEvent(token) => DropFiled(s.tokens, KeyOf(token));
    case AcceptEvent(token, _) => DropFiled(s.tokens, KeyOf(token));
    case StatusEvent(_, _) =>
    case WorkspaceEvent(_) =>
  }

  lemma {:induction false} ReachableFiled(cfg: Config, run: Run, n: nat)
    requires IsRun(cfg, run) && n < |run.states|
    ensures Filed(run.states[n].tokens)
    decreases n
  {
    hide Apply;
    if n > 0 {
      ReachableFiled(cfg, run, n - 1);
      hide Filed;
      StepFiled(cfg, run.states[n - 1], run.events[n - 1], run.times[n - 1]);
    }
  }

  // The token was issued, and this is its record.
  predicate Known(t: Tokens, p: Payload) {
    p.jti in t.issued && t.issued[p.jti] == p
  }

  lemma CreateOld(t: Tokens, q: Payload, p: Payload)
    requires Filed(t) && q.jti == t.nextId && Known(t, p)
    ensures Filed(Created(t, q)) && Known(Created(t, q), p) && Known(Created(t, q), q) && q != p
    ensures KeyOf(p) in Created(t, q).store <==> KeyOf(p) in t.store
  {
    CreateFiled(t, q);
  }

  lemma StoreOld(t: Tokens, q: Payload, now: real, p: Payload)
    requires Filed(t) && Known(t, p) && q.jti != p.jti
    ensures Known(Stored(t, q, now), p)
    ensures KeyOf(p) in Stored(t, q, now).store <==> KeyOf(p) in t.store
  {
    assert KeyOf(q) != KeyOf(p);
  }

  lemma OneTimeOld(s: State, tokenType: TokenType, user: Id, org: Id, now: real, seconds: int, p: Payload)
    requires Filed(s.tokens) && Known(s.tokens, p)
    ensures var t := IssueOneTime(s, tokenType, user, org, now, seconds).0.tokens;
      Known(t, p) && (KeyOf(p) in t.store <==> KeyOf(p) in s.tokens.store)
  {
    var q := NewPayload(s.tokens, user, org, tokenType, now, seconds);
    CreateOld(s.tokens, q, p);
    assert q.jti != p.jti;
    hide Filed, Stored, Created, KeyOf;
    StoreOld(Created(s.tokens, q), q, now, p);
  }

  lemma SessionOld(cfg: Config, s: State, user: Id, org: Id, now: real, chain: Option<Id>, p: Payload)
    requires Filed(s.tokens) && Known(s.tokens, p)
    ensures var t := IssueSession(cfg, s, user, org, now, chain).0.tokens;
      Known(t, p) && (KeyOf(p) in t.store <==> KeyOf(p) in s.tokens.store)
  {
    hide Filed, Stored, KeyOf;
    var access := NewPayload(s.tokens, user, org, Access, now, cfg.accessSeconds);
    var withAccess := Created(s.tokens, access);
    var refresh := NewPayload(withAccess, user, org, Refresh, now, cfg.refreshSeconds);
    CreateOld(s.tokens, access, p);
    CreateOld(withAccess, refresh, p);
    StoreOld(Created(withAccess, refresh), refresh, now, p);
  }

  // Dropping an issued token's key touches no other token.
  lemma DropOld(t: Tokens, q: Payload, p: Payload)
    requires Known(t, q) && Known(t, p)
    ensures Known(Dropped(t, KeyOf(q)), p)
    ensures KeyOf(p) in Dropped(t, KeyOf(q)).store <==> KeyOf(p) in t.store && q != p
  {
  }

  lemma RevokeOld(t: Tokens, q: Payload, now: real, p: Payload)
    requires Known(t, p)
    ensures Known(RevokedAccess(t, q, now), p)
    ensures KeyOf(p) in RevokedAccess(t, q, now).store <==>
      KeyOf(p) in t.store || (q == p && Decodes(t, q, now, Access))
  {
  }

  lemma ConsumeOld(s: State, token: Payload, tokenType: TokenType, now: real, p: Payload)
    requires Known(s.tokens, p)
    ensures var t := Consume(s, token, tokenType, now).0.tokens;
      && Known(t, p)
      && (KeyOf(p) in t.store <==> KeyOf(p) in s.tokens.store && !(token == p && Passes(s.tokens, p, now, tokenType)))
  {
    if Passes(s.tokens, token, now, tokenType) {
      hide Dropped;
      DropOld(s.tokens, token, p);
    }
  }

  lemma LogoutOld(s: State, token: Payload, access: Option<Payload>, now: real, p: Payload)
    requires Known(s.tokens, p)
    ensures var t := Logout(s, token, access, now).0.tokens;
      && Known(t, p)
      && (KeyOf(p) in t.store <==>
            (KeyOf(p) in s.tokens.store || (access == Some(p) && Decodes(s.tokens, p, now, Access)))
            && !(token == p && Decodes(s.tokens, p, now, Refresh)))
  {
    hide Dropped;
    var revoked := if access.Some? then RevokedAccess(s.tokens, access.value, now) else s.tokens;
    assert revoked.issued == s.tokens.issued;
    if access.Some? {
      RevokeOld(s.tokens, access.value, now, p);
    }
    if Decodes(revoked, token, now, Refresh) {
      DropOld(revoked, token, p);
    }
  }

  lemma RotateOld(cfg: Config, s: State, token: Payload, now: real, p: Payload)
    requires Filed(s.tokens) && Known(s.tokens, p)
    ensures var t := Rotate(cfg, s, token, now).0.tokens;
      && Known(t, p)
      && (KeyOf(p) in t.store <==> KeyOf(p) in s.tokens.store && !Spends(s, RefreshEvent(token), now, p))
  {
    hide IssueSession, Dropped, Filed;
    if Passes(s.tokens, token, now, Refresh) {
      DropOld(s.tokens, token, p);
      DropFiled(s.tokens, KeyOf(token));
      SessionOld(cfg, s.(tokens := Dropped(s.tokens, KeyOf(token))), token.user, token.org, now,
                 if token.jti in s.lineage then Some(s.lineage[token.jti]) else None, p);
    }
  }

  // A token issued before the step stays issued.  Its session or one-time key survives unless the step
  // spends it, and its blacklist key survives always; no key comes back.
  lemma OldTokenStep(cfg: Config, s: State, ev: Event, now: real, p: Payload)
    requires Filed(s.tokens) && Known(s.tokens, p)
    ensures var t := Apply(cfg, s, ev, now).0.tokens;
      && Known(t, p)
      && (p.tokenType != Access ==> (KeyOf(p) in t.store <==> KeyOf(p) in s.tokens.store && !Spends(s, ev, now, p)))
      && (p.tokenType == Access ==> (KeyOf(p) in t.store <==> KeyOf(p) in s.tokens.store || Revokes(s, ev, now, p)))
  {
    hide Filed, IssueOneTime, IssueSession, Consume, Logout, Rotate, Known, KeyOf;
    match ev
    case RegisterEvent(org, password) =>
      var id := s.nextUser;
      OneTimeOld(s.(users := s.users[id := User(org, PendingVerification, false, password)], nextUser := id + 1),
                 EmailVerification, id, org, now, cfg.verifySeconds, p);
    case InviteEvent(org, password) =>
      var id := s.nextUser;
      OneTimeOld(s.(users := s.users[id := User(org, Invited, false, password)], nextUser := id + 1),
                 Invite, id, org, now, INVITE_SECONDS, p);
    case ForgotEvent(user) =>
      if user in s.users {
        OneTimeOld(s, PasswordReset, user, s.users[user].org, now, cfg.resetSeconds, p);
      }
    case LoginEvent(user, _) =>
      if user in s.users {
        SessionOld(cfg, s, user, s.users[user].org, now, None, p);
      }
    case RefreshEvent(token) => RotateOld(cfg, s, token, now, p);
    case LogoutEvent(token, access) => LogoutOld(s, token, access, now, p);
    case ResetEvent(token, _) => ConsumeOld(s, token, PasswordReset, now, p);
    case VerifyEvent(token) => ConsumeOld(s, token, EmailVerification, now, p);
    case AcceptEvent(token, _) => ConsumeOld(s, token, Invite, now, p);
    case StatusEvent(_, _) =>
    case WorkspaceEvent(_) =>
  }

  lemma OneTimeNew(s: State, tokenType: TokenType, user: Id, org: Id, now: real, seconds: int, p: Payload)
    requires Filed(s.tokens) && p.jti !in s.tokens.issued && tokenType != Access && tokenType != Refresh
    requires Known(IssueOneTime(s, tokenType, user, org, now, seconds).0.tokens, p)
    ensures p.tokenType == tokenType
    ensures KeyOf(p) in IssueOneTime(s, tokenType, user, org, now, seconds).0.tokens.store <==> now < p.exp as real
  {
  }

  lemma SessionNew(cfg: Config, s: State, user: Id, org: Id, now: real, chain: Option<Id>, p: Payload)
    requires Filed(s.tokens) && p.jti !in s.tokens.issued
    requires Known(IssueSession(cfg, s, user, org, now, chain).0.tokens, p)
    ensures var t := IssueSession(cfg, s, user, org, now, chain).0.tokens;
      && (p.tokenType == Access || p.tokenType == Refresh)
      && (KeyOf(p) in t.store <==> p.tokenType == Refresh && now < p.exp as real)
  {
  }

  // A token issued by the step has its key, unless it was born expired or is an access token.
  lemma NewTokenStep(cfg: Config, s: State, ev: Event, now: real, p: Payload)
    requires Filed(s.tokens) && p.jti !in s.tokens.issued
    requires Known(Apply(cfg, s, ev, now).0.tokens, p)
    ensures p.tokenType != Access ==> (KeyOf(p) in Apply(cfg, s, ev, now).0.tokens.store <==> now < p.exp as real)
    ensures p.tokenType == Access ==> KeyOf(p) !in Apply(cfg, s, ev, now).0.tokens.store
  {
    hide Filed, IssueOneTime, IssueSession, KeyOf;
    match ev
    case RegisterEvent(org, password) =>
      var id := s.nextUser;
      OneTimeNew(s.(users := s.users[id := User(org, PendingVerification, false, password)], nextUser := id + 1),
                 EmailVerification, id, org, now, cfg.verifySeconds, p);
    case InviteEvent(org, password) =>
      var id := s.nextUser;
      OneTimeNew(s.(users := s.users[id := User(org, Invited, false, password)], nextUser := id + 1),
                 Invite, id, org, now, INVITE_SECONDS, p);
    case ForgotEvent(user) =>
      if user in s.users {
        OneTimeNew(s, PasswordReset, user, s.users[user].org, now, cfg.resetSeconds, p);
      }
    case LoginEvent(user, _) =>
      if user in s.users {
        SessionNew(cfg, s, user, s.users[user].org, now, None, p);
      }
    case RefreshEvent(token) =>
      DropFiled(s.tokens, KeyOf(token));
      var dropped := s.(tokens := Dropped(s.tokens, KeyOf(token)));
      var chain := if token.jti in s.lineage then Some(s.lineage[token.jti]) else None;
      if Known(IssueSession(cfg, dropped, token.user, token.org, now, chain).0.tokens, p) {
        SessionNew(cfg, dropped, token.user, token.org, now, chain, p);
      }
    case _ =>
  }

  // ---------- A refresh or one-time token works until it is spent ----------

  lemma {:induction false} KeyPresentIffUnspent(cfg: Config, run: Run, n: nat, p: Payload)
    requires IsRun(cfg, run) && n < |run.states|
    requires Known(run.states[n].tokens, p) && p.tokenType != Access
    ensures (KeyOf(p) in run.states[n].tokens.store ==> forall i :: 0 <= i < n ==>
      !Spends(run.states[i], run.events[i], run.times[i], p))
    ensures (KeyOf(p) !in run.states[n].tokens.store ==>
               (exists i :: 0 <= i < n && Spends(run.states[i], run.events[i], run.times[i], p))
               || (n > 0 && p.exp as real <= run.times[n - 1]))
    decreases n
  {
    hide Apply, Spends;
    if n > 0 {
      var s, ev, now := run.states[n - 1], run.events[n - 1], run.times[n - 1];
      ReachableFiled(cfg, run, n - 1);
      hide Filed;
      if p.jti in s.tokens.issued {
        IssuedIsKept(cfg, s, ev, now, p.jti);
        OldTokenStep(cfg, s, ev, now, p);
        KeyPresentIffUnspent(cfg, run, n - 1, p);
        assert n >= 2 ==> run.times[n - 2] <= now;
      } else {
        NewTokenStep(cfg, s, ev, now, p);
        forall i | 0 <= i < n
          ensures !Spends(run.states[i], run.events[i], run.times[i], p)
        {
          if Spends(run.states[i], run.events[i], run.times[i], p) {
            SpentWasIssued(run.states[i], run.events[i], run.times[i], p);
            IssuedThrough(cfg, run, i, n - 1, p.jti);
          }
        }
      }
    }
  }

  lemma SpentWasIssued(s: State, ev: Event, now: real, p: Payload)
    requires Spends(s, ev, now, p) || Revokes(s, ev, now, p)
    ensures p.jti in s.tokens.issued && s.tokens.issued[p.jti] == p
  {
  }

  lemma IssuedIsKept(cfg: Config, s: State, ev: Event, now: real, j: Id)
    requires Filed(s.tokens) && j in s.tokens.issued
    ensures j in Apply(cfg, s, ev, now).0.tokens.issued
    ensures Apply(cfg, s, ev, now).0.tokens.issued[j] == s.tokens.issued[j]
  {
    var p := s.tokens.issued[j];
    OldTokenStep(cfg, s, ev, now, p);
  }

  lemma {:induction false} IssuedThrough(cfg: Config, run: Run, m: nat, n: nat, j: Id)
    requires IsRun(cfg, run) && m <= n < |run.states| && j in run.states[m].tokens.issued
    ensures j in run.states[n].tokens.issued && run.states[n].tokens.issued[j] == run.states[m].tokens.issued[j]
    decreases n
  {
    hide Apply;
    if m < n {
      IssuedThrough(cfg, run, m, n - 1, j);
      ReachableFiled(cfg, run, n - 1);
      IssuedIsKept(cfg, run.states[n - 1], run.events[n - 1], run.times[n - 1], j);
    }
  }

  // An issued refresh or one-time token passes at a later moment exactly while it has not expired and no
  // earlier event has spent it.
  lemma PassesIffUnspent(cfg: Config, run: Run, n: nat, p: Payload, now: real)
    requires IsRun(cfg, run) && n < |run.states| && IsLater(run, n, now)
    requires Known(run.states[n].tokens, p) && p.tokenType != Access
    ensures Passes(run.states[n].tokens, p, now, p.tokenType) <==>
      now < p.exp as real && forall i :: 0 <= i < n ==> !Spends(run.states[i], run.events[i], run.times[i], p)
  {
    hide Spends, Apply;
    KeyPresentIffUnspent(cfg, run, n, p);
    ReachableFiled(cfg, run, n);
    assert n > 0 ==> run.times[n - 1] <= now;
  }

  // The call presents the token to be exchanged or consumed.
  predicate Presents(ev: Event, p: Payload) {
    (ev.RefreshEvent? || ev.ResetEvent? || ev.VerifyEvent? || ev.AcceptEvent?) && ev.token == p
  }

  lemma RefusedUnlessPasses(cfg: Config, s: State, ev: Event, now: real, p: Payload)
    requires Presents(ev, p) && !Passes(s.tokens, p, now, p.tokenType)
    ensures Apply(cfg, s, ev, now) == (s, TokenError)
  {
  }

  // No token is spent twice: a refresh token passes one rotation and none after a logout, and a one-time
  // token is consumed once.
  lemma SpentAtMostOnce(cfg: Config, run: Run, i: nat, j: nat, p: Payload)
    requires IsRun(cfg, run) && i < j < |run.events|
    requires Spends(run.states[i], run.events[i], run.times[i], p)
    ensures !Passes(run.states[j].tokens, p, run.times[j], p.tokenType)
    ensures Presents(run.events[j], p) ==> Apply(cfg, run.states[j], run.events[j], run.times[j]).1 == TokenError
  {
    SpentWasIssued(run.states[i], run.events[i], run.times[i], p);
    SpentType(run.states[i], run.events[i], run.times[i], p);
    IssuedThrough(cfg, run, i, j, p.jti);
    assert IsLater(run, j, run.times[j]);
    hide Spends, Apply, Passes;
    PassesIffUnspent(cfg, run, j, p, run.times[j]);
    if Presents(run.events[j], p) {
      RefusedUnlessPasses(cfg, run.states[j], run.events[j], run.times[j], p);
    }
  }

  lemma SpentType(s: State, ev: Event, now: real, p: Payload)
    requires Spends(s, ev, now, p)
    ensures p.tokenType != Access
  {
  }

  // A refresh token that was presented to a logout never passes again, whether the logout worked or not.
  lemma NoRefreshAfterLogout(cfg: Config, run: Run, i: nat, j: nat, p: Payload)
    requires IsRun(cfg, run) && i < j < |run.events|
    requires run.events[i].LogoutEvent? && run.events[i].token == p
    requires p.jti in run.states[i].tokens.issued
    ensures !Passes(run.states[j].tokens, p, run.times[j], Refresh)
  {
    hide Apply;
    if Spends(run.states[i], run.events[i], run.times[i], p) {
      hide IsRun;
      SpentAtMostOnce(cfg, run, i, j, p);
    } else {
      IssuedThrough(cfg, run, i, j, p.jti);
    }
  }

  // ---------- Rotation keeps one live token per login ----------

  // Two refresh tokens of one chain are never both stored, and every stored one belongs to a chain.
  predicate SameChain(s: State, j: Id, k: Id) {
    && RefreshKey(j) in s.tokens.store && RefreshKey(k) in s.tokens.store
    && j in s.lineage && k in s.lineage && s.lineage[j] == s.lineage[k]
  }

  // No stored token belongs to the chain.
  ghost predicate ChainIsFree(s: State, chain: Id) {
    forall j :: RefreshKey(j) in s.tokens.store && j in s.lineage ==> s.lineage[j] != chain
  }

  ghost predicate OnePerChain(s: State) {
    && (forall j :: RefreshKey(j) in s.tokens.store ==> j in s.lineage)
    && (forall j, k :: SameChain(s, j, k) ==> j == k)
    && (forall j :: j in s.lineage ==> j < s.tokens.nextId && s.lineage[j] < s.tokens.nextId)
  }

  lemma SessionKeepsChains(cfg: Config, s: State, user: Id, org: Id, now: real, chain: Option<Id>)
    requires Filed(s.tokens) && OnePerChain(s)
    requires chain.Some? ==> chain.value < s.tokens.nextId && ChainIsFree(s, chain.value)
    ensures OnePerChain(IssueSession(cfg, s, user, org, now, chain).0)
  {
    var t := IssueSession(cfg, s, user, org, now, chain).0;
    var newest := s.tokens.nextId + 1;
    assert t.lineage == s.lineage[newest := if chain.Some? then chain.value else newest];
    assert forall j: Id :: RefreshKey(j) in t.tokens.store ==> j == newest || RefreshKey(j) in s.tokens.store;
    hide Filed, IssueSession;
    forall j: Id, k: Id | SameChain(t, j, k)
      ensures j == k
    {
      if j != newest && k != newest {
        assert SameChain(s, j, k);
      }
    }
  }

  lemma DropKeepsChains(s: State, token: Payload)
    requires OnePerChain(s) && token.tokenType == Refresh
    ensures var t := s.(tokens := Dropped(s.tokens, KeyOf(token)));
      && OnePerChain(t)
      && (RefreshKey(token.jti) in s.tokens.store && token.jti in s.lineage ==> ChainIsFree(t, s.lineage[token.jti]))
  {
    var t := s.(tokens := Dropped(s.tokens, KeyOf(token)));
    forall j: Id, k: Id | SameChain(t, j, k)
      ensures j == k
    {
      assert SameChain(s, j, k);
    }
    if RefreshKey(token.jti) in s.tokens.store && token.jti in s.lineage {
      forall j: Id | RefreshKey(j) in t.tokens.store && j in t.lineage
        ensures t.lineage[j] != s.lineage[token.jti]
      {
        assert SameChain(s, j, token.jti) ==> j == token.jti;
      }
    }
  }

  lemma RotateKeepsChains(cfg: Config, s: State, token: Payload, now: real)
    requires Filed(s.tokens) && OnePerChain(s)
    ensures OnePerChain(Rotate(cfg, s, token, now).0)
  {
    if Passes(s.tokens, token, now, Refresh) {
      DropKeepsChains(s, token);
      DropFiled(s.tokens, KeyOf(token));
      assert token.jti in s.lineage;
      hide Filed, OnePerChain, IssueSession;
      SessionBounds(s, token);
      SessionKeepsChains(cfg, s.(tokens := Dropped(s.tokens, KeyOf(token))), token.user, token.org, now,
          Some(s.lineage[token.jti]));
    }
  }

  lemma SessionBounds(s: State, token: Payload)
    requires OnePerChain(s) && token.jti in s.lineage
    ensures s.lineage[token.jti] < Dropped(s.tokens, KeyOf(token)).nextId
  {
  }

  // Steps that store no refresh key and forget no chain.
  lemma OtherKeepsChains(s: State, t: State)
    requires OnePerChain(s) && t.lineage == s.lineage && t.tokens.nextId >= s.tokens.nextId
    requires forall j :: RefreshKey(j) in t.tokens.store ==> RefreshKey(j) in s.tokens.store
    ensures OnePerChain(t)
  {
    forall j: Id, k: Id | SameChain(t, j, k)
      ensures j == k
    {
      assert SameChain(s, j, k);
    }
  }

  lemma StepKeepsChains(cfg: Config, s: State, ev: Event, now: real)
    requires Filed(s.tokens) && OnePerChain(s)
    ensures OnePerChain(Apply(cfg, s, ev, now).0)
  {
    hide Filed, OnePerChain;
    match ev
    case LoginEvent(user, _) =>
      if user in s.users {
        SessionKeepsChains(cfg, s, user, s.users[user].org, now, None);
      }
    case RefreshEvent(token) => RotateKeepsChains(cfg, s, token, now);
    case RegisterEvent(_, _) => OtherKeepsChains(s, Apply(cfg, s, ev, now).0);
    case InviteEvent(_, _) => OtherKeepsChains(s, Apply(cfg, s, ev, now).0);
    case ForgotEvent(_) => OtherKeepsChains(s, Apply(cfg, s, ev, now).0);
    case LogoutEvent(_, _) => OtherKeepsChains(s, Apply(cfg, s, ev, now).0);
    case ResetEvent(_, _) => OtherKeepsChains(s, Apply(cfg, s, ev, now).0);
    case VerifyEvent(_) => OtherKeepsChains(s, Apply(cfg, s, ev, now).0);
    case AcceptEvent(_, _) => OtherKeepsChains(s, Apply(cfg, s, ev, now).0);
    case StatusEvent(_, _) => OtherKeepsChains(s, Apply(cfg, s, ev, now).0);
    case WorkspaceEvent(_) => OtherKeepsChains(s, Apply(cfg, s, ev, now).0);
  }

  // In every reachable state each login's chain has at most one stored refresh token.
  lemma {:induction false} OneLiveTokenPerChain(cfg: Config, run: Run, n: nat)
    requires IsRun(cfg, run) && n < |run.states|
    ensures OnePerChain(run.states[n])
    decreases n
  {
    hide Apply;
    if n > 0 {
      OneLiveTokenPerChain(cfg, run, n - 1);
      ReachableFiled(cfg, run, n - 1);
      hide Filed, OnePerChain;
      StepKeepsChains(cfg, run.states[n - 1], run.events[n - 1], run.times[n - 1]);
    }
  }

  function LiveSessions(t: Tokens, now: real): set<RedisKey> {
    set key | key in t.store && key.RefreshKey? && now < t.store[key]
  }

  // A successful rotation swaps one live session for another: their number stays the same.
  lemma RotationKeepsSessionCount(cfg: Config, s: State, token: Payload, now: real)
    requires Filed(s.tokens) && Rotate(cfg, s, token, now).1.Session?
    ensures var t, reply := Rotate(cfg, s, token, now).0, Rotate(cfg, s, token, now).1;
      && LiveSessions(t.tokens, now) == LiveSessions(s.tokens, now) - {KeyOf(token)} + {KeyOf(reply.refresh)}
      && KeyOf(token) in LiveSessions(s.tokens, now) && KeyOf(reply.refresh) !in LiveSessions(s.tokens, now)
      && |LiveSessions(t.tokens, now)| == |LiveSessions(s.tokens, now)|
  {
    var refresh := Rotate(cfg, s, token, now).1.refresh;
    KeyOutlivesToken(refresh.exp, now);
    assert refresh.jti !in s.tokens.issued;
    var before, after := LiveSessions(s.tokens, now), LiveSessions(Rotate(cfg, s, token, now).0.tokens, now);
    assert after == before - {KeyOf(token)} + {KeyOf(refresh)};
  }

  // ---------- Revocation covers validity ----------

  lemma {:induction false} BlacklistedIffRevoked(cfg: Config, run: Run, n: nat, p: Payload)
    requires IsRun(cfg, run) && n < |run.states|
    requires Known(run.states[n].tokens, p) && p.tokenType == Access
    ensures KeyOf(p) in run.states[n].tokens.store
       <==> exists i :: 0 <= i < n && Revokes(run.states[i], run.events[i], run.times[i], p)
    decreases n
  {
    hide Apply, Revokes;
    if n > 0 {
      var s, ev, now := run.states[n - 1], run.events[n - 1], run.times[n - 1];
      ReachableFiled(cfg, run, n - 1);
      hide Filed;
      if p.jti in s.tokens.issued {
        IssuedIsKept(cfg, s, ev, now, p.jti);
        OldTokenStep(cfg, s, ev, now, p);
        BlacklistedIffRevoked(cfg, run, n - 1, p);
      } else {
        NewTokenStep(cfg, s, ev, now, p);
        forall i | 0 <= i < n
          ensures !Revokes(run.states[i], run.events[i], run.times[i], p)
        {
          if Revokes(run.states[i], run.events[i], run.times[i], p) {
            SpentWasIssued(run.states[i], run.events[i], run.times[i], p);
            IssuedThrough(cfg, run, i, n - 1, p.jti);
          }
        }
      }
    }
  }

  // An issued access token is accepted at a later moment exactly while it has not expired and has not been
  // revoked: the blacklist entry never lapses before the token does.
  lemma AcceptedIffNotRevoked(cfg: Config, run: Run, n: nat, p: Payload, now: real)
    requires IsRun(cfg, run) && n < |run.states|
    requires Known(run.states[n].tokens, p) && p.tokenType == Access
    ensures Accepted(run.states[n].tokens, p, now) <==>
      now < p.exp as real && forall i :: 0 <= i < n ==> !Revokes(run.states[i], run.events[i], run.times[i], p)
  {
    BlacklistedIffRevoked(cfg, run, n, p);
    ReachableFiled(cfg, run, n);
  }

  // ---------- What a call is for ----------

  // The moment a token issued now for so many seconds expires, rounded down to a whole second.
  predicate ExpiresAfter(p: Payload, now: real, seconds: int) {
    now + seconds as real - 1.0 < p.exp as real <= now + seconds as real
  }

  // The two tokens of a new session belong to the user and work until each one's own lifetime is over.
  lemma SessionWorksUntilExpiry(cfg: Config, s: State, user: Id, org: Id, now: real, chain: Option<Id>, later: real)
    requires Filed(s.tokens) && now <= later && IssueSession(cfg, s, user, org, now, chain).1.Session?
    ensures var (t, reply) := IssueSession(cfg, s, user, org, now, chain);
      && reply.access.user == user && reply.access.org == org && reply.refresh.user == user && reply.refresh.org == org
      && ExpiresAfter(reply.access, now, cfg.accessSeconds) && ExpiresAfter(reply.refresh, now, cfg.refreshSeconds)
      && (Accepted(t.tokens, reply.access, later) <==> later < reply.access.exp as real)
      && (Passes(t.tokens, reply.refresh, later, Refresh) <==> later < reply.refresh.exp as real)
  {
    var access := NewPayload(s.tokens, user, org, Access, now, cfg.accessSeconds);
    assert BlacklistKey(access.jti) !in s.tokens.store;
    hide Filed;
    KeyOutlivesToken(IssueSession(cfg, s, user, org, now, chain).1.refresh.exp, now);
  }

  lemma OneTimeWorksUntilExpiry(s: State, tokenType: TokenType, user: Id, org: Id, now: real, seconds: int, later: real)
    requires now <= later && IssueOneTime(s, tokenType, user, org, now, seconds).1.Issued?
    requires tokenType != Access && tokenType != Refresh
    ensures var (t, reply) := IssueOneTime(s, tokenType, user, org, now, seconds);
      var p := reply.token;
      && p.user == user && p.org == org && t.users == s.users && ExpiresAfter(p, now, seconds)
      && (Passes(t.tokens, p, later, tokenType) <==> later < p.exp as real)
  {
    KeyOutlivesToken(NewPayload(s.tokens, user, org, tokenType, now, seconds).exp, now);
  }

  // A login is turned away with every other password, and not with this one.
  ghost predicate LogsInWith(cfg: Config, s: State, user: Id, password: string) {
    forall attempt, at :: Login(cfg, s, user, attempt, at).1 == AuthError <==> attempt != password
  }

  ghost predicate NeverLogsIn(cfg: Config, s: State, user: Id) {
    forall attempt, at :: Login(cfg, s, user, attempt, at).1 == AuthError
  }

  lemma ReadyLogsIn(cfg: Config, s: State, user: Id)
    requires user in s.users
    ensures
      if s.users[user].status == Active && s.users[user].verified then LogsInWith(cfg, s, user, s.users[user].password)
      else NeverLogsIn(cfg, s, user)
  {
  }

  // A registered user cannot log in before the verification, which works until its token expires, and
  // afterwards exactly with the password of the registration.
  lemma RegisterVerifyLogin(cfg: Config, s: State, org: Id, password: string, now: real, later: real)
    requires now <= later && Register(cfg, s, org, password, now).1.Issued?
    ensures var (t, issued) := Register(cfg, s, org, password, now);
      var token, user := issued.token, s.nextUser;
      var (verified, reply) := VerifyEmail(t, token, later);
      && NeverLogsIn(cfg, t, user) && ExpiresAfter(token, now, cfg.verifySeconds)
      && (reply == Ok <==> later < token.exp as real)
      && (reply == Ok ==> LogsInWith(cfg, verified, user, password))
  {
    var user := s.nextUser;
    var added := s.(users := s.users[user := User(org, PendingVerification, false, password)], nextUser := user + 1);
    hide IssueOneTime, Passes, Dropped, Login, LogsInWith, NeverLogsIn;
    OneTimeWorksUntilExpiry(added, EmailVerification, user, org, now, cfg.verifySeconds, later);
    var t, token := Register(cfg, s, org, password, now).0, Register(cfg, s, org, password, now).1.token;
    ReadyLogsIn(cfg, t, user);
    ReadyLogsIn(cfg, VerifyEmail(t, token, later).0, user);
  }

  // The same for an invitation, whose acceptance sets the password.
  lemma InviteAcceptLogin(cfg: Config, s: State, org: Id, initial: string, now: real, later: real, password: string)
    requires now <= later && InviteUser(s, org, initial, now).1.Issued?
    ensures var (t, issued) := InviteUser(s, org, initial, now);
      var token, user := issued.token, s.nextUser;
      var (accepted, reply) := AcceptInvite(t, token, password, later);
      && NeverLogsIn(cfg, t, user) && ExpiresAfter(token, now, INVITE_SECONDS)
      && (reply == Ok <==> later < token.exp as real)
      && (reply == Ok ==> LogsInWith(cfg, accepted, user, password))
  {
    var user := s.nextUser;
    var added := s.(users := s.users[user := User(org, Invited, false, initial)], nextUser := user + 1);
    hide IssueOneTime, Passes, Dropped, Login, LogsInWith, NeverLogsIn;
    OneTimeWorksUntilExpiry(added, Invite, user, org, now, INVITE_SECONDS, later);
    var t, token := InviteUser(s, org, initial, now).0, InviteUser(s, org, initial, now).1.token;
    ReadyLogsIn(cfg, t, user);
    ReadyLogsIn(cfg, AcceptInvite(t, token, password, later).0, user);
  }

  // A reset replaces the password and nothing else: who could log in still can, with the new one only.
  lemma ForgotResetLogin(cfg: Config, s: State, user: Id, now: real, later: real, password: string)
    requires now <= later && ForgotPassword(cfg, s, user, now).1.Issued?
    ensures var t, token := ForgotPassword(cfg, s, user, now).0, ForgotPassword(cfg, s, user, now).1.token;
      var (changed, reply) := ResetPassword(t, token, password, later);
      && user in s.users && ExpiresAfter(token, now, cfg.resetSeconds)
      && (reply == Ok <==> later < token.exp as real)
      && (reply == Ok && s.users[user].status == Active && s.users[user].verified ==>
        LogsInWith(cfg, changed, user, password))
      && (reply == Ok && !(s.users[user].status == Active && s.users[user].verified) ==>
        NeverLogsIn(cfg, changed, user))
  {
    hide IssueOneTime, Passes, Dropped, Login, LogsInWith, NeverLogsIn;
    OneTimeWorksUntilExpiry(s, PasswordReset, user, s.users[user].org, now, cfg.resetSeconds, later);
    var t, token := ForgotPassword(cfg, s, user, now).0, ForgotPassword(cfg, s, user, now).1.token;
    if ResetPassword(t, token, password, later).1 == Ok {
      ReadyLogsIn(cfg, ResetPassword(t, token, password, later).0, user);
    }
  }

  // ---------- Users that are gone or not active ----------

  // A one-time token is spent even when its user is gone.
  lemma OrphanIsSpent(s: State, token: Payload, tokenType: TokenType, now: real, later: real)
    requires tokenType != Access && Passes(s.tokens, token, now, tokenType) && !HasUser(s, token.user, token.org)
    ensures Consume(s, token, tokenType, now).1 == NotFound
    ensures !Passes(Consume(s, token, tokenType, now).0.tokens, token, later, tokenType)
  {
  }

  // A refresh by a user who is gone or not active changes nothing: the session still passes.
  lemma InactiveKeepsSession(cfg: Config, s: State, token: Payload, now: real)
    requires Passes(s.tokens, token, now, Refresh)
    ensures Rotate(cfg, s, token, now) == (s, AuthError) <==>
      !HasUser(s, token.user, token.org) || s.users[token.user].status != Active
  {
    hide IssueSession;
    if HasUser(s, token.user, token.org) && s.users[token.user].status == Active {
      var chain := if token.jti in s.lineage then Some(s.lineage[token.jti]) else None;
      SessionReply(cfg, s.(tokens := Dropped(s.tokens, KeyOf(token))), token.user, token.org, now, chain);
    }
  }

  lemma SessionReply(cfg: Config, s: State, user: Id, org: Id, now: real, chain: Option<Id>)
    ensures IssueSession(cfg, s, user, org, now, chain).1 != AuthError
  {
  }

  // Users are numbered below the counter.
  ghost predicate UsersBelow(s: State) {
    forall u :: u in s.users ==> u < s.nextUser
  }

  lemma StepUsers(cfg: Config, s: State, ev: Event, now: real)
    requires UsersBelow(s)
    ensures var t := Apply(cfg, s, ev, now).0;
      && UsersBelow(t) && t.nextUser >= s.nextUser
      && forall u :: u in t.users ==> u in s.users || u >= s.nextUser
  {
    hide Created, Stored, Dropped, RevokedAccess, Decodes, Alive;
  }

  lemma {:induction false} ReachableUsers(cfg: Config, run: Run, n: nat)
    requires IsRun(cfg, run) && n < |run.states|
    ensures UsersBelow(run.states[n])
    decreases n
  {
    hide Apply;
    if n > 0 {
      ReachableUsers(cfg, run, n - 1);
      StepUsers(cfg, run.states[n - 1], run.events[n - 1], run.times[n - 1]);
    }
  }

  lemma {:induction false} GoneStaysGone(cfg: Config, run: Run, m: nat, n: nat, user: Id)
    requires IsRun(cfg, run) && m <= n < |run.states|
    requires user !in run.states[m].users && user < run.states[m].nextUser
    ensures user !in run.states[n].users && user < run.states[n].nextUser
    decreases n
  {
    hide Apply;
    if m < n {
      GoneStaysGone(cfg, run, m, n - 1, user);
      ReachableUsers(cfg, run, n - 1);
      StepUsers(cfg, run.states[n - 1], run.events[n - 1], run.times[n - 1]);
    }
  }

  // Once a workspace is deleted, none of its users logs in, refreshes or uses a one-time token ever again; a
  // one-time token of theirs that still passes is only spent.
  lemma DeletedWorkspaceIsShut(cfg: Config, run: Run, i: nat, n: nat, user: Id)
    requires IsRun(cfg, run) && i < n < |run.states| && run.events[i].WorkspaceEvent?
    requires user in run.states[i].users && run.states[i].users[user].org == run.events[i].org
    ensures NeverLogsIn(cfg, run.states[n], user)
    ensures forall token: Payload, now: real :: token.user == user ==>
      !Rotate(cfg, run.states[n], token, now).1.Session?
    ensures forall token: Payload, tokenType: TokenType, now: real :: token.user == user ==>
      Consume(run.states[n], token, tokenType, now).1 != Ok
  {
    ReachableUsers(cfg, run, i);
    assert user !in run.states[i + 1].users && user < run.states[i + 1].nextUser;
    GoneStaysGone(cfg, run, i + 1, n, user);
    hide IsRun, Passes, IssueSession, Dropped;
  }
}
