// Whose sessions and tokens they are, what each call answers, and what a consumed token is good for.
module TokenLaws {
  import opened Common
  import opened TokenModel
  import opened TokenProofs

  // ---------- Sessions ----------

  // The two tokens belong to this user of this organization, and each works from now on exactly until its own
  // lifetime is over.
  ghost predicate IsSessionOf(cfg: Config, t: State, user: Id, org: Id, now: real, reply: Reply) {
    && reply.Session?
    && reply.access.user == user && reply.access.org == org && ExpiresAfter(reply.access, now, cfg.accessSeconds)
    && reply.refresh.user == user && reply.refresh.org == org && ExpiresAfter(reply.refresh, now, cfg.refreshSeconds)
    && forall later :: now <= later ==>
         && (Accepted(t.tokens, reply.access, later) <==> later < reply.access.exp as real)
         && (Passes(t.tokens, reply.refresh, later, Refresh) <==> later < reply.refresh.exp as real)
  }

  // A session is refused exactly when refresh tokens have no lifetime.
  lemma SessionIffLifetime(cfg: Config, s: State, user: Id, org: Id, now: real, chain: Option<Id>)
    requires Filed(s.tokens)
    ensures var (t, reply) := IssueSession(cfg, s, user, org, now, chain);
      && (reply.Session? <==> cfg.refreshSeconds >= 1) && (!reply.Session? ==> reply == TokenError)
      && (reply.Session? ==> IsSessionOf(cfg, t, user, org, now, reply))
  {
    FloorOfSum(now, cfg.refreshSeconds);
    hide Filed, ExpiresAfter;
    var t, reply := IssueSession(cfg, s, user, org, now, chain).0, IssueSession(cfg, s, user, org, now, chain).1;
    if reply.Session? {
      hide IssueSession, Accepted, Passes;
      forall later | now <= later
        ensures Accepted(t.tokens, reply.access, later) <==> later < reply.access.exp as real
        ensures Passes(t.tokens, reply.refresh, later, Refresh) <==> later < reply.refresh.exp as real
      {
        SessionWorksUntilExpiry(cfg, s, user, org, now, chain, later);
      }
      SessionWorksUntilExpiry(cfg, s, user, org, now, chain, now);
    }
  }

  lemma FloorOfSum(now: real, seconds: int)
    ensures now < (now + seconds as real).Floor as real <==> seconds >= 1
  {
  }

  predicate MayLogIn(s: State, id: Id, password: string) {
    id in s.users && s.users[id].password == password && s.users[id].status == Active && s.users[id].verified
  }

  // A login with the right password of an active, verified user opens a session of that user in its own
  // organization; every other login is refused and changes nothing.
  lemma LoginOpensOwnSession(cfg: Config, s: State, id: Id, password: string, now: real)
    requires Filed(s.tokens)
    ensures var (t, reply) := Login(cfg, s, id, password, now);
      && t.users == s.users && (!MayLogIn(s, id, password) ==> t == s && reply == AuthError)
      && (MayLogIn(s, id, password) ==>
            if cfg.refreshSeconds >= 1 then IsSessionOf(cfg, t, id, s.users[id].org, now, reply)
            else reply == TokenError)
  {
    hide Filed, IsSessionOf, IssueSession;
    if id in s.users {
      SessionIffLifetime(cfg, s, id, s.users[id].org, now, None);
      SessionKeepsUsers(cfg, s, id, s.users[id].org, now, None);
    }
  }

  lemma SessionKeepsUsers(cfg: Config, s: State, user: Id, org: Id, now: real, chain: Option<Id>)
    ensures IssueSession(cfg, s, user, org, now, chain).0.users == s.users
  {
  }

  predicate MayRotate(s: State, token: Payload, now: real) {
    && Passes(s.tokens, token, now, Refresh)
    && HasUser(s, token.user, token.org) && s.users[token.user].status == Active
  }

  // A rotation opens a session of the user and the organization of the old token, which passes no more.
  lemma RotationStaysWithUser(cfg: Config, s: State, token: Payload, now: real)
    requires Filed(s.tokens)
    ensures var (t, reply) := Rotate(cfg, s, token, now);
      && t.users == s.users && (!MayRotate(s, token, now) ==> t == s && reply in {TokenError, AuthError})
      && (MayRotate(s, token, now) ==>
            && (forall later :: !Passes(t.tokens, token, later, Refresh))
            && if cfg.refreshSeconds >= 1 then IsSessionOf(cfg, t, token.user, token.org, now, reply)
               else reply == TokenError)
  {
    var dropped := s.(tokens := Dropped(s.tokens, KeyOf(token)));
    var chain := if token.jti in s.lineage then Some(s.lineage[token.jti]) else None;
    DropFiled(s.tokens, KeyOf(token));
    if MayRotate(s, token, now) {
      RotateOld(cfg, s, token, now, token);
      hide Filed, IsSessionOf, IssueSession;
      SessionIffLifetime(cfg, dropped, token.user, token.org, now, chain);
      SessionKeepsUsers(cfg, dropped, token.user, token.org, now, chain);
    }
  }

  // The refresh token of a login opens the user's next session at every moment of its lifetime, and at none after.
  lemma LoginThenRefresh(cfg: Config, s: State, id: Id, password: string, now: real, later: real)
    requires Filed(s.tokens) && now <= later && Login(cfg, s, id, password, now).1.Session?
    ensures var (t, session) := Login(cfg, s, id, password, now);
      var (u, reply) := Rotate(cfg, t, session.refresh, later);
      if later < session.refresh.exp as real then IsSessionOf(cfg, u, id, s.users[id].org, later, reply)
      else u == t && reply == TokenError
  {
    var t, session := Login(cfg, s, id, password, now).0, Login(cfg, s, id, password, now).1;
    LoginOpensOwnSession(cfg, s, id, password, now);
    StepFiled(cfg, s, LoginEvent(id, password), now);
    assert IsSessionOf(cfg, t, id, s.users[id].org, now, session);
    hide Filed, Login, IssueSession, Dropped;
    RotationStaysWithUser(cfg, t, session.refresh, later);
  }

  // ---------- Owners ----------

  predicate SameOwner(p: Payload, q: Payload) {
    p.user == q.user && p.org == q.org
  }

  // Every token was issued to a registered user, and names the organization that user is in.
  ghost predicate OwnersRegistered(s: State) {
    forall j :: j in s.tokens.issued ==>
      && s.tokens.issued[j].user < s.nextUser
      && (s.tokens.issued[j].user in s.users ==> s.users[s.tokens.issued[j].user].org == s.tokens.issued[j].org)
  }

  // The refresh tokens of one chain belong to one user.
  ghost predicate OneOwnerPerChain(s: State) {
    forall j :: j in s.lineage ==>
      && j in s.tokens.issued && s.lineage[j] in s.tokens.issued
      && SameOwner(s.tokens.issued[j], s.tokens.issued[s.lineage[j]])
  }

  ghost predicate OwnersOk(s: State) {
    Filed(s.tokens) && UsersBelow(s) && OwnersRegistered(s) && OneOwnerPerChain(s)
  }

  lemma OneTimeKeepsOwners(s: State, tokenType: TokenType, user: Id, org: Id, now: real, seconds: int)
    requires OwnersOk(s) && HasUser(s, user, org)
    ensures var t := IssueOneTime(s, tokenType, user, org, now, seconds).0;
      OwnersRegistered(t) && OneOwnerPerChain(t)
  {
    hide TtlSeconds;
  }

  lemma SessionKeepsOwners(cfg: Config, s: State, user: Id, org: Id, now: real, chain: Option<Id>)
    requires OwnersOk(s) && HasUser(s, user, org)
    requires chain.Some? ==>
      (chain.value in s.tokens.issued
       && s.tokens.issued[chain.value].user == user && s.tokens.issued[chain.value].org == org)
    ensures var t := IssueSession(cfg, s, user, org, now, chain).0;
      OwnersRegistered(t) && OneOwnerPerChain(t)
  {
    hide TtlSeconds;
  }

  lemma AddUserKeepsOwners(s: State, user: User)
    requires OwnersOk(s)
    ensures OwnersOk(s.(users := s.users[s.nextUser := user], nextUser := s.nextUser + 1))
  {
  }

  lemma NewUserKeepsOwners(s: State, user: User, tokenType: TokenType, now: real, seconds: int)
    requires OwnersOk(s)
    ensures var added := s.(users := s.users[s.nextUser := user], nextUser := s.nextUser + 1);
      var t := IssueOneTime(added, tokenType, s.nextUser, user.org, now, seconds).0;
      OwnersRegistered(t) && OneOwnerPerChain(t)
  {
    AddUserKeepsOwners(s, user);
    hide OwnersOk, IssueOneTime;
    OneTimeKeepsOwners(s.(users := s.users[s.nextUser := user], nextUser := s.nextUser + 1),
                       tokenType, s.nextUser, user.org, now, seconds);
  }

  lemma RotateKeepsOwners(cfg: Config, s: State, token: Payload, now: real)
    requires OwnersOk(s)
    ensures var t := Rotate(cfg, s, token, now).0;
      OwnersRegistered(t) && OneOwnerPerChain(t)
  {
    if MayRotate(s, token, now) {
      DropFiled(s.tokens, KeyOf(token));
      var dropped := s.(tokens := Dropped(s.tokens, KeyOf(token)));
      assert OwnersOk(dropped);
      var chain := if token.jti in s.lineage then Some(s.lineage[token.jti]) else None;
      hide IssueSession, Filed, OwnersRegistered;
      SessionKeepsOwners(cfg, dropped, token.user, token.org, now, chain);
    }
  }

  // Calls that issue nothing.
  lemma OtherKeepsOwners(s: State, t: State)
    requires OwnersOk(s) && t.lineage == s.lineage && t.tokens.issued == s.tokens.issued && t.nextUser == s.nextUser
    requires forall u :: u in t.users ==> u in s.users && t.users[u].org == s.users[u].org
    ensures OwnersRegistered(t) && OneOwnerPerChain(t)
  {
  }

  lemma StepKeepsOwners(cfg: Config, s: State, ev: Event, now: real)
    requires OwnersOk(s)
    ensures OwnersOk(Apply(cfg, s, ev, now).0)
  {
    StepFiled(cfg, s, ev, now);
    StepUsers(cfg, s, ev, now);
    hide OwnersRegistered, OneOwnerPerChain, Filed, UsersBelow, IssueOneTime, IssueSession, Rotate;
    hide Dropped, RevokedAccess, Logout, ResetPassword, VerifyEmail, AcceptInvite;
    match ev
    case RegisterEvent(org, password) =>
      NewUserKeepsOwners(s, User(org, PendingVerification, false, password), EmailVerification, now, cfg.verifySeconds);
    case InviteEvent(org, password) =>
      NewUserKeepsOwners(s, User(org, Invited, false, password), Invite, now, INVITE_SECONDS);
    case ForgotEvent(user) =>
      if user in s.users {
        OneTimeKeepsOwners(s, PasswordReset, user, s.users[user].org, now, cfg.resetSeconds);
      }
    case LoginEvent(user, _) =>
      if user in s.users {
        SessionKeepsOwners(cfg, s, user, s.users[user].org, now, None);
      }
    case RefreshEvent(token) => RotateKeepsOwners(cfg, s, token, now);
    case LogoutEvent(_, _) => LogoutKeepsRecords(cfg, s, ev, now); OtherKeepsOwners(s, Apply(cfg, s, ev, now).0);
    case ResetEvent(_, _) => ConsumeKeepsRecords(cfg, s, ev, now); OtherKeepsOwners(s, Apply(cfg, s, ev, now).0);
    case VerifyEvent(_) => ConsumeKeepsRecords(cfg, s, ev, now); OtherKeepsOwners(s, Apply(cfg, s, ev, now).0);
    case AcceptEvent(_, _) => ConsumeKeepsRecords(cfg, s, ev, now); OtherKeepsOwners(s, Apply(cfg, s, ev, now).0);
    case StatusEvent(_, _) => OtherKeepsOwners(s, Apply(cfg, s, ev, now).0);
    case WorkspaceEvent(_) => OtherKeepsOwners(s, Apply(cfg, s, ev, now).0);
  }

  lemma LogoutKeepsRecords(cfg: Config, s: State, ev: Event, now: real)
    requires ev.LogoutEvent?
    ensures var t := Apply(cfg, s, ev, now).0;
      t.lineage == s.lineage && t.tokens.issued == s.tokens.issued && t.users == s.users && t.nextUser == s.nextUser
  {
  }

  lemma ConsumeKeepsRecords(cfg: Config, s: State, ev: Event, now: real)
    requires ev.ResetEvent? || ev.VerifyEvent? || ev.AcceptEvent?
    ensures var t := Apply(cfg, s, ev, now).0;
      && t.lineage == s.lineage && t.tokens.issued == s.tokens.issued && t.nextUser == s.nextUser
      && forall u :: u in t.users ==> u in s.users && t.users[u].org == s.users[u].org
  {
    hide Passes;
  }

  // In every run each token belongs to a registered user of the organization it names, and a chain of rotations
  // never leaves the user who logged in.
  lemma {:induction false} OwnersThroughout(cfg: Config, run: Run, n: nat)
    requires IsRun(cfg, run) && n < |run.states|
    ensures OwnersOk(run.states[n])
    decreases n
  {
    hide Apply;
    if n > 0 {
      OwnersThroughout(cfg, run, n - 1);
      hide OwnersOk;
      StepKeepsOwners(cfg, run.states[n - 1], run.events[n - 1], run.times[n - 1]);
    }
  }

  // ---------- How long keys stay ----------

  // A key outlives its token by less than a second.
  ghost predicate KeysLapse(t: Tokens) {
    forall key :: key in t.store ==>
      && key.jti in t.issued
      && t.issued[key.jti].exp as real <= t.store[key] < t.issued[key.jti].exp as real + 1.0
  }

  lemma KeyLapses(exp: int, now: real)
    requires now < exp as real
    ensures exp as real <= now + TtlSeconds(exp, now) as real < exp as real + 1.0
  {
    assert now.Floor < exp;
  }

  lemma CreateLapse(t: Tokens, p: Payload)
    requires Filed(t) && KeysLapse(t) && p.jti == t.nextId
    ensures KeysLapse(Created(t, p))
  {
  }

  lemma StoreLapse(t: Tokens, p: Payload, now: real)
    requires KeysLapse(t)
    ensures KeysLapse(Stored(t, p, now))
  {
    hide TtlSeconds;
    if now < p.exp as real {
      KeyLapses(p.exp, now);
    }
  }

  lemma OneTimeLapse(s: State, tokenType: TokenType, user: Id, org: Id, now: real, seconds: int)
    requires Filed(s.tokens) && KeysLapse(s.tokens)
    ensures KeysLapse(IssueOneTime(s, tokenType, user, org, now, seconds).0.tokens)
  {
    hide KeysLapse, Stored, Created, Filed;
    var p := NewPayload(s.tokens, user, org, tokenType, now, seconds);
    CreateLapse(s.tokens, p);
    StoreLapse(Created(s.tokens, p), p, now);
  }

  lemma SessionLapse(cfg: Config, s: State, user: Id, org: Id, now: real, chain: Option<Id>)
    requires Filed(s.tokens) && KeysLapse(s.tokens)
    ensures KeysLapse(IssueSession(cfg, s, user, org, now, chain).0.tokens)
  {
    hide KeysLapse, Stored, Filed;
    var access := NewPayload(s.tokens, user, org, Access, now, cfg.accessSeconds);
    var withAccess := Created(s.tokens, access);
    var refresh := NewPayload(withAccess, user, org, Refresh, now, cfg.refreshSeconds);
    CreateLapse(s.tokens, access);
    CreateFiled(s.tokens, access);
    CreateLapse(withAccess, refresh);
    StoreLapse(Created(withAccess, refresh), refresh, now);
  }

  lemma RevokeLapse(t: Tokens, token: Payload, now: real)
    requires KeysLapse(t)
    ensures KeysLapse(RevokedAccess(t, token, now))
  {
    hide TtlSeconds;
    if now < token.exp as real {
      KeyLapses(token.exp, now);
    }
  }

  lemma DropLapse(t: Tokens, key: RedisKey)
    requires KeysLapse(t)
    ensures KeysLapse(Dropped(t, key))
  {
  }

  lemma StepLapse(cfg: Config, s: State, ev: Event, now: real)
    requires Filed(s.tokens) && KeysLapse(s.tokens)
    ensures KeysLapse(Apply(cfg, s, ev, now).0.tokens)
  {
    hide Filed, KeysLapse, IssueOneTime, IssueSession, Dropped, RevokedAccess, Passes, Decodes;
    match ev
    case RegisterEvent(org, password) =>
      var id := s.nextUser;
      OneTimeLapse(s.(users := s.users[id := User(org, PendingVerification, false, password)], nextUser := id + 1),
                   EmailVerification, id, org, now, cfg.verifySeconds);
    case InviteEvent(org, password) =>
      var id := s.nextUser;
      OneTimeLapse(s.(users := s.users[id := User(org, Invited, false, password)], nextUser := id + 1),
                   Invite, id, org, now, INVITE_SECONDS);
    case ForgotEvent(user) =>
      if user in s.users {
        OneTimeLapse(s, PasswordReset, user, s.users[user].org, now, cfg.resetSeconds);
      }
    case LoginEvent(user, _) =>
      if user in s.users {
        SessionLapse(cfg, s, user, s.users[user].org, now, None);
      }
    case RefreshEvent(token) =>
      DropLapse(s.tokens, KeyOf(token));
      DropFiled(s.tokens, KeyOf(token));
      SessionLapse(cfg, s.(tokens := Dropped(s.tokens, KeyOf(token))), token.user, token.org, now,
                   if token.jti in s.lineage then Some(s.lineage[token.jti]) else None);
    case LogoutEvent(token, access) =>
      if access.Some? {
        RevokeLapse(s.tokens, access.value, now);
        DropLapse(RevokedAccess(s.tokens, access.value, now), KeyOf(token));
      }
      DropLapse(s.tokens, KeyOf(token));
    case ResetEvent(token, _) => DropLapse(s.tokens, KeyOf(token));
    case VerifyEvent(token) => DropLapse(s.tokens, KeyOf(token));
    case AcceptEvent(token, _) => DropLapse(s.tokens, KeyOf(token));
    case StatusEvent(_, _) =>
    case WorkspaceEvent(_) =>
  }

  // In every run each key lapses with its token or less than a second after it.
  lemma {:induction false} KeysLapseWithTokens(cfg: Config, run: Run, n: nat)
    requires IsRun(cfg, run) && n < |run.states|
    ensures KeysLapse(run.states[n].tokens)
    decreases n
  {
    hide Apply;
    if n > 0 {
      KeysLapseWithTokens(cfg, run, n - 1);
      ReachableFiled(cfg, run, n - 1);
      hide KeysLapse, Filed;
      StepLapse(cfg, run.states[n - 1], run.events[n - 1], run.times[n - 1]);
    }
  }

  // ---------- What issuing a one-time token answers ----------

  // The user who has just been added, and no other change to the users.
  predicate OnlyAdds(s: State, t: State, user: User) {
    t.nextUser == s.nextUser + 1 && t.users.Keys == s.users.Keys + {s.nextUser} && t.users[s.nextUser] == user
    && forall u :: u in s.users && u != s.nextUser ==> t.users[u] == s.users[u]
  }

  // A registration adds a pending user and an invitation an invited one; the verification token needs a lifetime,
  // the invitation has one of seven days, in seconds.
  lemma NewUsersGetTokens(cfg: Config, s: State, org: Id, password: string, now: real)
    ensures var (t, reply) := Register(cfg, s, org, password, now);
      && OnlyAdds(s, t, User(org, PendingVerification, false, password))
      && if cfg.verifySeconds >= 1 then reply.Issued? && reply.token.user == s.nextUser else reply == TokenError
    ensures var (t, reply) := InviteUser(s, org, password, now);
      && OnlyAdds(s, t, User(org, Invited, false, password))
      && reply.Issued? && reply.token.user == s.nextUser && ExpiresAfter(reply.token, now, 604800)
  {
    FloorOfSum(now, cfg.verifySeconds);
    FloorOfSum(now, INVITE_SECONDS);
    hide TtlSeconds;
  }

  // A forgotten password changes no user, and is answered without an error for an unknown one.
  lemma ForgottenPasswordAnswers(cfg: Config, s: State, id: Id, now: real)
    ensures var (t, reply) := ForgotPassword(cfg, s, id, now);
      && t.users == s.users
      && if id !in s.users then t == s && reply == Ok
         else if cfg.resetSeconds >= 1 then
           reply.Issued? && reply.token.user == id && reply.token.org == s.users[id].org
         else reply == TokenError
  {
    FloorOfSum(now, cfg.resetSeconds);
    hide TtlSeconds;
  }

  // ---------- What a one-time token is good for ----------

  // Nobody but this user is changed.
  predicate OnlyUserChanges(s: State, t: State, user: Id) {
    s.users.Keys == t.users.Keys && forall u :: u in s.users && u != user ==> t.users[u] == s.users[u]
  }

  // The token is used up, and no token but this one is touched.
  ghost predicate IsUsedUp(s: State, t: State, token: Payload) {
    && (forall later :: !Passes(t.tokens, token, later, token.tokenType))
    && (forall p, later, tokenType :: p != token && Known(s.tokens, p) ==>
          (Passes(t.tokens, p, later, tokenType) <==> Passes(s.tokens, p, later, tokenType)))
    && (forall p, later :: Accepted(t.tokens, p, later) <==> Accepted(s.tokens, p, later))
  }

  lemma ConsumedIsUsedUp(s: State, token: Payload, tokenType: TokenType, now: real)
    requires Passes(s.tokens, token, now, tokenType) && tokenType != Access
    ensures IsUsedUp(s, Consume(s, token, tokenType, now).0, token)
  {
    var t := Consume(s, token, tokenType, now).0;
    forall p, later, expected | p != token && Known(s.tokens, p)
      ensures Passes(t.tokens, p, later, expected) <==> Passes(s.tokens, p, later, expected)
    {
      assert p.jti != token.jti;
    }
    forall p, later
      ensures Accepted(t.tokens, p, later) <==> Accepted(s.tokens, p, later)
    {
      assert BlacklistKey(p.jti) != KeyOf(token);
    }
  }

  // A verification that passes lets the user in with the password it has, whatever its status was before: a
  // suspended user is active again.  Without the user the token is used up all the same.
  lemma VerificationAlwaysActivates(cfg: Config, s: State, token: Payload, now: real)
    ensures var (t, reply) := VerifyEmail(s, token, now);
      if !Passes(s.tokens, token, now, EmailVerification) then t == s && reply == TokenError
      else
        && IsUsedUp(s, t, token) && OnlyUserChanges(s, t, token.user)
        && (reply == Ok <==> HasUser(s, token.user, token.org))
        && (reply != Ok ==> reply == NotFound && t.users == s.users)
        && (reply == Ok ==> LogsInWith(cfg, t, token.user, s.users[token.user].password))
  {
    hide Passes, Dropped, IssueSession, LogsInWith, Login, IsUsedUp;
    if Passes(s.tokens, token, now, EmailVerification) {
      ConsumedIsUsedUp(s, token, EmailVerification, now);
      UsersDoNotMatter(s, token, EmailVerification, now, VerifyEmail(s, token, now).0);
      if HasUser(s, token.user, token.org) {
        ReadyLogsIn(cfg, VerifyEmail(s, token, now).0, token.user);
      }
    }
  }

  lemma UsersDoNotMatter(s: State, token: Payload, tokenType: TokenType, now: real, t: State)
    requires IsUsedUp(s, Consume(s, token, tokenType, now).0, token)
    requires t.tokens == Consume(s, token, tokenType, now).0.tokens
    ensures IsUsedUp(s, t, token)
  {
  }

  // An invitation is accepted exactly once, by a user who is still invited; any other user is left as it was, and
  // the invitation is used up in every case.
  lemma InvitationNeedsInvited(cfg: Config, s: State, token: Payload, password: string, now: real)
    ensures var (t, reply) := AcceptInvite(s, token, password, now);
      if !Passes(s.tokens, token, now, Invite) then t == s && reply == TokenError
      else
        && IsUsedUp(s, t, token) && OnlyUserChanges(s, t, token.user)
        && (reply == NotFound <==> !HasUser(s, token.user, token.org))
        && (reply == Ok <==> HasUser(s, token.user, token.org) && s.users[token.user].status == Invited)
        && (reply != Ok ==> t.users == s.users && reply in {NotFound, AuthError})
        && (reply == Ok ==> LogsInWith(cfg, t, token.user, password))
  {
    hide Passes, Dropped, IssueSession, LogsInWith, Login, IsUsedUp;
    if Passes(s.tokens, token, now, Invite) {
      ConsumedIsUsedUp(s, token, Invite, now);
      UsersDoNotMatter(s, token, Invite, now, AcceptInvite(s, token, password, now).0);
      if HasUser(s, token.user, token.org) {
        ReadyLogsIn(cfg, AcceptInvite(s, token, password, now).0, token.user);
      }
    }
  }

  // A reset gives the user the new password, and lets in nobody who could not log in before.
  lemma ResetOnlyChangesPassword(cfg: Config, s: State, token: Payload, password: string, now: real)
    ensures var (t, reply) := ResetPassword(s, token, password, now);
      if !Passes(s.tokens, token, now, PasswordReset) then t == s && reply == TokenError
      else
        && IsUsedUp(s, t, token) && OnlyUserChanges(s, t, token.user)
        && (reply == Ok <==> HasUser(s, token.user, token.org))
        && (reply != Ok ==> reply == NotFound && t.users == s.users)
        && (reply == Ok ==>
              if MayLogIn(s, token.user, s.users[token.user].password) then LogsInWith(cfg, t, token.user, password)
              else NeverLogsIn(cfg, t, token.user))
  {
    hide Passes, Dropped, IssueSession, LogsInWith, NeverLogsIn, Login, IsUsedUp;
    if Passes(s.tokens, token, now, PasswordReset) {
      ConsumedIsUsedUp(s, token, PasswordReset, now);
      UsersDoNotMatter(s, token, PasswordReset, now, ResetPassword(s, token, password, now).0);
      if HasUser(s, token.user, token.org) {
        ReadyLogsIn(cfg, ResetPassword(s, token, password, now).0, token.user);
      }
    }
  }

  // ---------- Logout ----------

  // The access token works no more whether the refresh token is good or not; every other token is as it was.
  ghost predicate IsLoggedOut(s: State, t: State, token: Payload, access: Option<Payload>, now: real) {
    && t.users == s.users
    && (forall later :: now <= later ==> !Passes(t.tokens, token, later, Refresh))
    && (access.Some? ==> forall later :: now <= later ==> !Accepted(t.tokens, access.value, later))
    && (forall p, later, tokenType :: p != token && Known(s.tokens, p) && tokenType != Access ==>
          (Passes(t.tokens, p, later, tokenType) <==> Passes(s.tokens, p, later, tokenType)))
    && (forall p, later :: Known(s.tokens, p) && access != Some(p) ==>
          (Accepted(t.tokens, p, later) <==> Accepted(s.tokens, p, later)))
  }

  lemma LogoutRevokesBoth(s: State, token: Payload, access: Option<Payload>, now: real)
    requires Filed(s.tokens)
    ensures var (t, reply) := Logout(s, token, access, now);
      && IsLoggedOut(s, t, token, access, now)
      && reply == if Decodes(s.tokens, token, now, Refresh) then Ok else TokenError
  {
    var t := Logout(s, token, access, now).0;
    forall later | now <= later
      ensures !Passes(t.tokens, token, later, Refresh)
      ensures access.Some? ==> !Accepted(t.tokens, access.value, later)
    {
      LogoutEndsRefresh(s, token, access, now, later);
      if access.Some? {
        LogoutEndsAccess(s, token, access.value, now, later);
      }
    }
    forall p, later, tokenType | p != token && Known(s.tokens, p) && tokenType != Access
      ensures Passes(t.tokens, p, later, tokenType) <==> Passes(s.tokens, p, later, tokenType)
    {
      LogoutKeepsOther(s, token, access, now, p, later, tokenType);
    }
    forall p, later | Known(s.tokens, p) && access != Some(p)
      ensures Accepted(t.tokens, p, later) <==> Accepted(s.tokens, p, later)
    {
      LogoutKeepsAccess(s, token, access, now, p, later);
    }
  }

  lemma LogoutEndsRefresh(s: State, token: Payload, access: Option<Payload>, now: real, later: real)
    requires now <= later
    ensures !Passes(Logout(s, token, access, now).0.tokens, token, later, Refresh)
  {
    hide TtlSeconds;
  }

  lemma LogoutEndsAccess(s: State, token: Payload, access: Payload, now: real, later: real)
    requires now <= later
    ensures !Accepted(Logout(s, token, Some(access), now).0.tokens, access, later)
  {
    hide TtlSeconds;
    if Decodes(s.tokens, access, now, Access) {
      RevokedUntilExpiry(s.tokens, access, now);
    }
  }

  lemma RevokedUntilExpiry(t: Tokens, access: Payload, now: real)
    requires Decodes(t, access, now, Access)
    ensures BlacklistKey(access.jti) in RevokedAccess(t, access, now).store
    ensures RevokedAccess(t, access, now).store[BlacklistKey(access.jti)] >= access.exp as real
  {
    KeyOutlivesToken(access.exp, now);
  }

  lemma LogoutKeepsOther(s: State, token: Payload, access: Option<Payload>, now: real, p: Payload, later: real,
      tokenType: TokenType)
    requires Filed(s.tokens) && p != token && Known(s.tokens, p) && tokenType != Access
    ensures var t := Logout(s, token, access, now).0;
      Passes(t.tokens, p, later, tokenType) <==> Passes(s.tokens, p, later, tokenType)
  {
    hide TtlSeconds;
  }

  lemma LogoutKeepsAccess(s: State, token: Payload, access: Option<Payload>, now: real, p: Payload, later: real)
    requires Filed(s.tokens) && Known(s.tokens, p) && access != Some(p)
    ensures var t := Logout(s, token, access, now).0;
      Accepted(t.tokens, p, later) <==> Accepted(s.tokens, p, later)
  {
    hide TtlSeconds;
  }
}
