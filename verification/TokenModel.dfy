// Signed tokens, the keys Redis holds for them, and what the authentication calls do with both.
// Times are real seconds; an expiring key is alive strictly before its expiry.  A token is what it
// decodes to, and only issued ones decode: a signature cannot be forged.
module TokenModel {
  import opened Common

  datatype TokenType = Access | Refresh | PasswordReset | EmailVerification | Invite

  datatype Payload = Payload(user: Id, org: Id, tokenType: TokenType, jti: Id, exp: int, iat: int)

  datatype RedisKey = RefreshKey(jti: Id) | BlacklistKey(jti: Id) | OneTimeKey(tokenType: TokenType, jti: Id)

  datatype Tokens = Tokens(issued: map<Id, Payload>, store: map<RedisKey, real>, nextId: Id)

  // ---------- TokenService ----------

  function TtlSeconds(exp: int, now: real): int {
    var ttl := exp - now.Floor;
    if ttl >= 1 then ttl else 1
  }

  function SetEx(store: map<RedisKey, real>, key: RedisKey, ttl: int, now: real): map<RedisKey, real> {
    store[key := now + ttl as real]
  }

  predicate Alive(store: map<RedisKey, real>, key: RedisKey, now: real) {
    key in store && now < store[key]
  }

  // decode_token: the token was issued, has not expired and is of the expected type.
  predicate Decodes(t: Tokens, token: Payload, now: real, expected: TokenType) {
    token.jti in t.issued && t.issued[token.jti] == token && now < token.exp as real && token.tokenType == expected
  }

  function NewPayload(t: Tokens, user: Id, org: Id, tokenType: TokenType, now: real, seconds: int): Payload {
    Payload(user, org, tokenType, t.nextId, (now + seconds as real).Floor, now.Floor)
  }

  function Created(t: Tokens, p: Payload): Tokens {
    t.(issued := t.issued[p.jti := p], nextId := t.nextId + 1)
  }

  // The key a token stands or falls with.
  function KeyOf(p: Payload): RedisKey {
    match p.tokenType
    case Access => BlacklistKey(p.jti)
    case Refresh => RefreshKey(p.jti)
    case _ => OneTimeKey(p.tokenType, p.jti)
  }

  // The token is decoded before its key is set, so one that is born expired gets no key.
  function StoredUnder(t: Tokens, key: RedisKey, p: Payload, now: real): Tokens {
    if Decodes(t, p, now, p.tokenType) then t.(store := SetEx(t.store, key, TtlSeconds(p.exp, now), now)) else t
  }

  function Stored(t: Tokens, p: Payload, now: real): Tokens {
    StoredUnder(t, KeyOf(p), p, now)
  }

  function RevokedAccess(t: Tokens, token: Payload, now: real): Tokens {
    if Decodes(t, token, now, Access) then
      t.(store := SetEx(t.store, BlacklistKey(token.jti), TtlSeconds(token.exp, now), now))
    else t
  }

  function Dropped(t: Tokens, key: RedisKey): Tokens {
    t.(store := t.store - {key})
  }

  // A refresh or one-time token passes: it decodes and its key is alive.
  predicate Passes(t: Tokens, token: Payload, now: real, expected: TokenType) {
    Decodes(t, token, now, expected) && Alive(t.store, KeyOf(token), now)
  }

  // A bearer token passes: it decodes and is not blacklisted.
  predicate Accepted(t: Tokens, token: Payload, now: real) {
    Decodes(t, token, now, Access) && !Alive(t.store, BlacklistKey(token.jti), now)
  }

  // ---------- AuthService ----------

  datatype UserStatus = Active | PendingVerification | Invited | Suspended

  datatype User = User(org: Id, status: UserStatus, verified: bool, password: string)

  // `lineage` is a history variable: the refresh token a chain of rotations began with.
  datatype State = State(tokens: Tokens, users: map<Id, User>, nextUser: Id, lineage: map<Id, Id>)

  const EMPTY := State(Tokens(map[], map[], 0), map[], 0, map[])

  datatype Config = Config(accessSeconds: int, refreshSeconds: int, verifySeconds: int, resetSeconds: int)

  const INVITE_SECONDS := 7 * 24 * 3600

  datatype Reply = Ok | Session(access: Payload, refresh: Payload) | Issued(token: Payload) | AuthError
    | TokenError | NotFound

  predicate HasUser(s: State, id: Id, org: Id) {
    id in s.users && s.users[id].org == org
  }

  function IssueOneTime(s: State, tokenType: TokenType, user: Id, org: Id, now: real, seconds: int): (State, Reply) {
    var p := NewPayload(s.tokens, user, org, tokenType, now, seconds);
    var created := Created(s.tokens, p);
    (s.(tokens := Stored(created, p, now)), if Decodes(created, p, now, tokenType) then Issued(p) else TokenError)
  }

  // _issue_session_tokens; `chain` is the chain the new refresh token continues, if it continues one.
  function IssueSession(cfg: Config, s: State, user: Id, org: Id, now: real, chain: Option<Id>): (State, Reply) {
    var access := NewPayload(s.tokens, user, org, Access, now, cfg.accessSeconds);
    var withAccess := Created(s.tokens, access);
    var refresh := NewPayload(withAccess, user, org, Refresh, now, cfg.refreshSeconds);
    var withBoth := Created(withAccess, refresh);
    (s.(tokens := Stored(withBoth, refresh, now),
        lineage := s.lineage[refresh.jti := if chain.Some? then chain.value else refresh.jti]),
     if Decodes(withBoth, refresh, now, Refresh) then Session(access, refresh) else TokenError)
  }

  function Register(cfg: Config, s: State, org: Id, password: string, now: real): (State, Reply) {
    var id := s.nextUser;
    var t := s.(users := s.users[id := User(org, PendingVerification, false, password)], nextUser := id + 1);
    IssueOneTime(t, EmailVerification, id, org, now, cfg.verifySeconds)
  }

  function InviteUser(s: State, org: Id, password: string, now: real): (State, Reply) {
    var id := s.nextUser;
    var t := s.(users := s.users[id := User(org, Invited, false, password)], nextUser := id + 1);
    IssueOneTime(t, Invite, id, org, now, INVITE_SECONDS)
  }

  // An unknown address is answered like a known one.
  function ForgotPassword(cfg: Config, s: State, id: Id, now: real): (State, Reply) {
    if id !in s.users then (s, Ok)
    else IssueOneTime(s, PasswordReset, id, s.users[id].org, now, cfg.resetSeconds)
  }

  function Login(cfg: Config, s: State, id: Id, password: string, now: real): (State, Reply) {
    if id !in s.users || s.users[id].password != password then (s, AuthError)
    else if s.users[id].status != Active || !s.users[id].verified then (s, AuthError)
    else IssueSession(cfg, s, id, s.users[id].org, now, None)
  }

  function Rotate(cfg: Config, s: State, token: Payload, now: real): (State, Reply) {
    if !Passes(s.tokens, token, now, Refresh) then (s, TokenError)
    else if !HasUser(s, token.user, token.org) || s.users[token.user].status != Active then (s, AuthError)
    else
      var dropped := s.(tokens := Dropped(s.tokens, KeyOf(token)));
      IssueSession(cfg, dropped, token.user, token.org, now,
                   if token.jti in s.lineage then Some(s.lineage[token.jti]) else None)
  }

  // The access token is optional and its errors are ignored; those of the refresh token are not.
  function Logout(s: State, token: Payload, access: Option<Payload>, now: real): (State, Reply) {
    var revoked := if access.Some? then RevokedAccess(s.tokens, access.value, now) else s.tokens;
    if Decodes(revoked, token, now, Refresh) then (s.(tokens := Dropped(revoked, KeyOf(token))), Ok)
    else (s.(tokens := revoked), TokenError)
  }

  // consume_one_time_token followed by the user lookup: the token is spent even when the user is gone.
  function Consume(s: State, token: Payload, tokenType: TokenType, now: real): (State, Reply) {
    if !Passes(s.tokens, token, now, tokenType) then (s, TokenError)
    else
      (s.(tokens := Dropped(s.tokens, KeyOf(token))), if HasUser(s, token.user, token.org) then Ok else NotFound)
  }

  function ResetPassword(s: State, token: Payload, password: string, now: real): (State, Reply) {
    var (t, reply) := Consume(s, token, PasswordReset, now);
    if reply != Ok then (t, reply)
    else (t.(users := t.users[token.user := t.users[token.user].(password := password)]), Ok)
  }

  function VerifyEmail(s: State, token: Payload, now: real): (State, Reply) {
    var (t, reply) := Consume(s, token, EmailVerification, now);
    if reply != Ok then (t, reply)
    else (t.(users := t.users[token.user := t.users[token.user].(status := Active, verified := true)]), Ok)
  }

  function AcceptInvite(s: State, token: Payload, password: string, now: real): (State, Reply) {
    var (t, reply) := Consume(s, token, Invite, now);
    if reply != Ok then (t, reply)
    else if t.users[token.user].status != Invited then (t, AuthError)
    else (t.(users := t.users[token.user := t.users[token.user].(status := Active, verified := true,
        password := password)]), Ok)
  }

  // ---------- Runs ----------

  datatype Event =
    | RegisterEvent(org: Id, password: string)
    | InviteEvent(org: Id, password: string)
    | ForgotEvent(user: Id)
    | LoginEvent(user: Id, password: string)
    | RefreshEvent(token: Payload)
    | LogoutEvent(token: Payload, access: Option<Payload>)
    | ResetEvent(token: Payload, password: string)
    | VerifyEvent(token: Payload)
    | AcceptEvent(token: Payload, password: string)
    | StatusEvent(user: Id, status: UserStatus)   // the user's row is changed elsewhere
    | WorkspaceEvent(org: Id)   // the organization and its users are deleted

  function Apply(cfg: Config, s: State, ev: Event, now: real): (State, Reply) {
    match ev
    case RegisterEvent(org, password) => Register(cfg, s, org, password, now)
    case InviteEvent(org, password) => InviteUser(s, org, password, now)
    case ForgotEvent(user) => ForgotPassword(cfg, s, user, now)
    case LoginEvent(user, password) => Login(cfg, s, user, password, now)
    case RefreshEvent(token) => Rotate(cfg, s, token, now)
    case LogoutEvent(token, access) => Logout(s, token, access, now)
    case ResetEvent(token, password) => ResetPassword(s, token, password, now)
    case VerifyEvent(token) => VerifyEmail(s, token, now)
    case AcceptEvent(token, password) => AcceptInvite(s, token, password, now)
    case WorkspaceEvent(org) => (s.(users := map u | u in s.users && s.users[u].org != org :: s.users[u]), Ok)
    case StatusEvent(user, status) =>
      (if user in s.users then s.(users := s.users[user := s.users[user].(status := status)]) else s, Ok)
  }

  datatype Run = Run(states: seq<State>, events: seq<Event>, times: seq<real>)

  ghost predicate IsRun(cfg: Config, run: Run) {
    && |run.states| == |run.events| + 1 && |run.times| == |run.events|
    && run.states[0] == EMPTY
    && (forall i :: 0 <= i < |run.events| ==>
      run.states[i + 1] == Apply(cfg, run.states[i], run.events[i], run.times[i]).0)
    && (forall i, j :: 0 <= i <= j < |run.times| ==> run.times[i] <= run.times[j])
  }

  // A moment after the first n events.
  ghost predicate IsLater(run: Run, n: nat, now: real) {
    forall i :: 0 <= i < n && i < |run.times| ==> run.times[i] <= now
  }
}
