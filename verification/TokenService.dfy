// The token service, whose Redis keys are fields set and deleted in place, and the authentication
// service that drives it.  Each method is proved to do what TokenModel says of the call.
module TokenServices {
  import opened Common
  import opened TokenModel
  import opened TokenProofs

  class TokenService {
    var issued: map<Id, Payload>
    var store: map<RedisKey, real>
    var nextId: Id

    ghost function View(): Tokens
      reads this
    {
      Tokens(issued, store, nextId)
    }

    constructor ()
      ensures View() == EMPTY.tokens
    {
      issued, store, nextId := map[], map[], 0;
    }

    // With the records in order the token's id has never been issued, so no other token is lost.
    method CreateToken(user: Id, org: Id, tokenType: TokenType, now: real, seconds: int) returns (p: Payload)
      modifies this`issued, this`nextId
      ensures Filed(old(View())) ==> p.jti !in old(issued) && Filed(View())
      ensures ExpiresAfter(p, now, seconds) && p.iat as real <= now < p.iat as real + 1.0
      ensures p == NewPayload(old(View()), user, org, tokenType, now, seconds)
      ensures View() == Created(old(View()), p)
    {
      p := Payload(user, org, tokenType, nextId, (now + seconds as real).Floor, now.Floor);
      ghost var before := View();
      issued := issued[p.jti := p];
      nextId := nextId + 1;
      if Filed(before) {
        CreateFiled(before, p);
      }
    }

    method DecodeToken(token: Payload, now: real, expected: TokenType) returns (ok: bool)
      ensures ok == Decodes(View(), token, now, expected)
    {
      if token.jti !in issued || issued[token.jti] != token || token.exp as real <= now {
        return false;
      }
      ok := token.tokenType == expected;
    }

    method RedisSetEx(key: RedisKey, exp: int, now: real)
      modifies this`store
      ensures store == SetEx(old(store), key, TtlSeconds(exp, now), now)
    {
      var ttl := exp - now.Floor;
      if ttl < 1 {
        ttl := 1;
      }
      store := store[key := now + ttl as real];
    }

    // An expired key reads as absent.
    method RedisExists(key: RedisKey, now: real) returns (alive: bool)
      ensures alive == Alive(store, key, now)
    {
      alive := false;
      if key in store {
        alive := now < store[key];
      }
    }

    method IssueOneTimeToken(tokenType: TokenType, user: Id, org: Id, now: real, seconds: int) returns (reply: Reply)
      modifies this
      ensures var p := NewPayload(old(View()), user, org, tokenType, now, seconds);
        && View() == StoredUnder(Created(old(View()), p), OneTimeKey(tokenType, p.jti), p, now)
        && reply == if Decodes(Created(old(View()), p), p, now, tokenType) then Issued(p) else TokenError
    {
      var p := CreateToken(user, org, tokenType, now, seconds);
      var ok := DecodeToken(p, now, tokenType);
      if !ok {
        return TokenError;
      }
      RedisSetEx(OneTimeKey(tokenType, p.jti), p.exp, now);
      reply := Issued(p);
    }

    method StoreRefreshSession(token: Payload, now: real) returns (ok: bool)
      modifies this`store
      ensures ok == Decodes(old(View()), token, now, Refresh)
      ensures View() == if ok then Stored(old(View()), token, now) else old(View())
    {
      ok := DecodeToken(token, now, Refresh);
      if ok {
        RedisSetEx(RefreshKey(token.jti), token.exp, now);
      }
    }

    method GetRefreshSession(token: Payload, now: real) returns (ok: bool)
      ensures ok == Passes(View(), token, now, Refresh)
    {
      ok := DecodeToken(token, now, Refresh);
      if ok {
        ok := RedisExists(RefreshKey(token.jti), now);
      }
    }

    method RevokeRefreshToken(token: Payload, now: real) returns (ok: bool)
      modifies this`store
      ensures ok == Decodes(old(View()), token, now, Refresh)
      ensures View() == if ok then Dropped(old(View()), KeyOf(token)) else old(View())
    {
      ok := DecodeToken(token, now, Refresh);
      if ok {
        store := store - {RefreshKey(token.jti)};
      }
    }

    method RevokeAccessToken(token: Payload, now: real) returns (ok: bool)
      modifies this`store
      ensures ok == Decodes(old(View()), token, now, Access)
      ensures View() == RevokedAccess(old(View()), token, now)
    {
      ok := DecodeToken(token, now, Access);
      if ok {
        RedisSetEx(BlacklistKey(token.jti), token.exp, now);
      }
    }

    // None when the token does not decode.
    method IsAccessTokenRevoked(token: Payload, now: real) returns (revoked: Option<bool>)
      ensures revoked.Some? <==> Decodes(View(), token, now, Access)
      ensures revoked == Some(false) <==> Accepted(View(), token, now)
    {
      var ok := DecodeToken(token, now, Access);
      if !ok {
        return None;
      }
      var alive := RedisExists(BlacklistKey(token.jti), now);
      revoked := Some(alive);
    }

    method ConsumeOneTimeToken(token: Payload, tokenType: TokenType, now: real) returns (ok: bool)
      modifies this`store
      ensures ok <==>
        Decodes(old(View()), token, now, tokenType) && Alive(old(store), OneTimeKey(tokenType, token.jti), now)
      ensures View() == if ok then Dropped(old(View()), OneTimeKey(tokenType, token.jti)) else old(View())
    {
      ok := DecodeToken(token, now, tokenType);
      if ok {
        var key := OneTimeKey(tokenType, token.jti);
        ok := RedisExists(key, now);
        if ok {
          store := store - {key};
        }
      }
    }
  }

  class AuthService {
    const cfg: Config
    const tokens: TokenService
    var users: map<Id, User>
    var nextUser: Id
    ghost var lineage: map<Id, Id>

    ghost function View(): State
      reads this, tokens
    {
      State(tokens.View(), users, nextUser, lineage)
    }

    ghost predicate Valid()
      reads this, tokens
    {
      Filed(tokens.View()) && OnePerChain(View())
    }

    constructor (cfg: Config)
      ensures Valid() && fresh(tokens) && this.cfg == cfg && View() == EMPTY
    {
      this.cfg := cfg;
      tokens := new TokenService();
      users, nextUser, lineage := map[], 0, map[];
    }

    // UserRepository.get_by_id: the user must belong to the organization the token names.
    method GetById(id: Id, org: Id) returns (found: bool)
      ensures found == HasUser(View(), id, org)
    {
      found := id in users && users[id].org == org;
    }

    method IssueSessionTokens(user: Id, org: Id, now: real, ghost chain: Option<Id>) returns (reply: Reply)
      modifies this`lineage, tokens
      ensures (View(), reply) == IssueSession(cfg, old(View()), user, org, now, chain)
    {
      hide StoredUnder, Decodes;
      var access := tokens.CreateToken(user, org, Access, now, cfg.accessSeconds);
      var refresh := tokens.CreateToken(user, org, TokenType.Refresh, now, cfg.refreshSeconds);
      lineage := lineage[refresh.jti := if chain.Some? then chain.value else refresh.jti];
      label L:
      var ok := tokens.StoreRefreshSession(refresh, now);
      if !ok {
        NotDecodedNotStored(old@L(tokens.View()), refresh, now);
        return TokenError;
      }
      reply := Session(access, refresh);
    }

    method Register(org: Id, password: string, now: real) returns (reply: Reply)
      requires Valid()
      modifies this, tokens
      ensures Valid() && (View(), reply) == TokenModel.Register(cfg, old(View()), org, password, now)
    {
      hide Filed, OnePerChain, StoredUnder, Created, Decodes;
      KeepsValid(RegisterEvent(org, password), now);
      var id := nextUser;
      users := users[id := User(org, PendingVerification, false, password)];
      nextUser := nextUser + 1;
      reply := tokens.IssueOneTimeToken(EmailVerification, id, org, now, cfg.verifySeconds);
    }

    method InviteUser(org: Id, password: string, now: real) returns (reply: Reply)
      requires Valid()
      modifies this, tokens
      ensures Valid() && (View(), reply) == TokenModel.InviteUser(old(View()), org, password, now)
    {
      hide Filed, OnePerChain, StoredUnder, Created, Decodes;
      KeepsValid(InviteEvent(org, password), now);
      var id := nextUser;
      users := users[id := User(org, Invited, false, password)];
      nextUser := nextUser + 1;
      reply := tokens.IssueOneTimeToken(Invite, id, org, now, INVITE_SECONDS);
    }

    method ForgotPassword(id: Id, now: real) returns (reply: Reply)
      requires Valid()
      modifies tokens
      ensures Valid() && (View(), reply) == TokenModel.ForgotPassword(cfg, old(View()), id, now)
    {
      hide Filed, OnePerChain, StoredUnder, Created, Decodes;
      KeepsValid(ForgotEvent(id), now);
      if id !in users {
        return Ok;
      }
      reply := tokens.IssueOneTimeToken(PasswordReset, id, users[id].org, now, cfg.resetSeconds);
    }

    method Login(id: Id, password: string, now: real) returns (reply: Reply)
      requires Valid()
      modifies this, tokens
      ensures Valid() && (View(), reply) == TokenModel.Login(cfg, old(View()), id, password, now)
    {
      hide Filed, OnePerChain, IssueSession;
      KeepsValid(LoginEvent(id, password), now);
      if id !in users || users[id].password != password {
        return AuthError;
      }
      if users[id].status != Active || !users[id].verified {
        return AuthError;
      }
      reply := IssueSessionTokens(id, users[id].org, now, None);
    }

    method Refresh(token: Payload, now: real) returns (reply: Reply)
      requires Valid()
      modifies this, tokens
      ensures Valid() && (View(), reply) == Rotate(cfg, old(View()), token, now)
    {
      hide Filed, OnePerChain, IssueSession;
      KeepsValid(RefreshEvent(token), now);
      var ok := tokens.GetRefreshSession(token, now);
      if !ok {
        return TokenError;
      }
      ok := GetById(token.user, token.org);
      if !ok || users[token.user].status != Active {
        return AuthError;
      }
      ok := tokens.RevokeRefreshToken(token, now);
      ghost var chain := if token.jti in lineage then Some(lineage[token.jti]) else None;
      reply := IssueSessionTokens(token.user, token.org, now, chain);
    }

    method Logout(token: Payload, access: Option<Payload>, now: real) returns (reply: Reply)
      requires Valid()
      modifies tokens
      ensures Valid() && (View(), reply) == TokenModel.Logout(old(View()), token, access, now)
    {
      hide Filed, OnePerChain, RevokedAccess, Decodes;
      KeepsValid(LogoutEvent(token, access), now);
      var ok;
      if access.Some? {
        ok := tokens.RevokeAccessToken(access.value, now);
      }
      ok := tokens.RevokeRefreshToken(token, now);
      reply := if ok then Ok else TokenError;
    }

    method ConsumeFor(token: Payload, tokenType: TokenType, now: real) returns (reply: Reply)
      requires tokenType != Access && tokenType != TokenType.Refresh
      modifies tokens
      ensures (View(), reply) == Consume(old(View()), token, tokenType, now)
      ensures reply == Ok ==> token.user in users
    {
      var ok := tokens.ConsumeOneTimeToken(token, tokenType, now);
      if !ok {
        return TokenError;
      }
      ok := GetById(token.user, token.org);
      reply := if ok then Ok else NotFound;
    }

    method ResetPassword(token: Payload, password: string, now: real) returns (reply: Reply)
      requires Valid()
      modifies this, tokens
      ensures Valid() && (View(), reply) == TokenModel.ResetPassword(old(View()), token, password, now)
    {
      hide Filed, OnePerChain, Consume;
      KeepsValid(ResetEvent(token, password), now);
      reply := ConsumeFor(token, PasswordReset, now);
      if reply == Ok {
        users := users[token.user := users[token.user].(password := password)];
      }
    }

    method VerifyEmail(token: Payload, now: real) returns (reply: Reply)
      requires Valid()
      modifies this, tokens
      ensures Valid() && (View(), reply) == TokenModel.VerifyEmail(old(View()), token, now)
    {
      hide Filed, OnePerChain, Consume;
      KeepsValid(VerifyEvent(token), now);
      reply := ConsumeFor(token, EmailVerification, now);
      if reply == Ok {
        users := users[token.user := users[token.user].(status := Active, verified := true)];
      }
    }

    method AcceptInvite(token: Payload, password: string, now: real) returns (reply: Reply)
      requires Valid()
      modifies this, tokens
      ensures Valid() && (View(), reply) == TokenModel.AcceptInvite(old(View()), token, password, now)
    {
      hide Filed, OnePerChain, Consume;
      KeepsValid(AcceptEvent(token, password), now);
      reply := ConsumeFor(token, Invite, now);
      if reply != Ok {
        return;
      }
      if users[token.user].status != Invited {
        return AuthError;
      }
      users := users[token.user := users[token.user].(status := Active, verified := true, password := password)];
    }

    lemma KeepsValid(ev: Event, now: real)
      requires Valid()
      ensures Filed(Apply(cfg, View(), ev, now).0.tokens)
      ensures OnePerChain(Apply(cfg, View(), ev, now).0)
    {
      hide Apply, Filed, OnePerChain;
      StepFiled(cfg, View(), ev, now);
      StepKeepsChains(cfg, View(), ev, now);
    }
  }

  lemma NotDecodedNotStored(t: Tokens, p: Payload, now: real)
    requires !Decodes(t, p, now, p.tokenType)
    ensures Stored(t, p, now) == t
  {
  }
}
