// The integration lifecycle: an integration's status, its credential record, and the refresh lock.
// Times are seconds; an expiring Redis key is alive strictly before its expiry.
module IntegrationModel {
  import opened Common

  datatype Provider = Gmail | Outlook | GoogleCalendar | WhatsappBusiness | Twilio | Slack | Hubspot | Salesforce
    | GoogleDrive | Notion

  datatype Status = Pending | Connected | Disconnected | Expired | ErrorStatus | ValidationFailed

  datatype Integration = Integration(org: Id, provider: Provider, status: Status, lastError: Option<string>)

  // The credential record of an integration; there is at most one, keyed by the integration's id.
  datatype Token = Token(expiresAt: int, refreshAttempts: nat, lastRefreshError: Option<string>, revoked: bool)

  datatype State = State(
    integrations: map<Id, Integration>,
    tokens: map<Id, Token>,
    locks: map<Id, int>,
    nextId: Id)

  const EMPTY := State(map[], map[], map[], 0)

  datatype Config = Config(hasRedis: bool, lockSeconds: nat, windowMinutes: nat)

  datatype Reply = Done(id: Id) | NotFound | Invalid | Conflict

  // ---------- connect and authenticate ----------

  ghost predicate IsProviderRow(s: State, id: Id, org: Id, provider: Provider) {
    id in s.integrations && s.integrations[id].org == org && s.integrations[id].provider == provider
  }

  ghost function ByProvider(s: State, org: Id, provider: Provider): Option<Id> {
    if exists id :: IsProviderRow(s, id, org, provider) then
      var id :| IsProviderRow(s, id, org, provider);
      Some(id)
    else None
  }

  // _persist_tokens, and the fields authenticate sets.
  function Granted(s: State, id: Id, expiresAt: int): State
    requires id in s.integrations
  {
    s.(tokens := s.tokens[id := Token(expiresAt, 0, None, false)],
       integrations := s.integrations[id := s.integrations[id].(status := Connected, lastError := None)])
  }

  // The row connect leaves: new, or the disconnected one put back to pending.
  function Begun(s: State, id: Id, org: Id, provider: Provider): State {
    s.(integrations := s.integrations[id := Integration(org, provider, Pending, None)],
       nextId := if id == s.nextId then id + 1 else s.nextId)
  }

  // With an authorization code the connection is authenticated in the same call; `expiresAt` is the
  // provider's answer.
  ghost function Connect(s: State, org: Id, provider: Provider, withCode: bool, expiresAt: int): (State, Reply) {
    var existing := ByProvider(s, org, provider);
    if existing.Some? && s.integrations[existing.value].status != Disconnected then (s, Conflict)
    else
      var id := if existing.Some? then existing.value else s.nextId;
      var begun := Begun(s, id, org, provider);
      (if withCode then Granted(begun, id, expiresAt) else begun, Done(id))
  }

  // What the signed state of an OAuth callback decodes to; None when it is invalid or expired.
  datatype OAuthState = OAuthState(provider: Provider, integration: Id, org: Id)

  function Authenticate(s: State, decoded: Option<OAuthState>, provider: Provider, expiresAt: int): (State, Reply) {
    if decoded.None? || decoded.value.provider != provider then (s, Invalid)
    else if decoded.value.integration !in s.integrations then (s, NotFound)
    else if s.integrations[decoded.value.integration].org != decoded.value.org then (s, Invalid)
    else (Granted(s, decoded.value.integration, expiresAt), Done(decoded.value.integration))
  }

  // ---------- validate and disconnect ----------

  predicate HasIntegration(s: State, org: Id, id: Id) {
    id in s.integrations && s.integrations[id].org == org
  }

  predicate HasLiveToken(s: State, id: Id) {
    id in s.tokens && !s.tokens[id].revoked
  }

  // `problem` is None when the provider finds the credentials valid, and its message otherwise.
  function Validate(s: State, org: Id, id: Id, problem: Option<string>): (State, Reply) {
    if !HasIntegration(s, org, id) then (s, NotFound)
    else if !HasLiveToken(s, id) then (s, NotFound)
    else
      var status := if problem.None? then Connected else ValidationFailed;
      (s.(integrations := s.integrations[id := s.integrations[id].(lastError := problem, status := status)]), Done(id))
  }

  function Disconnect(s: State, org: Id, id: Id): (State, Reply) {
    if !HasIntegration(s, org, id) then (s, NotFound)
    else
      (s.(tokens := if id in s.tokens then s.tokens[id := s.tokens[id].(revoked := true)] else s.tokens,
          integrations := s.integrations[id := s.integrations[id].(status := Disconnected,
              lastError := None)]), Done(id))
  }

  // ---------- refresh_due_tokens ----------

  // OAuthTokenRepository.list_due_for_refresh, as a set; the order of the rows is not specified.
  function Due(s: State, cutoff: int): set<Id> {
    set id | id in s.tokens && id in s.integrations && s.tokens[id].expiresAt <= cutoff && Refreshable(s, id)
  }

  predicate Refreshable(s: State, id: Id) {
    && id in s.tokens && id in s.integrations && !s.tokens[id].revoked
    && (s.integrations[id].status == Connected || s.integrations[id].status == Expired)
  }

  function Cutoff(cfg: Config, now: int): int {
    now + 60 * cfg.windowMinutes
  }

  // SET key "1" EX lockSeconds NX: whether the caller got the lock.
  predicate LockFree(cfg: Config, locks: map<Id, int>, id: Id, at: int) {
    !cfg.hasRedis || id !in locks || at >= locks[id]
  }

  function Locked(cfg: Config, locks: map<Id, int>, id: Id, at: int): map<Id, int> {
    if cfg.hasRedis && LockFree(cfg, locks, id, at) then locks[id := at + cfg.lockSeconds] else locks
  }

  // What the provider answers to a refresh: a new expiry, or the text of the exception.
  datatype Outcome = Renewed(expiresAt: int) | Refused(error: string)

  datatype Verdict = Refreshed | Failed | Skipped

  function Attempt(cfg: Config, s: State, id: Id, at: int, outcome: Outcome): (State, Verdict)
    requires id in s.tokens && id in s.integrations
  {
    if !LockFree(cfg, s.locks, id, at) then (s, Skipped)
    else
      var t := s.(locks := Locked(cfg, s.locks, id, at));
      var token, integration := s.tokens[id], s.integrations[id];
      match outcome
      case Renewed(expiresAt) =>
        (t.(tokens := t.tokens[id := token.(expiresAt := expiresAt, lastRefreshError := None, refreshAttempts := 0)],
            integrations := t.integrations[id := integration.(status := Connected, lastError := None)]), Refreshed)
      case Refused(error) =>
        (t.(tokens := t.tokens[id := token.(refreshAttempts := token.refreshAttempts + 1,
            lastRefreshError := Some(error))],
            integrations := t.integrations[id := integration.(status := Expired, lastError := Some(error))]), Failed)
  }

  // A pass over a list of tokens: the i-th is tried at clock(i), with the outcome the provider then gives.
  function Pass(cfg: Config, s: State, ids: seq<Id>, clock: seq<int>, answers: map<Id, Outcome>)
    : (r: (State, seq<Verdict>))
    requires |clock| == |ids|
    requires forall i :: 0 <= i < |ids| ==> ids[i] in s.tokens && ids[i] in s.integrations && ids[i] in answers
    ensures |r.1| == |ids|
    ensures r.0.tokens.Keys == s.tokens.Keys && r.0.integrations.Keys == s.integrations.Keys
    decreases |ids|
  {
    if ids == [] then (s, [])
    else
      var last := |ids| - 1;
      var before := Pass(cfg, s, ids[..last], clock[..last], answers);
      var step := Attempt(cfg, before.0, ids[last], clock[last], answers[ids[last]]);
      (step.0, before.1 + [step.1])
  }

  function Count(verdicts: seq<Verdict>, v: Verdict): nat {
    if verdicts == [] then 0
    else Count(verdicts[..|verdicts| - 1], v) + if verdicts[|verdicts| - 1] == v then 1 else 0
  }

  // due_tokens[:limit]
  function Take(ids: seq<Id>, limit: int): seq<Id> {
    if limit < 0 then ids[..if |ids| + limit < 0 then 0 else |ids| + limit]
    else if limit <= |ids| then ids[..limit] else ids
  }

  // ---------- Runs ----------

  datatype Event =
    | ConnectEvent(org: Id, provider: Provider, withCode: bool, expiresAt: int)
    | AuthenticateEvent(decoded: Option<OAuthState>, provider: Provider, expiresAt: int)
    | ValidateEvent(org: Id, id: Id, problem: Option<string>)
    | DisconnectEvent(org: Id, id: Id)
    | AttemptEvent(id: Id, at: int, outcome: Outcome)

  // One service call, or one attempt of a refresh pass.  A pass tries only tokens it found refreshable.
  ghost predicate Next(cfg: Config, s: State, ev: Event, t: State) {
    match ev
    case ConnectEvent(org, provider, withCode, expiresAt) => t == Connect(s, org, provider, withCode, expiresAt).0
    case AuthenticateEvent(decoded, provider, expiresAt) => t == Authenticate(s, decoded, provider, expiresAt).0
    case ValidateEvent(org, id, problem) => t == Validate(s, org, id, problem).0
    case DisconnectEvent(org, id) => t == Disconnect(s, org, id).0
    case AttemptEvent(id, at, outcome) => Refreshable(s, id) && t == Attempt(cfg, s, id, at, outcome).0
  }

  ghost predicate IsRun(cfg: Config, states: seq<State>, events: seq<Event>) {
    && |states| == |events| + 1 && states[0] == EMPTY
    && forall i :: 0 <= i < |events| ==> Next(cfg, states[i], events[i], states[i + 1])
  }
}
