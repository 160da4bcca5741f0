/** internal/keycloak/cache.go, client.go and authorizer.go: the caches, the
    retrying admin client above the token source, and the authorizer, as seen by
    one caller at a time (AuthRuns has the interleavings). */
module KeycloakClient {
  import opened Outcomes
  import opened CacheKeys
  import opened RefPattern
  import opened Keycloak
  import opened Network
  import opened Tokens

  class Cache<V(0)> {
    const net: Network
    const ttl: int
    const staleFor: int
    var entries: map<string, Entry<V>>

    constructor (ttl: int, staleFor: int, net: Network)
      ensures this.ttl == ttl && this.staleFor == staleFor && this.net == net && entries == map[]
    {
      this.ttl, this.staleFor, this.net := ttl, staleFor, net;
      entries := map[];
    }

    method GetWithin(key: string, maxAge: int) returns (r: Option<V>)
      ensures r == Lookup(entries, key, net.clock, maxAge)
    {
      if key !in entries {
        return None;
      }
      if net.clock - entries[key].storedAt > maxAge {
        return None;
      }
      return Some(entries[key].value);
    }

    /** Fresh entries only. */
    method Get(key: string) returns (r: Option<V>)
      ensures r == Lookup(entries, key, net.clock, ttl)
      ensures r == if key in entries && net.clock - entries[key].storedAt <= ttl then Some(entries[key].value) else None
    {
      r := GetWithin(key, ttl);
    }

    /** Also entries up to staleFor past their time to live. */
    method GetStale(key: string) returns (r: Option<V>)
      ensures r == Lookup(entries, key, net.clock, ttl + staleFor)
      ensures r == if key in entries && net.clock - entries[key].storedAt <= ttl + staleFor
                   then Some(entries[key].value) else None
    {
      r := GetWithin(key, ttl + staleFor);
    }

    /** The entry's age counts from the Put. */
    method Put(key: string, v: V)
      modifies this
      ensures entries == old(entries)[key := Entry(v, net.clock)]
    {
      entries := entries[key := Entry(v, net.clock)];
    }
  }

  /* ------------------------------------------------------------------ */
  /* One admin call                                                       */
  /* ------------------------------------------------------------------ */

  /** The exchange ends one attempt of a call. */
  predicate EndsAttempt(x: Exchange) { x.AdminExchange? || x.granted.None? }

  function Attempts(s: seq<Exchange>): nat {
    if s == [] then 0 else Attempts(s[..|s| - 1]) + if EndsAttempt(s[|s| - 1]) then 1 else 0
  }

  /** The attempt failed in a way that is tried again: no token, no reply, 401
      or 5xx. */
  predicate Retryable(x: Exchange) {
    match x
    case TokenExchange(granted, _, _) => granted.None?
    case AdminExchange(_, _, reply, _, _) => reply.NoReply? || reply.code == 401 || reply.code >= 500
  }

  /** An attempt right after a token fetch carries the token fetched, one right
      after another attempt the same token again, and after a 401 the next thing
      sent is a token fetch. */
  predicate Linked(x: Exchange, y: Exchange) {
    && (x.TokenExchange? && x.granted.Some? ==> y.AdminExchange? && y.token == x.granted.value.token)
    && (x.AdminExchange? && y.AdminExchange? ==> y.token == x.token)
    && (Unauthorized(x) ==> y.TokenExchange?)
  }

  predicate Unauthorized(x: Exchange) {
    x.AdminExchange? && x.reply.Response? && x.reply.code == 401
  }

  predicate TokensInOrder(s: seq<Exchange>) {
    forall i :: 0 <= i < |s| - 1 ==> Linked(s[i], s[i + 1])
  }

  predicate Asks(s: seq<Exchange>, query: Query) {
    forall i :: 0 <= i < |s| && s[i].AdminExchange? ==> s[i].query == query
  }

  predicate AllRetryable(s: seq<Exchange>) {
    forall i :: 0 <= i < |s| && EndsAttempt(s[i]) ==> Retryable(s[i])
  }

  /** What the exchanges of one call look like: at most two attempts, the second
      only after a retryable first; the call succeeds exactly with the body of
      its last exchange, and gives up only after two attempts or on a failure
      that is not retried. */
  predicate CallRun(s: seq<Exchange>, query: Query, r: Option<Payload>) {
    && s != []
    && |s| <= 4 && 1 <= Attempts(s) <= 2
    && TokensInOrder(s)
    && Asks(s, query)
    && AllRetryable(s[..|s| - 1])
    && var last := s[|s| - 1];
    && EndsAttempt(last)
    && (Retryable(last) ==> Attempts(s) == 2)
    && (r.Some? <==> HasBody(last))
    && (r.Some? ==> r.value == BodyOf(last))
  }

  /** Where a call's loop stands before an attempt. */
  predicate Retrying(s: seq<Exchange>, query: Query, tries: int, token: string) {
    && |s| <= 2 * tries && Attempts(s) == tries
    && TokensInOrder(s) && Asks(s, query) && AllRetryable(s)
    && (s != [] ==> EndsAttempt(s[|s| - 1]) && Leaves(s[|s| - 1], token))
  }

  /** The token the source holds after this exchange. */
  predicate Leaves(x: Exchange, token: string) {
    x.AdminExchange? ==> token == if Unauthorized(x) then "" else x.token
  }

  lemma Append(s: seq<Exchange>, x: Exchange, query: Query)
    requires TokensInOrder(s) && Asks(s, query) && AllRetryable(s)
    requires s != [] ==> Linked(s[|s| - 1], x)
    requires x.AdminExchange? ==> x.query == query
    ensures TokensInOrder(s + [x]) && Asks(s + [x], query)
    ensures Attempts(s + [x]) == Attempts(s) + if EndsAttempt(x) then 1 else 0
    ensures (EndsAttempt(x) ==> Retryable(x)) ==> AllRetryable(s + [x])
  {
    hide Linked;
    var t := s + [x];
    assert t[..|s|] == s;
    forall i | 0 <= i < |t| - 1
      ensures Linked(t[i], t[i + 1])
    {
      if i < |s| - 1 {
        assert t[i] == s[i] && t[i + 1] == s[i + 1];
      }
    }
  }

  /** One more attempt, begun with the token fetch `fetch`, if any. */
  lemma Tried(s: seq<Exchange>, query: Query, tries: int, token: string, fetch: seq<Exchange>, x: Exchange,
              after: string)
    requires Retrying(s, query, tries, token) && 0 <= tries <= 1 && EndsAttempt(x)
    requires x.AdminExchange? ==> x.query == query
    requires fetch == [] || (|fetch| == 1 && fetch[0].TokenExchange? && !EndsAttempt(fetch[0]) && Linked(fetch[0], x))
    requires token == "" && fetch == [] ==> x.TokenExchange?
    requires fetch == [] && x.AdminExchange? ==> x.token == token
    requires Leaves(x, after)
    ensures Retryable(x) ==> Retrying(s + fetch + [x], query, tries + 1, after)
    ensures Retryable(x) && tries == 1 ==> CallRun(s + fetch + [x], query, None)
    ensures !Retryable(x) ==> CallRun(s + fetch + [x], query, if HasBody(x) then Some(BodyOf(x)) else None)
  {
    hide Sendable, CallRun, EndsAttempt, Linked, Unauthorized, Retryable, Retrying, HasBody;
    Fetched(s, query, tries, token, fetch, x);
    Ended(s + fetch, query, tries, x, after);
  }

  /** The exchanges so far, when the next one will be x. */
  predicate Sendable(t: seq<Exchange>, query: Query, tries: int, x: Exchange) {
    && |t| <= 2 * tries + 1 && Attempts(t) == tries
    && TokensInOrder(t) && Asks(t, query) && AllRetryable(t)
    && (t != [] ==> Linked(t[|t| - 1], x))
  }

  lemma Fetched(s: seq<Exchange>, query: Query, tries: int, token: string, fetch: seq<Exchange>, x: Exchange)
    requires Retrying(s, query, tries, token)
    requires fetch == [] || (|fetch| == 1 && fetch[0].TokenExchange? && !EndsAttempt(fetch[0]) && Linked(fetch[0], x))
    requires token == "" && fetch == [] ==> x.TokenExchange?
    requires fetch == [] && x.AdminExchange? ==> x.token == token
    ensures Sendable(s + fetch, query, tries, x)
  {
    hide TokensInOrder, Asks, AllRetryable, Attempts;
    if fetch != [] {
      Append(s, fetch[0], query);
      assert s + fetch == s + [fetch[0]];
    } else {
      assert s + fetch == s;
    }
  }

  lemma Ended(t: seq<Exchange>, query: Query, tries: int, x: Exchange, after: string)
    requires Sendable(t, query, tries, x) && 0 <= tries <= 1 && EndsAttempt(x)
    requires x.AdminExchange? ==> x.query == query
    requires Leaves(x, after)
    ensures Retryable(x) ==> Retrying(t + [x], query, tries + 1, after)
    ensures Retryable(x) && tries == 1 ==> CallRun(t + [x], query, None)
    ensures !Retryable(x) ==> CallRun(t + [x], query, if HasBody(x) then Some(BodyOf(x)) else None)
  {
    hide TokensInOrder, Asks, AllRetryable, Attempts, Linked;
    Append(t, x, query);
    assert (t + [x])[..|t + [x]| - 1] == t;
  }

  /** At most two of the exchanges end an attempt. */
  lemma {:induction false} AttemptsMonotone(s: seq<Exchange>, i: int)
    requires 0 <= i <= |s|
    ensures Attempts(s[..i]) <= Attempts(s)
    decreases |s|
  {
    if i < |s| {
      AttemptsMonotone(s[..|s| - 1], i);
      assert s[..|s| - 1][..i] == s[..i];
    } else {
      assert s[..i] == s;
    }
  }

  lemma AttemptsGrow(s: seq<Exchange>, i: int, j: int)
    requires 0 <= i < j <= |s| && EndsAttempt(s[i])
    ensures Attempts(s[..i]) + 1 <= Attempts(s[..j])
  {
    hide EndsAttempt;
    AttemptsMonotone(s[..j], i + 1);
    assert s[..j][..i + 1] == s[..i + 1] && s[..i + 1][..i] == s[..i] && s[..i + 1][i] == s[i];
  }

  /** What the exchanges of one call are, one by one. */
  lemma CallMeans(s: seq<Exchange>, query: Query, r: Option<Payload>)
    requires CallRun(s, query, r)
    ensures 1 <= |s| <= 4
    ensures forall i :: 0 <= i < |s| && s[i].AdminExchange? ==> s[i].query == query
    ensures forall i :: 0 <= i < |s| - 1 && s[i].AdminExchange? ==>
              s[i].reply.NoReply? || s[i].reply.code == 401 || s[i].reply.code >= 500
    ensures forall i :: 0 <= i < |s| - 1 && s[i].AdminExchange? && s[i].reply.Response? && s[i].reply.code == 401 ==>
              s[i + 1].TokenExchange?
    ensures forall i :: 0 <= i < |s| - 1 && s[i].TokenExchange? && s[i].granted.Some? ==>
              s[i + 1].AdminExchange? && s[i + 1].token == s[i].granted.value.token
    ensures forall i :: 0 <= i < |s| - 1 && s[i].AdminExchange? && s[i + 1].AdminExchange? ==>
              s[i + 1].token == s[i].token
    ensures forall i, j, k :: 0 <= i < j < k < |s| ==>
              !(s[i].AdminExchange? && s[j].AdminExchange? && s[k].AdminExchange?)
    ensures var last := s[|s| - 1];
            && (r.Some? <==> && last.AdminExchange? && last.reply.Response? && last.reply.code < 400
                             && last.reply.body.Some?)
            && (r.Some? ==> r == last.reply.body)
  {
    forall i | 0 <= i < |s| - 1
      ensures Linked(s[i], s[i + 1])
      ensures EndsAttempt(s[i]) ==> Retryable(s[i])
    {
      assert s[..|s| - 1][i] == s[i];
    }
    forall i, j, k | 0 <= i < j < k < |s|
      ensures !(s[i].AdminExchange? && s[j].AdminExchange? && s[k].AdminExchange?)
    {
      if s[i].AdminExchange? && s[j].AdminExchange? && s[k].AdminExchange? {
        ThreeAttempts(s, i, j, k);
      }
    }
  }

  lemma ThreeAttempts(s: seq<Exchange>, i: int, j: int, k: int)
    requires 0 <= i < j < k < |s| && EndsAttempt(s[i]) && EndsAttempt(s[j]) && EndsAttempt(s[k])
    ensures Attempts(s) >= 3
  {
    hide EndsAttempt;
    AttemptsGrow(s, i, j);
    AttemptsGrow(s, j, k);
    AttemptsGrow(s, k, |s|);
    assert s[..|s|] == s;
  }

  /* ------------------------------------------------------------------ */
  /* What the log says about a request                                    */
  /* ------------------------------------------------------------------ */

  /** The resource server is a client listed under this client id. */
  ghost predicate ServerFrom(log: seq<Exchange>, clientId: string, uuid: string) {
    exists i :: 0 <= i < |log| && NamesServer(log[i], clientId, uuid)
  }

  predicate NamesServer(x: Exchange, clientId: string, uuid: string) {
    && HasBody(x) && x.query == GetClients(clientId) && BodyOf(x).Clients?
    && exists i :: 0 <= i < |BodyOf(x).clients| && BodyOf(x).clients[i] == ClientRep(uuid, clientId)
  }

  lemma ServerFromLater(log: seq<Exchange>, more: seq<Exchange>, clientId: string, uuid: string)
    requires ServerFrom(log, clientId, uuid) && log <= more
    ensures ServerFrom(more, clientId, uuid)
  {
    var i :| 0 <= i < |log| && NamesServer(log[i], clientId, uuid);
    assert more[i] == log[i];
  }

  ghost predicate UserFrom(log: seq<Exchange>, name: string, user: string, since: int) {
    exists i :: 0 <= i < |log| && NamesUser(log[i], name, Some(user)) && log[i].ended >= since
  }

  ghost predicate NobodyFrom(log: seq<Exchange>, name: string, since: int) {
    exists i :: 0 <= i < |log| && NamesUser(log[i], name, None) && log[i].began >= since
  }

  ghost predicate JudgedFrom(log: seq<Exchange>, user: string, resource: string, scope: string, granted: bool,
                             since: int)
  {
    exists i :: 0 <= i < |log| && Judges(log[i], user, resource, scope, granted) && log[i].began >= since
  }

  /** Refs answered for some resource and action with the same cache key. */
  ghost predicate RefsFrom(log: seq<Exchange>, key: string, refs: seq<string>, since: int) {
    exists i, resource, action ::
      && 0 <= i < |log| && Constrains(log[i], resource, action, refs)
      && RefsKey(resource, action) == key && log[i].ended >= since
  }

  /** The log holds the evidence for this verdict on a request put at `asked`:
      a judgement given since, for a user named at most ten minutes before, and
      refs answered at most thirty seconds before. */
  ghost predicate Supports(log: seq<Exchange>, req: Request, v: Verdict, asked: int) {
    var name := ResourceName(req);
    match v
    case Permitted =>
      exists user, refs ::
        && UserFrom(log, req.repository, user, asked - USER_ID_TTL)
        && JudgedFrom(log, user, name, req.action, true, asked)
        && RefsFrom(log, RefsKey(name, req.action), refs, asked - REFS_TTL)
        && MatchRef(refs, req.ref) == Matched(true)
    case GrantDenied =>
      || NobodyFrom(log, req.repository, asked)
      || exists user ::
           && UserFrom(log, req.repository, user, asked - USER_ID_TTL)
           && JudgedFrom(log, user, name, req.action, false, asked)
    case RefDenied =>
      exists user, refs ::
        && UserFrom(log, req.repository, user, asked - USER_ID_TTL)
        && JudgedFrom(log, user, name, req.action, true, asked)
        && RefsFrom(log, RefsKey(name, req.action), refs, asked - REFS_TTL)
        && MatchRef(refs, req.ref) != Matched(true)
  }

  ghost predicate UsersBacked(entries: map<string, Entry<string>>, log: seq<Exchange>) {
    forall n :: n in entries ==> UserFrom(log, n, entries[n].value, entries[n].storedAt)
  }

  ghost predicate RefsBacked(entries: map<string, Entry<seq<string>>>, log: seq<Exchange>) {
    forall k :: k in entries ==> RefsFrom(log, k, entries[k].value, entries[k].storedAt)
  }

  /** Every cached decision is a permit the log supports for a request with its
      key, put at most 16 timeouts before it was stored. */
  ghost predicate PermitsBacked(entries: map<string, Entry<bool>>, log: seq<Exchange>) {
    forall k :: k in entries ==> entries[k].value && PermitBacked(log, k, entries[k].storedAt)
  }

  ghost predicate PermitBacked(log: seq<Exchange>, key: string, storedAt: int) {
    exists req, asked ::
      DecisionKey(req) == key && Supports(log, req, Permitted, asked) && asked <= storedAt <= asked + 16 * TIMEOUT
  }

  lemma UserFromLater(log: seq<Exchange>, more: seq<Exchange>, name: string, user: string, since: int, earlier: int)
    requires UserFrom(log, name, user, since) && log <= more && earlier <= since
    ensures UserFrom(more, name, user, earlier)
  {
    var i :| 0 <= i < |log| && NamesUser(log[i], name, Some(user)) && log[i].ended >= since;
    assert more[i] == log[i];
  }

  lemma JudgedFromLater(log: seq<Exchange>, more: seq<Exchange>, user: string, resource: string, scope: string,
                        granted: bool, since: int)
    requires JudgedFrom(log, user, resource, scope, granted, since) && log <= more
    ensures JudgedFrom(more, user, resource, scope, granted, since)
  {
    var i :| 0 <= i < |log| && Judges(log[i], user, resource, scope, granted) && log[i].began >= since;
    assert more[i] == log[i];
  }

  lemma RefsFromLater(log: seq<Exchange>, more: seq<Exchange>, key: string, refs: seq<string>, since: int,
                      earlier: int)
    requires RefsFrom(log, key, refs, since) && log <= more && earlier <= since
    ensures RefsFrom(more, key, refs, earlier)
  {
    var i, resource, action :| 0 <= i < |log| && Constrains(log[i], resource, action, refs)
                               && RefsKey(resource, action) == key && log[i].ended >= since;
    assert more[i] == log[i];
  }

  lemma PermitLater(log: seq<Exchange>, more: seq<Exchange>, req: Request, asked: int)
    requires Supports(log, req, Permitted, asked) && log <= more
    ensures Supports(more, req, Permitted, asked)
  {
    hide UserFrom, JudgedFrom, RefsFrom;
    var name := ResourceName(req);
    var user, refs :|
      && UserFrom(log, req.repository, user, asked - USER_ID_TTL)
      && JudgedFrom(log, user, name, req.action, true, asked)
      && RefsFrom(log, RefsKey(name, req.action), refs, asked - REFS_TTL)
      && MatchRef(refs, req.ref) == Matched(true);
    UserFromLater(log, more, req.repository, user, asked - USER_ID_TTL, asked - USER_ID_TTL);
    JudgedFromLater(log, more, user, name, req.action, true, asked);
    RefsFromLater(log, more, RefsKey(name, req.action), refs, asked - REFS_TTL, asked - REFS_TTL);
  }

  lemma CachesLater(users: map<string, Entry<string>>, refs: map<string, Entry<seq<string>>>, log: seq<Exchange>,
                    more: seq<Exchange>)
    requires UsersBacked(users, log) && RefsBacked(refs, log) && log <= more
    ensures UsersBacked(users, more) && RefsBacked(refs, more)
  {
    hide UserFrom, RefsFrom;
    forall n | n in users
      ensures UserFrom(more, n, users[n].value, users[n].storedAt)
    {
      UserFromLater(log, more, n, users[n].value, users[n].storedAt, users[n].storedAt);
    }
    forall k | k in refs
      ensures RefsFrom(more, k, refs[k].value, refs[k].storedAt)
    {
      RefsFromLater(log, more, k, refs[k].value, refs[k].storedAt, refs[k].storedAt);
    }
  }

  lemma PermitsLater(decisions: map<string, Entry<bool>>, log: seq<Exchange>, more: seq<Exchange>)
    requires PermitsBacked(decisions, log) && log <= more
    ensures PermitsBacked(decisions, more)
  {
    hide Supports;
    forall k | k in decisions
      ensures PermitBacked(more, k, decisions[k].storedAt)
    {
      var storedAt := decisions[k].storedAt;
      var req, asked :| DecisionKey(req) == k && Supports(log, req, Permitted, asked)
                        && asked <= storedAt <= asked + 16 * TIMEOUT;
      PermitLater(log, more, req, asked);
    }
  }

  /** If every exchange so far reported one and the same policy, a supported
      verdict is the one that policy gives: caches and retries change nothing. */
  lemma SupportedIsReference(log: seq<Exchange>, req: Request, v: Verdict, asked: int, p: Policy)
    requires Supports(log, req, v, asked)
    requires forall i :: 0 <= i < |log| ==> Reports(log[i], p)
    requires NulFree(ResourceName(req)) && NulFree(req.action)
    ensures v == Reference(p, req)
  {
    hide UserFrom, JudgedFrom, RefsFrom, MatchRef, PickUser, RefsFor, NulFree;
    var name := ResourceName(req);
    match v
    case Permitted =>
      var user, refs :|
        && UserFrom(log, req.repository, user, asked - USER_ID_TTL)
        && JudgedFrom(log, user, name, req.action, true, asked)
        && RefsFrom(log, RefsKey(name, req.action), refs, asked - REFS_TTL)
        && MatchRef(refs, req.ref) == Matched(true);
      UserReported(log, req.repository, user, asked - USER_ID_TTL, p);
      JudgementReported(log, user, name, req.action, true, asked, p);
      RefsReported(log, name, req.action, refs, asked - REFS_TTL, p);
    case GrantDenied =>
      if NobodyFrom(log, req.repository, asked) {
        NobodyReported(log, req.repository, asked, p);
      } else {
        var user :| && UserFrom(log, req.repository, user, asked - USER_ID_TTL)
                    && JudgedFrom(log, user, name, req.action, false, asked);
        UserReported(log, req.repository, user, asked - USER_ID_TTL, p);
        JudgementReported(log, user, name, req.action, false, asked, p);
      }
    case RefDenied =>
      var user, refs :|
        && UserFrom(log, req.repository, user, asked - USER_ID_TTL)
        && JudgedFrom(log, user, name, req.action, true, asked)
        && RefsFrom(log, RefsKey(name, req.action), refs, asked - REFS_TTL)
        && MatchRef(refs, req.ref) != Matched(true);
      UserReported(log, req.repository, user, asked - USER_ID_TTL, p);
      JudgementReported(log, user, name, req.action, true, asked, p);
      RefsReported(log, name, req.action, refs, asked - REFS_TTL, p);
  }

  lemma UserReported(log: seq<Exchange>, name: string, user: string, since: int, p: Policy)
    requires UserFrom(log, name, user, since) && forall i :: 0 <= i < |log| ==> Reports(log[i], p)
    ensures PickUser(p.users(name), name) == Some(user)
  {
    var i :| 0 <= i < |log| && NamesUser(log[i], name, Some(user)) && log[i].ended >= since;
    assert Reports(log[i], p);
  }

  lemma NobodyReported(log: seq<Exchange>, name: string, since: int, p: Policy)
    requires NobodyFrom(log, name, since) && forall i :: 0 <= i < |log| ==> Reports(log[i], p)
    ensures PickUser(p.users(name), name) == None
  {
    var i :| 0 <= i < |log| && NamesUser(log[i], name, None) && log[i].began >= since;
    assert Reports(log[i], p);
  }

  lemma JudgementReported(log: seq<Exchange>, user: string, resource: string, scope: string, granted: bool,
                          since: int, p: Policy)
    requires JudgedFrom(log, user, resource, scope, granted, since)
    requires forall i :: 0 <= i < |log| ==> Reports(log[i], p)
    ensures p.grants(user, resource, scope) == granted
  {
    var i :| 0 <= i < |log| && Judges(log[i], user, resource, scope, granted) && log[i].began >= since;
    assert Reports(log[i], p);
  }

  lemma RefsReported(log: seq<Exchange>, resource: string, action: string, refs: seq<string>, since: int, p: Policy)
    requires RefsFrom(log, RefsKey(resource, action), refs, since)
    requires forall i :: 0 <= i < |log| ==> Reports(log[i], p)
    requires NulFree(resource) && NulFree(action)
    ensures refs == RefsFor(p.resources(resource), resource, action)
  {
    var i, r, a :| 0 <= i < |log| && Constrains(log[i], r, a, refs)
                   && RefsKey(r, a) == RefsKey(resource, action) && log[i].ended >= since;
    RefsKeyOwned(resource, action);
    assert Reports(log[i], p);
  }

  class Client {
    const clientId: string
    const net: Network
    const ts: TokenSource
    const userIDs: Cache<string>
    const refs: Cache<seq<string>>
    var uuid: string
    /** How many admin calls were made. */
    ghost var calls: nat

    ghost predicate Wired() {
      && ts.net == net && userIDs.net == net && refs.net == net
      && userIDs.ttl == USER_ID_TTL && refs.ttl == REFS_TTL && userIDs.staleFor == 0 && refs.staleFor == 0
    }

    /** Whatever is cached was answered by Keycloak, and the resource server is one
        it listed under this client's id. */
    ghost predicate Valid()
      reads this, net, ts, userIDs, refs
    {
      && Wired() && ts.Valid()
      && UsersBacked(userIDs.entries, net.log)
      && RefsBacked(refs.entries, net.log)
      && (uuid != "" ==> ServerFrom(net.log, clientId, uuid))
    }

    constructor (clientId: string, net: Network)
      ensures Valid() && fresh(ts) && fresh(userIDs) && fresh(refs) && this.net == net && uuid == ""
      ensures this.clientId == clientId
      ensures userIDs.entries == map[] && refs.entries == map[]
    {
      this.clientId, this.net := clientId, net;
      ts := new TokenSource(net);
      userIDs := new Cache<string>(USER_ID_TTL, 0, net);
      refs := new Cache<seq<string>>(REFS_TTL, 0, net);
      uuid := "";
    }

    /** One attempt: a token, then the request; None when there was no token.
        `fetch` is the token fetch if it was needed, `x` the exchange that ended
        the attempt. */
    method Attempt(query: Query) returns (reply: Option<Reply>, ghost fetch: seq<Exchange>, ghost x: Exchange)
      requires Wired() && ts.Valid()
      modifies net, ts
      ensures ts.Valid() && net.Spent()
      ensures net.log == old(net.log) + (fetch + [x])
      ensures fetch == [] || (|fetch| == 1 && fetch[0].TokenExchange? && !EndsAttempt(fetch[0]) && Linked(fetch[0], x))
      ensures old(ts.token) == "" && fetch == [] ==> x.TokenExchange?
      ensures fetch == [] && x.AdminExchange? ==> x.token == old(ts.token)
      ensures x.AdminExchange? ==> ts.token == x.token
      ensures EndsAttempt(x) && x.ended == net.clock && x.began >= old(net.clock)
      ensures x.TokenExchange? <==> reply.None?
      ensures reply.Some? ==> x.query == query && x.reply == reply.value
    {
      ghost var before := net.log;
      var token := ts.Token();
      fetch := net.log[|before|..];
      if token.None? {
        x, fetch := fetch[0], [];
        return None, fetch, x;
      }
      ghost var sent := net.log;
      var got := net.Send(query, token.value);
      x := net.log[|sent|];
      return Some(got), fetch, x;
    }

    /** One admin call: at most two requests, the second only after a failure that
        may pass; after a 401 a token is fetched first, and a token just fetched
        is the one sent. It succeeds exactly with the body of the last reply. */
    method Do(query: Query) returns (r: Option<Payload>)
      requires Valid()
      modifies net, ts, this`calls
      ensures Valid() && net.Spent() && calls == old(calls) + 1
      ensures CallRun(net.log[|old(net.log)|..], query, r)
      ensures var s := net.log[|old(net.log)|..];
              && 1 <= |s| <= 4
              && (forall i :: 0 <= i < |s| && s[i].AdminExchange? ==> s[i].query == query)
              && (forall i :: 0 <= i < |s| - 1 && s[i].AdminExchange? ==>
                    s[i].reply.NoReply? || s[i].reply.code == 401 || s[i].reply.code >= 500)
              && (forall i :: 0 <= i < |s| - 1 && s[i].AdminExchange? && s[i].reply.Response?
                              && s[i].reply.code == 401 ==>
                    s[i + 1].TokenExchange?)
              && (forall i :: 0 <= i < |s| - 1 && s[i].TokenExchange? && s[i].granted.Some? ==>
                    s[i + 1].AdminExchange? && s[i + 1].token == s[i].granted.value.token)
              && (s[0].AdminExchange? ==> s[0].token == old(ts.token))
              && (forall i :: 0 <= i < |s| - 1 && s[i].AdminExchange? && s[i + 1].AdminExchange? ==>
                    s[i + 1].token == s[i].token)
              && (forall i, j, k :: 0 <= i < j < k < |s| ==>
                    !(s[i].AdminExchange? && s[j].AdminExchange? && s[k].AdminExchange?))
      ensures var last := net.log[|net.log| - 1];
              && (r.Some? <==> && last.AdminExchange? && last.reply.Response? && last.reply.code < 400
                               && last.reply.body.Some?)
              && (r.Some? ==> r == last.reply.body)
      ensures var last := net.log[|net.log| - 1];
              last.ended == net.clock && last.began >= old(net.clock) && (Unauthorized(last) ==> ts.token == "")
    {
      hide CallRun, UsersBacked, RefsBacked, ServerFrom;
      calls := calls + 1;
      r := Retry(query);
      CallMeans(net.log[|old(net.log)|..], query, r);
      CachesLater(userIDs.entries, refs.entries, old(net.log), net.log);
      if uuid != "" {
        ServerFromLater(old(net.log), net.log, clientId, uuid);
      }
    }

    /** An attempt and, after a 401, the dropping of its token. */
    method Try(query: Query) returns (reply: Option<Reply>, ghost fetch: seq<Exchange>, ghost x: Exchange)
      requires Wired() && ts.Valid()
      modifies net, ts
      ensures ts.Valid() && net.Spent()
      ensures net.log == old(net.log) + (fetch + [x])
      ensures fetch == [] || (|fetch| == 1 && fetch[0].TokenExchange? && !EndsAttempt(fetch[0]) && Linked(fetch[0], x))
      ensures old(ts.token) == "" && fetch == [] ==> x.TokenExchange?
      ensures fetch == [] && x.AdminExchange? ==> x.token == old(ts.token)
      ensures x.TokenExchange? ==> x.granted.None?
      ensures Leaves(x, ts.token) && (Unauthorized(x) ==> ts.token == "")
      ensures EndsAttempt(x) && x.ended == net.clock && x.began >= old(net.clock)
      ensures x.TokenExchange? <==> reply.None?
      ensures reply.Some? ==> x.query == query && x.reply == reply.value
    {
      hide Linked;
      reply, fetch, x := Attempt(query);
      if reply.Some? && reply.value.Response? && reply.value.code == 401 {
        ts.Invalidate();
      }
    }

    /** The attempt loop of Do. */
    method Retry(query: Query) returns (r: Option<Payload>)
      requires Wired() && ts.Valid()
      modifies net, ts
      ensures ts.Valid() && net.Spent()
      ensures CallRun(net.log[|old(net.log)|..], query, r)
      ensures var first := net.log[|old(net.log)|]; first.AdminExchange? ==> first.token == old(ts.token)
      ensures var last := net.log[|net.log| - 1];
              last.ended == net.clock && last.began >= old(net.clock) && (Unauthorized(last) ==> ts.token == "")
    {
      hide CallRun, Retrying, Linked, EndsAttempt, Leaves;
      ghost var log0 := net.log;
      ghost var done: seq<Exchange> := [];
      StartRetrying(query, ts.token);
      for attempt := 0 to 2
        invariant ts.Valid()
        invariant old(net.clock) <= net.clock <= old(net.clock) + TIMEOUT * |done|
        invariant net.log == log0 + done
        invariant attempt < 2 ==> Retrying(done, query, attempt, ts.token)
        invariant attempt > 0 ==>
            done != [] && var last := done[|done| - 1];
            last.ended == net.clock && last.began >= old(net.clock) && (Unauthorized(last) ==> ts.token == "")
        invariant attempt == 2 ==> CallRun(done, query, None)
        invariant done == [] ==> ts.token == old(ts.token)
        invariant done != [] && done[0].AdminExchange? ==> done[0].token == old(ts.token)
      {
        ghost var token := ts.token;
        var reply, fetch, x := Try(query);
        LogGrows(log0, done, fetch, x);
        if reply.Some? && reply.value.Response? && reply.value.code != 401 && reply.value.code < 500 {
          Tried(done, query, attempt, token, fetch, x, ts.token);
          return if reply.value.code >= 400 then None else reply.value.body;
        }
        Tried(done, query, attempt, token, fetch, x, ts.token);
        done := done + fetch + [x];
      }
      assert net.log[|log0|..] == done;
      return None;
    }

    /** Time, calls and attempts since: at most four HTTP attempts an admin call. */
    twostate predicate Cost(maxCalls: nat)
      reads this, net
    {
      && net.Spent()
      && old(calls) <= calls <= old(calls) + maxCalls
      && |net.log| <= |old(net.log)| + 4 * (calls - old(calls))
    }

    /** The last thing sent since got no answer. */
    twostate predicate Unanswered()
      reads this, net
    {
      |net.log| > |old(net.log)| && !Answers(net.log[|net.log| - 1])
    }

    /** Resolved once, then remembered for good: it is the id of a client Keycloak
        listed under the very client id asked for. */
    method ResourceServerUUID() returns (r: Option<string>)
      requires Valid()
      modifies this, net, ts
      ensures Valid() && Cost(if old(uuid) == "" then 1 else 0)
      ensures r.None? <==> Unanswered()
      ensures r.Some? ==> uuid == r.value != "" && ServerFrom(net.log, clientId, uuid)
      ensures r.Some? && net.log != old(net.log) ==>
                var last := net.log[|net.log| - 1];
                && HasBody(last) && last.query == GetClients(clientId) && BodyOf(last).Clients?
                && var cs := BodyOf(last).clients;
                   exists i :: && 0 <= i < |cs| && cs[i].clientId == clientId && cs[i].id == r.value
                               && forall j :: 0 <= j < i ==> cs[j].clientId != clientId || cs[j].id == ""
      ensures old(uuid) != "" ==> uuid == old(uuid) && net.log == old(net.log)
      ensures forall i :: |old(net.log)| <= i < |net.log| && net.log[i].AdminExchange? ==>
                net.log[i].query == GetClients(clientId)
    {
      hide CallRun, UsersBacked, RefsBacked, ServerFrom, HasBody, PickClient;
      if uuid != "" {
        return Some(uuid);
      }
      ghost var before := net.log;
      var raw := Do(GetClients(clientId));
      LastOf(before, net.log, GetClients(clientId), raw);
      if raw.None? || !raw.value.Clients? {
        return None;
      }
      var found := FindClient(raw.value.clients, clientId);
      if found.None? {
        return None;
      }
      uuid := found.value;
      ServerNow(net.log, clientId, uuid);
      return found;
    }

    /** The user Keycloak names for a repository, asked at most ten minutes ago;
        or that it names none, asked now; or no answer. A user asked for now is
        the one listed whose name is the one asked for, character by character,
        but for the case of ASCII letters; no subject means there is none. */
    method UserID(username: string) returns (r: Subject)
      requires Valid()
      modifies this`calls, net, ts, userIDs
      ensures Valid() && Cost(1)
      ensures r.Failed? <==> Unanswered()
      ensures var hit := Lookup(old(userIDs.entries), username, old(net.clock), USER_ID_TTL);
              if hit.Some? then
                r == Found(hit.value) && net.log == old(net.log) && userIDs.entries == old(userIDs.entries)
              else
                && net.log != old(net.log)
                && userIDs.entries == if r.Found? then old(userIDs.entries)[username := Entry(r.id, net.clock)]
                                      else old(userIDs.entries)
      ensures net.log == old(net.log) <==> username in old(userIDs.entries)
                                           && old(net.clock) - old(userIDs.entries)[username].storedAt <= 600 * SECOND
      ensures net.log == old(net.log) ==> r == Found(userIDs.entries[username].value)
      ensures !r.Failed? && net.log != old(net.log) ==>
                var last := net.log[|net.log| - 1];
                HasBody(last) && last.query == GetUsers(username) && BodyOf(last).Users?
      ensures r.Found? && net.log != old(net.log) ==>
                var us := BodyOf(net.log[|net.log| - 1]).users;
                exists i :: && 0 <= i < |us| && us[i].id == r.id != "" && |us[i].username| == |username|
                            && forall k :: 0 <= k < |username| ==>
                                 || us[i].username[k] == username[k]
                                 || ('A' <= username[k] <= 'Z' && us[i].username[k] as int == username[k] as int + 32)
                                 || ('A' <= us[i].username[k] <= 'Z'
                                     && username[k] as int == us[i].username[k] as int + 32)
      ensures r.NoSubject? ==>
                var us := BodyOf(net.log[|net.log| - 1]).users;
                forall i :: 0 <= i < |us| && us[i].id != "" ==>
                  || |us[i].username| != |username|
                  || exists k :: && 0 <= k < |username| && us[i].username[k] != username[k]
                                 && !('A' <= username[k] <= 'Z'
                                      && us[i].username[k] as int == username[k] as int + 32)
                                 && !('A' <= us[i].username[k] <= 'Z'
                                      && username[k] as int == us[i].username[k] as int + 32)
      ensures forall i :: |old(net.log)| <= i < |net.log| && net.log[i].AdminExchange? ==>
                net.log[i].query == GetUsers(username)
      ensures r.Found? ==> UserFrom(net.log, username, r.id, old(net.clock) - USER_ID_TTL)
      ensures r.NoSubject? ==> NobodyFrom(net.log, username, old(net.clock)) && net.log != old(net.log)
    {
      hide UserFrom, RefsFrom, CallRun, NobodyFrom, PickUser;
      var cached := userIDs.Get(username);
      if cached.Some? {
        assert UsersBacked(userIDs.entries, net.log);
        UserFromLater(net.log, net.log, username, cached.value, userIDs.entries[username].storedAt,
                      net.clock - USER_ID_TTL);
        return Found(cached.value);
      }
      r := FetchUser(username);
      if r.Failed? {
        return Failed;
      }
      PickUserMeans(BodyOf(net.log[|net.log| - 1]).users, username);
      if r.NoSubject? {
        NobodyNow(net.log, username, old(net.clock));
        return NoSubject;
      }
      userIDs.Put(username, r.id);
      UserNow(net.log, username, r.id, net.clock);
      UserFromLater(net.log, net.log, username, r.id, net.clock, old(net.clock) - USER_ID_TTL);
    }

    /** The user asked for now. */
    method FetchUser(username: string) returns (r: Subject)
      requires Valid()
      modifies this`calls, net, ts
      ensures Valid() && Cost(1) && net.log != old(net.log)
      ensures r.Failed? <==> Unanswered()
      ensures !r.Failed? ==>
                var last := net.log[|net.log| - 1];
                && NamesUser(last, username, if r.Found? then Some(r.id) else None)
                && last.ended == net.clock && last.began >= old(net.clock)
      ensures forall i :: |old(net.log)| <= i < |net.log| && net.log[i].AdminExchange? ==>
                net.log[i].query == GetUsers(username)
    {
      hide CallRun, UsersBacked, RefsBacked, PickUser;
      ghost var before := net.log;
      var query := GetUsers(username);
      var raw := Do(query);
      LastOf(before, net.log, query, raw);
      if raw.None? || !raw.value.Users? {
        return Failed;
      }
      var found := FindUser(raw.value.users, username);
      return if found.None? then NoSubject else Found(found.value);
    }

    /** A judgement given now, of this user, resource and scope, by the resource
        server's own evaluation: only an explicit PERMIT or DENY is one. */
    method Evaluate(user: string, resource: string, scope: string) returns (r: Option<bool>)
      requires Valid()
      modifies this, net, ts
      ensures Valid() && Cost(if old(uuid) == "" then 2 else 1)
      ensures r.None? <==> Unanswered()
      ensures r.Some? ==> && JudgedFrom(net.log, user, resource, scope, r.value, old(net.clock))
                          && uuid != "" && net.log != old(net.log)
      ensures r.Some? ==>
                var last := net.log[|net.log| - 1];
                && HasBody(last) && last.query == Query.Evaluate(uuid, user, resource, scope)
                && BodyOf(last) == Status(if r.value then "PERMIT" else "DENY")
                && ServerFrom(net.log, clientId, uuid)
      ensures old(uuid) != "" ==> uuid == old(uuid)
      ensures forall i :: |old(net.log)| <= i < |net.log| && net.log[i].AdminExchange? ==>
                || net.log[i].query == GetClients(clientId)
                || (uuid != "" && net.log[i].query == Query.Evaluate(uuid, user, resource, scope))
    {
      hide CallRun, UsersBacked, RefsBacked;
      var id := ResourceServerUUID();
      if id.None? {
        return None;
      }
      ghost var before := net.log;
      var query := Query.Evaluate(id.value, user, resource, scope);
      var raw := Do(query);
      LastOf(before, net.log, query, raw);
      ghost var x := net.log[|net.log| - 1];
      if raw.None? {
        return None;
      }
      if raw.value == Status("PERMIT") {
        assert Judges(x, user, resource, scope, true);
        return Some(true);
      }
      if raw.value == Status("DENY") {
        assert Judges(x, user, resource, scope, false);
        return Some(false);
      }
      return None;
    }

    /** The ref constraints of a resource, asked at most thirty seconds ago. Asked
        now, they are those of the resource with the very name asked for: the
        attribute of the action wins over the bare one. The resource server is
        not looked up again once it is known. */
    method AllowedRefs(resource: string, action: string) returns (r: Option<seq<string>>)
      requires Valid()
      modifies this, net, ts, refs
      ensures Valid() && Cost(if old(uuid) == "" then 2 else 1)
      ensures r.None? <==> Unanswered()
      ensures var key := RefsKey(resource, action);
              var hit := Lookup(old(refs.entries), key, old(net.clock), REFS_TTL);
              if hit.Some? then
                r == hit && net.log == old(net.log) && refs.entries == old(refs.entries)
              else
                refs.entries == if r.Some? then old(refs.entries)[key := Entry(r.value, net.clock)]
                                else old(refs.entries)
      ensures r.Some? && net.log != old(net.log) ==>
                var last := net.log[|net.log| - 1];
                && HasBody(last) && last.query == GetResources(uuid, resource) && BodyOf(last).Resources?
                && ServerFrom(net.log, clientId, uuid)
                && var rs := BodyOf(last).resources;
                && (forall i :: && 0 <= i < |rs| && rs[i].name == resource
                                && (forall j :: 0 <= j < i ==> rs[j].name != resource) ==>
                      r.value == if "allowed_refs." + action in rs[i].attributes
                                 then rs[i].attributes["allowed_refs." + action]
                                 else if "allowed_refs" in rs[i].attributes then rs[i].attributes["allowed_refs"]
                                 else [])
                && ((forall i :: 0 <= i < |rs| ==> rs[i].name != resource) ==> r.value == [])
      ensures old(uuid) != "" ==> uuid == old(uuid)
      ensures forall i :: |old(net.log)| <= i < |net.log| && net.log[i].AdminExchange? ==>
                || net.log[i].query == GetClients(clientId)
                || (uuid != "" && net.log[i].query == GetResources(uuid, resource))
      ensures r.Some? ==> RefsFrom(net.log, RefsKey(resource, action), r.value, old(net.clock) - REFS_TTL)
    {
      hide CallRun, UserFrom, RefsFrom, RefsFor, UsersBacked;
      var key := RefsKey(resource, action);
      var cached := refs.Get(key);
      if cached.Some? {
        RefsFromLater(net.log, net.log, key, cached.value, refs.entries[key].storedAt, net.clock - REFS_TTL);
        return cached;
      }
      r := FetchRefs(resource, action);
      if r.None? {
        return None;
      }
      RefsForMeans(BodyOf(net.log[|net.log| - 1]).resources, resource, action);
      RefsNow(net.log, resource, action, r.value, net.clock);
      refs.Put(key, r.value);
      RefsFromLater(net.log, net.log, key, r.value, net.clock, old(net.clock) - REFS_TTL);
    }

    /** The refs asked for now. */
    method FetchRefs(resource: string, action: string) returns (r: Option<seq<string>>)
      requires Valid()
      modifies this, net, ts
      ensures Valid() && Cost(if old(uuid) == "" then 2 else 1) && net.log != old(net.log)
      ensures r.None? <==> Unanswered()
      ensures r.Some? ==>
                var last := net.log[|net.log| - 1];
                && last.query == GetResources(uuid, resource) && Constrains(last, resource, action, r.value)
                && last.ended == net.clock && ServerFrom(net.log, clientId, uuid)
      ensures old(uuid) != "" ==> uuid == old(uuid)
      ensures forall i :: |old(net.log)| <= i < |net.log| && net.log[i].AdminExchange? ==>
                || net.log[i].query == GetClients(clientId)
                || (uuid != "" && net.log[i].query == GetResources(uuid, resource))
    {
      hide CallRun, UserFrom, RefsFrom, RefsFor, UsersBacked, RefsBacked, ServerFrom;
      var id := ResourceServerUUID();
      if id.None? {
        return None;
      }
      ghost var before := net.log;
      var query := GetResources(id.value, resource);
      var raw := Do(query);
      LastOf(before, net.log, query, raw);
      if raw.None? || !raw.value.Resources? {
        return None;
      }
      var out := FindRefs(raw.value.resources, resource, action);
      return Some(out);
    }
  }

  method FindClient(clients: seq<ClientRep>, clientId: string) returns (r: Option<string>)
    ensures r == PickClient(clients, clientId)
  {
    for i := 0 to |clients|
      invariant PickClient(clients, clientId) == PickClient(clients[i..], clientId)
    {
      if clients[i].clientId == clientId && clients[i].id != "" {
        return Some(clients[i].id);
      }
    }
    return None;
  }

  lemma ServerNow(log: seq<Exchange>, clientId: string, uuid: string)
    requires log != [] && var x := log[|log| - 1];
             && HasBody(x) && x.query == GetClients(clientId) && BodyOf(x).Clients?
             && PickClient(BodyOf(x).clients, clientId) == Some(uuid)
    ensures ServerFrom(log, clientId, uuid)
  {
    assert NamesServer(log[|log| - 1], clientId, uuid);
  }

  method FindUser(users: seq<User>, username: string) returns (r: Option<string>)
    ensures r == PickUser(users, username)
  {
    for i := 0 to |users|
      invariant PickUser(users, username) == PickUser(users[i..], username)
    {
      if users[i].id != "" && EqualFold(users[i].username, username) {
        return Some(users[i].id);
      }
    }
    return None;
  }

  method FindResource(resources: seq<Resource>, name: string) returns (r: Option<Resource>)
    ensures r == PickResource(resources, name)
  {
    for i := 0 to |resources|
      invariant PickResource(resources, name) == PickResource(resources[i..], name)
    {
      if resources[i].name == name {
        return Some(resources[i]);
      }
    }
    return None;
  }

  /** The refs of the resource with this name; a missing one constrains nothing. */
  method FindRefs(resources: seq<Resource>, name: string, action: string) returns (out: seq<string>)
    ensures out == RefsFor(resources, name, action)
  {
    var found := FindResource(resources, name);
    out := [];
    if found.Some? {
      var attributes := found.value.attributes;
      if "allowed_refs." + action in attributes {
        out := attributes["allowed_refs." + action];
      } else if "allowed_refs" in attributes {
        out := attributes["allowed_refs"];
      }
    }
  }

  lemma RefsNow(log: seq<Exchange>, resource: string, action: string, refs: seq<string>, now: int)
    requires log != [] && Constrains(log[|log| - 1], resource, action, refs) && log[|log| - 1].ended >= now
    ensures RefsFrom(log, RefsKey(resource, action), refs, now)
  {
  }

  datatype Subject = Found(id: string) | NoSubject | Failed

  /** A call's result is read off its last exchange. */
  lemma LastOf(before: seq<Exchange>, after: seq<Exchange>, query: Query, r: Option<Payload>)
    requires before <= after && CallRun(after[|before|..], query, r)
    ensures |before| < |after| <= |before| + 4
    ensures var last := after[|after| - 1];
            && (r.Some? <==> HasBody(last)) && (r.Some? ==> last.query == query && BodyOf(last) == r.value)
    ensures forall i :: |before| <= i < |after| && after[i].AdminExchange? ==> after[i].query == query
  {
    var s := after[|before|..];
    assert forall i :: |before| <= i < |after| ==> after[i] == s[i - |before|];
    assert s[|s| - 1] == after[|after| - 1];
  }

  lemma NobodyNow(log: seq<Exchange>, name: string, since: int)
    requires log != [] && NamesUser(log[|log| - 1], name, None) && log[|log| - 1].began >= since
    ensures NobodyFrom(log, name, since)
  {
  }

  lemma UserNow(log: seq<Exchange>, name: string, user: string, now: int)
    requires log != [] && NamesUser(log[|log| - 1], name, Some(user)) && log[|log| - 1].ended >= now
    ensures UserFrom(log, name, user, now)
  {
  }

  lemma LogGrows(log: seq<Exchange>, done: seq<Exchange>, fetch: seq<Exchange>, x: Exchange)
    ensures var grown := log + done + (fetch + [x]);
            && grown == log + (done + fetch + [x]) && grown[|log|..] == done + fetch + [x]
            && grown[|grown| - 1] == x && log <= grown
  {
  }

  lemma StartRetrying(query: Query, token: string)
    ensures Retrying([], query, 0, token)
  {
  }

  /** The same for a cached permit: under one policy, for a request without NUL
      characters, it is what evaluating from scratch would say. */
  lemma CachedIsReference(log: seq<Exchange>, req: Request, storedAt: int, p: Policy)
    requires PermitBacked(log, DecisionKey(req), storedAt) && NulFreeRequest(req)
    requires forall i :: 0 <= i < |log| ==> Reports(log[i], p)
    ensures Reference(p, req) == Permitted
  {
    hide Supports, Reference, Reports;
    var q, asked :| DecisionKey(q) == DecisionKey(req) && Supports(log, q, Permitted, asked)
                    && asked <= storedAt <= asked + 16 * TIMEOUT;
    DecisionKeyOwned(req);
    ResourceNulFree(req);
    SupportedIsReference(log, req, Permitted, asked, p);
  }

  lemma NobodySupported(log: seq<Exchange>, req: Request, asked: int)
    requires NobodyFrom(log, req.repository, asked)
    ensures Supports(log, req, GrantDenied, asked)
  {
  }

  /** A DENY after the user was named. */
  lemma DenialSupported(log1: seq<Exchange>, log2: seq<Exchange>, req: Request, user: string, asked: int, later: int)
    requires log1 <= log2 && asked <= later
    requires UserFrom(log1, req.repository, user, asked - USER_ID_TTL)
    requires JudgedFrom(log2, user, ResourceName(req), req.action, false, later)
    ensures Supports(log2, req, GrantDenied, asked)
  {
    hide UserFrom;
    UserFromLater(log1, log2, req.repository, user, asked - USER_ID_TTL, asked - USER_ID_TTL);
    assert JudgedFrom(log2, user, ResourceName(req), req.action, false, asked);
  }

  /** A PERMIT after the user was named, and then the refs: each step's evidence
      still stands at the end. */
  lemma RefsSupported(log1: seq<Exchange>, log2: seq<Exchange>, log3: seq<Exchange>, req: Request, user: string,
                      refs: seq<string>, asked: int, second: int, third: int)
    requires log1 <= log2 <= log3 && asked <= second && asked <= third
    requires UserFrom(log1, req.repository, user, asked - USER_ID_TTL)
    requires JudgedFrom(log2, user, ResourceName(req), req.action, true, second)
    requires RefsFrom(log3, RefsKey(ResourceName(req), req.action), refs, third - REFS_TTL)
    ensures Supports(log3, req, if MatchRef(refs, req.ref) == Matched(true) then Permitted else RefDenied, asked)
  {
    var name, key := ResourceName(req), RefsKey(ResourceName(req), req.action);
    assert JudgedFrom(log2, user, name, req.action, true, asked);
    hide UserFrom, JudgedFrom, RefsFrom, MatchRef;
    UserFromLater(log1, log3, req.repository, user, asked - USER_ID_TTL, asked - USER_ID_TTL);
    JudgedFromLater(log2, log3, user, name, req.action, true, asked);
    RefsFromLater(log3, log3, key, refs, third - REFS_TTL, asked - REFS_TTL);
  }

  /** What is asked is asked for this request. */
  predicate Relevant(x: Exchange, clientId: string, uuid: string, req: Request) {
    x.AdminExchange? ==>
      match x.query
      case GetClients(c) => c == clientId
      case GetUsers(username) => username == req.repository
      case Evaluate(u, _, resource, scope) => u == uuid && resource == ResourceName(req) && scope == req.action
      case GetResources(u, resource) => u == uuid && resource == ResourceName(req)
  }

  class Authorizer {
    const client: Client
    const decisions: Cache<bool>

    ghost predicate Valid()
      reads this, client, client.net, client.ts, client.userIDs, client.refs, decisions
    {
      && client.Valid()
      && decisions.net == client.net && decisions.ttl == DECISION_TTL && decisions.staleFor == DECISION_STALE_FOR
      && PermitsBacked(decisions.entries, client.net.log)
    }

    constructor (clientId: string, net: Network)
      ensures Valid() && fresh(client) && fresh(client.ts) && fresh(client.userIDs) && fresh(client.refs)
      ensures fresh(decisions) && client.net == net && decisions.entries == map[]
    {
      var c := new Client(clientId, net);
      client := c;
      decisions := new Cache<bool>(DECISION_TTL, DECISION_STALE_FOR, net);
    }

    /** The decision without the decision cache. There is no verdict exactly when
        the last thing asked of Keycloak went unanswered; otherwise the log now
        supports the verdict, with a judgement from this very call. At most four
        admin calls are made, and nothing is asked but for the repository, the
        resource "namespace/deployment" and the action of the request. */
    method Evaluate(req: Request) returns (r: Option<Verdict>)
      requires client.Valid()
      modifies client, client.net, client.ts, client.userIDs, client.refs
      ensures client.Valid() && client.Cost(4)
      ensures r.None? <==> client.Unanswered()
      ensures r.Some? ==> Supports(client.net.log, req, r.value, old(client.net.clock))
                          && client.net.log != old(client.net.log)
      ensures forall i :: |old(client.net.log)| <= i < |client.net.log| && client.net.log[i].AdminExchange? ==>
                match client.net.log[i].query
                case GetClients(clientId) => clientId == client.clientId
                case GetUsers(username) => username == req.repository
                case Evaluate(uuid, _, resource, scope) =>
                  && uuid == client.uuid && resource == req.namespace + "/" + req.deployment && scope == req.action
                case GetResources(uuid, resource) =>
                  uuid == client.uuid && resource == req.namespace + "/" + req.deployment
    {
      hide CallRun, UsersBacked, RefsBacked, UserFrom, JudgedFrom, RefsFrom, NobodyFrom, Answers, MatchRef, Supports;
      ghost var asked := client.net.clock;
      var user := client.UserID(req.repository);
      match user
      case Failed => return None;
      case NoSubject =>
        NobodySupported(client.net.log, req, asked);
        return Some(GrantDenied);
      case Found(id) =>
        ghost var log1 := client.net.log;
        r := Weigh(req, id, asked);
        assert forall i :: |old(client.net.log)| <= i < |log1| ==> client.net.log[i] == log1[i];
    }

    /** The decision once the user is known: the judgement, then the refs. */
    method Weigh(req: Request, id: string, ghost asked: int) returns (r: Option<Verdict>)
      requires client.Valid() && asked <= client.net.clock
      requires UserFrom(client.net.log, req.repository, id, asked - USER_ID_TTL)
      modifies client, client.net, client.ts, client.refs
      ensures client.Valid() && client.Cost(3)
      ensures r.None? <==> client.Unanswered()
      ensures r.Some? ==> Supports(client.net.log, req, r.value, asked) && client.net.log != old(client.net.log)
      ensures forall i :: |old(client.net.log)| <= i < |client.net.log| ==>
                Relevant(client.net.log[i], client.clientId, client.uuid, req)
    {
      hide CallRun, UsersBacked, RefsBacked, UserFrom, JudgedFrom, RefsFrom, NobodyFrom, Answers, MatchRef, Supports;
      hide ServerFrom, HasBody;
      ghost var log1, second := client.net.log, client.net.clock;
      var granted := client.Evaluate(id, ResourceName(req), req.action);
      if granted.None? {
        return None;
      }
      ghost var log2, third := client.net.log, client.net.clock;
      if !granted.value {
        DenialSupported(log1, log2, req, id, asked, second);
        return Some(GrantDenied);
      }
      var refs := client.AllowedRefs(ResourceName(req), req.action);
      assert forall i :: |log1| <= i < |log2| ==> client.net.log[i] == log2[i];
      if refs.None? {
        return None;
      }
      RefsSupported(log1, log2, client.net.log, req, id, refs.value, asked, second, third);
      return Some(if MatchRef(refs.value, req.ref) == Matched(true) then Permitted else RefDenied);
    }

    /** The whole decision; None is an error, never a denial. A fresh cached
        permit answers at no cost. Otherwise Keycloak is asked: its verdict, with
        the log's support, is the answer, and when it stays unanswered a permit
        up to 330 seconds old is, or else an error. A permit is cached exactly
        when Keycloak has just given it. Never more than four admin calls, 16
        HTTP attempts and 48 seconds. */
    method Authorize(req: Request) returns (r: Option<Verdict>)
      requires Valid()
      modifies client, client.net, client.ts, client.userIDs, client.refs, decisions
      ensures Valid() && client.Cost(4)
      ensures |client.net.log| <= |old(client.net.log)| + 16 && client.net.clock <= old(client.net.clock) + 48 * SECOND
      ensures var key := DecisionKey(req);
              if && key in old(decisions.entries)
                 && old(client.net.clock) - old(decisions.entries)[key].storedAt <= 30 * SECOND then
                && r == Some(Permitted) && client.net.log == old(client.net.log)
                && decisions.entries == old(decisions.entries)
              else if client.Unanswered() then
                && decisions.entries == old(decisions.entries)
                && r == (if && key in decisions.entries
                            && client.net.clock - decisions.entries[key].storedAt <= 330 * SECOND
                         then Some(Permitted) else None)
              else
                && r.Some? && Supports(client.net.log, req, r.value, old(client.net.clock))
                && decisions.entries == if r.value == Permitted
                                        then old(decisions.entries)[key := Entry(true, client.net.clock)]
                                        else old(decisions.entries)
      ensures r == Some(Permitted) ==>
                PermitBacked(client.net.log, DecisionKey(req), decisions.entries[DecisionKey(req)].storedAt)
    {
      hide CallRun, UsersBacked, RefsBacked, Supports, Answers;
      var key := DecisionKey(req);
      ghost var asked := client.net.clock;
      ghost var before := client.net.log;
      var cached := decisions.Get(key);
      if cached.Some? && cached.value {
        return Some(Permitted);
      }
      var verdict := Evaluate(req);
      PermitsLater(decisions.entries, before, client.net.log);
      if verdict.None? {
        cached := decisions.GetStale(key);
        if cached.Some? && cached.value {
          return Some(Permitted);
        }
        return None;
      }
      if verdict.value == Permitted {
        decisions.Put(key, true);
        assert PermitBacked(client.net.log, key, client.net.clock);
      }
      return verdict;
    }
  }
}
