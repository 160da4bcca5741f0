/** The authorizer under concurrency: any number of Authorize calls interleave,
    one cache access or one Keycloak answer at a time, while Keycloak's policy
    changes arbitrarily and Keycloak may fail at any query. `hist` is the policy
    at every moment; `limit` is the longest time one call stays inside
    Authorize. `userAt`, `refsAt`, `why` and `answers` record history; no call
    depends on them. An answer's time is that of the cache access or Keycloak
    answer that decided it; the return to the caller is later, by at most what
    is left of `limit`. */
module AuthRuns {
  import opened Outcomes
  import opened CacheKeys
  import opened RefPattern
  import opened Keycloak

  type History = int -> Policy

  /** When and for what the refs in the cache were answered. */
  datatype RefsMark = RefsMark(resource: string, action: string, seen: int)

  /** What a permit rests on: the user Keycloak named, the PERMIT it gave that
      user, and the ref constraints, each with the moment of the answer; `asked`
      is when the call that gathered this began. */
  datatype Evidence = Evidence(req: Request, asked: int, user: string, userSeen: int, permitSeen: int,
                               refs: seq<string>, mark: RefsMark)

  const NO_EVIDENCE: Evidence :=
    Evidence(CacheKeys.Request("", "", "", "", ""), 0, "", 0, 0, [], RefsMark("", "", 0))

  /** Why a call was denied. */
  datatype Cause =
    | NoSubject(seen: int)
    | Refused(user: string, userSeen: int, seen: int)
    | RefRejected(ev: Evidence)

  datatype Path = Live | Fresh | Stale

  datatype Outcome =
    | Allowed(path: Path, ev: Evidence)
    | Denied(cause: Cause)
    | Unavailable

  datatype Answer = Answer(req: Request, began: int, at: int, outcome: Outcome)

  /** Where a call stands between two of its atomic actions. */
  datatype Pc =
    | CheckDecision
    | CheckUser
    | QueryUser
    | StoreUser(user: string, userSeen: int)
    | QueryGrant(user: string, userSeen: int)
    | CheckRefs(user: string, userSeen: int, permitSeen: int)
    | QueryRefs(user: string, userSeen: int, permitSeen: int)
    | StoreRefs(user: string, userSeen: int, permitSeen: int, refs: seq<string>, seen: int)
    | Judge(ev: Evidence)
    | StorePermit(ev: Evidence)
    | Failing

  datatype Call = Call(req: Request, began: int, pc: Pc)

  datatype Sys = Sys(now: int,
                     users: map<string, Entry<string>>,
                     refs: map<string, Entry<seq<string>>>,
                     decisions: map<string, Entry<bool>>,
                     calls: map<nat, Call>,
                     userAt: map<string, int>,
                     refsAt: map<string, RefsMark>,
                     why: map<string, Evidence>,
                     answers: seq<Answer>)

  predicate Init(s: Sys) {
    && s.users == map[] && s.refs == map[] && s.decisions == map[] && s.calls == map[]
    && s.userAt == map[] && s.refsAt == map[] && s.why == map[] && s.answers == []
  }

  /** `Step(c)` is call c's next action; `Fail(c)` is a Keycloak query of c
      ending in an error, including the resource-server lookup before one. */
  datatype Step =
    | Tick(to: int)
    | Start(c: nat, req: Request)
    | Step(c: nat)
    | Fail(c: nat)

  predicate Enabled(s: Sys, step: Step, limit: int) {
    match step
    case Tick(to) => s.now <= to && forall c :: c in s.calls ==> to <= s.calls[c].began + limit
    case Start(c, _) => c !in s.calls
    case Step(c) => c in s.calls
    case Fail(c) => c in s.calls && (s.calls[c].pc.QueryUser? || s.calls[c].pc.QueryGrant? || s.calls[c].pc.QueryRefs?)
  }

  function Goto(s: Sys, c: nat, pc: Pc): Sys
    requires c in s.calls
  {
    s.(calls := s.calls[c := s.calls[c].(pc := pc)])
  }

  /** The call returns to its caller. */
  function Finish(s: Sys, c: nat, outcome: Outcome): Sys
    requires c in s.calls
  {
    s.(calls := s.calls - {c},
       answers := s.answers + [Answer(s.calls[c].req, s.calls[c].began, s.now, outcome)])
  }

  /** A cached permit, with the evidence it was stored on: every stored permit
      has some (CachesInv below), but whether one is served does not depend on it. */
  function Cached(s: Sys, key: string, maxAge: int): Option<Evidence> {
    if Lookup(s.decisions, key, s.now, maxAge) == Some(true)
    then Some(if key in s.why then s.why[key] else NO_EVIDENCE)
    else None
  }

  function StepCall(hist: History, s: Sys, c: nat): Sys
    requires c in s.calls
  {
    var req := s.calls[c].req;
    var key := DecisionKey(req);
    var name := ResourceName(req);
    var refsKey := RefsKey(name, req.action);
    match s.calls[c].pc
    case CheckDecision =>
      (match Cached(s, key, DECISION_TTL)
       case Some(ev) => Finish(s, c, Allowed(Fresh, ev))
       case None => Goto(s, c, CheckUser))
    case CheckUser =>
      (match Lookup(s.users, req.repository, s.now, USER_ID_TTL)
       case Some(user) =>
         Goto(s, c, QueryGrant(user, if req.repository in s.userAt then s.userAt[req.repository] else s.now))
       case None => Goto(s, c, QueryUser))
    case QueryUser =>
      (match PickUser(hist(s.now).users(req.repository), req.repository)
       case Some(user) => Goto(s, c, StoreUser(user, s.now))
       case None => Finish(s, c, Denied(NoSubject(s.now))))
    case StoreUser(user, seen) =>
      Goto(s.(users := s.users[req.repository := Entry(user, s.now)], userAt := s.userAt[req.repository := seen]),
           c, QueryGrant(user, seen))
    case QueryGrant(user, userSeen) =>
      if hist(s.now).grants(user, name, req.action) then Goto(s, c, CheckRefs(user, userSeen, s.now))
      else Finish(s, c, Denied(Refused(user, userSeen, s.now)))
    case CheckRefs(user, userSeen, permitSeen) =>
      (match Lookup(s.refs, refsKey, s.now, REFS_TTL)
       case Some(refs) =>
         var mark := if refsKey in s.refsAt then s.refsAt[refsKey] else RefsMark(name, req.action, s.now);
         Goto(s, c, Judge(Evidence(req, s.calls[c].began, user, userSeen, permitSeen, refs, mark)))
       case None => Goto(s, c, QueryRefs(user, userSeen, permitSeen)))
    case QueryRefs(user, userSeen, permitSeen) =>
      Goto(s, c, StoreRefs(user, userSeen, permitSeen, RefsFor(hist(s.now).resources(name), name, req.action), s.now))
    case StoreRefs(user, userSeen, permitSeen, refs, seen) =>
      var mark := RefsMark(name, req.action, seen);
      Goto(s.(refs := s.refs[refsKey := Entry(refs, s.now)], refsAt := s.refsAt[refsKey := mark]),
           c, Judge(Evidence(req, s.calls[c].began, user, userSeen, permitSeen, refs, mark)))
    case Judge(ev) =>
      if MatchRef(ev.refs, req.ref) == Matched(true) then Goto(s, c, StorePermit(ev))
      else Finish(s, c, Denied(RefRejected(ev)))
    case StorePermit(ev) =>
      Finish(s.(decisions := s.decisions[key := Entry(true, s.now)], why := s.why[key := ev]), c, Allowed(Live, ev))
    case Failing =>
      (match Cached(s, key, DECISION_TTL + DECISION_STALE_FOR)
       case Some(ev) => Finish(s, c, Allowed(Stale, ev))
       case None => Finish(s, c, Unavailable))
  }

  function Apply(hist: History, s: Sys, step: Step, limit: int): Sys
    requires Enabled(s, step, limit)
  {
    match step
    case Tick(to) => s.(now := to)
    case Start(c, req) => s.(calls := s.calls[c := Call(req, s.now, CheckDecision)])
    case Step(c) => StepCall(hist, s, c)
    case Fail(c) => Goto(s, c, Failing)
  }

  predicate Run(hist: History, limit: int, states: seq<Sys>, steps: seq<Step>) {
    && |states| == |steps| + 1
    && Init(states[0])
    && forall i :: 0 <= i < |steps| ==>
         Enabled(states[i], steps[i], limit) && states[i + 1] == Apply(hist, states[i], steps[i], limit)
  }

  /* ------------------------------------------------------------------ */
  /* What every step keeps                                                */
  /* ------------------------------------------------------------------ */

  /** Keycloak really gave these answers, for a request with this one's keys,
      and together they permit it. */
  predicate Grounded(hist: History, ev: Evidence) {
    && PickUser(hist(ev.userSeen).users(ev.req.repository), ev.req.repository) == Some(ev.user)
    && hist(ev.permitSeen).grants(ev.user, ResourceName(ev.req), ev.req.action)
    && RefsKey(ev.mark.resource, ev.mark.action) == RefsKey(ResourceName(ev.req), ev.req.action)
    && ev.refs == RefsFor(hist(ev.mark.seen).resources(ev.mark.resource), ev.mark.resource, ev.mark.action)
  }

  predicate Permits(hist: History, ev: Evidence) {
    Grounded(hist, ev) && MatchRef(ev.refs, ev.req.ref) == Matched(true)
  }

  /** Evidence as it stands by `now`, gathered by a call of at most this length. */
  predicate Recent(ev: Evidence, now: int, limit: int) {
    && ev.asked <= ev.permitSeen <= now
    && ev.asked - USER_ID_TTL - limit <= ev.userSeen <= now
    && ev.asked - REFS_TTL - limit <= ev.mark.seen <= now
  }

  predicate UserOk(hist: History, user: string, name: string, seen: int) {
    PickUser(hist(seen).users(name), name) == Some(user)
  }

  predicate UsersInv(hist: History, users: map<string, Entry<string>>, at: map<string, int>, now: int, limit: int) {
    forall n :: n in users ==>
      && n in at
      && UserOk(hist, users[n].value, n, at[n])
      && users[n].storedAt - limit <= at[n] <= users[n].storedAt <= now
  }

  predicate RefsInv(hist: History, refs: map<string, Entry<seq<string>>>, at: map<string, RefsMark>,
                    now: int, limit: int) {
    forall k :: k in refs ==>
      && k in at
      && RefsKey(at[k].resource, at[k].action) == k
      && refs[k].value == RefsFor(hist(at[k].seen).resources(at[k].resource), at[k].resource, at[k].action)
      && refs[k].storedAt - limit <= at[k].seen <= refs[k].storedAt <= now
  }

  predicate DecisionsInv(hist: History, decisions: map<string, Entry<bool>>, why: map<string, Evidence>,
                         now: int, limit: int) {
    forall k :: k in decisions ==>
      && k in why
      && decisions[k].value
      && DecisionKey(why[k].req) == k
      && Permits(hist, why[k])
      && decisions[k].storedAt <= now
      && decisions[k].storedAt <= why[k].asked + limit
      && Recent(why[k], decisions[k].storedAt, limit)
  }

  predicate CachesInv(hist: History, s: Sys, limit: int) {
    && UsersInv(hist, s.users, s.userAt, s.now, limit)
    && RefsInv(hist, s.refs, s.refsAt, s.now, limit)
    && DecisionsInv(hist, s.decisions, s.why, s.now, limit)
  }

  predicate CallOk(hist: History, call: Call, now: int, limit: int) {
    && call.began <= now <= call.began + limit
    && var req := call.req;
    var oldUser := call.began - USER_ID_TTL - limit;
    match call.pc
    case CheckDecision => true
    case CheckUser => true
    case QueryUser => true
    case StoreUser(user, seen) => UserOk(hist, user, req.repository, seen) && call.began <= seen <= now
    case QueryGrant(user, seen) => UserOk(hist, user, req.repository, seen) && oldUser <= seen <= now
    case CheckRefs(user, seen, permit) =>
      && UserOk(hist, user, req.repository, seen) && oldUser <= seen <= now
      && call.began <= permit <= now && hist(permit).grants(user, ResourceName(req), req.action)
    case QueryRefs(user, seen, permit) =>
      && UserOk(hist, user, req.repository, seen) && oldUser <= seen <= now
      && call.began <= permit <= now && hist(permit).grants(user, ResourceName(req), req.action)
    case StoreRefs(user, seen, permit, refs, refsSeen) =>
      && UserOk(hist, user, req.repository, seen) && oldUser <= seen <= now
      && call.began <= permit <= now && hist(permit).grants(user, ResourceName(req), req.action)
      && call.began <= refsSeen <= now
      && refs == RefsFor(hist(refsSeen).resources(ResourceName(req)), ResourceName(req), req.action)
    case Judge(ev) => ev.req == req && ev.asked == call.began && Grounded(hist, ev) && Recent(ev, now, limit)
    case StorePermit(ev) => ev.req == req && ev.asked == call.began && Permits(hist, ev) && Recent(ev, now, limit)
    case Failing => true
  }

  predicate CallsInv(hist: History, calls: map<nat, Call>, now: int, limit: int) {
    forall c :: c in calls ==> CallOk(hist, calls[c], now, limit)
  }

  /** The evidence behind a permit answered at `at`: how long ago it was asked
      for, and its ages then. */
  predicate AgesWithin(ev: Evidence, at: int, grace: int, limit: int) {
    at - (DECISION_TTL + grace + limit) <= ev.asked && Recent(ev, at, limit)
  }

  function Grace(path: Path): int {
    if path == Stale then DECISION_STALE_FOR else 0
  }

  predicate AnswerOk(hist: History, ans: Answer, limit: int) {
    && ans.began <= ans.at <= ans.began + limit
    && match ans.outcome
       case Allowed(path, ev) =>
         && DecisionKey(ev.req) == DecisionKey(ans.req)
         && Permits(hist, ev)
         && AgesWithin(ev, ans.at, Grace(path), limit)
       case Denied(NoSubject(seen)) =>
         ans.began <= seen <= ans.at && PickUser(hist(seen).users(ans.req.repository), ans.req.repository) == None
       case Denied(Refused(user, userSeen, seen)) =>
         && ans.began <= seen <= ans.at
         && !hist(seen).grants(user, ResourceName(ans.req), ans.req.action)
         && UserOk(hist, user, ans.req.repository, userSeen)
         && ans.began - USER_ID_TTL - limit <= userSeen <= ans.at
       case Denied(RefRejected(ev)) =>
         && ev.req == ans.req
         && Grounded(hist, ev)
         && MatchRef(ev.refs, ans.req.ref) != Matched(true)
         && ev.asked == ans.began
         && Recent(ev, ans.at, limit)
       case Unavailable => true
  }

  predicate AnswersInv(hist: History, answers: seq<Answer>, limit: int) {
    forall k :: 0 <= k < |answers| ==> AnswerOk(hist, answers[k], limit)
  }

  predicate Inv(hist: History, s: Sys, limit: int) {
    && CachesInv(hist, s, limit)
    && CallsInv(hist, s.calls, s.now, limit)
    && AnswersInv(hist, s.answers, limit)
  }

  lemma GotoInv(hist: History, s: Sys, c: nat, pc: Pc, limit: int)
    requires Inv(hist, s, limit) && c in s.calls
    requires CallOk(hist, s.calls[c].(pc := pc), s.now, limit)
    ensures Inv(hist, Goto(s, c, pc), limit)
  {
    hide CallOk, AnswersInv, UsersInv, RefsInv, DecisionsInv;
  }

  lemma FinishInv(hist: History, s: Sys, c: nat, outcome: Outcome, limit: int)
    requires Inv(hist, s, limit) && c in s.calls
    requires AnswerOk(hist, Answer(s.calls[c].req, s.calls[c].began, s.now, outcome), limit)
    ensures Inv(hist, Finish(s, c, outcome), limit)
  {
    hide CallOk, AnswerOk, UsersInv, RefsInv, DecisionsInv;
  }

  lemma CallNow(hist: History, s: Sys, c: nat, limit: int)
    requires Inv(hist, s, limit) && c in s.calls
    ensures CallOk(hist, s.calls[c], s.now, limit)
  {
    hide CallOk, CachesInv, AnswersInv;
  }

  /** A cached permit's evidence, aged by the time it has spent in the cache. */
  lemma CachedOk(hist: History, s: Sys, key: string, maxAge: int, limit: int)
    requires CachesInv(hist, s, limit) && Cached(s, key, maxAge).Some?
    ensures var ev := Cached(s, key, maxAge).value;
            && DecisionKey(ev.req) == key && Permits(hist, ev)
            && AgesWithin(ev, s.now, maxAge - DECISION_TTL, limit)
  {
    hide UsersInv, RefsInv, Permits;
  }

  lemma CheckDecisionInv(hist: History, s: Sys, c: nat, limit: int)
    requires Inv(hist, s, limit) && c in s.calls && s.calls[c].pc.CheckDecision?
    ensures Inv(hist, StepCall(hist, s, c), limit)
  {
    hide UsersInv, RefsInv, DecisionsInv, CallsInv, AnswersInv, Permits, AgesWithin;
    var key := DecisionKey(s.calls[c].req);
    CallNow(hist, s, c, limit);
    if Cached(s, key, DECISION_TTL).Some? {
      CachedOk(hist, s, key, DECISION_TTL, limit);
      FinishInv(hist, s, c, Allowed(Fresh, Cached(s, key, DECISION_TTL).value), limit);
    } else {
      GotoInv(hist, s, c, CheckUser, limit);
    }
  }

  lemma FailingInv(hist: History, s: Sys, c: nat, limit: int)
    requires Inv(hist, s, limit) && c in s.calls && s.calls[c].pc.Failing?
    ensures Inv(hist, StepCall(hist, s, c), limit)
  {
    hide UsersInv, RefsInv, DecisionsInv, CallsInv, AnswersInv, Permits, AgesWithin;
    var key := DecisionKey(s.calls[c].req);
    CallNow(hist, s, c, limit);
    if Cached(s, key, DECISION_TTL + DECISION_STALE_FOR).Some? {
      CachedOk(hist, s, key, DECISION_TTL + DECISION_STALE_FOR, limit);
      FinishInv(hist, s, c, Allowed(Stale, Cached(s, key, DECISION_TTL + DECISION_STALE_FOR).value), limit);
    } else {
      FinishInv(hist, s, c, Unavailable, limit);
    }
  }

  lemma UserHit(hist: History, s: Sys, name: string, limit: int)
    requires CachesInv(hist, s, limit) && Lookup(s.users, name, s.now, USER_ID_TTL).Some?
    ensures name in s.userAt && UserOk(hist, s.users[name].value, name, s.userAt[name])
    ensures s.now - USER_ID_TTL - limit <= s.userAt[name] <= s.now
  {
    hide RefsInv, DecisionsInv, UserOk;
  }

  lemma RefsHit(hist: History, s: Sys, key: string, limit: int)
    requires CachesInv(hist, s, limit) && Lookup(s.refs, key, s.now, REFS_TTL).Some?
    ensures key in s.refsAt && RefsKey(s.refsAt[key].resource, s.refsAt[key].action) == key
    ensures var m := s.refsAt[key];
            s.refs[key].value == RefsFor(hist(m.seen).resources(m.resource), m.resource, m.action)
    ensures s.now - REFS_TTL - limit <= s.refsAt[key].seen <= s.now
  {
    hide UsersInv, DecisionsInv;
  }

  lemma CheckInv(hist: History, s: Sys, c: nat, limit: int)
    requires Inv(hist, s, limit) && c in s.calls && (s.calls[c].pc.CheckUser? || s.calls[c].pc.CheckRefs?)
    ensures Inv(hist, StepCall(hist, s, c), limit)
  {
    hide UsersInv, RefsInv, DecisionsInv, CallsInv, AnswersInv, UserOk, RefsKey;
    CallNow(hist, s, c, limit);
    var req := s.calls[c].req;
    if s.calls[c].pc.CheckUser? {
      if Lookup(s.users, req.repository, s.now, USER_ID_TTL).Some? {
        UserHit(hist, s, req.repository, limit);
        GotoInv(hist, s, c, QueryGrant(s.users[req.repository].value, s.userAt[req.repository]), limit);
      } else {
        GotoInv(hist, s, c, QueryUser, limit);
      }
    } else {
      var pc := s.calls[c].pc;
      var key := RefsKey(ResourceName(req), req.action);
      if Lookup(s.refs, key, s.now, REFS_TTL).Some? {
        RefsHit(hist, s, key, limit);
        var ev := Evidence(req, s.calls[c].began, pc.user, pc.userSeen, pc.permitSeen, s.refs[key].value,
                           s.refsAt[key]);
        assert Grounded(hist, ev) by { UserMeans(hist, ev); }
        GotoInv(hist, s, c, Judge(ev), limit);
      } else {
        GotoInv(hist, s, c, QueryRefs(pc.user, pc.userSeen, pc.permitSeen), limit);
      }
    }
  }

  lemma UserMeans(hist: History, ev: Evidence)
    requires UserOk(hist, ev.user, ev.req.repository, ev.userSeen)
    ensures PickUser(hist(ev.userSeen).users(ev.req.repository), ev.req.repository) == Some(ev.user)
  {
  }

  lemma QueryInv(hist: History, s: Sys, c: nat, limit: int)
    requires Inv(hist, s, limit) && c in s.calls
    requires s.calls[c].pc.QueryUser? || s.calls[c].pc.QueryGrant? || s.calls[c].pc.QueryRefs?
    ensures Inv(hist, StepCall(hist, s, c), limit)
  {
    hide CachesInv, CallsInv, AnswersInv, RefsFor;
    CallNow(hist, s, c, limit);
    var req := s.calls[c].req;
    match s.calls[c].pc
    case QueryUser =>
      var r := PickUser(hist(s.now).users(req.repository), req.repository);
      if r.Some? {
        GotoInv(hist, s, c, StoreUser(r.value, s.now), limit);
      } else {
        FinishInv(hist, s, c, Denied(NoSubject(s.now)), limit);
      }
    case QueryGrant(user, userSeen) =>
      if hist(s.now).grants(user, ResourceName(req), req.action) {
        GotoInv(hist, s, c, CheckRefs(user, userSeen, s.now), limit);
      } else {
        FinishInv(hist, s, c, Denied(Refused(user, userSeen, s.now)), limit);
      }
    case QueryRefs(user, userSeen, permitSeen) =>
      var refs := RefsFor(hist(s.now).resources(ResourceName(req)), ResourceName(req), req.action);
      GotoInv(hist, s, c, StoreRefs(user, userSeen, permitSeen, refs, s.now), limit);
  }

  /** userIDs.Put: the stored time is the time of the Put, up to `limit` after
      Keycloak's answer. */
  lemma StoreUserInv(hist: History, s: Sys, c: nat, limit: int)
    requires Inv(hist, s, limit) && c in s.calls && s.calls[c].pc.StoreUser?
    ensures Inv(hist, StepCall(hist, s, c), limit)
  {
    hide RefsInv, DecisionsInv, CallsInv, AnswersInv, UserOk;
    CallNow(hist, s, c, limit);
    var name, pc := s.calls[c].req.repository, s.calls[c].pc;
    var t := s.(users := s.users[name := Entry(pc.user, s.now)], userAt := s.userAt[name := pc.userSeen]);
    assert UsersInv(hist, t.users, t.userAt, t.now, limit);
    GotoInv(hist, t, c, QueryGrant(pc.user, pc.userSeen), limit);
  }

  lemma StoreRefsInv(hist: History, s: Sys, c: nat, limit: int)
    requires Inv(hist, s, limit) && c in s.calls && s.calls[c].pc.StoreRefs?
    ensures Inv(hist, StepCall(hist, s, c), limit)
  {
    hide UsersInv, DecisionsInv, CallsInv, AnswersInv, RefsKey, RefsFor;
    CallNow(hist, s, c, limit);
    var req, pc := s.calls[c].req, s.calls[c].pc;
    var key := RefsKey(ResourceName(req), req.action);
    var mark := RefsMark(ResourceName(req), req.action, pc.seen);
    var t := s.(refs := s.refs[key := Entry(pc.refs, s.now)], refsAt := s.refsAt[key := mark]);
    assert RefsInv(hist, t.refs, t.refsAt, t.now, limit);
    var ev := Evidence(req, s.calls[c].began, pc.user, pc.userSeen, pc.permitSeen, pc.refs, mark);
    GotoInv(hist, t, c, Judge(ev), limit);
  }

  lemma JudgeInv(hist: History, s: Sys, c: nat, limit: int)
    requires Inv(hist, s, limit) && c in s.calls && s.calls[c].pc.Judge?
    ensures Inv(hist, StepCall(hist, s, c), limit)
  {
    hide CachesInv, CallsInv, AnswersInv, Grounded, MatchRef;
    CallNow(hist, s, c, limit);
    var ev := s.calls[c].pc.ev;
    if MatchRef(ev.refs, s.calls[c].req.ref) == Matched(true) {
      GotoInv(hist, s, c, StorePermit(ev), limit);
    } else {
      FinishInv(hist, s, c, Denied(RefRejected(ev)), limit);
    }
  }

  lemma StorePermitInv(hist: History, s: Sys, c: nat, limit: int)
    requires Inv(hist, s, limit) && c in s.calls && s.calls[c].pc.StorePermit?
    ensures Inv(hist, StepCall(hist, s, c), limit)
  {
    hide UsersInv, RefsInv, CallsInv, AnswersInv, Permits, DecisionKey;
    CallNow(hist, s, c, limit);
    var req, ev := s.calls[c].req, s.calls[c].pc.ev;
    var key := DecisionKey(req);
    var t := s.(decisions := s.decisions[key := Entry(true, s.now)], why := s.why[key := ev]);
    assert DecisionsInv(hist, t.decisions, t.why, t.now, limit);
    assert AgesWithin(ev, s.now, 0, limit);
    FinishInv(hist, t, c, Allowed(Live, ev), limit);
  }

  lemma TickInv(hist: History, s: Sys, to: int, limit: int)
    requires Inv(hist, s, limit) && Enabled(s, Tick(to), limit)
    ensures Inv(hist, s.(now := to), limit)
  {
    hide AnswersInv, UserOk, Permits, Grounded;
    forall c | c in s.calls
      ensures CallOk(hist, s.calls[c], to, limit)
    {
      assert CallOk(hist, s.calls[c], s.now, limit);
    }
  }

  lemma StartInv(hist: History, s: Sys, c: nat, req: CacheKeys.Request, limit: int)
    requires Inv(hist, s, limit) && limit >= 0
    ensures Inv(hist, s.(calls := s.calls[c := Call(req, s.now, CheckDecision)]), limit)
  {
    hide CachesInv, AnswersInv;
    var t := s.(calls := s.calls[c := Call(req, s.now, CheckDecision)]);
    forall d | d in t.calls
      ensures CallOk(hist, t.calls[d], t.now, limit)
    {
      assert d != c ==> CallOk(hist, s.calls[d], s.now, limit);
    }
    CachesSame(hist, s, t, limit);
  }

  lemma CachesSame(hist: History, s: Sys, t: Sys, limit: int)
    requires CachesInv(hist, s, limit) && t == s.(calls := t.calls)
    ensures CachesInv(hist, t, limit)
  {
    hide UsersInv, RefsInv, DecisionsInv;
  }

  lemma StepInv(hist: History, s: Sys, step: Step, limit: int)
    requires Inv(hist, s, limit) && Enabled(s, step, limit) && limit >= 0
    ensures Inv(hist, Apply(hist, s, step, limit), limit)
  {
    hide Inv, StepCall;
    match step
    case Tick(to) => TickInv(hist, s, to, limit);
    case Start(c, req) => StartInv(hist, s, c, req, limit);
    case Fail(c) =>
      CallNow(hist, s, c, limit);
      GotoInv(hist, s, c, Failing, limit);
    case Step(c) =>
      match s.calls[c].pc
      case CheckDecision => CheckDecisionInv(hist, s, c, limit);
      case CheckUser => CheckInv(hist, s, c, limit);
      case QueryUser => QueryInv(hist, s, c, limit);
      case StoreUser(_, _) => StoreUserInv(hist, s, c, limit);
      case QueryGrant(_, _) => QueryInv(hist, s, c, limit);
      case CheckRefs(_, _, _) => CheckInv(hist, s, c, limit);
      case QueryRefs(_, _, _) => QueryInv(hist, s, c, limit);
      case StoreRefs(_, _, _, _, _) => StoreRefsInv(hist, s, c, limit);
      case Judge(_) => JudgeInv(hist, s, c, limit);
      case StorePermit(_) => StorePermitInv(hist, s, c, limit);
      case Failing => FailingInv(hist, s, c, limit);
  }

  lemma {:induction false} RunInv(hist: History, limit: int, states: seq<Sys>, steps: seq<Step>, i: nat)
    requires Run(hist, limit, states, steps) && limit >= 0 && i < |states|
    ensures Inv(hist, states[i], limit)
  {
    hide Enabled, Apply;
    if i > 0 {
      RunInv(hist, limit, states, steps, i - 1);
      StepInv(hist, states[i - 1], steps[i - 1], limit);
    }
  }

  /* ------------------------------------------------------------------ */
  /* What callers may rely on                                             */
  /* ------------------------------------------------------------------ */

  /** Every Allowed answer of every run, with any policy changes and outages,
      rests on answers Keycloak really gave: a PERMIT at most 30s old (330s when
      served stale), ref constraints at most 60s old (360s) and a user mapping
      at most 630s old (930s), plus one or two times the longest call. For a
      NUL-free request the evidence is for that very request. */
  lemma PermitsRestOnRecentEvidence(hist: History, limit: int, states: seq<Sys>, steps: seq<Step>, i: nat, k: nat)
    requires Run(hist, limit, states, steps) && limit >= 0 && i < |states| && k < |states[i].answers|
    requires states[i].answers[k].outcome.Allowed?
    ensures var ans := states[i].answers[k];
            var ev := ans.outcome.ev;
            var grace := if ans.outcome.path == Stale then 300 * SECOND else 0;
            && PickUser(hist(ev.userSeen).users(ev.req.repository), ev.req.repository) == Some(ev.user)
            && hist(ev.permitSeen).grants(ev.user, ResourceName(ev.req), ev.req.action)
            && MatchRef(RefsFor(hist(ev.mark.seen).resources(ev.mark.resource), ev.mark.resource, ev.mark.action),
                        ev.req.ref) == Matched(true)
            && ans.at - (30 * SECOND + grace + limit) <= ev.permitSeen <= ans.at
            && ans.at - (60 * SECOND + grace + 2 * limit) <= ev.mark.seen <= ans.at
            && ans.at - (630 * SECOND + grace + 2 * limit) <= ev.userSeen <= ans.at
    ensures NulFreeRequest(states[i].answers[k].req) ==>
              var ev := states[i].answers[k].outcome.ev;
              && ev.req == states[i].answers[k].req
              && ev.mark.resource == ResourceName(ev.req) && ev.mark.action == ev.req.action
  {
    hide Run, CachesInv, CallsInv;
    RunInv(hist, limit, states, steps, i);
    var ans := states[i].answers[k];
    assert AnswerOk(hist, ans, limit);
    if NulFreeRequest(ans.req) {
      DecisionKeyOwned(ans.req);
      ResourceNulFree(ans.req);
      RefsKeyOwned(ResourceName(ans.req), ans.req.action);
    }
  }

  /** When the call that decided also fetched the refs, the documented 30s
      (330s stale) does hold for them, plus the longest call. */
  lemma FetchedRefsAreYounger(hist: History, limit: int, states: seq<Sys>, steps: seq<Step>, i: nat, k: nat)
    requires Run(hist, limit, states, steps) && limit >= 0 && i < |states| && k < |states[i].answers|
    requires states[i].answers[k].outcome.Allowed?
    requires states[i].answers[k].outcome.ev.asked <= states[i].answers[k].outcome.ev.mark.seen
    ensures var ans := states[i].answers[k];
            var grace := if ans.outcome.path == Stale then 300 * SECOND else 0;
            ans.at - (30 * SECOND + grace + limit) <= ans.outcome.ev.mark.seen <= ans.at
  {
    hide Run, CachesInv, CallsInv;
    RunInv(hist, limit, states, steps, i);
    assert AnswerOk(hist, states[i].answers[k], limit);
  }

  /** No denial comes from an error or from the decision cache. Each rests on a
      no-subject answer for the request's repository, or a DENY for the user
      Keycloak named for it, given during that very call; or on the request's own
      ref constraints, which do not admit the ref and are at most 30s plus one
      call older than the call, after a PERMIT given during it. */
  lemma DenialsRestOnLiveAnswers(hist: History, limit: int, states: seq<Sys>, steps: seq<Step>, i: nat, k: nat)
    requires Run(hist, limit, states, steps) && limit >= 0 && i < |states| && k < |states[i].answers|
    requires states[i].answers[k].outcome.Denied?
    ensures var ans := states[i].answers[k];
            var repository := ans.req.repository;
            match ans.outcome.cause
            case NoSubject(seen) =>
              && ans.began <= seen <= ans.at
              && PickUser(hist(seen).users(repository), repository) == None
            case Refused(user, userSeen, seen) =>
              && ans.began <= seen <= ans.at
              && !hist(seen).grants(user, ResourceName(ans.req), ans.req.action)
              && PickUser(hist(userSeen).users(repository), repository) == Some(user)
              && ans.began - (600 * SECOND + limit) <= userSeen <= ans.at
            case RefRejected(ev) =>
              && ev.req == ans.req
              && ans.began <= ev.permitSeen <= ans.at
              && hist(ev.permitSeen).grants(ev.user, ResourceName(ans.req), ans.req.action)
              && PickUser(hist(ev.userSeen).users(repository), repository) == Some(ev.user)
              && ans.began - (600 * SECOND + limit) <= ev.userSeen <= ans.at
              && ans.began - (30 * SECOND + limit) <= ev.mark.seen <= ans.at
              && RefsKey(ev.mark.resource, ev.mark.action) == RefsKey(ResourceName(ans.req), ans.req.action)
              && ev.refs == RefsFor(hist(ev.mark.seen).resources(ev.mark.resource), ev.mark.resource, ev.mark.action)
              && MatchRef(ev.refs, ans.req.ref) != Matched(true)
    ensures var ans := states[i].answers[k];
            NulFreeRequest(ans.req) && ans.outcome.cause.RefRejected? ==>
              var mark := ans.outcome.cause.ev.mark;
              mark.resource == ResourceName(ans.req) && mark.action == ans.req.action
  {
    hide Run, CachesInv, CallsInv, MatchRef, RefsFor, PickUser, RefsKey;
    RunInv(hist, limit, states, steps, i);
    var ans := states[i].answers[k];
    assert AnswerOk(hist, ans, limit);
    if NulFreeRequest(ans.req) {
      ResourceNulFree(ans.req);
      RefsKeyOwned(ResourceName(ans.req), ans.req.action);
    }
  }

  /* An error comes from a failed query of the same call. */

  /** Call c failed at step j and has not moved since. */
  predicate FailedAt(states: seq<Sys>, steps: seq<Step>, c: nat, j: nat, i: nat)
    requires |states| == |steps| + 1 && i < |states|
  {
    && j < i && steps[j] == Fail(c)
    && c in states[i].calls
    && forall x :: j < x <= i ==> c in states[x].calls && states[x].calls[c] == states[i].calls[c]
  }

  /** A call's own step either moves it on, not to failure, or answers it. */
  predicate Advances(s: Sys, t: Sys, c: nat)
    requires c in s.calls
  {
    if t.answers == s.answers then
      c in t.calls && t.calls == s.calls[c := t.calls[c]] && !t.calls[c].pc.Failing?
    else
      && t.calls == s.calls - {c} && |t.answers| == |s.answers| + 1 && s.answers <= t.answers
      && var ans := t.answers[|s.answers|];
      && ans.req == s.calls[c].req && ans.began == s.calls[c].began
      && (ans.outcome == Unavailable ==> s.calls[c].pc.Failing?)
  }

  lemma GotoAdvances(s: Sys, t: Sys, c: nat, pc: Pc)
    requires c in s.calls && t.calls == s.calls && t.answers == s.answers && !pc.Failing?
    ensures Advances(s, Goto(t, c, pc), c)
  {
  }

  lemma FinishAdvances(s: Sys, t: Sys, c: nat, outcome: Outcome)
    requires c in s.calls && t.calls == s.calls && t.answers == s.answers
    requires outcome == Unavailable ==> s.calls[c].pc.Failing?
    ensures Advances(s, Finish(t, c, outcome), c)
  {
  }

  lemma StepAdvances(hist: History, s: Sys, c: nat)
    requires c in s.calls
    ensures Advances(s, StepCall(hist, s, c), c)
  {
    hide Advances, Goto, Finish, Lookup, Cached, DecisionKey, RefsKey, ResourceName, PickUser, RefsFor, MatchRef;
    forall t: Sys, pc: Pc | t.calls == s.calls && t.answers == s.answers && !pc.Failing?
      ensures Advances(s, Goto(t, c, pc), c)
    {
      GotoAdvances(s, t, c, pc);
    }
    forall t: Sys, outcome: Outcome |
      t.calls == s.calls && t.answers == s.answers && (outcome == Unavailable ==> s.calls[c].pc.Failing?)
      ensures Advances(s, Finish(t, c, outcome), c)
    {
      FinishAdvances(s, t, c, outcome);
    }
  }

  lemma FailingStays(hist: History, limit: int, s: Sys, step: Step, c: nat)
    requires Enabled(s, step, limit)
    requires var t := Apply(hist, s, step, limit); c in t.calls && t.calls[c].pc.Failing?
    ensures step == Fail(c) || (c in s.calls && s.calls[c] == Apply(hist, s, step, limit).calls[c])
  {
    hide StepCall;
    if step.Step? {
      StepAdvances(hist, s, step.c);
    }
  }

  lemma {:induction false} FailingFailed(hist: History, limit: int, states: seq<Sys>, steps: seq<Step>, i: nat, c: nat)
      returns (j: nat)
    requires Run(hist, limit, states, steps) && i < |states|
    requires c in states[i].calls && states[i].calls[c].pc.Failing?
    ensures FailedAt(states, steps, c, j, i)
  {
    hide Enabled, Apply;
    if i == 0 {
      assert false;
    }
    assert Enabled(states[i - 1], steps[i - 1], limit) && states[i] == Apply(hist, states[i - 1], steps[i - 1], limit);
    FailingStays(hist, limit, states[i - 1], steps[i - 1], c);
    if steps[i - 1] == Fail(c) {
      j := i - 1;
    } else {
      j := FailingFailed(hist, limit, states, steps, i - 1, c);
    }
  }

  /** Which step gave the last answer, and whose it is. */
  lemma AnswerStep(hist: History, limit: int, s: Sys, step: Step)
    requires Enabled(s, step, limit)
    ensures var t := Apply(hist, s, step, limit);
            || t.answers == s.answers
            || (&& step.Step? && step.c in s.calls && |t.answers| == |s.answers| + 1 && s.answers <= t.answers
                && var ans := t.answers[|s.answers|];
                && ans.req == s.calls[step.c].req && ans.began == s.calls[step.c].began
                && (ans.outcome == Unavailable ==> s.calls[step.c].pc.Failing?))
  {
    hide StepCall;
    if step.Step? {
      StepAdvances(hist, s, step.c);
    }
  }

  /** The answer number k was given at step l to call c, whose query had failed
      at step j. */
  predicate ErrorOf(states: seq<Sys>, steps: seq<Step>, ans: Answer, k: nat, c: nat, j: nat, l: nat)
    requires |states| == |steps| + 1
  {
    && l < |steps| && FailedAt(states, steps, c, j, l) && steps[l] == Step(c) && |states[l].answers| == k
    && states[l].calls[c].req == ans.req && states[l].calls[c].began == ans.began
  }

  /** An error is never made up: a query of that very call had failed. */
  lemma {:induction false} ErrorsRestOnFailures(hist: History, limit: int, states: seq<Sys>, steps: seq<Step>, i: nat,
                                                k: nat)
      returns (c: nat, j: nat, l: nat)
    requires Run(hist, limit, states, steps) && i < |states| && k < |states[i].answers|
    requires states[i].answers[k].outcome == Unavailable
    ensures l < i && ErrorOf(states, steps, states[i].answers[k], k, c, j, l)
  {
    hide Enabled, Apply, FailedAt;
    if i == 0 {
      assert false;
    }
    assert Enabled(states[i - 1], steps[i - 1], limit) && states[i] == Apply(hist, states[i - 1], steps[i - 1], limit);
    AnswerStep(hist, limit, states[i - 1], steps[i - 1]);
    if k < |states[i - 1].answers| {
      c, j, l := ErrorsRestOnFailures(hist, limit, states, steps, i - 1, k);
    } else {
      c, l := steps[i - 1].c, i - 1;
      j := FailingFailed(hist, limit, states, steps, l, c);
    }
  }

  function VerdictOf(outcome: Outcome): Verdict
    requires !outcome.Unavailable?
  {
    match outcome
    case Allowed(_, _) => Permitted
    case Denied(RefRejected(_)) => RefDenied
    case Denied(_) => GrantDenied
  }

  /** Cache transparency: while the policy does not change, a run of any length
      answers every NUL-free request exactly as evaluating it from scratch would,
      except that a call one of whose queries failed may go unanswered; so a run
      without failures answers them all. */
  lemma CachesAreTransparent(hist: History, limit: int, states: seq<Sys>, steps: seq<Step>, i: nat, k: nat,
                             policy: Policy)
    requires Run(hist, limit, states, steps) && limit >= 0 && i < |states| && k < |states[i].answers|
    requires forall t :: hist(t) == policy
    requires NulFreeRequest(states[i].answers[k].req)
    ensures var ans := states[i].answers[k];
            if ans.outcome.Unavailable?
            then exists c: nat, j: nat, l: nat :: l < i && ErrorOf(states, steps, ans, k, c, j, l)
            else VerdictOf(ans.outcome) == Reference(policy, ans.req)
    ensures (forall x :: 0 <= x < i ==> !steps[x].Fail?) ==>
              var ans := states[i].answers[k];
              !ans.outcome.Unavailable? && VerdictOf(ans.outcome) == Reference(policy, ans.req)
  {
    var ans := states[i].answers[k];
    if ans.outcome.Unavailable? {
      var c, j, l := ErrorsRestOnFailures(hist, limit, states, steps, i, k);
      assert steps[j].Fail?;
    } else {
      hide Run, CachesInv, CallsInv;
      RunInv(hist, limit, states, steps, i);
      assert AnswerOk(hist, ans, limit);
      TransparentAnswer(hist, ans, limit, policy);
    }
  }

  lemma TransparentAnswer(hist: History, ans: Answer, limit: int, policy: Policy)
    requires AnswerOk(hist, ans, limit) && !ans.outcome.Unavailable?
    requires forall t :: hist(t) == policy
    requires NulFreeRequest(ans.req)
    ensures VerdictOf(ans.outcome) == Reference(policy, ans.req)
  {
    hide RefsKey, DecisionKey, PickUser, RefsFor, MatchRef, ResourceName;
    DecisionKeyOwned(ans.req);
    ResourceNulFree(ans.req);
    RefsKeyOwned(ResourceName(ans.req), ans.req.action);
  }
}
