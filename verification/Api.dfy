/** internal/api: the handlers, as the order of decision, row, patch and
    response. A malformed body is None; the router's recovery middleware turns a
    panic into 500. */
module Api {
  import opened Outcomes
  import opened Timestamps
  import opened Operations
  import opened Rollout
  import opened Interference
  import opened World
  import opened ManagerSpec
  import opened OperationManager
  import CacheKeys

  const ACCEPTED := 202
  const BAD_REQUEST := 400
  const FORBIDDEN := 403
  const NOT_FOUND := 404
  const PANICKED := 500
  const BAD_GATEWAY := 502
  const UNAVAILABLE := 503

  datatype Body = Body(namespace: string, deployment: string, container: string, image: string)

  function Question(id: Identity, ref: string, action: string, b: Body): CacheKeys.Request {
    CacheKeys.Request(id.repository, action, b.namespace, b.deployment, ref)
  }

  /** The audit row of a denial. */
  function DeniedRow(opId: string, id: Identity, action: string, b: Body, reason: string, now: Time): Operation {
    NewRow(opId, id, action, b.namespace, b.deployment, b.container, b.image, now, Status.Denied, "DENIED", reason,
           ["DENIED"])
  }

  lemma DeniedRowHas(opId: string, id: Identity, action: string, b: Body, reason: string, now: Time)
    ensures var op := DeniedRow(opId, id, action, b, reason, now); op.operationId == opId && op.requestedAt == now
  {
  }

  /** What authorize leaves behind: the decision; after a denial, at most the
      denied row and a 403; after an error, a 503 and no row. */
  ghost predicate AuthorizeEnds(before: seq<Effect>, after: seq<Effect>, opId: string, id: Identity, ref: string,
                                action: string, b: Body, answer: Authorization)
  {
    var decided := before + [DecidedFx(Question(id, ref, action, b), answer)];
    match answer
    case Allowed => after == decided
    case Unavailable => after == decided + [RespondFx(UNAVAILABLE)]
    case Denied(reason) =>
      || after == decided + [RespondFx(FORBIDDEN)]
      || exists now :: after == decided + [PutFx(DeniedRow(opId, id, action, b, reason, now)), RespondFx(FORBIDDEN)]
  }

  lemma Granted(before: seq<Effect>, opId: string, id: Identity, ref: string, action: string, b: Body)
    ensures AuthorizeEnds(before, before + [DecidedFx(Question(id, ref, action, b), Allowed)], opId, id, ref, action, b,
                          Allowed)
  {
  }

  lemma Unanswered(before: seq<Effect>, opId: string, id: Identity, ref: string, action: string, b: Body)
    ensures AuthorizeEnds(before,
                          before + [DecidedFx(Question(id, ref, action, b), Unavailable)] + [RespondFx(UNAVAILABLE)],
                          opId, id, ref, action, b, Unavailable)
  {
  }

  lemma Refused(before: seq<Effect>, after: seq<Effect>, opId: string, id: Identity, ref: string, action: string,
                b: Body, reason: string, now: Time, stored: bool)
    requires after == before + [DecidedFx(Question(id, ref, action, b), Authorization.Denied(reason))]
                             + (if stored then [PutFx(DeniedRow(opId, id, action, b, reason, now))] else [])
                             + [RespondFx(FORBIDDEN)]
    ensures AuthorizeEnds(before, after, opId, id, ref, action, b, Authorization.Denied(reason))
  {
    hide DeniedRow, Question;
    var decided := before + [DecidedFx(Question(id, ref, action, b), Authorization.Denied(reason))];
    if stored {
      assert after == decided + [PutFx(DeniedRow(opId, id, action, b, reason, now)), RespondFx(FORBIDDEN)];
    } else {
      assert after == decided + [RespondFx(FORBIDDEN)];
    }
  }

  /** The response that reports how a start ended. */
  function StartCode(result: string, err: StartError): int {
    match err
    case NoError => ACCEPTED
    case Ambiguous => BAD_REQUEST
    case Panicked => PANICKED
    case StartFailed => if result == "" then UNAVAILABLE else BAD_GATEWAY
  }

  /** Every patch in the trace is backed: an Allowed decision came first, for the
      very action and target that is patched, then a running row for the same
      repository, action and target, and what is set is what that row says. */
  ghost predicate WriteAhead(trace: seq<Effect>) {
    forall i :: 0 <= i < |trace| && trace[i].PatchFx? ==> exists d, p :: Backs(trace, d, p, i)
  }

  predicate Backs(trace: seq<Effect>, d: int, p: int, i: int) {
    && 0 <= d < p < i < |trace|
    && trace[d].DecidedFx? && trace[d].answer == Allowed
    && trace[i].PatchFx? && trace[i].action == trace[d].req.action
    && trace[i].namespace == trace[d].req.namespace && trace[i].deployment == trace[d].req.deployment
    && trace[p].PutFx? && trace[p].op.status == Running
    && var row := trace[p].op.details;
    && row.id.repository == trace[d].req.repository && row.action == trace[d].req.action
    && row.namespace == trace[d].req.namespace && row.deployment == trace[d].req.deployment
    && trace[i].container == row.container && trace[i].image == row.image
  }

  predicate NoPatch(effects: seq<Effect>) {
    forall i :: 0 <= i < |effects| ==> !effects[i].PatchFx?
  }

  lemma WriteAheadMore(trace: seq<Effect>, more: seq<Effect>)
    requires WriteAhead(trace) && NoPatch(more)
    ensures WriteAhead(trace + more)
  {
    var t := trace + more;
    forall i | 0 <= i < |t| && t[i].PatchFx?
      ensures exists d, p :: Backs(t, d, p, i)
    {
      assert t[i] == trace[i];
      var d, p :| Backs(trace, d, p, i);
      assert Backs(t, d, p, i);
    }
  }

  /** After a permit, a row it covers, and patches that carry out that row only. */
  lemma RowKeepsWriteAhead(trace: seq<Effect>, req: CacheKeys.Request, tail: seq<Effect>, op: Operation)
    requires WriteAhead(trace) && Asks(req, op) && op.status == Running
    requires tail != [] && tail[0] == PutFx(op)
    requires forall i :: 0 <= i < |tail| && tail[i].PatchFx? ==> tail[i] == PatchOf(op)
    ensures WriteAhead(trace + [DecidedFx(req, Allowed)] + tail)
  {
    var after := trace + [DecidedFx(req, Allowed)] + tail;
    forall i | 0 <= i < |after| && after[i].PatchFx?
      ensures exists d, p :: Backs(after, d, p, i)
    {
      if i < |trace| {
        assert after[i] == trace[i];
        var d, p :| Backs(trace, d, p, i);
        assert Backs(after, d, p, i);
      } else {
        assert after[i] == tail[i - |trace| - 1];
        assert Backs(after, |trace|, |trace| + 1, i);
      }
    }
  }

  /** A start whose row matches the decision just made keeps every patch backed. */
  lemma StartKeepsWriteAhead(trace: seq<Effect>, req: CacheKeys.Request, after: seq<Effect>, op: Operation,
                             result: string, err: StartError)
    requires WriteAhead(trace) && Asks(req, op) && op.status == Running
    requires StartEnds(trace + [DecidedFx(req, Allowed)], after, op, result, err)
    ensures WriteAhead(after)
  {
    hide WriteAhead;
    var decided := trace + [DecidedFx(req, Allowed)];
    if err == NoError {
      RowKeepsWriteAhead(trace, req, [PutFx(op), PatchOf(op), StartedFx(op)], op);
    } else if after == decided {
      WriteAheadMore(trace, [DecidedFx(req, Allowed)]);
    } else if PatchFailed(decided, after, op, true) {
      FailedKeepsWriteAhead(trace, req, after, op, true);
    } else {
      FailedKeepsWriteAhead(trace, req, after, op, false);
    }
  }

  lemma FailedKeepsWriteAhead(trace: seq<Effect>, req: CacheKeys.Request, after: seq<Effect>, op: Operation,
                              landed: bool)
    requires WriteAhead(trace) && (landed ==> Asks(req, op) && op.status == Running)
    requires PatchFailed(trace + [DecidedFx(req, Allowed)], after, op, landed)
    ensures WriteAhead(after)
  {
    var decided := trace + [DecidedFx(req, Allowed)];
    var upd, won :| after == decided + FailedStart(op, landed, upd, won);
    if landed {
      RowKeepsWriteAhead(trace, req, FailedStart(op, landed, upd, won), op);
    } else {
      WriteAheadMore(trace, [DecidedFx(req, Allowed)]);
      WriteAheadMore(decided, FailedStart(op, landed, upd, won));
    }
  }

  /** What the code of a start tells its caller: 202 exactly when row, patch and
      announcement all went through, 503 exactly when nothing was done, 502
      exactly when the row was written and its patch reported as failed. So a
      202 means that the patch landed, but a landed patch can also answer 502:
      exactly when the report of failure was wrong. */
  lemma CodeTells(before: seq<Effect>, after: seq<Effect>, op: Operation, result: string, err: StartError)
    requires StartEnds(before, after, op, result, err) && op.operationId != ""
    ensures before <= after
    ensures StartCode(result, err) == 202 <==>
            after == before + [PutFx(op), PatchFx(op.details.action, op.details.namespace, op.details.deployment,
                                                  op.details.container, op.details.image), StartedFx(op)]
    ensures StartCode(result, err) == 503 <==> after == before
    ensures StartCode(result, err) == 502 <==>
            PatchFailed(before, after, op, false) || PatchFailed(before, after, op, true)
    ensures (exists i :: |before| <= i < |after| && after[i].PatchFx?) <==>
            StartCode(result, err) == 202 || PatchFailed(before, after, op, true)
  {
    if PatchFailed(before, after, op, false) {
      FailureShape(before, after, op, false);
    }
    if PatchFailed(before, after, op, true) {
      FailureShape(before, after, op, true);
    }
    if err == NoError {
      assert after[|before| + 1] == PatchOf(op);
      assert after[|after| - 1] == StartedFx(op);
    }
    assert forall i :: |before| <= i < |after| ==> after[|before|..][i - |before|] == after[i];
  }

  lemma FailureShape(before: seq<Effect>, after: seq<Effect>, op: Operation, landed: bool)
    requires PatchFailed(before, after, op, landed)
    ensures before <= after && |after| >= |before| + 2 && (landed <==> !NoPatch(after[|before|..]))
    ensures !after[|after| - 1].StartedFx?
  {
    var upd, won :| after == before + FailedStart(op, landed, upd, won);
    assert after[|before|..] == FailedStart(op, landed, upd, won);
    if landed {
      assert after[|before|..][1] == PatchOf(op);
    }
  }

  /** The same by field. */
  lemma AuthorizeMeans(before: seq<Effect>, after: seq<Effect>, opId: string, id: Identity, ref: string,
                       action: string, b: Body, answer: Authorization)
    requires AuthorizeEnds(before, after, opId, id, ref, action, b, answer)
    ensures var t0 := |before|;
            && before < after
            && after[t0] == DecidedFx(CacheKeys.Request(id.repository, action, b.namespace, b.deployment, ref), answer)
            && (answer == Allowed ==> |after| == t0 + 1)
            && (answer == Unavailable ==> |after| == t0 + 2 && after[t0 + 1] == RespondFx(503))
            && (answer.Denied? ==> t0 + 2 <= |after| <= t0 + 3 && after[|after| - 1] == RespondFx(403))
            && forall i :: t0 < i < |after| && !after[i].RespondFx? ==>
                 && answer.Denied? && i == t0 + 1 && after[i].PutFx?
                 && var op := after[i].op;
                 && op.operationId == opId && op.status == Status.Denied && op.errorCode == "DENIED"
                 && op.errorMessage == answer.reason && op.completedAt == None
                 && op.details == Details(id, action, b.namespace, b.deployment, b.container, b.image,
                                          b.namespace + "#" + b.deployment, ExpiresAt(op.requestedAt))
                 && op.events == [AuditEvent("DENIED", op.requestedAt)]
  {
    hide ExpiresAt;
  }

  /** A restart that was allowed, by field. */
  lemma RestartMeans(before: seq<Effect>, mid: seq<Effect>, opId: string, id: Identity, ref: string, b: Body,
                     op: Operation, result: string, err: StartError)
    requires op == StartedRow(opId, id, ACTION_RESTART, b.namespace, b.deployment, "", "", op.requestedAt)
    requires StartEnds(before + [DecidedFx(Question(id, ref, ACTION_RESTART, b), Allowed)], mid, op, result, err)
    ensures before < mid && (err == NoError || err == StartFailed)
    ensures mid[|before|]
            == DecidedFx(CacheKeys.Request(id.repository, "deployment.restart", b.namespace, b.deployment, ref),
                         Allowed)
    ensures op.operationId == opId && op.status == Running
    ensures op.details == Details(id, "deployment.restart", b.namespace, b.deployment, "", "",
                                  b.namespace + "#" + b.deployment, op.details.expiresAt)
    ensures forall i :: |before| <= i < |mid| && mid[i].PutFx? ==> i == |before| + 1 && mid[i].op == op
    ensures forall i :: |before| <= i < |mid| && mid[i].PatchFx? ==>
              i == |before| + 2 && mid[i] == PatchFx("deployment.restart", b.namespace, b.deployment, "", "")
  {
    hide StartEnds, ExpiresAt;
    var decision := DecidedFx(Question(id, ref, ACTION_RESTART, b), Allowed);
    StartEffects(before + [decision], mid, op, result, err);
    assert mid[|before|] == (before + [decision])[|before|];
  }

  /** A rollout that was allowed, by field. */
  lemma RolledMeans(before: seq<Effect>, mid: seq<Effect>, opId: string, id: Identity, ref: string, b: Body,
                    read: Option<Deployment>, op: Operation, result: string, err: StartError)
    requires RolloutEnds(before + [DecidedFx(Question(id, ref, ACTION_ROLLOUT, b), Allowed)], mid, opId, id,
                         b.namespace, b.deployment, b.container, b.image, read, op, result, err)
    ensures before < mid
    ensures mid[|before|]
            == DecidedFx(CacheKeys.Request(id.repository, "deployment.rollout", b.namespace, b.deployment, ref),
                         Allowed)
    ensures forall i :: |before| <= i < |mid| && mid[i].PutFx? ==>
              && i == |before| + 1 && mid[i].op == op && op.operationId == opId && op.status == Running
              && var d := op.details;
              && d.id.repository == id.repository && d.action == "deployment.rollout"
              && d.namespace == b.namespace && d.deployment == b.deployment && d.image == b.image
    ensures forall i :: |before| <= i < |mid| && mid[i].PatchFx? ==>
              && i == |before| + 2
              && mid[i] == PatchFx("deployment.rollout", b.namespace, b.deployment, mid[i].container, b.image)
              && mid[i].container != ""
              && (if b.container != "" then mid[i].container == b.container
                  else read.Some? && read.value.containers == [mid[i].container])
  {
    hide RolloutEnds, ExpiresAt;
    var decided := before + [DecidedFx(Question(id, ref, ACTION_ROLLOUT, b), Allowed)];
    RolloutMeans(decided, mid, opId, id, b.namespace, b.deployment, b.container, b.image, read, op, result, err);
    assert mid[|before|] == decided[|before|];
  }

  class Gateway {
    const ops: Manager
    const env: Environment := ops.env

    constructor (ops: Manager)
      ensures this.ops == ops
    {
      this.ops := ops;
    }

    /** The three outcomes. The question is put for the caller's own repository and
        ref. On anything but Allowed the response is written: 503 and nothing else
        when there was no answer, 403 on a denial, after one row, which is a
        denied one for what was asked, unless its write failed. */
    method Authorize(opId: string, id: Identity, ref: string, action: string, b: Body)
        returns (answer: Authorization)
      requires Keyed(env.rows)
      requires opId in env.reserved && opId !in env.rows
      modifies env`clock, env`rows, env`ctxDone, env`failures, env`reserved, env`trace
      ensures env.reserved <= old(env.reserved) && env.Passed() && env.seen == old(env.seen)
      ensures !answer.Denied? ==> env.reserved == old(env.reserved) && opId !in env.rows
      ensures AuthorizeEnds(old(env.trace), env.trace, opId, id, ref, action, b, answer)
      ensures answer.Denied? && |env.trace| == |old(env.trace)| + 2 ==> env.failures[opId] > old(env.failures)[opId]
      ensures var t0 := |old(env.trace)|;
              && old(env.trace) < env.trace
              && env.trace[t0] == DecidedFx(CacheKeys.Request(id.repository, action, b.namespace, b.deployment, ref),
                                            answer)
              && (answer == Allowed ==> |env.trace| == t0 + 1)
              && (answer == Unavailable ==> |env.trace| == t0 + 2 && env.trace[t0 + 1] == RespondFx(503))
              && (answer.Denied? ==> t0 + 2 <= |env.trace| <= t0 + 3 && env.trace[|env.trace| - 1] == RespondFx(403))
              && forall i :: t0 < i < |env.trace| && !env.trace[i].RespondFx? ==>
                   && answer.Denied? && i == t0 + 1 && env.trace[i].PutFx?
                   && var op := env.trace[i].op;
                   && op.operationId == opId && op.status == Status.Denied && op.errorCode == "DENIED"
                   && op.errorMessage == answer.reason && op.completedAt == None
                   && op.details == Details(id, action, b.namespace, b.deployment, b.container, b.image,
                                            b.namespace + "#" + b.deployment, ExpiresAt(op.requestedAt))
                   && op.events == [AuditEvent("DENIED", op.requestedAt)] && env.ReadSince(op.requestedAt)
    {
      answer := Ask(opId, id, ref, action, b);
      AuthorizeMeans(old(env.trace), env.trace, opId, id, ref, action, b, answer);
    }

    /** Authorize, with what it did in one predicate. */
    method Ask(opId: string, id: Identity, ref: string, action: string, b: Body) returns (answer: Authorization)
      requires Keyed(env.rows)
      requires opId in env.reserved && opId !in env.rows
      modifies env`clock, env`rows, env`ctxDone, env`failures, env`reserved, env`trace
      ensures env.reserved <= old(env.reserved) && env.Passed() && env.seen == old(env.seen)
      ensures !answer.Denied? ==> env.reserved == old(env.reserved) && opId !in env.rows
      ensures AuthorizeEnds(old(env.trace), env.trace, opId, id, ref, action, b, answer)
      ensures answer.Denied? && |env.trace| == |old(env.trace)| + 2 ==> env.failures[opId] > old(env.failures)[opId]
      ensures |env.trace| > |old(env.trace)| + 1 && env.trace[|old(env.trace)| + 1].PutFx? ==>
                env.ReadSince(env.trace[|old(env.trace)| + 1].op.requestedAt)
    {
      hide ExpiresAt, DeniedRow, Interferes, Question, AuthorizeEnds;
      ghost var m := env.rows;
      answer := env.Decide(Question(id, ref, action, b));
      InterferesRefl(m, env.reserved);
      StillFree(m, env.rows, env.reserved, opId);
      match answer
      case Allowed =>
        Granted(old(env.trace), opId, id, ref, action, b);
      case Unavailable =>
        env.Emit(RespondFx(UNAVAILABLE));
        Unanswered(old(env.trace), opId, id, ref, action, b);
      case Denied(reason) =>
        ghost var n := env.rows;
        ghost var n0 := env.Now();
        var ok := RecordDenied(opId, id, action, b, reason);
        DeniedRowHas(opId, id, action, b, reason, n0);
        InterferesLess(m, n, old(env.reserved), env.reserved);
        InterferesTransitive(m, n, env.rows, env.reserved);
        env.Emit(RespondFx(FORBIDDEN));
        Refused(old(env.trace), env.trace, opId, id, ref, action, b, reason, n0, ok);
    }

    /** The audit row of a denial. */
    method RecordDenied(opId: string, id: Identity, action: string, b: Body, reason: string) returns (ok: bool)
      requires Keyed(env.rows) && opId in env.reserved && opId !in env.rows
      modifies env`clock, env`rows, env`ctxDone, env`failures, env`reserved, env`trace
      ensures env.reserved == old(env.reserved) - {opId} && env.Passed()
      ensures env.trace == old(env.trace)
                           + if ok then [PutFx(DeniedRow(opId, id, action, b, reason, old(env.Now())))] else []
      ensures !ok ==> env.failures[opId] > old(env.failures)[opId]
    {
      hide DeniedRow, Interferes;
      var row := DeniedRow(opId, id, action, b, reason, env.Now());
      DeniedRowHas(opId, id, action, b, reason, env.Now());
      ok := env.Put(row);
    }

    /** POST /v1/deployments/restart. */
    method HandleRestart(opId: string, id: Identity, ref: string, body: Option<Body>)
        returns (ghost answer: Option<Authorization>, ghost mid: seq<Effect>, ghost op: Operation,
                 ghost result: string, ghost err: StartError)
      requires Keyed(env.rows)
      requires opId in env.reserved && opId !in env.rows
      modifies env`clock, env`rows, env`ctxDone, env`failures, env`reserved, env`trace, env`kube
      ensures env.Passed()
      ensures answer.None? <==> body.None? || body.value.namespace == "" || body.value.deployment == ""
      ensures answer.None? ==> env.trace == old(env.trace) + [RespondFx(BAD_REQUEST)]
      ensures answer.Some? && answer.value != Allowed ==>
                AuthorizeEnds(old(env.trace), env.trace, opId, id, ref, ACTION_RESTART, Plain(body.value), answer.value)
      ensures answer == Some(Allowed) ==>
                && op == StartedRow(opId, id, ACTION_RESTART, body.value.namespace, body.value.deployment, "", "",
                                    op.requestedAt)
                && StartEnds(old(env.trace)
                             + [DecidedFx(Question(id, ref, ACTION_RESTART, Plain(body.value)), Allowed)],
                             mid, op, result, err)
                && env.trace == mid + [RespondFx(StartCode(result, err))]
      ensures old(env.trace) < env.trace
      ensures answer.Some? ==>
                env.trace[|old(env.trace)|]
                == DecidedFx(CacheKeys.Request(id.repository, "deployment.restart", body.value.namespace,
                                               body.value.deployment, ref), answer.value)
      ensures forall i :: |old(env.trace)| <= i < |env.trace| && env.trace[i].PutFx? ==>
                && answer.Some? && i == |old(env.trace)| + 1 && env.trace[i].op.operationId == opId
                && env.trace[i].op.status == (if answer.value == Allowed then Running else Status.Denied)
                && env.trace[i].op.details
                   == Details(id, "deployment.restart", body.value.namespace, body.value.deployment, "", "",
                              body.value.namespace + "#" + body.value.deployment, env.trace[i].op.details.expiresAt)
      ensures forall i :: |old(env.trace)| <= i < |env.trace| && env.trace[i].PatchFx? ==>
                && answer == Some(Allowed) && i == |old(env.trace)| + 2
                && env.trace[i] == PatchFx("deployment.restart", body.value.namespace, body.value.deployment, "", "")
      ensures env.trace[|env.trace| - 1]
              == RespondFx(match answer
                           case None => 400
                           case Some(Unavailable) => 503
                           case Some(Denied(_)) => 403
                           case Some(Allowed) => if err == NoError then 202 else if result == "" then 503 else 502)
      ensures WriteAhead(old(env.trace)) ==> WriteAhead(env.trace)
    {
      hide StartEnds, AuthorizeEnds, ExpiresAt, WriteAhead, Interferes;
      answer, mid, op, result, err := ServeRestart(opId, id, ref, body);
      if answer.Some? {
        if answer.value == Allowed {
          RestartMeans(old(env.trace), mid, opId, id, ref, Plain(body.value), op, result, err);
        } else {
          AuthorizeMeans(old(env.trace), env.trace, opId, id, ref, ACTION_RESTART, Plain(body.value), answer.value);
        }
      }
    }

    /** The restart handler, with what it did in few predicates. */
    method ServeRestart(opId: string, id: Identity, ref: string, body: Option<Body>)
        returns (ghost answer: Option<Authorization>, ghost mid: seq<Effect>, ghost op: Operation,
                 ghost result: string, ghost err: StartError)
      requires Keyed(env.rows)
      requires opId in env.reserved && opId !in env.rows
      modifies env`clock, env`rows, env`ctxDone, env`failures, env`reserved, env`trace, env`kube
      ensures env.Passed()
      ensures answer.None? <==> body.None? || body.value.namespace == "" || body.value.deployment == ""
      ensures answer.None? ==> env.trace == old(env.trace) + [RespondFx(BAD_REQUEST)]
      ensures answer.Some? && answer.value != Allowed ==>
                AuthorizeEnds(old(env.trace), env.trace, opId, id, ref, ACTION_RESTART, Plain(body.value), answer.value)
      ensures answer == Some(Allowed) ==>
                && op == StartedRow(opId, id, ACTION_RESTART, body.value.namespace, body.value.deployment, "", "",
                                    op.requestedAt)
                && StartEnds(old(env.trace)
                             + [DecidedFx(Question(id, ref, ACTION_RESTART, Plain(body.value)), Allowed)],
                             mid, op, result, err)
                && env.trace == mid + [RespondFx(StartCode(result, err))]
      ensures WriteAhead(old(env.trace)) ==> WriteAhead(env.trace)
    {
      hide ExpiresAt, WriteAhead, StartCode, StartEnds;
      answer, mid := None, env.trace;
      result, err := "", NoError;
      ghost var m := env.rows;
      op := StartedRow(opId, id, ACTION_RESTART, "", "", "", "", env.Now());
      InterferesRefl(m, env.reserved);
      if body.None? || body.value.namespace == "" || body.value.deployment == "" {
        env.Emit(RespondFx(BAD_REQUEST));
        RespondKeepsWriteAhead(old(env.trace), BAD_REQUEST);
        return;
      }
      var b := Plain(body.value);
      var a := Authorize(opId, id, ref, ACTION_RESTART, b);
      answer := Some(a);
      if a != Allowed {
        RefusalKeepsWriteAhead(old(env.trace), env.trace, opId, id, ref, ACTION_RESTART, b, a);
        return;
      }
      ghost var n := env.rows;
      var r, e, row := ops.Restart(opId, id, b.namespace, b.deployment);
      InterferesLess(m, n, old(env.reserved), env.reserved);
      InterferesTransitive(m, n, env.rows, env.reserved);
      mid, op, result, err := env.trace, row, r, e;
      env.Emit(RespondFx(StartCode(r, e)));
      if WriteAhead(old(env.trace)) {
        StartKeepsWriteAhead(old(env.trace), Question(id, ref, ACTION_RESTART, b), mid, op, result, err);
        RespondKeepsWriteAhead(mid, StartCode(r, e));
      }
    }

    /** POST /v1/deployments/rollout. */
    method HandleRollout(opId: string, id: Identity, ref: string, body: Option<Body>)
        returns (ghost answer: Option<Authorization>, ghost mid: seq<Effect>, ghost op: Operation,
                 ghost result: string, ghost err: StartError, ghost read: Option<Deployment>)
      requires Keyed(env.rows)
      requires opId in env.reserved && opId !in env.rows
      modifies env`clock, env`rows, env`ctxDone, env`failures, env`reserved, env`trace, env`seen, env`kube
      ensures env.Passed()
      ensures answer.None? <==> || body.None? || body.value.namespace == "" || body.value.deployment == ""
                                || body.value.image == ""
      ensures answer.None? ==> env.trace == old(env.trace) + [RespondFx(BAD_REQUEST)]
      ensures answer.Some? && answer.value != Allowed ==>
                AuthorizeEnds(old(env.trace), env.trace, opId, id, ref, ACTION_ROLLOUT, body.value, answer.value)
      ensures answer == Some(Allowed) ==>
                var b := body.value;
                && RolloutEnds(old(env.trace) + [DecidedFx(Question(id, ref, ACTION_ROLLOUT, b), Allowed)],
                               mid, opId, id, b.namespace, b.deployment, b.container, b.image,
                               read, op, result, err)
                && ReadOnly(old(env.seen), env.seen, b.namespace, b.deployment, read)
                && env.trace == mid + [RespondFx(StartCode(result, err))]
      ensures old(env.trace) < env.trace
      ensures answer.Some? ==>
                env.trace[|old(env.trace)|]
                == DecidedFx(CacheKeys.Request(id.repository, "deployment.rollout", body.value.namespace,
                                               body.value.deployment, ref), answer.value)
      ensures forall i :: |old(env.trace)| <= i < |env.trace| && env.trace[i].PutFx? ==>
                && answer.Some? && i == |old(env.trace)| + 1 && env.trace[i].op.operationId == opId
                && env.trace[i].op.status == (if answer.value == Allowed then Running else Status.Denied)
                && var d := env.trace[i].op.details;
                && d.id.repository == id.repository && d.action == "deployment.rollout"
                && d.namespace == body.value.namespace && d.deployment == body.value.deployment
                && d.image == body.value.image
      ensures forall i :: |old(env.trace)| <= i < |env.trace| && env.trace[i].PatchFx? ==>
                && answer == Some(Allowed) && i == |old(env.trace)| + 2
                && env.trace[i] == PatchFx("deployment.rollout", body.value.namespace, body.value.deployment,
                                           env.trace[i].container, body.value.image)
                && env.trace[i].container != ""
                && (if body.value.container != "" then env.trace[i].container == body.value.container
                    else read.Some? && read.value.containers == [env.trace[i].container])
      ensures env.trace[|env.trace| - 1]
              == RespondFx(match answer
                           case None => 400
                           case Some(Unavailable) => 503
                           case Some(Denied(_)) => 403
                           case Some(Allowed) =>
                             if err == NoError then 202
                             else if err == Ambiguous then 400
                             else if err == Panicked then 500
                             else if result == "" then 503 else 502)
      ensures WriteAhead(old(env.trace)) ==> WriteAhead(env.trace)
    {
      hide RolloutEnds, AuthorizeEnds, ExpiresAt, WriteAhead, Interferes, ReadOnly;
      answer, mid, op, result, err, read := ServeRollout(opId, id, ref, body);
      if answer.Some? {
        if answer.value == Allowed {
          RolledMeans(old(env.trace), mid, opId, id, ref, body.value, read, op, result, err);
        } else {
          AuthorizeMeans(old(env.trace), env.trace, opId, id, ref, ACTION_ROLLOUT, body.value, answer.value);
        }
      }
    }

    /** The rollout handler, with what it did in few predicates. */
    method ServeRollout(opId: string, id: Identity, ref: string, body: Option<Body>)
        returns (ghost answer: Option<Authorization>, ghost mid: seq<Effect>, ghost op: Operation,
                 ghost result: string, ghost err: StartError, ghost read: Option<Deployment>)
      requires Keyed(env.rows)
      requires opId in env.reserved && opId !in env.rows
      modifies env`clock, env`rows, env`ctxDone, env`failures, env`reserved, env`trace, env`seen, env`kube
      ensures env.Passed()
      ensures answer.None? <==> || body.None? || body.value.namespace == "" || body.value.deployment == ""
                                || body.value.image == ""
      ensures answer.None? ==> env.trace == old(env.trace) + [RespondFx(BAD_REQUEST)]
      ensures answer.Some? && answer.value != Allowed ==>
                AuthorizeEnds(old(env.trace), env.trace, opId, id, ref, ACTION_ROLLOUT, body.value, answer.value)
      ensures answer == Some(Allowed) ==>
                var b := body.value;
                && RolloutEnds(old(env.trace) + [DecidedFx(Question(id, ref, ACTION_ROLLOUT, b), Allowed)],
                               mid, opId, id, b.namespace, b.deployment, b.container, b.image,
                               read, op, result, err)
                && ReadOnly(old(env.seen), env.seen, b.namespace, b.deployment, read)
                && env.trace == mid + [RespondFx(StartCode(result, err))]
      ensures WriteAhead(old(env.trace)) ==> WriteAhead(env.trace)
    {
      hide ExpiresAt, WriteAhead, StartCode, RolloutEnds;
      answer, mid, read := None, env.trace, None;
      result, err := "", NoError;
      ghost var m := env.rows;
      op := StartedRow(opId, id, ACTION_ROLLOUT, "", "", "", "", env.Now());
      InterferesRefl(m, env.reserved);
      if body.None? || body.value.namespace == "" || body.value.deployment == "" || body.value.image == "" {
        env.Emit(RespondFx(BAD_REQUEST));
        RespondKeepsWriteAhead(old(env.trace), BAD_REQUEST);
        return;
      }
      var b := body.value;
      var a := Authorize(opId, id, ref, ACTION_ROLLOUT, b);
      answer := Some(a);
      if a != Allowed {
        RefusalKeepsWriteAhead(old(env.trace), env.trace, opId, id, ref, ACTION_ROLLOUT, b, a);
        return;
      }
      ghost var n := env.rows;
      var r, e, row, seen, got := ops.Rollout(opId, id, b.namespace, b.deployment, b.container, b.image);
      InterferesLess(m, n, old(env.reserved), env.reserved);
      InterferesTransitive(m, n, env.rows, env.reserved);
      mid, op, result, err, read := env.trace, row, r, e, seen;
      env.Emit(RespondFx(StartCode(r, e)));
      if WriteAhead(old(env.trace)) {
        RolloutKeepsWriteAhead(old(env.trace), opId, id, ref, b, mid, read, op, result, err);
        RespondKeepsWriteAhead(mid, StartCode(r, e));
      }
    }

    /** GET /v1/operations/{operation_id}: 404 only when the store says so, and a
        row that was there before the call is never reported missing unless a
        request for it failed. It starts nothing. */
    method HandleGetOperation(opId: string) returns (ghost r: Result<Operation>)
      requires Keyed(env.rows)
      modifies env`clock, env`rows, env`ctxDone, env`failures, env`trace, env`seen, env`kube, env`finds
      ensures env.Passed()
      ensures old(env.trace) < env.trace
      ensures env.trace[|env.trace| - 1]
              == RespondFx(match r case Ok(_) => 200 case Err(NotFound) => 404 case Err(_) => 503)
      ensures opId in old(env.rows) && env.failures[opId] == old(env.failures)[opId] ==> r.Ok?
      ensures r.Ok? ==> opId in env.rows && r.value.operationId == opId && RowEvolves(r.value, env.rows[opId])
      ensures forall i :: |old(env.trace)| <= i < |env.trace| ==> !env.trace[i].PutFx? && !env.trace[i].PatchFx?
    {
      hide Attempted, EvaluateRollout, RowEvolves, Nanos, Settled, Interferes;
      var answer, found, at, verdict, result := ops.Get(opId);
      r := answer;
      if verdict.Some? {
        AttemptStarts(old(env.trace), env.trace, env.rows, found.value, None, verdict.value);
      }
      env.Emit(RespondFx(GetCode(answer)));
    }
  }

  function GetCode(r: Result<Operation>): int {
    match r
    case Ok(_) => 200
    case Err(e) => if e == NotFound then NOT_FOUND else UNAVAILABLE
  }

  lemma RolloutKeepsWriteAhead(trace: seq<Effect>, opId: string, id: Identity, ref: string, b: Body,
                               after: seq<Effect>, read: Option<Deployment>, op: Operation, result: string,
                               err: StartError)
    requires WriteAhead(trace)
    requires RolloutEnds(trace + [DecidedFx(Question(id, ref, ACTION_ROLLOUT, b), Allowed)], after, opId, id,
                         b.namespace, b.deployment, b.container, b.image, read, op, result, err)
    ensures WriteAhead(after)
  {
    hide WriteAhead, PatchFailed;
    var decision := DecidedFx(Question(id, ref, ACTION_ROLLOUT, b), Allowed);
    WriteAheadMore(trace, [decision]);
    if after != trace + [decision] {
      if op.details.container == "" {
        FailedKeepsWriteAhead(trace, decision.req, after, op, false);
      } else {
        StartKeepsWriteAhead(trace, decision.req, after, op, result, err);
      }
    }
  }

  /** A restart's body has no container and no image. */
  function Plain(b: Body): Body { b.(container := "", image := "") }

  lemma RespondKeepsWriteAhead(trace: seq<Effect>, code: int)
    ensures WriteAhead(trace) ==> WriteAhead(trace + [RespondFx(code)])
  {
    if WriteAhead(trace) {
      WriteAheadMore(trace, [RespondFx(code)]);
    }
  }

  lemma RefusalKeepsWriteAhead(before: seq<Effect>, after: seq<Effect>, opId: string, id: Identity, ref: string,
                               action: string, b: Body, answer: Authorization)
    requires AuthorizeEnds(before, after, opId, id, ref, action, b, answer)
    ensures WriteAhead(before) ==> WriteAhead(after)
  {
    if WriteAhead(before) {
      assert before <= after && NoPatch(after[|before|..]);
      WriteAheadMore(before, after[|before|..]);
      assert before + after[|before|..] == after;
    }
  }
}
