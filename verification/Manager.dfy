/** internal/operation: the actors that create operations and resolve them. */
module OperationManager {
  import opened Outcomes
  import opened Timestamps
  import opened Operations
  import opened Rollout
  import Dynamo
  import opened Interference
  import opened StoreSpec
  import opened World
  import opened ManagerSpec

  class Manager {
    const env: Environment
    const defaultDeadline: int

    constructor (env: Environment, defaultDeadline: int)
      ensures this.env == env
      ensures this.defaultDeadline == (if defaultDeadline <= 0 then 600 * SECOND else defaultDeadline)
    {
      this.env := env;
      this.defaultDeadline := if defaultDeadline <= 0 then 600 * SECOND else defaultDeadline;
    }

    /** The store's UpdateTerminal: find the row's key, then write conditionally. */
    method UpdateTerminal(op: Operation, upd: TerminalUpdate) returns (won: bool)
      requires Follows(op, env.rows) && IsResolution(upd.status)
      modifies env`clock, env`rows, env`ctxDone, env`failures
      ensures env.Passed()
      ensures won ==> env.rows[op.operationId] ==
                      op.(status := upd.status, errorCode := upd.errorCode, errorMessage := upd.errorMessage,
                          completedAt := Some(upd.completedAt),
                          events := op.events + [AuditEvent(upd.event, upd.completedAt)])
      ensures Settled(op.operationId, old(env.failures), env.failures, env.schema, env.rows)
    {
      hide Interferes, TableEvolves, RowEvolves;
      ghost var m := env.rows;
      var r := env.UpdateTerminal(op.operationId, upd);
      InterferesRefl(m, env.reserved);
      FollowsThrough(op, m, m, env.rows, env.reserved);
      if r.Ok? {
        ghost var met :| Dynamo.Resolves(m, env.rows, op.operationId, met, upd);
        FollowsMet(op, m, met);
      }
      return r.Ok?;
    }

    /** One terminal write, announced exactly if it won: what is announced is the
        stored row, with the events the caller's copy had. */
    method ResolveOperation(op: Operation, msg: Option<nat>, upd: TerminalUpdate)
      requires Follows(op, env.rows) && IsResolution(upd.status)
      modifies env`clock, env`rows, env`ctxDone, env`failures, env`trace
      ensures env.Passed()
      ensures || env.trace == old(env.trace) + [TerminalFx(op.operationId, upd, false)]
              || (&& env.trace == old(env.trace)
                                  + [TerminalFx(op.operationId, upd, true),
                                     ResolvedFx(env.rows[op.operationId].(events := op.events), msg)]
                  && env.rows[op.operationId] ==
                     op.(status := upd.status, errorCode := upd.errorCode, errorMessage := upd.errorMessage,
                         completedAt := Some(upd.completedAt),
                         events := op.events + [AuditEvent(upd.event, upd.completedAt)]))
      ensures Attempted(old(env.trace), env.trace, env.rows, op, msg, upd)
      ensures Settled(op.operationId, old(env.failures), env.failures, env.schema, env.rows)
    {
      var won := UpdateTerminal(op, upd);
      env.Emit(TerminalFx(op.operationId, upd, won));
      if !won {
        return;
      }
      env.Emit(ResolvedFx(ApplyTerminal(op, upd), msg));
      assert env.trace == old(env.trace) + Attempt(op, msg, upd, true);
    }

    method CompleteOperation(op: Operation, msg: Option<nat>) returns (ghost upd: TerminalUpdate)
      requires Follows(op, env.rows)
      modifies env`clock, env`rows, env`ctxDone, env`failures, env`trace
      ensures env.Passed()
      ensures upd == TerminalUpdate(Succeeded, "SUCCEEDED", "", "", old(env.Now()))
      ensures Attempted(old(env.trace), env.trace, env.rows, op, msg, upd)
      ensures Settled(op.operationId, old(env.failures), env.failures, env.schema, env.rows)
    {
      upd := SuccessUpdate(env.Now());
      ResolveOperation(op, msg, SuccessUpdate(env.Now()));
    }

    method FailOperation(op: Operation, msg: Option<nat>, code: string, message: string)
        returns (ghost upd: TerminalUpdate)
      requires Follows(op, env.rows)
      modifies env`clock, env`rows, env`ctxDone, env`failures, env`trace
      ensures env.Passed()
      ensures upd == TerminalUpdate(Failed, "FAILED", code, message, old(env.Now()))
      ensures Attempted(old(env.trace), env.trace, env.rows, op, msg, upd)
      ensures Settled(op.operationId, old(env.failures), env.failures, env.schema, env.rows)
    {
      upd := FailureUpdate(code, message, env.Now());
      ResolveOperation(op, msg, FailureUpdate(code, message, env.Now()));
    }

    method TimeoutOperation(op: Operation, msg: Option<nat>, message: string) returns (ghost upd: TerminalUpdate)
      requires Follows(op, env.rows)
      modifies env`clock, env`rows, env`ctxDone, env`failures, env`trace
      ensures env.Passed()
      ensures upd == TerminalUpdate(TimedOut, "TIMEOUT", "TIMEOUT", message, old(env.Now()))
      ensures Attempted(old(env.trace), env.trace, env.rows, op, msg, upd)
      ensures Settled(op.operationId, old(env.failures), env.failures, env.schema, env.rows)
    {
      upd := TimeoutUpdate(message, env.Now());
      ResolveOperation(op, msg, TimeoutUpdate(message, env.Now()));
    }

    /** The sweep's and the lazy GET's resolution of one operation. It is left
        alone only when the context has ended; otherwise one attempt is made,
        with the verdict of the deployment as just read: success exactly if its
        rollout is complete, failure exactly if it failed, and a timeout exactly
        if it cannot be read or is still progressing. */
    method ResolveRunning(op: Operation) returns (ghost upd: Option<TerminalUpdate>, ghost result: KubeResult)
      requires Follows(op, env.rows)
      modifies env`clock, env`rows, env`ctxDone, env`failures, env`trace, env`seen, env`kube
      ensures env.Passed()
      ensures upd.None? ==> env.ctxDone && env.trace == old(env.trace) && env.seen == old(env.seen)
      ensures upd.Some? ==> Attempted(old(env.trace), env.trace, env.rows, op, None, upd.value)
                            && IsResolution(upd.value.status)
      ensures upd.Some? ==> Settled(op.operationId, old(env.failures), env.failures, env.schema, env.rows)
      ensures env.kube == old(env.kube) + [Got(op.details.namespace, op.details.deployment, result)]
      ensures upd.None? ==> !result.Read?
      ensures upd.Some? ==>
                && (upd.value.status == Succeeded <==> result.Read? && EvaluateRollout(result.dep) == Complete)
                && (upd.value.status == Failed <==> result.Read? && EvaluateRollout(result.dep) == RolloutFailed)
                && (upd.value.status == TimedOut <==> !result.Read? || EvaluateRollout(result.dep) == Progressing)
                && upd.value.errorCode == (match upd.value.status
                                           case Succeeded => ""
                                           case Failed => "ROLLOUT_FAILED"
                                           case _ => "TIMEOUT")
                && env.ReadSince(upd.value.completedAt)
    {
      hide Interferes, Follows, Settled, Attempted, EvaluateRollout;
      ghost var m := env.rows;
      InterferesRefl(m, env.reserved);
      var r := env.GetDeployment(op.details.namespace, op.details.deployment, true);
      ghost var n := env.rows;
      FollowsThrough(op, m, m, n, env.reserved);
      ghost var u;
      result := r;
      if !r.Read? {
        if r.Canceled? || env.ctxDone {
          return None, r;
        }
        u := TimeoutOperation(op, None, "deployment no longer readable while operation running");
      } else {
        match EvaluateRollout(r.dep)
        case Complete => u := CompleteOperation(op, None);
        case RolloutFailed => u := FailOperation(op, None, "ROLLOUT_FAILED", "progress deadline exceeded");
        case Progressing => u := TimeoutOperation(op, None, "operation stale and rollout still not terminal");
      }
      upd := Some(u);
      InterferesTransitive(m, n, env.rows, env.reserved);
    }

    /** One sweep. However the others interleave with it: if the listing came
        through and the context lives on, every row that was overdue when the
        sweep began is terminal when it ends, whatever its deployment looks like,
        unless a request made for that very row failed or the table's schema
        cannot address it. Overdue is more than two hours old, but for rows whose
        printed timestamp is misordered with the cutoff's, which the query may
        miss. And it touches no other rows: whatever it resolves was requested
        before the cutoff, or in its very second, and gets the verdict of a read
        of its own deployment made by the sweep. */
    method ReconcileSweep() returns (ghost cutoff: Time)
      requires Keyed(env.rows)
      modifies env`clock, env`rows, env`ctxDone, env`failures, env`listFailures, env`trace, env`seen, env`kube
      ensures env.Passed()
      ensures cutoff == old(env.calendar(env.clock - 2 * 60 * 60 * SECOND))
      ensures env.listFailures == old(env.listFailures) && !env.ctxDone ==>
                forall id :: id in old(env.rows) && Before(old(env.rows)[id].requestedAt, cutoff)
                             && !Misordered(old(env.rows)[id].requestedAt, cutoff) ==>
                  || env.failures[id] > old(env.failures)[id]
                  || (id in env.rows && (env.rows[id].status != Running || !Addressable(env.schema, env.rows[id])))
      ensures old(env.KeptPace(2 * 60 * 60 * SECOND)) ==>
                forall id :: id in old(env.rows) ==>
                  (Before(old(env.rows)[id].requestedAt, cutoff) <==>
                     Nanos(old(env.Now())) - Nanos(old(env.rows)[id].requestedAt) > 2 * 60 * 60 * SECOND)
      ensures old(env.trace) <= env.trace && old(env.kube) <= env.kube
      ensures forall i :: |old(env.trace)| <= i < |env.trace| && env.trace[i].TerminalFx? ==>
                var e := env.trace[i];
                && e.id in env.rows && Nanos(env.rows[e.id].requestedAt) < Nanos(cutoff) + SECOND
                && var d := env.rows[e.id].details;
                   exists k :: && |old(env.kube)| <= k < |env.kube| && env.kube[k].Got?
                               && env.kube[k].namespace == d.namespace && env.kube[k].deployment == d.deployment
                               && var read := env.kube[k].result;
                               && (e.upd.status == Succeeded <==> read.Read? && EvaluateRollout(read.dep) == Complete)
                               && (e.upd.status == Failed <==> read.Read? && EvaluateRollout(read.dep) == RolloutFailed)
                               && (e.upd.status == TimedOut <==>
                                     !read.Read? || EvaluateRollout(read.dep) == Progressing)
                               && e.upd.errorCode == match e.upd.status
                                                     case Succeeded => ""
                                                     case Failed => "ROLLOUT_FAILED"
                                                     case _ => "TIMEOUT"
    {
      ghost var t0, s0 := |env.trace|, |env.kube|;
      cutoff := SweepAll(t0, s0);
      if old(env.KeptPace(STALE_AFTER)) {
        forall id | id in old(env.rows)
          ensures Before(old(env.rows)[id].requestedAt, cutoff) <==> Stale(old(env.rows)[id], old(env.Now()))
        {
          StaleIsPast(old(env.rows)[id], old(env.Now()), cutoff);
        }
      }
      forall i | t0 <= i < |env.trace| && env.trace[i].TerminalFx?
        ensures SweptOne(env.trace[i], env.rows, env.kube, s0, cutoff)
      {
      }
    }

    /** The sweep, with what it wrote in one predicate. */
    method SweepAll(ghost t0: nat, ghost s0: nat) returns (ghost cutoff: Time)
      requires Keyed(env.rows) && t0 == |env.trace| && s0 == |env.kube|
      modifies env`clock, env`rows, env`ctxDone, env`failures, env`listFailures, env`trace, env`seen, env`kube
      ensures env.Passed()
      ensures cutoff == old(env.calendar(env.clock - STALE_AFTER))
      ensures env.listFailures == old(env.listFailures) && !env.ctxDone ==>
                forall id :: id in old(env.rows) && Overdue(old(env.rows)[id], cutoff) ==>
                  Settled(id, old(env.failures), env.failures, env.schema, env.rows)
      ensures old(env.trace) <= env.trace && old(env.kube) <= env.kube
      ensures SweptAll(env.trace, t0, env.rows, env.kube, s0, cutoff)
    {
      hide Overdue, DynPast, RowEvolves, TableEvolves, Interferes, Lists, AllSettled, Settled, Follows;
      hide SweptAll, Nanos;
      ghost var m := env.rows;
      var now := env.calendar(env.clock - STALE_AFTER);
      cutoff := now;
      NoneSwept(env.trace, env.rows, env.kube, cutoff);
      var listed := env.ListRunning(now);
      InterferesEvolves(m, env.rows, env.reserved);
      SweptStays(env.trace, t0, m, env.rows, env.kube, env.kube, s0, cutoff);
      if listed.Err? {
        return;
      }
      ghost var n := env.rows;
      AllFollow(listed.value, m, n, cutoff);
      ResolveEach(listed.value, cutoff, t0, s0);
      InterferesTransitive(m, n, env.rows, env.reserved);
      InterferesEvolves(n, env.rows, env.reserved);
      if !env.ctxDone {
        SweepCovers(m, n, env.rows, cutoff, listed.value, old(env.failures), env.failures, env.schema);
      }
    }

    /** The rows of a listing, one after the other. */
    method ResolveEach(ops: seq<Operation>, ghost cutoff: Time, ghost t0: nat, ghost s0: nat)
      requires Keyed(env.rows) && AllFollowed(ops, env.rows, cutoff)
      requires SweptAll(env.trace, t0, env.rows, env.kube, s0, cutoff)
      modifies env`clock, env`rows, env`ctxDone, env`failures, env`trace, env`seen, env`kube
      ensures env.Passed()
      ensures env.ctxDone || AllSettled(ops, old(env.failures), env.failures, env.schema, env.rows)
      ensures old(env.trace) <= env.trace && old(env.kube) <= env.kube
      ensures SweptAll(env.trace, t0, env.rows, env.kube, s0, cutoff)
    {
      hide RowEvolves, TableEvolves, Interferes, AllSettled, Settled, Follows, Attempted, SweptAll, Nanos, AllFollowed;
      hide EvaluateRollout;
      ghost var n, first := env.rows, env.failures;
      InterferesRefl(n, env.reserved);
      NoneSettled(first, first, env.schema, n);
      for i := 0 to |ops|
        invariant old(env.clock) <= env.clock && (old(env.ctxDone) ==> env.ctxDone)
        invariant first <= env.failures && Interferes(n, env.rows, env.reserved)
        invariant env.ctxDone || AllSettled(ops[..i], first, env.failures, env.schema, env.rows)
        invariant old(env.trace) <= env.trace && old(env.kube) <= env.kube
        invariant SweptAll(env.trace, t0, env.rows, env.kube, s0, cutoff)
      {
        ghost var before, failed := env.rows, env.failures;
        FollowedStill(ops, i, n, before, cutoff, env.reserved);
        var u := ResolveListed(ops[i], cutoff, t0, s0);
        InterferesTransitive(n, before, env.rows, env.reserved);
        InterferesEvolves(before, env.rows, env.reserved);
        if !env.ctxDone {
          SettledThen(ops[..i], ops[i], first, failed, env.failures, env.schema, before, env.rows);
          assert ops[..i + 1] == ops[..i] + [ops[i]];
        }
      }
      assert ops[..|ops|] == ops;
    }

    method ResolveListed(op: Operation, ghost cutoff: Time, ghost t0: nat, ghost s0: nat) returns (ghost done: bool)
      requires Follows(op, env.rows) && Nanos(op.requestedAt) < Nanos(cutoff) + SECOND
      requires SweptAll(env.trace, t0, env.rows, env.kube, s0, cutoff)
      modifies env`clock, env`rows, env`ctxDone, env`failures, env`trace, env`seen, env`kube
      ensures env.Passed() && (done || env.ctxDone)
      ensures done ==> Settled(op.operationId, old(env.failures), env.failures, env.schema, env.rows)
      ensures old(env.trace) <= env.trace && old(env.kube) <= env.kube
      ensures SweptAll(env.trace, t0, env.rows, env.kube, s0, cutoff)
    {
      hide RowEvolves, TableEvolves, Interferes, Settled, Follows, Attempted, SweptAll, Nanos, EvaluateRollout;
      ghost var before, made, kube := env.rows, env.trace, env.kube;
      SweptFrom(made, t0, before, kube, s0, cutoff);
      var u, result := ResolveRunning(op);
      InterferesRefl(before, env.reserved);
      InterferesEvolves(before, env.rows, env.reserved);
      SweptStays(made, t0, before, env.rows, kube, env.kube, s0, cutoff);
      done := u.Some?;
      if u.Some? {
        FollowsThrough(op, before, before, env.rows, env.reserved);
        FollowsDetails(op, env.rows);
        SweptMore(made, env.trace, t0, env.rows, kube, env.kube, s0, cutoff, op, u.value, result);
      }
    }

    /** The lazy GET. `found` is the row first found, `at` when it was looked at:
        a resolution is attempted exactly if it was running more than two hours
        after its request, with the verdict of a read of its deployment or a
        timeout, and then the row ends terminal unless the context ended, a
        request for it failed or the schema cannot address it. The answer is a
        version of the row, read again after an attempt. */
    method Get(opId: string)
        returns (r: Result<Operation>, ghost found: Option<Operation>, ghost at: int,
                 ghost verdict: Option<TerminalUpdate>, ghost result: KubeResult)
      requires Keyed(env.rows)
      modifies env`clock, env`rows, env`ctxDone, env`failures, env`trace, env`seen, env`kube, env`finds
      ensures env.Passed() && old(env.clock) <= at <= env.clock
      ensures r.Ok? <==> found.Some?
      ensures r.Ok? ==> opId in env.rows && r.value.operationId == opId && RowEvolves(r.value, env.rows[opId])
      ensures r.Err? ==> r.error != AlreadyTerminal
      ensures r.Err? && opId in old(env.rows) ==> env.failures[opId] > old(env.failures)[opId]
      ensures if && found.Some? && found.value.status == Running
                 && Nanos(env.calendar(at)) - Nanos(found.value.requestedAt) > 2 * 60 * 60 * SECOND then
                && found.value.operationId == opId
                && (env.ctxDone || Settled(opId, old(env.failures), env.failures, env.schema, env.rows))
                && (verdict.None? ==> env.ctxDone && env.trace == old(env.trace))
                && (verdict.Some? ==> Attempted(old(env.trace), env.trace, env.rows, found.value, None, verdict.value))
                && env.kube == old(env.kube) + [Got(found.value.details.namespace, found.value.details.deployment,
                                                    result)]
                && |env.finds| == |old(env.finds)| + 2 && env.finds[..|old(env.finds)|] == old(env.finds)
                && r == (if env.finds[|old(env.finds)| + 1].Ok? then env.finds[|old(env.finds)| + 1]
                         else Ok(found.value))
              else
                && env.trace == old(env.trace) && env.kube == old(env.kube) && (r.Ok? ==> r.value == found.value)
                && verdict.None? && env.finds == old(env.finds) + [r]
      ensures verdict.Some? ==>
                && found.Some?
                && (verdict.value.status == Succeeded <==> result.Read? && EvaluateRollout(result.dep) == Complete)
                && (verdict.value.status == Failed <==> result.Read? && EvaluateRollout(result.dep) == RolloutFailed)
                && (verdict.value.status == TimedOut <==> !result.Read? || EvaluateRollout(result.dep) == Progressing)
                && verdict.value.errorCode == (match verdict.value.status
                                               case Succeeded => ""
                                               case Failed => "ROLLOUT_FAILED"
                                               case _ => "TIMEOUT")
                && env.ReadSince(verdict.value.completedAt)
    {
      hide EvaluateRollout, Attempted, Settled, Nanos, RowEvolves, Interferes;
      r, found, at, verdict, result := Refreshed(opId);
    }

    /** Get, with the verdict in one predicate. */
    method Refreshed(opId: string)
        returns (r: Result<Operation>, ghost found: Option<Operation>, ghost at: int,
                 ghost verdict: Option<TerminalUpdate>, ghost result: KubeResult)
      requires Keyed(env.rows)
      modifies env`clock, env`rows, env`ctxDone, env`failures, env`trace, env`seen, env`kube, env`finds
      ensures env.Passed() && old(env.clock) <= at <= env.clock
      ensures r.Ok? <==> found.Some?
      ensures r.Ok? ==> opId in env.rows && r.value.operationId == opId && RowEvolves(r.value, env.rows[opId])
      ensures r.Err? ==> r.error != AlreadyTerminal
      ensures r.Err? && opId in old(env.rows) ==> env.failures[opId] > old(env.failures)[opId]
      ensures if found.Some? && found.value.status == Running && Stale(found.value, env.calendar(at)) then
                && found.value.operationId == opId
                && (env.ctxDone || Settled(opId, old(env.failures), env.failures, env.schema, env.rows))
                && (verdict.None? ==> env.ctxDone && env.trace == old(env.trace))
                && (verdict.Some? ==> Attempted(old(env.trace), env.trace, env.rows, found.value, None, verdict.value))
                && env.kube == old(env.kube) + [Got(found.value.details.namespace, found.value.details.deployment,
                                                    result)]
                && |env.finds| == |old(env.finds)| + 2 && env.finds[..|old(env.finds)|] == old(env.finds)
                && r == (if env.finds[|old(env.finds)| + 1].Ok? then env.finds[|old(env.finds)| + 1]
                         else Ok(found.value))
              else
                && env.trace == old(env.trace) && env.kube == old(env.kube) && (r.Ok? ==> r.value == found.value)
                && verdict.None? && env.finds == old(env.finds) + [r]
      ensures verdict.Some? ==> found.Some? && VerdictOn(verdict.value, result)
                                && env.ReadSince(verdict.value.completedAt)
    {
      hide VerdictOn, Stale, Follows, RowEvolves, TableEvolves, Interferes, Keyed, EvaluateRollout, Attempted, Settled;
      ghost var m := env.rows;
      r := env.Find(opId);
      ghost var first := env.failures;
      found, at, verdict, result := None, env.clock, None, Unreadable;
      if r.Err? {
        return;
      }
      ghost var n := env.rows;
      var op := r.value;
      found := Some(op);
      FoundKeyed(op, m, n, env.reserved, opId);
      KeyedOn(m, n, env.reserved);
      if op.status == Running && Stale(op, env.Now()) {
        FoundFollows(op, n, opId);
        var refreshed;
        ghost var u, dep;
        refreshed, u, dep := ResolveThenFind(op);
        verdict, result := u, dep;
        ghost var before := old(env.failures);
        InterferesTransitive(m, n, env.rows, env.reserved);
        RowEvolvesOn(op, n, env.rows, env.reserved, opId);
        if u.Some? {
          SettledBefore(opId, before, first, env.failures, env.schema, env.rows);
        }
        if refreshed.Ok? {
          FoundKeyed(refreshed.value, m, env.rows, env.reserved, opId);
          r := refreshed;
        }
      }
    }

    /** The resolution and the second read. */
    method ResolveThenFind(op: Operation)
        returns (r: Result<Operation>, ghost upd: Option<TerminalUpdate>, ghost result: KubeResult)
      requires Follows(op, env.rows)
      modifies env`clock, env`rows, env`ctxDone, env`failures, env`trace, env`seen, env`kube, env`finds
      ensures env.Passed() && env.finds == old(env.finds) + [r]
      ensures env.kube == old(env.kube) + [Got(op.details.namespace, op.details.deployment, result)]
      ensures r.Ok? ==> op.operationId in env.rows && RowEvolves(r.value, env.rows[op.operationId])
      ensures upd.None? ==> env.ctxDone && env.trace == old(env.trace)
      ensures upd.Some? ==> && Attempted(old(env.trace), env.trace, env.rows, op, None, upd.value)
                            && IsResolution(upd.value.status) && VerdictOn(upd.value, result)
                            && Settled(op.operationId, old(env.failures), env.failures, env.schema, env.rows)
                            && env.ReadSince(upd.value.completedAt)
    {
      hide VerdictOn, Follows, RowEvolves, TableEvolves, Interferes, Attempted, Settled;
      ghost var n, before := env.rows, env.failures;
      upd, result := ResolveStale(op);
      ghost var o, resolved := env.rows, env.failures;
      InterferesRefl(n, env.reserved);
      FollowsThrough(op, n, n, o, env.reserved);
      FollowsKeyed(op, o);
      r := env.Find(op.operationId);
      InterferesTransitive(n, o, env.rows, env.reserved);
      if upd.Some? {
        InterferesEvolves(o, env.rows, env.reserved);
        AttemptedStays(old(env.trace), env.trace, o, env.rows, op, None, upd.value);
        SettledStays(op.operationId, before, before, resolved, env.failures, env.schema, o, env.rows);
      }
    }

    method ResolveStale(op: Operation) returns (ghost upd: Option<TerminalUpdate>, ghost result: KubeResult)
      requires Follows(op, env.rows)
      modifies env`clock, env`rows, env`ctxDone, env`failures, env`trace, env`seen, env`kube
      ensures env.Passed()
      ensures env.kube == old(env.kube) + [Got(op.details.namespace, op.details.deployment, result)]
      ensures upd.None? ==> env.ctxDone && env.trace == old(env.trace)
      ensures upd.Some? ==> && Attempted(old(env.trace), env.trace, env.rows, op, None, upd.value)
                            && IsResolution(upd.value.status) && VerdictOn(upd.value, result)
                            && Settled(op.operationId, old(env.failures), env.failures, env.schema, env.rows)
                            && env.ReadSince(upd.value.completedAt)
    {
      hide Attempted, Settled, Follows, Interferes, EvaluateRollout;
      upd, result := ResolveRunning(op);
    }

    /** One re-read: resolves the operation if its rollout is over. */
    method EvalOnce(op: Operation, msg: Option<nat>)
        returns (done: bool, ghost upd: TerminalUpdate, ghost looked: seq<Sight>, ghost got: KubeCall)
      requires Follows(op, env.rows)
      modifies env`clock, env`rows, env`ctxDone, env`failures, env`trace, env`seen, env`kube
      ensures env.Passed()
      ensures env.seen == old(env.seen) + looked
      ensures env.kube == old(env.kube) + [got] && OwnGet(op, got) && looked == Shown(op, [got])
      ensures !done ==> env.trace == old(env.trace) && env.failures == old(env.failures) && AllProgressing(op, looked)
      ensures done ==> Attempted(old(env.trace), env.trace, env.rows, op, msg, upd) && Concludes(op, looked, upd)
      ensures done ==> env.ReadSince(upd.completedAt)
    {
      hide EvaluateRollout, Interferes, Follows, Attempted, AllProgressing, Concludes, Settled;
      ghost var m := env.rows;
      InterferesRefl(m, env.reserved);
      NoneYet(op);
      var r := env.GetDeployment(op.details.namespace, op.details.deployment, false);
      ghost var n := env.rows;
      got := Got(op.details.namespace, op.details.deployment, r);
      assert [got][..0] == [] && Shown(op, []) == [];
      InterferesRefl(n, env.reserved);
      done, upd, looked := false, SuccessUpdate(env.Now()), [];
      if !r.Read? {
        return;
      }
      looked := [SightOf(op, r.dep)];
      FollowsThrough(op, m, m, n, env.reserved);
      match EvaluateRollout(r.dep) {
        case Complete =>
          upd := CompleteOperation(op, msg);
          done := true;
          OneConclusive(op, SightOf(op, r.dep), upd);
        case RolloutFailed =>
          upd := FailOperation(op, msg, "ROLLOUT_FAILED", "progress deadline exceeded");
          done := true;
          OneConclusive(op, SightOf(op, r.dep), upd);
        case Progressing =>
          OneProgressing(op, SightOf(op, r.dep));
      }
      InterferesTransitive(m, n, env.rows, env.reserved);
    }

    function ProgressDeadline(dep: Deployment): int {
      if dep.progressDeadlineSeconds.Some? && dep.progressDeadlineSeconds.value > 0
      then dep.progressDeadlineSeconds.value * SECOND
      else defaultDeadline
    }

    /** One watch session, up to a conclusive event or the closing of the channel. */
    method FollowEvents(events: seq<Option<Sight>>, op: Operation, msg: Option<nat>)
        returns (done: bool, ghost upd: TerminalUpdate, ghost looked: seq<Sight>)
      requires Follows(op, env.rows)
      requires forall i :: 0 <= i < |events| && events[i].Some? ==> ShowsOwn(op, events[i].value)
      modifies env`clock, env`rows, env`ctxDone, env`failures, env`trace, env`seen
      ensures env.Passed()
      ensures env.seen == old(env.seen) + looked
      ensures looked <= Sights(events) && (!done ==> looked == Sights(events))
      ensures !done ==> env.trace == old(env.trace) && env.failures == old(env.failures) && AllProgressing(op, looked)
      ensures done ==> Attempted(old(env.trace), env.trace, env.rows, op, msg, upd) && Concludes(op, looked, upd)
      ensures done ==> env.ReadSince(upd.completedAt)
    {
      hide EvaluateRollout, Attempted, Interferes, Follows, Sights, AllProgressing, Concludes, ShowsOwn;
      ghost var m := env.rows;
      done, upd, looked := false, SuccessUpdate(env.Now()), [];
      InterferesRefl(m, env.reserved);
      NoneYet(op);
      assert events[..0] == [];
      for i := 0 to |events|
        invariant env.clock >= old(env.clock) && (old(env.ctxDone) ==> env.ctxDone)
        invariant env.failures == old(env.failures)
        invariant Interferes(m, env.rows, env.reserved) && Follows(op, env.rows)
        invariant env.trace == old(env.trace) && env.seen == old(env.seen) + looked
        invariant AllProgressing(op, looked) && looked == Sights(events[..i])
      {
        NextEvent(events, i);
        ghost var n := env.rows;
        env.Receive(events[i]);
        ghost var o := env.rows;
        FollowsThrough(op, m, n, o, env.reserved);
        if events[i].None? {
          continue;
        }
        ghost var before := looked;
        looked := looked + [events[i].value];
        match EvaluateRollout(events[i].value.dep) {
          case Complete =>
            upd := CompleteOperation(op, msg);
            InterferesTransitive(m, o, env.rows, env.reserved);
            OneConclusive(op, events[i].value, upd);
            ConcludesAfter(op, before, [events[i].value], upd);
            return true, upd, looked;
          case RolloutFailed =>
            upd := FailOperation(op, msg, "ROLLOUT_FAILED", "progress deadline exceeded");
            InterferesTransitive(m, o, env.rows, env.reserved);
            OneConclusive(op, events[i].value, upd);
            ConcludesAfter(op, before, [events[i].value], upd);
            return true, upd, looked;
          case Progressing =>
            OneProgressing(op, events[i].value);
            ProgressingThen(op, before, [events[i].value]);
        }
      }
      assert events[..|events|] == events;
    }

    /** The watcher ends, and on every path out it has made exactly one attempt:
        with the verdict of the first conclusive deployment it evaluated, or,
        when it evaluated none, a timeout - and then only once the deployment's
        progress deadline plus two minutes have passed. `first` is the read that
        fixes the deadline and is not evaluated, `looked` the ones that are. It
        slept `sleeps` times to the end: at most one time in fifteen seconds of
        the budget, plus four. It works in rounds of a read, a watch session and a
        sleep of 1, 2, 4, 8 and then 15 seconds, and evaluates all that these
        show of the deployment, in order, until something is conclusive; it gives
        up only between rounds. */
    method WatchRollout(op: Operation, msg: Option<nat>)
        returns (ghost upd: TerminalUpdate, ghost first: Option<Deployment>, ghost looked: seq<Sight>,
                 ghost sleeps: nat, ghost rounds: nat)
      requires Follows(op, env.rows) && defaultDeadline > 0
      modifies env`clock, env`rows, env`ctxDone, env`failures, env`trace, env`seen, env`kube
      ensures env.Passed()
      ensures env.seen == old(env.seen) + (if first.Some? then [SightOf(op, first.value)] else []) + looked
      ensures Attempted(old(env.trace), env.trace, env.rows, op, msg, upd)
      ensures forall i :: 0 <= i < |looked| ==> && looked[i].namespace == op.details.namespace
                                                && looked[i].deployment == op.details.deployment
      ensures forall i :: 0 <= i < |looked| - 1 ==> EvaluateRollout(looked[i].dep) == Progressing
      ensures upd.status == Succeeded <==> looked != [] && EvaluateRollout(looked[|looked| - 1].dep) == Complete
      ensures upd.status == Failed <==> looked != [] && EvaluateRollout(looked[|looked| - 1].dep) == RolloutFailed
      ensures upd.status == TimedOut <==> looked == [] || EvaluateRollout(looked[|looked| - 1].dep) == Progressing
      ensures upd.errorCode == match upd.status
                               case Succeeded => ""
                               case Failed => "ROLLOUT_FAILED"
                               case _ => "TIMEOUT"
      ensures env.ReadSince(upd.completedAt)
      ensures var budget := 120 * SECOND
                            + if && first.Some? && first.value.progressDeadlineSeconds.Some?
                                 && first.value.progressDeadlineSeconds.value > 0
                              then first.value.progressDeadlineSeconds.value * SECOND
                              else defaultDeadline;
              && (upd.status == TimedOut ==> env.clock >= old(env.clock) + budget)
              && sleeps <= budget / (15 * SECOND) + 4
      ensures |env.kube| > |old(env.kube)| && env.kube[..|old(env.kube)|] == old(env.kube)
      ensures var calls := env.kube[|old(env.kube)|..];
              && calls[0].Got? && first == (if calls[0].result.Read? then Some(calls[0].result.dep) else None)
              && (forall k :: 0 <= k < |calls| && !calls[k].Slept? ==>
                    calls[k].namespace == op.details.namespace && calls[k].deployment == op.details.deployment)
              && |calls| >= 1 + 3 * rounds
              && (forall i :: 0 <= i < rounds ==>
                    && calls[3 * i + 1].Got? && calls[3 * i + 2].Watched?
                    && calls[3 * i + 3] == Slept((if i == 0 then 1 else if i == 1 then 2 else if i == 2 then 4
                                                  else if i == 3 then 8 else 15) * SECOND))
              && if upd.status == TimedOut
                 then |calls| == 1 + 3 * rounds && looked == Shown(op, calls[1..]) && sleeps <= rounds <= sleeps + 1
                 else && 2 + 3 * rounds <= |calls| <= 3 + 3 * rounds && looked <= Shown(op, calls[1..])
                      && calls[3 * rounds + 1].Got?
                      && (|calls| == 3 + 3 * rounds ==> calls[3 * rounds + 2].Watched?)
    {
      hide EvaluateRollout, Concludes, AllProgressing, Attempted, WatchOver, Shown, Interferes, IsTimeout;
      ghost var result, rest;
      upd, first, looked, sleeps, rounds, result, rest := Watch(op, msg);
      ghost var calls := [Got(op.details.namespace, op.details.deployment, result)] + rest;
      assert env.kube[|old(env.kube)|..] == calls && calls[1..] == rest;
      WatchMeans(op, calls, looked, rounds, sleeps, upd);
    }

    /** The watch loop. */
    method Watch(op: Operation, msg: Option<nat>)
        returns (ghost upd: TerminalUpdate, ghost first: Option<Deployment>, ghost looked: seq<Sight>,
                 ghost sleeps: nat, ghost rounds: nat, ghost result: KubeResult, ghost calls: seq<KubeCall>)
      requires Follows(op, env.rows) && defaultDeadline > 0
      modifies env`clock, env`rows, env`ctxDone, env`failures, env`trace, env`seen, env`kube
      ensures env.Passed()
      ensures env.seen == old(env.seen) + (if first.Some? then [SightOf(op, first.value)] else []) + looked
      ensures Attempted(old(env.trace), env.trace, env.rows, op, msg, upd) && env.ReadSince(upd.completedAt)
      ensures env.kube == old(env.kube) + [Got(op.details.namespace, op.details.deployment, result)] + calls
      ensures first == if result.Read? then Some(result.dep) else None
      ensures WatchOver(op, calls, looked, sleeps, rounds, upd)
      ensures IsTimeout(upd) ==> env.clock >= old(env.clock) + WatchBudget(first)
      ensures sleeps <= WatchBudget(first) / MAX_BACKOFF + 4
    {
      hide Interferes, Follows, Attempted, Concludes, AllProgressing, Backoff, SleepTotal, NextBackoff;
      hide Settled, WatchBudget, SightOf, IsTimeout, Shown, Rounds, OneMore, RoundOver, WatchOver, OwnGet;
      ghost var m := env.rows;
      looked, sleeps, rounds := [], 0, 0;
      var deadline;
      deadline, first, result := WatchDeadline(op);
      ghost var kube0 := env.kube;
      calls := [];
      ghost var seen0 := env.seen;
      ghost var start := env.clock;
      var limit := env.clock + deadline;
      var backoff := SECOND;
      StartBackoff();
      NoneYet(op);
      while true
        invariant env.clock >= start && (old(env.ctxDone) ==> env.ctxDone) && env.failures == old(env.failures)
        invariant Interferes(m, env.rows, env.reserved) && Follows(op, env.rows)
        invariant env.trace == old(env.trace) && env.seen == seen0 + looked
        invariant AllProgressing(op, looked) && looked == Shown(op, calls)
        invariant env.kube == kube0 + calls && Rounds(op, calls, sleeps)
        invariant backoff == Backoff(sleeps) && backoff >= SECOND
        invariant start + SleepTotal(sleeps) <= env.clock
        invariant sleeps <= WatchBudget(first) / MAX_BACKOFF + 4
        decreases limit - env.clock
      {
        ghost var n := env.rows;
        if env.clock < limit {
          SleepsWithin(sleeps, WatchBudget(first));
        }
        var done, u, more, made := Round(op, msg, backoff, limit);
        assert kube0 + (calls + made) == kube0 + calls + made;
        InterferesTransitive(m, n, env.rows, env.reserved);
        if done {
          upd := u;
          rounds := WatchEnds(op, calls, looked, sleeps, made, more, u);
          looked, calls := looked + more, calls + made;
          return;
        }
        ProgressingThen(op, looked, more);
        ShownThen(op, calls, made);
        RoundsThen(op, calls, sleeps, made);
        looked, calls := looked + more, calls + made;
        NextSleep(sleeps);
        backoff := NextBackoff(backoff);
        sleeps := sleeps + 1;
      }
    }

    /** One round of the watch loop: it gives up past its deadline; else it looks,
        and unless that was conclusive sleeps, which the deadline may cut short. */
    method Round(op: Operation, msg: Option<nat>, backoff: int, limit: int)
        returns (done: bool, ghost upd: TerminalUpdate, ghost looked: seq<Sight>, ghost calls: seq<KubeCall>)
      requires Follows(op, env.rows) && backoff > 0
      modifies env`clock, env`rows, env`ctxDone, env`failures, env`trace, env`seen, env`kube
      ensures env.Passed() && env.seen == old(env.seen) + looked && env.kube == old(env.kube) + calls
      ensures !done ==> && env.trace == old(env.trace) && env.failures == old(env.failures)
                        && AllProgressing(op, looked) && Follows(op, env.rows)
                        && OneMore(op, calls, backoff) && looked == Shown(op, calls)
                        && old(env.clock) < limit && env.clock >= old(env.clock) + backoff
      ensures done ==> Attempted(old(env.trace), env.trace, env.rows, op, msg, upd) && env.ReadSince(upd.completedAt)
      ensures done ==> RoundOver(op, calls, looked, backoff, upd) && (IsTimeout(upd) ==> env.clock >= limit)
    {
      hide Follows, Attempted, Concludes, AllProgressing, Interferes, IsTimeout, Look, OneMore;
      if env.clock >= limit {
        NoneYet(op);
        looked, calls := [], [];
        upd := Expire(op, msg, false);
        assert RoundOver(op, calls, looked, backoff, upd);
        return true, upd, looked, calls;
      }
      ghost var m := env.rows;
      var woke;
      done, woke, upd, looked, calls := LookThenSleep(op, msg, backoff, limit);
      if !done && !woke {
        ghost var n := env.rows;
        upd := Expire(op, msg, true);
        InterferesTransitive(m, n, env.rows, env.reserved);
        done := true;
        assert RoundOver(op, calls, looked, backoff, upd);
      } else if done {
        ConclusionMeans(op, looked, upd);
        NotTimeout(upd);
      }
    }

    /** The watch gives up, before a look or in the sleep after one. */
    method Expire(op: Operation, msg: Option<nat>, asleep: bool) returns (ghost upd: TerminalUpdate)
      requires Follows(op, env.rows)
      modifies env`clock, env`rows, env`ctxDone, env`failures, env`trace
      ensures env.Passed() && IsTimeout(upd) && upd.completedAt == old(env.Now())
      ensures Attempted(old(env.trace), env.trace, env.rows, op, msg, upd)
    {
      if asleep {
        upd := TimeoutOperation(op, msg, "watch deadline exceeded");
      } else {
        upd := TimeoutOperation(op, msg, "watch deadline exceeded before rollout resolved");
      }
    }

    /** The first read fixes how long the watch may take. */
    method WatchDeadline(op: Operation) returns (deadline: int, ghost first: Option<Deployment>,
                                                 ghost result: KubeResult)
      requires Follows(op, env.rows) && defaultDeadline > 0
      modifies env`clock, env`rows, env`ctxDone, env`seen, env`kube
      ensures env.Passed() && Follows(op, env.rows)
      ensures env.seen == old(env.seen) + (if first.Some? then [SightOf(op, first.value)] else [])
      ensures env.kube == old(env.kube) + [Got(op.details.namespace, op.details.deployment, result)]
      ensures first == if result.Read? then Some(result.dep) else None
      ensures OwnGet(op, env.kube[|old(env.kube)|])
      ensures deadline == WatchBudget(first) > 0
    {
      var r := env.GetDeployment(op.details.namespace, op.details.deployment, false);
      FollowsOn(op, old(env.rows), env.rows);
      if r.Read? {
        return ProgressDeadline(r.dep) + WATCH_GRACE, Some(r.dep), r;
      }
      return defaultDeadline + WATCH_GRACE, None, r;
    }

    function WatchBudget(first: Option<Deployment>): int {
      (if first.Some? then ProgressDeadline(first.value) else defaultDeadline) + WATCH_GRACE
    }

    /** Re-read, one session, and unless that was conclusive a sleep. */
    method LookThenSleep(op: Operation, msg: Option<nat>, backoff: int, limit: int)
        returns (done: bool, woke: bool, ghost upd: TerminalUpdate, ghost looked: seq<Sight>,
                 ghost calls: seq<KubeCall>)
      requires Follows(op, env.rows) && backoff > 0
      modifies env`clock, env`rows, env`ctxDone, env`failures, env`trace, env`seen, env`kube
      ensures env.Passed() && env.seen == old(env.seen) + looked
      ensures env.kube == old(env.kube) + calls
      ensures if done then Look(op, calls, looked, true)
              else OneMore(op, calls, backoff) && looked == Shown(op, calls)
      ensures !done ==> && env.trace == old(env.trace) && env.failures == old(env.failures)
                        && AllProgressing(op, looked) && Follows(op, env.rows)
                        && env.clock >= if woke then old(env.clock) + backoff else limit
      ensures done ==> Attempted(old(env.trace), env.trace, env.rows, op, msg, upd) && Concludes(op, looked, upd)
      ensures done ==> env.ReadSince(upd.completedAt)
    {
      hide Follows, Attempted, Concludes, AllProgressing, Interferes, Look, OneMore, Shown;
      ghost var m := env.rows;
      done, upd, looked, calls := LookAgain(op, msg);
      woke := true;
      if !done {
        ghost var n := env.rows;
        InterferesRefl(m, env.reserved);
        FollowsThrough(op, m, m, n, env.reserved);
        woke := env.Sleep(backoff, limit);
        OneRound(op, calls, looked, backoff);
        calls := calls + [Slept(backoff)];
        FollowsThrough(op, m, n, env.rows, env.reserved);
      }
    }

    /** The round up to its sleep. */
    method LookAgain(op: Operation, msg: Option<nat>)
        returns (done: bool, ghost upd: TerminalUpdate, ghost looked: seq<Sight>, ghost calls: seq<KubeCall>)
      requires Follows(op, env.rows)
      modifies env`clock, env`rows, env`ctxDone, env`failures, env`trace, env`seen, env`kube
      ensures env.Passed()
      ensures env.seen == old(env.seen) + looked
      ensures env.kube == old(env.kube) + calls && Look(op, calls, looked, done)
      ensures !done ==> env.trace == old(env.trace) && env.failures == old(env.failures) && AllProgressing(op, looked)
      ensures done ==> Attempted(old(env.trace), env.trace, env.rows, op, msg, upd) && Concludes(op, looked, upd)
      ensures done ==> env.ReadSince(upd.completedAt)
    {
      hide EvaluateRollout, Attempted, Concludes, AllProgressing, Interferes, Follows, Shown, Sights, OwnGet;
      ghost var m := env.rows;
      ghost var got;
      done, upd, looked, got := EvalOnce(op, msg);
      calls := [got];
      if done {
        return;
      }
      ghost var n := env.rows;
      InterferesRefl(m, env.reserved);
      FollowsThrough(op, m, m, n, env.reserved);
      var w := env.Watch(op.details.namespace, op.details.deployment);
      ghost var o := env.rows;
      ghost var watched := Watched(op.details.namespace, op.details.deployment, w);
      calls := [got, watched];
      FollowsThrough(op, m, n, o, env.reserved);
      if w.None? {
        LookedOnce(op, got, watched, looked, [], false);
        assert looked + [] == looked;
        return;
      }
      ghost var more;
      done, upd, more := FollowEvents(w.value, op, msg);
      InterferesTransitive(m, o, env.rows, env.reserved);
      if done {
        ConcludesAfter(op, looked, more, upd);
      } else {
        ProgressingThen(op, looked, more);
      }
      LookedOnce(op, got, watched, looked, more, done);
      looked := looked + more;
    }

    /** The row, then the patch; a failed patch resolves the row. */
    method Restart(opId: string, id: Identity, namespace: string, deployment: string)
        returns (result: string, err: StartError, ghost op: Operation)
      requires Keyed(env.rows)
      requires opId in env.reserved && opId !in env.rows
      modifies env`clock, env`rows, env`ctxDone, env`failures, env`reserved, env`trace, env`kube
      ensures env.reserved == old(env.reserved) - {opId} && env.Passed()
      ensures && op.operationId == opId && op.status == Running && op.errorCode == "" && op.errorMessage == ""
              && op.details == Details(id, "deployment.restart", namespace, deployment, "", "",
                                       namespace + "#" + deployment, ExpiresAt(op.requestedAt))
              && op.requestedAt == old(env.Now()) && op.completedAt == None
              && op.events == [AuditEvent("REQUESTED", op.requestedAt), AuditEvent("STARTED", op.requestedAt)]
      ensures StartEnds(old(env.trace), env.trace, op, result, err)
      ensures old(env.trace) <= env.trace && result == if env.trace == old(env.trace) then "" else opId
      ensures forall i :: |old(env.trace)| <= i < |env.trace| && env.trace[i].PutFx? ==>
                i == |old(env.trace)| && env.trace[i].op == op
      ensures forall i :: |old(env.trace)| <= i < |env.trace| && env.trace[i].PatchFx? ==>
                && i == |old(env.trace)| + 1
                && env.trace[i] == PatchFx("deployment.restart", namespace, deployment, "", "")
      ensures err == NoError <==>
              env.trace == old(env.trace) + [PutFx(op),
                                             PatchFx("deployment.restart", namespace, deployment, "", ""),
                                             StartedFx(op)]
      ensures err == NoError || err == StartFailed
      ensures env.trace == old(env.trace) ==> env.failures[opId] > old(env.failures)[opId]
      ensures env.kube == old(env.kube)
                          + if env.trace == old(env.trace) then []
                            else [Patched("deployment.restart", namespace, deployment, "", "", err == NoError)]
      ensures err == NoError ==> Follows(op, env.rows)
    {
      hide StartEnds, ExpiresAt;
      var row := StartedRow(opId, id, ACTION_RESTART, namespace, deployment, "", "", env.Now());
      op := row;
      result, err := Start(row);
      StartEffects(old(env.trace), env.trace, op, result, err);
    }

    /** What Restart and Rollout do with the row they have composed. */
    method Start(op: Operation) returns (result: string, err: StartError)
      requires Keyed(env.rows)
      requires op.operationId in env.reserved && op.operationId !in env.rows && op.status == Running
      modifies env`clock, env`rows, env`ctxDone, env`failures, env`reserved, env`trace, env`kube
      ensures env.reserved == old(env.reserved) - {op.operationId} && env.Passed()
      ensures StartEnds(old(env.trace), env.trace, op, result, err)
      ensures env.trace == old(env.trace) ==>
                env.failures[op.operationId] > old(env.failures)[op.operationId]
      ensures env.kube == old(env.kube)
                          + if env.trace == old(env.trace) then []
                            else [Patched(op.details.action, op.details.namespace, op.details.deployment,
                                          op.details.container, op.details.image, err == NoError)]
      ensures err == NoError ==> Follows(op, env.rows)
    {
      hide RowEvolves, TableEvolves, Interferes, Attempted, Attempt, Settled, PatchFailed, FailedStart, Follows;
      ghost var m := env.rows;
      InterferesRefl(m, env.reserved);
      var ok := env.Put(op);
      if !ok {
        return "", StartFailed;
      }
      ghost var n := env.rows;
      PutFollows(op, old(env.rows), n, env.reserved);
      var d := op.details;
      ghost var landed;
      ok, landed := env.Patch(d.action, d.namespace, d.deployment, d.container, d.image);
      ghost var o := env.rows;
      FollowsThrough(op, m, n, o, env.reserved);
      if !ok {
        ghost var before := env.trace;
        var upd := FailOperation(op, None, "K8S_PATCH_FAILED", "patch deployment");
        InterferesTransitive(m, o, env.rows, env.reserved);
        PatchFailedEnds(old(env.trace), before, env.trace, env.rows, op, landed, upd);
        return op.operationId, StartFailed;
      }
      env.Emit(StartedFx(op));
      assert env.trace == old(env.trace) + [PutFx(op), PatchOf(op), StartedFx(op)];
      return op.operationId, NoError;
    }

    /** The only container's name, when the caller named none. */
    method ResolveContainer(namespace: string, deployment: string)
        returns (r: Container, ghost read: Option<Deployment>, ghost got: KubeResult)
      modifies env`clock, env`rows, env`ctxDone, env`seen, env`kube
      ensures env.Passed()
      ensures ReadOnly(old(env.seen), env.seen, namespace, deployment, read)
      ensures env.kube == old(env.kube) + [Got(namespace, deployment, got)]
      ensures read == if got.Read? then Some(got.dep) else None
      ensures read.None? ==> r == Unresolved
      ensures read.Some? ==>
                var names := read.value.containers;
                && (r.Resolved? <==> |names| == 1) && (r.Resolved? ==> names == [r.name])
                && (r.Unresolved? <==> |names| == 0)
    {
      var dep := env.GetDeployment(namespace, deployment, true);
      got := dep;
      if !dep.Read? {
        return Unresolved, None, dep;
      }
      if |dep.dep.containers| == 1 {
        return Resolved(dep.dep.containers[0]), Some(dep.dep), dep;
      }
      return if |dep.dep.containers| == 0 then Unresolved else Choose, Some(dep.dep), dep;
    }

    /** The row of a rollout that failed before its patch; it carries no
        repository owner and no STARTED event. */
    method RecordFailedRollout(opId: string, id: Identity, namespace: string, deployment: string, image: string)
        returns (result: string, ghost op: Operation)
      requires Keyed(env.rows)
      requires opId in env.reserved && opId !in env.rows
      modifies env`clock, env`rows, env`ctxDone, env`failures, env`reserved, env`trace
      ensures env.reserved == old(env.reserved) - {opId} && env.Passed()
      ensures && op.operationId == opId && op.status == Running && op.errorCode == "" && op.errorMessage == ""
              && op.details == Details(id.(repositoryOwner := ""), "deployment.rollout", namespace, deployment, "",
                                       image, namespace + "#" + deployment, ExpiresAt(op.requestedAt))
              && op.requestedAt == old(env.Now()) && op.completedAt == None
              && op.events == [AuditEvent("REQUESTED", op.requestedAt)]
      ensures op == UnresolvedRow(opId, id, namespace, deployment, image, op.requestedAt)
      ensures env.trace == old(env.trace) ==> env.failures[opId] > old(env.failures)[opId]
      ensures || (result == "" && env.trace == old(env.trace))
              || (result == opId && PatchFailed(old(env.trace), env.trace, op, false))
    {
      hide RowEvolves, TableEvolves, Interferes, Attempted, Attempt, Settled, PatchFailed, FailedStart;
      hide ExpiresAt, Follows;
      var row := UnresolvedRow(opId, id, namespace, deployment, image, env.Now());
      op := row;
      ghost var m := env.rows;
      var ok := env.Put(row);
      if !ok {
        return "", op;
      }
      ghost var n := env.rows;
      ghost var before := env.trace;
      PutFollows(op, old(env.rows), n, env.reserved);
      var upd := FailOperation(row, None, "K8S_PATCH_FAILED", "resolve container");
      InterferesTransitive(m, n, env.rows, env.reserved);
      PatchFailedEnds(old(env.trace), before, env.trace, env.rows, op, false, upd);
      return opId, op;
    }

    /** As Restart, once the container is known. Without one in the request it
        is the deployment's only container; several are the caller's choice and
        leave no row; none, or an unreadable deployment, leaves a failed row. */
    method Rollout(opId: string, id: Identity, namespace: string, deployment: string, container: string,
                   image: string)
        returns (result: string, err: StartError, ghost op: Operation, ghost read: Option<Deployment>,
                 ghost got: KubeResult)
      requires Keyed(env.rows)
      requires opId in env.reserved && opId !in env.rows
      modifies env`clock, env`rows, env`ctxDone, env`failures, env`reserved, env`trace, env`seen, env`kube
      ensures env.reserved <= old(env.reserved) && env.Passed()
      ensures RolloutEnds(old(env.trace), env.trace, opId, id, namespace, deployment, container, image,
                          read, op, result, err)
      ensures env.seen == old(env.seen) + (if read.Some? then [Sight(namespace, deployment, read.value)] else [])
      ensures err == Ambiguous <==> container == "" && read.Some? && |read.value.containers| > 1
      ensures err == Panicked <==> container == "" && read.Some? && read.value.containers == [""]
      ensures old(env.trace) <= env.trace && result == if env.trace == old(env.trace) then "" else opId
      ensures env.trace != old(env.trace) ==>
                var unresolved := container == "" && (read.None? || read.value.containers == []);
                && op.operationId == opId && op.status == Running && op.errorCode == "" && op.errorMessage == ""
                && op.details == Details(if unresolved then id.(repositoryOwner := "") else id, "deployment.rollout",
                                         namespace, deployment, op.details.container, image,
                                         namespace + "#" + deployment, ExpiresAt(op.requestedAt))
                && (if unresolved then op.details.container == ""
                    else if container != "" then op.details.container == container
                    else op.details.container != "" && read.value.containers == [op.details.container])
                && env.ReadSince(op.requestedAt) && op.completedAt == None
                && op.events == [AuditEvent("REQUESTED", op.requestedAt)]
                                + if unresolved then [] else [AuditEvent("STARTED", op.requestedAt)]
      ensures forall i :: |old(env.trace)| <= i < |env.trace| && env.trace[i].PutFx? ==>
                i == |old(env.trace)| && env.trace[i].op == op
      ensures forall i :: |old(env.trace)| <= i < |env.trace| && env.trace[i].PatchFx? ==>
                && i == |old(env.trace)| + 1
                && env.trace[i] == PatchFx("deployment.rollout", namespace, deployment, env.trace[i].container, image)
                && env.trace[i].container != ""
                && (if container != "" then env.trace[i].container == container
                    else read.Some? && read.value.containers == [env.trace[i].container])
      ensures err == NoError <==>
              env.trace == old(env.trace) + [PutFx(op),
                                             PatchFx("deployment.rollout", namespace, deployment,
                                                     op.details.container, image),
                                             StartedFx(op)]
      ensures env.trace == old(env.trace) && err == StartFailed ==> env.failures[opId] > old(env.failures)[opId]
      ensures container == "" ==> read == if got.Read? then Some(got.dep) else None
      ensures env.kube == old(env.kube)
                          + (if container == "" then [Got(namespace, deployment, got)] else [])
                          + if env.trace == old(env.trace) || op.details.container == "" then []
                            else [Patched("deployment.rollout", namespace, deployment, op.details.container, image,
                                          err == NoError)]
      ensures err == NoError ==> Follows(op, env.rows)
    {
      result, err, op, read, got := StartRollout(opId, id, namespace, deployment, container, image);
      RolloutMeans(old(env.trace), env.trace, opId, id, namespace, deployment, container, image, read, op, result, err);
    }

    /** Rollout, with what it did in one predicate. */
    method StartRollout(opId: string, id: Identity, namespace: string, deployment: string, container: string,
                        image: string)
        returns (result: string, err: StartError, ghost op: Operation, ghost read: Option<Deployment>,
                 ghost got: KubeResult)
      requires Keyed(env.rows)
      requires opId in env.reserved && opId !in env.rows
      modifies env`clock, env`rows, env`ctxDone, env`failures, env`reserved, env`trace, env`seen, env`kube
      ensures env.reserved <= old(env.reserved) && env.Passed()
      ensures RolloutEnds(old(env.trace), env.trace, opId, id, namespace, deployment, container, image,
                          read, op, result, err)
      ensures env.ReadSince(op.requestedAt)
      ensures env.trace == old(env.trace) && err == StartFailed ==> env.failures[opId] > old(env.failures)[opId]
      ensures container == "" ==> read == if got.Read? then Some(got.dep) else None
      ensures env.kube == old(env.kube)
                          + (if container == "" then [Got(namespace, deployment, got)] else [])
                          + if env.trace == old(env.trace) || op.details.container == "" then []
                            else [Patched(op.details.action, op.details.namespace, op.details.deployment,
                                          op.details.container, op.details.image, err == NoError)]
      ensures ReadOnly(old(env.seen), env.seen, namespace, deployment, read)
      ensures err == NoError ==> Follows(op, env.rows)
    {
      hide StartedRow, UnresolvedRow, StartEnds, PatchFailed, Interferes, Follows, ExpiresAt;
      var name := container;
      ghost var m := env.rows;
      InterferesRefl(m, env.reserved);
      read, got := None, Unreadable;
      op := UnresolvedRow(opId, id, namespace, deployment, image, env.Now());
      UnresolvedRowHas(opId, id, namespace, deployment, image, env.Now());
      if container == "" {
        var resolved;
        resolved, read, got := ResolveContainer(namespace, deployment);
        if resolved.Choose? {
          return "", Ambiguous, op, read, got;
        }
        if resolved.Resolved? && resolved.name == "" {
          return "", Panicked, op, read, got;
        }
        if resolved.Unresolved? {
          ghost var n := env.rows;
          StillFree(m, n, env.reserved, opId);
          result, op := RecordFailedRollout(opId, id, namespace, deployment, image);
          InterferesLess(m, n, old(env.reserved), env.reserved);
          InterferesTransitive(m, n, env.rows, env.reserved);
          return result, StartFailed, op, read, got;
        }
        name := resolved.name;
      }
      ghost var n := env.rows;
      StillFree(m, n, env.reserved, opId);
      var row := StartedRow(opId, id, ACTION_ROLLOUT, namespace, deployment, name, image, env.Now());
      StartedRowHas(opId, id, ACTION_ROLLOUT, namespace, deployment, name, image, env.Now());
      op := row;
      result, err := Start(row);
      InterferesLess(m, n, old(env.reserved), env.reserved);
      InterferesTransitive(m, n, env.rows, env.reserved);
    }
  }
}
