/** What the manager's methods are proved against: the rows it composes, the
    effects of a start and of a terminal attempt, the verdicts of a watch and of
    a sweep, and the backoff schedule. */
module ManagerSpec {
  import opened Outcomes
  import opened Timestamps
  import opened Operations
  import opened Rollout
  import opened Interference
  import opened StoreSpec
  import opened World

  const WATCH_GRACE: int := 120 * SECOND
  const MAX_BACKOFF: int := 15 * SECOND
  const YEAR_SECONDS: int := 365 * 24 * 60 * 60
  const UNIX_EPOCH: Time := Timestamp(1970, 1, 1, 0, 0, 0, 0)

  function ExpiresAt(now: Time): int {
    (Nanos(now) - Nanos(UNIX_EPOCH)) / SECOND + YEAR_SECONDS
  }

  /** A row as it is first written. */
  function NewRow(opId: string, id: Identity, action: string, namespace: string, deployment: string,
                  container: string, image: string, now: Time, status: Status, code: string, message: string,
                  events: seq<string>): Operation
  {
    Operation(opId, Details(id, action, namespace, deployment, container, image,
                            namespace + "#" + deployment, ExpiresAt(now)),
              status, code, message, now, None,
              seq(|events|, i requires 0 <= i < |events| => AuditEvent(events[i], now)))
  }

  function StartedRow(opId: string, id: Identity, action: string, namespace: string, deployment: string,
                      container: string, image: string, now: Time): Operation
  {
    NewRow(opId, id, action, namespace, deployment, container, image, now, Running, "", "", ["REQUESTED", "STARTED"])
  }

  /** The effects of one terminal attempt: the write, and the notification if
      and only if this writer won. */
  function Attempt(op: Operation, msg: Option<nat>, upd: TerminalUpdate, won: bool): seq<Effect> {
    [TerminalFx(op.operationId, upd, won)] + if won then [ResolvedFx(Final(op, upd), msg)] else []
  }

  /** The row with the outcome of a terminal write, but for its event list. */
  function Final(op: Operation, upd: TerminalUpdate): Operation {
    op.(status := upd.status, errorCode := upd.errorCode, errorMessage := upd.errorMessage,
        completedAt := Some(upd.completedAt))
  }

  /** One attempt was made between the two traces; what is announced after a
      win is the stored row, up to its event list. */
  predicate Attempted(before: seq<Effect>, after: seq<Effect>, rows: Table, op: Operation, msg: Option<nat>,
                      upd: TerminalUpdate)
  {
    || after == before + Attempt(op, msg, upd, false)
    || (&& after == before + Attempt(op, msg, upd, true)
        && op.operationId in rows
        && rows[op.operationId] == Final(op, upd).(events := op.events + [AuditEvent(upd.event, upd.completedAt)]))
  }

  /** An attempt puts and patches nothing. */
  lemma AttemptStarts(before: seq<Effect>, after: seq<Effect>, rows: Table, op: Operation, msg: Option<nat>,
                      upd: TerminalUpdate)
    requires Attempted(before, after, rows, op, msg, upd)
    ensures before <= after
    ensures forall i :: |before| <= i < |after| ==> !after[i].PutFx? && !after[i].PatchFx?
  {
  }

  /** The row is terminal, or cannot be addressed in the table's schema, or a
      request made for it has failed since. */
  predicate Settled(id: string, before: multiset<string>, after: multiset<string>, schema: Schema, rows: Table) {
    || after[id] > before[id]
    || (id in rows && (rows[id].status != Running || !Addressable(schema, rows[id])))
  }

  predicate AllSettled(ops: seq<Operation>, before: multiset<string>, after: multiset<string>, schema: Schema,
                       rows: Table)
  {
    forall i :: 0 <= i < |ops| ==> Settled(ops[i].operationId, before, after, schema, rows)
  }

  /** Neither the others nor later requests unsettle a row. */
  lemma SettledStays(id: string, first: multiset<string>, before: multiset<string>, after: multiset<string>,
                     last: multiset<string>, schema: Schema, m: Table, n: Table)
    requires Settled(id, before, after, schema, m) && first <= before && after <= last && TableEvolves(m, n)
    ensures Settled(id, first, last, schema, n)
  {
    assert first[id] <= before[id] && after[id] <= last[id];
    if id in m {
      assert RowEvolves(m[id], n[id]);
    }
  }

  lemma SettledBefore(id: string, first: multiset<string>, before: multiset<string>, after: multiset<string>,
                      schema: Schema, rows: Table)
    requires Settled(id, before, after, schema, rows) && first <= before
    ensures Settled(id, first, after, schema, rows)
  {
    assert first[id] <= before[id];
  }

  lemma NoneSettled(before: multiset<string>, after: multiset<string>, schema: Schema, rows: Table)
    ensures AllSettled([], before, after, schema, rows)
  {
  }

  lemma SettledThen(ops: seq<Operation>, op: Operation, first: multiset<string>, before: multiset<string>,
                    after: multiset<string>, schema: Schema, m: Table, n: Table)
    requires AllSettled(ops, first, before, schema, m) && first <= before <= after && TableEvolves(m, n)
    requires Settled(op.operationId, before, after, schema, n)
    ensures AllSettled(ops + [op], first, after, schema, n)
  {
    hide Settled, TableEvolves;
    forall i | 0 <= i < |ops|
      ensures Settled(ops[i].operationId, first, after, schema, n)
    {
      SettledStays(ops[i].operationId, first, first, before, after, schema, m, n);
    }
    TableEvolvesRefl(n);
    SettledStays(op.operationId, first, before, after, after, schema, n, n);
  }

  lemma TableEvolvesRefl(m: Table)
    ensures TableEvolves(m, m)
  {
  }

  lemma InterferesEvolves(m: Table, n: Table, reserved: set<string>)
    requires Interferes(m, n, reserved)
    ensures TableEvolves(m, n)
  {
  }

  lemma FollowsOn(op: Operation, m: Table, n: Table)
    requires Follows(op, m) && TableEvolves(m, n) && Keyed(n)
    ensures Follows(op, n)
  {
    assert RowEvolves(m[op.operationId], n[op.operationId]);
  }

  lemma FoundKeyed(op: Operation, m: Table, n: Table, reserved: set<string>, id: string)
    requires Keyed(m) && Interferes(m, n, reserved) && id in n && RowEvolves(op, n[id])
    ensures op.operationId == id
  {
  }

  lemma FollowsKeyed(op: Operation, rows: Table)
    requires Follows(op, rows)
    ensures Keyed(rows)
  {
  }

  lemma FoundFollows(op: Operation, rows: Table, id: string)
    requires Keyed(rows) && op.operationId == id && op.status == Running && id in rows && RowEvolves(op, rows[id])
    ensures Follows(op, rows)
  {
    hide RowEvolves;
  }

  /** A resolved row never changes again, so what was announced stays stored. */
  lemma AttemptedStays(before: seq<Effect>, after: seq<Effect>, m: Table, n: Table, op: Operation, msg: Option<nat>,
                       upd: TerminalUpdate)
    requires Attempted(before, after, m, op, msg, upd) && IsResolution(upd.status) && TableEvolves(m, n)
    ensures Attempted(before, after, n, op, msg, upd)
  {
    if after == before + Attempt(op, msg, upd, true) && op.operationId in m {
      assert RowEvolves(m[op.operationId], n[op.operationId]);
    }
  }

  lemma RowEvolvesOn(op: Operation, m: Table, n: Table, reserved: set<string>, id: string)
    requires id in m && RowEvolves(op, m[id]) && Interferes(m, n, reserved)
    ensures id in n && RowEvolves(op, n[id])
  {
    assert RowEvolves(m[id], n[id]);
  }

  /** One more stretch of interference: the operation is still followed. */
  lemma FollowsThrough(op: Operation, m: Table, n: Table, o: Table, reserved: set<string>)
    requires Interferes(m, n, reserved) && Interferes(n, o, reserved) && Follows(op, n)
    ensures Interferes(m, o, reserved) && Follows(op, o)
  {
    InterferesTransitive(m, n, o, reserved);
    FollowsOn(op, n, o);
  }

  /** A row that is still running is the copy that follows it. */
  lemma FollowsMet(op: Operation, rows: Table, met: Operation)
    requires Follows(op, rows)
    ensures RowEvolves(rows[op.operationId], met) && met.status == Running ==> met == op
  {
  }

  /** min(2*backoff, maxBackoff). */
  function NextBackoff(b: int): int { if 2 * b <= MAX_BACKOFF then 2 * b else MAX_BACKOFF }

  function Backoff(k: nat): int { if k == 0 then SECOND else NextBackoff(Backoff(k - 1)) }

  /** The time spent in the first k completed sleeps. */
  function SleepTotal(k: nat): int { if k == 0 then 0 else SleepTotal(k - 1) + Backoff(k - 1) }

  function Pow2(k: nat): int { if k == 0 then 1 else 2 * Pow2(k - 1) }

  lemma BackoffValues(k: nat)
    ensures k <= 3 ==> Backoff(k) == Pow2(k) * SECOND
    ensures k >= 4 ==> Backoff(k) == MAX_BACKOFF
  {
  }

  /** The backoff schedule in closed form. */
  lemma SleepTotalClosed(k: nat)
    ensures k <= 4 ==> SleepTotal(k) == (Pow2(k) - 1) * SECOND
    ensures k >= 4 ==> SleepTotal(k) == 15 * (k - 3) * SECOND
  {
    if k > 0 {
      SleepTotalClosed(k - 1);
      BackoffValues(k - 1);
    }
  }

  lemma StartBackoff()
    ensures Backoff(0) == SECOND && SleepTotal(0) == 0
  {
  }

  lemma NextSleep(k: nat)
    requires Backoff(k) >= SECOND
    ensures SleepTotal(k + 1) == SleepTotal(k) + Backoff(k)
    ensures Backoff(k + 1) == NextBackoff(Backoff(k)) && Backoff(k + 1) >= SECOND
  {
  }

  /** How often a loop can sleep within a budget. */
  lemma SleepsWithin(k: nat, budget: int)
    requires budget >= 0 && SleepTotal(k) < budget
    ensures k <= budget / MAX_BACKOFF + 3
  {
    SleepTotalClosed(k);
    if k >= 4 {
      assert (k - 3) * MAX_BACKOFF < budget;
    }
  }

  /** Past the cutoff, and not one of the rows the query's string comparison
      misses. */
  predicate Overdue(op: Operation, cutoff: Time) {
    Before(op.requestedAt, cutoff) && !Misordered(op.requestedAt, cutoff)
  }

  lemma OverdueListed(m: Table, n: Table, cutoff: Time, id: string)
    requires TableEvolves(m, n) && id in m && Overdue(m[id], cutoff)
    ensures id in n && (n[id].status == Running ==> id in DynPast(n, cutoff))
  {
    hide Misordered, Before, StringLess;
    assert RowEvolves(m[id], n[id]);
    QueryOrder(n[id].requestedAt, cutoff);
  }

  lemma ListedFollows(ops: seq<Operation>, m: Table, n: Table, cutoff: Time, i: int)
    requires Lists(ops, m, n, cutoff) && 0 <= i < |ops|
    ensures Follows(ops[i], n) && Nanos(ops[i].requestedAt) < Nanos(cutoff) + SECOND
  {
    SelectedIsOld(ops[i].requestedAt, cutoff);
  }

  /** The query selects nothing that is not past the cutoff, but for a fraction of
      a second. */
  lemma SelectedIsOld(row: Time, cutoff: Time)
    requires StringLess(Format(row), Format(cutoff))
    ensures Nanos(row) < Nanos(cutoff) + SECOND
  {
    hide StringLess, Format;
    QueryOrder(row, cutoff);
    NanosOrder(row, cutoff);
  }

  /** One terminal attempt of a sweep: of a row past the cutoff, with the verdict
      of a read made since of its own deployment. */
  predicate SweptOne(e: Effect, rows: Table, kube: seq<KubeCall>, from: nat, cutoff: Time) {
    e.TerminalFx? ==>
      && e.id in rows && Nanos(rows[e.id].requestedAt) < Nanos(cutoff) + SECOND
      && exists k :: && from <= k < |kube| && kube[k].Got? && kube[k].namespace == rows[e.id].details.namespace
                     && kube[k].deployment == rows[e.id].details.deployment && VerdictOn(e.upd, kube[k].result)
  }

  /** The verdict of a read. */
  predicate VerdictOn(upd: TerminalUpdate, result: KubeResult) {
    && (upd.status == Succeeded <==> result.Read? && EvaluateRollout(result.dep) == Complete)
    && (upd.status == Failed <==> result.Read? && EvaluateRollout(result.dep) == RolloutFailed)
    && (upd.status == TimedOut <==> !result.Read? || EvaluateRollout(result.dep) == Progressing)
    && upd.errorCode == match upd.status case Succeeded => "" case Failed => "ROLLOUT_FAILED" case _ => "TIMEOUT"
  }

  predicate SweptAll(trace: seq<Effect>, t0: nat, rows: Table, kube: seq<KubeCall>, from: nat, cutoff: Time) {
    t0 <= |trace| && from <= |kube| && forall i :: t0 <= i < |trace| ==> SweptOne(trace[i], rows, kube, from, cutoff)
  }

  lemma SweptStays(trace: seq<Effect>, t0: nat, m: Table, n: Table, kube: seq<KubeCall>, more: seq<KubeCall>,
                   from: nat, cutoff: Time)
    requires SweptAll(trace, t0, m, kube, from, cutoff) && TableEvolves(m, n) && kube <= more
    ensures SweptAll(trace, t0, n, more, from, cutoff)
  {
    hide VerdictOn, Nanos;
    forall i | t0 <= i < |trace|
      ensures SweptOne(trace[i], n, more, from, cutoff)
    {
      var e := trace[i];
      assert SweptOne(e, m, kube, from, cutoff);
      if e.TerminalFx? {
        SameDetails(m, n, e.id);
        var k :| && from <= k < |kube| && kube[k].Got? && kube[k].namespace == m[e.id].details.namespace
                 && kube[k].deployment == m[e.id].details.deployment && VerdictOn(e.upd, kube[k].result);
        assert more[k] == kube[k];
      }
    }
  }

  lemma SameDetails(m: Table, n: Table, id: string)
    requires TableEvolves(m, n) && id in m
    ensures id in n && n[id].details == m[id].details && n[id].requestedAt == m[id].requestedAt
  {
    assert RowEvolves(m[id], n[id]);
  }

  lemma FollowsDetails(op: Operation, rows: Table)
    requires Follows(op, rows)
    ensures op.operationId in rows && rows[op.operationId].details == op.details
    ensures rows[op.operationId].requestedAt == op.requestedAt
  {
  }

  lemma SweptMore(trace: seq<Effect>, after: seq<Effect>, t0: nat, rows: Table, before: seq<KubeCall>,
                  kube: seq<KubeCall>, from: nat, cutoff: Time, op: Operation, upd: TerminalUpdate, result: KubeResult)
    requires SweptAll(trace, t0, rows, kube, from, cutoff) && Attempted(trace, after, rows, op, None, upd)
    requires op.operationId in rows && rows[op.operationId].details == op.details
    requires rows[op.operationId].requestedAt == op.requestedAt && Nanos(op.requestedAt) < Nanos(cutoff) + SECOND
    requires VerdictOn(upd, result) && from <= |before|
    requires kube == before + [Got(op.details.namespace, op.details.deployment, result)]
    ensures trace <= after && SweptAll(after, t0, rows, kube, from, cutoff)
  {
    hide VerdictOn, Nanos;
    assert SweptOne(TerminalFx(op.operationId, upd, true), rows, kube, from, cutoff)
           && SweptOne(TerminalFx(op.operationId, upd, false), rows, kube, from, cutoff) by {
      assert kube[|before|] == Got(op.details.namespace, op.details.deployment, result);
    }
    hide SweptOne;
    assert forall i :: t0 <= i < |trace| ==> after[i] == trace[i];
    assert |after| > |trace| + 1 ==> SweptOne(after[|trace| + 1], rows, kube, from, cutoff) by {
      if |after| > |trace| + 1 { SweptOther(after[|trace| + 1], rows, kube, from, cutoff); }
    }
  }

  lemma NoneSwept(trace: seq<Effect>, rows: Table, kube: seq<KubeCall>, cutoff: Time)
    ensures SweptAll(trace, |trace|, rows, kube, |kube|, cutoff)
  {
  }

  lemma SweptFrom(trace: seq<Effect>, t0: nat, rows: Table, kube: seq<KubeCall>, from: nat, cutoff: Time)
    requires SweptAll(trace, t0, rows, kube, from, cutoff)
    ensures from <= |kube|
  {
  }

  /** Copies of running rows past the cutoff. */
  predicate AllFollowed(ops: seq<Operation>, rows: Table, cutoff: Time) {
    forall i :: 0 <= i < |ops| ==> Follows(ops[i], rows) && Nanos(ops[i].requestedAt) < Nanos(cutoff) + SECOND
  }

  lemma AllFollow(ops: seq<Operation>, m: Table, n: Table, cutoff: Time)
    requires Lists(ops, m, n, cutoff)
    ensures AllFollowed(ops, n, cutoff)
  {
    hide Lists, Follows, Nanos;
    forall i | 0 <= i < |ops|
      ensures Follows(ops[i], n) && Nanos(ops[i].requestedAt) < Nanos(cutoff) + SECOND
    {
      ListedFollows(ops, m, n, cutoff, i);
    }
  }

  lemma FollowedStill(ops: seq<Operation>, i: nat, m: Table, n: Table, cutoff: Time, reserved: set<string>)
    requires AllFollowed(ops, m, cutoff) && i < |ops| && Interferes(m, n, reserved)
    ensures Follows(ops[i], n) && Nanos(ops[i].requestedAt) < Nanos(cutoff) + SECOND
  {
    hide Nanos;
    FollowsOn(ops[i], m, n);
  }

  lemma SweptOther(e: Effect, rows: Table, kube: seq<KubeCall>, from: nat, cutoff: Time)
    requires !e.TerminalFx?
    ensures SweptOne(e, rows, kube, from, cutoff)
  {
  }

  /** A sweep that settled all it listed has settled every overdue row. */
  lemma SweepCovers(m: Table, n: Table, o: Table, cutoff: Time, ops: seq<Operation>, before: multiset<string>,
                    after: multiset<string>, schema: Schema)
    requires TableEvolves(m, n) && TableEvolves(n, o)
    requires Lists(ops, m, n, cutoff)
    requires AllSettled(ops, before, after, schema, o)
    ensures forall id :: id in m && Overdue(m[id], cutoff) ==> Settled(id, before, after, schema, o)
  {
    forall id | id in m && Overdue(m[id], cutoff)
      ensures Settled(id, before, after, schema, o)
    {
      hide Overdue, DynPast;
      OverdueListed(m, n, cutoff, id);
      assert RowEvolves(n[id], o[id]);
      if n[id].status == Running {
        var j :| 0 <= j < |ops| && ops[j].operationId == id;
      }
    }
  }

  /** Requested more than two hours before `now`. */
  predicate Stale(op: Operation, now: Time) {
    Nanos(now) - Nanos(op.requestedAt) > STALE_AFTER
  }

  /** With a calendar that keeps pace, the cutoff separates exactly the stale rows. */
  lemma StaleIsPast(op: Operation, now: Time, cutoff: Time)
    requires Nanos(cutoff) == Nanos(now) - STALE_AFTER
    ensures Stale(op, now) <==> Before(op.requestedAt, cutoff)
  {
    NanosOrder(op.requestedAt, cutoff);
    NanosOrder(cutoff, op.requestedAt);
  }

  /** All are of the operation's deployment, and inconclusive. */
  predicate AllProgressing(op: Operation, seen: seq<Sight>) {
    forall i :: 0 <= i < |seen| ==> ShowsOwn(op, seen[i]) && EvaluateRollout(seen[i].dep) == Progressing
  }

  function SightOf(op: Operation, dep: Deployment): Sight {
    Sight(op.details.namespace, op.details.deployment, dep)
  }

  predicate ShowsOwn(op: Operation, s: Sight) { Shows(s, op.details.namespace, op.details.deployment) }

  /** The verdict is that of the last of these, the first conclusive one. */
  predicate Concludes(op: Operation, seen: seq<Sight>, upd: TerminalUpdate) {
    && seen != []
    && AllProgressing(op, seen[..|seen| - 1])
    && ShowsOwn(op, seen[|seen| - 1])
    && match EvaluateRollout(seen[|seen| - 1].dep)
       case Complete => upd == SuccessUpdate(upd.completedAt)
       case RolloutFailed => upd == FailureUpdate("ROLLOUT_FAILED", "progress deadline exceeded", upd.completedAt)
       case Progressing => false
  }

  /** The deployments among a session's events. */
  function Sights(events: seq<Option<Sight>>): seq<Sight> {
    if events == [] then []
    else Sights(events[..|events| - 1])
         + match events[|events| - 1] { case None => [] case Some(s) => [s] }
  }

  /** What these calls showed of the operation's deployment, in order. */
  function Shown(op: Operation, calls: seq<KubeCall>): seq<Sight> {
    if calls == [] then []
    else Shown(op, calls[..|calls| - 1])
         + match calls[|calls| - 1]
           case Got(_, _, Read(dep)) => [SightOf(op, dep)]
           case Watched(_, _, Some(events)) => Sights(events)
           case _ => []
  }

  lemma {:induction false} ShownThen(op: Operation, a: seq<KubeCall>, b: seq<KubeCall>)
    ensures Shown(op, a + b) == Shown(op, a) + Shown(op, b)
  {
    if b == [] {
      assert a + b == a;
    } else {
      hide Sights, SightOf;
      assert (a + b)[..|a + b| - 1] == a + b[..|b| - 1];
      ShownThen(op, a, b[..|b| - 1]);
    }
  }

  /** One look at the operation's deployment: a read, and a watch session unless
      the read was conclusive. `looked` is what was evaluated, in the order it was
      shown, and all of it unless something was conclusive. */
  predicate Look(op: Operation, calls: seq<KubeCall>, looked: seq<Sight>, done: bool) {
    && 1 <= |calls| <= 2 && OwnGet(op, calls[0]) && (|calls| == 2 ==> OwnWatch(op, calls[1]))
    && (!done ==> |calls| == 2)
    && (if done then looked <= Shown(op, calls) else looked == Shown(op, calls))
  }

  predicate OwnGet(op: Operation, c: KubeCall) {
    c.Got? && c.namespace == op.details.namespace && c.deployment == op.details.deployment
  }

  predicate OwnWatch(op: Operation, c: KubeCall) {
    c.Watched? && c.namespace == op.details.namespace && c.deployment == op.details.deployment
  }

  lemma LookedOnce(op: Operation, got: KubeCall, watched: KubeCall, first: seq<Sight>, more: seq<Sight>, done: bool)
    requires OwnGet(op, got) && OwnWatch(op, watched) && first == Shown(op, [got])
    requires var all := if watched.events.Some? then Sights(watched.events.value) else [];
             if done then more <= all else more == all
    ensures Look(op, [got, watched], first + more, done)
  {
    hide Sights;
    assert [got, watched][..1] == [got];
    assert Shown(op, [got, watched])
           == Shown(op, [got]) + if watched.events.Some? then Sights(watched.events.value) else [];
  }

  /** n rounds of looking and sleeping, with the backoff schedule. */
  predicate Rounds(op: Operation, calls: seq<KubeCall>, n: nat) {
    && |calls| == 3 * n
    && forall i :: 0 <= i < n ==> && OwnGet(op, calls[3 * i]) && OwnWatch(op, calls[3 * i + 1])
                                  && calls[3 * i + 2] == Slept(Backoff(i))
  }

  /** A round's look, and its sleep. */
  lemma OneRound(op: Operation, calls: seq<KubeCall>, looked: seq<Sight>, d: int)
    requires Look(op, calls, looked, false)
    ensures OneMore(op, calls + [Slept(d)], d) && looked == Shown(op, calls + [Slept(d)])
  {
    assert (calls + [Slept(d)])[..|calls|] == calls;
  }

  predicate OneMore(op: Operation, calls: seq<KubeCall>, d: int) {
    |calls| == 3 && OwnGet(op, calls[0]) && OwnWatch(op, calls[1]) && calls[2] == Slept(d)
  }

  lemma RoundsThen(op: Operation, calls: seq<KubeCall>, n: nat, more: seq<KubeCall>)
    requires Rounds(op, calls, n) && OneMore(op, more, Backoff(n))
    ensures Rounds(op, calls + more, n + 1)
  {
    hide OwnGet, OwnWatch, Backoff;
    var all := calls + more;
    forall i | 0 <= i < n + 1
      ensures OwnGet(op, all[3 * i]) && OwnWatch(op, all[3 * i + 1]) && all[3 * i + 2] == Slept(Backoff(i))
    {
      if i == n {
        assert all[3 * n] == more[0] && all[3 * n + 1] == more[1] && all[3 * n + 2] == more[2];
      }
    }
  }

  /** What a watch did: whole rounds, and after them, unless it was given up, one
      last look. */
  predicate WatchLog(op: Operation, calls: seq<KubeCall>, looked: seq<Sight>, rounds: nat, over: bool) {
    && 3 * rounds <= |calls| && Rounds(op, calls[..3 * rounds], rounds)
    && if over then |calls| == 3 * rounds && looked == Shown(op, calls)
       else && 1 <= |calls| - 3 * rounds <= 2 && OwnGet(op, calls[3 * rounds])
            && (|calls| == 3 * rounds + 2 ==> OwnWatch(op, calls[3 * rounds + 1]))
            && looked <= Shown(op, calls)
  }

  lemma LastLook(op: Operation, calls: seq<KubeCall>, looked: seq<Sight>, n: nat, more: seq<KubeCall>, last: seq<Sight>)
    requires Rounds(op, calls, n) && looked == Shown(op, calls) && Look(op, more, last, true)
    ensures WatchLog(op, calls + more, looked + last, n, false)
  {
    hide OwnGet, OwnWatch, Shown, Rounds;
    ShownThen(op, calls, more);
    assert |calls| == 3 * n by { RoundsLength(op, calls, n); }
    assert (calls + more)[..3 * n] == calls;
  }

  lemma RoundsLength(op: Operation, calls: seq<KubeCall>, n: nat)
    requires Rounds(op, calls, n)
    ensures |calls| == 3 * n
  {
  }

  lemma GivenUp(op: Operation, calls: seq<KubeCall>, looked: seq<Sight>, n: nat, more: seq<KubeCall>, last: seq<Sight>)
    requires Rounds(op, calls, n) && looked == Shown(op, calls) && last == Shown(op, more)
    requires more == [] || OneMore(op, more, Backoff(n))
    ensures WatchLog(op, calls + more, looked + last, if more == [] then n else n + 1, true)
  {
    ShownThen(op, calls, more);
    if more != [] {
      RoundsThen(op, calls, n, more);
    }
    hide OwnGet, OwnWatch, Shown, Backoff;
    assert (calls + more)[..|calls + more|] == calls + more;
    assert more == [] ==> calls + more == calls;
  }

  lemma {:induction false} SightsPrefix(events: seq<Option<Sight>>, i: int)
    requires 0 <= i <= |events|
    ensures Sights(events[..i]) <= Sights(events)
    decreases |events|
  {
    if i < |events| {
      SightsPrefix(events[..|events| - 1], i);
      assert events[..|events| - 1][..i] == events[..i];
    } else {
      assert events[..i] == events;
    }
  }

  lemma NextEvent(events: seq<Option<Sight>>, i: int)
    requires 0 <= i < |events|
    ensures Sights(events[..i + 1]) == Sights(events[..i]) + if events[i].None? then [] else [events[i].value]
    ensures Sights(events[..i + 1]) <= Sights(events)
  {
    assert events[..i + 1][..i] == events[..i];
    SightsPrefix(events, i + 1);
  }

  lemma NoneYet(op: Operation)
    ensures AllProgressing(op, []) && Sights([]) == [] && Shown(op, []) == [] && Rounds(op, [], 0)
  {
  }

  lemma OneProgressing(op: Operation, s: Sight)
    requires ShowsOwn(op, s) && EvaluateRollout(s.dep) == Progressing
    ensures AllProgressing(op, [s])
  {
  }

  lemma OneConclusive(op: Operation, s: Sight, upd: TerminalUpdate)
    requires ShowsOwn(op, s)
    requires match EvaluateRollout(s.dep)
             case Complete => upd == SuccessUpdate(upd.completedAt)
             case RolloutFailed =>
               upd == FailureUpdate("ROLLOUT_FAILED", "progress deadline exceeded", upd.completedAt)
             case Progressing => false
    ensures Concludes(op, [s], upd)
  {
    assert [s][..0] == [];
  }

  lemma ProgressingThen(op: Operation, a: seq<Sight>, b: seq<Sight>)
    requires AllProgressing(op, a) && AllProgressing(op, b)
    ensures AllProgressing(op, a + b)
  {
  }

  lemma ConcludesAfter(op: Operation, a: seq<Sight>, b: seq<Sight>, upd: TerminalUpdate)
    requires AllProgressing(op, a) && Concludes(op, b, upd)
    ensures Concludes(op, a + b, upd)
  {
    hide AllProgressing;
    ProgressingThen(op, a, b[..|b| - 1]);
    assert (a + b)[..|a + b| - 1] == a + b[..|b| - 1];
  }

  predicate IsTimeout(upd: TerminalUpdate) {
    upd.status == TimedOut && upd.errorCode == "TIMEOUT"
  }

  lemma NotTimeout(upd: TerminalUpdate)
    requires upd.status != TimedOut
    ensures !IsTimeout(upd)
  {
  }

  /** What a conclusion says, and what none says. */
  lemma ConclusionMeans(op: Operation, seen: seq<Sight>, upd: TerminalUpdate)
    requires Concludes(op, seen, upd)
    ensures seen != [] && upd.status != TimedOut && upd.status != Running && upd.status != Status.Denied
    ensures var last := seen[|seen| - 1].dep;
            && (upd.status == Succeeded <==> EvaluateRollout(last) == Complete)
            && (upd.status == Failed <==> EvaluateRollout(last) == RolloutFailed)
            && upd.errorCode == (if upd.status == Failed then "ROLLOUT_FAILED" else "")
    ensures forall i :: 0 <= i < |seen| ==> && seen[i].namespace == op.details.namespace
                                            && seen[i].deployment == op.details.deployment
    ensures forall i :: 0 <= i < |seen| - 1 ==> EvaluateRollout(seen[i].dep) == Progressing
  {
    hide EvaluateRollout;
    var front := seen[..|seen| - 1];
    assert forall i :: 0 <= i < |front| ==> front[i] == seen[i];
  }

  lemma ProgressingMeans(op: Operation, seen: seq<Sight>)
    requires AllProgressing(op, seen)
    ensures forall i :: 0 <= i < |seen| ==> && seen[i].namespace == op.details.namespace
                                            && seen[i].deployment == op.details.deployment
                                            && EvaluateRollout(seen[i].dep) == Progressing
  {
  }

  lemma EndsAfter(op: Operation, a: seq<Sight>, b: seq<Sight>, upd: TerminalUpdate)
    requires AllProgressing(op, a)
    ensures Concludes(op, b, upd) ==> Concludes(op, a + b, upd)
    ensures AllProgressing(op, b) ==> AllProgressing(op, a + b)
  {
    hide Concludes, AllProgressing;
    if Concludes(op, b, upd) {
      ConcludesAfter(op, a, b, upd);
    }
    if AllProgressing(op, b) {
      ProgressingThen(op, a, b);
    }
  }

  /** How a watch is over: with a conclusion, or given up between rounds. */
  predicate WatchOver(op: Operation, calls: seq<KubeCall>, looked: seq<Sight>, sleeps: nat, rounds: nat,
                      upd: TerminalUpdate)
  {
    || (Concludes(op, looked, upd) && WatchLog(op, calls, looked, rounds, false))
    || (&& WatchLog(op, calls, looked, rounds, true) && (rounds == sleeps || rounds == sleeps + 1)
        && AllProgressing(op, looked) && IsTimeout(upd))
  }

  /** How a round ends the watch. */
  predicate RoundOver(op: Operation, calls: seq<KubeCall>, looked: seq<Sight>, backoff: int, upd: TerminalUpdate) {
    || (Concludes(op, looked, upd) && Look(op, calls, looked, true))
    || (&& AllProgressing(op, looked) && IsTimeout(upd)
        && (calls == [] || OneMore(op, calls, backoff)) && looked == Shown(op, calls))
  }

  /** The rounds before, and the one that ends the watch. */
  lemma WatchEnds(op: Operation, calls: seq<KubeCall>, looked: seq<Sight>, n: nat, made: seq<KubeCall>,
                  more: seq<Sight>, upd: TerminalUpdate)
      returns (rounds: nat)
    requires Rounds(op, calls, n) && looked == Shown(op, calls) && AllProgressing(op, looked)
    requires RoundOver(op, made, more, Backoff(n), upd)
    ensures WatchOver(op, calls + made, looked + more, n, rounds, upd)
  {
    hide Concludes, AllProgressing, Look, OneMore, Rounds, Shown, WatchLog;
    EndsAfter(op, looked, more, upd);
    if Concludes(op, more, upd) && Look(op, made, more, true) {
      rounds := n;
      LastLook(op, calls, looked, n, made, more);
    } else {
      rounds := if made == [] then n else n + 1;
      GivenUp(op, calls, looked, n, made, more);
    }
  }

  /** The same call by call, after the first read. */
  lemma WatchLogMeans(op: Operation, calls: seq<KubeCall>, looked: seq<Sight>, rounds: nat, over: bool)
    requires |calls| >= 1 && OwnGet(op, calls[0]) && WatchLog(op, calls[1..], looked, rounds, over)
    ensures |calls| >= 1 + 3 * rounds
    ensures forall i :: 0 <= i < rounds ==>
              && OwnGet(op, calls[3 * i + 1]) && OwnWatch(op, calls[3 * i + 2])
              && calls[3 * i + 3] == Slept((if i == 0 then 1 else if i == 1 then 2 else if i == 2 then 4
                                            else if i == 3 then 8 else 15) * SECOND)
    ensures over ==> |calls| == 1 + 3 * rounds && looked == Shown(op, calls[1..])
    ensures !over ==> && 2 + 3 * rounds <= |calls| <= 3 + 3 * rounds && looked <= Shown(op, calls[1..])
                      && OwnGet(op, calls[3 * rounds + 1])
                      && (|calls| == 3 + 3 * rounds ==> OwnWatch(op, calls[3 * rounds + 2]))
  {
    hide OwnGet, OwnWatch, Shown, Backoff;
    var rest := calls[1..];
    forall i | 0 <= i < rounds
      ensures && OwnGet(op, calls[3 * i + 1]) && OwnWatch(op, calls[3 * i + 2])
              && calls[3 * i + 3] == Slept((if i == 0 then 1 else if i == 1 then 2 else if i == 2 then 4
                                            else if i == 3 then 8 else 15) * SECOND)
    {
      var round := rest[..3 * rounds];
      assert round[3 * i] == calls[3 * i + 1] && round[3 * i + 1] == calls[3 * i + 2];
      assert round[3 * i + 2] == calls[3 * i + 3];
      BackoffValues(i);
      assert Pow2(0) == 1 && Pow2(1) == 2 && Pow2(2) == 4 && Pow2(3) == 8;
    }
  }

  /** They are all of the operation's own deployment. */
  lemma OwnCalls(op: Operation, calls: seq<KubeCall>, rounds: nat)
    requires 1 + 3 * rounds <= |calls| <= 3 + 3 * rounds && OwnGet(op, calls[0])
    requires forall i :: 0 <= i < rounds ==> && OwnGet(op, calls[3 * i + 1]) && OwnWatch(op, calls[3 * i + 2])
                                             && calls[3 * i + 3].Slept?
    requires |calls| > 1 + 3 * rounds ==> OwnGet(op, calls[3 * rounds + 1])
    requires |calls| > 2 + 3 * rounds ==> OwnWatch(op, calls[3 * rounds + 2])
    ensures forall k :: 0 <= k < |calls| && !calls[k].Slept? ==> OwnGet(op, calls[k]) || OwnWatch(op, calls[k])
  {
    hide OwnGet, OwnWatch;
    forall k | 0 <= k < |calls| && !calls[k].Slept?
      ensures OwnGet(op, calls[k]) || OwnWatch(op, calls[k])
    {
      if 0 < k < 1 + 3 * rounds {
        var i := (k - 1) / 3;
        assert k == 3 * i + 1 || k == 3 * i + 2 || k == 3 * i + 3;
      }
    }
  }

  /** What a watch asked of the API server, call by call. */
  lemma WatchCalls(op: Operation, calls: seq<KubeCall>, looked: seq<Sight>, rounds: nat, over: bool)
    requires |calls| >= 1 && OwnGet(op, calls[0]) && WatchLog(op, calls[1..], looked, rounds, over)
    ensures |calls| >= 1 + 3 * rounds
    ensures forall k :: 0 <= k < |calls| && !calls[k].Slept? ==>
              && (calls[k].Got? || calls[k].Watched?)
              && calls[k].namespace == op.details.namespace && calls[k].deployment == op.details.deployment
    ensures forall i :: 0 <= i < rounds ==>
              && calls[3 * i + 1].Got? && calls[3 * i + 2].Watched?
              && calls[3 * i + 3] == Slept((if i == 0 then 1 else if i == 1 then 2 else if i == 2 then 4
                                            else if i == 3 then 8 else 15) * SECOND)
    ensures over ==> |calls| == 1 + 3 * rounds && looked == Shown(op, calls[1..])
    ensures !over ==> && 2 + 3 * rounds <= |calls| <= 3 + 3 * rounds && looked <= Shown(op, calls[1..])
                      && calls[3 * rounds + 1].Got?
                      && (|calls| == 3 + 3 * rounds ==> calls[3 * rounds + 2].Watched?)
  {
    hide Shown, WatchLog, Sights;
    WatchLogMeans(op, calls, looked, rounds, over);
    OwnCalls(op, calls, rounds);
  }

  /** How a watch ended, by field. */
  lemma WatchMeans(op: Operation, calls: seq<KubeCall>, looked: seq<Sight>, rounds: nat, sleeps: nat,
                   upd: TerminalUpdate)
    requires |calls| >= 1 && OwnGet(op, calls[0])
    requires WatchOver(op, calls[1..], looked, sleeps, rounds, upd)
    ensures forall i :: 0 <= i < |looked| ==> && looked[i].namespace == op.details.namespace
                                              && looked[i].deployment == op.details.deployment
    ensures forall i :: 0 <= i < |looked| - 1 ==> EvaluateRollout(looked[i].dep) == Progressing
    ensures upd.status == Succeeded <==> looked != [] && EvaluateRollout(looked[|looked| - 1].dep) == Complete
    ensures upd.status == Failed <==> looked != [] && EvaluateRollout(looked[|looked| - 1].dep) == RolloutFailed
    ensures upd.status == TimedOut <==> looked == [] || EvaluateRollout(looked[|looked| - 1].dep) == Progressing
    ensures upd.status == TimedOut ==> IsTimeout(upd)
    ensures upd.errorCode == match upd.status
                             case Succeeded => ""
                             case Failed => "ROLLOUT_FAILED"
                             case _ => "TIMEOUT"
    ensures forall k :: 0 <= k < |calls| && !calls[k].Slept? ==>
              && (calls[k].Got? || calls[k].Watched?)
              && calls[k].namespace == op.details.namespace && calls[k].deployment == op.details.deployment
    ensures |calls| >= 1 + 3 * rounds
    ensures forall i :: 0 <= i < rounds ==>
              && calls[3 * i + 1].Got? && calls[3 * i + 2].Watched?
              && calls[3 * i + 3] == Slept((if i == 0 then 1 else if i == 1 then 2 else if i == 2 then 4
                                            else if i == 3 then 8 else 15) * SECOND)
    ensures if upd.status == TimedOut
            then |calls| == 1 + 3 * rounds && looked == Shown(op, calls[1..]) && sleeps <= rounds <= sleeps + 1
            else && 2 + 3 * rounds <= |calls| <= 3 + 3 * rounds && looked <= Shown(op, calls[1..])
                 && calls[3 * rounds + 1].Got?
                 && (|calls| == 3 + 3 * rounds ==> calls[3 * rounds + 2].Watched?)
  {
    hide EvaluateRollout, Concludes, AllProgressing, WatchLog, Shown, OwnGet;
    if Concludes(op, looked, upd) && WatchLog(op, calls[1..], looked, rounds, false) {
      ConclusionMeans(op, looked, upd);
      WatchCalls(op, calls, looked, rounds, false);
    } else {
      ProgressingMeans(op, looked);
      WatchCalls(op, calls, looked, rounds, true);
    }
  }

  datatype StartError = NoError | Ambiguous | StartFailed | Panicked

  /** The row recordFailedRollout writes. */
  function UnresolvedRow(opId: string, id: Identity, namespace: string, deployment: string, image: string,
                         now: Time): Operation
  {
    NewRow(opId, id.(repositoryOwner := ""), ACTION_ROLLOUT, namespace, deployment, "", image, now, Running,
           "", "", ["REQUESTED"])
  }

  /** The patch that carries out a row. */
  function PatchOf(op: Operation): Effect {
    PatchFx(op.details.action, op.details.namespace, op.details.deployment, op.details.container, op.details.image)
  }

  /** The row was written and one failed-patch attempt made, without a handle;
      the patch reported as failed may have landed. */
  ghost predicate PatchFailed(before: seq<Effect>, after: seq<Effect>, op: Operation, landed: bool) {
    exists upd: TerminalUpdate, won ::
      upd.status == Failed && upd.errorCode == "K8S_PATCH_FAILED"
      && after == before + FailedStart(op, landed, upd, won)
  }

  function FailedStart(op: Operation, landed: bool, upd: TerminalUpdate, won: bool): seq<Effect> {
    [PutFx(op)] + (if landed then [PatchOf(op)] else []) + Attempt(op, None, upd, won)
  }

  lemma PatchFailedEnds(start: seq<Effect>, before: seq<Effect>, after: seq<Effect>, rows: Table, op: Operation,
                        landed: bool, upd: TerminalUpdate)
    requires before == start + [PutFx(op)] + (if landed then [PatchOf(op)] else [])
    requires Attempted(before, after, rows, op, None, upd)
    requires upd.status == Failed && upd.errorCode == "K8S_PATCH_FAILED"
    ensures PatchFailed(start, after, op, landed) && after != start
  {
    if after == before + Attempt(op, None, upd, true) {
      assert after == start + FailedStart(op, landed, upd, true);
    } else {
      assert after == start + FailedStart(op, landed, upd, false);
    }
  }

  /** An id of one's own stays unused. */
  lemma StillFree(m: Table, n: Table, reserved: set<string>, id: string)
    requires Keyed(m) && Interferes(m, n, reserved) && id in reserved && id !in m
    ensures Keyed(n) && id !in n
  {
  }

  /** A row just put is followed. */
  lemma PutFollows(op: Operation, m: Table, n: Table, reserved: set<string>)
    requires Keyed(m) && Interferes(m, n, reserved) && op.status == Running
    requires op.operationId in n && n[op.operationId] == op
    ensures Follows(op, n)
  {
    RowEvolvesRefl(op);
  }

  /** What of a row a start depends on. */
  lemma StartedRowHas(opId: string, id: Identity, action: string, namespace: string, deployment: string,
                      container: string, image: string, now: Time)
    ensures var op := StartedRow(opId, id, action, namespace, deployment, container, image, now);
            && op.operationId == opId && op.status == Running && op.requestedAt == now
            && op.details.container == container
  {
  }

  lemma UnresolvedRowHas(opId: string, id: Identity, namespace: string, deployment: string, image: string, now: Time)
    ensures var op := UnresolvedRow(opId, id, namespace, deployment, image, now);
            && op.operationId == opId && op.status == Running && op.requestedAt == now && op.details.container == ""
  {
  }

  lemma RowEvolvesRefl(op: Operation)
    ensures RowEvolves(op, op)
  {
  }

  /** How starting an operation ends: nothing happened; the row is written and
      its patch failed; or row, patch and announcement, in this order. */
  ghost predicate StartEnds(before: seq<Effect>, after: seq<Effect>, op: Operation, result: string, err: StartError) {
    || (err == StartFailed && result == "" && after == before)
    || (err == StartFailed && result == op.operationId
        && (PatchFailed(before, after, op, false) || PatchFailed(before, after, op, true)))
    || (err == NoError && result == op.operationId && after == before + [PutFx(op), PatchOf(op), StartedFx(op)])
  }

  /** The row comes first, then the patch it describes, each at most once. */
  lemma StartEffects(before: seq<Effect>, after: seq<Effect>, op: Operation, result: string, err: StartError)
    requires StartEnds(before, after, op, result, err)
    ensures before <= after && (err == NoError || err == StartFailed)
    ensures result == if after == before then "" else op.operationId
    ensures forall i :: |before| <= i < |after| && after[i].PutFx? ==> i == |before| && after[i].op == op
    ensures forall i :: |before| <= i < |after| && after[i].PatchFx? ==>
              && i == |before| + 1
              && after[i] == PatchFx(op.details.action, op.details.namespace, op.details.deployment,
                                     op.details.container, op.details.image)
    ensures err == NoError <==>
            after == before + [PutFx(op), PatchFx(op.details.action, op.details.namespace, op.details.deployment,
                                                  op.details.container, op.details.image), StartedFx(op)]
  {
    if PatchFailed(before, after, op, false) {
      FailureEffects(before, after, op, false);
    }
    if PatchFailed(before, after, op, true) {
      FailureEffects(before, after, op, true);
    }
  }

  lemma FailureEffects(before: seq<Effect>, after: seq<Effect>, op: Operation, landed: bool)
    requires PatchFailed(before, after, op, landed)
    ensures before <= after && |after| > |before| && !after[|after| - 1].StartedFx?
    ensures forall i :: |before| <= i < |after| && after[i].PutFx? ==> i == |before| && after[i].op == op
    ensures forall i :: |before| <= i < |after| && after[i].PatchFx? ==>
              landed && i == |before| + 1 && after[i] == PatchOf(op)
  {
    var upd, won :| after == before + FailedStart(op, landed, upd, won);
    var made := FailedStart(op, landed, upd, won);
    assert made[0] == PutFx(op);
    assert forall i :: |before| <= i < |after| ==> after[i] == made[i - |before|];
  }

  /** A row expires 365 days after it was requested, to the second. */
  lemma ExpiresAYearLater(now: Time)
    ensures var left := Nanos(now) + 365 * 24 * 60 * 60 * SECOND
                        - (Nanos(Timestamp(1970, 1, 1, 0, 0, 0, 0)) + ExpiresAt(now) * SECOND);
            0 <= left < SECOND
  {
    hide Nanos;
    var since := Nanos(now) - Nanos(UNIX_EPOCH);
    assert since == since / SECOND * SECOND + since % SECOND;
  }

  /** At most one deployment was read since, and it is this one. */
  predicate ReadOnly(before: seq<Sight>, after: seq<Sight>, namespace: string, deployment: string,
                     read: Option<Deployment>)
  {
    after == before + if read.Some? then [Sight(namespace, deployment, read.value)] else []
  }

  /** How Rollout ends, by the container it was given and, when it was given
      none, by the deployment it then read. */
  ghost predicate RolloutEnds(before: seq<Effect>, after: seq<Effect>, opId: string, id: Identity, namespace: string,
                              deployment: string, container: string, image: string, read: Option<Deployment>,
                              op: Operation, result: string, err: StartError)
  {
    if container == "" && (read.None? || |read.value.containers| == 0) then
      // nothing to patch: a failed row, if it could be written
      && err == StartFailed
      && op == UnresolvedRow(opId, id, namespace, deployment, image, op.requestedAt)
      && ((result == "" && after == before) || (result == opId && PatchFailed(before, after, op, false)))
    else if container == "" && |read.value.containers| > 1 then
      err == Ambiguous && result == "" && after == before
    else if container == "" && read.value.containers[0] == "" then
      // a nil error is dereferenced
      err == Panicked && result == "" && after == before
    else
      var name := if container == "" then read.value.containers[0] else container;
      && op == StartedRow(opId, id, ACTION_ROLLOUT, namespace, deployment, name, image, op.requestedAt)
      && StartEnds(before, after, op, result, err)
  }

  /** The same by field. */
  lemma RolloutMeans(before: seq<Effect>, after: seq<Effect>, opId: string, id: Identity, namespace: string,
                     deployment: string, container: string, image: string, read: Option<Deployment>, op: Operation,
                     result: string, err: StartError)
    requires RolloutEnds(before, after, opId, id, namespace, deployment, container, image, read, op, result, err)
    ensures before <= after && result == if after == before then "" else opId
    ensures err == Ambiguous <==> container == "" && read.Some? && |read.value.containers| > 1
    ensures err == Panicked <==> container == "" && read.Some? && read.value.containers == [""]
    ensures after != before ==>
              var unresolved := container == "" && (read.None? || read.value.containers == []);
              && op.operationId == opId && op.status == Running && op.errorCode == "" && op.errorMessage == ""
              && op.details == Details(if unresolved then id.(repositoryOwner := "") else id, "deployment.rollout",
                                       namespace, deployment, op.details.container, image,
                                       namespace + "#" + deployment, ExpiresAt(op.requestedAt))
              && (if unresolved then op.details.container == ""
                  else if container != "" then op.details.container == container
                  else op.details.container != "" && read.value.containers == [op.details.container])
              && op.completedAt == None
              && op.events == [AuditEvent("REQUESTED", op.requestedAt)]
                              + if unresolved then [] else [AuditEvent("STARTED", op.requestedAt)]
    ensures forall i :: |before| <= i < |after| && after[i].PutFx? ==> i == |before| && after[i].op == op
    ensures forall i :: |before| <= i < |after| && after[i].PatchFx? ==>
              && i == |before| + 1
              && after[i] == PatchFx("deployment.rollout", namespace, deployment, op.details.container, image)
              && op.details.container != ""
    ensures err == NoError <==>
            after == before + [PutFx(op), PatchFx("deployment.rollout", namespace, deployment, op.details.container,
                                                  image), StartedFx(op)]
  {
    hide ExpiresAt, PatchFailed;
    if container == "" && (read.None? || |read.value.containers| == 0) {
      if PatchFailed(before, after, op, false) {
        FailureEffects(before, after, op, false);
      }
    } else if container != "" || (|read.value.containers| == 1 && read.value.containers[0] != "") {
      StartEffects(before, after, op, result, err);
    }
  }

  datatype Container = Resolved(name: string) | Choose | Unresolved
}
