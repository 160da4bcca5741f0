/** The audit row of one deploy and what a terminal write does to it. */
module Operations {
  import CacheKeys
  import opened Outcomes
  import opened Timestamps

  datatype Status = Running | Succeeded | Failed | TimedOut | Denied

  datatype AuditEvent = AuditEvent(event: string, at: Time)

  /** Who asked, as taken from the verified token. */
  datatype Identity = Identity(repository: string, repositoryId: string, repositoryOwner: string,
                               actor: string, workflow: string, workflowRef: string,
                               runId: string, runAttempt: string, eventName: string)

  /** The fields of a row that are written once and never updated. */
  datatype Details = Details(id: Identity, action: string, namespace: string, deployment: string,
                             container: string, image: string, nsDep: string, expiresAt: int)

  datatype Operation = Operation(operationId: string, details: Details, status: Status,
                                 errorCode: string, errorMessage: string,
                                 requestedAt: Time, completedAt: Option<Time>, events: seq<AuditEvent>)
  {
    predicate Terminal() { status != Running }
  }

  /** The authorization question behind a row. */
  predicate Asks(req: CacheKeys.Request, op: Operation) {
    && req.repository == op.details.id.repository && req.action == op.details.action
    && req.namespace == op.details.namespace && req.deployment == op.details.deployment
  }

  datatype TerminalUpdate = TerminalUpdate(status: Status, event: string, errorCode: string,
                                           errorMessage: string, completedAt: Time)

  const ACTION_RESTART := "deployment.restart"
  const ACTION_ROLLOUT := "deployment.rollout"

  /** A row older than this may be resolved by the sweep or by a lazy GET. */
  const STALE_AFTER: int := 2 * 60 * 60 * SECOND

  /** The updates the manager issues: success, failure and timeout. */
  function SuccessUpdate(at: Time): TerminalUpdate {
    TerminalUpdate(Succeeded, "SUCCEEDED", "", "", at)
  }

  function FailureUpdate(code: string, message: string, at: Time): TerminalUpdate {
    TerminalUpdate(Failed, "FAILED", code, message, at)
  }

  function TimeoutUpdate(message: string, at: Time): TerminalUpdate {
    TerminalUpdate(TimedOut, "TIMEOUT", "TIMEOUT", message, at)
  }

  predicate IsResolution(status: Status) {
    status == Succeeded || status == Failed || status == TimedOut
  }

  /** A copy with the terminal fields replaced; its events are left alone. */
  function ApplyTerminal(op: Operation, upd: TerminalUpdate): Operation {
    op.(status := upd.status, errorCode := upd.errorCode, errorMessage := upd.errorMessage,
        completedAt := Some(upd.completedAt))
  }

  /** What a won terminal write leaves in the store; `at` is the event's stamp. */
  function Resolve(op: Operation, upd: TerminalUpdate, at: Time): Operation {
    ApplyTerminal(op, upd).(events := op.events + [AuditEvent(upd.event, at)])
  }

  /** How one row may change over its whole life: not at all, or once, from
      running to a resolution that adds one event and keeps every other field. */
  predicate RowEvolves(a: Operation, b: Operation) {
    || a == b
    || (&& a.status == Running
        && IsResolution(b.status)
        && b.(status := a.status, errorCode := a.errorCode, errorMessage := a.errorMessage,
              completedAt := a.completedAt, events := a.events) == a
        && |b.events| == |a.events| + 1
        && b.events[..|a.events|] == a.events)
  }

  type Table = map<string, Operation>

  /** No row disappears, and each one evolves. */
  predicate TableEvolves(m: Table, n: Table) {
    forall id :: id in m ==> id in n && RowEvolves(m[id], n[id])
  }

  lemma TableEvolvesTransitive(m: Table, n: Table, o: Table)
    requires TableEvolves(m, n) && TableEvolves(n, o)
    ensures TableEvolves(m, o)
  {
    forall id | id in m
      ensures id in o && RowEvolves(m[id], o[id])
    {
      assert RowEvolves(m[id], n[id]) && RowEvolves(n[id], o[id]);
    }
  }

  lemma ResolveEvolves(op: Operation, upd: TerminalUpdate, at: Time)
    requires op.status == Running && IsResolution(upd.status)
    ensures RowEvolves(op, Resolve(op, upd, at))
  {
    var b := Resolve(op, upd, at);
    assert b.events[..|op.events|] == op.events;
  }

  /* The in-memory store stamps a terminal event with its own clock, DynamoDB's
     with the update's completion time: rows are compared without event times. */

  function EventNames(events: seq<AuditEvent>): (names: seq<string>)
    ensures |names| == |events|
    ensures forall i :: 0 <= i < |events| ==> names[i] == events[i].event
  {
    seq(|events|, i requires 0 <= i < |events| => events[i].event)
  }

  predicate SameRow(a: Operation, b: Operation) {
    && a.(events := []) == b.(events := [])
    && EventNames(a.events) == EventNames(b.events)
  }

  predicate SameTable(m: Table, n: Table) {
    && m.Keys == n.Keys
    && forall id :: id in m ==> SameRow(m[id], n[id])
  }

  lemma ResolveSame(a: Operation, b: Operation, upd: TerminalUpdate, s: Time, t: Time)
    requires SameRow(a, b)
    ensures SameRow(Resolve(a, upd, s), Resolve(b, upd, t))
  {
    var x, y := Resolve(a, upd, s), Resolve(b, upd, t);
    assert x.(events := []) == ApplyTerminal(a.(events := []), upd);
    assert y.(events := []) == ApplyTerminal(b.(events := []), upd);
    assert EventNames(x.events) == EventNames(a.events) + [upd.event];
    assert EventNames(y.events) == EventNames(b.events) + [upd.event];
  }
}
