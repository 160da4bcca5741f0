/** The operation lifecycle as a transition system: request threads, watchers,
    sweeps and lazy GETs run concurrently, one atomic action at a time, and
    nothing coordinates them but the conditional write. A terminal write is two
    actions: a scan, which may answer from any earlier state of the table, and
    the conditional write. `used`, `birth`, `won`, `patched`, `started`, `why`,
    `past` and `trace` record history; no actor reads them. */
module Protocol {
  import CacheKeys
  import opened Outcomes
  import opened Timestamps
  import opened Operations
  import opened Rollout

  /** A request's patch lands, if at all, within the router's 30s of the row's
      timestamp (the request context is cancelled then). */
  const PATCH_BUDGET: int := 30 * SECOND

  datatype Target = Target(namespace: string, deployment: string)

  function TargetOf(op: Operation): Target {
    Target(op.details.namespace, op.details.deployment)
  }

  /** Identifies a chat message handle returned by Started. */
  type Handle = nat

  datatype Event =
    | Decided(req: CacheKeys.Request, allowed: bool)
    | RowPut(op: Operation)
    | PatchLanded(id: string, target: Target)
    | StartAnnounced(id: string, msg: Option<Handle>)
    | TerminalWritten(id: string, upd: TerminalUpdate)
    | ResolvedAnnounced(op: Operation, msg: Option<Handle>)

  /** The template revisions of one deployment: generation g has revs[g-1].
      Templates are numbered in the order of their first use; an edit may keep the
      template, or bring an older one back. */
  type Revisions = seq<nat>

  /** What one read of a deployment shows: the API object and the pod set its
      counters were taken from. */
  datatype Observation = Observation(dep: Deployment, pods: set<Pod>, revs: Revisions)

  /** The API server's side of an observation: the generation is the number of
      specs so far, the controller is not ahead of it, and the counters are one
      consistent count against the template the controller has observed. */
  predicate Faithful(obs: Observation) {
    && obs.dep.generation == |obs.revs|
    && obs.dep.observedGeneration <= |obs.revs|
    && (1 <= obs.dep.observedGeneration ==>
          CountedFrom(obs.dep, obs.pods, obs.revs[obs.dep.observedGeneration - 1]))
  }

  /** The generation and template revision a patch produced. */
  datatype PatchMark = PatchMark(generation: nat, rev: nat)

  /** Where an actor stands between two of its atomic actions. */
  datatype Pc =
    | Granted(req: CacheKeys.Request)
    | Refused(req: CacheKeys.Request)
    | Putting(op: Operation, willPatch: bool)
    | Patching(op: Operation)
    | Announcing(op: Operation)
    | Watching(op: Operation, msg: Option<Handle>, since: nat)
    | Ready
    | Finding(op: Operation, msg: Option<Handle>, upd: TerminalUpdate, seen: Option<Observation>)
    | Writing(op: Operation, msg: Option<Handle>, upd: TerminalUpdate, seen: Option<Observation>, key: Time)
    | Winning(op: Operation, msg: Option<Handle>, upd: TerminalUpdate)

  /** An operation to resolve, and how many revisions its deployment had when it
      was listed: a read made for it shows no older state. */
  datatype Listed = Listed(op: Operation, since: nat)

  /** `rest`: operations this actor listed and has not resolved yet. */
  datatype Actor = Actor(pc: Pc, rest: seq<Listed>)

  datatype Sys = Sys(now: Time,
                     rows: Table,
                     clusters: map<Target, Revisions>,
                     actors: map<nat, Actor>,
                     used: set<string>,
                     past: seq<Table>,
                     birth: Table,
                     won: map<string, TerminalUpdate>,
                     patched: map<string, PatchMark>,
                     started: map<string, Option<Handle>>,
                     why: map<string, Observation>,
                     trace: seq<Event>)

  predicate Init(s: Sys) {
    && s.rows == map[] && s.actors == map[] && s.used == {} && s.past == [s.rows]
    && s.birth == map[] && s.won == map[] && s.patched == map[] && s.started == map[] && s.why == map[]
    && s.trace == []
    && forall t :: t in s.clusters ==> s.clusters[t] != []
  }

  /** What one actor may do without changing anything shared. */
  datatype Act =
    | PatchFails(message: string)
    | WatchSees(obs: Observation)
    | WatchExpires(message: string)
    | SweepSees(obs: Observation, message: string)
    | SweepUnreadable(message: string)
    | Skip
    | Find(snapshot: nat)
    | GiveUp

  /** Every choice the environment and the scheduler make is in the step. */
  datatype Step =
    | Tick(to: Time)
    | EditCluster(target: Target, rev: nat)
    | Decide(a: nat, req: CacheKeys.Request, allowed: bool)
    | PutDenied(a: nat, op: Operation)
    | Begin(a: nat, op: Operation, willPatch: bool)
    | Put(a: nat, message: string)
    | Patch(a: nat, rev: nat, reply: Option<string>)
    | Announce(a: nat, msg: Option<Handle>)
    | List(a: nat, ops: seq<Operation>)
    | Move(a: nat, act: Act)
    | Write(a: nat)
    | Notify(a: nat)

  /* ------------------------------------------------------------------ */
  /* Enabling conditions                                                  */
  /* ------------------------------------------------------------------ */

  /** A row as Restart, Rollout or recordFailedRollout first writes it. */
  predicate NewRow(s: Sys, op: Operation, status: Status) {
    && op.operationId !in s.used
    && op.status == status
    && op.requestedAt == s.now
    && op.completedAt == None
  }

  predicate At(s: Sys, a: nat) { a in s.actors }

  /** A row some scan can have returned to a lister: running in some state of
      the table so far and past the cutoff. */
  predicate Listable(s: Sys, op: Operation) {
    && (exists j :: 0 <= j < |s.past| && op.operationId in s.past[j] && s.past[j][op.operationId] == op)
    && op.status == Running
    && Nanos(op.requestedAt) + STALE_AFTER < Nanos(s.now)
  }

  /** A read or a watch event shows the deployment as it was at some moment since
      the actor began looking: it may be delayed by any number of revisions. */
  predicate Sees(s: Sys, op: Operation, since: nat, obs: Observation) {
    && Faithful(obs)
    && TargetOf(op) in s.clusters
    && obs.revs <= s.clusters[TargetOf(op)]
    && since <= |obs.revs|
  }

  predicate CanAct(s: Sys, actor: Actor, act: Act) {
    match act
    case PatchFails(_) => actor.pc.Patching?
    case WatchSees(obs) =>
      actor.pc.Watching? && Sees(s, actor.pc.op, actor.pc.since, obs) && EvaluateRollout(obs.dep) != Progressing
    case WatchExpires(_) => actor.pc.Watching?
    case SweepSees(obs, _) =>
      actor.pc.Ready? && actor.rest != [] && Sees(s, actor.rest[0].op, actor.rest[0].since, obs)
    case SweepUnreadable(_) => actor.pc.Ready? && actor.rest != []
    case Skip => actor.pc.Ready? && actor.rest != []
    case Find(j) => actor.pc.Finding? && j < |s.past| && actor.pc.op.operationId in s.past[j]
    case GiveUp => !actor.pc.Winning?
  }

  predicate Enabled(s: Sys, step: Step) {
    match step
    case Tick(to) => Nanos(s.now) <= Nanos(to)
    case EditCluster(_, _) => true
    case Decide(a, _, _) => a !in s.actors
    case PutDenied(a, op) =>
      At(s, a) && s.actors[a].pc.Refused? && Asks(s.actors[a].pc.req, op) && NewRow(s, op, Denied)
    case Begin(a, op, _) =>
      At(s, a) && s.actors[a].pc.Granted? && Asks(s.actors[a].pc.req, op) && NewRow(s, op, Running)
    case Put(a, _) => At(s, a) && s.actors[a].pc.Putting?
    case Patch(a, rev, _) =>
      && At(s, a) && s.actors[a].pc.Patching?
      && var op := s.actors[a].pc.op;
      && TargetOf(op) in s.clusters
      && Nanos(s.now) <= Nanos(op.requestedAt) + PATCH_BUDGET
         // the restartedAt stamp changes the template, so the revision is new
      && (forall r :: r in s.clusters[TargetOf(op)] ==> r < rev)
    case Announce(a, msg) =>
      && At(s, a) && s.actors[a].pc.Announcing?
      && (msg.Some? ==> msg !in s.started.Values)
    case List(a, ops) => a !in s.actors && forall op :: op in ops ==> Listable(s, op)
    case Move(a, act) => At(s, a) && CanAct(s, s.actors[a], act)
    case Write(a) => At(s, a) && s.actors[a].pc.Writing?
    case Notify(a) => At(s, a) && s.actors[a].pc.Winning?
  }

  /* ------------------------------------------------------------------ */
  /* Effects                                                              */
  /* ------------------------------------------------------------------ */

  function Goto(s: Sys, a: nat, pc: Pc): Sys {
    s.(actors := s.actors[a := Actor(pc, if a in s.actors then s.actors[a].rest else [])])
  }

  function Emit(s: Sys, e: Event): Sys {
    s.(trace := s.trace + [e])
  }

  /** A first write: the table is replaced and remembered for stale scans. */
  function StoreNew(s: Sys, op: Operation): Sys {
    var rows := s.rows[op.operationId := op];
    s.(rows := rows, past := s.past + [rows], birth := s.birth[op.operationId := op],
       trace := s.trace + [RowPut(op)])
  }

  /** The verdict of a watch or sweep read; the sweep treats a rollout still
      progressing past every deadline as a timeout. */
  function Verdict(e: Evaluation, message: string, now: Time): (upd: TerminalUpdate)
    ensures upd.completedAt == now
    ensures upd.status == Succeeded <==> e == Complete
    ensures upd.status == Failed <==> e == RolloutFailed
    ensures upd.status == TimedOut <==> e == Progressing
  {
    match e
    case Complete => SuccessUpdate(now)
    case RolloutFailed => FailureUpdate("ROLLOUT_FAILED", "progress deadline exceeded", now)
    case Progressing => TimeoutUpdate(message, now)
  }

  function Revs(s: Sys, t: Target): Revisions {
    if t in s.clusters then s.clusters[t] else []
  }

  /** The conditional write: it succeeds only on a row that is still running
      under the key the scan returned. */
  predicate WriteWins(s: Sys, a: nat)
    requires At(s, a) && s.actors[a].pc.Writing?
  {
    var pc := s.actors[a].pc;
    var id := pc.op.operationId;
    id in s.rows && s.rows[id].requestedAt == pc.key && s.rows[id].status == Running
  }

  function Won(s: Sys, a: nat): Sys
    requires At(s, a) && s.actors[a].pc.Writing? && WriteWins(s, a)
  {
    var pc := s.actors[a].pc;
    var id := pc.op.operationId;
    var rows := s.rows[id := Resolve(s.rows[id], pc.upd, pc.upd.completedAt)];
    s.(rows := rows, past := s.past + [rows], won := s.won[id := pc.upd],
       why := if pc.seen.Some? then s.why[id := pc.seen.value] else s.why,
       trace := s.trace + [TerminalWritten(id, pc.upd)],
       actors := s.actors[a := Actor(Winning(pc.op, pc.msg, pc.upd), s.actors[a].rest)])
  }

  /** The patch lands. Its reply may still be lost, in which case the actor goes
      on to report a failure. */
  function Patched(s: Sys, a: nat, rev: nat, reply: Option<string>): Sys
    requires At(s, a) && s.actors[a].pc.Patching?
  {
    var op := s.actors[a].pc.op;
    var target := TargetOf(op);
    var revs := Revs(s, target) + [rev];
    s.(clusters := s.clusters[target := revs],
       patched := s.patched[op.operationId := PatchMark(|revs|, rev)],
       trace := s.trace + [PatchLanded(op.operationId, target)],
       actors := s.actors[a := Actor(AfterPatch(op, reply, s.now), s.actors[a].rest)])
  }

  /** Restart and Rollout go on to the patch, a failed container lookup to its
      failure write. */
  function AfterPut(op: Operation, willPatch: bool, message: string, now: Time): Pc {
    if willPatch then Patching(op) else Finding(op, None, FailureUpdate("K8S_PATCH_FAILED", message, now), None)
  }

  function AfterPatch(op: Operation, reply: Option<string>, now: Time): Pc {
    match reply
    case None => Announcing(op)
    case Some(message) => Finding(op, None, FailureUpdate("K8S_PATCH_FAILED", message, now), None)
  }

  function Announced(s: Sys, a: nat, msg: Option<Handle>): Sys
    requires At(s, a) && s.actors[a].pc.Announcing?
  {
    var op := s.actors[a].pc.op;
    s.(started := s.started[op.operationId := msg],
       trace := s.trace + [StartAnnounced(op.operationId, msg)],
       actors := s.actors[a := Actor(Watching(op, msg, |Revs(s, TargetOf(op))|), s.actors[a].rest)])
  }

  function Listing(s: Sys, ops: seq<Operation>): seq<Listed> {
    seq(|ops|, i requires 0 <= i < |ops| => Listed(ops[i], |Revs(s, TargetOf(ops[i]))|))
  }

  /** resolveRunning on the next listed operation. */
  function Swept(act: Actor, upd: TerminalUpdate, seen: Option<Observation>): Actor
    requires act.rest != []
  {
    Actor(Finding(act.rest[0].op, None, upd, seen), act.rest[1..])
  }

  /** Where an actor stands after acting. */
  function Moved(s: Sys, actor: Actor, act: Act): Actor
    requires CanAct(s, actor, act)
  {
    var pc := actor.pc;
    match act
    case PatchFails(message) =>
      actor.(pc := Finding(pc.op, None, FailureUpdate("K8S_PATCH_FAILED", message, s.now), None))
    case WatchSees(obs) =>
      actor.(pc := Finding(pc.op, pc.msg, Verdict(EvaluateRollout(obs.dep), "", s.now), Some(obs)))
    case WatchExpires(message) => actor.(pc := Finding(pc.op, pc.msg, TimeoutUpdate(message, s.now), None))
    case SweepSees(obs, message) => Swept(actor, Verdict(EvaluateRollout(obs.dep), message, s.now), Some(obs))
    case SweepUnreadable(message) => Swept(actor, TimeoutUpdate(message, s.now), None)
    case Skip => Actor(Ready, actor.rest[1..])
    case Find(j) =>
      actor.(pc := Writing(pc.op, pc.msg, pc.upd, pc.seen, s.past[j][pc.op.operationId].requestedAt))
    case GiveUp => actor.(pc := Ready)
  }

  function Apply(s: Sys, step: Step): Sys
    requires Enabled(s, step)
  {
    match step
    case Tick(to) => s.(now := to)
    case EditCluster(t, rev) => s.(clusters := s.clusters[t := Revs(s, t) + [rev]])
    case Decide(a, req, allowed) =>
      Goto(Emit(s, Decided(req, allowed)), a, if allowed then Granted(req) else Refused(req))
    case PutDenied(a, op) =>
      Goto(StoreNew(s.(used := s.used + {op.operationId}), op), a, Ready)
    case Begin(a, op, willPatch) =>
      Goto(s.(used := s.used + {op.operationId}), a, Putting(op, willPatch))
    case Put(a, message) =>
      var op := s.actors[a].pc.op;
      Goto(StoreNew(s, op), a, AfterPut(op, s.actors[a].pc.willPatch, message, s.now))
    case Patch(a, rev, reply) => Patched(s, a, rev, reply)
    case Announce(a, msg) => Announced(s, a, msg)
    case List(a, ops) => s.(actors := s.actors[a := Actor(Ready, Listing(s, ops))])
    case Move(a, act) => s.(actors := s.actors[a := Moved(s, s.actors[a], act)])
    case Write(a) => if WriteWins(s, a) then Won(s, a) else Goto(s, a, Ready)
    case Notify(a) =>
      var pc := s.actors[a].pc;
      Goto(Emit(s, ResolvedAnnounced(ApplyTerminal(pc.op, pc.upd), pc.msg)), a, Ready)
  }

  /* ------------------------------------------------------------------ */
  /* Runs                                                                 */
  /* ------------------------------------------------------------------ */

  /** A run: an initial state and any sequence of enabled steps. */
  predicate Run(states: seq<Sys>, steps: seq<Step>) {
    && |states| == |steps| + 1
    && Init(states[0])
    && forall i :: 0 <= i < |steps| ==> Enabled(states[i], steps[i]) && states[i + 1] == Apply(states[i], steps[i])
  }
}
