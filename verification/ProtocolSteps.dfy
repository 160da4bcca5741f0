/** Every enabled step keeps the protocol invariant, so every state of every run
    has it. */
module ProtocolSteps {
  import CacheKeys
  import opened Outcomes
  import opened Timestamps
  import opened Operations
  import opened Rollout
  import opened Protocol
  import opened ProtocolInvariant

  lemma FreshUnowned(s: Sys, id: string)
    requires Inv(s) && id !in s.used
    ensures id !in s.rows
    ensures forall a :: a in s.actors ==> Owned(s.actors[a].pc) != Some(id)
  {
    hide PastInv, ClusterInv, HandleInv, OwnInv, CountInv, TraceInv, EvidenceInv;
    forall a | a in s.actors
      ensures Owned(s.actors[a].pc) != Some(id)
    {
      ActorNow(s, a);
    }
  }

  /** The shared part of a first write: the actor stands aside, the row appears. */
  lemma PutRow(s: Sys, a: nat, op: Operation)
    requires Inv(s) && a in s.actors && !s.actors[a].pc.Winning?
    requires op.operationId in s.used && op.operationId !in s.rows
    requires op.status == Running || op.status == Denied
    requires DecidedFor(s.trace, op, op.status == Running, |s.trace|)
    requires forall b :: b in s.actors && b != a ==> Owned(s.actors[b].pc) != Some(op.operationId)
    ensures var r := s.(actors := s.actors[a := Actor(Ready, s.actors[a].rest)]);
            && Inv(StoreNew(r, op))
            && (op.status == Running ==> PutAfterPermit(StoreNew(r, op).trace, op, |s.trace| + 1))
            && forall b :: b in r.actors ==> Owned(r.actors[b].pc) != Some(op.operationId)
  {
    hide RowsInv, PastInv, ClusterInv, HandleInv, OwnInv, CountInv, TraceInv, EvidenceInv, PcOk, DecidedFor;
    hide PutAfterPermit;
    var act := Actor(Ready, s.actors[a].rest);
    ActorNow(s, a);
    assert PcOk(s, Ready) by { ReadyOk(s); }
    SetActor(s, a, act);
    StoreNewInv(s.(actors := s.actors[a := act]), op);
  }

  lemma ReadyOk(s: Sys)
    ensures PcOk(s, Ready)
  {
  }

  lemma RestGrows(s: Sys, t: Sys, rest: seq<Listed>)
    requires RestOk(s, rest) && Nanos(s.now) <= Nanos(t.now) && MapGrows(s.birth, t.birth) && s.patched == t.patched
    ensures RestOk(t, rest)
  {
  }

  lemma PutDeniedInv(s: Sys, a: nat, op: Operation)
    requires Inv(s) && Enabled(s, Step.PutDenied(a, op))
    ensures Inv(Apply(s, Step.PutDenied(a, op)))
  {
    hide RowsInv, PastInv, ClusterInv, HandleInv, OwnInv, CountInv, TraceInv, EvidenceInv, DecidedBefore, DecidedFor;
    hide ActorsInv;
    ActorNow(s, a);
    FreshUnowned(s, op.operationId);
    UseInv(s, op.operationId);
    DecidedAsks(s.trace, s.actors[a].pc.req, op, false, |s.trace|);
    var u := s.(used := s.used + {op.operationId});
    PutRow(u, a, op);
    var t := StoreNew(u.(actors := u.actors[a := Actor(Ready, s.actors[a].rest)]), op);
    assert Apply(s, Step.PutDenied(a, op)) == t;
  }

  lemma BeginInv(s: Sys, a: nat, op: Operation, willPatch: bool)
    requires Inv(s) && Enabled(s, Step.Begin(a, op, willPatch))
    ensures Inv(Apply(s, Step.Begin(a, op, willPatch)))
  {
    hide RowsInv, PastInv, ClusterInv, HandleInv, OwnInv, CountInv, TraceInv, EvidenceInv, DecidedBefore, DecidedFor;
    hide ActorsInv;
    ActorNow(s, a);
    FreshUnowned(s, op.operationId);
    UseInv(s, op.operationId);
    DecidedAsks(s.trace, s.actors[a].pc.req, op, true, |s.trace|);
    var u := s.(used := s.used + {op.operationId});
    RestGrows(s, u, s.actors[a].rest);
    SetActor(u, a, Actor(Putting(op, willPatch), s.actors[a].rest));
  }

  /** The actor goes on from its freshly written row. */
  lemma PutNext(s: Sys, op: Operation, willPatch: bool, message: string, now: Time)
    requires CopyOk(s, op) && op.operationId !in s.patched && op.operationId !in s.started
    requires PutAfterPermit(s.trace, op, |s.trace|)
    ensures PcOk(s, AfterPut(op, willPatch, message, now))
  {
  }

  lemma PutInv(s: Sys, a: nat, message: string)
    requires Inv(s) && Enabled(s, Step.Put(a, message))
    ensures Inv(Apply(s, Step.Put(a, message)))
  {
    hide Inv, PcOk, PutAfterPermit, OwnInv, CopyOk, RestOk, DecidedBefore, TargetOf, DecidedFor, StoreNew, Apply;
    var op, rest := s.actors[a].pc.op, s.actors[a].rest;
    PutReady(s, a);
    PutRow(s, a, op);
    var r := s.(actors := s.actors[a := Actor(Ready, rest)]);
    var t := StoreNew(r, op);
    var pc := AfterPut(op, s.actors[a].pc.willPatch, message, s.now);
    NewCopy(r, op);
    RestGrows(s, t, rest);
    PutNext(t, op, s.actors[a].pc.willPatch, message, s.now);
    Rejoin(s, a, t, Actor(pc, rest));
    PutIs(s, a, message);
  }

  /** Putting the row, seen as stepping aside, storing and stepping back. */
  lemma PutIs(s: Sys, a: nat, message: string)
    requires Enabled(s, Step.Put(a, message))
    ensures var op, rest := s.actors[a].pc.op, s.actors[a].rest;
            Apply(s, Step.Put(a, message))
            == StoreNew(s.(actors := s.actors[a := Actor(Ready, rest)]), op)
               .(actors := s.actors[a := Actor(AfterPut(op, s.actors[a].pc.willPatch, message, s.now), rest)])
  {
  }

  /** What an actor about to write its row may rely on. */
  lemma PutReady(s: Sys, a: nat)
    requires Inv(s) && a in s.actors && s.actors[a].pc.Putting?
    ensures var op := s.actors[a].pc.op;
            && op.status == Running && op.operationId in s.used && op.operationId !in s.rows
            && DecidedFor(s.trace, op, true, |s.trace|) && RestOk(s, s.actors[a].rest)
            && op.operationId !in s.patched && op.operationId !in s.started && op.operationId !in s.birth
            && forall b :: b in s.actors && b != a ==> Owned(s.actors[b].pc) != Some(op.operationId)
  {
    hide RowsInv, PastInv, ClusterInv, HandleInv, CountInv, TraceInv, EvidenceInv, DecidedBefore, ActorsInv;
    ActorNow(s, a);
    PatchedAreOld(s, s.actors[a].pc.op.operationId);
  }

  lemma NewCopy(s: Sys, op: Operation)
    requires op.status == Running
    ensures var t := StoreNew(s, op);
            && CopyOk(t, op) && t.actors == s.actors && t.now == s.now && t.patched == s.patched
            && t.started == s.started && |t.trace| == |s.trace| + 1
            && (op.operationId !in s.birth ==> MapGrows(s.birth, t.birth))
  {
  }

  lemma PatchedAreOld(s: Sys, id: string)
    requires Inv(s) && id !in s.rows
    ensures id !in s.patched && id !in s.started && id !in s.birth
  {
    hide PastInv, OwnInv, CountInv, Justified;
  }

  /** What an observation since then is worth as evidence. */
  lemma SeenNow(s: Sys, op: Operation, since: nat, obs: Observation)
    requires Inv(s) && CopyOk(s, op) && Sees(s, op, since, obs)
    requires EvaluateRollout(obs.dep) == Complete
    requires if op.operationId in s.patched then s.patched[op.operationId].generation <= since
             else PatchClosed(s, op.operationId)
    ensures GoodSeen(s, op.operationId, obs)
  {
    hide RowsInv, PastInv, HandleInv, OwnInv, CountInv, Justified, EvaluateRollout, Faithful;
  }

  /** A listed operation is a faithful copy of a running row, whichever past
      state of the table the scan answered from. */
  lemma ListingOk(s: Sys, ops: seq<Operation>)
    requires Inv(s) && forall op :: op in ops ==> Listable(s, op)
    ensures RestOk(s, Listing(s, ops))
  {
    hide HandleInv, OwnInv, CountInv, Justified;
    forall i | 0 <= i < |ops|
      ensures ListedOk(s, Listing(s, ops)[i])
    {
      assert Listable(s, ops[i]);
    }
  }

  /** Whatever snapshot the scan came from, its sort key is the row's own. */
  lemma PastKey(s: Sys, op: Operation, j: nat)
    requires Inv(s) && CopyOk(s, op) && j < |s.past| && op.operationId in s.past[j]
    ensures s.past[j][op.operationId].requestedAt == op.requestedAt
  {
    hide HandleInv, OwnInv, CountInv, Justified, ClusterInv;
  }

  /** A verdict on an observation since then is a justified update. */
  lemma VerdictOk(s: Sys, op: Operation, since: nat, obs: Observation, message: string)
    requires Inv(s) && CopyOk(s, op) && Sees(s, op, since, obs)
    requires if op.operationId in s.patched then s.patched[op.operationId].generation <= since
             else PatchClosed(s, op.operationId)
    ensures UpdateOk(s, op, Verdict(EvaluateRollout(obs.dep), message, s.now), Some(obs))
  {
    hide Inv, Sees, GoodSeen, EvaluateRollout, PatchClosed;
    if EvaluateRollout(obs.dep) == Complete {
      SeenNow(s, op, since, obs);
    }
  }

  /** The actor a move leaves behind is as justified as the one it found. */
  lemma MoveOk(s: Sys, a: nat, act: Act)
    requires Inv(s) && a in s.actors && CanAct(s, s.actors[a], act)
    ensures var t := Moved(s, s.actors[a], act);
            PcOk(s, t.pc) && RestOk(s, t.rest) && !t.pc.Winning? && Owned(t.pc).None?
  {
    hide RowsInv, PastInv, ClusterInv, HandleInv, OwnInv, CountInv, Justified, Sees, EvaluateRollout, Verdict;
    hide GoodSeen;
    ActorNow(s, a);
    var pc := s.actors[a].pc;
    match act
    case WatchSees(obs) => VerdictOk(s, pc.op, pc.since, obs, "");
    case SweepSees(obs, message) => VerdictOk(s, s.actors[a].rest[0].op, s.actors[a].rest[0].since, obs, message);
    case Find(j) => PastKey(s, pc.op, j);
    case _ =>
  }

  lemma MoveInv(s: Sys, a: nat, act: Act)
    requires Inv(s) && Enabled(s, Step.Move(a, act))
    ensures Inv(Apply(s, Step.Move(a, act)))
  {
    hide Inv, PcOk, RestOk, Sees, Verdict;
    MoveOk(s, a, act);
    SetActor(s, a, Moved(s, s.actors[a], act));
  }

  lemma ListInv(s: Sys, a: nat, ops: seq<Operation>)
    requires Inv(s) && Enabled(s, Step.List(a, ops))
    ensures Inv(Apply(s, Step.List(a, ops)))
  {
    hide Inv, RestOk, Listable, Listing;
    ListingOk(s, ops);
    SetActor(s, a, Actor(Ready, Listing(s, ops)));
  }

  lemma LoseInv(s: Sys, a: nat)
    requires Inv(s) && Enabled(s, Step.Write(a)) && !WriteWins(s, a)
    ensures Inv(Apply(s, Step.Write(a)))
  {
    hide RowsInv, PastInv, HandleInv, OwnInv, CountInv, Justified, ClusterInv;
    ActorNow(s, a);
    SetActor(s, a, Actor(Ready, s.actors[a].rest));
  }

  lemma DecidedInv(s: Sys, a: nat, req: CacheKeys.Request, allowed: bool)
    requires Inv(s) && Enabled(s, Step.Decide(a, req, allowed))
    ensures Inv(Apply(s, Step.Decide(a, req, allowed)))
  {
    hide RowsInv, PastInv, HandleInv, OwnInv, CountInv, Justified, ClusterInv, DecidedBefore;
    DecideInv(s, req, allowed);
    var t := Emit(s, Decided(req, allowed));
    SetActor(t, a, Actor(if allowed then Granted(req) else Refused(req), []));
  }

  lemma StepInv(s: Sys, step: Step)
    requires Inv(s) && Enabled(s, step)
    ensures Inv(Apply(s, step))
  {
    hide Inv, Sees, CanAct, Moved;
    match step
    case Tick(to) => TickInv(s, to);
    case EditCluster(t, rev) => EditInv(s, t, rev);
    case Decide(a, req, allowed) => DecidedInv(s, a, req, allowed);
    case PutDenied(a, op) => PutDeniedInv(s, a, op);
    case Begin(a, op, willPatch) => BeginInv(s, a, op, willPatch);
    case Put(a, message) => PutInv(s, a, message);
    case Patch(a, rev, reply) => PatchInv(s, a, rev, reply);
    case Announce(a, msg) => AnnounceInv(s, a, msg);
    case Write(a) => if WriteWins(s, a) { WinInv(s, a); } else { LoseInv(s, a); }
    case Notify(a) => NotifyInv(s, a);
    case List(a, ops) => ListInv(s, a, ops);
    case Move(a, act) => MoveInv(s, a, act);
  }

  lemma {:induction false} RunInv(states: seq<Sys>, steps: seq<Step>, i: nat)
    requires Run(states, steps) && i < |states|
    ensures Inv(states[i])
  {
    if i == 0 {
      InitInv(states[0]);
    } else {
      RunInv(states, steps, i - 1);
      StepInv(states[i - 1], steps[i - 1]);
    }
  }
}
