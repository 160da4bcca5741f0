/** What holds over every run of the lifecycle protocol, whatever the
    interleaving of request threads, watchers, sweeps and lazy GETs. */
module ProtocolTheorems {
  import opened Interference
  import opened Outcomes
  import opened Operations
  import opened Rollout
  import opened Protocol
  import opened ProtocolInvariant
  import opened ProtocolSteps

  /* ------------------------------------------------------------------ */
  /* One terminal write                                                   */
  /* ------------------------------------------------------------------ */

  /** Which steps touch which shared state. */
  predicate Framed(s: Sys, t: Sys, step: Step) {
    && s.trace <= t.trace
    && (!step.Announce? ==> t.started == s.started)
    && (step.PutDenied? || step.Put? || step.Write? || t.rows == s.rows)
    && (step.PutDenied? || step.Put? || t.birth == s.birth)
  }

  lemma QuietFrame(s: Sys, step: Step)
    requires Enabled(s, step)
    requires step.Tick? || step.EditCluster? || step.Begin? || step.List? || step.Move?
    ensures Framed(s, Apply(s, step), step)
  {
    hide Enabled, Moved;
  }

  lemma EventFrame(s: Sys, step: Step)
    requires Enabled(s, step)
    requires step.Decide? || step.Patch? || step.Announce? || step.Notify?
    ensures Framed(s, Apply(s, step), step)
  {
    hide Enabled, Moved;
  }

  lemma PutFrame(s: Sys, step: Step)
    requires Enabled(s, step) && (step.PutDenied? || step.Put?)
    ensures Framed(s, Apply(s, step), step)
  {
    hide Enabled;
  }

  lemma WriteFrame(s: Sys, a: nat)
    requires Enabled(s, Step.Write(a))
    ensures Framed(s, Apply(s, Step.Write(a)), Step.Write(a))
  {
    hide Resolve;
    var t := Apply(s, Step.Write(a));
    if WriteWins(s, a) {
      assert t == Won(s, a);
      assert t.trace == s.trace + [TerminalWritten(s.actors[a].pc.op.operationId, s.actors[a].pc.upd)];
    } else {
      assert t == Goto(s, a, Ready);
    }
  }

  lemma StepFrame(s: Sys, step: Step)
    requires Enabled(s, step)
    ensures Framed(s, Apply(s, step), step)
  {
    hide Enabled, Framed, Apply;
    if step.PutDenied? || step.Put? {
      PutFrame(s, step);
    } else if step.Write? {
      WriteFrame(s, step.a);
    } else if step.Decide? || step.Patch? || step.Announce? || step.Notify? {
      EventFrame(s, step);
    } else {
      QuietFrame(s, step);
    }
  }

  lemma StepRows(s: Sys, step: Step)
    requires Inv(s) && Enabled(s, step)
    ensures TableEvolves(s.rows, Apply(s, step).rows)
    ensures MapGrows(s.birth, Apply(s, step).birth)
    ensures s.trace <= Apply(s, step).trace
  {
    hide Inv, PcOk, Apply;
    StepFrame(s, step);
    if step.PutDenied? {
      FreshUnowned(s, step.op.operationId);
      PatchedAreOld(s, step.op.operationId);
      PutEvolves(s, step, step.op);
    } else if step.Put? {
      var op := s.actors[step.a].pc.op;
      PutFresh(s, step.a);
      PatchedAreOld(s, op.operationId);
      PutEvolves(s, step, op);
    } else if step.Write? {
      WriteEvolves(s, step.a);
    }
  }

  lemma PutEvolves(s: Sys, step: Step, op: Operation)
    requires Enabled(s, step) && op.operationId !in s.rows && op.operationId !in s.birth
    requires (step.PutDenied? && op == step.op) || (step.Put? && op == s.actors[step.a].pc.op)
    ensures TableEvolves(s.rows, Apply(s, step).rows) && MapGrows(s.birth, Apply(s, step).birth)
  {
    hide Enabled;
  }

  lemma PutFresh(s: Sys, a: nat)
    requires Inv(s) && a in s.actors && s.actors[a].pc.Putting?
    ensures s.actors[a].pc.op.operationId !in s.rows
  {
    hide PastInv, ClusterInv, HandleInv, OwnInv, CountInv, TraceInv, EvidenceInv, DecidedBefore;
    ActorNow(s, a);
  }

  lemma WriteEvolves(s: Sys, a: nat)
    requires Inv(s) && Enabled(s, Step.Write(a))
    ensures TableEvolves(s.rows, Apply(s, Step.Write(a)).rows)
  {
    hide PastInv, ClusterInv, HandleInv, OwnInv, CountInv, TraceInv, EvidenceInv, RowsInv, MessageOk;
    ActorNow(s, a);
    if WriteWins(s, a) {
      var pc := s.actors[a].pc;
      ResolveEvolves(s.rows[pc.op.operationId], pc.upd, pc.upd.completedAt);
    }
  }

  lemma {:induction false} RunRows(states: seq<Sys>, steps: seq<Step>, i: nat, j: nat)
    requires Run(states, steps) && i <= j < |states|
    ensures TableEvolves(states[i].rows, states[j].rows)
    ensures states[i].trace <= states[j].trace
    decreases j
  {
    hide Inv, Enabled, Apply;
    if i < j {
      RunRows(states, steps, i, j - 1);
      RunInv(states, steps, j - 1);
      StepRows(states[j - 1], steps[j - 1]);
      TableEvolvesTransitive(states[i].rows, states[j - 1].rows, states[j].rows);
    }
  }

  lemma RowsKeyed(s: Sys)
    requires Inv(s)
    ensures Keyed(s.rows) && s.rows.Keys <= s.used
  {
    hide PastInv, ClusterInv, HandleInv, OwnInv, CountInv, Justified;
  }

  /** The interference the manager's methods are verified under is what the
      other actors of a run can do: between any two states of any run, for ids
      nobody has used yet. */
  lemma RunInterferes(states: seq<Sys>, steps: seq<Step>, i: nat, j: nat, reserved: set<string>)
    requires Run(states, steps) && i <= j < |states| && reserved !! states[j].used
    ensures Interferes(states[i].rows, states[j].rows, reserved)
  {
    hide Run, Inv;
    RunRows(states, steps, i, j);
    RunInv(states, steps, j);
    RowsKeyed(states[j]);
  }

  lemma WinsFacts(s: Sys, id: string)
    requires Inv(s)
    ensures Wins(s.trace, id) == if id in s.won then 1 else 0
    ensures Resolutions(s.trace, id) + |Pending(s.actors, id)| == Wins(s.trace, id)
    ensures id in s.won <==> id in s.rows && IsResolution(s.rows[id].status)
    ensures id in s.rows ==> id in s.birth
    ensures id in s.rows ==> |s.rows[id].events| == |s.birth[id].events| + Wins(s.trace, id)
  {
    hide PastInv, ClusterInv, HandleInv, OwnInv, Justified;
  }

  lemma {:induction false} RunBirth(states: seq<Sys>, steps: seq<Step>, i: nat, j: nat)
    requires Run(states, steps) && i <= j < |states|
    ensures MapGrows(states[i].birth, states[j].birth)
    decreases j
  {
    hide Inv, Enabled, Apply;
    if i < j {
      RunBirth(states, steps, i, j - 1);
      RunInv(states, steps, j - 1);
      StepRows(states[j - 1], steps[j - 1]);
    }
  }

  /** For any operation id and any two moments of any run: at most one terminal
      write ever succeeds, a row that is no longer running (a denied row from
      the start) never changes again, and a row's event list grows by exactly
      the writes won in between. */
  lemma OneTerminalWrite(states: seq<Sys>, steps: seq<Step>, i: nat, j: nat, id: string)
    requires Run(states, steps) && i <= j < |states|
    ensures Wins(states[j].trace, id) <= 1
    ensures Wins(states[j].trace, id) == 1 <==> id in states[j].rows && IsResolution(states[j].rows[id].status)
    ensures id in states[i].rows ==> id in states[j].rows
    ensures id in states[i].rows && states[i].rows[id].status != Running ==> states[j].rows[id] == states[i].rows[id]
    ensures id in states[i].rows ==>
              |states[j].rows[id].events|
              == |states[i].rows[id].events| + Wins(states[j].trace, id) - Wins(states[i].trace, id)
  {
    hide Inv, Enabled, Apply, Run;
    RunRows(states, steps, i, j);
    RunBirth(states, steps, i, j);
    RunInv(states, steps, i);
    RunInv(states, steps, j);
    WinsFacts(states[i], id);
    WinsFacts(states[j], id);
  }

  /* ------------------------------------------------------------------ */
  /* What is announced is what is stored                                  */
  /* ------------------------------------------------------------------ */

  predicate StartLogged(s: Sys) {
    forall id :: id in s.started ==>
      exists k :: 0 <= k < |s.trace| && s.trace[k] == StartAnnounced(id, s.started[id])
  }

  lemma StepStartLogged(s: Sys, step: Step)
    requires StartLogged(s) && Enabled(s, step)
    ensures StartLogged(Apply(s, step))
  {
    hide Apply, Enabled;
    var t := Apply(s, step);
    StepFrame(s, step);
    if step.Announce? {
      AnnounceLogs(s, step.a, step.msg);
    }
    forall id | id in t.started
      ensures exists k :: 0 <= k < |t.trace| && t.trace[k] == StartAnnounced(id, t.started[id])
    {
      if id in s.started && t.started[id] == s.started[id] {
        var k :| 0 <= k < |s.trace| && s.trace[k] == StartAnnounced(id, s.started[id]);
        assert t.trace[k] == s.trace[k];
      }
    }
  }

  lemma AnnounceLogs(s: Sys, a: nat, msg: Option<Handle>)
    requires Enabled(s, Step.Announce(a, msg))
    ensures var t := Apply(s, Step.Announce(a, msg));
            var id := s.actors[a].pc.op.operationId;
            && t.started == s.started[id := msg]
            && |t.trace| == |s.trace| + 1 && t.trace[|s.trace|] == StartAnnounced(id, msg)
  {
  }

  lemma {:induction false} RunStartLogged(states: seq<Sys>, steps: seq<Step>, i: nat)
    requires Run(states, steps) && i < |states|
    ensures StartLogged(states[i])
  {
    hide Enabled, Apply, StartLogged;
    if i == 0 {
      InitStartLogged(states[0]);
    } else {
      RunStartLogged(states, steps, i - 1);
      StepStartLogged(states[i - 1], steps[i - 1]);
    }
  }

  lemma InitStartLogged(s: Sys)
    requires Init(s)
    ensures StartLogged(s)
  {
  }

  /** The announcement says what the row says, and its handle is the one
      Started returned for this operation and for no other. */
  predicate AnnouncesRow(s: Sys, e: Event)
    requires e.ResolvedAnnounced?
  {
    var id := e.op.operationId;
    && id in s.rows
    && e.op.(events := s.rows[id].events) == s.rows[id]
    && (e.msg.Some? ==>
          && (exists i :: 0 <= i < |s.trace| && s.trace[i] == StartAnnounced(id, e.msg))
          && (forall i :: 0 <= i < |s.trace| && s.trace[i].StartAnnounced? && s.trace[i].id != id ==>
                s.trace[i].msg != e.msg))
  }

  /** In every state of every run, the Resolved notifications of an operation
      are exactly its won terminal writes, less a winner that has written and
      not announced yet. Each one carries the final row in every field except
      the events, and any handle it passes is its own operation's. */
  lemma AnnouncedIsStored(states: seq<Sys>, steps: seq<Step>, j: nat, id: string)
    requires Run(states, steps) && j < |states|
    ensures var s := states[j];
            && Resolutions(s.trace, id) + |Pending(s.actors, id)| == Wins(s.trace, id) <= 1
            && forall k :: 0 <= k < |s.trace| && s.trace[k].ResolvedAnnounced? ==> AnnouncesRow(s, s.trace[k])
  {
    hide Inv, Enabled, Apply, Run, AnnouncesRow;
    var s := states[j];
    RunInv(states, steps, j);
    WinsFacts(s, id);
    RunStartLogged(states, steps, j);
    forall k | 0 <= k < |s.trace| && s.trace[k].ResolvedAnnounced?
      ensures AnnouncesRow(s, s.trace[k])
    {
      AnnouncementFacts(s, k);
    }
  }

  lemma AnnouncementFacts(s: Sys, k: nat)
    requires Inv(s) && StartLogged(s) && k < |s.trace| && s.trace[k].ResolvedAnnounced?
    ensures AnnouncesRow(s, s.trace[k])
  {
    hide Inv, ApplyTerminal, Resolve;
    var id, msg := s.trace[k].op.operationId, s.trace[k].msg;
    AnnouncedRow(s, k);
    if msg.Some? {
      forall i | 0 <= i < |s.trace| && s.trace[i].StartAnnounced? && s.trace[i].id != id
        ensures s.trace[i].msg != msg
      {
        StartedAs(s, i);
        HandlesDiffer(s, id, s.trace[i].id);
      }
    }
  }

  lemma AnnouncedRow(s: Sys, k: nat)
    requires Inv(s) && k < |s.trace| && s.trace[k].ResolvedAnnounced?
    ensures var e := s.trace[k];
            && e.op.operationId in s.rows && MessageOk(s, e.op.operationId, e.msg)
            && e.op.(events := s.rows[e.op.operationId].events) == s.rows[e.op.operationId]
  {
    hide PastInv, ClusterInv, HandleInv, OwnInv, CountInv, ActorsInv, EvidenceInv, DecidedFor, PutAfterPermit,
      MessageOk;
    assert EventOk(s, k);
  }

  lemma StartedAs(s: Sys, i: nat)
    requires Inv(s) && i < |s.trace| && s.trace[i].StartAnnounced?
    ensures s.trace[i].id in s.started && s.started[s.trace[i].id] == s.trace[i].msg
  {
    hide RowsInv, PastInv, ClusterInv, HandleInv, OwnInv, CountInv, ActorsInv, EvidenceInv;
    assert EventOk(s, i);
  }

  lemma HandlesDiffer(s: Sys, id: string, other: string)
    requires Inv(s) && id in s.started && other in s.started && id != other && s.started[id].Some?
    ensures s.started[other] != s.started[id]
  {
    hide RowsInv, PastInv, ClusterInv, OwnInv, CountInv, ActorsInv, TraceInv, EvidenceInv;
  }

  /* ------------------------------------------------------------------ */
  /* A success is a real rollout                                          */
  /* ------------------------------------------------------------------ */

  /** The observation shows a rollout that includes the patch: the controller has
      seen every generation so far, the patch's among them, the live pods are
      exactly the desired number, and each is ready, available and made from the
      template of the last generation. */
  predicate ShowsRollout(obs: Observation, mark: PatchMark) {
    && 1 <= mark.generation <= obs.dep.generation == obs.dep.observedGeneration == |obs.revs|
    && obs.revs[mark.generation - 1] == mark.rev
    && |Live(obs.pods)| == Desired(obs.dep)
    && forall p :: p in obs.pods && !p.terminated ==>
         p.ready && p.available && p.rev == obs.revs[|obs.revs| - 1]
  }

  lemma GoodSeenShows(s: Sys, id: string, obs: Observation)
    requires GoodSeen(s, id, obs) && id in s.patched
    ensures ShowsRollout(obs, s.patched[id])
  {
    assert EvaluateRollout(obs.dep) == Complete;
    assert obs.dep.observedGeneration == obs.dep.generation == |obs.revs|;
    CompleteMeans(obs.dep, obs.pods, obs.revs[|obs.revs| - 1]);
  }

  /** Whether those pods carry the patch, or something newer: exactly when the last
      generation does, or there are none. An edit that brings an older template
      back, such as kubectl rollout undo, completes without them. */
  lemma PatchInPods(obs: Observation, mark: PatchMark)
    requires ShowsRollout(obs, mark)
    ensures (forall p :: p in obs.pods && !p.terminated ==> p.rev >= mark.rev)
            <==> Desired(obs.dep) == 0 || obs.revs[|obs.revs| - 1] >= mark.rev
    ensures (forall p :: p in obs.pods && !p.terminated ==> p.rev == mark.rev)
            <==> Desired(obs.dep) == 0 || obs.revs[|obs.revs| - 1] == mark.rev
  {
    if Desired(obs.dep) == 0 {
      assert forall p :: p in obs.pods && !p.terminated ==> p in Live(obs.pods);
    } else {
      assert Live(obs.pods) != {};
      var p :| p in Live(obs.pods);
      assert p in obs.pods && !p.terminated;
    }
  }

  /** In this step some watcher or sweep evaluates an observation of the
      deployment of operation `id`, as the cluster was at some moment since it
      began looking. */
  predicate Evaluates(s: Sys, step: Step, id: string, obs: Observation) {
    && step.Move? && step.a in s.actors
    && var actor := s.actors[step.a];
    && match step.act
       case WatchSees(o) =>
         && o == obs && actor.pc.Watching? && actor.pc.op.operationId == id
         && Sees(s, actor.pc.op, actor.pc.since, obs)
       case SweepSees(o, _) =>
         && o == obs && actor.pc.Ready? && actor.rest != [] && actor.rest[0].op.operationId == id
         && Sees(s, actor.rest[0].op, actor.rest[0].since, obs)
       case PatchFails(_) => false
       case WatchExpires(_) => false
       case SweepUnreadable(_) => false
       case Skip => false
       case Find(_) => false
       case GiveUp => false
  }

  /** The observation shows the deployment as it is in this state, or was. */
  predicate ShowsState(s: Sys, target: Target, obs: Observation) {
    target in s.clusters && obs.revs <= s.clusters[target]
  }

  /** An evaluation of this very observation for `id` among the first j steps. */
  predicate SeenBefore(states: seq<Sys>, steps: seq<Step>, j: nat, id: string, obs: Observation)
    requires |states| == |steps| + 1 && j <= |steps|
  {
    exists i :: 0 <= i < j && Evaluates(states[i], steps[i], id, obs)
  }

  /** What an actor on its way to a terminal write has seen, and for which id. */
  function Carries(pc: Pc): Option<(string, Observation)> {
    match pc
    case Finding(op, _, _, seen) => if seen.Some? then Some((op.operationId, seen.value)) else None
    case Writing(op, _, _, seen, _) => if seen.Some? then Some((op.operationId, seen.value)) else None
    case Granted(_) => None
    case Refused(_) => None
    case Putting(_, _) => None
    case Patching(_) => None
    case Announcing(_) => None
    case Watching(_, _, _) => None
    case Ready => None
    case Winning(_, _, _) => None
  }

  predicate Carrying(actors: map<nat, Actor>, a: nat, id: string, obs: Observation) {
    a in actors && Carries(actors[a].pc) == Some((id, obs))
  }

  predicate CarriedBySome(actors: map<nat, Actor>, id: string, obs: Observation) {
    exists a :: a in actors && Carrying(actors, a, id, obs)
  }

  /** Every observation an actor carries or a success rests on was evaluated
      earlier in the run, for that operation. */
  ghost predicate SightsLogged(states: seq<Sys>, steps: seq<Step>, j: nat)
    requires |states| == |steps| + 1 && j <= |steps|
  {
    && (forall a, id, obs :: Carrying(states[j].actors, a, id, obs) ==> SeenBefore(states, steps, j, id, obs))
    && (forall id :: id in states[j].why ==> SeenBefore(states, steps, j, id, states[j].why[id]))
  }

  /** An actor that carries an observation after a step carried it before, or
      has just evaluated it. */
  lemma StepCarries(s: Sys, step: Step, a: nat, id: string, obs: Observation)
    requires Enabled(s, step) && Carrying(Apply(s, step).actors, a, id, obs)
    ensures Carrying(s.actors, a, id, obs) || Evaluates(s, step, id, obs)
  {
    hide Apply, Evaluates, Enabled, Moved, CanAct, Carries;
    if step.Move? {
      assert step == Move(step.a, step.act);
      MoveActs(s, step.a, step.act);
      if a == step.a {
        MoveCarries(s, a, step.act, id, obs);
      }
    } else if step.Put? || step.PutDenied? || step.Begin? || step.Decide? || step.List? {
      StartsCarry(s, step, a, id, obs);
    } else if step.Write? {
      assert step == Step.Write(step.a);
      WriteCarries(s, step.a, a, id, obs);
    } else if step.Notify? {
      assert step == Step.Notify(step.a);
      NotifyCarries(s, step.a, a, id, obs);
    } else {
      OthersCarry(s, step, a, id, obs);
    }
  }

  lemma MoveActs(s: Sys, a: nat, act: Act)
    requires Enabled(s, Move(a, act))
    ensures a in s.actors && Apply(s, Move(a, act)).actors == s.actors[a := Moved(s, s.actors[a], act)]
  {
    hide CanAct, Moved;
  }

  lemma StartsCarry(s: Sys, step: Step, a: nat, id: string, obs: Observation)
    requires Enabled(s, step) && Carrying(Apply(s, step).actors, a, id, obs)
    requires step.Put? || step.PutDenied? || step.Begin? || step.Decide? || step.List?
    ensures Carrying(s.actors, a, id, obs)
  {
    hide NewRow, Listable, Listing;
  }

  lemma OthersCarry(s: Sys, step: Step, a: nat, id: string, obs: Observation)
    requires Enabled(s, step) && Carrying(Apply(s, step).actors, a, id, obs)
    requires step.Tick? || step.EditCluster? || step.Patch? || step.Announce?
    ensures Carrying(s.actors, a, id, obs)
  {
  }

  lemma WriteCarries(s: Sys, w: nat, a: nat, id: string, obs: Observation)
    requires Enabled(s, Step.Write(w)) && Carrying(Apply(s, Step.Write(w)).actors, a, id, obs)
    ensures Carrying(s.actors, a, id, obs)
  {
    WriteActors(s, w);
    hide Enabled, Apply;
  }

  /** A write leaves the other actors alone, and its own carries nothing after. */
  lemma WriteActors(s: Sys, w: nat)
    requires Enabled(s, Step.Write(w))
    ensures var t := Apply(s, Step.Write(w));
            && w in t.actors && (t.actors[w].pc.Winning? || t.actors[w].pc.Ready?)
            && forall b :: b != w && b in t.actors ==> b in s.actors && t.actors[b] == s.actors[b]
  {
    WriteIs(s, w);
    assert At(s, w) && s.actors[w].pc.Writing?;
    hide Enabled, Apply, WriteWins;
    if WriteWins(s, w) {
      WonActors(s, w);
    }
  }

  lemma WriteIs(s: Sys, w: nat)
    requires Enabled(s, Step.Write(w))
    ensures Apply(s, Step.Write(w)) == if WriteWins(s, w) then Won(s, w) else Goto(s, w, Ready)
  {
    hide WriteWins, Won, Goto;
  }

  lemma WonActors(s: Sys, a: nat)
    requires At(s, a) && s.actors[a].pc.Writing? && WriteWins(s, a)
    ensures a in Won(s, a).actors && Won(s, a).actors[a].pc.Winning?
    ensures forall b :: b != a && b in Won(s, a).actors ==> b in s.actors && Won(s, a).actors[b] == s.actors[b]
  {
    hide Resolve;
  }

  lemma NotifyCarries(s: Sys, w: nat, a: nat, id: string, obs: Observation)
    requires Enabled(s, Step.Notify(w)) && Carrying(Apply(s, Step.Notify(w)).actors, a, id, obs)
    ensures Carrying(s.actors, a, id, obs)
  {
  }

  lemma MoveCarries(s: Sys, a: nat, act: Act, id: string, obs: Observation)
    requires Enabled(s, Move(a, act)) && Carries(Moved(s, s.actors[a], act).pc) == Some((id, obs))
    ensures Carries(s.actors[a].pc) == Some((id, obs)) || Evaluates(s, Move(a, act), id, obs)
  {
    hide Faithful, EvaluateRollout, Sees;
  }

  lemma StepWhy(s: Sys, step: Step, id: string)
    requires Enabled(s, step) && id in Apply(s, step).why
    ensures || (id in s.why && Apply(s, step).why[id] == s.why[id])
            || CarriedBySome(s.actors, id, Apply(s, step).why[id])
  {
    hide Faithful, EvaluateRollout, NewRow, Listable, Moved;
    if step.Write? && WriteWins(s, step.a) {
      WonWhy(s, step.a, id);
    }
  }

  lemma WonWhy(s: Sys, a: nat, id: string)
    requires At(s, a) && s.actors[a].pc.Writing? && WriteWins(s, a) && id in Won(s, a).why
    ensures || (id in s.why && Won(s, a).why[id] == s.why[id])
            || Carrying(s.actors, a, id, Won(s, a).why[id])
  {
  }

  lemma SeenLater(states: seq<Sys>, steps: seq<Step>, i: nat, j: nat, id: string, obs: Observation)
    requires |states| == |steps| + 1 && i <= j <= |steps| && SeenBefore(states, steps, i, id, obs)
    ensures SeenBefore(states, steps, j, id, obs)
  {
  }

  lemma {:induction false} RunSights(states: seq<Sys>, steps: seq<Step>, j: nat)
    requires Run(states, steps) && j < |states|
    ensures SightsLogged(states, steps, j)
  {
    hide Enabled, Apply, Evaluates, Carrying;
    if j == 0 {
      NoSights(states, steps);
    } else {
      RunSights(states, steps, j - 1);
      var s, step, t := states[j - 1], steps[j - 1], states[j];
      assert t == Apply(s, step) && Enabled(s, step);
      hide Run, Init, SeenBefore;
      forall a, id, obs | Carrying(t.actors, a, id, obs)
        ensures SeenBefore(states, steps, j, id, obs)
      {
        StepCarries(s, step, a, id, obs);
        CarriedOn(states, steps, j, a, id, obs);
      }
      forall id | id in t.why
        ensures SeenBefore(states, steps, j, id, t.why[id])
      {
        StepWhy(s, step, id);
        SeenOn(states, steps, j, id, t.why[id]);
      }
    }
  }

  lemma NoSights(states: seq<Sys>, steps: seq<Step>)
    requires Run(states, steps)
    ensures SightsLogged(states, steps, 0)
  {
  }

  lemma CarriedOn(states: seq<Sys>, steps: seq<Step>, j: nat, a: nat, id: string, obs: Observation)
    requires |states| == |steps| + 1 && 1 <= j <= |steps| && SightsLogged(states, steps, j - 1)
    requires Carrying(states[j - 1].actors, a, id, obs) || Evaluates(states[j - 1], steps[j - 1], id, obs)
    ensures SeenBefore(states, steps, j, id, obs)
  {
    hide Evaluates, Carrying;
    if Carrying(states[j - 1].actors, a, id, obs) {
      SeenLater(states, steps, j - 1, j, id, obs);
    }
  }

  lemma SeenOn(states: seq<Sys>, steps: seq<Step>, j: nat, id: string, obs: Observation)
    requires |states| == |steps| + 1 && 1 <= j <= |steps| && SightsLogged(states, steps, j - 1)
    requires || (id in states[j - 1].why && states[j - 1].why[id] == obs)
             || CarriedBySome(states[j - 1].actors, id, obs)
    ensures SeenBefore(states, steps, j, id, obs)
  {
    hide Evaluates, Carrying;
    SeenLater(states, steps, j - 1, j, id, obs);
  }

  /** For every operation whose patch landed, in any run: if its row says
      succeeded, then in an earlier step of that run a watcher, a sweep or a
      lazy GET evaluated an observation of the operation's own deployment,
      as the cluster was then or at some moment since it began looking, that
      showed a generation no older than the patch's fully rolled out: every live
      pod was of that generation's template. Other patches and edits, also back
      to an older template, may land at any time. */
  lemma SuccessIsReal(states: seq<Sys>, steps: seq<Step>, j: nat, id: string)
    requires Run(states, steps) && j < |states|
    requires id in states[j].rows && states[j].rows[id].status == Succeeded
    requires id in states[j].patched
    ensures exists i, obs :: && 0 <= i < j && Evaluates(states[i], steps[i], id, obs)
                             && ShowsState(states[i], TargetOf(states[j].rows[id]), obs)
                             && Faithful(obs) && ShowsRollout(obs, states[j].patched[id])
  {
    hide Enabled, Apply, Evaluates, Inv, SightsLogged, SeenBefore, Faithful, ShowsRollout, ShowsState, TableEvolves;
    RunSights(states, steps, j);
    var s := states[j];
    assert id in s.why && Faithful(s.why[id]) && ShowsRollout(s.why[id], s.patched[id]) by {
      RunInv(states, steps, j);
      SuccessShows(s, id);
    }
    SightOf(states, steps, j, id);
    var i := SightAt(states, steps, j, id, s.why[id]);
    RunInv(states, steps, i);
    EvaluatesOwn(states[i], steps[i], id, s.why[id]);
    RunRows(states, steps, i, j);
    SameTarget(states[i].rows, s.rows, id);
  }

  lemma StepClusters(s: Sys, step: Step, t: Target)
    requires Enabled(s, step) && t in s.clusters
    ensures t in Apply(s, step).clusters && s.clusters[t] <= Apply(s, step).clusters[t]
  {
    hide WriteWins, NewRow, Listable, Listing, CanAct, Moved;
    if step.Write? {
      WriteClusters(s, step.a);
    }
  }

  lemma WriteClusters(s: Sys, a: nat)
    requires Enabled(s, Step.Write(a))
    ensures Apply(s, Step.Write(a)).clusters == s.clusters
  {
    WriteIs(s, a);
    assert At(s, a) && s.actors[a].pc.Writing?;
    hide Enabled, Apply, WriteWins, Resolve;
  }

  lemma {:induction false} RunClusters(states: seq<Sys>, steps: seq<Step>, i: nat, j: nat, t: Target)
    requires Run(states, steps) && i <= j < |states| && t in states[i].clusters
    ensures t in states[j].clusters && states[i].clusters[t] <= states[j].clusters[t]
    decreases j
  {
    hide Enabled, Apply;
    if i < j {
      RunClusters(states, steps, i, j - 1, t);
      StepClusters(states[j - 1], steps[j - 1], t);
    }
  }

  /** No generation since the patch went back to an older template. */
  predicate NotReverted(revs: Revisions, mark: PatchMark) {
    forall i :: 0 <= i < |revs| && mark.generation <= i + 1 ==> revs[i] >= mark.rev
  }

  /** While nobody has gone back to an older template, a success means that pods
      with the patch, or with something newer, and no others, were up. */
  lemma SuccessIsThePatch(states: seq<Sys>, steps: seq<Step>, j: nat, id: string)
    requires Run(states, steps) && j < |states|
    requires id in states[j].rows && states[j].rows[id].status == Succeeded
    requires id in states[j].patched
    requires TargetOf(states[j].rows[id]) in states[j].clusters ==>
               NotReverted(states[j].clusters[TargetOf(states[j].rows[id])], states[j].patched[id])
    ensures exists i, obs :: && 0 <= i < j && Evaluates(states[i], steps[i], id, obs)
                             && Faithful(obs) && ShowsRollout(obs, states[j].patched[id])
                             && forall p :: p in obs.pods && !p.terminated ==> p.rev >= states[j].patched[id].rev
  {
    hide Evaluates, Enabled, Apply, Init;
    SuccessIsReal(states, steps, j, id);
    var target, mark := TargetOf(states[j].rows[id]), states[j].patched[id];
    var i, obs :| && 0 <= i < j && Evaluates(states[i], steps[i], id, obs)
                  && ShowsState(states[i], target, obs) && Faithful(obs) && ShowsRollout(obs, mark);
    RunClusters(states, steps, i, j, target);
    assert states[j].clusters[target][|obs.revs| - 1] == obs.revs[|obs.revs| - 1];
    PatchInPods(obs, mark);
  }

  lemma SightAt(states: seq<Sys>, steps: seq<Step>, j: nat, id: string, obs: Observation) returns (i: nat)
    requires |states| == |steps| + 1 && j <= |steps| && SeenBefore(states, steps, j, id, obs)
    ensures i < j && Evaluates(states[i], steps[i], id, obs)
  {
    hide Evaluates;
    i :| 0 <= i < j && Evaluates(states[i], steps[i], id, obs);
  }

  /** What is evaluated for an operation is its own row's deployment. */
  lemma EvaluatesOwn(s: Sys, step: Step, id: string, obs: Observation)
    requires Inv(s) && Evaluates(s, step, id, obs)
    ensures id in s.rows && ShowsState(s, TargetOf(s.rows[id]), obs)
  {
    hide PastInv, ClusterInv, HandleInv, OwnInv, CountInv, TraceInv, EvidenceInv, Faithful;
    ActorNow(s, step.a);
    KeysAgree(s);
    BirthTarget(s, id);
  }

  lemma BirthTarget(s: Sys, id: string)
    requires Inv(s) && id in s.birth
    ensures id in s.rows && TargetOf(s.rows[id]) == TargetOf(s.birth[id])
  {
    hide PastInv, ClusterInv, HandleInv, OwnInv, CountInv, Justified;
  }

  lemma SameTarget(m: Table, n: Table, id: string)
    requires TableEvolves(m, n) && id in m
    ensures id in n && TargetOf(n[id]) == TargetOf(m[id])
  {
    assert RowEvolves(m[id], n[id]);
  }

  lemma SightOf(states: seq<Sys>, steps: seq<Step>, j: nat, id: string)
    requires |states| == |steps| + 1 && j <= |steps| && SightsLogged(states, steps, j) && id in states[j].why
    ensures SeenBefore(states, steps, j, id, states[j].why[id])
  {
    hide SeenBefore, Carrying;
  }

  lemma SuccessShows(s: Sys, id: string)
    requires Inv(s) && id in s.rows && s.rows[id].status == Succeeded && id in s.patched
    ensures id in s.why && Faithful(s.why[id]) && ShowsRollout(s.why[id], s.patched[id])
  {
    hide Inv, Faithful, ShowsRollout;
    SuccessEvidence(s, id);
    GoodSeenShows(s, id, s.why[id]);
  }

  lemma SuccessEvidence(s: Sys, id: string)
    requires Inv(s) && id in s.rows && s.rows[id].status == Succeeded
    ensures id in s.why && GoodSeen(s, id, s.why[id])
  {
    hide PastInv, ClusterInv, HandleInv, OwnInv, CountInv, ActorsInv, TraceInv, GoodSeen;
  }

  /* ------------------------------------------------------------------ */
  /* Write-ahead audit                                                    */
  /* ------------------------------------------------------------------ */

  /** In every run, a patch that landed was preceded by the putting of its
      operation's running row, and that by an Allowed decision for the same
      repository, action and target. */
  lemma PatchIsAudited(states: seq<Sys>, steps: seq<Step>, j: nat, k: nat)
    requires Run(states, steps) && j < |states|
    requires k < |states[j].trace| && states[j].trace[k].PatchLanded?
    ensures exists i, m, op :: 0 <= i < m < k
                               && states[j].trace[i].Decided? && states[j].trace[i].allowed
                               && Asks(states[j].trace[i].req, op)
                               && states[j].trace[m] == RowPut(op)
                               && op.operationId == states[j].trace[k].id
                               && op.status == Running
                               && TargetOf(op) == states[j].trace[k].target
  {
    RunInv(states, steps, j);
    PatchFacts(states[j], k);
  }

  lemma PatchFacts(s: Sys, k: nat)
    requires Inv(s) && k < |s.trace| && s.trace[k].PatchLanded?
    ensures exists i, m, op :: 0 <= i < m < k
                               && s.trace[i].Decided? && s.trace[i].allowed && Asks(s.trace[i].req, op)
                               && s.trace[m] == RowPut(op)
                               && op.operationId == s.trace[k].id
                               && op.status == Running
                               && TargetOf(op) == s.trace[k].target
  {
    hide PastInv, ClusterInv, OwnInv, CountInv, ActorsInv, EvidenceInv, HandleInv;
    assert EventOk(s, k);
    var op := s.birth[s.trace[k].id];
    var m :| 0 <= m < k && s.trace[m] == RowPut(op) && DecidedFor(s.trace, op, true, m);
    var i :| 0 <= i < m && s.trace[i].Decided? && s.trace[i].allowed && Asks(s.trace[i].req, op);
  }
}
