/** Two runs that show what a success does not say. The row is written before the
    patch, so a row alone proves nothing: in one run a request thread stops
    between the two (a crash), and the sweep later finds the untouched deployment
    complete and calls the operation succeeded. In the other the patch lands and
    is undone, and the watcher sees the undo rolled out. The hypotheses of
    SuccessIsReal and SuccessIsThePatch cannot be dropped. */
module ProtocolWitness {
  import CacheKeys
  import opened Outcomes
  import opened Timestamps
  import opened Operations
  import opened Rollout
  import opened Protocol

  const T0: Time := Timestamp(2024, 1, 1, 0, 0, 0, 0)
  const T3: Time := Timestamp(2024, 1, 1, 3, 0, 0, 0)
  const TARGET: Target := Target("n", "d")
  const REQUEST: CacheKeys.Request := CacheKeys.Request("r", ACTION_RESTART, "n", "d", "refs/heads/main")

  const ROW: Operation :=
    Operation("op", Details(Identity("r", "", "", "", "", "", "", "", ""), ACTION_RESTART, "n", "d", "", "", "n#d", 0),
              Running, "", "", T0, None, [])

  /** One pod, as it was before the request. */
  const POD: Pod := Pod("p", 0, false, true, true)
  const SEEN: Observation :=
    Observation(Deployment(1, 1, Some(1), 1, 1, 1, 1, [], None, ["c"]), {POD}, [0])

  const START: Sys :=
    Sys(T0, map[], map[TARGET := [0]], map[], {}, [map[]], map[], map[], map[], map[], map[], [])

  function Last(states: seq<Sys>): Sys
    requires states != []
  {
    states[|states| - 1]
  }

  lemma Extend(states: seq<Sys>, steps: seq<Step>, step: Step) returns (states': seq<Sys>, steps': seq<Step>)
    requires Run(states, steps) && Enabled(Last(states), step)
    ensures Run(states', steps') && states' != [] && Last(states') == Apply(Last(states), step)
  {
    hide Enabled, Apply, Init;
    states', steps' := states + [Apply(Last(states), step)], steps + [step];
    forall i | 0 <= i < |steps'|
      ensures Enabled(states'[i], steps'[i]) && states'[i + 1] == Apply(states'[i], steps'[i])
    {
      if i < |steps| {
        assert Enabled(states[i], steps[i]) && states[i + 1] == Apply(states[i], steps[i]);
      }
    }
  }

  lemma SeenIsComplete()
    ensures Faithful(SEEN) && EvaluateRollout(SEEN.dep) == Complete
  {
    assert Live({POD}) == {POD} && New({POD}, 0) == {POD} && Rollout.Ready({POD}) == {POD} && Available({POD}) == {POD};
  }

  const UPDATE: TerminalUpdate := SuccessUpdate(T3)
  const TABLE: Table := map["op" := ROW]

  /* The states of the run. */

  function Decided1(): Sys {
    START.(actors := map[0 := Actor(Granted(REQUEST), [])], trace := [Decided(REQUEST, true)])
  }

  function Begun(): Sys {
    Decided1().(used := {"op"}, actors := map[0 := Actor(Putting(ROW, true), [])])
  }

  function Written(): Sys {
    Begun().(rows := TABLE, past := [map[], TABLE], birth := TABLE, actors := map[0 := Actor(Patching(ROW), [])],
             trace := [Decided(REQUEST, true), RowPut(ROW)])
  }

  function Abandoned(): Sys {
    Written().(actors := map[0 := Actor(Ready, [])])
  }

  function Swept1(pc: Pc, rest: seq<Listed>): Sys {
    Abandoned().(now := T3, actors := map[0 := Actor(Ready, []), 1 := Actor(pc, rest)])
  }

  lemma BeginGoes()
    ensures Enabled(START, Decide(0, REQUEST, true)) && Apply(START, Decide(0, REQUEST, true)) == Decided1()
    ensures Enabled(Decided1(), Begin(0, ROW, true)) && Apply(Decided1(), Begin(0, ROW, true)) == Begun()
  {
  }

  lemma PutGoes()
    ensures Enabled(Begun(), Put(0, "")) && Apply(Begun(), Put(0, "")) == Written()
  {
  }

  lemma GiveUpGoes()
    ensures Enabled(Written(), Move(0, GiveUp)) && Apply(Written(), Move(0, GiveUp)) == Abandoned()
  {
  }

  function Aged(): Sys { Abandoned().(now := T3) }

  lemma TickGoes()
    ensures Enabled(Abandoned(), Tick(T3)) && Apply(Abandoned(), Tick(T3)) == Aged()
  {
  }

  lemma RowIsListable()
    ensures Listable(Aged(), ROW)
  {
    assert Nanos(T0) + STALE_AFTER < Nanos(T3);
    assert Aged().past[1][ROW.operationId] == ROW;
  }

  lemma ListGoes()
    ensures Enabled(Aged(), List(1, [ROW])) && Apply(Aged(), List(1, [ROW])) == Swept1(Ready, [Listed(ROW, 1)])
  {
    hide NewRow, Listable, CanAct, Moved, WriteWins, Won, Nanos;
    RowIsListable();
    assert Listing(Aged(), [ROW]) == [Listed(ROW, 1)];
    assert 1 !in Aged().actors;
  }

  lemma SeeGoes()
    ensures var s := Swept1(Ready, [Listed(ROW, 1)]);
            && Enabled(s, Move(1, SweepSees(SEEN, "")))
            && Apply(s, Move(1, SweepSees(SEEN, ""))) == Swept1(Finding(ROW, None, UPDATE, Some(SEEN)), [])
  {
    hide NewRow, Listable, Listing, WriteWins, Won, Patched, Announced, StoreNew, Faithful, EvaluateRollout, Nanos;
    SeenIsComplete();
    assert [Listed(ROW, 1)][1..] == [];
  }

  lemma FindGoes()
    ensures var s := Swept1(Finding(ROW, None, UPDATE, Some(SEEN)), []);
            && Enabled(s, Move(1, Find(1)))
            && Apply(s, Move(1, Find(1))) == Swept1(Writing(ROW, None, UPDATE, Some(SEEN), T0), [])
  {
  }

  lemma WriteGoes()
    ensures var s := Swept1(Writing(ROW, None, UPDATE, Some(SEEN), T0), []);
            && Enabled(s, Write(1))
            && Apply(s, Write(1)).rows == map["op" := Operations.Resolve(ROW, UPDATE, T3)]
            && Apply(s, Write(1)).patched == map[]
            && Apply(s, Write(1)).trace == [Decided(REQUEST, true), RowPut(ROW), TerminalWritten("op", UPDATE)]
  {
  }

  lemma StartRun()
    ensures Run([START], [])
  {
  }

  /** Both runs begin with an allowed request whose row is written. */
  lemma WrittenRun() returns (states: seq<Sys>, steps: seq<Step>)
    ensures Run(states, steps) && states != [] && Last(states) == Written()
  {
    hide Run, Enabled, Apply, Decided1, Begun, Written;
    states, steps := [START], [];
    StartRun();
    BeginGoes();
    states, steps := Extend(states, steps, Decide(0, REQUEST, true));
    states, steps := Extend(states, steps, Begin(0, ROW, true));
    PutGoes();
    states, steps := Extend(states, steps, Put(0, ""));
  }

  lemma ListedRun() returns (states: seq<Sys>, steps: seq<Step>)
    ensures Run(states, steps) && states != [] && Last(states) == Swept1(Ready, [Listed(ROW, 1)])
  {
    hide Run, Enabled, Apply, Written, Abandoned, Aged, Swept1;
    states, steps := WrittenRun();
    GiveUpGoes();
    states, steps := Extend(states, steps, Move(0, GiveUp));
    TickGoes();
    states, steps := Extend(states, steps, Tick(T3));
    ListGoes();
    states, steps := Extend(states, steps, List(1, [ROW]));
  }

  /** The sweep's success of an operation whose patch never landed. */
  lemma SuccessWithoutPatch() returns (states: seq<Sys>, steps: seq<Step>)
    ensures Run(states, steps) && states != []
    ensures var s := Last(states);
            && "op" in s.rows && s.rows["op"].status == Succeeded && "op" !in s.patched
            && forall e :: e in s.trace ==> !e.PatchLanded?
  {
    hide Run, Enabled, Apply, Swept1;
    states, steps := ListedRun();
    SeeGoes();
    states, steps := Extend(states, steps, Move(1, SweepSees(SEEN, "")));
    FindGoes();
    states, steps := Extend(states, steps, Move(1, Find(1)));
    WriteGoes();
    states, steps := Extend(states, steps, Write(1));
  }

  /* A patch that is undone while its watcher looks on. */

  /** Three generations, the last of the first one's template again. */
  const UNDONE: Observation :=
    Observation(Deployment(3, 3, Some(1), 1, 1, 1, 1, [], None, ["c"]), {POD}, [0, 1, 0])
  const MARK: PatchMark := PatchMark(2, 1)
  const AT_ONCE: TerminalUpdate := SuccessUpdate(T0)

  function Landed(): Sys {
    Written().(clusters := map[TARGET := [0, 1]], patched := map["op" := MARK],
               actors := map[0 := Actor(Announcing(ROW), [])],
               trace := [Decided(REQUEST, true), RowPut(ROW), PatchLanded("op", TARGET)])
  }

  function Watched(revs: Revisions, pc: Pc): Sys {
    Landed().(clusters := map[TARGET := revs], started := map["op" := None], actors := map[0 := Actor(pc, [])],
              trace := [Decided(REQUEST, true), RowPut(ROW), PatchLanded("op", TARGET), StartAnnounced("op", None)])
  }

  lemma LandGoes()
    ensures Enabled(Written(), Patch(0, 1, None)) && Apply(Written(), Patch(0, 1, None)) == Landed()
  {
    hide NewRow, Listable, Listing, CanAct, Moved, WriteWins, Won, Sees, Nanos;
    assert Nanos(T0) <= Nanos(T0) + PATCH_BUDGET;
    assert [0] + [1] == [0, 1];
  }

  lemma AnnounceGoes()
    ensures Enabled(Landed(), Announce(0, None))
    ensures Apply(Landed(), Announce(0, None)) == Watched([0, 1], Watching(ROW, None, 2))
  {
  }

  lemma UndoGoes()
    ensures var s := Watched([0, 1], Watching(ROW, None, 2));
            && Enabled(s, EditCluster(TARGET, 0))
            && Apply(s, EditCluster(TARGET, 0)) == Watched([0, 1, 0], Watching(ROW, None, 2))
  {
    assert [0, 1] + [0] == [0, 1, 0];
  }

  lemma UndoneIsComplete()
    ensures Faithful(UNDONE) && EvaluateRollout(UNDONE.dep) == Complete
  {
    assert Live({POD}) == {POD} && New({POD}, 0) == {POD} && Rollout.Ready({POD}) == {POD} && Available({POD}) == {POD};
  }

  lemma WatchGoes()
    ensures var s := Watched([0, 1, 0], Watching(ROW, None, 2));
            && Enabled(s, Move(0, WatchSees(UNDONE)))
            && Apply(s, Move(0, WatchSees(UNDONE))) == Watched([0, 1, 0], Finding(ROW, None, AT_ONCE, Some(UNDONE)))
  {
    hide NewRow, Listable, Listing, WriteWins, Won, Patched, Announced, StoreNew, Faithful, EvaluateRollout, Nanos;
    UndoneIsComplete();
  }

  lemma FindAgainGoes()
    ensures var s := Watched([0, 1, 0], Finding(ROW, None, AT_ONCE, Some(UNDONE)));
            && Enabled(s, Move(0, Find(1)))
            && Apply(s, Move(0, Find(1))) == Watched([0, 1, 0], Writing(ROW, None, AT_ONCE, Some(UNDONE), T0))
  {
  }

  lemma WriteAgainGoes()
    ensures var s := Watched([0, 1, 0], Writing(ROW, None, AT_ONCE, Some(UNDONE), T0));
            && Enabled(s, Write(0))
            && Apply(s, Write(0)).rows == map["op" := Operations.Resolve(ROW, AT_ONCE, T0)]
            && Apply(s, Write(0)).patched == map["op" := MARK]
            && Apply(s, Write(0)).why == map["op" := UNDONE]
  {
  }

  lemma UndoneRun() returns (states: seq<Sys>, steps: seq<Step>)
    ensures Run(states, steps) && states != []
    ensures Last(states) == Watched([0, 1, 0], Watching(ROW, None, 2))
  {
    hide Run, Enabled, Apply, Written, Landed, Watched;
    states, steps := WrittenRun();
    LandGoes();
    states, steps := Extend(states, steps, Patch(0, 1, None));
    AnnounceGoes();
    states, steps := Extend(states, steps, Announce(0, None));
    UndoGoes();
    states, steps := Extend(states, steps, EditCluster(TARGET, 0));
  }

  /** A success seen after the patch was undone: the patch landed, and of the
      desired pods the write rests on, none carries it. */
  lemma SuccessAfterUndo() returns (states: seq<Sys>, steps: seq<Step>)
    ensures Run(states, steps) && states != []
    ensures var s := Last(states);
            && "op" in s.rows && s.rows["op"].status == Succeeded && "op" in s.patched && "op" in s.why
            && Live(s.why["op"].pods) != {}
            && forall p :: p in s.why["op"].pods ==> p.rev < s.patched["op"].rev
  {
    hide Run, Enabled, Apply, Watched;
    states, steps := UndoneRun();
    WatchGoes();
    states, steps := Extend(states, steps, Move(0, WatchSees(UNDONE)));
    FindAgainGoes();
    states, steps := Extend(states, steps, Move(0, Find(1)));
    WriteAgainGoes();
    states, steps := Extend(states, steps, Write(0));
    assert POD in Live({POD});
  }
}
