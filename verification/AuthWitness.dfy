/** The README says that narrowing a ref constraint takes effect within 30s.
    It does not: refs are cached for 30s, and a decision made from cached refs
    is cached for another 30s. This run shows a request allowed 60s after the
    constraint that denies it was put in place. */
module AuthWitness {
  import opened Outcomes
  import opened CacheKeys
  import opened RefPattern
  import opened Keycloak
  import opened AuthRuns

  const REPO: string := "r"
  const NS: string := "n"
  const DEP: string := "d"
  const ACTION: string := "a"
  const NAME: string := NS + "/" + DEP

  function Ask(ref: string): Request {
    CacheKeys.Request(REPO, ACTION, NS, DEP, ref)
  }

  /** Any ref is accepted at time 0; from the next nanosecond on, only "x". */
  function Narrowed(t: int): Policy {
    Policy(username => [User("u", username)],
           (user, name, action) => true,
           name => if t <= 0 then [] else [Resource(name, map["allowed_refs" := ["x"]])])
  }

  function Last(states: seq<Sys>): Sys
    requires states != []
  {
    states[|states| - 1]
  }

  lemma Extend(states: seq<Sys>, steps: seq<Step>, step: Step) returns (states': seq<Sys>, steps': seq<Step>)
    requires Run(Narrowed, 0, states, steps) && Enabled(Last(states), step, 0)
    ensures Run(Narrowed, 0, states', steps') && states' != []
    ensures Last(states') == Apply(Narrowed, Last(states), step, 0)
  {
    hide Enabled, Apply, Init;
    states', steps' := states + [Apply(Narrowed, Last(states), step, 0)], steps + [step];
    forall i | 0 <= i < |steps'|
      ensures Enabled(states'[i], steps'[i], 0) && states'[i + 1] == Apply(Narrowed, states'[i], steps'[i], 0)
    {
      if i < |steps| {
        assert states'[i] == states[i] && states'[i + 1] == states[i + 1] && steps'[i] == steps[i];
      }
    }
  }

  /** Only call `c` is inside, at `pc`; the caches are `base`'s. */
  function At(base: Sys, c: nat, req: Request, began: int, pc: Pc): Sys {
    base.(calls := map[c := Call(req, began, pc)])
  }

  lemma Go(states: seq<Sys>, steps: seq<Step>, base: Sys, c: nat, req: Request, began: int, pc: Pc,
           base': Sys, pc': Pc) returns (states': seq<Sys>, steps': seq<Step>)
    requires Run(Narrowed, 0, states, steps) && Last(states) == At(base, c, req, began, pc)
    requires StepCall(Narrowed, At(base, c, req, began, pc), c) == At(base', c, req, began, pc')
    ensures Run(Narrowed, 0, states', steps') && states' != [] && Last(states') == At(base', c, req, began, pc')
  {
    hide StepCall;
    states', steps' := Extend(states, steps, Step(c));
  }

  const EMPTY: Sys := Sys(0, map[], map[], map[], map[], map[], map[], map[], [])

  /** The user is cached. */
  function Known(): Sys {
    EMPTY.(users := map[REPO := Entry("u", 0)], userAt := map[REPO := 0])
  }

  const MARK: RefsMark := RefsMark(NAME, ACTION, 0)

  /** The unconstrained refs of time 0 are cached too. */
  function Loaded(): Sys {
    var key := RefsKey(NAME, ACTION);
    Known().(refs := map[key := Entry([], 0)], refsAt := map[key := MARK])
  }

  function Proof(ref: string, permitSeen: int): Evidence {
    Evidence(Ask(ref), permitSeen, "u", 0, permitSeen, [], MARK)
  }

  /** The system once ref "a" has been allowed at time 0. */
  function Primed(): Sys {
    var key := DecisionKey(Ask("a"));
    Loaded().(decisions := map[key := Entry(true, 0)], why := map[key := Proof("a", 0)],
              answers := [Answer(Ask("a"), 0, 0, Allowed(Live, Proof("a", 0)))])
  }

  lemma NarrowedFacts(t: int)
    ensures PickUser(Narrowed(t).users(REPO), REPO) == Some("u")
    ensures t <= 0 ==> RefsFor(Narrowed(t).resources(NAME), NAME, ACTION) == []
    ensures t > 0 ==> RefsFor(Narrowed(t).resources(NAME), NAME, ACTION) == ["x"]
    ensures ResourceName(Ask("a")) == NAME && ResourceName(Ask("b")) == NAME
  {
    assert EqualFold(REPO, REPO);
    if t > 0 {
      var attributes := map["allowed_refs" := ["x"]];
      assert |"allowed_refs." + ACTION| != |"allowed_refs"|;
      assert RefsOf(attributes, ACTION) == ["x"];
    }
  }

  /** From the first nanosecond on, evaluating from scratch denies "b". */
  lemma ReferenceDenies(t: int)
    requires t > 0
    ensures Reference(Narrowed(t), Ask("b")) == RefDenied
  {
    NarrowedFacts(t);
    MatchRefMeans(["x"], "b");
    assert !Denotes("x", "b");
  }

  lemma KeysDiffer()
    ensures DecisionKey(Ask("a")) != DecisionKey(Ask("b"))
  {
    assert NulFreeRequest(Ask("b"));
    DecisionKeyOwned(Ask("b"));
  }

  lemma FirstHalf() returns (states: seq<Sys>, steps: seq<Step>)
    ensures Run(Narrowed, 0, states, steps) && states != []
    ensures Last(states) == At(Known(), 0, Ask("a"), 0, CheckRefs("u", 0, 0))
  {
    hide DecisionKey, RefsKey, Run, RefsFor;
    NarrowedFacts(0);
    var req := Ask("a");
    states, steps := Begin();
    states, steps := Go(states, steps, EMPTY, 0, req, 0, CheckDecision, EMPTY, CheckUser);
    states, steps := Go(states, steps, EMPTY, 0, req, 0, CheckUser, EMPTY, QueryUser);
    states, steps := Go(states, steps, EMPTY, 0, req, 0, QueryUser, EMPTY, StoreUser("u", 0));
    states, steps := Go(states, steps, EMPTY, 0, req, 0, StoreUser("u", 0), Known(), QueryGrant("u", 0));
    states, steps := Go(states, steps, Known(), 0, req, 0, QueryGrant("u", 0), Known(), CheckRefs("u", 0, 0));
  }

  lemma Begin() returns (states: seq<Sys>, steps: seq<Step>)
    ensures Run(Narrowed, 0, states, steps) && states != []
    ensures Last(states) == At(EMPTY, 0, Ask("a"), 0, CheckDecision)
  {
    states, steps := Extend([EMPTY], [], Start(0, Ask("a")));
  }

  lemma SecondHalf() returns (states: seq<Sys>, steps: seq<Step>)
    ensures Run(Narrowed, 0, states, steps) && states != []
    ensures Last(states) == At(Loaded(), 0, Ask("a"), 0, Judge(Proof("a", 0)))
  {
    hide DecisionKey, RefsKey, Run, RefsFor, MatchRef, PickUser;
    NarrowedFacts(0);
    var req := Ask("a");
    states, steps := FirstHalf();
    states, steps := Go(states, steps, Known(), 0, req, 0, CheckRefs("u", 0, 0), Known(), QueryRefs("u", 0, 0));
    states, steps := Go(states, steps, Known(), 0, req, 0, QueryRefs("u", 0, 0),
                        Known(), StoreRefs("u", 0, 0, [], 0));
    states, steps := Go(states, steps, Known(), 0, req, 0, StoreRefs("u", 0, 0, [], 0),
                        Loaded(), Judge(Proof("a", 0)));
  }

  /** A cold call for ref "a" at time 0 fills all three caches. */
  lemma ColdCall() returns (states: seq<Sys>, steps: seq<Step>)
    ensures Run(Narrowed, 0, states, steps) && states != [] && Last(states) == Primed()
  {
    hide DecisionKey, RefsKey, Run, MatchRef;
    MatchRefMeans([], "a");
    states, steps := SecondHalf();
    states, steps := Go(states, steps, Loaded(), 0, Ask("a"), 0, Judge(Proof("a", 0)),
                        Loaded(), StorePermit(Proof("a", 0)));
    states, steps := Extend(states, steps, Step(0));
    assert Last(states).calls == map[];
  }

  const HALF: int := 30 * SECOND

  /** The primed system 30s later. */
  function Later(): Sys {
    Primed().(now := HALF)
  }

  lemma WarmStart() returns (states: seq<Sys>, steps: seq<Step>)
    ensures Run(Narrowed, 0, states, steps) && states != []
    ensures Last(states) == At(Later(), 1, Ask("b"), HALF, CheckDecision)
  {
    hide DecisionKey, RefsKey, Run;
    states, steps := ColdCall();
    states, steps := Extend(states, steps, Tick(HALF));
    states, steps := Extend(states, steps, Start(1, Ask("b")));
  }

  lemma WarmUser() returns (states: seq<Sys>, steps: seq<Step>)
    ensures Run(Narrowed, 0, states, steps) && states != []
    ensures Last(states) == At(Later(), 1, Ask("b"), HALF, QueryGrant("u", 0))
  {
    hide DecisionKey, RefsKey, Run, RefsFor, MatchRef, PickUser;
    KeysDiffer();
    var b := Ask("b");
    states, steps := WarmStart();
    states, steps := Go(states, steps, Later(), 1, b, HALF, CheckDecision, Later(), CheckUser);
    states, steps := Go(states, steps, Later(), 1, b, HALF, CheckUser, Later(), QueryGrant("u", 0));
  }

  lemma WarmLookups() returns (states: seq<Sys>, steps: seq<Step>)
    ensures Run(Narrowed, 0, states, steps) && states != []
    ensures Last(states) == At(Later(), 1, Ask("b"), HALF, CheckRefs("u", 0, HALF))
  {
    hide DecisionKey, RefsKey, Run, RefsFor, MatchRef, PickUser;
    var b := Ask("b");
    states, steps := WarmUser();
    states, steps := Go(states, steps, Later(), 1, b, HALF, QueryGrant("u", 0), Later(), CheckRefs("u", 0, HALF));
  }

  /** The state after that: the permit for "b" is cached afresh. */
  predicate Warmed(s: Sys) {
    var key := DecisionKey(Ask("b"));
    && s.now == HALF && s.calls == map[]
    && s.users == Known().users && s.userAt == Known().userAt
    && key in s.decisions && s.decisions[key] == Entry(true, HALF)
    && key in s.why && s.why[key] == Proof("b", HALF)
  }

  /** At 30s the refs of time 0 are still served, and the permit for "b" that
      they lead to is cached afresh. */
  lemma WarmCall() returns (states: seq<Sys>, steps: seq<Step>)
    ensures Run(Narrowed, 0, states, steps) && states != [] && Warmed(Last(states))
  {
    hide DecisionKey, RefsKey, Run, RefsFor, MatchRef, PickUser;
    states, steps := WarmJudged();
    states, steps := Extend(states, steps, Step(1));
    assert Last(states).calls == map[];
  }

  lemma WarmJudged() returns (states: seq<Sys>, steps: seq<Step>)
    ensures Run(Narrowed, 0, states, steps) && states != []
    ensures Last(states) == At(Later(), 1, Ask("b"), HALF, StorePermit(Proof("b", HALF)))
  {
    hide DecisionKey, RefsKey, Run, RefsFor, MatchRef, PickUser, WellFormed, Denotes;
    NarrowedFacts(HALF);
    MatchRefMeans([], "b");
    var b := Ask("b");
    states, steps := WarmLookups();
    states, steps := Go(states, steps, Later(), 1, b, HALF, CheckRefs("u", 0, HALF), Later(), Judge(Proof("b", HALF)));
    states, steps := Go(states, steps, Later(), 1, b, HALF, Judge(Proof("b", HALF)),
                        Later(), StorePermit(Proof("b", HALF)));
  }

  /** The last answer of the run: allowed at `at` on the refs of time 0, although
      every evaluation from scratch since just after then is a ref denial. */
  ghost predicate AllowedLate(states: seq<Sys>, at: int, path: Path) {
    && states != [] && Last(states).answers != []
    && var ans := Last(states).answers[|Last(states).answers| - 1];
    && ans.at == at && ans.req == Ask("b") && ans.outcome == Allowed(path, Proof("b", HALF))
    && forall t :: 0 < t ==> Reference(Narrowed(t), ans.req) == RefDenied
  }

  /** A run, with instantaneous calls, that answers Allowed at 60s although
      every evaluation from scratch since just after time 0 is a ref denial. */
  lemma NarrowingTakesSixtySeconds() returns (states: seq<Sys>, steps: seq<Step>)
    ensures Run(Narrowed, 0, states, steps) && AllowedLate(states, 60 * SECOND, Fresh)
  {
    hide DecisionKey, RefsKey, Run, Reference;
    states, steps := WarmCall();
    states, steps := Extend(states, steps, Tick(60 * SECOND));
    states, steps := Extend(states, steps, Start(2, Ask("b")));
    states, steps := Extend(states, steps, Step(2));
    forall t | 0 < t
      ensures Reference(Narrowed(t), Ask("b")) == RefDenied
    {
      ReferenceDenies(t);
    }
  }

  const LATE: int := 360 * SECOND

  lemma StaleCall(states0: seq<Sys>, steps0: seq<Step>) returns (states: seq<Sys>, steps: seq<Step>)
    requires Run(Narrowed, 0, states0, steps0) && states0 != [] && Warmed(Last(states0))
    ensures Run(Narrowed, 0, states, steps) && states != []
    ensures var late := Last(states0).(now := LATE);
            Last(states) == At(late, 3, Ask("b"), LATE, QueryGrant("u", 0))
  {
    hide DecisionKey, RefsKey, Run, RefsFor, MatchRef, PickUser, Reference;
    var b, late := Ask("b"), Last(states0).(now := LATE);
    states, steps := Extend(states0, steps0, Tick(LATE));
    states, steps := Extend(states, steps, Start(3, b));
    states, steps := Go(states, steps, late, 3, b, LATE, CheckDecision, late, CheckUser);
    states, steps := Go(states, steps, late, 3, b, LATE, CheckUser, late, QueryGrant("u", 0));
  }

  /** With an outage at the end: allowed 360s after the narrowing. */
  lemma NarrowingTakesSixMinutes() returns (states: seq<Sys>, steps: seq<Step>)
    ensures Run(Narrowed, 0, states, steps) && AllowedLate(states, LATE, Stale)
  {
    hide DecisionKey, RefsKey, Run, RefsFor, MatchRef, PickUser, Reference;
    states, steps := WarmCall();
    states, steps := StaleCall(states, steps);
    states, steps := Extend(states, steps, Fail(3));
    states, steps := Extend(states, steps, Step(3));
    forall t | 0 < t
      ensures Reference(Narrowed(t), Ask("b")) == RefDenied
    {
      ReferenceDenies(t);
    }
  }

  /** In every run of instantaneous calls, every permit, served stale or not,
      rests on refs at most this old. */
  ghost predicate RefsWithin(stale: bool, bound: int) {
    forall hist: History, states: seq<Sys>, steps: seq<Step>, i: nat, k: nat ::
      Run(hist, 0, states, steps) && i < |states| && k < |states[i].answers| ==>
        var ans := states[i].answers[k];
        ans.outcome.Allowed? && (ans.outcome.path == Stale) == stale ==> ans.at - ans.outcome.ev.mark.seen <= bound
  }

  lemma WitnessBounds(states: seq<Sys>, steps: seq<Step>, at: int, path: Path, bound: int)
    requires Run(Narrowed, 0, states, steps) && AllowedLate(states, at, path) && RefsWithin(path == Stale, bound)
    ensures at <= bound
  {
    hide Run, Reference;
    var i, k: nat := |states| - 1, |Last(states).answers| - 1;
    assert states[i].answers[k].outcome.Allowed?;
  }

  /** The exact age of the refs behind a permit: a bound holds in every run if and
      only if it is at least 60s, or 360s for permits served stale. */
  lemma RefsAgeIsTight(stale: bool, bound: int)
    ensures RefsWithin(stale, bound) <==> bound >= (if stale then 360 else 60) * SECOND
  {
    hide Run, AllowedLate;
    if RefsWithin(stale, bound) {
      if stale {
        var states, steps := NarrowingTakesSixMinutes();
        WitnessBounds(states, steps, LATE, Stale, bound);
      } else {
        var states, steps := NarrowingTakesSixtySeconds();
        WitnessBounds(states, steps, 60 * SECOND, Fresh, bound);
      }
    }
    if bound >= (if stale then 360 else 60) * SECOND {
      forall hist: History, states: seq<Sys>, steps: seq<Step>, i: nat, k: nat |
        Run(hist, 0, states, steps) && i < |states| && k < |states[i].answers|
        && states[i].answers[k].outcome.Allowed? && (states[i].answers[k].outcome.path == Stale) == stale
        ensures states[i].answers[k].at - states[i].answers[k].outcome.ev.mark.seen <= bound
      {
        PermitsRestOnRecentEvidence(hist, 0, states, steps, i, k);
      }
    }
  }
}
