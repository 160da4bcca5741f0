/** The token source under concurrent callers of the admin client. Token holds
    its mutex across the whole fetch, Invalidate takes it for one assignment; a
    caller (one call of do) makes at most two attempts, the second after a failed
    token fetch, a transport error, a 5xx or a 401, and invalidates after every
    401. `began` of a token is when its fetch began. */
module TokenRuns {
  import opened Outcomes

  datatype Issued = Issued(token: string, began: nat)

  datatype Pc =
    | Wanting
    | Fetching(began: nat)
    | Sending(issued: Issued)
    | Rejected
    | Done

  const MAX_ATTEMPTS: nat := 2

  /** `attempts`: those that have ended; `invalidated`: when this caller last
      invalidated after a 401, if it did. */
  datatype Caller = Caller(pc: Pc, attempts: nat, invalidated: Option<nat>)

  /** A request that was sent: in which attempt, with which token, and after which
      invalidation. */
  datatype Sent = Sent(caller: nat, attempt: nat, issued: Issued, invalidated: Option<nat>)

  /** Failed: no response, or a 5xx. */
  datatype Outcome = Answered | Unauthorized | Failed

  datatype Sys = Sys(now: nat, cached: Option<Issued>, holder: Option<nat>, callers: map<nat, Caller>,
                     sent: seq<Sent>)

  predicate Init(s: Sys) {
    s.cached == None && s.holder == None && s.callers == map[] && s.sent == []
  }

  datatype Step =
    | Start(c: nat)
    | TakeCached(c: nat)
    | BeginFetch(c: nat)
    | EndFetch(c: nat, token: Option<string>)
    | Send(c: nat, outcome: Outcome)
    | Invalidate(c: nat)

  predicate Enabled(s: Sys, step: Step) {
    match step
    case Start(c) => c !in s.callers
    case TakeCached(c) => c in s.callers && s.callers[c].pc.Wanting? && s.holder == None && s.cached.Some?
    case BeginFetch(c) => c in s.callers && s.callers[c].pc.Wanting? && s.holder == None
    case EndFetch(c, _) => c in s.callers && s.callers[c].pc.Fetching? && s.holder == Some(c)
    case Send(c, _) => c in s.callers && s.callers[c].pc.Sending?
    case Invalidate(c) => c in s.callers && s.callers[c].pc.Rejected? && s.holder == None
  }

  function Goto(s: Sys, c: nat, pc: Pc): Sys
    requires c in s.callers
  {
    s.(callers := s.callers[c := s.callers[c].(pc := pc)])
  }

  /** The caller after an attempt that may be retried. */
  function Retried(caller: Caller): Caller {
    Caller(if caller.attempts + 1 < MAX_ATTEMPTS then Wanting else Done, caller.attempts + 1, caller.invalidated)
  }

  function AfterSend(caller: Caller, outcome: Outcome): Caller {
    match outcome
    case Answered => caller.(pc := Done, attempts := caller.attempts + 1)
    case Unauthorized => caller.(pc := Rejected)
    case Failed => Retried(caller)
  }

  /** Every step takes time; a failed fetch leaves the cached token alone. */
  function Apply(s0: Sys, step: Step): Sys
    requires Enabled(s0, step)
  {
    var s := s0.(now := s0.now + 1);
    match step
    case Start(c) => s.(callers := s.callers[c := Caller(Wanting, 0, None)])
    case TakeCached(c) => Goto(s, c, Sending(s.cached.value))
    case BeginFetch(c) => Goto(s.(holder := Some(c)), c, Fetching(s.now))
    case EndFetch(c, token) =>
      (match token
       case None => s.(holder := None, callers := s.callers[c := Retried(s.callers[c])])
       case Some(t) =>
         var issued := Issued(t, s.callers[c].pc.began);
         Goto(s.(holder := None, cached := Some(issued)), c, Sending(issued)))
    case Send(c, outcome) =>
      var caller := s.callers[c];
      s.(sent := s.sent + [Sent(c, caller.attempts, caller.pc.issued, caller.invalidated)],
         callers := s.callers[c := AfterSend(caller, outcome)])
    case Invalidate(c) =>
      s.(cached := None, callers := s.callers[c := Retried(s.callers[c].(invalidated := Some(s.now)))])
  }

  predicate Run(states: seq<Sys>, steps: seq<Step>) {
    && |states| == |steps| + 1
    && Init(states[0])
    && forall i :: 0 <= i < |steps| ==> Enabled(states[i], steps[i]) && states[i + 1] == Apply(states[i], steps[i])
  }

  /** Whatever a caller that invalidated can still get began later. */
  predicate Later(s: Sys, c: nat)
    requires c in s.callers
  {
    match s.callers[c].invalidated
    case None => true
    case Some(t) =>
      && t <= s.now && s.callers[c].attempts > 0
      && (s.cached.Some? ==> t < s.cached.value.began)
      && (s.callers[c].pc.Sending? ==> t < s.callers[c].pc.issued.began)
      && (s.holder.Some? && s.holder.value in s.callers && s.callers[s.holder.value].pc.Fetching? ==>
            t < s.callers[s.holder.value].pc.began)
  }

  predicate SentOk(sent: seq<Sent>) {
    forall i :: 0 <= i < |sent| && sent[i].invalidated.Some? ==>
                  sent[i].invalidated.value < sent[i].issued.began && sent[i].attempt > 0
  }

  /** An attempt sends at most one request, and a caller makes at most two. */
  predicate Counted(s: Sys) {
    && (forall c :: c in s.callers ==> s.callers[c].attempts <= MAX_ATTEMPTS)
    && (forall c :: c in s.callers && !s.callers[c].pc.Done? ==> s.callers[c].attempts < MAX_ATTEMPTS)
    && (forall i :: 0 <= i < |s.sent| ==>
                      s.sent[i].caller in s.callers && Ended(s.callers[s.sent[i].caller], s.sent[i]))
    && (forall i, j :: 0 <= i < j < |s.sent| && s.sent[i].caller == s.sent[j].caller ==>
                         s.sent[i].attempt < s.sent[j].attempt)
  }

  /** The attempt that sent this is over, but for an invalidation. */
  predicate Ended(caller: Caller, x: Sent) {
    x.attempt < caller.attempts || (x.attempt == caller.attempts && caller.pc.Rejected?)
  }

  /** The mutex: who holds it is fetching, and nobody else is. */
  predicate Mutex(s: Sys) {
    && (forall c :: c in s.callers ==> (s.callers[c].pc.Fetching? <==> s.holder == Some(c)))
    && (forall c :: c in s.callers && s.callers[c].pc.Fetching? ==> s.callers[c].pc.began <= s.now)
    && (s.holder.Some? ==> s.holder.value in s.callers)
  }

  predicate Inv(s: Sys) {
    && Counted(s) && Mutex(s) && SentOk(s.sent)
    && forall c :: c in s.callers ==> Later(s, c)
  }

  lemma StepInv(s: Sys, step: Step)
    requires Inv(s) && Enabled(s, step)
    ensures Inv(Apply(s, step))
  {
    hide Counted, Mutex, Later, SentOk, Apply, Enabled;
    StepCounted(s, step);
    StepMutex(s, step);
    StepSent(s, step);
    forall c | c in Apply(s, step).callers
      ensures Later(Apply(s, step), c)
    {
      StepLater(s, step, c);
    }
  }

  lemma StepMutex(s: Sys, step: Step)
    requires Mutex(s) && Enabled(s, step)
    ensures Mutex(Apply(s, step))
  {
  }

  lemma StepLater(s: Sys, step: Step, c: nat)
    requires Mutex(s) && Enabled(s, step) && c in Apply(s, step).callers && (c in s.callers ==> Later(s, c))
    ensures Later(Apply(s, step), c)
  {
  }

  lemma StepSent(s: Sys, step: Step)
    requires SentOk(s.sent) && Enabled(s, step) && forall c :: c in s.callers ==> Later(s, c)
    ensures SentOk(Apply(s, step).sent)
  {
    if step.Send? {
      assert Later(s, step.c);
    }
  }

  lemma StepCounted(s: Sys, step: Step)
    requires Counted(s) && Enabled(s, step)
    ensures Counted(Apply(s, step))
  {
    var t := Apply(s, step);
    forall i | 0 <= i < |t.sent|
      ensures t.sent[i].caller in t.callers && Ended(t.callers[t.sent[i].caller], t.sent[i])
    {
      if i < |s.sent| {
        assert Ended(s.callers[s.sent[i].caller], s.sent[i]);
      }
    }
  }

  lemma {:induction false} RunInv(states: seq<Sys>, steps: seq<Step>)
    requires Run(states, steps)
    ensures forall i :: 0 <= i < |states| ==> Inv(states[i])
  {
    hide Inv, Apply, Enabled;
    if steps == [] {
      assert Inv(states[0]) by { InitInv(states[0]); }
    } else {
      var n := |steps| - 1;
      assert Run(states[..n + 1], steps[..n]);
      RunInv(states[..n + 1], steps[..n]);
      assert states[n] == states[..n + 1][n];
      StepInv(states[n], steps[n]);
      forall i | 0 <= i < |states|
        ensures Inv(states[i])
      {
        if i <= n {
          assert states[i] == states[..n + 1][i];
        }
      }
    }
  }

  lemma InitInv(s: Sys)
    requires Init(s)
    ensures Inv(s)
  {
  }

  /** In every run, whatever the others fetch and invalidate in between: a
      request sent after a 401 carries a token whose fetch began after this
      caller's own invalidation, and it is the second and last of its call. */
  lemma RetryIsFresh(states: seq<Sys>, steps: seq<Step>, k: nat, i: nat)
    requires Run(states, steps) && k < |states| && i < |states[k].sent|
    requires states[k].sent[i].invalidated.Some?
    ensures states[k].sent[i].invalidated.value < states[k].sent[i].issued.began
    ensures states[k].sent[i].attempt == 1
    ensures forall j :: i < j < |states[k].sent| ==> states[k].sent[j].caller != states[k].sent[i].caller
  {
    RunInv(states, steps);
    assert Inv(states[k]);
    var sent := states[k].sent;
    forall j | 0 <= j < |sent|
      ensures sent[j].attempt < MAX_ATTEMPTS
    {
      assert Ended(states[k].callers[sent[j].caller], sent[j]);
    }
  }
}
