/** internal/kube/rollout.go: when a deployment's rollout is complete, failed or
    still going, and what "complete" says about the pods behind the counters. */
module Rollout {
  import opened Outcomes

  datatype Condition = Condition(kind: string, status: string, reason: string)

  datatype Deployment = Deployment(generation: int, observedGeneration: int,
                                   specReplicas: Option<int>, replicas: int, updatedReplicas: int,
                                   readyReplicas: int, availableReplicas: int,
                                   conditions: seq<Condition>, progressDeadlineSeconds: Option<int>,
                                   containers: seq<string>)

  datatype Evaluation = Progressing | Complete | RolloutFailed

  /** The first condition of the given kind. */
  function GetCondition(conditions: seq<Condition>, kind: string): (r: Option<Condition>)
    ensures r.None? <==> forall i :: 0 <= i < |conditions| ==> conditions[i].kind != kind
    ensures r.Some? ==> exists i :: 0 <= i < |conditions| && conditions[i] == r.value && r.value.kind == kind
                                    && forall j :: 0 <= j < i ==> conditions[j].kind != kind
  {
    if conditions == [] then None
    else if conditions[0].kind == kind then Some(conditions[0])
    else
      var rest := GetCondition(conditions[1..], kind);
      assert forall j :: 0 < j < |conditions| ==> conditions[j] == conditions[1..][j - 1];
      assert rest.Some? ==>
          exists i :: 0 <= i < |conditions[1..]| && conditions[1..][i] == rest.value && rest.value.kind == kind
                      && (forall j :: 0 <= j < i ==> conditions[1..][j].kind != kind)
                      && conditions[i + 1] == rest.value
                      && (forall j :: 0 <= j < i + 1 ==> conditions[j].kind != kind);
      rest
  }

  predicate DeadlineExceeded(dep: Deployment) {
    var c := GetCondition(dep.conditions, "Progressing");
    c.Some? && c.value.status == "False" && c.value.reason == "ProgressDeadlineExceeded"
  }

  function Desired(dep: Deployment): int {
    if dep.specReplicas.Some? then dep.specReplicas.value else 1
  }

  function EvaluateRollout(dep: Deployment): Evaluation {
    if DeadlineExceeded(dep) && dep.observedGeneration >= dep.generation then RolloutFailed
    else if && dep.observedGeneration >= dep.generation
            && dep.updatedReplicas == Desired(dep)
            && dep.replicas == Desired(dep)
            && dep.readyReplicas == Desired(dep)
            && dep.availableReplicas == Desired(dep) then Complete
    else Progressing
  }

  /** A pod matching the deployment's selector; `rev` is the template revision
      it was created from. */
  datatype Pod = Pod(name: string, rev: nat, terminated: bool, ready: bool, available: bool)

  function Live(pods: set<Pod>): set<Pod> { set p | p in pods && !p.terminated }
  function New(pods: set<Pod>, rev: nat): set<Pod> { set p | p in Live(pods) && p.rev == rev }
  function Ready(pods: set<Pod>): set<Pod> { set p | p in Live(pods) && p.ready }
  function Available(pods: set<Pod>): set<Pod> { set p | p in Live(pods) && p.available }

  /** The four status counters were taken from this pod set, by a controller
      whose current template revision was `rev`. */
  predicate CountedFrom(dep: Deployment, pods: set<Pod>, rev: nat) {
    && dep.replicas == |Live(pods)|
    && dep.updatedReplicas == |New(pods, rev)|
    && dep.readyReplicas == |Ready(pods)|
    && dep.availableReplicas == |Available(pods)|
  }

  lemma {:induction false} EqualSizeSubset<T>(a: set<T>, b: set<T>)
    requires a <= b && |a| == |b|
    ensures a == b
  {
    if x :| x in b && x !in a {
      SubsetSize(a, b - {x});
    }
  }

  lemma {:induction false} SubsetSize<T>(a: set<T>, b: set<T>)
    requires a <= b
    ensures |a| <= |b|
  {
    if a != {} {
      var x :| x in a;
      SubsetSize(a - {x}, b - {x});
    }
  }

  /** GetCondition finds a condition, and it is this one. */
  lemma FirstCondition(conditions: seq<Condition>, kind: string, i: int)
    requires 0 <= i < |conditions| && conditions[i].kind == kind
    requires forall j :: 0 <= j < i ==> conditions[j].kind != kind
    ensures GetCondition(conditions, kind) == Some(conditions[i])
  {
    var k :| && 0 <= k < |conditions| && conditions[k] == GetCondition(conditions, kind).value
             && conditions[k].kind == kind && forall j :: 0 <= j < k ==> conditions[j].kind != kind;
    assert k == i;
  }

  lemma DeadlineMeans(dep: Deployment)
    ensures DeadlineExceeded(dep) <==>
            exists i :: && 0 <= i < |dep.conditions| && dep.conditions[i].kind == "Progressing"
                        && dep.conditions[i].status == "False"
                        && dep.conditions[i].reason == "ProgressDeadlineExceeded"
                        && forall j :: 0 <= j < i ==> dep.conditions[j].kind != "Progressing"
  {
    if i :| && 0 <= i < |dep.conditions| && dep.conditions[i].kind == "Progressing"
            && dep.conditions[i].status == "False" && dep.conditions[i].reason == "ProgressDeadlineExceeded"
            && forall j :: 0 <= j < i ==> dep.conditions[j].kind != "Progressing"
    {
      FirstCondition(dep.conditions, "Progressing", i);
    }
  }

  /** A rollout has failed exactly when the controller has seen the current
      generation and its first Progressing condition says that the deadline
      was exceeded, whatever the counters are. */
  lemma FailedMeans(dep: Deployment)
    ensures EvaluateRollout(dep) == RolloutFailed <==>
            && dep.observedGeneration >= dep.generation
            && exists i :: && 0 <= i < |dep.conditions| && dep.conditions[i].kind == "Progressing"
                           && dep.conditions[i].status == "False"
                           && dep.conditions[i].reason == "ProgressDeadlineExceeded"
                           && forall j :: 0 <= j < i ==> dep.conditions[j].kind != "Progressing"
  {
    DeadlineMeans(dep);
  }

  /** Four equal counters are enough to know every pod: a rollout evaluates to
      complete exactly when the controller has seen the current generation, the
      first condition of type Progressing does not say False for a deadline
      exceeded, and the live pods are exactly the desired number (one where the
      spec names none), each one new, ready and available. */
  lemma CompleteMeans(dep: Deployment, pods: set<Pod>, rev: nat)
    requires CountedFrom(dep, pods, rev)
    ensures EvaluateRollout(dep) == Complete <==>
            && dep.observedGeneration >= dep.generation
            && !(exists i :: && 0 <= i < |dep.conditions| && dep.conditions[i].kind == "Progressing"
                             && dep.conditions[i].status == "False"
                             && dep.conditions[i].reason == "ProgressDeadlineExceeded"
                             && forall j :: 0 <= j < i ==> dep.conditions[j].kind != "Progressing")
            && |set p | p in pods && !p.terminated| == (if dep.specReplicas.Some? then dep.specReplicas.value else 1)
            && forall p :: p in pods && !p.terminated ==> p.rev == rev && p.ready && p.available
  {
    DeadlineMeans(dep);
    assert Live(pods) == set p | p in pods && !p.terminated;
    if EvaluateRollout(dep) == Complete {
      EqualSizeSubset(New(pods, rev), Live(pods));
      EqualSizeSubset(Ready(pods), Live(pods));
      EqualSizeSubset(Available(pods), Live(pods));
      forall p | p in pods && !p.terminated
        ensures p.rev == rev && p.ready && p.available
      {
        assert p in Live(pods);
        assert p in New(pods, rev) && p in Ready(pods) && p in Available(pods);
      }
    }
    if forall p :: p in pods && !p.terminated ==> p.rev == rev && p.ready && p.available {
      assert New(pods, rev) == Live(pods);
      assert Ready(pods) == Live(pods);
      assert Available(pods) == Live(pods);
    }
  }
}
