/** What the manager and the API handlers act on: the table of rows through the
    store's own calls, the Kubernetes API, the authorizer, the notifier and the
    clock, with every other actor of the system free to act in between. Bodies
    that stand for the environment are one way it may behave; only their
    contracts are relied on. */
module World {
  import opened Outcomes
  import opened Timestamps
  import opened Operations
  import opened Rollout
  import opened Interference
  import opened StoreSpec
  import CacheKeys
  import Dynamo

  /** The three outcomes of an authorization. */
  datatype Authorization = Allowed | Denied(reason: string) | Unavailable

  /** What this goroutine did, in order. */
  datatype Effect =
    | DecidedFx(req: CacheKeys.Request, answer: Authorization)
    | PutFx(op: Operation)
    | PatchFx(action: string, namespace: string, deployment: string, container: string, image: string)
    | StartedFx(op: Operation)
    | TerminalFx(id: string, upd: TerminalUpdate, won: bool)
    | ResolvedFx(op: Operation, msg: Option<nat>)
    | RespondFx(code: int)

  /** A deployment as read, or as a watch showed it. */
  datatype Sight = Sight(namespace: string, deployment: string, dep: Deployment)

  /** A read of a deployment: it, or a cancelled call, or any other error. */
  datatype KubeResult = Read(dep: Deployment) | Unreadable | Canceled

  /** A call to the Kubernetes API, or a wait between two, with what came back: a
      watch that started delivers these events, None being an object of another
      type. */
  datatype KubeCall =
    | Got(namespace: string, deployment: string, result: KubeResult)
    | Watched(namespace: string, deployment: string, events: Option<seq<Option<Sight>>>)
    | Patched(action: string, namespace: string, deployment: string, container: string, image: string, ok: bool)
    | Slept(d: int)

  predicate Shows(s: Sight, namespace: string, deployment: string) {
    s.namespace == namespace && s.deployment == deployment
  }

  class Environment {
    /** The calendar time at each reading of the monotone clock. */
    const calendar: int -> Time
    /** The table's key schema and the service's order of its keys. */
    const schema: Schema
    const place: Dynamo.Key -> nat
    const places: nat
    var clock: int
    var rows: Table
    /** Ids this goroutine's NewOperationID will return: nobody else's. */
    var reserved: set<string>
    /** This goroutine's effects, and the deployments it has read. */
    var trace: seq<Effect>
    var seen: seq<Sight>
    /** Its calls to the Kubernetes API and its waits, and what its reads of single
        rows returned. */
    ghost var kube: seq<KubeCall>
    ghost var finds: seq<Result<Operation>>
    /** The failed store requests of this goroutine: by the id they were made for,
        and those of listings. */
    var failures: multiset<string>
    var listFailures: nat
    /** The context this goroutine was called with has ended. */
    var ctxDone: bool

    constructor (calendar: int -> Time, schema: Schema, place: Dynamo.Key -> nat, places: nat, clock: int, rows: Table,
                 reserved: set<string>)
      ensures this.calendar == calendar && this.clock == clock && this.rows == rows && this.reserved == reserved
      ensures trace == [] && seen == [] && kube == [] && finds == []
      ensures failures == multiset{} && listFailures == 0 && !ctxDone
    {
      this.calendar, this.schema, this.place, this.places := calendar, schema, place, places;
      this.clock, this.rows, this.reserved := clock, rows, reserved;
      trace, seen, kube, finds, failures, listFailures, ctxDone := [], [], [], [], multiset{}, 0, false;
    }

    function Now(): Time
      reads this
    {
      calendar(clock)
    }

    /** `t` was read off the calendar since. */
    twostate predicate ReadSince(t: Time)
      reads this
    {
      exists c :: old(clock) <= c <= clock && t == calendar(c)
    }

    /** The calendar has kept pace with the clock over this long until now. */
    predicate KeptPace(d: int)
      reads this
    {
      Nanos(calendar(clock - d)) == Nanos(calendar(clock)) - d
    }

    /** Time went on, the context may have ended, the table changed as the
        others (or a terminal write) may change it, errors are remembered. */
    twostate predicate Passed()
      reads this
    {
      && old(clock) <= clock
      && (old(ctxDone) ==> ctxDone)
      && old(failures) <= failures && old(listFailures) <= listFailures
      && Interferes(old(rows), rows, reserved)
    }

    /** The others act. */
    method Yield()
      modifies this`clock, this`rows, this`ctxDone
      ensures Passed()
    {
    }

    /** PutItem of a row under a fresh id. */
    method Put(op: Operation) returns (ok: bool)
      requires op.operationId in reserved && op.operationId !in rows
      modifies this`clock, this`rows, this`ctxDone, this`failures, this`reserved, this`trace
      ensures reserved == old(reserved) - {op.operationId} && Passed()
      ensures ok ==> op.operationId in rows && rows[op.operationId] == op
      ensures failures == old(failures) + if ok then multiset{} else multiset{op.operationId}
      ensures trace == if ok then old(trace) + [PutFx(op)] else old(trace)
    {
      Yield();
      ok := *;
      reserved := reserved - {op.operationId};
      if ok {
        rows := rows[op.operationId := op];
        trace := trace + [PutFx(op)];
      } else {
        failures := failures + multiset{op.operationId};
      }
    }

    /** The table as the store's client sees it: others write between any two
        requests of a call. */
    method Items() returns (store: Dynamo.DynamoStore)
      requires Keyed(rows)
      ensures fresh(store) && fresh(store.table) && store.table.Valid()
      ensures store.table.content == Content(rows, {}) && store.table.failures == 0
      ensures store.table.reserved == reserved && store.table.schema == schema
    {
      var table := new Dynamo.DynamoTable.Holding(schema, place, places, false, reserved, rows);
      store := new Dynamo.DynamoStore(table);
    }

    /** GetOperation: a version of the row, or an error. */
    method Find(id: string) returns (r: Result<Operation>)
      requires Keyed(rows)
      modifies this`clock, this`rows, this`ctxDone, this`failures, this`finds
      ensures Passed() && finds == old(finds) + [r]
      ensures failures == old(failures) || failures == old(failures) + multiset{id}
      ensures r.Ok? ==> id in rows && RowEvolves(r.value, rows[id])
      ensures r.Err? ==> r.error != AlreadyTerminal
      ensures r.Err? && id in old(rows) ==> failures != old(failures)
    {
      hide Dynamo.Represents, Dynamo.UniqueKeys, Dynamo.BrokenKept, Dynamo.RowsOf, Interferes, TableEvolves, RowEvolves;
      hide Lists, Resolve, Addressable, IsResolution;
      ghost var before := rows;
      Yield();
      ghost var middle := rows;
      KeyedOn(before, middle, reserved);
      var store := Items();
      r := store.GetOperation(id);
      finds := finds + [r];
      Dynamo.RowsOfSound(store.table.rows, store.table.content);
      rows := Dynamo.RowsOf(store.table.rows);
      if store.table.failures > 0 {
        failures := failures + multiset{id};
      }
      InterferesTransitive(before, middle, rows, reserved);
      if id in before {
        InterferesRow(before, middle, reserved, id);
      }
    }

    /** UpdateTerminal: the find and the conditional write, won only against a
        row still running. A row that was there is resolved by somebody unless a
        request failed or the table's schema cannot address it. */
    method UpdateTerminal(id: string, upd: TerminalUpdate) returns (r: Result<()>)
      requires Keyed(rows) && IsResolution(upd.status)
      modifies this`clock, this`rows, this`ctxDone, this`failures
      ensures Passed()
      ensures failures == old(failures) || failures == old(failures) + multiset{id}
      ensures r.Ok? ==> exists met :: Dynamo.Resolves(old(rows), rows, id, met, upd)
      ensures r == Err(AlreadyTerminal) ==> id in rows && rows[id].status != Running
      ensures id in old(rows) ==>
                || r.Ok? || r == Err(AlreadyTerminal) || failures != old(failures)
                || (id in rows && !Addressable(schema, rows[id]))
    {
      hide Dynamo.Represents, Dynamo.UniqueKeys, Dynamo.BrokenKept, Dynamo.RowsOf, Interferes, TableEvolves, RowEvolves;
      hide Lists, Resolve, Addressable, IsResolution;
      ghost var before := rows;
      Yield();
      ghost var middle := rows;
      KeyedOn(before, middle, reserved);
      var store := Items();
      r := store.UpdateTerminal(id, upd);
      Dynamo.RowsOfSound(store.table.rows, store.table.content);
      rows := Dynamo.RowsOf(store.table.rows);
      if store.table.failures > 0 {
        failures := failures + multiset{id};
      }
      InterferesTransitive(before, middle, rows, reserved);
      if id in before {
        InterferesRow(before, middle, reserved, id);
      }
      if r.Ok? {
        ghost var met :| Dynamo.Resolves(middle, rows, id, met, upd);
        Dynamo.ResolvesEarlier(before, middle, rows, id, met, upd, reserved);
      }
    }

    /** ListRunningPastDeadline, its pages read while others write: what it
        returns are rows that were running when read, and no row that was there
        before and is still running and past the cutoff after is missing. */
    method ListRunning(cutoff: Time) returns (r: Result<seq<Operation>>)
      requires Keyed(rows)
      modifies this`clock, this`rows, this`ctxDone, this`listFailures
      ensures Passed() && Keyed(rows)
      ensures r.Ok? ==> Lists(r.value, old(rows), rows, cutoff)
      ensures r.Err? ==> listFailures != old(listFailures)
    {
      hide Dynamo.Represents, Dynamo.UniqueKeys, Dynamo.BrokenKept, Dynamo.RowsOf, Interferes, TableEvolves, RowEvolves;
      hide Lists, Resolve, Addressable, IsResolution;
      ghost var before := rows;
      Yield();
      ghost var middle := rows;
      KeyedOn(before, middle, reserved);
      var store := Items();
      r := store.ListRunningPastDeadline(cutoff);
      Dynamo.RowsOfSound(store.table.rows, store.table.content);
      rows := Dynamo.RowsOf(store.table.rows);
      listFailures := listFailures + store.table.failures;
      InterferesTransitive(before, middle, rows, reserved);
      KeyedOn(before, rows, reserved);
      if r.Ok? {
        ListsEarlier(r.value, before, middle, rows, cutoff, reserved);
      }
    }

    /** GetDeployment; `mine`: called with the context this goroutine was given. */
    method GetDeployment(namespace: string, deployment: string, mine: bool) returns (r: KubeResult)
      modifies this`clock, this`rows, this`ctxDone, this`seen, this`kube
      ensures Passed() && kube == old(kube) + [Got(namespace, deployment, r)]
      ensures seen == old(seen) + if r.Read? then [Sight(namespace, deployment, r.dep)] else []
      ensures r.Canceled? ==> mine && ctxDone
    {
      Yield();
      r := *;
      if r.Canceled? && !(mine && ctxDone) {
        r := Unreadable;
      }
      kube := kube + [Got(namespace, deployment, r)];
      if r.Read? {
        seen := seen + [Sight(namespace, deployment, r.dep)];
      }
    }

    /** One watch of a deployment: nothing if it does not start, else what it
        delivers until its channel closes; an object of another type is None. */
    method Watch(namespace: string, deployment: string) returns (r: Option<seq<Option<Sight>>>)
      modifies this`clock, this`rows, this`ctxDone, this`kube
      ensures Passed() && kube == old(kube) + [Watched(namespace, deployment, r)]
      ensures r.Some? ==>
                forall i :: 0 <= i < |r.value| && r.value[i].Some? ==> Shows(r.value[i].value, namespace, deployment)
    {
      Yield();
      r := *;
      if r.Some? && exists i :: && 0 <= i < |r.value| && r.value[i].Some?
                                && !Shows(r.value[i].value, namespace, deployment) {
        r := None;
      }
      kube := kube + [Watched(namespace, deployment, r)];
    }

    /** The next event of a watch arrives. */
    method Receive(e: Option<Sight>)
      modifies this`clock, this`rows, this`ctxDone, this`seen
      ensures Passed()
      ensures seen == old(seen) + if e.Some? then [e.value] else []
    {
      Yield();
      if e.Some? {
        seen := seen + [e.value];
      }
    }

    /** A patch of a deployment's pod template. A call that reports an error may
        have landed all the same. */
    method Patch(action: string, namespace: string, deployment: string, container: string, image: string)
        returns (ok: bool, ghost landed: bool)
      modifies this`clock, this`rows, this`ctxDone, this`trace, this`kube
      ensures Passed() && kube == old(kube) + [Patched(action, namespace, deployment, container, image, ok)]
      ensures ok ==> landed
      ensures trace == old(trace) + if landed then [PatchFx(action, namespace, deployment, container, image)] else []
    {
      Yield();
      ok := *;
      var lost: bool := *;
      landed := ok || lost;
      kube := kube + [Patched(action, namespace, deployment, container, image, ok)];
      if ok || lost {
        trace := trace + [PatchFx(action, namespace, deployment, container, image)];
      }
    }

    /** The authorizer answers. */
    method Decide(req: CacheKeys.Request) returns (answer: Authorization)
      modifies this`clock, this`rows, this`ctxDone, this`trace
      ensures Passed()
      ensures trace == old(trace) + [DecidedFx(req, answer)]
    {
      Yield();
      answer := *;
      trace := trace + [DecidedFx(req, answer)];
    }

    /** Something that takes no time and cannot fail. */
    method Emit(e: Effect)
      modifies this`trace
      ensures trace == old(trace) + [e]
    {
      trace := trace + [e];
    }

    /** sleepCtx: true after d, false only once the deadline has passed. */
    method Sleep(d: int, deadline: int) returns (woke: bool)
      requires d > 0
      modifies this`clock, this`rows, this`ctxDone, this`kube
      ensures Passed() && kube == old(kube) + [Slept(d)]
      ensures woke ==> clock >= old(clock) + d
      ensures !woke ==> clock >= deadline
    {
      Yield();
      kube := kube + [Slept(d)];
      woke := *;
      if woke {
        clock := clock + d;
      } else if clock < deadline {
        clock := deadline;
      }
    }
  }
}
