/** What every step of the lifecycle protocol keeps. */
module ProtocolInvariant {
  import CacheKeys
  import opened Outcomes
  import opened Timestamps
  import opened Operations
  import opened Rollout
  import opened Protocol

  /* ------------------------------------------------------------------ */
  /* Counting events of a trace                                           */
  /* ------------------------------------------------------------------ */

  /** Successful terminal writes of `id`. */
  function Wins(trace: seq<Event>, id: string): nat {
    if trace == [] then 0
    else
      var e := trace[|trace| - 1];
      Wins(trace[..|trace| - 1], id) + (if e.TerminalWritten? && e.id == id then 1 else 0)
  }

  /** Resolved notifications of `id`. */
  function Resolutions(trace: seq<Event>, id: string): nat {
    if trace == [] then 0
    else
      var e := trace[|trace| - 1];
      Resolutions(trace[..|trace| - 1], id) + (if e.ResolvedAnnounced? && e.op.operationId == id then 1 else 0)
  }

  lemma CountLast(trace: seq<Event>, e: Event, id: string)
    ensures Wins(trace + [e], id) == Wins(trace, id) + (if e.TerminalWritten? && e.id == id then 1 else 0)
    ensures Resolutions(trace + [e], id)
            == Resolutions(trace, id) + (if e.ResolvedAnnounced? && e.op.operationId == id then 1 else 0)
  {
    assert (trace + [e])[..|trace|] == trace;
  }

  /** Actors that won the write of `id` and have not announced it yet. */
  function Pending(actors: map<nat, Actor>, id: string): set<nat> {
    set a | a in actors && actors[a].pc.Winning? && actors[a].pc.op.operationId == id
  }

  /* ------------------------------------------------------------------ */
  /* Evidence                                                             */
  /* ------------------------------------------------------------------ */

  /** The operation's request thread can no longer patch. */
  predicate PatchClosed(s: Sys, id: string)
    requires id in s.birth
  {
    Nanos(s.birth[id].requestedAt) + PATCH_BUDGET < Nanos(s.now)
  }

  /** An observation that justifies calling `id` succeeded: complete, and not
      older than the operation's patch, if there is one. */
  predicate GoodSeen(s: Sys, id: string, obs: Observation) {
    && Faithful(obs)
    && EvaluateRollout(obs.dep) == Complete
    && id in s.birth
    && (id in s.patched ==>
          && 1 <= s.patched[id].generation <= |obs.revs|
          && obs.revs[s.patched[id].generation - 1] == s.patched[id].rev)
    && (id !in s.patched ==> PatchClosed(s, id))
  }

  predicate DecidedBefore(trace: seq<Event>, req: CacheKeys.Request, allowed: bool, k: nat) {
    exists i :: 0 <= i < k && i < |trace| && trace[i] == Decided(req, allowed)
  }

  /** A decision on the question behind this row. */
  predicate DecidedFor(trace: seq<Event>, op: Operation, allowed: bool, k: nat) {
    exists i :: 0 <= i < k && i < |trace| && trace[i].Decided? && trace[i].allowed == allowed && Asks(trace[i].req, op)
  }

  predicate PutAfterPermit(trace: seq<Event>, op: Operation, k: nat) {
    exists j :: 0 <= j < k && j < |trace| && trace[j] == RowPut(op) && DecidedFor(trace, op, true, j)
  }

  /* ------------------------------------------------------------------ */
  /* The invariant                                                        */
  /* ------------------------------------------------------------------ */

  /* The parts take the fields they speak about, so that a step which leaves
     those fields alone keeps them at once. */

  predicate RowsInv(birth: Table, rows: Table, used: set<string>, won: map<string, TerminalUpdate>) {
    && birth.Keys == rows.Keys
    && rows.Keys <= used
    && won.Keys <= rows.Keys
    && (forall id :: id in birth ==>
          birth[id].operationId == id && (birth[id].status == Running || birth[id].status == Denied))
    && (forall id :: id in birth && id !in won ==> rows[id] == birth[id])
    && (forall id :: id in won ==>
          && birth[id].status == Running
          && IsResolution(won[id].status)
          && rows[id] == Resolve(birth[id], won[id], won[id].completedAt))
  }

  predicate PastInv(past: seq<Table>, birth: Table, rows: Table, won: map<string, TerminalUpdate>) {
    && past != []
    && past[|past| - 1] == rows
    && forall j, id :: 0 <= j < |past| && id in past[j] ==>
         id in birth && id in rows && (past[j][id] == birth[id] || (id in won && past[j][id] == rows[id]))
  }

  predicate ClusterInv(clusters: map<Target, Revisions>, patched: map<string, PatchMark>, birth: Table) {
    && (forall t :: t in clusters ==> clusters[t] != [])
    && patched.Keys <= birth.Keys
    && forall id :: id in patched ==>
         && TargetOf(birth[id]) in clusters
         && 1 <= patched[id].generation <= |clusters[TargetOf(birth[id])]|
         && clusters[TargetOf(birth[id])][patched[id].generation - 1] == patched[id].rev
  }

  /** The operation a request thread has not handed over yet. */
  function Owned(pc: Pc): Option<string> {
    match pc
    case Putting(op, _) => Some(op.operationId)
    case Patching(op) => Some(op.operationId)
    case Announcing(op) => Some(op.operationId)
    case _ => None
  }

  predicate HandleInv(started: map<string, Option<Handle>>, patched: map<string, PatchMark>) {
    && started.Keys <= patched.Keys
    && forall i, j :: i in started && j in started && i != j && started[i].Some? ==> started[i] != started[j]
  }

  predicate OwnInv(actors: map<nat, Actor>) {
    forall a, b :: a in actors && b in actors && a != b && Owned(actors[a].pc).Some? ==>
      Owned(actors[a].pc) != Owned(actors[b].pc)
  }

  predicate CopyOk(s: Sys, op: Operation) {
    op.operationId in s.birth && s.birth[op.operationId] == op && op.status == Running
  }

  predicate MessageOk(s: Sys, id: string, msg: Option<Handle>) {
    msg.Some? ==> id in s.started && s.started[id] == msg
  }

  predicate UpdateOk(s: Sys, op: Operation, upd: TerminalUpdate, seen: Option<Observation>) {
    && IsResolution(upd.status)
    && (upd.status == Succeeded ==> seen.Some? && GoodSeen(s, op.operationId, seen.value))
  }

  predicate PcOk(s: Sys, pc: Pc) {
    match pc
    case Granted(req) => DecidedBefore(s.trace, req, true, |s.trace|)
    case Refused(req) => DecidedBefore(s.trace, req, false, |s.trace|)
    case Putting(op, _) =>
      && op.status == Running
      && op.operationId in s.used && op.operationId !in s.rows
      && DecidedFor(s.trace, op, true, |s.trace|)
    case Patching(op) =>
      && CopyOk(s, op)
      && op.operationId !in s.patched && op.operationId !in s.started
      && PutAfterPermit(s.trace, op, |s.trace|)
    case Announcing(op) => CopyOk(s, op) && op.operationId in s.patched && op.operationId !in s.started
    case Watching(op, msg, since) =>
      && CopyOk(s, op) && op.operationId in s.patched && s.patched[op.operationId].generation <= since
      && MessageOk(s, op.operationId, msg)
    case Ready => true
    case Finding(op, msg, upd, seen) =>
      CopyOk(s, op) && MessageOk(s, op.operationId, msg) && UpdateOk(s, op, upd, seen)
    case Writing(op, msg, upd, seen, key) =>
      && CopyOk(s, op) && MessageOk(s, op.operationId, msg) && UpdateOk(s, op, upd, seen)
      && key == op.requestedAt
    case Winning(op, msg, upd) =>
      && CopyOk(s, op) && MessageOk(s, op.operationId, msg)
      && op.operationId in s.won && s.won[op.operationId] == upd
  }

  predicate RestOk(s: Sys, rest: seq<Listed>) {
    forall i :: 0 <= i < |rest| ==> ListedOk(s, rest[i])
  }

  /** Too old to be patched any more, and looked at no earlier than its patch. */
  predicate ListedOk(s: Sys, l: Listed) {
    var id := l.op.operationId;
    && CopyOk(s, l.op) && Nanos(l.op.requestedAt) + STALE_AFTER < Nanos(s.now)
    && (id in s.patched ==> s.patched[id].generation <= l.since)
  }

  predicate ActorsInv(s: Sys) {
    forall a :: a in s.actors ==> PcOk(s, s.actors[a].pc) && RestOk(s, s.actors[a].rest)
  }

  predicate EventOk(s: Sys, k: nat)
    requires k < |s.trace|
  {
    match s.trace[k]
    case Decided(_, _) => true
    case RowPut(op) =>
      && op.operationId in s.birth && s.birth[op.operationId] == op
      && DecidedFor(s.trace, op, op.status == Running, k)
    case PatchLanded(id, target) =>
      && id in s.birth && s.birth[id].status == Running && id in s.patched
      && TargetOf(s.birth[id]) == target
      && PutAfterPermit(s.trace, s.birth[id], k)
    case StartAnnounced(id, msg) => id in s.started && s.started[id] == msg
    case TerminalWritten(id, upd) => id in s.won && s.won[id] == upd
    case ResolvedAnnounced(op, msg) =>
      && op.operationId in s.won && op.operationId in s.birth
      && op == ApplyTerminal(s.birth[op.operationId], s.won[op.operationId])
      && MessageOk(s, op.operationId, msg)
  }

  predicate TraceInv(s: Sys) {
    forall k: nat :: k < |s.trace| ==> EventOk(s, k)
  }

  ghost predicate CountInv(trace: seq<Event>, actors: map<nat, Actor>, won: map<string, TerminalUpdate>) {
    forall id :: && Wins(trace, id) == (if id in won then 1 else 0)
                 && Resolutions(trace, id) + |Pending(actors, id)| == Wins(trace, id)
  }

  predicate EvidenceInv(s: Sys) {
    forall id :: id in s.won && s.won[id].status == Succeeded ==> id in s.why && GoodSeen(s, id, s.why[id])
  }

  ghost predicate Inv(s: Sys) {
    && RowsInv(s.birth, s.rows, s.used, s.won)
    && PastInv(s.past, s.birth, s.rows, s.won)
    && ClusterInv(s.clusters, s.patched, s.birth)
    && HandleInv(s.started, s.patched)
    && OwnInv(s.actors)
    && CountInv(s.trace, s.actors, s.won)
    && Justified(s)
  }

  /** Every actor, event and success rests on recorded history. */
  predicate Justified(s: Sys) {
    ActorsInv(s) && TraceInv(s) && EvidenceInv(s)
  }

  lemma InitInv(s: Sys)
    requires Init(s)
    ensures Inv(s)
  {
    forall id
      ensures Wins(s.trace, id) == 0 && Resolutions(s.trace, id) == 0 && Pending(s.actors, id) == {}
    {
    }
  }

  /* ------------------------------------------------------------------ */
  /* Framing: history only grows                                          */
  /* ------------------------------------------------------------------ */

  predicate MapGrows<K, V(==)>(m: map<K, V>, n: map<K, V>) {
    forall k :: k in m ==> k in n && n[k] == m[k]
  }

  /** A patch can only be added while its operation was still patchable. */
  predicate PatchesGrow(s: Sys, t: Sys) {
    && MapGrows(s.patched, t.patched)
    && forall id :: id in s.birth && id in t.patched && id !in s.patched ==> !PatchClosed(s, id)
  }

  /** Everything a justified actor or event relies on only grows. */
  predicate Grows(s: Sys, t: Sys) {
    && Nanos(s.now) <= Nanos(t.now)
    && MapGrows(s.birth, t.birth)
    && MapGrows(s.won, t.won)
    && MapGrows(s.started, t.started)
    && s.trace <= t.trace
    && PatchesGrow(s, t)
  }

  lemma GoodSeenGrows(s: Sys, t: Sys, id: string, obs: Observation)
    requires Grows(s, t) && GoodSeen(s, id, obs)
    ensures GoodSeen(t, id, obs)
  {
  }

  lemma DecidedGrows(u: seq<Event>, v: seq<Event>, req: CacheKeys.Request, allowed: bool, k: nat, l: nat)
    requires u <= v && k <= l && DecidedBefore(u, req, allowed, k)
    ensures DecidedBefore(v, req, allowed, l)
  {
    var i :| 0 <= i < k && i < |u| && u[i] == Decided(req, allowed);
    assert v[i] == u[i];
  }

  lemma DecidedForGrows(u: seq<Event>, v: seq<Event>, op: Operation, allowed: bool, k: nat, l: nat)
    requires u <= v && k <= l && DecidedFor(u, op, allowed, k)
    ensures DecidedFor(v, op, allowed, l)
  {
    var i :| 0 <= i < k && i < |u| && u[i].Decided? && u[i].allowed == allowed && Asks(u[i].req, op);
    assert v[i] == u[i];
  }

  lemma DecidedAsks(trace: seq<Event>, req: CacheKeys.Request, op: Operation, allowed: bool, k: nat)
    requires DecidedBefore(trace, req, allowed, k) && Asks(req, op)
    ensures DecidedFor(trace, op, allowed, k)
  {
  }

  lemma PutGrows(u: seq<Event>, v: seq<Event>, op: Operation, k: nat, l: nat)
    requires u <= v && k <= l && PutAfterPermit(u, op, k)
    ensures PutAfterPermit(v, op, l)
  {
    var j :| 0 <= j < k && j < |u| && u[j] == RowPut(op) && DecidedFor(u, op, true, j);
    assert v[j] == u[j];
    DecidedForGrows(u, v, op, true, j, j);
  }

  /** A request thread's exclusive claims: its row is not written, patched or
      announced by anyone else. A step must keep these itself. */
  predicate ClaimKept(pc: Pc, used: set<string>, rows: Table, patched: map<string, PatchMark>,
                      started: map<string, Option<Handle>>) {
    && (pc.Putting? ==> pc.op.operationId in used && pc.op.operationId !in rows)
    && (pc.Patching? ==> pc.op.operationId !in patched && pc.op.operationId !in started)
    && (pc.Announcing? ==> pc.op.operationId !in started)
  }

  predicate ClaimsKept(actors: map<nat, Actor>, used: set<string>, rows: Table,
                       patched: map<string, PatchMark>, started: map<string, Option<Handle>>) {
    forall a :: a in actors ==> ClaimKept(actors[a].pc, used, rows, patched, started)
  }

  lemma ClaimsNow(s: Sys)
    requires ActorsInv(s)
    ensures ClaimsKept(s.actors, s.used, s.rows, s.patched, s.started)
  {
    forall a | a in s.actors
      ensures ClaimKept(s.actors[a].pc, s.used, s.rows, s.patched, s.started)
    {
      assert PcOk(s, s.actors[a].pc);
    }
  }

  /** Growth of the identifiers in use never disturbs a claim. */
  lemma ClaimsUse(s: Sys, used: set<string>)
    requires ActorsInv(s) && s.used <= used
    ensures ClaimsKept(s.actors, used, s.rows, s.patched, s.started)
  {
    ClaimsNow(s);
    forall a | a in s.actors
      ensures ClaimKept(s.actors[a].pc, used, s.rows, s.patched, s.started)
    {
      assert ClaimKept(s.actors[a].pc, s.used, s.rows, s.patched, s.started);
    }
  }

  lemma PcGrows(s: Sys, t: Sys, pc: Pc)
    requires Grows(s, t) && PcOk(s, pc) && ClaimKept(pc, t.used, t.rows, t.patched, t.started)
    ensures PcOk(t, pc)
  {
    match pc
    case Granted(req) => DecidedGrows(s.trace, t.trace, req, true, |s.trace|, |t.trace|);
    case Refused(req) => DecidedGrows(s.trace, t.trace, req, false, |s.trace|, |t.trace|);
    case Putting(op, _) => DecidedForGrows(s.trace, t.trace, op, true, |s.trace|, |t.trace|);
    case Patching(op) => PutGrows(s.trace, t.trace, op, |s.trace|, |t.trace|);
    case _ =>
  }

  lemma EventGrows(s: Sys, t: Sys, k: nat)
    requires Grows(s, t) && k < |s.trace| && EventOk(s, k)
    ensures EventOk(t, k)
  {
    assert t.trace[k] == s.trace[k];
    match s.trace[k]
    case RowPut(op) => DecidedForGrows(s.trace, t.trace, op, op.status == Running, k, k);
    case PatchLanded(id, _) => PutGrows(s.trace, t.trace, s.birth[id], k, k);
    case _ =>
  }

  lemma EventsGrow(s: Sys, t: Sys)
    requires Grows(s, t) && TraceInv(s)
    requires forall k: nat :: |s.trace| <= k < |t.trace| ==> EventOk(t, k)
    ensures TraceInv(t)
  {
    forall k: nat | k < |t.trace|
      ensures EventOk(t, k)
    {
      if k < |s.trace| {
        EventGrows(s, t, k);
      }
    }
  }

  /** All actors but one keep their place; that one is justified anew. */
  lemma ActorsGrow(s: Sys, t: Sys, a: nat, act: Actor)
    requires Grows(s, t) && ActorsInv(s)
    requires t.actors == s.actors[a := act] && PcOk(t, act.pc) && RestOk(t, act.rest)
    requires forall b :: b in s.actors && b != a ==>
               ClaimKept(s.actors[b].pc, t.used, t.rows, t.patched, t.started)
    ensures ActorsInv(t)
  {
    forall b | b in t.actors
      ensures PcOk(t, t.actors[b].pc) && RestOk(t, t.actors[b].rest)
    {
      if b != a {
        PcGrows(s, t, s.actors[b].pc);
      }
    }
  }

  /** A step that moves nobody and wins nothing keeps every justification. */
  lemma JustifiedGrows(s: Sys, t: Sys)
    requires Grows(s, t) && Justified(s) && t.actors == s.actors
    requires ClaimsKept(s.actors, t.used, t.rows, t.patched, t.started)
    requires t.won == s.won && t.why == s.why
    requires forall k: nat :: |s.trace| <= k < |t.trace| ==> EventOk(t, k)
    ensures Justified(t)
  {
    forall a | a in t.actors
      ensures PcOk(t, t.actors[a].pc) && RestOk(t, t.actors[a].rest)
    {
      PcGrows(s, t, s.actors[a].pc);
    }
    EventsGrow(s, t);
    EvidenceGrows(s, t);
  }

  lemma EvidenceGrows(s: Sys, t: Sys)
    requires Grows(s, t) && EvidenceInv(s) && t.won == s.won && t.why == s.why
    ensures EvidenceInv(t)
  {
    forall id | id in t.won && t.won[id].status == Succeeded
      ensures id in t.why && GoodSeen(t, id, t.why[id])
    {
      GoodSeenGrows(s, t, id, s.why[id]);
    }
  }

  /* ------------------------------------------------------------------ */
  /* One change at a time                                                 */
  /* ------------------------------------------------------------------ */

  lemma CountEmit(trace: seq<Event>, actors: map<nat, Actor>, won: map<string, TerminalUpdate>, e: Event)
    requires CountInv(trace, actors, won)
    requires !e.TerminalWritten? && !e.ResolvedAnnounced?
    ensures CountInv(trace + [e], actors, won)
  {
    forall id
      ensures Wins(trace + [e], id) == Wins(trace, id) && Resolutions(trace + [e], id) == Resolutions(trace, id)
    {
      CountLast(trace, e, id);
    }
  }

  lemma CountMove(trace: seq<Event>, actors: map<nat, Actor>, won: map<string, TerminalUpdate>,
                  a: nat, act: Actor)
    requires CountInv(trace, actors, won)
    requires !act.pc.Winning? && (a in actors ==> !actors[a].pc.Winning?)
    ensures CountInv(trace, actors[a := act], won)
  {
    forall id
      ensures Pending(actors[a := act], id) == Pending(actors, id)
    {
    }
    forall id
      ensures Wins(trace, id) == (if id in won then 1 else 0)
      ensures Resolutions(trace, id) + |Pending(actors[a := act], id)| == Wins(trace, id)
    {
      assert Pending(actors[a := act], id) == Pending(actors, id);
    }
  }

  /** Moving one actor, when no win is pending on either side. */
  lemma SetActor(s: Sys, a: nat, act: Actor)
    requires Inv(s) && PcOk(s, act.pc) && RestOk(s, act.rest)
    requires !act.pc.Winning? && (a in s.actors ==> !s.actors[a].pc.Winning?)
    requires Owned(act.pc).Some? ==>
               forall b :: b in s.actors && b != a ==> Owned(s.actors[b].pc) != Owned(act.pc)
    ensures Inv(s.(actors := s.actors[a := act]))
  {
    var t := s.(actors := s.actors[a := act]);
    assert OwnInv(t.actors);
    CountMove(s.trace, s.actors, s.won, a, act);
    SetActorJustified(s, a, act);
  }

  lemma SetActorJustified(s: Sys, a: nat, act: Actor)
    requires Justified(s) && PcOk(s, act.pc) && RestOk(s, act.rest)
    ensures Justified(s.(actors := s.actors[a := act]))
  {
    var t := s.(actors := s.actors[a := act]);
    forall b | b in t.actors
      ensures PcOk(t, t.actors[b].pc) && RestOk(t, t.actors[b].rest)
    {
      PcSame(s, t, t.actors[b].pc);
    }
    EventsGrow(s, t);
    EvidenceGrows(s, t);
  }

  lemma PcSame(s: Sys, t: Sys, pc: Pc)
    requires t == s.(actors := t.actors) && PcOk(s, pc)
    ensures PcOk(t, pc)
  {
    PcGrows(s, t, pc);
  }

  lemma TickInv(s: Sys, to: Time)
    requires Inv(s) && Nanos(s.now) <= Nanos(to)
    ensures Inv(s.(now := to))
  {
    ClaimsNow(s);
    JustifiedGrows(s, s.(now := to));
  }

  lemma EditInv(s: Sys, target: Target, rev: nat)
    requires Inv(s)
    ensures Inv(s.(clusters := s.clusters[target := Revs(s, target) + [rev]]))
  {
    hide PcOk, TraceInv, EvidenceInv, ActorsInv, RowsInv, PastInv, HandleInv, OwnInv, CountInv;
    var t := s.(clusters := s.clusters[target := Revs(s, target) + [rev]]);
    assert ClusterInv(t.clusters, t.patched, t.birth);
    ClaimsNow(s);
    JustifiedGrows(s, t);
  }

  lemma UseInv(s: Sys, id: string)
    requires Inv(s)
    ensures Inv(s.(used := s.used + {id}))
  {
    var t := s.(used := s.used + {id});
    assert RowsInv(t.birth, t.rows, t.used, t.won);
    ClaimsUse(s, t.used);
    JustifiedGrows(s, t);
  }

  lemma DecideInv(s: Sys, req: CacheKeys.Request, allowed: bool)
    requires Inv(s)
    ensures Inv(Emit(s, Decided(req, allowed)))
    ensures DecidedBefore(Emit(s, Decided(req, allowed)).trace, req, allowed, |s.trace| + 1)
  {
    var t := Emit(s, Decided(req, allowed));
    assert t.trace[|s.trace|] == Decided(req, allowed);
    ClaimsNow(s);
    JustifiedGrows(s, t);
    CountEmit(s.trace, s.actors, s.won, Decided(req, allowed));
  }

  lemma PastSnoc(past: seq<Table>, birth: Table, rows: Table, won: map<string, TerminalUpdate>,
                 birth': Table, rows': Table, won': map<string, TerminalUpdate>)
    requires PastInv(past, birth, rows, won)
    requires MapGrows(birth, birth') && rows.Keys <= rows'.Keys && rows'.Keys == birth'.Keys
    requires forall id :: id in won ==> id in won' && id in rows' && (id in rows ==> rows'[id] == rows[id])
    requires forall id :: id in rows' && id !in won' ==> rows'[id] == birth'[id]
    ensures PastInv(past + [rows'], birth', rows', won')
  {
    var p := past + [rows'];
    forall j, id | 0 <= j < |p| && id in p[j]
      ensures id in birth' && id in rows' && (p[j][id] == birth'[id] || (id in won' && p[j][id] == rows'[id]))
    {
      if j < |past| {
        assert p[j] == past[j];
      }
    }
  }

  lemma RowsNew(birth: Table, rows: Table, used: set<string>, won: map<string, TerminalUpdate>, op: Operation)
    requires RowsInv(birth, rows, used, won)
    requires op.operationId in used && op.operationId !in rows && (op.status == Running || op.status == Denied)
    ensures RowsInv(birth[op.operationId := op], rows[op.operationId := op], used, won)
  {
  }

  lemma PastNew(past: seq<Table>, birth: Table, rows: Table, used: set<string>,
                won: map<string, TerminalUpdate>, op: Operation)
    requires RowsInv(birth, rows, used, won) && PastInv(past, birth, rows, won) && op.operationId !in rows
    ensures PastInv(past + [rows[op.operationId := op]], birth[op.operationId := op],
                    rows[op.operationId := op], won)
  {
    PastSnoc(past, birth, rows, won, birth[op.operationId := op], rows[op.operationId := op], won);
  }

  lemma ClusterNew(clusters: map<Target, Revisions>, patched: map<string, PatchMark>, birth: Table, op: Operation)
    requires ClusterInv(clusters, patched, birth) && op.operationId !in birth
    ensures ClusterInv(clusters, patched, birth[op.operationId := op])
  {
  }

  lemma KeysAgree(s: Sys)
    requires Inv(s)
    ensures s.birth.Keys == s.rows.Keys && s.patched.Keys <= s.birth.Keys && s.rows.Keys <= s.used
    ensures forall id :: id in s.rows && s.rows[id].status == Running ==> id !in s.won
  {
    hide PastInv, OwnInv, HandleInv, CountInv, Justified;
  }

  /** A fresh row appears; no request thread may be about to write it. */
  lemma StoreNewInv(s: Sys, op: Operation)
    requires Inv(s) && op.operationId in s.used && op.operationId !in s.rows
    requires op.status == Running || op.status == Denied
    requires DecidedFor(s.trace, op, op.status == Running, |s.trace|)
    requires forall a :: a in s.actors ==> Owned(s.actors[a].pc) != Some(op.operationId)
    ensures Inv(StoreNew(s, op))
    ensures op.status == Running ==> PutAfterPermit(StoreNew(s, op).trace, op, |s.trace| + 1)
  {
    hide PcOk, ActorsInv, TraceInv, EvidenceInv, OwnInv, HandleInv, CountInv, PastInv;
    hide RowsInv, ClusterInv, PutAfterPermit, DecidedFor;
    var t := StoreNew(s, op);
    KeysAgree(s);
    RowsNew(s.birth, s.rows, s.used, s.won, op);
    PastNew(s.past, s.birth, s.rows, s.used, s.won, op);
    ClusterNew(s.clusters, s.patched, s.birth, op);
    CountEmit(s.trace, s.actors, s.won, RowPut(op));
    StoreNewJustified(s, op);
  }

  lemma StoreNewJustified(s: Sys, op: Operation)
    requires Justified(s) && op.operationId !in s.rows && op.operationId !in s.birth
    requires s.patched.Keys <= s.birth.Keys
    requires DecidedFor(s.trace, op, op.status == Running, |s.trace|)
    requires forall a :: a in s.actors ==> Owned(s.actors[a].pc) != Some(op.operationId)
    ensures Justified(StoreNew(s, op))
    ensures op.status == Running ==> PutAfterPermit(StoreNew(s, op).trace, op, |s.trace| + 1)
  {
    hide ActorsInv, TraceInv, EvidenceInv;
    var t := StoreNew(s, op);
    assert t.trace == s.trace + [RowPut(op)];
    assert t.trace[|s.trace|] == RowPut(op);
    DecidedForGrows(s.trace, t.trace, op, op.status == Running, |s.trace|, |s.trace|);
    StoreNewClaims(s, op);
    assert EventOk(t, |s.trace|);
    JustifiedGrows(s, t);
  }

  lemma StoreNewClaims(s: Sys, op: Operation)
    requires ActorsInv(s)
    requires forall a :: a in s.actors ==> Owned(s.actors[a].pc) != Some(op.operationId)
    ensures ClaimsKept(s.actors, s.used, s.rows[op.operationId := op], s.patched, s.started)
  {
    ClaimsNow(s);
    forall a | a in s.actors
      ensures ClaimKept(s.actors[a].pc, s.used, s.rows[op.operationId := op], s.patched, s.started)
    {
      assert ClaimKept(s.actors[a].pc, s.used, s.rows, s.patched, s.started);
      assert Owned(s.actors[a].pc) != Some(op.operationId);
    }
  }

  lemma ActorNow(s: Sys, a: nat)
    requires Justified(s) && a in s.actors
    ensures PcOk(s, s.actors[a].pc) && RestOk(s, s.actors[a].rest)
  {
  }

  /** An actor about to leave its claim on `id` is the only one that has it. */
  lemma SoleOwner(s: Sys, a: nat)
    requires Inv(s) && a in s.actors && Owned(s.actors[a].pc).Some?
    ensures forall b :: b in s.actors && b != a ==> Owned(s.actors[b].pc) != Owned(s.actors[a].pc)
  {
  }

  lemma ClusterPatch(clusters: map<Target, Revisions>, patched: map<string, PatchMark>, birth: Table,
                     id: string, revs: Revisions, rev: nat)
    requires ClusterInv(clusters, patched, birth) && id in birth && TargetOf(birth[id]) in clusters
    requires revs == clusters[TargetOf(birth[id])] + [rev]
    ensures ClusterInv(clusters[TargetOf(birth[id]) := revs], patched[id := PatchMark(|revs|, rev)], birth)
  {
  }

  function PatchedSys(s: Sys, op: Operation, revs: Revisions, rev: nat): Sys {
    Emit(s.(clusters := s.clusters[TargetOf(op) := revs],
            patched := s.patched[op.operationId := PatchMark(|revs|, rev)]),
         PatchLanded(op.operationId, TargetOf(op)))
  }

  lemma PatchShared(s: Sys, op: Operation, revs: Revisions, rev: nat)
    requires Inv(s) && CopyOk(s, op) && op.operationId !in s.patched
    requires TargetOf(op) in s.clusters && revs == s.clusters[TargetOf(op)] + [rev]
    requires !PatchClosed(s, op.operationId)
    requires PutAfterPermit(s.trace, op, |s.trace|)
    requires forall a :: a in s.actors ==> Owned(s.actors[a].pc) != Some(op.operationId)
    ensures Inv(PatchedSys(s, op, revs, rev))
  {
    hide PcOk, ActorsInv, TraceInv, EvidenceInv, RowsInv, PastInv, OwnInv, CountInv, ClusterInv, PutAfterPermit;
    var t := PatchedSys(s, op, revs, rev);
    ClusterPatch(s.clusters, s.patched, s.birth, op.operationId, revs, rev);
    assert HandleInv(t.started, t.patched);
    CountEmit(s.trace, s.actors, s.won, PatchLanded(op.operationId, TargetOf(op)));
    PatchJustified(s, op, revs, rev);
  }

  lemma PatchJustified(s: Sys, op: Operation, revs: Revisions, rev: nat)
    requires Justified(s) && CopyOk(s, op) && op.operationId !in s.patched
    requires !PatchClosed(s, op.operationId)
    requires PutAfterPermit(s.trace, op, |s.trace|)
    requires forall a :: a in s.actors ==> Owned(s.actors[a].pc) != Some(op.operationId)
    ensures Justified(PatchedSys(s, op, revs, rev))
  {
    hide PcOk, ActorsInv, TraceInv, EvidenceInv, PutAfterPermit;
    var t := PatchedSys(s, op, revs, rev);
    PutGrows(s.trace, t.trace, op, |s.trace|, |s.trace|);
    assert t.trace[|s.trace|] == PatchLanded(op.operationId, TargetOf(op));
    ClaimsNow(s);
    forall b | b in s.actors
      ensures ClaimKept(s.actors[b].pc, t.used, t.rows, t.patched, t.started)
    {
      assert ClaimKept(s.actors[b].pc, s.used, s.rows, s.patched, s.started);
      assert Owned(s.actors[b].pc) != Some(op.operationId);
    }
    assert EventOk(t, |s.trace|);
    JustifiedGrows(s, t);
  }

  /** The actor that stood aside takes up its next place. */
  lemma Rejoin(s: Sys, a: nat, t: Sys, act: Actor)
    requires Inv(t) && a in t.actors && !t.actors[a].pc.Winning? && !act.pc.Winning?
    requires PcOk(t, act.pc) && RestOk(t, act.rest)
    requires t.actors == s.actors[a := t.actors[a]]
    requires Owned(act.pc).Some? ==> forall b :: b in t.actors ==> Owned(t.actors[b].pc) != Owned(act.pc)
    ensures Inv(t.(actors := s.actors[a := act]))
  {
    hide Inv, PcOk, RestOk;
    SetActor(t, a, act);
    assert t.actors[a := act] == s.actors[a := act];
  }

  /** An actor that owns an operation steps aside for a change of shared state. */
  lemma StandAside(s: Sys, a: nat)
    requires Inv(s) && a in s.actors && Owned(s.actors[a].pc).Some?
    ensures var r := s.(actors := s.actors[a := Actor(Ready, s.actors[a].rest)]);
            && Inv(r) && PcOk(s, s.actors[a].pc) && RestOk(r, s.actors[a].rest)
            && forall b :: b in r.actors ==> Owned(r.actors[b].pc) != Owned(s.actors[a].pc)
  {
    hide ActorsInv, TraceInv, EvidenceInv, RowsInv, PastInv, OwnInv, HandleInv, CountInv, ClusterInv;
    ActorNow(s, a);
    SoleOwner(s, a);
    SetActor(s, a, Actor(Ready, s.actors[a].rest));
  }

  lemma PatchInv(s: Sys, a: nat, rev: nat, reply: Option<string>)
    requires Inv(s) && Enabled(s, Step.Patch(a, rev, reply))
    ensures Inv(Patched(s, a, rev, reply))
  {
    hide Inv, RestOk, PutAfterPermit;
    var op, rest := s.actors[a].pc.op, s.actors[a].rest;
    var target := TargetOf(op);
    StandAside(s, a);
    var r := s.(actors := s.actors[a := Actor(Ready, rest)]);
    var revs := s.clusters[target] + [rev];
    PatchShared(r, op, revs, rev);
    var t := PatchedSys(r, op, revs, rev);
    PatchRest(r, op, revs, rev, rest);
    Rejoin(s, a, t, Actor(AfterPatch(op, reply, s.now), rest));
  }

  /** What is listed elsewhere is too old to be the operation just patched. */
  lemma PatchRest(s: Sys, op: Operation, revs: Revisions, rev: nat, rest: seq<Listed>)
    requires CopyOk(s, op) && !PatchClosed(s, op.operationId) && RestOk(s, rest)
    ensures RestOk(PatchedSys(s, op, revs, rev), rest)
  {
    forall i | 0 <= i < |rest|
      ensures ListedOk(PatchedSys(s, op, revs, rev), rest[i])
    {
      assert ListedOk(s, rest[i]);
    }
  }

  lemma AnnounceShared(s: Sys, op: Operation, msg: Option<Handle>)
    requires Inv(s) && CopyOk(s, op) && op.operationId in s.patched && op.operationId !in s.started
    requires msg.Some? ==> msg !in s.started.Values
    requires forall a :: a in s.actors ==> Owned(s.actors[a].pc) != Some(op.operationId)
    ensures Inv(Emit(s.(started := s.started[op.operationId := msg]), StartAnnounced(op.operationId, msg)))
  {
    hide PcOk, ActorsInv, TraceInv, EvidenceInv, RowsInv, PastInv, OwnInv, CountInv, ClusterInv;
    var id := op.operationId;
    var e := StartAnnounced(id, msg);
    var t := Emit(s.(started := s.started[id := msg]), e);
    assert t.trace[|s.trace|] == e;
    assert HandleInv(t.started, t.patched) by {
      forall i, j | i in t.started && j in t.started && i != j && t.started[i].Some?
        ensures t.started[i] != t.started[j]
      {
        if i == id {
          assert s.started[j] in s.started.Values;
        } else if j == id {
          assert s.started[i] in s.started.Values;
        }
      }
    }
    ClaimsNow(s);
    assert ClaimsKept(s.actors, t.used, t.rows, t.patched, t.started) by {
      forall b | b in s.actors
        ensures ClaimKept(s.actors[b].pc, t.used, t.rows, t.patched, t.started)
      {
        assert ClaimKept(s.actors[b].pc, s.used, s.rows, s.patched, s.started);
        assert Owned(s.actors[b].pc) != Some(id);
      }
    }
    JustifiedGrows(s, t);
    CountEmit(s.trace, s.actors, s.won, e);
  }

  lemma PatchedInCluster(s: Sys, op: Operation)
    requires Inv(s) && CopyOk(s, op) && op.operationId in s.patched
    ensures s.patched[op.operationId].generation <= |Revs(s, TargetOf(op))|
  {
    hide RowsInv, PastInv, OwnInv, HandleInv, CountInv, Justified;
  }

  lemma AnnounceInv(s: Sys, a: nat, msg: Option<Handle>)
    requires Inv(s) && Enabled(s, Step.Announce(a, msg))
    ensures Inv(Announced(s, a, msg))
  {
    hide ActorsInv, TraceInv, EvidenceInv, RowsInv, PastInv, OwnInv, HandleInv, CountInv, ClusterInv;
    var op, rest := s.actors[a].pc.op, s.actors[a].rest;
    ActorNow(s, a);
    SoleOwner(s, a);
    var r := s.(actors := s.actors[a := Actor(Ready, rest)]);
    SetActor(s, a, Actor(Ready, rest));
    AnnounceShared(r, op, msg);
    PatchedInCluster(s, op);
    var t := Emit(r.(started := r.started[op.operationId := msg]), StartAnnounced(op.operationId, msg));
    Rejoin(s, a, t, Actor(Watching(op, msg, |Revs(s, TargetOf(op))|), rest));
  }

  lemma PendingWin(actors: map<nat, Actor>, a: nat, act: Actor, i: string)
    requires act.pc.Winning? && a in actors && !actors[a].pc.Winning?
    ensures var id := act.pc.op.operationId;
            && (i != id ==> Pending(actors[a := act], i) == Pending(actors, i))
            && (Pending(actors, id) == {} ==> Pending(actors[a := act], id) == {a})
  {
    var id := act.pc.op.operationId;
    if Pending(actors, id) == {} {
      assert forall b :: b in actors && b != a ==> b !in Pending(actors, id);
    }
  }

  lemma CountWin(trace: seq<Event>, actors: map<nat, Actor>, won: map<string, TerminalUpdate>,
                 a: nat, act: Actor, upd: TerminalUpdate)
    requires CountInv(trace, actors, won) && act.pc.Winning? && a in actors && !actors[a].pc.Winning?
    requires act.pc.op.operationId !in won
    ensures var id := act.pc.op.operationId;
            CountInv(trace + [TerminalWritten(id, upd)], actors[a := act], won[id := upd])
  {
    var id := act.pc.op.operationId;
    var e := TerminalWritten(id, upd);
    assert Pending(actors, id) == {};
    hide Pending;
    forall i
      ensures Wins(trace + [e], i) == (if i in won[id := upd] then 1 else 0)
      ensures Resolutions(trace + [e], i) + |Pending(actors[a := act], i)| == Wins(trace + [e], i)
    {
      CountLast(trace, e, i);
      PendingWin(actors, a, act, i);
    }
  }

  /** The conditional write that wins: the row was its birth value, so nobody
      had won before. */
  lemma WinInv(s: Sys, a: nat)
    requires Inv(s) && Enabled(s, Step.Write(a)) && WriteWins(s, a)
    ensures Inv(Won(s, a))
  {
    hide ActorsInv, TraceInv, EvidenceInv, PastInv, HandleInv, CountInv, ClusterInv, RowsInv, OwnInv;
    var t := Won(s, a);
    var pc := s.actors[a].pc;
    var id := pc.op.operationId;
    ActorNow(s, a);
    KeysAgree(s);
    RowsWin(s.birth, s.rows, s.used, s.won, id, pc.upd);
    PastWin(s.past, s.birth, s.rows, s.used, s.won, id, pc.upd);
    CountWin(s.trace, s.actors, s.won, a, Actor(Winning(pc.op, pc.msg, pc.upd), s.actors[a].rest), pc.upd);
    WinJustified(s, a);
    OwnMove(s.actors, a, Actor(Winning(pc.op, pc.msg, pc.upd), s.actors[a].rest));
  }

  lemma OwnMove(actors: map<nat, Actor>, a: nat, act: Actor)
    requires OwnInv(actors) && Owned(act.pc).None?
    ensures OwnInv(actors[a := act])
  {
  }

  lemma RowsWin(birth: Table, rows: Table, used: set<string>, won: map<string, TerminalUpdate>,
                id: string, upd: TerminalUpdate)
    requires RowsInv(birth, rows, used, won) && id in rows && id !in won
    requires rows[id].status == Running && IsResolution(upd.status)
    ensures RowsInv(birth, rows[id := Resolve(rows[id], upd, upd.completedAt)], used, won[id := upd])
  {
  }

  lemma PastWin(past: seq<Table>, birth: Table, rows: Table, used: set<string>,
                won: map<string, TerminalUpdate>, id: string, upd: TerminalUpdate)
    requires RowsInv(birth, rows, used, won) && PastInv(past, birth, rows, won) && id in rows && id !in won
    ensures var rows' := rows[id := Resolve(rows[id], upd, upd.completedAt)];
            PastInv(past + [rows'], birth, rows', won[id := upd])
  {
    var rows' := rows[id := Resolve(rows[id], upd, upd.completedAt)];
    PastSnoc(past, birth, rows, won, birth, rows', won[id := upd]);
  }

  lemma WinGrows(s: Sys, a: nat)
    requires ActorsInv(s) && Enabled(s, Step.Write(a)) && WriteWins(s, a)
    requires s.actors[a].pc.op.operationId !in s.won
    ensures Grows(s, Won(s, a))
  {
  }

  lemma WinJustified(s: Sys, a: nat)
    requires Justified(s) && Enabled(s, Step.Write(a)) && WriteWins(s, a)
    requires s.actors[a].pc.op.operationId !in s.won
    ensures Justified(Won(s, a))
  {
    hide TraceInv, ActorsInv, EvidenceInv;
    var t := Won(s, a);
    var pc := s.actors[a].pc;
    var id := pc.op.operationId;
    ActorNow(s, a);
    WinGrows(s, a);
    assert t.trace[|s.trace|] == TerminalWritten(id, pc.upd);
    ClaimsNow(s);
    assert t.rows.Keys == s.rows.Keys;
    forall b | b in s.actors && b != a
      ensures ClaimKept(s.actors[b].pc, t.used, t.rows, t.patched, t.started)
    {
      assert ClaimKept(s.actors[b].pc, s.used, s.rows, s.patched, s.started);
    }
    ActorsGrow(s, t, a, Actor(Winning(pc.op, pc.msg, pc.upd), s.actors[a].rest));
    EventsGrow(s, t);
    WinEvidence(s, a);
  }

  lemma WinEvidence(s: Sys, a: nat)
    requires EvidenceInv(s) && Enabled(s, Step.Write(a)) && WriteWins(s, a) && PcOk(s, s.actors[a].pc)
    requires Grows(s, Won(s, a))
    ensures EvidenceInv(Won(s, a))
  {
    hide Grows;
    var t := Won(s, a);
    var pc := s.actors[a].pc;
    var id := pc.op.operationId;
    forall i | i in t.won && t.won[i].status == Succeeded
      ensures i in t.why && GoodSeen(t, i, t.why[i])
    {
      GoodSeenGrows(s, t, i, if i == id then pc.seen.value else s.why[i]);
    }
  }

  lemma CountNotify(trace: seq<Event>, actors: map<nat, Actor>, won: map<string, TerminalUpdate>,
                    a: nat, act: Actor, e: Event)
    requires CountInv(trace, actors, won) && a in actors && actors[a].pc.Winning? && !act.pc.Winning?
    requires e.ResolvedAnnounced? && e.op.operationId == actors[a].pc.op.operationId
    ensures CountInv(trace + [e], actors[a := act], won)
  {
    var id := actors[a].pc.op.operationId;
    forall i
      ensures Wins(trace + [e], i) == (if i in won then 1 else 0)
      ensures Resolutions(trace + [e], i) + |Pending(actors[a := act], i)| == Wins(trace + [e], i)
    {
      CountLast(trace, e, i);
      if i == id {
        assert a in Pending(actors, id);
        assert Pending(actors[a := act], id) == Pending(actors, id) - {a};
      } else {
        assert Pending(actors[a := act], i) == Pending(actors, i);
      }
    }
  }

  lemma NotifyJustified(s: Sys, a: nat)
    requires Justified(s) && Enabled(s, Step.Notify(a))
    ensures Justified(Apply(s, Step.Notify(a)))
  {
    hide TraceInv, EvidenceInv, ActorsInv;
    var t := Apply(s, Step.Notify(a));
    var pc, rest := s.actors[a].pc, s.actors[a].rest;
    var e := ResolvedAnnounced(ApplyTerminal(pc.op, pc.upd), pc.msg);
    ActorNow(s, a);
    assert t.trace == s.trace + [e] && t.trace[|s.trace|] == e;
    assert t.actors == s.actors[a := Actor(Ready, rest)];
    ClaimsNow(s);
    forall b | b in s.actors && b != a
      ensures ClaimKept(s.actors[b].pc, t.used, t.rows, t.patched, t.started)
    {
      assert ClaimKept(s.actors[b].pc, s.used, s.rows, s.patched, s.started);
    }
    ActorsGrow(s, t, a, Actor(Ready, rest));
    EventsGrow(s, t);
    EvidenceGrows(s, t);
  }

  lemma NotifyInv(s: Sys, a: nat)
    requires Inv(s) && Enabled(s, Step.Notify(a))
    ensures Inv(Apply(s, Step.Notify(a)))
  {
    hide Justified, RowsInv, PastInv, HandleInv, CountInv, ClusterInv, OwnInv;
    var pc, rest := s.actors[a].pc, s.actors[a].rest;
    NotifyJustified(s, a);
    OwnMove(s.actors, a, Actor(Ready, rest));
    var e := ResolvedAnnounced(ApplyTerminal(pc.op, pc.upd), pc.msg);
    CountNotify(s.trace, s.actors, s.won, a, Actor(Ready, rest), e);
  }
}
