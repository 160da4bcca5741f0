/** The store's operations as functions on a table of rows: once as the
    in-memory store has them, once as DynamoDB has them, and how the two agree. */
module StoreSpec {
  import opened Outcomes
  import opened Timestamps
  import opened Operations

  datatype Schema = HashOnly | Composite

  /* In memory. */

  function MemGet(m: Table, id: string): Result<Operation> {
    if id in m then Ok(m[id]) else Err(NotFound)
  }

  function MemUpdate(m: Table, id: string, upd: TerminalUpdate, now: Time): (Table, Result<()>) {
    if id !in m then (m, Err(NotFound))
    else if m[id].status != Running then (m, Err(AlreadyTerminal))
    else (m[id := Resolve(m[id], upd, now)], Ok(()))
  }

  function MemPast(m: Table, cutoff: Time): set<string> {
    set id | id in m && m[id].status == Running && Before(m[id].requestedAt, cutoff)
  }

  /* In DynamoDB: the terminal event is stamped with the completion time, the
     sweep's query compares printed times, and a row whose timestamp is the zero
     time cannot be addressed in a table with a sort key. */

  predicate Addressable(schema: Schema, op: Operation) {
    schema == HashOnly || op.requestedAt != ZERO_TIME
  }

  function DynUpdate(schema: Schema, m: Table, id: string, upd: TerminalUpdate): (Table, Result<()>) {
    if id !in m then (m, Err(NotFound))
    else if !Addressable(schema, m[id]) then (m, Err(OtherError))
    else if m[id].status != Running then (m, Err(AlreadyTerminal))
    else (m[id := Resolve(m[id], upd, upd.completedAt)], Ok(()))
  }

  function DynPast(m: Table, cutoff: Time): set<string> {
    set id | id in m && m[id].status == Running && StringLess(Format(m[id].requestedAt), Format(cutoff))
  }

  /** What a DynamoDB table holds: the ids with one row, and the ids that have
      several items, which a table with a sort key admits. */
  datatype Content = Content(sound: Table, broken: set<string>)

  /** PutItem: in a table with a sort key, a row whose timestamp differs from the
      stored one does not replace it. No later put makes such an id sound again. */
  function ContentPut(schema: Schema, c: Content, op: Operation): Content {
    if op.operationId in c.broken then c
    else if PutReplaces(schema, c, op) then c.(sound := c.sound[op.operationId := op])
    else Content(c.sound - {op.operationId}, c.broken + {op.operationId})
  }

  predicate PutReplaces(schema: Schema, c: Content, op: Operation) {
    op.operationId in c.sound && schema == Composite ==> c.sound[op.operationId].requestedAt == op.requestedAt
  }

  function ContentGet(c: Content, id: string): Result<Operation> {
    if id in c.broken then Err(OtherError) else MemGet(c.sound, id)
  }

  function ContentUpdate(schema: Schema, c: Content, id: string, upd: TerminalUpdate): (Content, Result<()>) {
    if id in c.broken then (c, Err(OtherError))
    else
      var u := DynUpdate(schema, c.sound, id, upd);
      (c.(sound := u.0), u.1)
  }

  /** `out` lists exactly the wanted rows, each once, in some order. */
  predicate ListsExactly(out: seq<Operation>, m: Table, want: set<string>) {
    && (forall i :: 0 <= i < |out| ==> out[i].operationId in want && out[i].operationId in m
                                       && out[i] == m[out[i].operationId])
    && (forall i, j :: 0 <= i < j < |out| ==> out[i].operationId != out[j].operationId)
    && (forall id :: id in want ==> exists i :: 0 <= i < |out| && out[i].operationId == id)
  }

  /* ------------------------------------------------------------------ */
  /* Agreement                                                            */
  /* ------------------------------------------------------------------ */

  /** On tables that differ in event times only, the two terminal updates leave
      such tables again, and they give the same result exactly when the row is
      not one the sort-key schema cannot address. */
  lemma UpdateAgrees(schema: Schema, m: Table, n: Table, id: string, upd: TerminalUpdate, now: Time)
    requires SameTable(m, n)
    ensures DynUpdate(schema, m, id, upd).1 == MemUpdate(n, id, upd, now).1
            <==> (id in m ==> Addressable(schema, m[id]))
    ensures (id in m ==> Addressable(schema, m[id])) ==>
              SameTable(DynUpdate(schema, m, id, upd).0, MemUpdate(n, id, upd, now).0)
  {
    if id in m {
      assert SameRow(m[id], n[id]);
      assert m[id].status == n[id].status by { SameFields(m[id], n[id]); }
      ResolveSame(m[id], n[id], upd, upd.completedAt, now);
    }
  }

  lemma SameFields(a: Operation, b: Operation)
    requires SameRow(a, b)
    ensures a.operationId == b.operationId && a.status == b.status && a.requestedAt == b.requestedAt
    ensures a.completedAt == b.completedAt && |a.events| == |b.events|
  {
    assert a.(events := []).status == b.(events := []).status;
    assert |EventNames(a.events)| == |EventNames(b.events)|;
  }

  /** The sweep's query selects the same rows as a comparison of times exactly
      when no running row lies in the cutoff's own second with fraction digits
      that extend, or are extended by, the cutoff's. */
  lemma PastAgrees(m: Table, cutoff: Time)
    ensures DynPast(m, cutoff) == MemPast(m, cutoff) <==>
            forall id :: id in m && m[id].status == Running ==>
              !Misordered(m[id].requestedAt, cutoff) && !Misordered(cutoff, m[id].requestedAt)
  {
    forall id | id in m && m[id].status == Running
      ensures (id in DynPast(m, cutoff) <==> id in MemPast(m, cutoff))
              <==> !Misordered(m[id].requestedAt, cutoff) && !Misordered(cutoff, m[id].requestedAt)
    {
      QueryDiffers(m[id].requestedAt, cutoff);
    }
    if forall id :: id in m && m[id].status == Running ==>
         !Misordered(m[id].requestedAt, cutoff) && !Misordered(cutoff, m[id].requestedAt)
    {
      assert forall id :: id in DynPast(m, cutoff) <==> id in MemPast(m, cutoff);
    }
  }

  lemma QueryDiffers(row: Time, cutoff: Time)
    ensures (StringLess(Format(row), Format(cutoff)) <==> Before(row, cutoff))
            <==> !Misordered(row, cutoff) && !Misordered(cutoff, row)
  {
    QueryOrder(row, cutoff);
    MisorderedBefore(row, cutoff);
    MisorderedBefore(cutoff, row);
  }

  lemma PastSame(m: Table, n: Table, cutoff: Time)
    requires SameTable(m, n)
    ensures MemPast(m, cutoff) == MemPast(n, cutoff)
  {
    forall id | id in m
      ensures m[id].status == n[id].status && m[id].requestedAt == n[id].requestedAt
    {
      SameFields(m[id], n[id]);
    }
  }

  /* ------------------------------------------------------------------ */
  /* Whole histories of calls                                             */
  /* ------------------------------------------------------------------ */

  datatype Command =
    | Put(op: Operation)
    | Get(id: string)
    | Update(id: string, upd: TerminalUpdate, now: Time)
    | List(cutoff: Time)

  /** `Tangled`: a listing of a table with broken ids, whose items it may return
      as rows or fail to decode. */
  datatype Reply =
    | Done
    | Row(op: Operation)
    | Failure(error: Error)
    | Rows(rows: Table)
    | Tangled

  function Select(m: Table, ids: set<string>): Table {
    map id | id in ids && id in m :: m[id]
  }

  function UpdateReply(r: Result<()>): Reply {
    match r case Ok(_) => Done case Err(e) => Failure(e)
  }

  function GetReply(r: Result<Operation>): Reply {
    match r case Ok(op) => Row(op) case Err(e) => Failure(e)
  }

  function MemStep(m: Table, c: Command): (Table, Reply) {
    match c
    case Put(op) => (m[op.operationId := op], Done)
    case Get(id) => (m, GetReply(MemGet(m, id)))
    case Update(id, upd, now) => var u := MemUpdate(m, id, upd, now); (u.0, UpdateReply(u.1))
    case List(cutoff) => (m, Rows(Select(m, MemPast(m, cutoff))))
  }

  function DynStep(schema: Schema, d: Content, c: Command): (Content, Reply) {
    match c
    case Put(op) => (ContentPut(schema, d, op), Done)
    case Get(id) => (d, GetReply(ContentGet(d, id)))
    case Update(id, upd, now) => var u := ContentUpdate(schema, d, id, upd); (u.0, UpdateReply(u.1))
    case List(cutoff) => (d, if d.broken == {} then Rows(Select(d.sound, DynPast(d.sound, cutoff))) else Tangled)
  }

  predicate SameReply(a: Reply, b: Reply) {
    match (a, b)
    case (Row(x), Row(y)) => SameRow(x, y)
    case (Rows(x), Rows(y)) => SameTable(x, y)
    case _ => a == b
  }

  /** No id has several items, and the rows are those of the map. */
  predicate SameContent(d: Content, n: Table) {
    d.broken == {} && SameTable(d.sound, n)
  }

  /** A call that keeps the two stores alike: a put of a fresh id or of a row
      with the stored timestamp, an update of an addressable row, a listing with
      a cutoff no running row is misordered with. */
  predicate Agreeable(schema: Schema, d: Content, c: Command) {
    match c
    case Put(op) => PutReplaces(schema, d, op)
    case Get(_) => true
    case Update(id, _, _) => id in d.sound ==> Addressable(schema, d.sound[id])
    case List(cutoff) =>
      forall id :: id in d.sound && d.sound[id].status == Running ==>
        !Misordered(d.sound[id].requestedAt, cutoff) && !Misordered(cutoff, d.sound[id].requestedAt)
  }

  lemma SelectKeys(m: Table, n: Table, s: set<string>, t: set<string>)
    requires m.Keys == n.Keys && s <= m.Keys && t <= m.Keys && Select(m, s).Keys == Select(n, t).Keys
    ensures s == t
  {
    assert Select(m, s).Keys == s && Select(n, t).Keys == t;
  }

  /** Replies equal up to event times, and no id left with several items, exactly
      if the call is agreeable; and then the stores are alike again. */
  predicate Agrees(schema: Schema, d: Content, n: Table, c: Command) {
    && (SameReply(DynStep(schema, d, c).1, MemStep(n, c).1) && DynStep(schema, d, c).0.broken == {}
        <==> Agreeable(schema, d, c))
    && (Agreeable(schema, d, c) ==> SameContent(DynStep(schema, d, c).0, MemStep(n, c).0))
  }

  /** One call on like stores. */
  lemma StepAgrees(schema: Schema, d: Content, n: Table, c: Command)
    requires SameContent(d, n)
    ensures Agrees(schema, d, n, c)
  {
    hide Agrees, SameContent;
    match c
    case Put(op) => PutStepAgrees(schema, d, n, op);
    case Get(id) => GetStepAgrees(schema, d, n, id);
    case Update(id, upd, now) => UpdateStepAgrees(schema, d, n, id, upd, now);
    case List(cutoff) => ListStepAgrees(schema, d, n, cutoff);
  }

  lemma PutStepAgrees(schema: Schema, d: Content, n: Table, op: Operation)
    requires SameContent(d, n)
    ensures Agrees(schema, d, n, Put(op))
  {
    hide SameRow;
    if PutReplaces(schema, d, op) {
      PutAgrees(d.sound, n, op);
    } else {
      assert op.operationId in ContentPut(schema, d, op).broken;
    }
  }

  lemma GetStepAgrees(schema: Schema, d: Content, n: Table, id: string)
    requires SameContent(d, n)
    ensures Agrees(schema, d, n, Get(id))
  {
    hide SameRow;
  }

  lemma UpdateStepAgrees(schema: Schema, d: Content, n: Table, id: string, upd: TerminalUpdate, now: Time)
    requires SameContent(d, n)
    ensures Agrees(schema, d, n, Update(id, upd, now))
  {
    hide Addressable, SameTable, SameRow, Resolve;
    UpdateAgrees(schema, d.sound, n, id, upd, now);
  }

  lemma PutAgrees(m: Table, n: Table, op: Operation)
    requires SameTable(m, n)
    ensures SameTable(m[op.operationId := op], n[op.operationId := op])
  {
  }

  lemma SelectSame(m: Table, n: Table, ids: set<string>)
    requires SameTable(m, n)
    ensures SameTable(Select(m, ids), Select(n, ids))
  {
  }

  lemma ListStepAgrees(schema: Schema, d: Content, n: Table, cutoff: Time)
    requires SameContent(d, n)
    ensures Agrees(schema, d, n, List(cutoff))
  {
    hide Select, DynPast, MemPast, SameTable, Agreeable;
    ListAgrees(schema, d, n, cutoff);
  }

  lemma ListAgrees(schema: Schema, d: Content, n: Table, cutoff: Time)
    requires SameTable(d.sound, n)
    ensures SameTable(Select(d.sound, DynPast(d.sound, cutoff)), Select(n, MemPast(n, cutoff)))
            <==> Agreeable(schema, d, List(cutoff))
  {
    hide Misordered, SameRow;
    var m := d.sound;
    PastAgrees(m, cutoff);
    PastSame(m, n, cutoff);
    if SameTable(Select(m, DynPast(m, cutoff)), Select(n, MemPast(n, cutoff))) {
      SelectKeys(m, n, DynPast(m, cutoff), MemPast(n, cutoff));
    }
    if DynPast(m, cutoff) == MemPast(n, cutoff) {
      SelectSame(m, n, DynPast(m, cutoff));
    }
  }

  function MemRun(m: Table, cs: seq<Command>): (Table, seq<Reply>)
    decreases |cs|
  {
    if cs == [] then (m, [])
    else
      var s := MemStep(m, cs[0]);
      var r := MemRun(s.0, cs[1..]);
      (r.0, [s.1] + r.1)
  }

  function DynRun(schema: Schema, d: Content, cs: seq<Command>): (Content, seq<Reply>)
    decreases |cs|
  {
    if cs == [] then (d, [])
    else
      var s := DynStep(schema, d, cs[0]);
      var r := DynRun(schema, s.0, cs[1..]);
      (r.0, [s.1] + r.1)
  }

  predicate AllAgreeable(schema: Schema, d: Content, cs: seq<Command>)
    decreases |cs|
  {
    cs != [] ==> Agreeable(schema, d, cs[0]) && AllAgreeable(schema, DynStep(schema, d, cs[0]).0, cs[1..])
  }

  predicate SameReplies(a: seq<Reply>, b: seq<Reply>) {
    |a| == |b| && forall i :: 0 <= i < |a| ==> SameReply(a[i], b[i])
  }

  lemma RepliesCons(a: Reply, b: Reply, x: seq<Reply>, y: seq<Reply>)
    ensures SameReplies([a] + x, [b] + y) <==> SameReply(a, b) && SameReplies(x, y)
  {
    hide SameReply;
    if SameReplies([a] + x, [b] + y) {
      assert ([a] + x)[0] == a && ([b] + y)[0] == b;
      forall i | 0 <= i < |x|
        ensures SameReply(x[i], y[i])
      {
        assert ([a] + x)[i + 1] == x[i] && ([b] + y)[i + 1] == y[i];
      }
    }
  }

  lemma BrokenGrows(schema: Schema, d: Content, c: Command)
    ensures d.broken <= DynStep(schema, d, c).0.broken
  {
  }

  /** An id with several items keeps them for good. */
  lemma {:induction false} BrokenStays(schema: Schema, d: Content, cs: seq<Command>)
    ensures d.broken <= DynRun(schema, d, cs).0.broken
    decreases |cs|
  {
    if cs != [] {
      BrokenGrows(schema, d, cs[0]);
      BrokenStays(schema, DynStep(schema, d, cs[0]).0, cs[1..]);
    }
  }

  /** For every sequence of calls, from like stores: the DynamoDB store answers
      as the in-memory store does, up to event times, and ends with no id that
      has several items, exactly when every call is agreeable in the state it
      meets; and then the stores end alike. */
  lemma {:induction false} HistoriesAgree(schema: Schema, d: Content, n: Table, cs: seq<Command>)
    requires SameContent(d, n)
    ensures AllAgreeable(schema, d, cs)
            <==> SameReplies(DynRun(schema, d, cs).1, MemRun(n, cs).1) && DynRun(schema, d, cs).0.broken == {}
    ensures AllAgreeable(schema, d, cs) ==> SameContent(DynRun(schema, d, cs).0, MemRun(n, cs).0)
    decreases |cs|
  {
    if cs != [] {
      hide Agreeable, DynStep, MemStep, SameReply, SameReplies, SameContent, SameTable;
      StepAgrees(schema, d, n, cs[0]);
      var (e, a) := DynStep(schema, d, cs[0]);
      var (m, b) := MemStep(n, cs[0]);
      BrokenStays(schema, e, cs[1..]);
      RepliesCons(a, b, DynRun(schema, e, cs[1..]).1, MemRun(m, cs[1..]).1);
      if Agreeable(schema, d, cs[0]) {
        HistoriesAgree(schema, e, m, cs[1..]);
      }
    }
  }

  /** What a put under a used id with another timestamp costs in a table with a
      sort key: whatever calls follow, the id is never read or resolved again. */
  lemma BrokenForever(schema: Schema, d: Content, op: Operation, cs: seq<Command>, upd: TerminalUpdate)
    requires op.operationId !in d.broken && !PutReplaces(schema, d, op)
    ensures var e := DynRun(schema, ContentPut(schema, d, op), cs).0;
            && ContentGet(e, op.operationId) == Err(OtherError)
            && ContentUpdate(schema, e, op.operationId, upd) == (e, Err(OtherError))
  {
    BrokenStays(schema, ContentPut(schema, d, op), cs);
    assert op.operationId in ContentPut(schema, d, op).broken;
  }
}
