/** internal/store/dynamo.go: the DynamoDB-backed store, over a model of the
    table it talks to. */
module Dynamo {
  import opened Outcomes
  import opened Timestamps
  import opened Interference
  import opened Operations
  import opened StoreSpec

  /* ------------------------------------------------------------------ */
  /* Items                                                                */
  /* ------------------------------------------------------------------ */

  datatype EventItem = EventItem(event: string, at: string)

  /** A row as stored: times are printed strings. */
  datatype Item = Item(operationId: string, details: Details, status: Status, errorCode: string,
                       errorMessage: string, requestedAt: string, completedAt: Option<string>,
                       events: seq<EventItem>)

  function MarshalEvents(events: seq<AuditEvent>): seq<EventItem> {
    if events == [] then []
    else [EventItem(events[0].event, Format(events[0].at))] + MarshalEvents(events[1..])
  }

  function Marshal(op: Operation): Item {
    Item(op.operationId, op.details, op.status, op.errorCode, op.errorMessage, Format(op.requestedAt),
         match op.completedAt case None => None case Some(t) => Some(Format(t)),
         MarshalEvents(op.events))
  }

  function UnmarshalEvents(events: seq<EventItem>): Option<seq<AuditEvent>> {
    if events == [] then Some([])
    else
      match Parse(events[0].at)
      case None => None
      case Some(t) =>
        match UnmarshalEvents(events[1..])
        case None => None
        case Some(rest) => Some([AuditEvent(events[0].event, t)] + rest)
  }

  function UnmarshalCompleted(s: Option<string>): Option<Option<Time>> {
    match s
    case None => Some(None)
    case Some(p) => match Parse(p) case None => None case Some(t) => Some(Some(t))
  }

  function Unmarshal(item: Item): Option<Operation> {
    match Parse(item.requestedAt)
    case None => None
    case Some(requested) =>
      match UnmarshalCompleted(item.completedAt)
      case None => None
      case Some(completed) =>
        match UnmarshalEvents(item.events)
        case None => None
        case Some(events) =>
          Some(Operation(item.operationId, item.details, item.status, item.errorCode, item.errorMessage,
                         requested, completed, events))
  }

  lemma {:induction false} EventsRoundTrip(events: seq<AuditEvent>)
    ensures UnmarshalEvents(MarshalEvents(events)) == Some(events)
  {
    hide Parse, Format;
    if events != [] {
      RoundTrip(events[0].at);
      EventsRoundTrip(events[1..]);
      assert MarshalEvents(events)[1..] == MarshalEvents(events[1..]);
      assert events == [events[0]] + events[1..];
    }
  }

  /** Reading a stored row gives back the operation that was stored. */
  lemma MarshalRoundTrip(op: Operation)
    ensures Unmarshal(Marshal(op)) == Some(op)
  {
    hide Parse, Format;
    RoundTrip(op.requestedAt);
    if op.completedAt.Some? {
      RoundTrip(op.completedAt.value);
    }
    EventsRoundTrip(op.events);
  }

  /** Every field is stored as it is, and every time as it is printed. */
  lemma {:induction false} MarshalMeans(op: Operation)
    ensures var item := Marshal(op);
            && item.operationId == op.operationId && item.details == op.details && item.status == op.status
            && item.errorCode == op.errorCode && item.errorMessage == op.errorMessage
            && item.requestedAt == Format(op.requestedAt)
            && (op.completedAt.None? <==> item.completedAt.None?)
            && (op.completedAt.Some? ==> item.completedAt == Some(Format(op.completedAt.value)))
            && |item.events| == |op.events|
            && forall i :: 0 <= i < |op.events| ==>
                 item.events[i].event == op.events[i].event && item.events[i].at == Format(op.events[i].at)
  {
    EventsMeans(op.events);
  }

  lemma {:induction false} EventsMeans(events: seq<AuditEvent>)
    ensures |MarshalEvents(events)| == |events|
    ensures forall i :: 0 <= i < |events| ==> && MarshalEvents(events)[i].event == events[i].event
                                              && MarshalEvents(events)[i].at == Format(events[i].at)
  {
    hide Format;
    if events != [] {
      EventsMeans(events[1..]);
    }
  }

  lemma {:induction false} MarshalEventsSnoc(events: seq<AuditEvent>, e: AuditEvent)
    ensures MarshalEvents(events + [e]) == MarshalEvents(events) + [EventItem(e.event, Format(e.at))]
  {
    hide Format;
    if events == [] {
      assert events + [e] == [e];
    } else {
      assert (events + [e])[1..] == events[1..] + [e];
      MarshalEventsSnoc(events[1..], e);
    }
  }

  /* ------------------------------------------------------------------ */
  /* The table                                                            */
  /* ------------------------------------------------------------------ */

  /** A primary key as the client sends it. */
  datatype Key = HashKey(id: string) | SortKey(id: string, requestedAt: string)

  datatype WriteError = ConditionFailed | SchemaMismatch | TableMissing | OtherFailure

  datatype WriteResult = Written | WriteFailed(error: WriteError)

  datatype Filter = ById(id: string) | RunningBefore(cutoff: string)

  predicate Matches(f: Filter, item: Item) {
    match f
    case ById(id) => item.operationId == id
    case RunningBefore(cutoff) => item.status == Running && StringLess(item.requestedAt, cutoff)
  }

  predicate KeyFits(schema: Schema, key: Key) {
    key.HashKey? <==> schema == HashOnly
  }

  predicate HasKey(item: Item, key: Key) {
    item.operationId == key.id && (key.SortKey? ==> item.requestedAt == key.requestedAt)
  }

  function KeyOf(schema: Schema, item: Item): Key {
    if schema == HashOnly then HashKey(item.operationId) else SortKey(item.operationId, item.requestedAt)
  }

  /** SET status, error, completed_at and list_append(events, ...). */
  function SetTerminal(item: Item, upd: TerminalUpdate): Item {
    item.(status := upd.status, errorCode := upd.errorCode, errorMessage := upd.errorMessage,
          completedAt := Some(Format(upd.completedAt)),
          events := item.events + [EventItem(upd.event, Format(upd.completedAt))])
  }

  lemma SetTerminalIsResolve(op: Operation, upd: TerminalUpdate)
    ensures SetTerminal(Marshal(op), upd) == Marshal(Resolve(op, upd, upd.completedAt))
  {
    hide Format;
    MarshalEventsSnoc(op.events, AuditEvent(upd.event, upd.completedAt));
  }

  /** updateKeysFor: the composite key first, the hash-only key as fallback. */
  function UpdateKeysFor(op: Operation): seq<Key> {
    if op.requestedAt == ZERO_TIME then [HashKey(op.operationId)]
    else [SortKey(op.operationId, Format(op.requestedAt)), HashKey(op.operationId)]
  }

  /** One of the two keys suits any schema, unless the row has no timestamp. */
  lemma SomeKeyFits(schema: Schema, op: Operation)
    ensures (exists k :: 0 <= k < |UpdateKeysFor(op)| && KeyFits(schema, UpdateKeysFor(op)[k]))
            <==> Addressable(schema, op)
  {
    assert schema == Composite && op.requestedAt != ZERO_TIME ==> KeyFits(schema, UpdateKeysFor(op)[0]);
    assert schema == HashOnly && op.requestedAt != ZERO_TIME ==> KeyFits(schema, UpdateKeysFor(op)[1]);
    assert schema == HashOnly && op.requestedAt == ZERO_TIME ==> KeyFits(schema, UpdateKeysFor(op)[0]);
  }

  /** No two items have one primary key. */
  predicate UniqueKeys(rows: set<Item>, schema: Schema) {
    forall x, y :: x in rows && y in rows && KeyOf(schema, x) == KeyOf(schema, y) ==> x == y
  }

  /** The items are the sound rows, each once, as the store marshals them, and
      several items for each broken id, which need not even decode. */
  ghost predicate Represents(rows: set<Item>, c: Content) {
    && (forall x :: x in rows ==> x.operationId in c.sound || x.operationId in c.broken)
    && (forall id :: id in c.sound ==> id !in c.broken && c.sound[id].operationId == id && Marshal(c.sound[id]) in rows)
    && (forall x :: x in rows && x.operationId in c.sound ==> x == Marshal(c.sound[x.operationId]))
    && (forall id :: id in c.broken ==>
          exists x, y :: x in rows && y in rows && x != y && x.operationId == id && y.operationId == id)
  }

  /** What the other writers can do: they put fresh rows and resolve running
      ones, and cannot touch the items of broken ids. */
  predicate ContentEvolves(c: Content, d: Content, reserved: set<string>) {
    Interferes(c.sound, d.sound, reserved) && c.broken == d.broken
  }

  ghost predicate BrokenKept(rows: set<Item>, rows': set<Item>, broken: set<string>) {
    forall x: Item :: x.operationId in broken ==> (x in rows <==> x in rows')
  }

  /** A version of a sound row, or an item of a broken id. */
  ghost predicate IsVersion(x: Item, rows: set<Item>, c: Content) {
    if x.operationId in c.sound then
      exists op :: x == Marshal(op) && RowEvolves(op, c.sound[x.operationId])
    else
      x.operationId in c.broken && x in rows
  }

  lemma VersionsNow(rows: set<Item>, c: Content)
    requires Represents(rows, c)
    ensures forall x :: x in rows ==> IsVersion(x, rows, c)
  {
    hide Marshal, RowEvolves;
    forall x | x in rows
      ensures IsVersion(x, rows, c)
    {
      if x.operationId in c.sound {
        EvolvesRefl(c.sound[x.operationId]);
        assert x == Marshal(c.sound[x.operationId]);
      }
    }
  }

  /** All matching items of a stretch, as they are. */
  lemma PageNow(table: DynamoTable, page: Page, start: nat, f: Filter)
    requires table.Valid() && (page.last.Some? ==> start < page.last.value <= table.End())
    requires forall x :: x in page.items <==>
               x in table.rows && Matches(f, x) && start <= table.Place(x) < table.Upto(page)
    requires forall i, j :: 0 <= i < j < |page.items| ==> page.items[i] != page.items[j]
    ensures table.IsPage(page, start, f)
  {
    hide Represents, KeyOf, Matches, IsVersion;
    VersionsNow(table.rows, table.content);
    forall i, j | 0 <= i < j < |page.items|
      ensures KeyOf(table.schema, page.items[i]) != KeyOf(table.schema, page.items[j])
    {
      assert page.items[i] in page.items && page.items[j] in page.items;
    }
  }

  lemma EvolvesRefl(op: Operation)
    ensures RowEvolves(op, op)
  {
  }

  /** What a version of a sound row decodes to, and where it lies. */
  lemma VersionOf(table: DynamoTable, x: Item) returns (op: Operation)
    requires table.Valid() && IsVersion(x, table.rows, table.content) && x.operationId in table.content.sound
    ensures x == Marshal(op) && Unmarshal(x) == Some(op) && op.operationId == x.operationId
    ensures RowEvolves(op, table.content.sound[x.operationId])
    ensures KeyOf(table.schema, x) == KeyOf(table.schema, Marshal(table.content.sound[x.operationId]))
    ensures x in table.rows ==> op == table.content.sound[x.operationId]
  {
    hide Marshal, Unmarshal, KeyOf, Represents, UniqueKeys;
    var now := table.content.sound[x.operationId];
    op :| x == Marshal(op) && RowEvolves(op, now);
    SameKey(table.schema, op, now);
    RowFields(op);
    EvolvesKeeps(op, now);
    MarshalRoundTrip(op);
    RowId(table.rows, table.content, x.operationId);
    hide RowEvolves;
    if x in table.rows {
      RowOf(table.rows, table.content, x);
    }
  }

  /** One page of a scan: the selected items, and where to go on, if anywhere. */
  datatype Page = Page(items: seq<Item>, last: Option<nat>)

  /** The DynamoDB table. Items lie in a finite key space, in an order of the
      service's own choice, and a page cursor is a place in it; others write
      between any two calls, unless the table is quiet. How far a page goes,
      whether a call fails and what the others do is arbitrary: method bodies
      here are one possible behaviour. */
  class DynamoTable {
    const schema: Schema
    const place: Key -> nat
    const places: nat
    const quiet: bool
    const reserved: set<string>
    var rows: set<Item>
    /** What the items stand for. */
    ghost var content: Content
    /** How many calls have failed. */
    var failures: nat

    /** A table that holds these rows; nobody else puts rows under the reserved ids. */
    constructor Holding(schema: Schema, place: Key -> nat, places: nat, quiet: bool, reserved: set<string>, m: Table)
      requires Keyed(m)
      ensures Valid() && content == Content(m, {}) && failures == 0
      ensures this.schema == schema && this.quiet == quiet && this.reserved == reserved
    {
      this.schema, this.place, this.places, this.quiet, this.reserved := schema, place, places, quiet, reserved;
      rows, content, failures := set id | id in m :: Marshal(m[id]), Content(m, {}), 0;
      new;
      MarshalOwn(m);
    }

    ghost predicate Valid()
      reads this
    {
      Represents(rows, content) && UniqueKeys(rows, schema)
    }

    /** Where an item lies in scan order. */
    function Place(x: Item): (p: nat)
      ensures p < End()
    {
      if place(KeyOf(schema, x)) <= places then place(KeyOf(schema, x)) else places
    }

    function End(): nat { places + 1 }

    twostate predicate Passed()
      reads this
    {
      && ContentEvolves(old(content), content, reserved)
      && BrokenKept(old(rows), rows, content.broken)
      && (quiet ==> content == old(content) && rows == old(rows))
      && old(failures) <= failures
    }

    /** The others write. */
    method Others()
      requires Valid()
      modifies this`rows, this`content
      ensures Valid() && Passed()
    {
      InterferesRefl(content.sound, reserved);
    }

    /** Replaces the item with the same key, if there is one. */
    method PutItem(item: Item) returns (ok: bool)
      modifies this`rows, this`failures
      ensures failures == old(failures) + if ok then 0 else 1
      ensures rows == if ok then Replaced(old(rows), schema, item) else old(rows)
    {
      ok := *;
      if ok {
        rows := Replaced(rows, schema, item);
      } else {
        failures := failures + 1;
      }
    }

    /** The conditional update: atomic, and only of an item that is running. */
    method UpdateItem(key: Key, upd: TerminalUpdate) returns (r: WriteResult)
      modifies this`rows, this`failures
      ensures failures == old(failures) || failures == old(failures) + 1
      ensures failures != old(failures) ==>
                (r == WriteFailed(TableMissing) || r == WriteFailed(OtherFailure)) && rows == old(rows)
      ensures failures == old(failures) ==>
                if !KeyFits(schema, key) then r == WriteFailed(SchemaMismatch) && rows == old(rows)
                else if r == Written then
                  exists x :: && x in old(rows) && HasKey(x, key) && x.status == Running
                              && rows == old(rows) - {x} + {SetTerminal(x, upd)}
                else
                  && r == WriteFailed(ConditionFailed) && rows == old(rows)
                  && forall x :: x in rows && HasKey(x, key) ==> x.status != Running
    {
      var fails: bool := *;
      if fails {
        failures := failures + 1;
        var missing: bool := *;
        return WriteFailed(if missing then TableMissing else OtherFailure);
      }
      if !KeyFits(schema, key) {
        return WriteFailed(SchemaMismatch);
      }
      if x :| x in rows && HasKey(x, key) && x.status == Running {
        rows := rows - {x} + {SetTerminal(x, upd)};
        return Written;
      }
      return WriteFailed(ConditionFailed);
    }

    /** Where a page that began somewhere ends. */
    function Upto(page: Page): nat {
      if page.last.Some? then page.last.value else End()
    }

    /** The page evaluates all items from `start` up to its cursor, or to the
        end, and returns the ones that match; there may be none of either. It
        need not show one moment: of each item it may see an earlier version. */
    ghost predicate IsPage(page: Page, start: nat, f: Filter)
      reads this
    {
      && (page.last.Some? ==> start < page.last.value <= End())
      && (forall x :: x in page.items ==>
                        Matches(f, x) && start <= Place(x) < Upto(page) && IsVersion(x, rows, content))
      && (forall y :: y in rows && Matches(f, y) && start <= Place(y) < Upto(page) ==>
            exists x :: x in page.items && KeyOf(schema, x) == KeyOf(schema, y))
      && (forall i, j :: 0 <= i < j < |page.items| ==>
            KeyOf(schema, page.items[i]) != KeyOf(schema, page.items[j]))
      && (quiet ==> forall x :: x in page.items ==> x in rows)
    }

    method Scan(start: nat, f: Filter) returns (r: Option<Page>)
      requires Valid()
      modifies this`failures
      ensures failures == old(failures) + if r.Some? then 0 else 1
      ensures r.Some? ==> IsPage(r.value, start, f)
    {
      hide Represents, UniqueKeys, KeyOf, IsVersion, IsPage;
      var fails: bool := *;
      if fails {
        failures := failures + 1;
        return None;
      }
      var last: Option<nat> := *;
      if last.Some? && !(start < last.value <= End()) {
        last := None;
      }
      var to := Upto(Page([], last));
      var items := ItemsOf(set x | x in rows && Matches(f, x) && start <= Place(x) < to);
      PageNow(this, Page(items, last), start, f);
      return Some(Page(items, last));
    }
  }

  method ItemsOf(s: set<Item>) returns (out: seq<Item>)
    ensures forall x :: x in out <==> x in s
    ensures forall i, j :: 0 <= i < j < |out| ==> out[i] != out[j]
  {
    out := [];
    var todo := s;
    while todo != {}
      invariant todo <= s && forall x :: x in out <==> x in s - todo
      invariant forall i, j :: 0 <= i < j < |out| ==> out[i] != out[j]
      decreases todo
    {
      var x :| x in todo;
      assert x !in out;
      out, todo := out + [x], todo - {x};
    }
  }

  function Replaced(rows: set<Item>, schema: Schema, item: Item): set<Item> {
    (set x | x in rows && KeyOf(schema, x) != KeyOf(schema, item)) + {item}
  }

  /* ------------------------------------------------------------------ */
  /* Items and rows                                                       */
  /* ------------------------------------------------------------------ */

  lemma RowFields(op: Operation)
    ensures Marshal(op).operationId == op.operationId && Marshal(op).status == op.status
    ensures Marshal(op).requestedAt == Format(op.requestedAt)
  {
  }

  lemma SameKey(schema: Schema, a: Operation, b: Operation)
    ensures KeyOf(schema, Marshal(a)) == KeyOf(schema, Marshal(b))
            <==> a.operationId == b.operationId && (schema == Composite ==> a.requestedAt == b.requestedAt)
  {
    RoundTrip(a.requestedAt);
    RoundTrip(b.requestedAt);
  }

  lemma MarshalOwn(m: Table)
    requires Keyed(m)
    ensures var rows := set id | id in m :: Marshal(m[id]);
            Represents(rows, Content(m, {})) && (UniqueKeys(rows, HashOnly) && UniqueKeys(rows, Composite))
  {
    forall id | id in m
      ensures Marshal(m[id]).operationId == id
    {
    }
  }

  lemma PutIn(rows: set<Item>, schema: Schema, item: Item)
    ensures item in Replaced(rows, schema, item)
  {
  }

  lemma ReplacedFacts(rows: set<Item>, schema: Schema, item: Item)
    requires UniqueKeys(rows, schema)
    ensures UniqueKeys(Replaced(rows, schema, item), schema)
    ensures forall x :: x in Replaced(rows, schema, item) ==> x == item || x in rows
    ensures forall x :: x in rows && x.operationId != item.operationId ==> x in Replaced(rows, schema, item)
  {
  }

  /** The broken ids other than the item's keep their several items. */
  lemma StillBroken(rows: set<Item>, c: Content, rows': set<Item>, id: string)
    requires Represents(rows, c) && forall x :: x in rows && x.operationId != id ==> x in rows'
    ensures forall i :: i in c.broken && i != id ==>
              exists x, y :: x in rows' && y in rows' && x != y && x.operationId == i && y.operationId == i
  {
    hide Marshal;
    forall i | i in c.broken && i != id
      ensures exists x, y :: x in rows' && y in rows' && x != y && x.operationId == i && y.operationId == i
    {
      var x, y :| x in rows && y in rows && x != y && x.operationId == i && y.operationId == i;
      assert x in rows' && y in rows';
    }
  }

  /** A put under an unused id, or under the key of the id's only row. */
  lemma PutSound(rows: set<Item>, c: Content, schema: Schema, op: Operation)
    requires Represents(rows, c) && UniqueKeys(rows, schema)
    requires op.operationId !in c.broken && PutReplaces(schema, c, op)
    ensures Represents(Replaced(rows, schema, Marshal(op)), c.(sound := c.sound[op.operationId := op]))
    ensures UniqueKeys(Replaced(rows, schema, Marshal(op)), schema)
  {
    ReplacedFacts(rows, schema, Marshal(op));
    if op.operationId in c.sound {
      var was := Marshal(c.sound[op.operationId]);
      SameKey(schema, c.sound[op.operationId], op);
      assert Replaced(rows, schema, Marshal(op)) == rows - {was} + {Marshal(op)} by {
        hide Marshal;
      }
      hide Represents, UniqueKeys, Replaced;
      RowRewritten(rows, c, schema, op);
    } else {
      RowAdded(rows, c, schema, op);
    }
  }

  lemma RowAdded(rows: set<Item>, c: Content, schema: Schema, op: Operation)
    requires Represents(rows, c) && UniqueKeys(rows, schema)
    requires op.operationId !in c.sound && op.operationId !in c.broken
    ensures Represents(Replaced(rows, schema, Marshal(op)), c.(sound := c.sound[op.operationId := op]))
  {
    hide Marshal, KeyOf, UniqueKeys, Replaced;
    RowFields(op);
    ReplacedFacts(rows, schema, Marshal(op));
    assert Marshal(op) in Replaced(rows, schema, Marshal(op)) by { PutIn(rows, schema, Marshal(op)); }
    SoundIds(rows, c);
    StillBroken(rows, c, Replaced(rows, schema, Marshal(op)), op.operationId);
  }

  lemma SoundIds(rows: set<Item>, c: Content)
    requires Represents(rows, c)
    ensures forall i :: i in c.sound ==> Marshal(c.sound[i]).operationId == i
  {
  }

  /** A put that leaves the id with several items. */
  lemma PutBreaks(rows: set<Item>, c: Content, schema: Schema, op: Operation)
    requires Represents(rows, c) && UniqueKeys(rows, schema)
    requires op.operationId in c.broken || !PutReplaces(schema, c, op)
    ensures Represents(Replaced(rows, schema, Marshal(op)), ContentPut(schema, c, op))
    ensures UniqueKeys(Replaced(rows, schema, Marshal(op)), schema)
  {
    var id, item := op.operationId, Marshal(op);
    RowFields(op);
    ReplacedFacts(rows, schema, item);
    var other := OtherItem(rows, c, schema, op);
    BreaksTo(rows, c, Replaced(rows, schema, item), item, other);
  }

  lemma BreaksTo(rows: set<Item>, c: Content, rows': set<Item>, item: Item, other: Item)
    requires Represents(rows, c) && item in rows' && other in rows' && item != other
    requires other.operationId == item.operationId
    requires forall x :: x in rows' ==> x == item || x in rows
    requires forall x :: x in rows && x.operationId != item.operationId ==> x in rows'
    ensures Represents(rows', Content(c.sound - {item.operationId}, c.broken + {item.operationId}))
  {
    hide Marshal;
    StillBroken(rows, c, rows', item.operationId);
    SoundIds(rows, c);
  }

  lemma OtherItem(rows: set<Item>, c: Content, schema: Schema, op: Operation) returns (other: Item)
    requires Represents(rows, c) && UniqueKeys(rows, schema)
    requires op.operationId in c.broken || !PutReplaces(schema, c, op)
    ensures other.operationId == op.operationId && other != Marshal(op)
    ensures other in Replaced(rows, schema, Marshal(op)) && Marshal(op) in Replaced(rows, schema, Marshal(op))
  {
    var id, item := op.operationId, Marshal(op);
    RowFields(op);
    if id in c.broken {
      hide Marshal;
      var x, y :| x in rows && y in rows && x != y && x.operationId == id && y.operationId == id;
      other := if KeyOf(schema, x) == KeyOf(schema, item) then y else x;
    } else {
      other := Marshal(c.sound[id]);
      SameKey(schema, c.sound[id], op);
    }
  }

  /** A row is rewritten under its own key. */
  lemma RowRewritten(rows: set<Item>, c: Content, schema: Schema, op: Operation)
    requires Represents(rows, c) && UniqueKeys(rows, schema) && op.operationId in c.sound
    requires PutReplaces(schema, c, op)
    ensures var rows' := rows - {Marshal(c.sound[op.operationId])} + {Marshal(op)};
            Represents(rows', c.(sound := c.sound[op.operationId := op])) && UniqueKeys(rows', schema)
  {
    hide Marshal, UniqueKeys, KeyOf;
    SameKey(schema, c.sound[op.operationId], op);
    RewrittenKeys(rows, schema, Marshal(c.sound[op.operationId]), Marshal(op));
    hide Represents;
    RowSwapped(rows, c, op);
  }

  lemma RowSwapped(rows: set<Item>, c: Content, op: Operation)
    requires Represents(rows, c) && op.operationId in c.sound
    ensures Represents(rows - {Marshal(c.sound[op.operationId])} + {Marshal(op)},
                       c.(sound := c.sound[op.operationId := op]))
  {
    hide Marshal;
    var id := op.operationId;
    var was, item := Marshal(c.sound[id]), Marshal(op);
    RowFields(op);
    SoundIds(rows, c);
    SoundOnly(rows, c, id);
    StillBroken(rows, c, rows - {was} + {item}, id);
  }

  lemma RewrittenKeys(rows: set<Item>, schema: Schema, was: Item, item: Item)
    requires UniqueKeys(rows, schema) && was in rows && KeyOf(schema, was) == KeyOf(schema, item)
    ensures UniqueKeys(rows - {was} + {item}, schema)
  {
  }

  lemma SoundOnly(rows: set<Item>, c: Content, id: string)
    requires Represents(rows, c) && id in c.sound
    ensures id !in c.broken && forall x :: x in rows && x.operationId == id ==> x == Marshal(c.sound[id])
  {
  }

  /** The rows of a table in which no id has several items. */
  function RowsOf(rows: set<Item>): Table
    requires forall x, y :: x in rows && y in rows && x.operationId == y.operationId ==> x == y
  {
    map x | x in rows && Unmarshal(x).Some? :: x.operationId := Unmarshal(x).value
  }

  lemma RowsOfSound(rows: set<Item>, c: Content)
    requires Represents(rows, c) && c.broken == {}
    ensures forall x, y :: x in rows && y in rows && x.operationId == y.operationId ==> x == y
    ensures RowsOf(rows) == c.sound
  {
    hide Marshal, Unmarshal;
    SoundOnce(rows, c);
    forall x | x in rows
      ensures x.operationId in c.sound && Unmarshal(x) == Some(c.sound[x.operationId])
    {
      RowOf(rows, c, x);
    }
    forall id | id in c.sound
      ensures id in RowsOf(rows)
    {
      RowFields(c.sound[id]);
      assert Marshal(c.sound[id]) in rows;
    }
  }

  /* ------------------------------------------------------------------ */
  /* What a scan has seen                                                 */
  /* ------------------------------------------------------------------ */

  /** The find loop's hit, if any: the one item with the id that a broken id has
      shown so far, or a version of the sound row. */
  ghost predicate HitOk(hit: Option<Item>, found: Option<Operation>, id: string, rows: set<Item>, c: Content) {
    match hit
    case None => found.None?
    case Some(x) =>
      && found.Some? && x.operationId == id && Unmarshal(x) == found
      && (id in c.broken ==> x in rows)
      && (id !in c.broken ==> id in c.sound && RowEvolves(found.value, c.sound[id]) && x == Marshal(found.value))
  }

  /** No item of an id that was there at the start has been passed over. */
  ghost predicate NoneMissed(table: DynamoTable, hit: Option<Item>, id: string, rows: set<Item>, c0: Content,
                             start: nat)
  {
    id in c0.sound || id in c0.broken ==>
      forall x :: x in rows && x.operationId == id && table.Place(x) < start ==>
        hit.Some? && (id in c0.broken ==> x == hit.value)
  }

  /** A row keeps its place while it evolves. */
  lemma SamePlace(table: DynamoTable, a: Operation, b: Operation)
    requires RowEvolves(a, b)
    ensures table.Place(Marshal(a)) == table.Place(Marshal(b))
  {
    SameKey(table.schema, a, b);
  }

  lemma EvolvesTransitive(a: Operation, b: Operation, c: Operation)
    requires RowEvolves(a, b) && RowEvolves(b, c)
    ensures RowEvolves(a, c)
  {
  }

  lemma RowOf(rows: set<Item>, c: Content, x: Item)
    requires Represents(rows, c) && x in rows && x.operationId in c.sound
    ensures x == Marshal(c.sound[x.operationId]) && Unmarshal(x) == Some(c.sound[x.operationId])
  {
    hide Marshal, Unmarshal;
    MarshalRoundTrip(c.sound[x.operationId]);
  }

  lemma SoundOnce(rows: set<Item>, c: Content)
    requires Represents(rows, c)
    ensures forall x, y :: x in rows && y in rows && x.operationId == y.operationId && x.operationId in c.sound ==>
              x == y
    ensures forall id :: id in c.broken ==> id !in c.sound
    ensures forall x :: x in rows ==> x.operationId in c.sound || x.operationId in c.broken
  {
    hide Marshal;
  }

  /** The others' writes disturb neither. */
  lemma FindPassed(table: DynamoTable, hit: Option<Item>, found: Option<Operation>, id: string, rows: set<Item>,
                   c: Content, rows': set<Item>, c': Content, c0: Content, start: nat)
    requires Represents(rows, c) && Represents(rows', c') && ContentEvolves(c0, c, table.reserved)
    requires ContentEvolves(c, c', table.reserved) && BrokenKept(rows, rows', c'.broken)
    requires HitOk(hit, found, id, rows, c) && NoneMissed(table, hit, id, rows, c0, start)
    ensures HitOk(hit, found, id, rows', c') && NoneMissed(table, hit, id, rows', c0, start)
  {
    hide Marshal, Unmarshal, RowEvolves;
    if hit.Some? && id !in c.broken {
      EvolvesTransitive(found.value, c.sound[id], c'.sound[id]);
    }
    if id in c0.sound || id in c0.broken {
      forall x | x in rows' && x.operationId == id && table.Place(x) < start
        ensures hit.Some? && (id in c0.broken ==> x == hit.value)
      {
        if id in c0.sound {
          assert id in c.sound && RowEvolves(c.sound[id], c'.sound[id]);
          RowOf(rows', c', x);
          SamePlace(table, c.sound[id], c'.sound[id]);
          assert Marshal(c.sound[id]) in rows && Marshal(c.sound[id]).operationId == id by { RowFields(c.sound[id]); }
        }
      }
    }
  }

  /** A second item with the id, or one that does not decode, is an item of a
      broken id. */
  lemma SecondHit(table: DynamoTable, page: Page, start: nat, k: nat, id: string, hit: Option<Item>,
                  found: Option<Operation>)
    requires table.Valid() && table.IsPage(page, start, ById(id)) && k < |page.items|
    requires HitOk(hit, found, id, table.rows, table.content)
    requires if k == 0 then hit.Some? ==> table.Place(hit.value) < start else hit == Some(page.items[0])
    requires Unmarshal(page.items[k]) == None || found.Some?
    ensures id in table.content.broken
  {
    hide Marshal, Unmarshal, RowEvolves, Represents, UniqueKeys, KeyOf;
    var x := page.items[k];
    assert x in page.items;
    if id in table.content.sound {
      RowId(table.rows, table.content, id);
      var op := VersionOf(table, x);
      SamePlace(table, found.value, table.content.sound[id]);
      SameRowKey(table.schema, found.value, table.content.sound[id]);
      assert false;
    }
  }

  /** A row keeps its key while it evolves. */
  lemma SameRowKey(schema: Schema, a: Operation, b: Operation)
    requires RowEvolves(a, b)
    ensures KeyOf(schema, Marshal(a)) == KeyOf(schema, Marshal(b))
  {
    SameKey(schema, a, b);
  }

  /** The first item with the id. */
  lemma FirstHit(table: DynamoTable, page: Page, start: nat, id: string)
    requires table.Valid() && table.IsPage(page, start, ById(id)) && page.items != []
    requires Unmarshal(page.items[0]).Some?
    ensures HitOk(Some(page.items[0]), Unmarshal(page.items[0]), id, table.rows, table.content)
    ensures table.Place(page.items[0]) < table.Upto(page)
  {
    hide Marshal, Unmarshal, RowEvolves, UniqueKeys;
    var x := page.items[0];
    assert x in page.items;
    if id in table.content.sound {
      var op := VersionOf(table, x);
    }
  }

  /** The whole page is looked at. */
  lemma PageMissesNone(table: DynamoTable, page: Page, start: nat, id: string, before: Option<Item>,
                       hit: Option<Item>, c0: Content)
    requires table.Valid() && table.IsPage(page, start, ById(id)) && table.content.broken == c0.broken
    requires NoneMissed(table, before, id, table.rows, c0, start)
    requires if page.items == [] then hit == before
             else |page.items| == 1 && before == None && hit == Some(page.items[0])
    ensures NoneMissed(table, hit, id, table.rows, c0, table.Upto(page))
  {
    hide Represents, KeyOf;
    forall y | y in table.rows && y.operationId == id && table.Place(y) < table.Upto(page) && start <= table.Place(y)
      ensures page.items != [] && (id in c0.broken ==> y == page.items[0])
    {
      var x :| x in page.items && KeyOf(table.schema, x) == KeyOf(table.schema, y);
      assert x == page.items[0];
      if id in c0.broken {
        BrokenInRows(table, x);
      }
    }
  }

  lemma BrokenInRows(table: DynamoTable, x: Item)
    requires table.Valid() && IsVersion(x, table.rows, table.content) && x.operationId in table.content.broken
    ensures x in table.rows
  {
    hide Marshal;
  }

  /** What the list loop has collected: versions of running rows past the cutoff
      from before `start`, each once, and all those there from the beginning that
      still are; and whatever broken ids yielded. */
  ghost predicate Collected(table: DynamoTable, ops: seq<Operation>, c0: Content, c: Content, cutoff: Time,
                            start: nat)
  {
    && (forall i :: 0 <= i < |ops| ==> ops[i].operationId in c.broken || Picked(table, ops[i], c, cutoff, start))
    && (forall i, j :: 0 <= i < j < |ops| ==>
          ops[i].operationId != ops[j].operationId || ops[i].operationId in c.broken)
    && (forall id :: id in c0.sound && id in DynPast(c.sound, cutoff) && table.Place(Marshal(c.sound[id])) < start ==>
          HasId(ops, id))
  }

  predicate HasId(ops: seq<Operation>, id: string) {
    exists k :: 0 <= k < |ops| && ops[k].operationId == id
  }

  ghost predicate Picked(table: DynamoTable, op: Operation, c: Content, cutoff: Time, start: nat) {
    && Follows(op, c.sound)
    && StringLess(Format(op.requestedAt), Format(cutoff))
    && table.Place(Marshal(op)) < start
    && (table.quiet ==> op == c.sound[op.operationId])
  }

  lemma ListPassed(table: DynamoTable, ops: seq<Operation>, c0: Content, c: Content, c': Content, cutoff: Time,
                   start: nat)
    requires ContentEvolves(c0, c, table.reserved) && ContentEvolves(c, c', table.reserved)
    requires table.quiet ==> c' == c
    requires Collected(table, ops, c0, c, cutoff, start)
    ensures Collected(table, ops, c0, c', cutoff, start)
  {
    hide Marshal, RowEvolves, StringLess, Format;
    forall i | 0 <= i < |ops| && ops[i].operationId !in c.broken
      ensures Picked(table, ops[i], c', cutoff, start)
    {
      var id := ops[i].operationId;
      EvolvesTransitive(ops[i], c.sound[id], c'.sound[id]);
    }
    forall id | id in c0.sound && id in DynPast(c'.sound, cutoff) && table.Place(Marshal(c'.sound[id])) < start
      ensures HasId(ops, id)
    {
      assert id in c.sound && RowEvolves(c.sound[id], c'.sound[id]);
      StillRunning(c.sound[id], c'.sound[id]);
    }
  }

  lemma StillRunning(a: Operation, b: Operation)
    requires RowEvolves(a, b) && b.status == Running
    ensures a == b
  {
  }

  predicate Decoded(items: seq<Item>, ops: seq<Operation>) {
    |items| == |ops| && forall i :: 0 <= i < |items| ==> Unmarshal(items[i]) == Some(ops[i])
  }

  lemma DecodedRow(table: DynamoTable, page: Page, start: nat, cutoff: Time, i: nat, op: Operation)
    requires table.Valid() && table.IsPage(page, start, RunningBefore(Format(cutoff))) && i < |page.items|
    requires Unmarshal(page.items[i]) == Some(op)
    ensures op.operationId == page.items[i].operationId
    ensures op.operationId in table.content.sound ==>
              && KeyOf(table.schema, page.items[i])
                 == KeyOf(table.schema, Marshal(table.content.sound[op.operationId]))
              && start <= table.Place(Marshal(op)) && Picked(table, op, table.content, cutoff, table.Upto(page))
    ensures op.operationId in table.content.sound || op.operationId in table.content.broken
  {
    hide Format, Marshal, StringLess, KeyOf;
    var x := page.items[i];
    assert x in page.items;
    assert op.operationId == x.operationId;
    if x.operationId in table.content.sound {
      var o := VersionOf(table, x);
      RowFields(op);
      SoundKeyed(table.rows, table.content);
    }
  }

  lemma SoundKeyed(rows: set<Item>, c: Content)
    requires Represents(rows, c)
    ensures Keyed(c.sound)
  {
  }

  /** A page decoded and appended. */
  lemma PageCollected(table: DynamoTable, page: Page, start: nat, cutoff: Time, c0: Content, ops: seq<Operation>,
                      more: seq<Operation>)
    requires table.Valid() && table.IsPage(page, start, RunningBefore(Format(cutoff))) && start <= table.End()
    requires Collected(table, ops, c0, table.content, cutoff, start) && Decoded(page.items, more)
    ensures Collected(table, ops + more, c0, table.content, cutoff, table.Upto(page))
  {
    hide Marshal, Unmarshal, Format, StringLess, RowEvolves, Represents, UniqueKeys, KeyOf, IsVersion;
    var c, all := table.content, ops + more;
    forall i | 0 <= i < |all| && all[i].operationId !in c.broken
      ensures Picked(table, all[i], c, cutoff, table.Upto(page))
    {
      if i >= |ops| {
        DecodedRow(table, page, start, cutoff, i - |ops|, all[i]);
      }
    }
    forall i, j | 0 <= i < j < |all| && all[i].operationId == all[j].operationId && all[i].operationId !in c.broken
      ensures false
    {
      if j >= |ops| {
        DecodedRow(table, page, start, cutoff, j - |ops|, all[j]);
        if i >= |ops| {
          DecodedRow(table, page, start, cutoff, i - |ops|, all[i]);
        } else {
          SamePlace(table, all[i], c.sound[all[i].operationId]);
          SamePlace(table, all[j], c.sound[all[i].operationId]);
        }
      }
    }
    forall id | id in c0.sound && id in DynPast(c.sound, cutoff) && table.Place(Marshal(c.sound[id])) < table.Upto(page)
      ensures HasId(all, id)
    {
      if table.Place(Marshal(c.sound[id])) < start {
        var k :| 0 <= k < |ops| && ops[k].operationId == id;
        assert all[k].operationId == id;
      } else {
        var i := PageHas(table, page, start, cutoff, id);
        DecodedRow(table, page, start, cutoff, i, more[i]);
        assert all[|ops| + i].operationId == id;
      }
    }
  }

  lemma PageHas(table: DynamoTable, page: Page, start: nat, cutoff: Time, id: string) returns (i: nat)
    requires table.Valid() && table.IsPage(page, start, RunningBefore(Format(cutoff)))
    requires id in DynPast(table.content.sound, cutoff)
    requires start <= table.Place(Marshal(table.content.sound[id])) < table.Upto(page)
    ensures i < |page.items| && page.items[i].operationId == id
  {
    hide Format, StringLess;
    var y := Marshal(table.content.sound[id]);
    RowFields(table.content.sound[id]);
    var x :| x in page.items && KeyOf(table.schema, x) == KeyOf(table.schema, y);
    i :| 0 <= i < |page.items| && page.items[i] == x;
  }

  lemma NothingCollected(table: DynamoTable, c: Content, cutoff: Time)
    ensures Collected(table, [], c, c, cutoff, 0)
  {
  }

  /** A finished listing of a table without broken ids. */
  lemma CollectedAll(table: DynamoTable, ops: seq<Operation>, c0: Content, c: Content, cutoff: Time)
    requires Collected(table, ops, c0, c, cutoff, table.End()) && c.broken == {}
    ensures Lists(ops, c0.sound, c.sound, cutoff)
    ensures table.quiet && c == c0 ==> ListsExactly(ops, c.sound, DynPast(c.sound, cutoff))
  {
    hide Marshal, Format, StringLess, RowEvolves;
    forall id | id in c0.sound && id in DynPast(c.sound, cutoff)
      ensures exists i :: 0 <= i < |ops| && ops[i].operationId == id
    {
      assert HasId(ops, id);
    }
    forall i | 0 <= i < |ops|
      ensures Follows(ops[i], c.sound)
      ensures table.quiet ==> ops[i].operationId in DynPast(c.sound, cutoff) && ops[i] == c.sound[ops[i].operationId]
    {
      assert Picked(table, ops[i], c, cutoff, table.End());
    }
  }

  /* ------------------------------------------------------------------ */
  /* The store                                                            */
  /* ------------------------------------------------------------------ */

  class DynamoStore {
    const table: DynamoTable

    constructor (table: DynamoTable)
      ensures this.table == table
    {
      this.table := table;
    }

    /** A row replaces the stored one exactly if it has its key; otherwise the
        id is left with several items. */
    method PutOperation(op: Operation) returns (r: Result<()>)
      requires table.Valid()
      modifies table`rows, table`content, table`failures
      ensures table.Valid()
      ensures r == Ok(()) || r == Err(OtherError)
      ensures r.Err? <==> table.failures != old(table.failures)
      ensures table.content == if r.Ok? then ContentPut(table.schema, old(table.content), op) else old(table.content)
      ensures var c, d, id := old(table.content), table.content, op.operationId;
              if r.Err? then
                d == c
              else if id !in c.broken
                      && (id in c.sound && table.schema == Composite ==> c.sound[id].requestedAt == op.requestedAt) then
                d.sound == c.sound[id := op] && d.broken == c.broken
              else
                d.sound == c.sound - {id} && d.broken == c.broken + {id}
    {
      r := Put(op);
    }

    method Put(op: Operation) returns (r: Result<()>)
      requires table.Valid()
      modifies table`rows, table`content, table`failures
      ensures table.Valid()
      ensures r == Ok(()) || r == Err(OtherError)
      ensures r.Err? <==> table.failures != old(table.failures)
      ensures table.content == if r.Ok? then ContentPut(table.schema, old(table.content), op) else old(table.content)
      ensures forall id :: id in old(table.content).sound ==> id !in old(table.content).broken
    {
      hide Represents, UniqueKeys, Marshal, Replaced;
      SoundOnce(table.rows, table.content);
      ghost var rows := table.rows;
      var ok := table.PutItem(Marshal(op));
      if !ok {
        return Err(OtherError);
      }
      if op.operationId !in table.content.broken && PutReplaces(table.schema, table.content, op) {
        PutSound(rows, table.content, table.schema, op);
      } else {
        PutBreaks(rows, table.content, table.schema, op);
      }
      table.content := ContentPut(table.schema, table.content, op);
      return Ok(());
    }

    method GetOperation(id: string) returns (r: Result<Operation>)
      requires table.Valid()
      modifies table`rows, table`content, table`failures
      ensures table.Valid() && table.Passed()
      ensures r.Ok? ==> id in table.content.sound && RowEvolves(r.value, table.content.sound[id])
      ensures r.Err? ==> r.error != AlreadyTerminal
      ensures table.failures != old(table.failures) ==> r == Err(OtherError)
      ensures r.Err? && id in old(table.content.sound) ==> table.failures != old(table.failures)
      ensures table.quiet ==>
                r == if table.failures == old(table.failures) then ContentGet(table.content, id) else Err(OtherError)
      ensures table.quiet && table.failures == old(table.failures) ==>
                r == if id in table.content.broken then Err(OtherError)
                     else if id in table.content.sound then Ok(table.content.sound[id])
                     else Err(NotFound)
    {
      r := FindOperation(id);
    }

    /** Reads every page before it answers, so that a second item with the same
        id is noticed wherever it is, whatever is written meanwhile. */
    method FindOperation(id: string) returns (r: Result<Operation>)
      requires table.Valid()
      modifies table`rows, table`content, table`failures
      ensures table.Valid() && table.Passed()
      ensures table.failures != old(table.failures) ==> r == Err(OtherError)
      ensures r.Ok? ==> && id in table.content.sound && RowEvolves(r.value, table.content.sound[id])
                        && (table.quiet ==> r.value == table.content.sound[id])
      ensures r.Err? && table.failures == old(table.failures) ==>
                && r.error == (if id in table.content.broken then OtherError else NotFound)
                && id !in old(table.content.sound)
    {
      hide Unmarshal, Marshal, Represents, UniqueKeys, RowEvolves, Interferes, KeyOf, IsVersion, Matches;
      var f := ById(id);
      var start: nat := 0;
      var found: Option<Operation> := None;
      ghost var hit: Option<Item> := None;
      ghost var c0 := table.content;
      InterferesRefl(c0.sound, table.reserved);
      SoundOnce(table.rows, c0);
      while true
        invariant start <= table.End() && table.Valid() && table.Passed() && table.failures == old(table.failures)
        invariant HitOk(hit, found, id, table.rows, table.content)
        invariant hit.Some? ==> table.Place(hit.value) < start
        invariant NoneMissed(table, hit, id, table.rows, c0, start)
        invariant table.quiet && found.Some? && id !in c0.broken ==> found.value == table.content.sound[id]
        decreases table.End() - start
      {
        ghost var rows, c := table.rows, table.content;
        table.Others();
        FindPassed(table, hit, found, id, rows, c, table.rows, table.content, c0, start);
        InterferesTransitive(c0.sound, c.sound, table.content.sound, table.reserved);
        var out := table.Scan(start, f);
        if out == None {
          return Err(OtherError);
        }
        var page := out.value;
        ghost var before := hit;
        for k := 0 to |page.items|
          modifies {}
          invariant HitOk(hit, found, id, table.rows, table.content)
          invariant if k == 0 then hit == before else k == 1 && before == None && hit == Some(page.items[0])
          invariant table.quiet && found.Some? && id !in c0.broken ==> found.value == table.content.sound[id]
        {
          var op := Unmarshal(page.items[k]);
          if op == None || found.Some? {
            SecondHit(table, page, start, k, id, hit, found);
            return Err(OtherError);
          }
          FirstHit(table, page, start, id);
          found, hit := op, Some(page.items[k]);
          if table.quiet && id !in c0.broken {
            FoundNow(table, page, start, id);
          }
        }
        PageMissesNone(table, page, start, id, before, hit, c0);
        if page.last == None {
          FindEnds(table, hit, found, id, c0);
          return if found == None then Err(NotFound) else Ok(found.value);
        }
        start := page.last.value;
      }
    }

    /** Pages are read while others write: the rows listed are versions of
        running rows, and none that was there at the start and is still running
        and past the cutoff at the end is missing. On a quiet table the listing
        is exact. */
    method ListRunningPastDeadline(olderThan: Time) returns (r: Result<seq<Operation>>)
      requires table.Valid()
      modifies table`rows, table`content, table`failures
      ensures table.Valid() && table.Passed()
      ensures table.failures != old(table.failures) ==> r == Err(OtherError)
      ensures table.failures == old(table.failures) && table.content.broken == {} ==> r.Ok?
      ensures r.Ok? && table.content.broken == {} ==>
                Lists(r.value, old(table.content.sound), table.content.sound, olderThan)
      ensures r.Ok? && table.content.broken == {} && table.quiet ==>
                ListsExactly(r.value, table.content.sound, DynPast(table.content.sound, olderThan))
      ensures r.Ok? && table.content.broken == {} ==>
                && (forall i :: 0 <= i < |r.value| ==>
                      && r.value[i].status == Running
                      && StringLess(Format(r.value[i].requestedAt), Format(olderThan))
                      && r.value[i].operationId in table.content.sound
                      && RowEvolves(r.value[i], table.content.sound[r.value[i].operationId]))
                && (forall i, j :: 0 <= i < j < |r.value| ==> r.value[i].operationId != r.value[j].operationId)
                && forall id :: && id in old(table.content.sound) && id in table.content.sound
                                && table.content.sound[id].status == Running
                                && StringLess(Format(table.content.sound[id].requestedAt), Format(olderThan)) ==>
                     exists i :: 0 <= i < |r.value| && r.value[i].operationId == id
    {
      r := ListPages(olderThan);
      hide Format, StringLess, RowEvolves;
      if r.Ok? && table.content.broken == {} {
        assert forall id :: && id in table.content.sound && table.content.sound[id].status == Running
                            && StringLess(Format(table.content.sound[id].requestedAt), Format(olderThan)) ==>
                 id in DynPast(table.content.sound, olderThan);
      }
    }

    /** The page loop of the listing. */
    method ListPages(olderThan: Time) returns (r: Result<seq<Operation>>)
      requires table.Valid()
      modifies table`rows, table`content, table`failures
      ensures table.Valid() && table.Passed()
      ensures table.failures != old(table.failures) ==> r == Err(OtherError)
      ensures table.failures == old(table.failures) && table.content.broken == {} ==> r.Ok?
      ensures r.Ok? && table.content.broken == {} ==>
                Lists(r.value, old(table.content.sound), table.content.sound, olderThan)
      ensures r.Ok? && table.content.broken == {} && table.quiet ==>
                ListsExactly(r.value, table.content.sound, DynPast(table.content.sound, olderThan))
    {
      hide Unmarshal, Marshal, Format, Represents, UniqueKeys, RowEvolves, Interferes, Collected, StringLess;
      hide KeyOf, IsVersion, Matches;
      var f := RunningBefore(Format(olderThan));
      var ops: seq<Operation> := [];
      var start: nat := 0;
      ghost var c0 := table.content;
      InterferesRefl(c0.sound, table.reserved);
      NothingCollected(table, c0, olderThan);
      while true
        invariant start <= table.End() && table.Valid() && table.Passed() && table.failures == old(table.failures)
        invariant Collected(table, ops, c0, table.content, olderThan, start)
        decreases table.End() - start
      {
        ghost var rows, c := table.rows, table.content;
        table.Others();
        ListPassed(table, ops, c0, c, table.content, olderThan, start);
        InterferesTransitive(c0.sound, c.sound, table.content.sound, table.reserved);
        var out := table.Scan(start, f);
        if out == None {
          return Err(OtherError);
        }
        var page := out.value;
        var more: seq<Operation> := [];
        for k := 0 to |page.items|
          modifies {}
          invariant Decoded(page.items[..k], more)
        {
          var op := Unmarshal(page.items[k]);
          if op == None {
            assert page.items[k] in page.items;
            Undecodable(table, page.items[k]);
            return Err(OtherError);
          }
          more := more + [op.value];
        }
        assert page.items[..|page.items|] == page.items;
        PageCollected(table, page, start, olderThan, c0, ops, more);
        ops := ops + more;
        if page.last == None {
          if table.content.broken == {} {
            CollectedAll(table, ops, c0, table.content, olderThan);
          }
          return Ok(ops);
        }
        start := page.last.value;
      }
    }

    /** The find, then the conditional write under the first key the table's
        schema accepts, while others write. A win resolves a running version of
        the row; anything else leaves the table to the others. On a quiet table
        this is one atomic step on its content. */
    method UpdateTerminal(id: string, upd: TerminalUpdate) returns (r: Result<()>)
      requires table.Valid()
      modifies table`rows, table`content, table`failures
      ensures table.Valid() && old(table.failures) <= table.failures
      ensures r.Err? ==> table.Passed()
      ensures IsResolution(upd.status) ==> ContentEvolves(old(table.content), table.content, table.reserved)
      ensures r.Ok? ==> table.failures == old(table.failures)
                        && exists met :: Resolves(old(table.content).sound, table.content.sound, id, met, upd)
      ensures r == Err(AlreadyTerminal) ==> id in table.content.sound && table.content.sound[id].status != Running
      ensures r.Err? && r.error != AlreadyTerminal && id in old(table.content.sound) ==>
                || table.failures != old(table.failures)
                || (id in table.content.sound && !Addressable(table.schema, table.content.sound[id]))
      ensures table.failures != old(table.failures) ==> r == Err(OtherError) || r == Err(NotFound)
      ensures table.quiet && table.failures == old(table.failures) ==>
                (table.content, r) == ContentUpdate(table.schema, old(table.content), id, upd)
      ensures table.quiet && table.failures == old(table.failures) ==>
                var c := old(table.content);
                && (r == Err(NotFound) <==> id !in c.broken && id !in c.sound)
                && (r == Err(OtherError) <==>
                      || id in c.broken
                      || (id in c.sound && table.schema == Composite
                          && c.sound[id].requestedAt == Timestamp(1, 1, 1, 0, 0, 0, 0)))
                && (r.Ok? ==> id in c.sound && c.sound[id].status == Running && id !in c.broken)
                && (r == Err(AlreadyTerminal) ==> id in c.sound && c.sound[id].status != Running)
                && table.content == if r.Err? then c
                                    else c.(sound := c.sound[id :=
                                              c.sound[id].(status := upd.status, errorCode := upd.errorCode,
                                                           errorMessage := upd.errorMessage,
                                                           completedAt := Some(upd.completedAt),
                                                           events := c.sound[id].events
                                                                     + [AuditEvent(upd.event, upd.completedAt)])])
    {
      hide Marshal, Unmarshal, Format, Represents, UniqueKeys, Interferes, RowEvolves;
      ghost var c0 := table.content;
      var found := GetOperation(id);
      if found.Err? {
        return Err(found.error);
      }
      var op := found.value;
      RowId(table.rows, table.content, id);
      EvolvesKeeps(op, table.content.sound[id]);
      SomeKeyFits(table.schema, op);
      var keys := UpdateKeysFor(op);
      var err := OtherFailure;
      var k := 0;
      while k < |keys|
        invariant k <= |keys| && table.Valid() && table.Passed() && table.failures == old(table.failures)
        invariant id in table.content.sound && RowEvolves(op, table.content.sound[id])
        invariant k > 0 ==> err == SchemaMismatch
        invariant forall j :: 0 <= j < k ==> !KeyFits(table.schema, keys[j])
      {
        ghost var b := table.content;
        table.Others();
        InterferesTransitive(c0.sound, b.sound, table.content.sound, table.reserved);
        FoundStill(op, b.sound, table.content.sound, table.reserved, id);
        ghost var rows, c := table.rows, table.content;
        var w := table.UpdateItem(keys[k], upd);
        WriteMeans(table, rows, c, id, op, keys[k], upd, w);
        if w == Written {
          table.content := c.(sound := c.sound[id := Resolve(c.sound[id], upd, upd.completedAt)]);
          WonEvolves(c0, c, id, upd, table.reserved);
          return Ok(());
        }
        err := w.error;
        if err != SchemaMismatch {
          break;
        }
        k := k + 1;
      }
      EvolvesKeeps(op, table.content.sound[id]);
      r := if err == TableMissing then Err(NotFound)
           else if err == ConditionFailed then Err(AlreadyTerminal)
           else Err(OtherError);
    }
  }

  /** A terminal write won against a running version of the row. */
  ghost predicate Resolves(m: Table, n: Table, id: string, met: Operation, upd: TerminalUpdate) {
    && met.status == Running
    && id in n
    && n[id] == met.(status := upd.status, errorCode := upd.errorCode, errorMessage := upd.errorMessage,
                     completedAt := Some(upd.completedAt),
                     events := met.events + [AuditEvent(upd.event, upd.completedAt)])
    && (id in m ==> RowEvolves(m[id], met))
  }

  lemma ResolvesEarlier(l: Table, m: Table, n: Table, id: string, met: Operation, upd: TerminalUpdate,
                        reserved: set<string>)
    requires Resolves(m, n, id, met, upd) && Interferes(l, m, reserved)
    ensures Resolves(l, n, id, met, upd)
  {
    hide RowEvolves, Resolve;
    if id in l {
      EvolvesTransitive(l[id], m[id], met);
    }
  }

  lemma RowId(rows: set<Item>, c: Content, id: string)
    requires Represents(rows, c) && id in c.sound
    ensures c.sound[id].operationId == id && id !in c.broken
  {
  }

  lemma EvolvesKeeps(a: Operation, b: Operation)
    requires RowEvolves(a, b)
    ensures a.operationId == b.operationId && a.requestedAt == b.requestedAt
  {
  }

  lemma FoundStill(op: Operation, m: Table, n: Table, reserved: set<string>, id: string)
    requires id in m && RowEvolves(op, m[id]) && Interferes(m, n, reserved)
    ensures id in n && RowEvolves(op, n[id])
  {
    hide RowEvolves;
    EvolvesTransitive(op, m[id], n[id]);
  }

  /** What one conditional write under a key of the row found says of the row. */
  lemma WriteMeans(table: DynamoTable, rows: set<Item>, c: Content, id: string, op: Operation, key: Key,
                   upd: TerminalUpdate, w: WriteResult)
    requires Represents(rows, c) && UniqueKeys(rows, table.schema) && id in c.sound
    requires RowEvolves(op, c.sound[id]) && key in UpdateKeysFor(op)
    ensures w == Written && (exists x :: && x in rows && HasKey(x, key) && x.status == Running
                                         && table.rows == rows - {x} + {SetTerminal(x, upd)}) ==>
              var won := Resolve(c.sound[id], upd, upd.completedAt);
              && c.sound[id].status == Running
              && Represents(table.rows, c.(sound := c.sound[id := won])) && UniqueKeys(table.rows, table.schema)
    ensures (forall x :: x in rows && HasKey(x, key) ==> x.status != Running) ==> c.sound[id].status != Running
  {
    hide Format, Unmarshal;
    RowId(rows, c, id);
    EvolvesKeeps(op, c.sound[id]);
    RowFields(op);
    RowFields(c.sound[id]);
    var row := Marshal(c.sound[id]);
    assert row in rows && HasKey(row, key);
    SoundOnce(rows, c);
    SetTerminalIsResolve(c.sound[id], upd);
    RowRewritten(rows, c, table.schema, Resolve(c.sound[id], upd, upd.completedAt));
  }

  lemma WonEvolves(c0: Content, c: Content, id: string, upd: TerminalUpdate, reserved: set<string>)
    requires ContentEvolves(c0, c, reserved) && id in c.sound && c.sound[id].status == Running
    ensures var d := c.(sound := c.sound[id := Resolve(c.sound[id], upd, upd.completedAt)]);
            && (IsResolution(upd.status) ==> ContentEvolves(c0, d, reserved))
            && Resolves(c0.sound, d.sound, id, c.sound[id], upd)
  {
    if IsResolution(upd.status) {
      ResolveEvolves(c.sound[id], upd, upd.completedAt);
      var n := c.sound[id := Resolve(c.sound[id], upd, upd.completedAt)];
      assert Interferes(c.sound, n, reserved);
      InterferesTransitive(c0.sound, c.sound, n, reserved);
    }
  }

  lemma Undecodable(table: DynamoTable, x: Item)
    requires table.Valid() && IsVersion(x, table.rows, table.content) && Unmarshal(x) == None
    ensures x.operationId in table.content.broken
  {
    hide Marshal, Unmarshal, RowEvolves;
    if x.operationId in table.content.sound {
      var op := VersionOf(table, x);
    }
  }

  lemma FoundNow(table: DynamoTable, page: Page, start: nat, id: string)
    requires table.Valid() && table.IsPage(page, start, ById(id)) && page.items != [] && table.quiet
    requires id !in table.content.broken
    ensures id in table.content.sound && Unmarshal(page.items[0]) == Some(table.content.sound[id])
  {
    hide Marshal, Unmarshal;
    assert page.items[0] in page.items;
    RowOf(table.rows, table.content, page.items[0]);
  }

  /** At the end of the key space. */
  lemma FindEnds(table: DynamoTable, hit: Option<Item>, found: Option<Operation>, id: string, c0: Content)
    requires table.Valid() && ContentEvolves(c0, table.content, table.reserved)
    requires HitOk(hit, found, id, table.rows, table.content)
    requires NoneMissed(table, hit, id, table.rows, c0, table.End())
    ensures id !in table.content.broken
    ensures found.None? ==> id !in c0.sound
  {
    hide Marshal, Unmarshal, RowEvolves;
    var c := table.content;
    if id in c0.sound {
      RowFields(c.sound[id]);
      assert Marshal(c.sound[id]) in table.rows;
    }
  }
}
