/** internal/store/inmem.go: the map-backed store. */
module InMemory {
  import opened Outcomes
  import opened Timestamps
  import opened Operations
  import opened StoreSpec

  class InMemoryStore {
    var ops: Table

    ghost predicate Valid()
      reads this
    {
      forall id :: id in ops ==> ops[id].operationId == id
    }

    constructor ()
      ensures Valid() && ops == map[]
    {
      ops := map[];
    }

    /** Overwrites whatever row has the same id. */
    method PutOperation(op: Operation)
      requires Valid()
      modifies this
      ensures Valid() && ops == old(ops)[op.operationId := op]
    {
      ops := ops[op.operationId := op];
    }

    method GetOperation(id: string) returns (r: Result<Operation>)
      requires Valid()
      ensures r == MemGet(ops, id)
      ensures r == if id in ops then Ok(ops[id]) else Err(NotFound)
      ensures r.Ok? ==> r.value.operationId == id
    {
      if id !in ops {
        return Err(NotFound);
      }
      return Ok(ops[id]);
    }

    /** `now` is the store's own clock at the write. */
    method UpdateTerminal(id: string, upd: TerminalUpdate, now: Time) returns (r: Result<()>)
      requires Valid()
      modifies this
      ensures Valid()
      ensures (ops, r) == MemUpdate(old(ops), id, upd, now)
      ensures r == Err(NotFound) <==> id !in old(ops)
      ensures r == Err(AlreadyTerminal) <==> id in old(ops) && old(ops)[id].status != Running
      ensures r.Ok? <==> id in old(ops) && old(ops)[id].status == Running
      ensures ops == if r.Err? then old(ops)
                     else old(ops)[id := old(ops)[id].(status := upd.status, errorCode := upd.errorCode,
                                                       errorMessage := upd.errorMessage,
                                                       completedAt := Some(upd.completedAt),
                                                       events := old(ops)[id].events + [AuditEvent(upd.event, now)])]
      ensures r.Ok? && IsResolution(upd.status) ==> TableEvolves(old(ops), ops)
    {
      if id !in ops {
        return Err(NotFound);
      }
      var op := ops[id];
      if op.status != Running {
        return Err(AlreadyTerminal);
      }
      op := op.(status := upd.status);
      op := op.(errorCode := upd.errorCode);
      op := op.(errorMessage := upd.errorMessage);
      op := op.(completedAt := Some(upd.completedAt));
      op := op.(events := op.events + [AuditEvent(upd.event, now)]);
      ghost var before := ops[id];
      ops := ops[id := op];
      if IsResolution(upd.status) {
        ResolveEvolves(before, upd, now);
      }
      return Ok(());
    }

    /** Visits the rows in no particular order. */
    method ListRunningPastDeadline(olderThan: Time) returns (out: seq<Operation>)
      requires Valid()
      ensures ListsExactly(out, ops, MemPast(ops, olderThan))
      ensures forall i :: 0 <= i < |out| ==> && out[i].operationId in ops && out[i] == ops[out[i].operationId]
                                             && out[i].status == Running && Before(out[i].requestedAt, olderThan)
      ensures forall i, j :: 0 <= i < j < |out| ==> out[i].operationId != out[j].operationId
      ensures forall id :: id in ops && ops[id].status == Running && Before(ops[id].requestedAt, olderThan) ==>
                exists i :: 0 <= i < |out| && out[i].operationId == id
    {
      out := [];
      var todo := ops.Keys;
      while todo != {}
        invariant todo <= ops.Keys
        invariant ListsExactly(out, ops, MemPast(ops, olderThan) - todo)
        decreases todo
      {
        var id :| id in todo;
        ghost var seen := out;
        if ops[id].status == Running && Before(ops[id].requestedAt, olderThan) {
          out := out + [ops[id]];
          assert out[|seen|].operationId == id;
        }
        forall k | k in MemPast(ops, olderThan) - (todo - {id})
          ensures exists i :: 0 <= i < |out| && out[i].operationId == k
        {
          if k != id {
            assert k in MemPast(ops, olderThan) - todo;
            var i :| 0 <= i < |seen| && seen[i].operationId == k;
            assert out[i].operationId == k;
          }
        }
        todo := todo - {id};
      }
      assert MemPast(ops, olderThan) - {} == MemPast(ops, olderThan);
      forall id | id in ops && ops[id].status == Running && Before(ops[id].requestedAt, olderThan)
        ensures exists i :: 0 <= i < |out| && out[i].operationId == id
      {
        assert id in MemPast(ops, olderThan);
      }
    }
  }
}
