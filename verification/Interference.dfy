/** What the other writers of the table of rows can do while one actor works. */
module Interference {
  import opened Operations
  import opened StoreSpec
  import opened Timestamps

  predicate Keyed(m: Table) {
    forall id :: id in m ==> m[id].operationId == id
  }

  /** What any steps of the other actors can do to the table: rows evolve and
      new ones appear, but not under an id reserved here. */
  predicate Interferes(m: Table, n: Table, reserved: set<string>) {
    && TableEvolves(m, n)
    && (Keyed(m) ==> Keyed(n))
    && forall id :: id in reserved && id !in m ==> id !in n
  }

  lemma InterferesRefl(m: Table, reserved: set<string>)
    ensures Interferes(m, m, reserved)
  {
  }

  lemma InterferesLess(m: Table, n: Table, reserved: set<string>, fewer: set<string>)
    requires Interferes(m, n, reserved) && fewer <= reserved
    ensures Interferes(m, n, fewer)
  {
  }

  lemma InterferesTransitive(m: Table, n: Table, o: Table, reserved: set<string>)
    requires Interferes(m, n, reserved) && Interferes(n, o, reserved)
    ensures Interferes(m, o, reserved)
  {
    TableEvolvesTransitive(m, n, o);
  }

  /** A copy of a running row the store has, or had. */
  predicate Follows(op: Operation, rows: Table) {
    op.status == Running && Keyed(rows) && op.operationId in rows && RowEvolves(op, rows[op.operationId])
  }

  /** A listing made somewhere between two states of the table: versions of
      running rows that the query selects, each once, and none missing that was
      there before and is selected after. */
  ghost predicate Lists(ops: seq<Operation>, m: Table, n: Table, cutoff: Time) {
    && (forall i :: 0 <= i < |ops| ==>
          Follows(ops[i], n) && StringLess(Format(ops[i].requestedAt), Format(cutoff)))
    && (forall i, j :: 0 <= i < j < |ops| ==> ops[i].operationId != ops[j].operationId)
    && (forall id :: id in m && id in DynPast(n, cutoff) ==> exists i :: 0 <= i < |ops| && ops[i].operationId == id)
  }

  lemma KeyedOn(m: Table, n: Table, reserved: set<string>)
    requires Keyed(m) && Interferes(m, n, reserved)
    ensures Keyed(n)
  {
  }

  lemma InterferesRow(m: Table, n: Table, reserved: set<string>, id: string)
    requires id in m && Interferes(m, n, reserved)
    ensures id in n && RowEvolves(m[id], n[id])
  {
  }

  lemma ListsEarlier(ops: seq<Operation>, l: Table, m: Table, n: Table, cutoff: Time, reserved: set<string>)
    requires Lists(ops, m, n, cutoff) && Interferes(l, m, reserved)
    ensures Lists(ops, l, n, cutoff)
  {
  }
}
