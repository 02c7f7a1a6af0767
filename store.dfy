/**
 * The hosted table every editor reads and writes, reduced to a sequence of
 * rows with their store-assigned ids. Network calls become methods on the
 * table whose outcome (the call went through or it did not) is a parameter.
 */
module Store {
  import opened Opt
  import Lists

  /** The id the editors pass to `.delete().neq("id", ...)` to mean "every row". */
  const NilId: string := "00000000-0000-0000-0000-000000000000"

  /** A stored row: the id the store assigned and the columns that were written. */
  datatype Row<R> = Row(id: string, data: R)

  /** What the store answered to one insert: the id it gave the new row, or a rejection. */
  datatype InsertOutcome = Inserted(id: string) | Rejected

  /** The columns of each row, in table order. */
  function Data<R>(rows: seq<Row<R>>): (r: seq<R>)
    ensures |r| == |rows|
    ensures forall i :: 0 <= i < |rows| ==> r[i] == rows[i].data
  {
    if rows == [] then [] else [rows[0].data] + Data(rows[1..])
  }

  /** The rows `.delete().neq("id", NilId)` leaves behind: exactly those whose id is the nil id. */
  function Survivors<R>(rows: seq<Row<R>>): (r: seq<Row<R>>)
    ensures |r| <= |rows|
    ensures forall i :: 0 <= i < |r| ==> r[i].id == NilId && r[i] in rows
    ensures (forall i :: 0 <= i < |rows| ==> rows[i].id != NilId) ==> r == []
    ensures forall x :: x in rows && x.id == NilId ==> x in r
  {
    if rows == [] then []
    else (if rows[0].id == NilId then [rows[0]] else []) + Survivors(rows[1..])
  }

  /** The rows a sequence of inserts adds, in order: one per accepted insert. */
  function Written<R>(payloads: seq<R>, outcomes: seq<InsertOutcome>): (r: seq<Row<R>>)
    requires |payloads| == |outcomes|
    ensures |r| <= |payloads|
  {
    if payloads == [] then []
    else
      var n := |payloads| - 1;
      Written(payloads[..n], outcomes[..n])
        + if outcomes[n].Inserted? then [Row(outcomes[n].id, payloads[n])] else []
  }

  /** When every insert goes through, the written rows carry the payloads in order. */
  lemma {:induction false} WrittenAll<R>(payloads: seq<R>, outcomes: seq<InsertOutcome>)
    requires |payloads| == |outcomes|
    requires AllInserted(outcomes)
    ensures Data(Written(payloads, outcomes)) == payloads
  {
    if payloads != [] {
      var n := |payloads| - 1;
      assert AllInserted(outcomes[..n]);
      WrittenAll(payloads[..n], outcomes[..n]);
      DataAppend(Written(payloads[..n], outcomes[..n]), [Row(outcomes[n].id, payloads[n])]);
      assert payloads == payloads[..n] + [payloads[n]];
    }
  }

  /** Every insert of the sequence went through. */
  predicate AllInserted(outcomes: seq<InsertOutcome>) {
    forall i :: 0 <= i < |outcomes| ==> outcomes[i].Inserted?
  }

  lemma {:induction false} DataAppend<R>(a: seq<Row<R>>, b: seq<Row<R>>)
    ensures Data(a + b) == Data(a) + Data(b)
  {
    var d := Data(a + b);
    assert |d| == |Data(a) + Data(b)|;
    assert forall i :: 0 <= i < |d| ==> d[i] == (Data(a) + Data(b))[i];
  }

  /** One more insert adds its row at the end of what the earlier ones wrote. */
  lemma WrittenStep<R>(payloads: seq<R>, outcomes: seq<InsertOutcome>, k: nat)
    requires |payloads| == |outcomes| && k < |payloads|
    ensures Written(payloads[..k + 1], outcomes[..k + 1])
         == Written(payloads[..k], outcomes[..k])
            + (if outcomes[k].Inserted? then [Row(outcomes[k].id, payloads[k])] else [])
  {
    assert payloads[..k + 1][..k] == payloads[..k];
    assert outcomes[..k + 1][..k] == outcomes[..k];
  }

  /** The table after "delete every row, then insert each payload in order". */
  function Replaced<R>(before: seq<Row<R>>, payloads: seq<R>, deleteOk: bool, outcomes: seq<InsertOutcome>): (r: seq<Row<R>>)
    requires |payloads| == |outcomes|
    ensures |r| <= |before| + |payloads|
    ensures !deleteOk ==> |before| <= |r| && r[..|before|] == before
    ensures deleteOk ==> forall i :: 0 <= i < |r| - |Written(payloads, outcomes)| ==> r[i].id == NilId
    ensures |Written(payloads, outcomes)| <= |r| && r[|r| - |Written(payloads, outcomes)|..] == Written(payloads, outcomes)
  {
    (if deleteOk then Survivors(before) else before) + Written(payloads, outcomes)
  }

  /** When the delete and every insert go through and no row carried the nil
      id, the table holds exactly the payloads, in list order. */
  lemma ReplacedExactly<R>(before: seq<Row<R>>, payloads: seq<R>, outcomes: seq<InsertOutcome>)
    requires |payloads| == |outcomes|
    requires forall i :: 0 <= i < |before| ==> before[i].id != NilId
    requires AllInserted(outcomes)
    ensures Data(Replaced(before, payloads, true, outcomes)) == payloads
  {
    assert Survivors(before) == [];
    assert Replaced(before, payloads, true, outcomes) == Written(payloads, outcomes);
    WrittenAll(payloads, outcomes);
  }

  /** A failed delete keeps every old row, and the new rows come after them. */
  lemma {:induction false} FailedDeleteKeepsOldRows<R>(before: seq<Row<R>>, payloads: seq<R>, outcomes: seq<InsertOutcome>)
    requires |payloads| == |outcomes|
    requires AllInserted(outcomes)
    ensures Data(Replaced(before, payloads, false, outcomes)) == Data(before) + payloads
  {
    DataAppend(before, Written(payloads, outcomes));
    WrittenAll(payloads, outcomes);
  }

  /** `.update(patch).eq("id", id)`: every row with that id gets the patch, the others stay. */
  function Patched<R>(rows: seq<Row<R>>, id: string, patch: R -> R): (r: seq<Row<R>>)
    ensures |r| == |rows|
    ensures forall i :: 0 <= i < |rows| ==> r[i].id == rows[i].id
    ensures forall i :: 0 <= i < |rows| ==> r[i].data == if rows[i].id == id then patch(rows[i].data) else rows[i].data
  {
    if rows == [] then []
    else [if rows[0].id == id then Row(id, patch(rows[0].data)) else rows[0]] + Patched(rows[1..], id, patch)
  }

  /** `.select(...).single()`: a row only when the table holds exactly one. */
  function Single<R>(rows: seq<Row<R>>): (r: Option<Row<R>>)
    ensures r.Some? <==> |rows| == 1
    ensures r.Some? ==> r.value == rows[0]
  {
    if |rows| == 1 then Some(rows[0]) else None
  }

  /** A table of the hosted store. */
  class Table<R> {
    var rows: seq<Row<R>>

    constructor (initial: seq<Row<R>>)
      ensures rows == initial
    {
      rows := initial;
    }

    /** `.delete().neq("id", NilId)`. */
    method DeleteAll(ok: bool)
      modifies this
      ensures rows == if ok then Survivors(old(rows)) else old(rows)
    {
      if ok {
        rows := Survivors(rows);
      }
    }

    /** `.insert(data)`; the store picks the id. */
    method Insert(data: R, outcome: InsertOutcome)
      modifies this
      ensures rows == old(rows) + if outcome.Inserted? then [Row(outcome.id, data)] else []
    {
      if outcome.Inserted? {
        rows := rows + [Row(outcome.id, data)];
      }
    }

    /** `.update(patch).eq("id", id)`. */
    method UpdateById(id: string, patch: R -> R, ok: bool)
      modifies this
      ensures rows == if ok then Patched(old(rows), id, patch) else old(rows)
    {
      if ok {
        rows := Patched(rows, id, patch);
      }
    }
  }

  /** The save step every collection editor shares: delete every row, then
      insert `prepare(item)` for each list item in order. After k inserts the
      table holds the rows the delete left followed by the first k prepared
      items that were accepted. */
  method SaveAll<R>(table: Table<R>, items: seq<R>, prepare: R -> R, deleteOk: bool, outcomes: seq<InsertOutcome>)
    requires |outcomes| == |items|
    modifies table
    ensures table.rows == Replaced(old(table.rows), Lists.Map(prepare, items), deleteOk, outcomes)
  {
    table.DeleteAll(deleteOk);
    ghost var base := table.rows;
    ghost var payloads := Lists.Map(prepare, items);
    for k := 0 to |items|
      invariant table.rows == base + Written(payloads[..k], outcomes[..k])
    {
      table.Insert(prepare(items[k]), outcomes[k]);
      WrittenStep(payloads, outcomes, k);
    }
    assert payloads[..|items|] == payloads && outcomes[..|items|] == outcomes;
  }
}
