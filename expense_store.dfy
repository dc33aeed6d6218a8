/** The `expenses` table the route handlers share: rows keyed by id, and a counter that
    stands for the database's id assignment. */
module ExpenseStore {
  import opened Wrappers
  import opened ExpenseSchemas

  /** The ids of a listing. */
  function IdsOf(rs: seq<Row>): set<nat> {
    set i | 0 <= i < |rs| :: rs[i].id
  }

  lemma IdsOfAppend(rs: seq<Row>, r: Row)
    ensures IdsOf(rs + [r]) == IdsOf(rs) + {r.id}
  {
    var ext := rs + [r];
    forall x | x in IdsOf(ext) ensures x in IdsOf(rs) + {r.id} {
      var i :| 0 <= i < |ext| && ext[i].id == x;
      if i < |rs| { assert rs[i].id == x; }
    }
    forall x | x in IdsOf(rs) + {r.id} ensures x in IdsOf(ext) {
      if x == r.id {
        assert ext[|rs|].id == x;
      } else {
        var i :| 0 <= i < |rs| && rs[i].id == x;
        assert ext[i].id == x;
      }
    }
  }

  /** `rs` lists every row of `m` exactly once, in some order (a SELECT without ORDER BY). */
  ghost predicate Enumerates(rs: seq<Row>, m: map<nat, Row>) {
    && (forall i :: 0 <= i < |rs| ==> rs[i].id in m && m[rs[i].id] == rs[i])
    && (forall i, j :: 0 <= i < j < |rs| ==> rs[i].id != rs[j].id)
    && IdsOf(rs) == m.Keys
  }

  /** Two listings of the same table hold the same rows. */
  lemma EnumerationsAgree(rs1: seq<Row>, rs2: seq<Row>, m: map<nat, Row>)
    requires Enumerates(rs1, m) && Enumerates(rs2, m)
    ensures forall r :: r in rs1 <==> r in rs2
    ensures |rs1| == |rs2|
  {
    forall r | r in rs1 ensures r in rs2 {
      var i :| 0 <= i < |rs1| && rs1[i] == r;
      assert r.id in IdsOf(rs2);
    }
    forall r | r in rs2 ensures r in rs1 {
      var i :| 0 <= i < |rs2| && rs2[i] == r;
      assert r.id in IdsOf(rs1);
    }
    DistinctIdsCount(rs1);
    DistinctIdsCount(rs2);
  }

  /** A listing with distinct ids has as many entries as ids. */
  lemma {:induction false} DistinctIdsCount(rs: seq<Row>)
    requires forall i, j :: 0 <= i < j < |rs| ==> rs[i].id != rs[j].id
    ensures |IdsOf(rs)| == |rs|
  {
    if rs != [] {
      var init := rs[..|rs| - 1];
      DistinctIdsCount(init);
      assert rs == init + [rs[|rs| - 1]];
      IdsOfAppend(init, rs[|rs| - 1]);
      assert rs[|rs| - 1].id !in IdsOf(init);
    }
  }

  class ExpenseTable {
    var rows: map<nat, Row>
    /** Next id the database's serial column hands out. */
    var nextId: nat

    ghost predicate Valid()
      reads this
    {
      && nextId >= 1
      && forall id :: id in rows ==> rows[id].id == id && 0 < id < nextId
    }

    constructor ()
      ensures Valid() && rows == map[]
    {
      rows := map[];
      nextId := 1;
    }

    /** `db.insert(expenses).values(...).returning()`: stores a row under an id no row
        has, and returns it. */
    method Insert(title: string, amount: int, fileUrl: Option<string>) returns (row: Row)
      requires Valid()
      modifies this
      ensures Valid()
      ensures row.id > 0 && row.id !in old(rows)
      ensures row.title == title && row.amount == amount && row.fileUrl == fileUrl
      ensures rows == old(rows)[row.id := row]
    {
      row := Row(nextId, title, amount, fileUrl);
      rows := rows[nextId := row];
      nextId := nextId + 1;
    }

    /** `db.select().from(expenses).where(eq(expenses.id, id)).limit(1)` */
    method Find(id: nat) returns (row: Option<Row>)
      requires Valid()
      ensures row.Some? <==> id in rows
      ensures row.Some? ==> row.value == rows[id] && row.value.id == id
    {
      if id in rows {
        row := Some(rows[id]);
      } else {
        row := None;
      }
    }

    /** `db.update(expenses).set(patch).where(eq(expenses.id, id)).returning()`:
        only the row with that id changes. */
    method Update(id: nat, patch: Patch) returns (updated: Option<Row>)
      requires Valid()
      modifies this
      ensures Valid()
      ensures id !in old(rows) ==> updated.None? && rows == old(rows)
      ensures id in old(rows) ==>
        && updated == Some(ApplyPatch(old(rows)[id], patch))
        && rows == old(rows)[id := updated.value]
    {
      if id in rows {
        var row := ApplyPatch(rows[id], patch);
        rows := rows[id := row];
        updated := Some(row);
      } else {
        updated := None;
      }
    }

    /** `db.delete(expenses).where(eq(expenses.id, id)).returning()`: removes that row
        only, and returns what was removed. */
    method Remove(id: nat) returns (removed: Option<Row>)
      requires Valid()
      modifies this
      ensures Valid()
      ensures id !in old(rows) ==> removed.None? && rows == old(rows)
      ensures id in old(rows) ==> removed == Some(old(rows)[id]) && rows == old(rows) - {id}
    {
      if id in rows {
        removed := Some(rows[id]);
        rows := rows - {id};
      } else {
        removed := None;
      }
    }

    /** `db.select().from(expenses)`: every row once, in an order the store chooses. */
    method Scan() returns (listed: seq<Row>)
      requires Valid()
      ensures Enumerates(listed, rows)
    {
      listed := [];
      var pending := rows.Keys;
      while pending != {}
        invariant pending <= rows.Keys
        invariant forall i :: 0 <= i < |listed| ==> listed[i].id in rows && rows[listed[i].id] == listed[i]
        invariant forall i, j :: 0 <= i < j < |listed| ==> listed[i].id != listed[j].id
        invariant IdsOf(listed) == rows.Keys - pending
        decreases pending
      {
        var id :| id in pending;
        IdsOfAppend(listed, rows[id]);
        listed := listed + [rows[id]];
        pending := pending - {id};
      }
    }
  }
}
