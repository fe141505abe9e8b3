/** The membership table between users and sessions, rewritten from either side. */
module Relations {
  import opened Common

  datatype RelKey = RelKey(user: Id, session: Id)

  /** Who is in which session, and whether as a manager. */
  type RelTable = map<RelKey, bool>

  /** The column that a rewrite holds fixed. */
  datatype Side = BySession | ByUser

  /** One wanted row: the other column and the manager flag. */
  datatype Target = Target(id: Id, isManager: bool)

  function KeyOn(side: Side, from: Id, to: Id): RelKey {
    if side.BySession? then RelKey(to, from) else RelKey(from, to)
  }

  function FromOf(side: Side, k: RelKey): Id {
    if side.BySession? then k.session else k.user
  }

  function ToOf(side: Side, k: RelKey): Id {
    if side.BySession? then k.user else k.session
  }

  /** What the list says about `to`. */
  function Given(list: seq<Target>, to: Id): (r: Option<bool>)
    ensures r.Some? <==> exists i :: 0 <= i < |list| && list[i].id == to
    ensures DistinctTargets(list) ==> forall i :: 0 <= i < |list| && list[i].id == to ==> r == Some(list[i].isManager)
  {
    if list == [] then None
    else
      var last := |list| - 1;
      if list[last].id == to then Some(list[last].isManager) else Given(list[..last], to)
  }

  ghost predicate DistinctTargets(list: seq<Target>) {
    forall i, j :: 0 <= i < j < |list| ==> list[i].id != list[j].id
  }

  /** The rows that the list asks for. */
  function GivenRows(side: Side, from: Id, list: seq<Target>): (r: RelTable)
    ensures forall k :: Entry(r, k) == if FromOf(side, k) == from then Given(list, ToOf(side, k)) else None
  {
    var wanted := set i | 0 <= i < |list| :: KeyOn(side, from, list[i].id);
    assert forall i :: 0 <= i < |list| ==> KeyOn(side, from, list[i].id) in wanted;
    map k | k in wanted :: Given(list, ToOf(side, k)).value
  }

  /** The rows on the given side become the list; all other rows stay. */
  function Replaced(rows: RelTable, side: Side, from: Id, list: seq<Target>): (r: RelTable)
    ensures forall k :: Entry(r, k) == if FromOf(side, k) == from then Given(list, ToOf(side, k)) else Entry(rows, k)
  {
    hide Given, GivenRows;
    var given := GivenRows(side, from, list);
    assert forall k :: k in given <==> Entry(given, k).Some?;
    (map k | k in rows && FromOf(side, k) != from :: rows[k]) + given
  }

  /** What PostgreSQL accepts as one upsert: no key twice, and both ends exist. */
  ghost predicate CanUpsert(users: set<Id>, sessions: set<Id>, side: Side, from: Id, list: seq<Target>) {
    && DistinctTargets(list)
    && forall i :: 0 <= i < |list| ==>
         KeyOn(side, from, list[i].id).user in users && KeyOn(side, from, list[i].id).session in sessions
  }

  datatype Row = Row(key: RelKey, isManager: bool)

  function RowsFor(side: Side, from: Id, list: seq<Target>): (r: seq<Row>)
    ensures |r| == |list|
    ensures forall i :: 0 <= i < |list| ==> r[i] == Row(KeyOn(side, from, list[i].id), list[i].isManager)
  {
    seq(|list|, i requires 0 <= i < |list| => Row(KeyOn(side, from, list[i].id), list[i].isManager))
  }

  function IdsOf(list: seq<Target>): (r: seq<Id>)
    ensures |r| == |list|
    ensures forall i :: 0 <= i < |list| ==> r[i] == list[i].id
  {
    seq(|list|, i requires 0 <= i < |list| => list[i].id)
  }

  /** No key twice, and both ends of every key exist. */
  ghost predicate Insertable(users: set<Id>, sessions: set<Id>, values: seq<Row>) {
    && (forall i, j :: 0 <= i < j < |values| ==> values[i].key != values[j].key)
    && (forall i :: 0 <= i < |values| ==> values[i].key.user in users && values[i].key.session in sessions)
  }

  /** `after` is `before` with the values written over it. */
  ghost predicate Written(before: RelTable, values: seq<Row>, after: RelTable) {
    && (forall i :: 0 <= i < |values| ==> Entry(after, values[i].key) == Some(values[i].isManager))
    && (forall k :: (forall i :: 0 <= i < |values| ==> values[i].key != k) ==> Entry(after, k) == Entry(before, k))
  }

  class RelationTable {
    var rows: RelTable
    const users: set<Id>
    const sessions: set<Id>

    constructor (rows: RelTable, users: set<Id>, sessions: set<Id>)
      ensures this.rows == rows && this.users == users && this.sessions == sessions
    {
      this.rows, this.users, this.sessions := rows, users, sessions;
    }

    /** INSERT ... ON CONFLICT DO UPDATE of several rows: one statement, so all or nothing. A key
        that occurs twice cannot be updated twice by one statement. */
    method Upsert(values: seq<Row>) returns (ok: bool)
      modifies this`rows
      ensures ok <==> Insertable(users, sessions, values)
      ensures if ok then Written(old(rows), values, rows) else rows == old(rows)
    {
      var written: RelTable := map[];
      NothingWritten(written);
      for i := 0 to |values|
        invariant rows == old(rows)
        invariant Written(map[], values[..i], written) && Insertable(users, sessions, values[..i])
      {
        hide Written, Insertable;
        var Row(key, isManager) := values[i];
        WriteOne(users, sessions, values, i, written);
        if key in written || key.user !in users || key.session !in sessions {
          return false;
        }
        written := written[key := isManager];
      }
      hide Written, Insertable;
      assert values[..|values|] == values;
      WriteOver(rows, values, written);
      rows := rows + written;
      ok := true;
    }

    /** DELETE of the rows of one side except those whose other column is listed. */
    method DeleteExcept(side: Side, from: Id, keep: seq<Id>)
      modifies this`rows
      ensures forall k :: Entry(rows, k) ==
                if FromOf(side, k) == from && ToOf(side, k) !in keep then None else Entry(old(rows), k)
    {
      rows := map k | k in rows && !(FromOf(side, k) == from && ToOf(side, k) !in keep) :: rows[k];
    }

    /** Upserts every wanted row, then deletes the unwanted rows of that side. Afterwards the rows
        of the given side are exactly the list (none for an empty list) and every other row is
        untouched. The call fails, changing nothing, exactly when the list names someone twice or
        names a user or session that does not exist. */
    method SyncUserProfileSessionRelations(side: Side, from: Id, list: seq<Target>) returns (ok: bool)
      modifies this`rows
      ensures ok <==> CanUpsert(users, sessions, side, from, list)
      ensures rows == if ok then Replaced(old(rows), side, from, list) else old(rows)
    {
      hide *;
      InsertableRows(users, sessions, side, from, list);
      if |list| != 0 {
        var values := [];
        for i := 0 to |list|
          invariant rows == old(rows)
          invariant values == RowsFor(side, from, list)[..i]
        {
          values := values + [Row(KeyOn(side, from, list[i].id), list[i].isManager)];
        }
        assert values == RowsFor(side, from, list);
        ok := Upsert(values);
        if !ok {
          return;
        }
      } else {
        NothingWritten(rows);
      }
      ghost var upserted := rows;
      var keep := [];
      for i := 0 to |list|
        invariant rows == upserted
        invariant keep == IdsOf(list)[..i]
      {
        keep := keep + [list[i].id];
      }
      assert keep == IdsOf(list);
      DeleteExcept(side, from, keep);
      UpsertThenDelete(old(rows), upserted, rows, side, from, list);
      ok := true;
    }
  }

  lemma {:induction false} InsertableRows(users: set<Id>, sessions: set<Id>, side: Side, from: Id, list: seq<Target>)
    ensures Insertable(users, sessions, RowsFor(side, from, list)) <==> CanUpsert(users, sessions, side, from, list)
    ensures list == [] ==> CanUpsert(users, sessions, side, from, list)
    ensures CanUpsert(users, sessions, side, from, list) ==> DistinctTargets(list)
  {
    var values := RowsFor(side, from, list);
    if CanUpsert(users, sessions, side, from, list) {
      assert Insertable(users, sessions, values);
    }
    if Insertable(users, sessions, values) {
      forall i, j | 0 <= i < j < |list|
        ensures list[i].id != list[j].id
      {
        assert values[i].key != values[j].key;
      }
      assert forall i :: 0 <= i < |list| ==> values[i].key.user in users && values[i].key.session in sessions;
    }
  }

  lemma NothingWritten(rows: RelTable)
    ensures Written(rows, [], rows)
  {
  }

  /** One more row joins the rows of a statement, or keeps the whole statement from running. */
  lemma WriteOne(users: set<Id>, sessions: set<Id>, values: seq<Row>, i: nat, written: RelTable)
    requires i < |values| && Written(map[], values[..i], written) && Insertable(users, sessions, values[..i])
    ensures var Row(key, isManager) := values[i];
            if key in written || key.user !in users || key.session !in sessions then
              !Insertable(users, sessions, values)
            else
              && Written(map[], values[..i + 1], written[key := isManager])
              && Insertable(users, sessions, values[..i + 1])
  {
    var Row(key, isManager) := values[i];
    var done := values[..i];
    assert values[..i + 1] == done + [values[i]];
    if key in written {
      assert Entry(written, key) != Entry(map[], key);
      var j :| 0 <= j < |done| && done[j].key == key;
      assert values[j].key == values[i].key;
    } else {
      assert forall j :: 0 <= j < |done| ==> done[j].key != key by {
        assert forall j :: 0 <= j < |done| ==> Entry(written, done[j].key).Some?;
      }
      WrittenNext(done, values[i], written);
    }
  }

  lemma WrittenNext(done: seq<Row>, row: Row, written: RelTable)
    requires Written(map[], done, written)
    requires forall j :: 0 <= j < |done| ==> done[j].key != row.key
    ensures Written(map[], done + [row], written[row.key := row.isManager])
  {
    var more, after := done + [row], written[row.key := row.isManager];
    forall k | forall j :: 0 <= j < |more| ==> more[j].key != k
      ensures Entry(after, k) == None
    {
      assert more[|done|].key != k;
      assert forall j :: 0 <= j < |done| ==> done[j].key == more[j].key;
      assert Entry(written, k) == Entry(map[], k);
    }
  }

  lemma WriteOver(before: RelTable, values: seq<Row>, written: RelTable)
    requires Written(map[], values, written)
    ensures Written(before, values, before + written)
  {
    forall k | forall i :: 0 <= i < |values| ==> values[i].key != k
      ensures Entry(before + written, k) == Entry(before, k)
    {
      assert Entry(written, k) == Entry(map[], k);
    }
    assert forall i :: 0 <= i < |values| ==> Entry(written, values[i].key) == Some(values[i].isManager);
  }

  /** Writing the listed rows and then deleting the unlisted ones replaces that side's rows. */
  lemma {:induction false} UpsertThenDelete(
      before: RelTable, upserted: RelTable, after: RelTable, side: Side, from: Id, list: seq<Target>)
    requires DistinctTargets(list) && Written(before, RowsFor(side, from, list), upserted)
    requires forall k :: Entry(after, k) ==
               if FromOf(side, k) == from && ToOf(side, k) !in IdsOf(list) then None else Entry(upserted, k)
    ensures after == Replaced(before, side, from, list)
  {
    hide Replaced, Given;
    forall k
      ensures Entry(after, k) == Entry(Replaced(before, side, from, list), k)
    {
      WrittenThenKept(before, upserted, side, from, list, k);
    }
    SameEntries(after, Replaced(before, side, from, list));
  }

  lemma {:induction false} WrittenThenKept(
      before: RelTable, upserted: RelTable, side: Side, from: Id, list: seq<Target>, k: RelKey)
    requires DistinctTargets(list) && Written(before, RowsFor(side, from, list), upserted)
    ensures (if FromOf(side, k) == from && ToOf(side, k) !in IdsOf(list) then None else Entry(upserted, k))
         == if FromOf(side, k) == from then Given(list, ToOf(side, k)) else Entry(before, k)
  {
    hide Given;
    var values := RowsFor(side, from, list);
    if FromOf(side, k) != from {
      assert forall i :: 0 <= i < |values| ==> FromOf(side, values[i].key) == from;
    } else if i :| 0 <= i < |list| && list[i].id == ToOf(side, k) {
      assert IdsOf(list)[i] == ToOf(side, k);
      assert values[i].key == k;
    } else {
      assert forall i :: 0 <= i < |list| ==> IdsOf(list)[i] == list[i].id;
    }
  }

  lemma SameEntries<K, V>(a: map<K, V>, b: map<K, V>)
    requires forall k :: Entry(a, k) == Entry(b, k)
    ensures a == b
  {
    assert forall k :: k in a <==> Entry(a, k).Some?;
    assert forall k :: k in b <==> Entry(b, k).Some?;
  }

  /** Rewriting one side does not depend on what was there before on that side, and doing it twice
      is doing it once. */
  lemma {:induction false} ReplaceTwice(rows: RelTable, side: Side, from: Id, first: seq<Target>, second: seq<Target>)
    ensures Replaced(Replaced(rows, side, from, first), side, from, second) == Replaced(rows, side, from, second)
  {
    SameEntries(Replaced(Replaced(rows, side, from, first), side, from, second), Replaced(rows, side, from, second));
  }
}
