/**
 The worker that applies a referential broadcast: a message is a list of changes, all applied in
 one transaction.
 */
module Broadcast {
  import opened Common
  import opened Relations
  import opened SyncCodec
  import opened SyncEncoder

  datatype RowKey = RowKey(kind: DataType, id: Id)

  datatype SyncDB = SyncDB(rows: map<RowKey, Record>, rels: RelTable)

  /** The checks, unique keys and foreign keys that a written row has to meet. */
  type Constraints = (SyncDB, RowKey, Record) -> bool

  function Ids(db: SyncDB, kind: DataType): set<Id> {
    set k | k in db.rows && k.kind == kind :: k.id
  }

  // ---- Reading a change

  datatype Operation = Unset | Create | Update | NoChange

  function OperationOf(s: string): Option<Operation> {
    if s == "create" then Some(Create)
    else if s == "update" then Some(Update)
    else if s == "no_change" then Some(NoChange)
    else None
  }

  /** What the members of a change have set so far. */
  datatype Change = Change(op: Operation, kind: Option<DataType>, data: seq<Member>)

  const NOTHING_READ := Change(Unset, None, [])

  /** One member of a change. A member with another name is not skipped, so its value is then read
      as if it were the next comma, which fails. */
  function ReadMember(c: Change, m: Member): Option<Change> {
    if m.name == "operation" then
      match m.value
      case JStr(s) => (match OperationOf(s) case Some(op) => Some(c.(op := op)) case None => None)
      case _ => None
    else if m.name == "data" then
      match m.value
      case JObj(data) => (match Guess(data) case Ok(kind) => Some(c.(kind := kind, data := data)) case Err(_) => None)
      case _ => None
    else None
  }

  function ReadMembers(members: seq<Member>, n: nat): Option<Change>
    requires n <= |members|
  {
    if n == 0 then Some(NOTHING_READ)
    else match ReadMembers(members, n - 1) case Some(c) => ReadMember(c, members[n - 1]) case None => None
  }

  function ChangeOf(item: JSON): Option<Change> {
    match item
    case JNull => Some(NOTHING_READ)
    case JObj(members) => ReadMembers(members, |members|)
    case _ => None
  }

  // ---- What a change does

  datatype Rewrite = Rewrite(side: Side, from: Id, list: seq<Target>)

  datatype Effect =
    | Nothing
    | Put(key: RowKey, row: Record, rewrite: Option<Rewrite>)

  function StringAt(record: Record, name: string): string {
    if name in record && record[name].VStr? then record[name].s else ""
  }

  function BoolAt(record: Record, name: string): bool {
    name in record && record[name].VBool? && record[name].b
  }

  function ListAt(record: Record, name: string): seq<Option<Record>> {
    if name in record && record[name].VList? && record[name].items.Some? then record[name].items.value else []
  }

  predicate NoNil(list: seq<Option<Record>>) {
    forall i :: 0 <= i < |list| ==> list[i].Some?
  }

  /** The list that a change carries and that is walked through its pointers. */
  predicate Walkable(kind: DataType, record: Record) {
    match kind
    case Session => NoNil(ListAt(record, "members"))
    case UserProfile => NoNil(ListAt(record, "session_list"))
    case SessionFiles => NoNil(ListAt(record, "turns")) && NoNil(ListAt(record, "orders"))
    case _ => true
  }

  function Targets(list: seq<Option<Record>>, column: string): (r: seq<Target>)
    requires NoNil(list)
    ensures |r| == |list|
  {
    seq(|list|, i requires 0 <= i < |list| =>
      Target(StringAt(list[i].value, column), BoolAt(list[i].value, "is_manager")))
  }

  /** The list that goes to the relation table instead of the row. */
  function RelationColumn(kind: DataType): Option<string> {
    match kind
    case Session => Some("members")
    case UserProfile => Some("session_list")
    case _ => None
  }

  /** A column that is null: the level of a player that is not a bot, and a serial key that is empty. */
  predicate IsNull(kind: DataType, record: Record, column: string) {
    || (kind == SessionPlayerRace && column == "bot_level" && !BoolAt(record, "is_bot"))
    || (kind == UserProfile && column == "serial_key" && StringAt(record, "serial_key") == "")
  }

  /** The columns of the row that are not null. The tag is dropped, an empty list is nil. */
  function RowOf(kind: DataType, record: Record): Record {
    map f | f in record && f != TYPE && Some(f) != RelationColumn(kind) && !IsNull(kind, record, f) ::
      if record[f] == VList(Some([])) then VList(None) else record[f]
  }

  function RewriteOf(kind: DataType, record: Record): Option<Rewrite>
    requires Walkable(kind, record)
  {
    match kind
    case Session =>
      Some(Rewrite(BySession, StringAt(record, "id"), Targets(ListAt(record, "members"), "user_profile_id")))
    case UserProfile =>
      Some(Rewrite(ByUser, StringAt(record, "id"), Targets(ListAt(record, "session_list"), "session_id")))
    case _ => None
  }

  /** A nil pointer in a walked list makes the worker panic, which rolls back like an error. */
  function SyncRecord(op: Operation, kind: DataType, record: Record): Option<Effect> {
    if op != Create && op != Update then Some(Nothing)
    else if !Walkable(kind, record) then None
    else Some(Put(RowKey(kind, StringAt(record, "id")), RowOf(kind, record), RewriteOf(kind, record)))
  }

  /** Invitations and untagged objects have no handler. */
  function EffectOf(item: JSON): Option<Effect> {
    match ChangeOf(item)
    case None => None
    case Some(c) =>
      if c.kind.None? || c.kind == Some(Invitation) then None
      else
        match DecodeObject(SchemaOf(c.kind.value), c.data)
        case None => None
        case Some(record) => SyncRecord(c.op, c.kind.value, record)
  }

  // ---- Applying changes

  function PutRow(db: SyncDB, key: RowKey, row: Record): SyncDB {
    db.(rows := db.rows[key := row])
  }

  /** The row is upserted first, then the relations of its side are rewritten. */
  ghost function ApplyEffect(ok: Constraints, db: SyncDB, e: Effect): Option<SyncDB> {
    match e
    case Nothing => Some(db)
    case Put(key, row, rewrite) =>
      if !ok(db, key, row) then None
      else
        var put := PutRow(db, key, row);
        match rewrite
        case None => Some(put)
        case Some(Rewrite(side, from, list)) =>
          if CanUpsert(Ids(put, UserProfile), Ids(put, Session), side, from, list)
          then Some(put.(rels := Replaced(put.rels, side, from, list)))
          else None
  }

  /** All changes in order; none when one of them fails. */
  ghost function Run(ok: Constraints, db: SyncDB, items: seq<JSON>): Option<SyncDB> {
    if items == [] then Some(db)
    else
      var last := |items| - 1;
      match Run(ok, db, items[..last])
      case None => None
      case Some(d) => (match EffectOf(items[last]) case Some(e) => ApplyEffect(ok, d, e) case None => None)
  }

  predicate FitsUint64(n: int) {
    0 <= n < 0x1_0000_0000_0000_0000
  }

  /** The changes of the first `n` members of the message; none when one of them is malformed. */
  function Items(members: seq<Member>, n: nat): Option<seq<JSON>>
    requires n <= |members|
  {
    if n == 0 then Some([])
    else
      match Items(members, n - 1)
      case None => None
      case Some(items) =>
        var Member(name, value) := members[n - 1];
        if name == "version" && value.JInt? && FitsUint64(value.n) then Some(items)
        else if name == "changes" && value.JNull? then Some(items)
        else if name == "changes" && value.JArr? then Some(items + value.items)
        else None
  }

  function MessageItems(message: JSON): Option<seq<JSON>> {
    match message
    case JNull => Some([])
    case JObj(members) => Items(members, |members|)
    case _ => None
  }

  /** The database after the message, if the message commits. */
  ghost function Handled(ok: Constraints, db: SyncDB, message: JSON): Option<SyncDB> {
    match MessageItems(message) case Some(items) => Run(ok, db, items) case None => None
  }

  // ---- The worker

  class Worker {
    var db: SyncDB
    const ok: Constraints

    constructor (db: SyncDB, ok: Constraints)
      ensures this.db == db && this.ok == ok
    {
      this.db, this.ok := db, ok;
    }

    method ReadChange(item: JSON) returns (r: Option<Change>)
      ensures r == ChangeOf(item)
    {
      if item.JNull? {
        return Some(NOTHING_READ);
      }
      if !item.JObj? {
        return None;
      }
      var c := NOTHING_READ;
      for i := 0 to |item.members|
        invariant ReadMembers(item.members, i) == Some(c)
      {
        var Member(name, value) := item.members[i];
        var read := None;
        if name == "operation" && value.JStr? {
          var op := OperationOf(value.s);
          read := if op.Some? then Some(c.(op := op.value)) else None;
        } else if name == "data" && value.JObj? {
          var kind := GuessDataType(value.members);
          read := if kind.Ok? then Some(c.(kind := kind.value, data := value.members)) else None;
        }
        if read.None? {
          NoMoreMembers(item.members, i + 1, |item.members|);
          return None;
        }
        c := read.value;
      }
      r := Some(c);
    }

    /** One change against the open transaction. */
    method SyncChange(tx: SyncDB, c: Change) returns (r: Option<SyncDB>)
      requires c.kind.Some? && c.kind != Some(Invitation)
      ensures r == match DecodeObject(SchemaOf(c.kind.value), c.data)
                   case None => None
                   case Some(record) =>
                     (match SyncRecord(c.op, c.kind.value, record)
                      case None => None
                      case Some(e) => ApplyEffect(ok, tx, e))
    {
      hide DecodeObject, FieldsOf, Ids, RowOf, CanUpsert, Replaced;
      var record := UnmarshalJSON(SchemaOf(c.kind.value), c.data);
      if record.None? {
        return None;
      }
      var e := SyncRecord(c.op, c.kind.value, record.value);
      match e {
        case None => return None;
        case Some(Nothing) => return Some(tx);
        case Some(Put(key, row, rewrite)) =>
          if !ok(tx, key, row) {
            return None;
          }
          var put := PutRow(tx, key, row);
          if rewrite.None? {
            return Some(put);
          }
          var Rewrite(side, from, list) := rewrite.value;
          var table := new RelationTable(put.rels, Ids(put, UserProfile), Ids(put, Session));
          var written := table.SyncUserProfileSessionRelations(side, from, list);
          return if written then Some(put.(rels := table.rows)) else None;
      }
    }

    /** Applies the whole message in one transaction, which is committed only if every change
        succeeded; a failing change leaves the database as it was. */
    method HandleNeperReferentialBroadcast(message: JSON) returns (success: bool)
      modifies this`db
      ensures success <==> Handled(ok, old(db), message).Some?
      ensures db == if success then Handled(ok, old(db), message).value else old(db)
    {
      hide EffectOf, ApplyEffect, ChangeOf, SyncRecord, DecodeObject, SchemaOf;
      if message.JNull? {
        return true;
      }
      if !message.JObj? {
        return false;
      }
      var members := message.members;
      var tx := db;
      ghost var done: seq<JSON> := [];
      for i := 0 to |members|
        invariant db == old(db)
        invariant Items(members, i) == Some(done) && Run(ok, db, done) == Some(tx)
      {
        var Member(name, value) := members[i];
        if name == "version" && value.JInt? && FitsUint64(value.n) {
        } else if name == "changes" && value.JNull? {
        } else if name == "changes" && value.JArr? {
          ghost var before := done;
          var applied := SyncChanges(tx, value.items, before);
          if applied.None? {
            LaterItems(members, i + 1, |members|);
            if MessageItems(message).Some? {
              RunPrefix(ok, db, before + value.items, MessageItems(message).value);
            }
            return false;
          }
          tx, done := applied.value, before + value.items;
        } else {
          LaterItems(members, i + 1, |members|);
          return false;
        }
      }
      db := tx;
      success := true;
    }

    /** The loop over one `changes` array; `done` are the changes of the message before it. */
    method SyncChanges(tx: SyncDB, items: seq<JSON>, ghost done: seq<JSON>) returns (r: Option<SyncDB>)
      requires Run(ok, db, done) == Some(tx)
      ensures r == Run(ok, db, done + items)
    {
      hide ApplyEffect, ChangeOf, SyncRecord, DecodeObject, SchemaOf;
      var cur := tx;
      assert done + items[..0] == done;
      for i := 0 to |items|
        invariant Run(ok, db, done + items[..i]) == Some(cur)
      {
        RunOneMore(ok, db, done, items, i);
        var c := ReadChange(items[i]);
        var next := None;
        if c.Some? && c.value.kind.Some? && c.value.kind != Some(Invitation) {
          next := SyncChange(cur, c.value);
        }
        if next.None? {
          RunPrefix(ok, db, done + items[..i + 1], done + items);
          return None;
        }
        cur := next.value;
      }
      assert items[..|items|] == items;
      r := Some(cur);
    }
  }

  /** A member of a change that can be read. */
  ghost predicate ReadableMember(m: Member) {
    || (m.name == "operation" && m.value in {JStr("create"), JStr("update"), JStr("no_change")})
    || (m.name == "data" && m.value.JObj? && Guess(m.value.members).Ok?)
  }

  /** A change is read exactly when all its members are readable. */
  lemma {:induction false} ChangeIsReadIff(members: seq<Member>, n: nat)
    requires n <= |members|
    ensures ReadMembers(members, n).Some? <==> forall j :: 0 <= j < n ==> ReadableMember(members[j])
  {
    hide Guess;
    if n > 0 {
      ChangeIsReadIff(members, n - 1);
    }
  }

  /** The `i`-th is the last of the first `n` members with this name. */
  ghost predicate LastNamed(members: seq<Member>, n: nat, name: string, i: nat)
    requires n <= |members|
  {
    i < n && members[i].name == name && forall j :: i < j < n ==> members[j].name != name
  }

  function NameOf(op: Operation): string {
    match op
    case Create => "create"
    case Update => "update"
    case NoChange => "no_change"
    case Unset => ""
  }

  /** Its operation is the last one given, if any. */
  lemma {:induction false} OperationIsLastGiven(members: seq<Member>, n: nat, i: nat)
    requires n <= |members| && ReadMembers(members, n).Some?
    ensures LastNamed(members, n, "operation", i) ==>
              members[i].value == JStr(NameOf(ReadMembers(members, n).value.op))
    ensures (forall j :: 0 <= j < n ==> members[j].name != "operation") ==>
              ReadMembers(members, n).value.op == Unset
  {
    hide Guess;
    if n > 0 {
      OperationIsLastGiven(members, n - 1, i);
    }
  }

  /** Its data and type are those of the last data given, if any. */
  lemma {:induction false} DataIsLastGiven(members: seq<Member>, n: nat, i: nat)
    requires n <= |members| && ReadMembers(members, n).Some?
    ensures LastNamed(members, n, "data", i) ==>
              && members[i].value == JObj(ReadMembers(members, n).value.data)
              && Guess(ReadMembers(members, n).value.data) == Ok(ReadMembers(members, n).value.kind)
    ensures (forall j :: 0 <= j < n ==> members[j].name != "data") ==> ReadMembers(members, n).value.kind == None
  {
    hide Guess, OperationOf;
    if n > 0 {
      DataIsLastGiven(members, n - 1, i);
    }
  }

  /** A member of a message that can be read. */
  ghost predicate MessageMember(m: Member) {
    || (m.name == "version" && m.value.JInt? && 0 <= m.value.n < 18446744073709551616)
    || (m.name == "changes" && (m.value.JNull? || m.value.JArr?))
  }

  /** A message is read exactly when all its members are readable. */
  lemma {:induction false} MessageIsReadIff(members: seq<Member>, n: nat)
    requires n <= |members|
    ensures Items(members, n).Some? <==> forall i :: 0 <= i < n ==> MessageMember(members[i])
  {
    if n > 0 {
      MessageIsReadIff(members, n - 1);
    }
  }

  /** Its changes are those of its arrays, in order. */
  lemma {:induction false} MessageInOrder(before: seq<Member>, m: Member)
    requires MessageItems(JObj(before)).Some? && MessageMember(m)
    ensures MessageItems(JObj(before + [m])) ==
            Some(MessageItems(JObj(before)).value + if m.value.JArr? then m.value.items else [])
    ensures MessageItems(JObj([])) == Some([])
  {
    var all := before + [m];
    ItemsArePrefix(before, all, |before|);
    assert all[|before|] == m;
    var items := MessageItems(JObj(before)).value;
    assert items + [] == items;
  }

  lemma {:induction false} ItemsArePrefix(a: seq<Member>, b: seq<Member>, n: nat)
    requires a <= b && n <= |a|
    ensures Items(a, n) == Items(b, n)
    decreases n
  {
    if n > 0 {
      ItemsArePrefix(a, b, n - 1);
    }
  }

  lemma {:induction false} NoMoreMembers(members: seq<Member>, n: nat, m: nat)
    requires n <= m <= |members| && ReadMembers(members, n).None?
    ensures ReadMembers(members, m).None?
    decreases m
  {
    if n < m {
      NoMoreMembers(members, n, m - 1);
    }
  }

  /** A malformed member spoils the message, and the changes read so far come first. */
  lemma {:induction false} LaterItems(members: seq<Member>, n: nat, m: nat)
    requires n <= m <= |members|
    ensures Items(members, m).Some? ==> Items(members, n).Some? && Items(members, n).value <= Items(members, m).value
    decreases m
  {
    if n < m {
      LaterItems(members, n, m - 1);
    }
  }

  /** A change that fails keeps the whole message from committing. */
  lemma {:induction false} RunPrefix(ok: Constraints, db: SyncDB, part: seq<JSON>, all: seq<JSON>)
    requires part <= all && Run(ok, db, part).None?
    ensures Run(ok, db, all).None?
    decreases |all|
  {
    hide EffectOf, ApplyEffect;
    if |part| < |all| {
      RunPrefix(ok, db, part, all[..|all| - 1]);
    } else {
      assert part == all;
    }
  }

  lemma {:induction false} RunOneMore(ok: Constraints, db: SyncDB, done: seq<JSON>, items: seq<JSON>, i: nat)
    requires i < |items|
    ensures Run(ok, db, done + items[..i + 1]) ==
            match Run(ok, db, done + items[..i])
            case None => None
            case Some(d) => match EffectOf(items[i]) case Some(e) => ApplyEffect(ok, d, e) case None => None
  {
    hide EffectOf, ApplyEffect;
    var all := done + items[..i + 1];
    assert all[..|all| - 1] == done + items[..i] && all[|all| - 1] == items[i];
  }

  // ---- The last touch wins

  /** The change rewrites the side of the relation table that holds `k`. */
  ghost predicate Touches(item: JSON, k: RelKey) {
    match EffectOf(item)
    case Some(Put(_, _, Some(Rewrite(side, from, _)))) => FromOf(side, k) == from
    case _ => false
  }

  /** What the list of such a change says about `k`. */
  ghost function Says(item: JSON, k: RelKey): Option<bool>
    requires Touches(item, k)
  {
    var rewrite := EffectOf(item).value.rewrite.value;
    Given(rewrite.list, ToOf(rewrite.side, k))
  }

  ghost predicate Puts(item: JSON, key: RowKey) {
    match EffectOf(item) case Some(Put(k, _, _)) => k == key case _ => false
  }

  ghost function RowGiven(item: JSON, key: RowKey): Record
    requires Puts(item, key)
  {
    EffectOf(item).value.row
  }

  /** The position of the last change for which `holds`. */
  ghost function LastSuch(items: seq<JSON>, holds: JSON -> bool): (r: Option<nat>)
    ensures r.Some? ==> r.value < |items| && holds(items[r.value])
    ensures forall j: nat :: j < |items| && (r.Some? ==> r.value < j) ==> !holds(items[j])
  {
    if items == [] then None
    else if holds(items[|items| - 1]) then Some(|items| - 1)
    else LastSuch(items[..|items| - 1], holds)
  }

  /** A write succeeds exactly when the row is accepted, its list names nobody twice, and the other end
      of every pair exists as a row. */
  lemma AppliesIff(ok: Constraints, db: SyncDB, key: RowKey, row: Record, rewrite: Option<Rewrite>)
    requires rewrite.Some? ==> rewrite.value.from == key.id
    requires rewrite.Some? ==> key.kind == if rewrite.value.side.BySession? then Session else UserProfile
    ensures ApplyEffect(ok, db, Put(key, row, rewrite)).Some? <==>
            && ok(db, key, row)
            && (rewrite.Some? ==>
                  var Rewrite(side, from, list) := rewrite.value;
                  && (forall i, j :: 0 <= i < j < |list| ==> list[i].id != list[j].id)
                  && (forall i :: 0 <= i < |list| ==>
                        RowKey(if side.BySession? then UserProfile else Session, list[i].id) in db.rows))
    ensures ApplyEffect(ok, db, Put(key, row, rewrite)).Some? ==>
              ApplyEffect(ok, db, Put(key, row, rewrite)).value.rows == db.rows[key := row]
  {
    hide Replaced;
    var put := PutRow(db, key, row);
    forall kind, id
      ensures id in Ids(put, kind) <==> RowKey(kind, id) in db.rows || RowKey(kind, id) == key
    {
      assert RowKey(kind, id) in put.rows <==> RowKey(kind, id) in db.rows || RowKey(kind, id) == key;
    }
    if rewrite.Some? {
      var list := rewrite.value.list;
      assert CanUpsert(Ids(put, UserProfile), Ids(put, Session), rewrite.value.side, key.id, list) <==>
             && DistinctTargets(list)
             && forall i :: 0 <= i < |list| ==>
                  RowKey(if rewrite.value.side.BySession? then UserProfile else Session, list[i].id) in db.rows;
    }
  }

  lemma OneTouch(ok: Constraints, db: SyncDB, item: JSON, k: RelKey)
    requires EffectOf(item).Some? && ApplyEffect(ok, db, EffectOf(item).value).Some?
    ensures Entry(ApplyEffect(ok, db, EffectOf(item).value).value.rels, k) ==
            if Touches(item, k) then Says(item, k) else Entry(db.rels, k)
  {
    hide EffectOf, CanUpsert, Replaced, Given, Ids;
  }

  lemma OnePut(ok: Constraints, db: SyncDB, item: JSON, key: RowKey)
    requires EffectOf(item).Some? && ApplyEffect(ok, db, EffectOf(item).value).Some?
    ensures Entry(ApplyEffect(ok, db, EffectOf(item).value).value.rows, key) ==
            if Puts(item, key) then Some(RowGiven(item, key)) else Entry(db.rows, key)
  {
    hide EffectOf, CanUpsert, Replaced, Ids;
  }

  /** In every message that commits, whether `k` is a member afterwards, and as what, is decided by
      the last create or update that names its session or its user: as that change lists it, absent
      if it does not list it; and nothing changes if no change names either. */
  lemma {:induction false} LastTouchWins(ok: Constraints, db: SyncDB, items: seq<JSON>, k: RelKey)
    requires Run(ok, db, items).Some?
    ensures Entry(Run(ok, db, items).value.rels, k) ==
            match LastSuch(items, item => Touches(item, k))
            case None => Entry(db.rels, k)
            case Some(i) => Says(items[i], k)
  {
    hide EffectOf, ApplyEffect, Touches, Says;
    if items != [] {
      var last := |items| - 1;
      LastTouchWins(ok, db, items[..last], k);
      OneTouch(ok, Run(ok, db, items[..last]).value, items[last], k);
    }
  }

  /** Likewise every row is the one given by the last create or update of that row. */
  lemma {:induction false} LastPutWins(ok: Constraints, db: SyncDB, items: seq<JSON>, key: RowKey)
    requires Run(ok, db, items).Some?
    ensures Entry(Run(ok, db, items).value.rows, key) ==
            match LastSuch(items, item => Puts(item, key))
            case None => Entry(db.rows, key)
            case Some(i) => Some(RowGiven(items[i], key))
  {
    hide EffectOf, ApplyEffect, Puts, RowGiven;
    if items != [] {
      var last := |items| - 1;
      LastPutWins(ok, db, items[..last], key);
      OnePut(ok, Run(ok, db, items[..last]).value, items[last], key);
    }
  }

  /** Handling a message again, when that commits too, changes nothing. */
  lemma ReplayChangesNothing(ok: Constraints, db: SyncDB, message: JSON)
    requires Handled(ok, db, message).Some?
    requires Handled(ok, Handled(ok, db, message).value, message).Some?
    ensures Handled(ok, Handled(ok, db, message).value, message) == Handled(ok, db, message)
  {
    hide Run, EffectOf;
    var items := MessageItems(message).value;
    var once := Run(ok, db, items).value;
    var twice := Run(ok, once, items).value;
    forall k
      ensures Entry(twice.rels, k) == Entry(once.rels, k)
    {
      LastTouchWins(ok, db, items, k);
      LastTouchWins(ok, once, items, k);
    }
    forall key
      ensures Entry(twice.rows, key) == Entry(once.rows, key)
    {
      LastPutWins(ok, db, items, key);
      LastPutWins(ok, once, items, key);
    }
    SameEntries(twice.rels, once.rels);
    SameEntries(twice.rows, once.rows);
  }

  /** A message only adds rows. */
  lemma {:induction false} RowsStay(ok: Constraints, db: SyncDB, part: seq<JSON>, all: seq<JSON>)
    requires part <= all && Run(ok, db, all).Some?
    ensures Run(ok, db, part).Some? && Run(ok, db, part).value.rows.Keys <= Run(ok, db, all).value.rows.Keys
    decreases |all|
  {
    hide EffectOf, CanUpsert, Replaced, Ids;
    if |part| < |all| {
      RowsStay(ok, db, part, all[..|all| - 1]);
    } else {
      assert part == all;
    }
  }

  /** When the constraints look at the written row alone, a message that committed commits again:
      the users and sessions that its lists name are still there. */
  lemma {:induction false} ReplayCommits(ok: Constraints, db: SyncDB, items: seq<JSON>, n: nat)
    requires n <= |items| && Run(ok, db, items).Some?
    requires forall a, b, key, row :: ok(a, key, row) == ok(b, key, row)
    ensures Run(ok, Run(ok, db, items).value, items[..n]).Some?
    ensures Run(ok, db, items).value.rows.Keys <= Run(ok, Run(ok, db, items).value, items[..n]).value.rows.Keys
  {
    hide EffectOf, Replaced;
    var once := Run(ok, db, items).value;
    if n > 0 {
      var part := items[..n];
      assert part[..n - 1] == items[..n - 1];
      ReplayCommits(ok, db, items, n - 1);
      RowsStay(ok, db, part, items);
      RowsStay(ok, db, items[..n - 1], items);
      var e := EffectOf(items[n - 1]).value;
      AcceptedAgain(ok, Run(ok, db, items[..n - 1]).value, Run(ok, once, items[..n - 1]).value, e);
    }
  }

  lemma AcceptedAgain(ok: Constraints, a: SyncDB, b: SyncDB, e: Effect)
    requires ApplyEffect(ok, a, e).Some?
    requires ApplyEffect(ok, a, e).value.rows.Keys <= b.rows.Keys
    requires forall c, d, key, row :: ok(c, key, row) == ok(d, key, row)
    ensures ApplyEffect(ok, b, e).Some? && b.rows.Keys <= ApplyEffect(ok, b, e).value.rows.Keys
  {
    hide Replaced;
    if e.Put? {
      assert ok(a, e.key, e.row);
      var put, again := PutRow(a, e.key, e.row), PutRow(b, e.key, e.row);
      forall kind, id | id in Ids(put, kind)
        ensures id in Ids(again, kind)
      {
        assert RowKey(kind, id) in again.rows;
      }
      assert Ids(put, UserProfile) <= Ids(again, UserProfile) && Ids(put, Session) <= Ids(again, Session);
    }
  }
}
