/** What one server publishes, and what it becomes on another that handles it. */
module Publishing {
  import opened Common
  import opened Relations
  import opened SyncCodec
  import opened SyncEncoder
  import opened Broadcast

  datatype Published = Published(op: string, kind: DataType, record: Record)

  ghost predicate Encodable(changes: seq<Published>) {
    forall i :: 0 <= i < |changes| ==> WellTyped(SchemaOf(changes[i].kind), changes[i].record)
  }

  function EncodeChange(p: Published): JSON
    requires WellTyped(SchemaOf(p.kind), p.record)
  {
    JObj([Member("data", JObj(EncodeRecord(p.kind, p.record))), Member("operation", JStr(p.op))])
  }

  function EncodeChanges(changes: seq<Published>): (r: seq<JSON>)
    requires Encodable(changes)
    ensures |r| == |changes|
    ensures forall i :: 0 <= i < |changes| ==> r[i] == EncodeChange(changes[i])
  {
    seq(|changes|, i requires 0 <= i < |changes| => EncodeChange(changes[i]))
  }

  /** `ReferentialSync`: a version of zero is left out, a nil slice is written as null. */
  function EncodeSync(changes: Option<seq<Published>>, version: int): JSON
    requires changes.Some? ==> Encodable(changes.value)
  {
    var list := if changes.Some? then JArr(EncodeChanges(changes.value)) else JNull;
    JObj([Member("changes", list)] + if version == 0 then [] else [Member("version", JInt(version))])
  }

  /** A published message is read as its changes, in order, exactly when its version, a signed
      integer on the publisher's side and an unsigned one on the worker's, is not negative. */
  lemma PublishedMessage(changes: seq<Published>, version: int)
    requires Encodable(changes) && FitsInt64(version)
    ensures MessageItems(EncodeSync(Some(changes), version)) ==
            if version >= 0 then Some(EncodeChanges(changes)) else None
    ensures MessageItems(EncodeSync(None, version)) == if version >= 0 then Some([]) else None
  {
    hide EncodeChanges, Encodable, Items;
    ReadPublished(JArr(EncodeChanges(changes)), version);
    ReadPublished(JNull, version);
  }

  lemma ReadPublished(list: JSON, version: int)
    requires list.JNull? || list.JArr?
    requires FitsInt64(version)
    ensures var members := [Member("changes", list)] + if version == 0 then [] else [Member("version", JInt(version))];
            Items(members, |members|) ==
            if version >= 0 then Some(if list.JArr? then list.items else []) else None
  {
    var items := if list.JArr? then list.items else [];
    var members := [Member("changes", list)] + if version == 0 then [] else [Member("version", JInt(version))];
    assert Items(members, 0) == Some([]);
    assert [] + items == items;
    assert members[0] == Member("changes", list);
    assert Items(members, 1) == Some(items);
  }

  /** A published change does what its operation and its record say, whatever was left out of its
      encoding; an invitation or an unknown operation fails. */
  lemma PublishedChange(p: Published)
    requires WellTyped(SchemaOf(p.kind), p.record)
    ensures EffectOf(EncodeChange(p)) ==
            if p.kind.Invitation? || OperationOf(p.op).None? then None
            else SyncRecord(OperationOf(p.op).value, p.kind, p.record)
  {
    hide WellTyped, SchemaOf, SyncRecord, DecodeObject, EncodeRecord;
    EncodeThenDecode(p.kind, p.record);
    var data := EncodeRecord(p.kind, p.record);
    var members := [Member("data", JObj(data)), Member("operation", JStr(p.op))];
    assert ReadMembers(members, 0) == Some(NOTHING_READ);
    assert ReadMembers(members, 1) == Some(Change(Unset, Some(p.kind), data));
  }

  // ---- Which row and which pairs a change is about

  /** Where the id is among the fields. */
  function IdPosition(t: DataType): nat {
    match t
    case Session => 0
    case Race => 1
    case UserProfile => 2
    case Invitation => 0
    case SessionPlayerRace => 1
    case SessionFiles => 1
    case Ruleset => 4
  }

  /** Every record has an id, and the columns that the worker looks at have the types it expects. */
  lemma ColumnsExist(kind: DataType, record: Record)
    requires WellTyped(SchemaOf(kind), record)
    ensures "id" in record && record["id"].VStr?
    ensures kind.Session? ==> "members" in record && record["members"].VList?
    ensures kind.UserProfile? ==>
              && "session_list" in record && record["session_list"].VList?
              && "serial_key" in record && record["serial_key"].VStr?
    ensures kind.SessionFiles? ==>
              "turns" in record && record["turns"].VList? && "orders" in record && record["orders"].VList?
    ensures kind.SessionPlayerRace? ==>
              "is_bot" in record && record["is_bot"].VBool? && "bot_level" in record && record["bot_level"].VInt?
  {
    hide WellTyped, RulesetFields;
    IdField(kind);
    TypedField(SchemaOf(kind), record, IdPosition(kind));
    match kind
    case Session => TypedField(SchemaOf(kind), record, 1);
    case UserProfile =>
      TypedField(SchemaOf(kind), record, 6);
      TypedField(SchemaOf(kind), record, 5);
    case SessionFiles =>
      TypedField(SchemaOf(kind), record, 2);
      TypedField(SchemaOf(kind), record, 4);
    case SessionPlayerRace =>
      TypedField(SchemaOf(kind), record, 2);
      TypedField(SchemaOf(kind), record, 0);
    case _ =>
  }

  lemma IdField(kind: DataType)
    ensures IdPosition(kind) < |FieldsOf(kind)|
    ensures FieldsOf(kind)[IdPosition(kind)].name == "id" && FieldsOf(kind)[IdPosition(kind)].kind == Str
  {
    hide RulesetFields;
    if kind.Ruleset? {
      RulesetIdField();
    }
  }

  lemma RulesetIdField()
    ensures |RulesetFields()| > 4 && RulesetFields()[4].name == "id" && RulesetFields()[4].kind == Str
  {
  }

  lemma IdIsThere(record: Record)
    requires "id" in record && record["id"].VStr?
    ensures Entry(record, "id") == Some(VStr(StringAt(record, "id")))
  {
  }

  predicate Writes(p: Published) {
    p.op == "create" || p.op == "update"
  }

  /** This record is written under this key. */
  ghost predicate IsAbout(p: Published, key: RowKey) {
    Writes(p) && p.kind == key.kind && Entry(p.record, "id") == Some(VStr(key.id))
  }

  /** The record is about the session or the user of `k`. */
  ghost predicate Names(p: Published, k: RelKey) {
    IsAbout(p, RowKey(Session, k.session)) || IsAbout(p, RowKey(UserProfile, k.user))
  }

  /** What the record's own list says about `k`: the last item for the other end, if any. */
  function Listed(p: Published, k: RelKey): Option<bool> {
    match p.kind
    case Session => ListedIn(ListAt(p.record, "members"), "user_profile_id", k.user)
    case UserProfile => ListedIn(ListAt(p.record, "session_list"), "session_id", k.session)
    case _ => None
  }

  function ListedIn(list: seq<Option<Record>>, column: string, id: Id): Option<bool> {
    if list == [] then None
    else
      var last := list[|list| - 1];
      if last.Some? && StringAt(last.value, column) == id then Some(BoolAt(last.value, "is_manager"))
      else ListedIn(list[..|list| - 1], column, id)
  }

  lemma {:induction false} ListedIsGiven(list: seq<Option<Record>>, column: string, id: Id)
    requires NoNil(list)
    ensures ListedIn(list, column, id) == Given(Targets(list, column), id)
  {
    if list != [] {
      var init := list[..|list| - 1];
      ListedIsGiven(init, column, id);
      assert Targets(list, column)[..|list| - 1] == Targets(init, column);
    }
  }

  /** Which pairs a published change decides, in terms of its record. */
  lemma PublishedTouch(p: Published, k: RelKey)
    requires WellTyped(SchemaOf(p.kind), p.record) && EffectOf(EncodeChange(p)).Some?
    ensures Touches(EncodeChange(p), k) <==> Names(p, k)
    ensures Names(p, k) ==> Says(EncodeChange(p), k) == Listed(p, k)
  {
    hide EffectOf, EncodeChange, WellTyped, Given, Targets, RowOf, SchemaOf, NoNil, ListAt, StringAt, ListedIn;
    PublishedChange(p);
    ColumnsExist(p.kind, p.record);
    assert Entry(p.record, "id") == Some(VStr(StringAt(p.record, "id"))) by {
      IdIsThere(p.record);
    }
    if Walkable(p.kind, p.record) {
      match p.kind
      case Session => ListedIsGiven(ListAt(p.record, "members"), "user_profile_id", k.user);
      case UserProfile => ListedIsGiven(ListAt(p.record, "session_list"), "session_id", k.session);
      case _ =>
    }
  }

  // ---- What a published record becomes, in terms of the record

  /** The list holds a nil pointer. */
  ghost predicate HasNil(record: Record, column: string) {
    column in record && record[column].VList? && record[column].items.Some? && None in record[column].items.value
  }

  /** The columns whose items the worker looks at. */
  ghost predicate WalksNil(kind: DataType, record: Record) {
    || (kind.Session? && HasNil(record, "members"))
    || (kind.UserProfile? && HasNil(record, "session_list"))
    || (kind.SessionFiles? && (HasNil(record, "turns") || HasNil(record, "orders")))
  }

  /** The row of a record: each column of the record other than the tag and the list of relations, with
      the record's own value, where an empty list is nil, and the level of a human and an empty serial
      key are null; and no other column. */
  ghost predicate IsRowOf(kind: DataType, record: Record, row: Record) {
    forall column ::
      Entry(row, column) ==
      if || column == "__type__"
         || (kind.Session? && column == "members")
         || (kind.UserProfile? && column == "session_list")
         || (kind.UserProfile? && column == "serial_key" && Entry(record, column) == Some(VStr("")))
         || (kind.SessionPlayerRace? && column == "bot_level" && Entry(record, "is_bot") == Some(VBool(false)))
      then None
      else if Entry(record, column) == Some(VList(Some([]))) then Some(VList(None))
      else Entry(record, column)
  }

  /** What a published change does, in terms of its record alone: it writes the row of that record under
      its kind and id; it does nothing when there is no change; and it fails for an invitation, for an
      unknown operation, and for a nil pointer in a list that is walked. */
  lemma PublishedRow(p: Published)
    requires WellTyped(SchemaOf(p.kind), p.record)
    ensures var e := EffectOf(EncodeChange(p));
            && (e.None? <==>
                  || p.kind.Invitation?
                  || (!Writes(p) && p.op != "no_change")
                  || (Writes(p) && WalksNil(p.kind, p.record)))
            && (e == Some(Nothing) <==> p.op == "no_change" && !p.kind.Invitation?)
            && (e.Some? && Writes(p) ==>
                  && e.value.Put?
                  && e.value.key.kind == p.kind && Entry(p.record, "id") == Some(VStr(e.value.key.id))
                  && IsRowOf(p.kind, p.record, e.value.row))
  {
    hide EffectOf, EncodeChange, WellTyped, SchemaOf, RowOf, IsRowOf, Walkable, WalksNil, RewriteOf;
    PublishedChange(p);
    ColumnsExist(p.kind, p.record);
    NilIsNil(p.kind, p.record);
    RowIsRowOf(p.kind, p.record);
    IdIsThere(p.record);
    hide StringAt;
  }

  lemma NilIsNil(kind: DataType, record: Record)
    ensures Walkable(kind, record) <==> !WalksNil(kind, record)
  {
  }

  lemma RowIsRowOf(kind: DataType, record: Record)
    requires kind.UserProfile? ==> "serial_key" in record && record["serial_key"].VStr?
    requires kind.SessionPlayerRace? ==> "is_bot" in record && record["is_bot"].VBool?
    ensures IsRowOf(kind, record, RowOf(kind, record))
  {
  }

  lemma PublishedPuts(p: Published, key: RowKey)
    requires WellTyped(SchemaOf(p.kind), p.record) && EffectOf(EncodeChange(p)).Some?
    ensures Puts(EncodeChange(p), key) <==> IsAbout(p, key)
    ensures Puts(EncodeChange(p), key) ==> IsRowOf(p.kind, p.record, RowGiven(EncodeChange(p), key))
  {
    hide EncodeChange, WellTyped, SchemaOf, IsRowOf, WalksNil, EffectOf;
    PublishedRow(p);
  }

  lemma {:induction false} EveryEffectReads(ok: Constraints, db: SyncDB, items: seq<JSON>)
    requires Run(ok, db, items).Some?
    ensures forall j :: 0 <= j < |items| ==> EffectOf(items[j]).Some?
  {
    hide EffectOf, ApplyEffect;
    if items != [] {
      EveryEffectReads(ok, db, items[..|items| - 1]);
      assert forall j :: 0 <= j < |items| - 1 ==> items[..|items| - 1][j] == items[j];
    }
  }

  /** For every published message that commits: the row of the last record about it is the row of that
      record. */
  lemma {:induction false} LastRecordWins(
      ok: Constraints, db: SyncDB, changes: seq<Published>, version: int, key: RowKey, i: nat)
    requires Encodable(changes) && FitsInt64(version) && Handled(ok, db, EncodeSync(Some(changes), version)).Some?
    requires i < |changes| && IsAbout(changes[i], key) && forall j :: i < j < |changes| ==> !IsAbout(changes[j], key)
    ensures var after := Handled(ok, db, EncodeSync(Some(changes), version)).value;
            key in after.rows && IsRowOf(changes[i].kind, changes[i].record, after.rows[key])
  {
    hide EncodeChange, WellTyped, SchemaOf, IsRowOf, IsAbout, EffectOf, Run, ApplyEffect, EncodeSync, Puts, RowGiven;
    var items := EncodeChanges(changes);
    PublishedMessage(changes, version);
    EveryEffectReads(ok, db, items);
    forall j | i <= j < |changes|
      ensures Puts(items[j], key) <==> IsAbout(changes[j], key)
    {
      PublishedPuts(changes[j], key);
    }
    PublishedPuts(changes[i], key);
    LastPutWins(ok, db, items, key);
    assert LastSuch(items, item => Puts(item, key)) == Some(i);
  }

  /** And a row that no record is about stays as it was. */
  lemma {:induction false} OtherRowsStay(
      ok: Constraints, db: SyncDB, changes: seq<Published>, version: int, key: RowKey)
    requires Encodable(changes) && FitsInt64(version) && Handled(ok, db, EncodeSync(Some(changes), version)).Some?
    requires forall j :: 0 <= j < |changes| ==> !IsAbout(changes[j], key)
    ensures Entry(Handled(ok, db, EncodeSync(Some(changes), version)).value.rows, key) == Entry(db.rows, key)
  {
    hide EncodeChange, WellTyped, SchemaOf, IsRowOf, IsAbout, EffectOf, Run, ApplyEffect, EncodeSync, Puts, RowGiven;
    var items := EncodeChanges(changes);
    PublishedMessage(changes, version);
    EveryEffectReads(ok, db, items);
    forall j | 0 <= j < |changes|
      ensures !Puts(items[j], key)
    {
      PublishedPuts(changes[j], key);
    }
    LastPutWins(ok, db, items, key);
  }

  /** Likewise a membership is as the last record about its session or its user lists it, absent if that
      does not list it. */
  lemma {:induction false} LastListWins(
      ok: Constraints, db: SyncDB, changes: seq<Published>, version: int, k: RelKey, i: nat)
    requires Encodable(changes) && FitsInt64(version) && Handled(ok, db, EncodeSync(Some(changes), version)).Some?
    requires i < |changes| && Names(changes[i], k) && forall j :: i < j < |changes| ==> !Names(changes[j], k)
    ensures Entry(Handled(ok, db, EncodeSync(Some(changes), version)).value.rels, k) == Listed(changes[i], k)
  {
    hide EncodeChange, WellTyped, SchemaOf, Names, Listed, EffectOf, Run, ApplyEffect, EncodeSync, Touches, Says;
    var items := EncodeChanges(changes);
    PublishedMessage(changes, version);
    EveryEffectReads(ok, db, items);
    forall j | i <= j < |changes|
      ensures Touches(items[j], k) <==> Names(changes[j], k)
    {
      PublishedTouch(changes[j], k);
    }
    PublishedTouch(changes[i], k);
    LastTouchWins(ok, db, items, k);
    assert LastSuch(items, item => Touches(item, k)) == Some(i);
  }

  /** And a membership that no record is about stays as it was. */
  lemma {:induction false} OtherMembersStay(
      ok: Constraints, db: SyncDB, changes: seq<Published>, version: int, k: RelKey)
    requires Encodable(changes) && FitsInt64(version) && Handled(ok, db, EncodeSync(Some(changes), version)).Some?
    requires forall j :: 0 <= j < |changes| ==> !Names(changes[j], k)
    ensures Entry(Handled(ok, db, EncodeSync(Some(changes), version)).value.rels, k) == Entry(db.rels, k)
  {
    hide EncodeChange, WellTyped, SchemaOf, Names, Listed, EffectOf, Run, ApplyEffect, EncodeSync, Touches, Says;
    var items := EncodeChanges(changes);
    PublishedMessage(changes, version);
    EveryEffectReads(ok, db, items);
    forall j | 0 <= j < |changes|
      ensures !Touches(items[j], k)
    {
      PublishedTouch(changes[j], k);
    }
    LastTouchWins(ok, db, items, k);
  }

  /** Nobody is listed twice, and whoever is listed exists. */
  ghost predicate ListFits(db: SyncDB, list: seq<Option<Record>>, column: string, kind: DataType) {
    && (forall i, j :: 0 <= i < j < |list| && list[i].Some? && list[j].Some? ==>
          StringAt(list[i].value, column) != StringAt(list[j].value, column))
    && (forall i :: 0 <= i < |list| && list[i].Some? ==> RowKey(kind, StringAt(list[i].value, column)) in db.rows)
  }

  ghost predicate ListsFit(db: SyncDB, p: Published) {
    && (p.kind.Session? ==> ListFits(db, ListAt(p.record, "members"), "user_profile_id", UserProfile))
    && (p.kind.UserProfile? ==> ListFits(db, ListAt(p.record, "session_list"), "session_id", Session))
  }

  /** A record that can be written is written exactly when its row is accepted and its list fits. */
  lemma PublishedAppliesIff(ok: Constraints, db: SyncDB, p: Published)
    requires WellTyped(SchemaOf(p.kind), p.record) && Writes(p) && EffectOf(EncodeChange(p)).Some?
    ensures var e := EffectOf(EncodeChange(p)).value;
            e.Put? && (ApplyEffect(ok, db, e).Some? <==> ok(db, e.key, e.row) && ListsFit(db, p))
  {
    hide EffectOf, EncodeChange, WellTyped, SchemaOf, RowOf, IsRowOf, ApplyEffect, WalksNil, ListFits;
    PublishedChange(p);
    PublishedRow(p);
    NilIsNil(p.kind, p.record);
    var e := EffectOf(EncodeChange(p)).value;
    AppliesIff(ok, db, e.key, e.row, e.rewrite);
    match p.kind
    case Session => TargetsFit(db, ListAt(p.record, "members"), "user_profile_id", UserProfile);
    case UserProfile => TargetsFit(db, ListAt(p.record, "session_list"), "session_id", Session);
    case _ =>
  }

  lemma TargetsFit(db: SyncDB, list: seq<Option<Record>>, column: string, kind: DataType)
    requires NoNil(list)
    ensures var targets := Targets(list, column);
            ListFits(db, list, column, kind) <==>
            && (forall i, j :: 0 <= i < j < |targets| ==> targets[i].id != targets[j].id)
            && (forall i :: 0 <= i < |targets| ==> RowKey(kind, targets[i].id) in db.rows)
  {
    hide StringAt;
    var targets := Targets(list, column);
    assert forall i :: 0 <= i < |list| ==> targets[i].id == StringAt(list[i].value, column);
  }
}
