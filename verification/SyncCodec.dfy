/**
 The JSON codec of the records that a referential broadcast carries, and the two ways of finding
 out which record an object is: trying every decoder in turn (`DataType.UnmarshalJSONIterator`)
 and looking at the tag first (`guessDataType`).

 The generated encoders and decoders follow one pattern, so they are modelled once over a
 schema; the seven schemas below list each type's fields in the order of its code.
 */
module SyncCodec {
  import opened Common

  datatype JSON =
    | JNull
    | JBool(b: bool)
    | JInt(n: int)
    | JReal(r: real)
    | JStr(s: string)
    | JArr(items: seq<JSON>)
    | JObj(members: seq<Member>)

  /** A member of an object. Names may repeat. */
  datatype Member = Member(name: string, value: JSON)

  datatype Val =
    | VStr(s: string)
    | VInt(n: int)
    | VBool(b: bool)
    | VList(items: Option<seq<Option<Record>>>) // nil slice, or pointers that may be nil

  type Record = map<string, Val>

  datatype Kind =
    | Str
    | Int
    | Bool
    | NullableBool // a bool read by reflection: null leaves it as it is
    | List(item: Schema)

  datatype Field = Field(name: string, kind: Kind, required: bool, omitEmpty: bool)

  /** A schema with a tag belongs to a generated decoder, which stops at a member without a name;
      one without a tag belongs to a list item, which is read by reflection. */
  datatype Schema = Schema(tag: Option<string>, fields: seq<Field>)

  // ---- The schemas

  const TYPE := "__type__"

  function Req(name: string, kind: Kind): Field {
    Field(name, kind, true, false)
  }

  function Opt(name: string, kind: Kind): Field {
    Field(name, kind, false, true)
  }

  const REL_ITEM := Schema(None, [
    Opt("is_manager", NullableBool), Opt("session_id", Str), Opt("user_profile_id", Str)])

  const FILE_ITEM := Schema(None, [Opt("b64_data", Str)])

  datatype DataType = Session | Race | UserProfile | Invitation | SessionPlayerRace | SessionFiles | Ruleset

  /** The order in which the decoders are tried. */
  const ALL_TYPES: seq<DataType> :=
    [Session, Race, UserProfile, Invitation, SessionPlayerRace, SessionFiles, Ruleset]

  function Tag(t: DataType): string {
    match t
    case Session => "session"
    case Race => "race"
    case UserProfile => "user_profile"
    case Invitation => "invitation"
    case SessionPlayerRace => "session_player_race"
    case SessionFiles => "session_files"
    case Ruleset => "ruleset"
  }

  function SessionFields(): seq<Field> {
    [
      Req("id", Str), Opt("members", List(REL_ITEM)), Req("name", Str), Opt("private", Bool),
      Opt("rules_is_set", Bool), Opt("state", Str), Req(TYPE, Str)
    ]
  }

  function RaceFields(): seq<Field> {
    [
      Req("data", Str), Req("id", Str), Req("name_plural", Str), Req("name_singular", Str),
      Req(TYPE, Str), Req("user_id", Str)
    ]
  }

  function UserProfileFields(): seq<Field> {
    [
      Opt("api_key", Str), Req("email", Str), Req("id", Str), Opt("is_manager", Bool),
      Opt("nickname", Str), Opt("serial_key", Str), Opt("session_list", List(REL_ITEM)),
      Req("state", Str), Req(TYPE, Str)
    ]
  }

  function InvitationFields(): seq<Field> {
    [
      Req("id", Str), Opt("inviter_id", Str), Req("session_id", Str), Req(TYPE, Str),
      Req("user_profile_id", Str)
    ]
  }

  function SessionPlayerRaceFields(): seq<Field> {
    [
      Opt("bot_level", Int), Req("id", Str), Req("is_bot", Bool), Req("player_order", Int),
      Req("race_id", Str), Opt("ready", Bool), Req("session_id", Str), Req(TYPE, Str),
      Req("user_profile_id", Str)
    ]
  }

  function SessionFilesFields(): seq<Field> {
    [
      Req("hostfile", Str), Req("id", Str), Req("orders", List(FILE_ITEM)), Req("session_id", Str),
      Req("turns", List(FILE_ITEM)), Req(TYPE, Str), Req("universe", Str), Req("year", Int)
    ]
  }

  // The fields of a ruleset, in four parts.

  function RulesetUniverse(): seq<Field> {
    [
      Req("accelerated_bbs_play", Bool), Req("computer_players_form_alliances", Bool),
      Req("density", Int), Req("galaxy_clumping", Bool), Req("id", Str),
      Req("maximum_minerals", Bool), Req("no_random_events", Bool),
      Req("public_player_scores", Bool), Opt("random_seed", Int), Req("session_id", Str),
      Req("slower_tech_advances", Bool), Req("starting_distance", Int)
    ]
  }

  function RulesetTag(): seq<Field> {
    [
      Req(TYPE, Str), Req("universe_size", Int),
      Req("vc_at_least_x_years_must_pass_before_a_winner_is_declared", Int),
      Req("vc_attain_tech_X_in_Y_field", Bool),
      Opt("vc_attain_tech_X_in_Y_field_fields_value", Int),
      Opt("vc_attain_tech_X_in_Y_field_tech_value", Int)
    ]
  }

  function RulesetScores(): seq<Field> {
    [
      Req("vc_exceed_next_player_score_by_x", Bool),
      Opt("vc_exceed_next_player_score_by_x_value", Int), Opt("vc_exceed_score_of_x", Bool),
      Opt("vc_exceed_score_of_x_value", Int),
      Req("vc_has_production_capacity_of_x_thousand", Bool),
      Opt("vc_has_production_capacity_of_x_thousand_value", Int)
    ]
  }

  function RulesetGoals(): seq<Field> {
    [
      Req("vc_have_highest_score_after_x_years", Bool),
      Opt("vc_have_highest_score_after_x_years_value", Int), Req("vc_owns_x_capital_ships", Bool),
      Opt("vc_owns_x_capital_ships_value", Int), Req("vc_owns_x_percent_of_planets", Bool),
      Opt("vc_owns_x_percent_of_planets_value", Int),
      Req("vc_winner_must_meet_x_of_the_above", Int)
    ]
  }

  function RulesetFields(): (fields: seq<Field>)
    ensures |fields| == 31
  {
    RulesetUniverse() + RulesetTag() + RulesetScores() + RulesetGoals()
  }

  function FieldsOf(t: DataType): seq<Field> {
    match t
    case Session => SessionFields()
    case Race => RaceFields()
    case UserProfile => UserProfileFields()
    case Invitation => InvitationFields()
    case SessionPlayerRace => SessionPlayerRaceFields()
    case SessionFiles => SessionFilesFields()
    case Ruleset => RulesetFields()
  }

  function SchemaOf(t: DataType): Schema {
    Schema(Some(Tag(t)), FieldsOf(t))
  }

  // ---- Decoding

  function Zero(kind: Kind): Val {
    match kind
    case Str => VStr("")
    case Int => VInt(0)
    case Bool => VBool(false)
    case NullableBool => VBool(false)
    case List(_) => VList(None)
  }

  predicate FitsInt64(n: int) {
    -0x8000_0000_0000_0000 <= n < 0x8000_0000_0000_0000
  }

  /** Null means "no value here" for the kinds that are read through a nullable reader. */
  predicate KeepsOld(kind: Kind, json: JSON) {
    json.JNull? && (kind.Int? || kind.NullableBool?)
  }

  /** Reading `json` into a field that holds `current`; none is an iterator error. A `true` where
      a string, number or list is expected is reported at once; a `false` is skipped, and then the
      reader fails on what follows, so it is an error as well. */
  function ReadValue(kind: Kind, json: JSON, current: Val): Option<Val>
    decreases kind, 0
  {
    if KeepsOld(kind, json) then Some(current)
    else
      match kind
      case Str => (match json case JStr(s) => Some(VStr(s)) case JNull => Some(VStr("")) case _ => None)
      case Int => (match json case JInt(n) => if FitsInt64(n) then Some(VInt(n)) else None case _ => None)
      case Bool => (match json case JBool(b) => Some(VBool(b)) case _ => None)
      case NullableBool => (match json case JBool(b) => Some(VBool(b)) case _ => None)
      case List(item) =>
        match json
        case JNull => Some(VList(None))
        case JArr(items) =>
          (match ReadItems(item, items, |items|) case Some(r) => Some(VList(Some(r))) case None => None)
        case _ => None
  }

  /** The first `n` items. */
  function ReadItems(item: Schema, items: seq<JSON>, n: nat): (r: Option<seq<Option<Record>>>)
    requires n <= |items|
    ensures r.Some? ==> |r.value| == n
    decreases item, 2, n
  {
    if n == 0 then Some([])
    else
      match ReadItems(item, items, n - 1)
      case None => None
      case Some(rest) =>
        match items[n - 1]
        case JNull => Some(rest + [None])
        case JObj(members) =>
          (match DecodeObject(item, members) case Some(record) => Some(rest + [Some(record)]) case None => None)
        case _ => None
  }

  /** Position of a field's name, as the `switch` of the decoder finds it. */
  function FieldIndex(fields: seq<Field>, name: string): (i: Option<nat>)
    ensures i.Some? ==> i.value < |fields| && fields[i.value].name == name
    ensures i.None? ==> forall j :: 0 <= j < |fields| ==> fields[j].name != name
  {
    if fields == [] then None
    else
      var last := |fields| - 1;
      match FieldIndex(fields[..last], name)
      case Some(i) => Some(i)
      case None => if fields[last].name == name then Some(last) else None
  }

  function ZeroRecord(fields: seq<Field>): (r: Record)
    ensures forall k :: k in r <==> exists i :: 0 <= i < |fields| && fields[i].name == k
  {
    map i | 0 <= i < |fields| && FieldIndex(fields, fields[i].name) == Some(i) :: fields[i].name := Zero(fields[i].kind)
  }

  /** How many members the loop of a decoder looks at. */
  function Visible(schema: Schema, members: seq<Member>): (n: nat)
    ensures n <= |members|
    ensures schema.tag.Some? ==> forall i :: 0 <= i < n ==> members[i].name != ""
    ensures n < |members| ==> schema.tag.Some? && members[n].name == ""
  {
    if schema.tag.None? || members == [] then |members|
    else
      var last := |members| - 1;
      var n := Visible(schema, members[..last]);
      if n < last then n else if members[last].name == "" then last else |members|
  }

  datatype Progress = Progress(record: Record, received: set<string>)

  /** A tagged decoder insists on its own tag. */
  predicate TagOk(schema: Schema, name: string, v: Val) {
    schema.tag.Some? && name == TYPE ==> v == VStr(schema.tag.value)
  }

  function DecodeMembers(schema: Schema, members: seq<Member>, n: nat): (r: Option<Progress>)
    requires n <= |members|
    ensures r.Some? ==> r.value.record.Keys == ZeroRecord(schema.fields).Keys
    decreases schema, 0, n
  {
    if n == 0 then Some(Progress(ZeroRecord(schema.fields), {}))
    else
      match DecodeMembers(schema, members, n - 1)
      case None => None
      case Some(p) =>
        var name := members[n - 1].name;
        match FieldIndex(schema.fields, name)
        case None => Some(p)
        case Some(i) =>
          match ReadValue(schema.fields[i].kind, members[n - 1].value, p.record[name])
          case None => None
          case Some(v) =>
            if TagOk(schema, name, v) then Some(Progress(p.record[name := v], p.received + {name})) else None
  }

  function DecodeObject(schema: Schema, members: seq<Member>): Option<Record>
    decreases schema, 1
  {
    match DecodeMembers(schema, members, Visible(schema, members))
    case None => None
    case Some(p) =>
      if forall i :: 0 <= i < |schema.fields| && schema.fields[i].required ==> schema.fields[i].name in p.received
      then Some(p.record) else None
  }

  /** The generated decoder: one pass over the members, then the check of what was received. */
  method UnmarshalJSON(schema: Schema, members: seq<Member>) returns (r: Option<Record>)
    requires schema.tag.Some?
    ensures r == DecodeObject(schema, members)
  {
    hide ReadValue, ZeroRecord, TagOk, FieldIndex;
    var record := ZeroRecord(schema.fields);
    var received := {};
    ghost var visible := Visible(schema, members);
    var n := 0;
    while n < |members| && members[n].name != ""
      invariant n <= visible
      invariant DecodeMembers(schema, members, n) == Some(Progress(record, received))
    {
      var Member(name, value) := members[n];
      n := n + 1;
      var index := FieldIndex(schema.fields, name);
      if index.Some? {
        var v := ReadValue(schema.fields[index.value].kind, value, record[name]);
        if v.None? || !TagOk(schema, name, v.value) {
          NoWayBack(schema, members, n, visible);
          return None;
        }
        record, received := record[name := v.value], received + {name};
      }
    }
    var complete := AllReceived(schema.fields, received);
    r := if complete then Some(record) else None;
  }

  /** The checks at the end of a generated decoder. */
  method AllReceived(fields: seq<Field>, received: set<string>) returns (ok: bool)
    ensures ok <==> forall i :: 0 <= i < |fields| && fields[i].required ==> fields[i].name in received
  {
    for i := 0 to |fields|
      invariant forall j :: 0 <= j < i && fields[j].required ==> fields[j].name in received
    {
      if fields[i].required && fields[i].name !in received {
        return false;
      }
    }
    ok := true;
  }

  lemma {:induction false} NoWayBack(schema: Schema, members: seq<Member>, n: nat, m: nat)
    requires n <= m <= |members| && DecodeMembers(schema, members, n).None?
    ensures DecodeMembers(schema, members, m).None?
    decreases m
  {
    if n < m {
      NoWayBack(schema, members, n, m - 1);
    }
  }

  // ---- What a decoder accepts and what it returns, without its loop

  ghost predicate Known(schema: Schema, name: string) {
    FieldIndex(schema.fields, name).Some?
  }

  function KindOf(schema: Schema, name: string): Kind
    requires Known(schema, name)
  {
    schema.fields[FieldIndex(schema.fields, name).value].kind
  }

  /** The tag is a non-empty string field. */
  ghost predicate Proper(schema: Schema) {
    schema.tag.Some? ==> schema.tag.value != "" && Known(schema, TYPE) && KindOf(schema, TYPE) == Str
  }

  /** The member can be read and, for the tag, is the tag. */
  ghost predicate Acceptable(schema: Schema, m: Member) {
    Known(schema, m.name) ==>
      && ReadValue(KindOf(schema, m.name), m.value, Zero(KindOf(schema, m.name))).Some?
      && (schema.tag.Some? && m.name == TYPE ==> m.value == JStr(schema.tag.value))
  }

  /** The last of the first `n` members that gives `name` a value. */
  ghost function LastValue(kind: Kind, name: string, members: seq<Member>, n: nat): Val
    requires n <= |members|
  {
    if n == 0 then Zero(kind)
    else if members[n - 1].name == name && !KeepsOld(kind, members[n - 1].value)
            && ReadValue(kind, members[n - 1].value, Zero(kind)).Some?
    then ReadValue(kind, members[n - 1].value, Zero(kind)).value
    else LastValue(kind, name, members, n - 1)
  }

  /** An object decodes exactly when all its visible members are acceptable and no required one is
      missing, and each field then holds the last value given for it. */
  ghost predicate Decodes(schema: Schema, members: seq<Member>, record: Record) {
    var n := Visible(schema, members);
    && (forall i :: 0 <= i < n ==> Acceptable(schema, members[i]))
    && (forall j :: 0 <= j < |schema.fields| && schema.fields[j].required ==>
          exists i :: 0 <= i < n && members[i].name == schema.fields[j].name)
    && record.Keys == ZeroRecord(schema.fields).Keys
    && (forall k :: k in record && Known(schema, k) ==> record[k] == LastValue(KindOf(schema, k), k, members, n))
  }

  lemma ReadIgnoresCurrent(kind: Kind, json: JSON, a: Val, b: Val)
    ensures ReadValue(kind, json, a).Some? <==> ReadValue(kind, json, b).Some?
    ensures if KeepsOld(kind, json) then ReadValue(kind, json, a) == Some(a)
            else ReadValue(kind, json, a) == ReadValue(kind, json, b)
  {
  }

  lemma ZeroRecordHoldsZeros(schema: Schema, name: string)
    requires Known(schema, name)
    ensures name in ZeroRecord(schema.fields) && ZeroRecord(schema.fields)[name] == Zero(KindOf(schema, name))
  {
  }

  lemma {:induction false} DecodesWhenAcceptable(schema: Schema, members: seq<Member>, n: nat)
    requires n <= |members| && Proper(schema)
    ensures DecodeMembers(schema, members, n).Some? <==> forall i :: 0 <= i < n ==> Acceptable(schema, members[i])
    decreases n
  {
    hide ReadValue, ZeroRecord, FieldIndex, Zero;
    if n > 0 {
      DecodesWhenAcceptable(schema, members, n - 1);
      var m := members[n - 1];
      var before := DecodeMembers(schema, members, n - 1);
      if before.Some? && Known(schema, m.name) {
        ZeroRecordHoldsZeros(schema, m.name);
        OneMember(schema, m, before.value.record[m.name]);
      }
    }
  }

  lemma OneMember(schema: Schema, m: Member, current: Val)
    requires Known(schema, m.name) && Proper(schema)
    ensures var kind := KindOf(schema, m.name);
            Acceptable(schema, m) <==>
              ReadValue(kind, m.value, current).Some? && TagOk(schema, m.name, ReadValue(kind, m.value, current).value)
  {
    hide FieldIndex;
    var kind := KindOf(schema, m.name);
    ReadIgnoresCurrent(kind, m.value, current, Zero(kind));
  }

  lemma {:induction false} DecodesToLastValue(schema: Schema, members: seq<Member>, n: nat, name: string)
    requires n <= |members| && DecodeMembers(schema, members, n).Some?
    requires Known(schema, name)
    ensures var p := DecodeMembers(schema, members, n).value;
            && name in p.record && p.record[name] == LastValue(KindOf(schema, name), name, members, n)
            && (name in p.received <==> exists i :: 0 <= i < n && members[i].name == name)
    decreases n
  {
    hide ReadValue, ZeroRecord, FieldIndex, Zero, TagOk;
    ZeroRecordHoldsZeros(schema, name);
    if n > 0 {
      DecodesToLastValue(schema, members, n - 1, name);
      var m := members[n - 1];
      if m.name == name {
        var kind := KindOf(schema, name);
        ReadIgnoresCurrent(kind, m.value, DecodeMembers(schema, members, n - 1).value.record[name], Zero(kind));
      }
    }
  }

  /** The decoder computes exactly what `Decodes` says. */
  lemma DecodeIsLastValues(schema: Schema, members: seq<Member>, record: Record)
    requires Proper(schema)
    ensures DecodeObject(schema, members) == Some(record) <==> Decodes(schema, members, record)
  {
    hide ReadValue, ZeroRecord, Acceptable, DecodeMembers;
    var n := Visible(schema, members);
    DecodesWhenAcceptable(schema, members, n);
    if DecodeMembers(schema, members, n).Some? {
      var p := DecodeMembers(schema, members, n).value;
      forall name | Known(schema, name)
        ensures name in p.record && p.record[name] == LastValue(KindOf(schema, name), name, members, n)
        ensures name in p.received <==> exists i :: 0 <= i < n && members[i].name == name
      {
        DecodesToLastValue(schema, members, n, name);
      }
      forall j | 0 <= j < |schema.fields|
        ensures Known(schema, schema.fields[j].name)
      {
      }
      if Decodes(schema, members, record) {
        forall k | k in record
          ensures Known(schema, k)
        {
          assert k in ZeroRecord(schema.fields);
        }
        assert record == p.record;
      }
    }
  }

  ghost predicate NothingMissing(schema: Schema, members: seq<Member>) {
    forall j :: 0 <= j < |schema.fields| && schema.fields[j].required ==>
      exists i :: 0 <= i < Visible(schema, members) && members[i].name == schema.fields[j].name
  }

  lemma DecodesIff(schema: Schema, members: seq<Member>)
    requires Proper(schema)
    ensures DecodeObject(schema, members).Some? <==>
            && (forall i :: 0 <= i < Visible(schema, members) ==> Acceptable(schema, members[i]))
            && NothingMissing(schema, members)
  {
    hide ReadValue, ZeroRecord, Acceptable, DecodeMembers, LastValue;
    var n := Visible(schema, members);
    DecodesWhenAcceptable(schema, members, n);
    if DecodeMembers(schema, members, n).Some? {
      forall j | 0 <= j < |schema.fields|
        ensures schema.fields[j].name in DecodeMembers(schema, members, n).value.received <==>
                exists i :: 0 <= i < n && members[i].name == schema.fields[j].name
      {
        DecodesToLastValue(schema, members, n, schema.fields[j].name);
      }
    }
  }

  /** Which values a field takes and what it then holds: strings, numbers of 64 bits and booleans as they
      are; null makes a string empty and a list nil, leaves a number or a list item's flag alone, and is
      an error for a required flag. */
  lemma ScalarsRead(json: JSON, current: Val)
    ensures ReadValue(Str, json, current) ==
            (if json.JStr? then Some(VStr(json.s)) else if json.JNull? then Some(VStr("")) else None)
    ensures ReadValue(Int, json, current) ==
            (if json.JInt? && -9223372036854775808 <= json.n <= 9223372036854775807 then Some(VInt(json.n))
             else if json.JNull? then Some(current) else None)
    ensures ReadValue(Bool, json, current) == (if json.JBool? then Some(VBool(json.b)) else None)
    ensures ReadValue(NullableBool, json, current) ==
            (if json.JBool? then Some(VBool(json.b)) else if json.JNull? then Some(current) else None)
    ensures forall item: Schema :: json.JNull? ==> ReadValue(List(item), json, current) == Some(VList(None))
  {
  }

  predicate IsBoolean(kind: Kind) {
    kind.Bool? || kind.NullableBool?
  }

  /** The generated decoders say that they accept and ignore a `false` in place of another type. They
      do not: with a `false` for a known field an object decodes exactly when that field is a boolean
      and nothing is wrong with the rest. */
  lemma FalseIsOnlyForBooleans(schema: Schema, members: seq<Member>, i: nat)
    requires Proper(schema) && i < Visible(schema, members)
    requires Known(schema, members[i].name) && members[i].value == JBool(false)
    ensures DecodeObject(schema, members).Some? <==>
            && IsBoolean(KindOf(schema, members[i].name))
            && (forall j :: 0 <= j < Visible(schema, members) && j != i ==> Acceptable(schema, members[j]))
            && NothingMissing(schema, members)
  {
    DecodesIff(schema, members);
    OnlyBooleansAreFalse(schema, members[i]);
    hide Acceptable, NothingMissing, DecodeObject, Visible, KindOf, Known;
  }

  lemma OnlyBooleansAreFalse(schema: Schema, m: Member)
    requires Proper(schema) && Known(schema, m.name) && m.value == JBool(false)
    ensures Acceptable(schema, m) <==> IsBoolean(KindOf(schema, m.name))
  {
    hide FieldIndex;
  }

  // ---- Which record is it?

  /** Trying the decoders in order, from the `i`-th on: the first that succeeds wins. */
  function TryEach(members: seq<Member>, i: nat): Option<(DataType, Record)>
    requires i <= |ALL_TYPES|
    decreases |ALL_TYPES| - i
  {
    if i == |ALL_TYPES| then None
    else
      match DecodeObject(SchemaOf(ALL_TYPES[i]), members)
      case Some(record) => Some((ALL_TYPES[i], record))
      case None => TryEach(members, i + 1)
  }

  /** Which type has this tag. */
  function TypeOfTag(tag: string): (r: Option<DataType>)
    ensures r.Some? ==> Tag(r.value) == tag
    ensures r.None? ==> forall t: DataType :: Tag(t) != tag
  {
    if tag == "session" then Some(Session)
    else if tag == "session_files" then Some(SessionFiles)
    else if tag == "race" then Some(Race)
    else if tag == "user_profile" then Some(UserProfile)
    else if tag == "invitation" then Some(Invitation)
    else if tag == "session_player_race" then Some(SessionPlayerRace)
    else if tag == "ruleset" then Some(Ruleset)
    else None
  }

  /** Peeking at the tag: the first member named `__type__` decides, and an object without one is
      of no type, which is not an error here. */
  function Guess(members: seq<Member>): Result<Option<DataType>, ()> {
    if members == [] then Ok(None)
    else if members[0].name != TYPE then Guess(members[1..])
    else
      match members[0].value
      case JStr(tag) => (match TypeOfTag(tag) case Some(t) => Ok(Some(t)) case None => Err(()))
      case _ => Err(())
  }

  method UnmarshalDataType(members: seq<Member>) returns (r: Option<(DataType, Record)>)
    ensures r == TryEach(members, 0)
  {
    for i := 0 to |ALL_TYPES|
      invariant TryEach(members, 0) == TryEach(members, i)
    {
      SchemasAreGood(ALL_TYPES[i]);
      var record := UnmarshalJSON(SchemaOf(ALL_TYPES[i]), members);
      if record.Some? {
        return Some((ALL_TYPES[i], record.value));
      }
    }
    r := None;
  }

  method GuessDataType(members: seq<Member>) returns (r: Result<Option<DataType>, ()>)
    ensures r == Guess(members)
  {
    var i := 0;
    assert members[0..] == members;
    while i < |members|
      invariant i <= |members| && Guess(members) == Guess(members[i..])
    {
      assert members[i..][1..] == members[i + 1..];
      if members[i].name == TYPE {
        if !members[i].value.JStr? {
          return Err(());
        }
        var t := TypeOfTag(members[i].value.s);
        return if t.Some? then Ok(t) else Err(());
      }
      i := i + 1;
    }
    r := Ok(None);
  }

  lemma {:induction false} GuessIsFirstTag(members: seq<Member>, i: nat)
    requires i < |members| && members[i].name == TYPE
    requires forall j :: 0 <= j < i ==> members[j].name != TYPE
    ensures Guess(members) == Guess(members[i..])
  {
    if i > 0 {
      GuessIsFirstTag(members[1..], i - 1);
      assert members[1..][i - 1..] == members[i..];
    } else {
      assert members[0..] == members;
    }
  }

  /** The type that an object is taken for: none without a tag, otherwise what its first tag says, and an
      error when that is not one of the seven names. */
  lemma {:induction false} FirstTagDecides(members: seq<Member>, i: nat)
    requires i <= |members| && forall j :: 0 <= j < i ==> members[j].name != "__type__"
    ensures i == |members| ==> Guess(members) == Ok(None)
    ensures i < |members| && members[i].name == "__type__" ==>
              Guess(members) ==
              match members[i].value
              case JStr("session") => Ok(Some(Session))
              case JStr("race") => Ok(Some(Race))
              case JStr("user_profile") => Ok(Some(UserProfile))
              case JStr("invitation") => Ok(Some(Invitation))
              case JStr("session_player_race") => Ok(Some(SessionPlayerRace))
              case JStr("session_files") => Ok(Some(SessionFiles))
              case JStr("ruleset") => Ok(Some(Ruleset))
              case _ => Err(())
  {
    if i > 0 {
      FirstTagDecides(members[1..], i - 1);
    }
  }

  /** A decoder that succeeds has seen its own tag first. */
  lemma DecodedMeansGuessed(t: DataType, members: seq<Member>)
    requires DecodeObject(SchemaOf(t), members).Some?
    ensures Guess(members) == Ok(Some(t))
  {
    hide FieldsOf, ReadValue, DecodeMembers, ZeroRecord;
    var schema := SchemaOf(t);
    SchemasAreGood(t);
    var record := DecodeObject(schema, members).value;
    DecodeIsLastValues(schema, members, record);
    var i := TagSeen(t, members, record);
    var first := FirstTag(members, i);
    assert Acceptable(schema, members[first]);
    GuessIsFirstTag(members, first);
    TagsAreDifferent(TypeOfTag(Tag(t)).value, t);
  }

  lemma TagSeen(t: DataType, members: seq<Member>, record: Record) returns (i: nat)
    requires Decodes(SchemaOf(t), members, record)
    ensures i < Visible(SchemaOf(t), members) && members[i].name == TYPE
  {
    hide FieldsOf, ReadValue, Acceptable;
    SchemasAreGood(t);
    var j := FieldIndex(FieldsOf(t), TYPE).value;
    assert FieldsOf(t)[j].required;
    i :| 0 <= i < Visible(SchemaOf(t), members) && members[i].name == FieldsOf(t)[j].name;
  }

  lemma FirstTag(members: seq<Member>, i: nat) returns (first: nat)
    requires i < |members| && members[i].name == TYPE
    ensures first <= i && members[first].name == TYPE
    ensures forall j :: 0 <= j < first ==> members[j].name != TYPE
  {
    first := 0;
    while members[first].name != TYPE
      invariant first <= i && forall j :: 0 <= j < first ==> members[j].name != TYPE
      decreases i - first
    {
      first := first + 1;
    }
  }

  lemma TagsAreDifferent(t: DataType, u: DataType)
    requires Tag(t) == Tag(u)
    ensures t == u
  {
  }

  /** Both ways agree on every object: trying each decoder gives type `t` and a record exactly
      when the tag peek gives `t` and that type's own decoder gives the record. */
  lemma DispatchersAgree(t: DataType, members: seq<Member>, record: Record)
    ensures TryEach(members, 0) == Some((t, record)) <==>
            Guess(members) == Ok(Some(t)) && DecodeObject(SchemaOf(t), members) == Some(record)
  {
    hide FieldsOf, DecodeObject, Guess;
    forall u: DataType | DecodeObject(SchemaOf(u), members).Some?
      ensures Guess(members) == Ok(Some(u))
    {
      DecodedMeansGuessed(u, members);
    }
    TryEachFindsOne(t, members, 0);
  }

  function Position(t: DataType): (i: nat)
    ensures i < |ALL_TYPES| && ALL_TYPES[i] == t
  {
    match t
    case Session => 0
    case Race => 1
    case UserProfile => 2
    case Invitation => 3
    case SessionPlayerRace => 4
    case SessionFiles => 5
    case Ruleset => 6
  }

  /** When at most one decoder accepts an object, the order of trying does not matter. */
  lemma {:induction false} TryEachFindsOne(t: DataType, members: seq<Member>, i: nat)
    requires i <= |ALL_TYPES|
    requires forall u, v ::
               DecodeObject(SchemaOf(u), members).Some? && DecodeObject(SchemaOf(v), members).Some? ==> u == v
    ensures TryEach(members, i).Some? && TryEach(members, i).value.0 == t ==>
              DecodeObject(SchemaOf(t), members) == Some(TryEach(members, i).value.1)
    ensures DecodeObject(SchemaOf(t), members).Some? && i <= Position(t) ==>
              TryEach(members, i) == Some((t, DecodeObject(SchemaOf(t), members).value))
    decreases |ALL_TYPES| - i
  {
    hide SchemaOf, DecodeObject;
    if i < |ALL_TYPES| {
      TryEachFindsOne(t, members, i + 1);
    }
  }

  // ---- The schemas are well made

  /** Names are distinct and non-empty, nothing required is omitted when empty, the tag is a
      required string, and the same holds for list items. */
  ghost predicate Good(schema: Schema) {
    && Proper(schema)
    && (schema.tag.Some? ==> schema.fields[FieldIndex(schema.fields, TYPE).value].required)
    && DistinctNames(schema.fields)
    && (forall i :: 0 <= i < |schema.fields| ==>
          && schema.fields[i].name != ""
          && !(schema.fields[i].required && schema.fields[i].omitEmpty)
          && (schema.fields[i].kind.List? ==> Good(schema.fields[i].kind.item)))
  }

  ghost predicate DistinctNames(fields: seq<Field>) {
    forall i, j :: 0 <= i < j < |fields| ==> fields[i].name != fields[j].name
  }

  lemma {:induction false} FieldIndexOf(fields: seq<Field>, i: nat)
    requires i < |fields| && DistinctNames(fields)
    ensures FieldIndex(fields, fields[i].name) == Some(i)
  {
  }

  // The names of the largest schema, a part at a time.

  lemma UniverseNames(i: nat, j: nat)
    requires i < j < 12
    ensures RulesetFields()[i].name != RulesetFields()[j].name
  {
    hide RulesetTag, RulesetScores, RulesetGoals;
  }

  lemma UniverseAndVictoryNames(i: nat, j: nat)
    requires i < 12 <= j < |RulesetFields()|
    ensures RulesetFields()[i].name != RulesetFields()[j].name
  {
    if j < 18 {
      hide RulesetScores, RulesetGoals;
    } else if j < 24 {
      hide RulesetTag, RulesetGoals;
    } else {
      hide RulesetTag, RulesetScores;
    }
  }

  lemma TagNames(i: nat, j: nat)
    requires 12 <= i < j < |RulesetFields()| && i < 18
    ensures RulesetFields()[i].name != RulesetFields()[j].name
  {
    hide RulesetUniverse;
    if j < 24 {
      hide RulesetGoals;
    } else {
      hide RulesetScores;
    }
  }

  lemma VictoryNames(i: nat, j: nat)
    requires 18 <= i < j < |RulesetFields()|
    ensures RulesetFields()[i].name != RulesetFields()[j].name
  {
    hide RulesetUniverse, RulesetTag;
  }

  lemma NamesAreDistinct(t: DataType, i: nat, j: nat)
    requires i < j < |FieldsOf(t)|
    ensures FieldsOf(t)[i].name != FieldsOf(t)[j].name
  {
    hide RulesetFields;
    if t.Ruleset? {
      if j < 12 {
        UniverseNames(i, j);
      } else if i < 12 {
        UniverseAndVictoryNames(i, j);
      } else if i < 18 {
        TagNames(i, j);
      } else {
        VictoryNames(i, j);
      }
    }
  }

  function TypePosition(t: DataType): nat {
    match t
    case Session => 6
    case Race => 4
    case UserProfile => 8
    case Invitation => 3
    case SessionPlayerRace => 7
    case SessionFiles => 5
    case Ruleset => 12
  }

  lemma ItemsAreGood()
    ensures Good(REL_ITEM) && Good(FILE_ITEM)
  {
  }

  lemma SchemasAreGood(t: DataType)
    ensures Good(SchemaOf(t)) && Proper(SchemaOf(t))
  {
    hide FieldsOf, Req;
    var fields := FieldsOf(t);
    forall i, j | 0 <= i < j < |fields|
      ensures fields[i].name != fields[j].name
    {
      NamesAreDistinct(t, i, j);
    }
    TagFieldIsRequired(t);
    FieldIndexOf(fields, TypePosition(t));
    ItemsAreGood();
    forall i | 0 <= i < |fields|
      ensures fields[i].name != "" && !(fields[i].required && fields[i].omitEmpty)
      ensures fields[i].kind.List? ==> Good(fields[i].kind.item)
    {
      FieldsAreGood(t, i);
    }
  }

  lemma TagFieldIsRequired(t: DataType)
    ensures TypePosition(t) < |FieldsOf(t)|
    ensures FieldsOf(t)[TypePosition(t)] == Field(TYPE, Str, true, false)
    ensures Tag(t) != ""
  {
    hide RulesetFields;
    if t.Ruleset? {
      RulesetTagField();
    }
  }

  lemma RulesetTagField()
    ensures |RulesetFields()| > 12 && RulesetFields()[12] == Field(TYPE, Str, true, false)
  {
  }

  ghost predicate GoodField(f: Field) {
    && f.name != ""
    && !(f.required && f.omitEmpty)
    && (f.kind.List? ==> f.kind.item == REL_ITEM || f.kind.item == FILE_ITEM)
  }

  lemma FieldsAreGood(t: DataType, i: nat)
    requires i < |FieldsOf(t)|
    ensures GoodField(FieldsOf(t)[i])
  {
    if t.Ruleset? {
      RulesetFieldsAreGood(i);
    } else {
      hide FieldsOf;
      OtherFieldsAreGood(t, i);
    }
  }

  lemma RulesetFieldsAreGood(i: nat)
    requires i < |RulesetFields()|
    ensures GoodField(RulesetFields()[i])
  {
  }

  lemma OtherFieldsAreGood(t: DataType, i: nat)
    requires !t.Ruleset? && i < |FieldsOf(t)|
    ensures GoodField(FieldsOf(t)[i])
  {
    hide RulesetFields;
  }
}
