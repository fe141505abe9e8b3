/**
 Encoding the records of a referential broadcast, and why decoding gives them back.
 */
module SyncEncoder {
  import opened Common
  import opened SyncCodec

  /** The value can be held by a field of this kind. */
  ghost predicate HasKind(kind: Kind, v: Val)
    decreases kind, 0
  {
    match kind
    case Str => v.VStr?
    case Int => v.VInt? && FitsInt64(v.n)
    case Bool => v.VBool?
    case NullableBool => v.VBool?
    case List(item) =>
      v.VList? && (v.items.Some? ==>
        forall i :: 0 <= i < |v.items.value| && v.items.value[i].Some? ==> WellTyped(item, v.items.value[i].value))
  }

  /** The record has exactly the schema's fields, each of its kind, and carries the tag. */
  ghost predicate WellTyped(schema: Schema, record: Record)
    decreases schema, 1
  {
    && record.Keys == ZeroRecord(schema.fields).Keys
    && (forall i :: 0 <= i < |schema.fields| ==> HasKind(schema.fields[i].kind, record[schema.fields[i].name]))
    && (schema.tag.Some? ==> TYPE in record && record[TYPE] == VStr(schema.tag.value))
  }

  /** What typing says about one field. */
  lemma TypedField(schema: Schema, record: Record, i: nat)
    requires WellTyped(schema, record) && i < |schema.fields|
    ensures schema.fields[i].name in record
    ensures HasKind(schema.fields[i].kind, record[schema.fields[i].name])
    ensures schema.tag.Some? && schema.fields[i].name == TYPE ==> record[TYPE] == VStr(schema.tag.value)
  {
    hide HasKind;
    assert schema.fields[i].name in ZeroRecord(schema.fields);
  }

  /** `IsEmpty`: the zero value of its type; a slice that is empty but not nil is not empty. */
  predicate IsEmpty(v: Val) {
    v == VStr("") || v == VInt(0) || v == VBool(false) || v == VList(None)
  }

  function EncodeValue(kind: Kind, v: Val): JSON
    requires HasKind(kind, v)
    decreases kind, 0
  {
    match v
    case VStr(s) => JStr(s)
    case VInt(n) => JInt(n)
    case VBool(b) => JBool(b)
    case VList(None) => JNull
    case VList(Some(items)) => JArr(EncodeItems(kind.item, items, |items|))
  }

  function EncodeItems(item: Schema, items: seq<Option<Record>>, n: nat): (r: seq<JSON>)
    requires n <= |items|
    requires forall i :: 0 <= i < |items| && items[i].Some? ==> WellTyped(item, items[i].value)
    ensures |r| == n
    decreases item, 2, n
  {
    if n == 0 then []
    else
      EncodeItems(item, items, n - 1) +
      [if items[n - 1].None? then JNull
       else JObj(EncodeFields(item, items[n - 1].value, |item.fields|))]
  }

  /** The members for the first `n` fields. */
  function EncodeFields(schema: Schema, record: Record, n: nat): (members: seq<Member>)
    requires n <= |schema.fields| && WellTyped(schema, record)
    decreases schema, 1, n
  {
    if n == 0 then []
    else
      var f := schema.fields[n - 1];
      var before := EncodeFields(schema, record, n - 1);
      if f.omitEmpty && IsEmpty(record[f.name]) then before
      else before + [Member(f.name, EncodeValue(f.kind, record[f.name]))]
  }

  function EncodeRecord(t: DataType, record: Record): seq<Member>
    requires WellTyped(SchemaOf(t), record)
  {
    EncodeFields(SchemaOf(t), record, |FieldsOf(t)|)
  }

  /** A field is written, with its encoded value, exactly when it is not optional or not empty; nothing
      else is written, and no field twice. */
  lemma {:induction false} WrittenIff(schema: Schema, record: Record, n: nat, i: nat)
    requires n <= |schema.fields| && i < n && WellTyped(schema, record) && DistinctNames(schema.fields)
    ensures schema.fields[i].name in record && HasKind(schema.fields[i].kind, record[schema.fields[i].name])
    ensures var members, f := EncodeFields(schema, record, n), schema.fields[i];
            && |members| <= n
            && ((exists k :: 0 <= k < |members| && members[k].name == f.name) <==>
                  !(f.omitEmpty && record[f.name] in {VStr(""), VInt(0), VBool(false), VList(None)}))
            && (forall k :: 0 <= k < |members| && members[k].name == f.name ==>
                  members[k].value == EncodeValue(f.kind, record[f.name]))
    decreases n
  {
    hide EncodeValue, HasKind, WellTyped, ZeroRecord;
    TypedField(schema, record, i);
    TypedField(schema, record, n - 1);
    var before := EncodeFields(schema, record, n - 1);
    if i < n - 1 {
      WrittenIff(schema, record, n - 1, i);
    } else {
      EarlierNames(schema, record, n - 1);
      assert forall k :: 0 <= k < |before| ==> before[k].name != schema.fields[i].name;
    }
    var members := EncodeFields(schema, record, n);
    assert members == before || members == before + [members[|before|]];
    if k :| 0 <= k < |before| && before[k].name == schema.fields[i].name {
      assert members[k] == before[k];
    }
  }

  /** Only names of the first `n` fields are written. */
  lemma {:induction false} EarlierNames(schema: Schema, record: Record, n: nat)
    requires n <= |schema.fields| && WellTyped(schema, record)
    ensures var members := EncodeFields(schema, record, n);
            && |members| <= n
            && forall k :: 0 <= k < |members| ==> exists j :: 0 <= j < n && schema.fields[j].name == members[k].name
    decreases n
  {
    hide EncodeValue, HasKind, WellTyped;
    if n > 0 {
      EarlierNames(schema, record, n - 1);
    }
  }

  // ---- The stream

  datatype Token = Open | Close | Comma | Name(name: string) | Value(value: JSON)

  function RenderMembers(members: seq<Member>): seq<Token> {
    if members == [] then []
    else
      var last := |members| - 1;
      RenderMembers(members[..last]) + (if last == 0 then [] else [Comma]) +
      [Name(members[last].name), Value(members[last].value)]
  }

  function Render(members: seq<Member>): seq<Token> {
    [Open] + RenderMembers(members) + [Close]
  }

  class CommaTracker {
    var stream: seq<Token>
    var started: bool

    constructor ()
      ensures stream == [Open] && !started
    {
      stream, started := [Open], false;
    }

    method More()
      modifies this
      ensures started && stream == old(stream) + if old(started) then [Comma] else []
    {
      if started {
        stream := stream + [Comma];
      } else {
        started := true;
      }
    }
  }

  lemma RenderOneMore(members: seq<Member>, m: Member)
    ensures RenderMembers(members + [m]) ==
            RenderMembers(members) + (if members == [] then [] else [Comma]) + [Name(m.name), Value(m.value)]
  {
    assert (members + [m])[..|members|] == members;
  }

  /** A generated encoder: field by field, a comma in front of all but the first one written. */
  method MarshalJSONStream(t: DataType, record: Record) returns (stream: seq<Token>)
    requires WellTyped(SchemaOf(t), record)
    ensures stream == Render(EncodeRecord(t, record))
  {
    hide FieldsOf, HasKind, EncodeValue, RenderMembers, IsEmpty, WellTyped;
    var schema := SchemaOf(t);
    var ct := new CommaTracker();
    NothingRendered();
    assert [Open] + [] == [Open];
    for i := 0 to |schema.fields|
      invariant ct.stream == [Open] + RenderMembers(EncodeFields(schema, record, i))
      invariant ct.started <==> EncodeFields(schema, record, i) != []
    {
      TypedField(schema, record, i);
      var f := schema.fields[i];
      if !(f.omitEmpty && IsEmpty(record[f.name])) {
        ct.More();
        var value := EncodeValue(f.kind, record[f.name]);
        RenderOneMore(EncodeFields(schema, record, i), Member(f.name, value));
        ct.stream := ct.stream + [Name(f.name), Value(value)];
      }
    }
    stream := ct.stream + [Close];
  }

  lemma NothingRendered()
    ensures RenderMembers([]) == []
  {
  }

  /** Reading a stream back: names and values in turn, separated by single commas. */
  function ParseMembers(tokens: seq<Token>): Option<seq<Member>> {
    if |tokens| < 2 || !tokens[0].Name? || !tokens[1].Value? then None
    else if |tokens| == 2 then Some([Member(tokens[0].name, tokens[1].value)])
    else if !tokens[2].Comma? then None
    else
      match ParseMembers(tokens[3..])
      case None => None
      case Some(rest) => Some([Member(tokens[0].name, tokens[1].value)] + rest)
  }

  function Parse(tokens: seq<Token>): Option<seq<Member>> {
    if |tokens| < 2 || tokens[0] != Open || tokens[|tokens| - 1] != Close then None
    else if |tokens| == 2 then Some([])
    else ParseMembers(tokens[1..|tokens| - 1])
  }

  lemma {:induction false} RenderFromFront(members: seq<Member>)
    requires |members| > 1
    ensures RenderMembers(members) ==
            [Name(members[0].name), Value(members[0].value), Comma] + RenderMembers(members[1..])
  {
    var last := |members| - 1;
    assert members[..last][0] == members[0] && members[1..][..last - 1] == members[..last][1..];
    if last > 1 {
      RenderFromFront(members[..last]);
    } else {
      assert members[..last] == [members[0]] && members[1..] == [members[1]];
      assert RenderMembers([members[0]]) == [Name(members[0].name), Value(members[0].value)];
    }
  }

  lemma {:induction false} ParseRenderMembers(members: seq<Member>)
    requires members != []
    ensures ParseMembers(RenderMembers(members)) == Some(members)
  {
    if |members| == 1 {
      assert members[..0] == [] && members == [Member(members[0].name, members[0].value)];
      assert RenderMembers(members) == [Name(members[0].name), Value(members[0].value)];
    } else {
      RenderFromFront(members);
      ParseRenderMembers(members[1..]);
      assert RenderMembers(members)[3..] == RenderMembers(members[1..]);
      assert members == [members[0]] + members[1..];
    }
  }

  /** What the comma tracker puts between the members is exactly what a reader needs. */
  lemma ParseRender(members: seq<Member>)
    ensures Parse(Render(members)) == Some(members)
  {
    if members != [] {
      ParseRenderMembers(members);
      assert Render(members)[1..|Render(members)| - 1] == RenderMembers(members);
    }
  }

  // ---- Round trip

  lemma {:induction false} DecodeIsLocal(schema: Schema, members: seq<Member>, more: seq<Member>, n: nat)
    requires n <= |members|
    ensures DecodeMembers(schema, members + more, n) == DecodeMembers(schema, members, n)
    decreases n
  {
    hide ReadValue, FieldIndex, ZeroRecord, TagOk;
    if n > 0 {
      DecodeIsLocal(schema, members, more, n - 1);
      assert (members + more)[n - 1] == members[n - 1];
    }
  }

  lemma {:induction false} ReadEncodedValue(kind: Kind, v: Val, current: Val)
    requires HasKind(kind, v)
    requires kind.List? ==> Good(kind.item)
    ensures ReadValue(kind, EncodeValue(kind, v), current) == Some(v)
    decreases kind, 0
  {
    hide ReadItems, EncodeItems, WellTyped, Good;
    if v.VList? && v.items.Some? {
      ReadEncodedItems(kind.item, v.items.value, |v.items.value|);
      assert v.items.value[..|v.items.value|] == v.items.value;
    }
  }

  lemma {:induction false} ReadEncodedItems(item: Schema, items: seq<Option<Record>>, n: nat)
    requires Good(item) && n <= |items|
    requires forall i :: 0 <= i < |items| && items[i].Some? ==> WellTyped(item, items[i].value)
    ensures ReadItems(item, EncodeItems(item, items, |items|), n) == Some(items[..n])
    decreases item, 2, n
  {
    hide DecodeObject, EncodeFields, WellTyped;
    if n > 0 {
      ReadEncodedItems(item, items, n - 1);
      EncodedItem(item, items, n - 1, |items|);
      if items[n - 1].Some? {
        DecodeEncoded(item, items[n - 1].value);
      }
      assert items[..n] == items[..n - 1] + [items[n - 1]];
    }
  }

  lemma {:induction false} EncodedItem(item: Schema, items: seq<Option<Record>>, i: nat, n: nat)
    requires i < n <= |items|
    requires forall i :: 0 <= i < |items| && items[i].Some? ==> WellTyped(item, items[i].value)
    ensures EncodeItems(item, items, n)[i] ==
            if items[i].None? then JNull else JObj(EncodeFields(item, items[i].value, |item.fields|))
    decreases n
  {
    hide EncodeFields, WellTyped;
    if i < n - 1 {
      EncodedItem(item, items, i, n - 1);
    }
  }

  lemma DecodeOneMore(schema: Schema, before: seq<Member>, i: nat, v: Val)
    requires Good(schema) && i < |schema.fields| && HasKind(schema.fields[i].kind, v)
    requires schema.tag.Some? && schema.fields[i].name == TYPE ==> v == VStr(schema.tag.value)
    requires DecodeMembers(schema, before, |before|).Some?
    ensures var f := schema.fields[i];
            var p := DecodeMembers(schema, before, |before|).value;
            DecodeMembers(schema, before + [Member(f.name, EncodeValue(f.kind, v))], |before| + 1)
              == Some(Progress(p.record[f.name := v], p.received + {f.name}))
    decreases schema, 0, 0
  {
    hide ReadValue, EncodeValue, HasKind, ZeroRecord, Zero, FieldIndex;
    var f := schema.fields[i];
    var m := Member(f.name, EncodeValue(f.kind, v));
    DecodeIsLocal(schema, before, [m], |before|);
    FieldIndexOf(schema.fields, i);
    ZeroRecordHoldsZeros(schema, f.name);
    ReadEncodedValue(f.kind, v, DecodeMembers(schema, before, |before|).value.record[f.name]);
  }

  /** How far decoding has come after the members for the first `n` fields: those fields are as
      in the record, the others still zero, and every field that is always written has been
      received. */
  ghost predicate DecodedSoFar(fields: seq<Field>, record: Record, n: nat, p: Progress) {
    forall j :: 0 <= j < |fields| ==> FieldSoFar(fields[j], j < n, record, p)
  }

  ghost predicate FieldSoFar(f: Field, done: bool, record: Record, p: Progress) {
    && f.name in p.record
    && (if done then f.name in record && p.record[f.name] == record[f.name] else p.record[f.name] == Zero(f.kind))
    && (done && !f.omitEmpty ==> f.name in p.received)
  }

  lemma {:induction false} DecodeEncodedFields(schema: Schema, record: Record, n: nat)
    requires Good(schema) && WellTyped(schema, record) && n <= |schema.fields|
    ensures var members := EncodeFields(schema, record, n);
            && (forall i :: 0 <= i < |members| ==> members[i].name != "")
            && DecodeMembers(schema, members, |members|).Some?
            && DecodedSoFar(schema.fields, record, n, DecodeMembers(schema, members, |members|).value)
    decreases schema, 0, n + 1
  {
    hide EncodeFields, DecodeMembers, ReadValue, EncodeValue, HasKind, FieldIndex, IsEmpty, WellTyped, Good, Zero,
      ZeroRecord, DecodedSoFar;
    if n == 0 {
      NothingEncoded(schema, record);
      NothingDecoded(schema, record);
    } else {
      DecodeEncodedFields(schema, record, n - 1);
      DecodeEncodedNext(schema, record, n);
    }
  }

  lemma DecodeEncodedNext(schema: Schema, record: Record, n: nat)
    requires Good(schema) && WellTyped(schema, record) && 0 < n <= |schema.fields|
    requires var before := EncodeFields(schema, record, n - 1);
             && DecodeMembers(schema, before, |before|).Some?
             && DecodedSoFar(schema.fields, record, n - 1, DecodeMembers(schema, before, |before|).value)
    ensures var members := EncodeFields(schema, record, n);
            && (members == EncodeFields(schema, record, n - 1)
                || (members[..|members| - 1] == EncodeFields(schema, record, n - 1)
                    && members[|members| - 1].name != ""))
            && DecodeMembers(schema, members, |members|).Some?
            && DecodedSoFar(schema.fields, record, n, DecodeMembers(schema, members, |members|).value)
    decreases schema, 0, 1
  {
    hide ReadValue, EncodeValue, HasKind, FieldIndex, IsEmpty, WellTyped, Good, Zero, ZeroRecord, DecodedSoFar,
      DecodeMembers;
    var f := schema.fields[n - 1];
    var before := EncodeFields(schema, record, n - 1);
    TypedField(schema, record, n - 1);
    NamesAreGiven(schema, n - 1);
    EmptyIsZero(f.kind, record[f.name]);
    var p := DecodeMembers(schema, before, |before|).value;
    if f.omitEmpty && IsEmpty(record[f.name]) {
      NextFieldSkipped(schema.fields, record, n, p);
    } else {
      DecodeOneMore(schema, before, n - 1, record[f.name]);
      NextFieldDecoded(schema.fields, record, n, p);
    }
  }

  lemma NothingEncoded(schema: Schema, record: Record)
    requires WellTyped(schema, record)
    ensures EncodeFields(schema, record, 0) == []
    ensures DecodeMembers(schema, [], 0) == Some(Progress(ZeroRecord(schema.fields), {}))
  {
  }

  lemma NamesAreGiven(schema: Schema, i: nat)
    requires Good(schema) && i < |schema.fields|
    ensures schema.fields[i].name != "" && DistinctNames(schema.fields)
  {
  }

  lemma NothingDecoded(schema: Schema, record: Record)
    requires Good(schema)
    ensures DecodedSoFar(schema.fields, record, 0, Progress(ZeroRecord(schema.fields), {}))
  {
    hide ZeroRecord, Zero, FieldIndex;
    forall j | 0 <= j < |schema.fields|
      ensures FieldSoFar(schema.fields[j], false, record, Progress(ZeroRecord(schema.fields), {}))
    {
      FieldIndexOf(schema.fields, j);
      ZeroRecordHoldsZeros(schema, schema.fields[j].name);
    }
  }

  lemma NextFieldSkipped(fields: seq<Field>, record: Record, n: nat, p: Progress)
    requires 0 < n <= |fields| && DecodedSoFar(fields, record, n - 1, p)
    requires fields[n - 1].name in record && record[fields[n - 1].name] == Zero(fields[n - 1].kind)
    requires fields[n - 1].omitEmpty
    ensures DecodedSoFar(fields, record, n, p)
  {
    hide Zero;
    assert FieldSoFar(fields[n - 1], false, record, p);
  }

  lemma NextFieldDecoded(fields: seq<Field>, record: Record, n: nat, p: Progress)
    requires 0 < n <= |fields| && DecodedSoFar(fields, record, n - 1, p) && DistinctNames(fields)
    requires fields[n - 1].name in record
    ensures var name := fields[n - 1].name;
            DecodedSoFar(fields, record, n, Progress(p.record[name := record[name]], p.received + {name}))
  {
    hide Zero;
    var name := fields[n - 1].name;
    forall j | 0 <= j < |fields|
      ensures FieldSoFar(fields[j], j < n, record, Progress(p.record[name := record[name]], p.received + {name}))
    {
      assert FieldSoFar(fields[j], j < n - 1, record, p);
    }
  }

  lemma EmptyIsZero(kind: Kind, v: Val)
    requires HasKind(kind, v)
    ensures IsEmpty(v) <==> v == Zero(kind)
  {
  }

  lemma {:induction false} DecodeEncoded(schema: Schema, record: Record)
    requires Good(schema) && WellTyped(schema, record)
    ensures DecodeObject(schema, EncodeFields(schema, record, |schema.fields|)) == Some(record)
    decreases schema, 1
  {
    hide ReadValue, EncodeValue, HasKind, Zero, DecodeMembers, EncodeFields, FieldIndex;
    var members := EncodeFields(schema, record, |schema.fields|);
    DecodeEncodedFields(schema, record, |schema.fields|);
    AllVisible(schema, members);
    var p := DecodeMembers(schema, members, |members|).value;
    AllDecoded(schema, record, p);
  }

  lemma FieldNamed(fields: seq<Field>, k: string) returns (j: nat)
    requires k in ZeroRecord(fields)
    ensures j < |fields| && fields[j].name == k
  {
    j :| 0 <= j < |fields| && fields[j].name == k;
  }

  lemma AllDecoded(schema: Schema, record: Record, p: Progress)
    requires DecodedSoFar(schema.fields, record, |schema.fields|, p)
    requires p.record.Keys == ZeroRecord(schema.fields).Keys == record.Keys
    ensures p.record == record
    ensures forall i :: 0 <= i < |schema.fields| && !schema.fields[i].omitEmpty ==>
              schema.fields[i].name in p.received
  {
    hide Zero, DecodedSoFar, ZeroRecord;
    assert forall i :: 0 <= i < |schema.fields| ==> FieldSoFar(schema.fields[i], true, record, p) by {
      AllSoFar(schema.fields, record, p);
    }
    forall k | k in record
      ensures k in p.record && p.record[k] == record[k]
    {
      var j := FieldNamed(schema.fields, k);
      assert FieldSoFar(schema.fields[j], true, record, p);
    }
  }

  lemma AllSoFar(fields: seq<Field>, record: Record, p: Progress)
    requires DecodedSoFar(fields, record, |fields|, p)
    ensures forall i :: 0 <= i < |fields| ==> FieldSoFar(fields[i], true, record, p)
  {
    hide FieldSoFar;
    forall i | 0 <= i < |fields|
      ensures FieldSoFar(fields[i], true, record, p)
    {
      assert FieldSoFar(fields[i], i < |fields|, record, p);
    }
  }

  lemma {:induction false} AllVisible(schema: Schema, members: seq<Member>)
    requires forall i :: 0 <= i < |members| ==> members[i].name != ""
    ensures Visible(schema, members) == |members|
  {
    if members != [] {
      AllVisible(schema, members[..|members| - 1]);
    }
  }

  /** Encoding a well-tagged record of any of the seven types and reading the stream back by either
      dispatcher gives the same type and the same record, although empty optional fields were
      never written. */
  lemma EncodeThenDecode(t: DataType, record: Record)
    requires WellTyped(SchemaOf(t), record)
    ensures Parse(Render(EncodeRecord(t, record))) == Some(EncodeRecord(t, record))
    ensures DecodeObject(SchemaOf(t), EncodeRecord(t, record)) == Some(record)
    ensures Guess(EncodeRecord(t, record)) == Ok(Some(t))
    ensures TryEach(EncodeRecord(t, record), 0) == Some((t, record))
  {
    hide FieldsOf, DecodeObject, WellTyped;
    SchemasAreGood(t);
    DecodeEncoded(SchemaOf(t), record);
    ParseRender(EncodeRecord(t, record));
    DecodedMeansGuessed(t, EncodeRecord(t, record));
    DispatchersAgree(t, EncodeRecord(t, record), record);
  }
}
