/**
 Messages of both protocols and the copy between them: the field types of
 include/message.hpp, the ordered JSON object of http_message.cpp, the FIX
 field map of fix_message.cpp, and Object::copy_from.
 */
module Messages {
  import opened Wrappers
  import opened Decimal

  type int32 = i: int | -0x8000_0000 <= i < 0x8000_0000

  datatype FieldType = KUnknown | KInt | KString | KDouble

  /** A value that copy_from can move, with its type. */
  datatype Typed = TInt(i: int32) | TString(s: string) | TDouble(d: real)

  function TypeOf(t: Typed): FieldType {
    match t
    case TInt(_) => KInt
    case TString(_) => KString
    case TDouble(_) => KDouble
  }

  /** What an iterator shows of one field; None stands for FieldType::kUnknown. */
  datatype Field = Field(name: string, value: Option<Typed>)

  datatype Error = NoKey(name: string) | WrongType(name: string) | UnknownKey(name: string) | Malformed(text: string)

  /** The value a name ends up with after copying `fields` in order. */
  function TypedAt(fields: seq<Field>, name: string): Option<Typed> {
    if fields == [] then None
    else
      var last := fields[|fields|-1];
      if last.name == name && last.value.Some? then last.value else TypedAt(fields[..|fields|-1], name)
  }

  // ---------------------------------------------------------------------
  // JSON objects
  // ---------------------------------------------------------------------

  /** A JSON value; JOther is null, a boolean, an array, or a number that is
      neither an int32 nor a double. */
  datatype Value = JTyped(t: Typed) | JObject(members: seq<Member>) | JOther

  datatype Member = Member(name: string, value: Value)

  /** FindMember: the first match. */
  function Lookup(ms: seq<Member>, name: string): Option<Value> {
    if ms == [] then None
    else if ms[0].name == name then Some(ms[0].value)
    else Lookup(ms[1..], name)
  }

  /** Replace the first match in place, or add a member at the end. */
  function SetMember(ms: seq<Member>, name: string, value: Value): seq<Member> {
    if ms == [] then [Member(name, value)]
    else if ms[0].name == name then [Member(name, value)] + ms[1..]
    else [ms[0]] + SetMember(ms[1..], name, value)
  }

  function GetTyped(ms: seq<Member>, name: string, want: FieldType): Result<Typed, Error> {
    match Lookup(ms, name)
    case None => Err(NoKey(name))
    case Some(JTyped(t)) => if TypeOf(t) == want then Ok(t) else Err(WrongType(name))
    case Some(_) => Err(WrongType(name))
  }

  function GetObject(ms: seq<Member>, name: string): Result<seq<Member>, Error> {
    match Lookup(ms, name)
    case None => Err(NoKey(name))
    case Some(JObject(sub)) => Ok(sub)
    case Some(_) => Err(WrongType(name))
  }

  /** The object under `name` after get_or_set_object. */
  function ObjectAt(ms: seq<Member>, name: string): seq<Member> {
    match Lookup(ms, name)
    case Some(JObject(sub)) => sub
    case _ => []
  }

  function JsonField(m: Member): Field {
    Field(m.name, if m.value.JTyped? then Some(m.value.t) else None)
  }

  /** begin() to end() of a JSON object. */
  function JsonFields(ms: seq<Member>): seq<Field> {
    seq(|ms|, i requires 0 <= i < |ms| => JsonField(ms[i]))
  }

  function CopyField(ms: seq<Member>, f: Field): seq<Member> {
    match f.value
    case None => ms
    case Some(t) => SetMember(ms, f.name, JTyped(t))
  }

  /** copy_from into a JSON object. */
  function JsonCopy(ms: seq<Member>, fields: seq<Field>): seq<Member> {
    if fields == [] then ms
    else CopyField(JsonCopy(ms, fields[..|fields|-1]), fields[|fields|-1])
  }

  /** What SetMember does, seen from the position of the first match. */
  lemma {:induction false} SetAt(ms: seq<Member>, name: string, value: Value, i: nat)
    requires i <= |ms| && forall j :: 0 <= j < i ==> ms[j].name != name
    requires i < |ms| ==> ms[i].name == name
    ensures SetMember(ms, name, value) == if i < |ms| then ms[i := Member(name, value)] else ms + [Member(name, value)]
  {
    if ms == [] || ms[0].name == name {
      assert i == 0;
    } else {
      SetAt(ms[1..], name, value, i - 1);
      assert i < |ms| ==> [ms[0]] + ms[1..][i-1 := Member(name, value)] == ms[i := Member(name, value)];
    }
  }

  // ---------------------------------------------------------------------
  // FIX field maps
  // ---------------------------------------------------------------------

  datatype FixType =
    | Unknown | String | Char | Price | Int | Amt | Qty | Currency | MultipleValueString | MultipleStringValue
    | MultipleCharValue | Exchange | UtcTimeStamp | Boolean | LocalMktDate | Data | Float | PriceOffset | MonthYear
    | DayOfMonth | UtcDate | UtcDateOnly | UtcTimeOnly | NumInGroup | Percentage | SeqNum | Length | Country

  function MappedType(t: FixType): FieldType {
    match t
    case String => KString
    case Char => KString
    case UtcTimeStamp => KString
    case Int => KInt
    case Qty => KDouble
    case Price => KDouble
    case _ => KUnknown
  }

  /** How a double is written into a field and read back. */
  datatype DoubleText = DoubleText(write: real -> string, parse: string -> Option<real>)

  /** g_fields_by_name and g_fields_by_tag, and the double convertor. */
  datatype Dictionary = Dictionary(
    byName: map<string, (int, FixType)>,
    byTag: map<int, (string, FixType)>,
    doubles: DoubleText)

  /** The two tables agree. */
  ghost predicate Consistent(d: Dictionary) {
    forall n :: n in d.byName && d.byName[n].0 != 0 ==>
      d.byName[n].0 in d.byTag && d.byTag[d.byName[n].0] == (n, d.byName[n].1)
  }

  /** This value survives its text; only a double may fail to. */
  predicate TextKeeps(d: Dictionary, t: Typed) {
    t.TDouble? ==> d.doubles.parse(d.doubles.write(t.d)) == Some(t.d)
  }

  /** get_field_info by name: tag 0 stands for no such field. */
  function TagOf(d: Dictionary, name: string): (int, FixType) {
    if name in d.byName then d.byName[name] else (0, Unknown)
  }

  function NameOf(d: Dictionary, tag: int): (string, FixType) {
    if tag in d.byTag then d.byTag[tag] else ("", Unknown)
  }

  /** A FIX field holds text. */
  function Text(d: Dictionary, t: Typed): string {
    match t
    case TInt(i) => PrintInt(i)
    case TString(s) => s
    case TDouble(x) => d.doubles.write(x)
  }

  /** IntField, StringField or DoubleField reading that text. */
  function Read(d: Dictionary, want: FieldType, text: string): Result<Option<Typed>, Error> {
    match want
    case KUnknown => Ok(None)
    case KString => Ok(Some(TString(text)))
    case KInt =>
      (match ParseInt(text)
       case None => Err(Malformed(text))
       case Some(i) => if -0x8000_0000 <= i < 0x8000_0000 then Ok(Some(TInt(i))) else Err(Malformed(text)))
    case KDouble =>
      match d.doubles.parse(text)
      case None => Err(Malformed(text))
      case Some(x) => Ok(Some(TDouble(x)))
  }

  /** FixObject::set_value: an unknown name is ignored. */
  function SetField(d: Dictionary, fields: map<int, string>, name: string, t: Typed): map<int, string> {
    var (tag, _) := TagOf(d, name);
    if tag != 0 then fields[tag := Text(d, t)] else fields
  }

  function FixCopyField(d: Dictionary, fields: map<int, string>, f: Field): map<int, string> {
    match f.value
    case None => fields
    case Some(t) => SetField(d, fields, f.name, t)
  }

  /** copy_from into a FIX field map. */
  function FixCopy(d: Dictionary, fields: map<int, string>, from: seq<Field>): map<int, string> {
    if from == [] then fields
    else FixCopyField(d, FixCopy(d, fields, from[..|from|-1]), from[|from|-1])
  }

  /** FixObject's getters, with their three errors in the source's order. */
  function FixGet(d: Dictionary, fields: map<int, string>, name: string, want: FieldType): Result<Typed, Error>
    requires want != KUnknown
  {
    var (tag, t) := TagOf(d, name);
    if tag == 0 then Err(UnknownKey(name))
    else if tag !in fields then Err(NoKey(name))
    else if MappedType(t) != want then Err(WrongType(name))
    else match Read(d, want, fields[tag])
      case Ok(Some(v)) => Ok(v)
      case Ok(None) => Err(WrongType(name))
      case Err(e) => Err(e)
  }

  function FixField(d: Dictionary, tag: int, text: string): Result<Field, Error> {
    var (name, t) := NameOf(d, tag);
    match Read(d, MappedType(t), text)
    case Ok(v) => Ok(Field(name, v))
    case Err(e) => Err(e)
  }

  /** begin() to end() of a FIX object; `order` is the order of its tags. */
  function FixFields(d: Dictionary, fields: map<int, string>, order: seq<int>): Result<seq<Field>, Error>
    requires forall t :: t in order ==> t in fields
  {
    if order == [] then Ok([])
    else match FixField(d, order[0], fields[order[0]])
      case Err(e) => Err(e)
      case Ok(f) =>
        match FixFields(d, fields, order[1..])
        case Err(e) => Err(e)
        case Ok(fs) => Ok([f] + fs)
  }

  /** `order` lists every tag of the map once. */
  ghost predicate Enumerates(order: seq<int>, fields: map<int, string>) {
    && (forall t :: t in order <==> t in fields)
    && (forall i, j :: 0 <= i < j < |order| ==> order[i] != order[j])
  }

  // ---------------------------------------------------------------------
  // The objects
  // ---------------------------------------------------------------------

  class JsonObject {
    var members: seq<Member>

    constructor ()
      ensures members == []
    {
      members := [];
    }

    method FindMember(name: string) returns (i: nat)
      ensures i <= |members|
      ensures forall j :: 0 <= j < i ==> members[j].name != name
      ensures i < |members| ==> members[i].name == name
    {
      i := 0;
      while i < |members| && members[i].name != name
        invariant i <= |members|
        invariant forall j :: 0 <= j < i ==> members[j].name != name
      {
        i := i + 1;
      }
    }

    /** Assign to the member found, or AddMember. */
    method SetValue(name: string, t: Typed)
      modifies this
      ensures members == SetMember(old(members), name, JTyped(t))
    {
      var i := FindMember(name);
      SetAt(members, name, JTyped(t), i);
      members := if i < |members| then members[i := Member(name, JTyped(t))] else members + [Member(name, JTyped(t))];
    }

    method CopyFields(fields: seq<Field>)
      modifies this
      ensures members == JsonCopy(old(members), fields)
    {
      for i := 0 to |fields|
        invariant members == JsonCopy(old(members), fields[..i])
      {
        assert fields[..i+1][..i] == fields[..i];
        if fields[i].value.Some? {
          SetValue(fields[i].name, fields[i].value.value);
        }
      }
      assert fields[..|fields|] == fields;
    }

    /** Object::copy_from with another JSON object, which may be this one. */
    method CopyFrom(right: JsonObject)
      modifies this
      ensures members == if right == this then old(members) else JsonCopy(old(members), JsonFields(old(right.members)))
    {
      if right == this {
        return;
      }
      CopyFields(JsonFields(right.members));
    }
  }

  class FixObject {
    const dictionary: Dictionary
    var fields: map<int, string>

    constructor (dictionary: Dictionary)
      ensures this.dictionary == dictionary && fields == map[]
    {
      this.dictionary := dictionary;
      fields := map[];
    }

    method SetValue(name: string, t: Typed)
      modifies this
      ensures fields == SetField(dictionary, old(fields), name, t)
    {
      var (tag, _) := TagOf(dictionary, name);
      if tag != 0 {
        fields := fields[tag := Text(dictionary, t)];
      }
    }

    method CopyFields(from: seq<Field>)
      modifies this
      ensures fields == FixCopy(dictionary, old(fields), from)
    {
      for i := 0 to |from|
        invariant fields == FixCopy(dictionary, old(fields), from[..i])
      {
        assert from[..i+1][..i] == from[..i];
        if from[i].value.Some? {
          SetValue(from[i].name, from[i].value.value);
        }
      }
      assert from[..|from|] == from;
    }
  }
}
