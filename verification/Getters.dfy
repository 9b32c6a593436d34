/**
 What the getters of both kinds of objects answer, and what stands in a FIX
 field map, in terms of positions and table entries alone.
 */
module Getters {
  import opened Wrappers
  import opened Decimal
  import opened Messages
  import opened Copying

  // ---------------------------------------------------------------------
  // JSON objects
  // ---------------------------------------------------------------------

  /** `i` is the position of the first member of that name, or the end. */
  ghost predicate IsFirst(ms: seq<Member>, name: string, i: nat) {
    && i <= |ms| && (forall j :: 0 <= j < i ==> ms[j].name != name)
    && (i < |ms| ==> ms[i].name == name)
  }

  lemma {:induction false} LookupIs(ms: seq<Member>, name: string, i: nat)
    requires IsFirst(ms, name, i)
    ensures Lookup(ms, name) == if i < |ms| then Some(ms[i].value) else None
  {
    if ms != [] && ms[0].name != name {
      assert IsFirst(ms[1..], name, i - 1);
      LookupIs(ms[1..], name, i - 1);
    }
  }

  /** get_object: the first member of the name, if it is an object. */
  lemma GetObjectIs(ms: seq<Member>, name: string, i: nat)
    requires IsFirst(ms, name, i)
    ensures i == |ms| ==> GetObject(ms, name) == Err(NoKey(name))
    ensures i < |ms| && ms[i].value.JObject? ==> GetObject(ms, name) == Ok(ms[i].value.members)
    ensures i < |ms| && !ms[i].value.JObject? ==> GetObject(ms, name) == Err(WrongType(name))
  {
    LookupIs(ms, name, i);
  }

  /** get_or_set_object: that object, or an empty one in its place. */
  lemma ObjectAtIs(ms: seq<Member>, name: string, i: nat)
    requires IsFirst(ms, name, i)
    ensures ObjectAt(ms, name) == if i < |ms| && ms[i].value.JObject? then ms[i].value.members else []
  {
    LookupIs(ms, name, i);
  }

  predicate HasType(t: Typed, want: FieldType) {
    match want
    case KInt => t.TInt?
    case KString => t.TString?
    case KDouble => t.TDouble?
    case KUnknown => false
  }

  /** get_int, get_string, get_double: the first member of the name, if its value
      has that type. */
  lemma GetTypedIs(ms: seq<Member>, name: string, want: FieldType, i: nat)
    requires IsFirst(ms, name, i)
    ensures i == |ms| ==> GetTyped(ms, name, want) == Err(NoKey(name))
    ensures i < |ms| && ms[i].value.JTyped? && HasType(ms[i].value.t, want) ==> GetTyped(ms, name, want) == Ok(ms[i].value.t)
    ensures i < |ms| && !(ms[i].value.JTyped? && HasType(ms[i].value.t, want)) ==> GetTyped(ms, name, want) == Err(WrongType(name))
  {
    LookupIs(ms, name, i);
  }

  // ---------------------------------------------------------------------
  // FIX objects
  // ---------------------------------------------------------------------

  predicate Maps(t: FixType, want: FieldType) {
    match want
    case KString => t == String || t == Char || t == UtcTimeStamp
    case KInt => t == Int
    case KDouble => t == Qty || t == Price
    case KUnknown => false
  }

  lemma MappedTypeIs(t: FixType, want: FieldType)
    ensures Maps(t, want) ==> MappedType(t) == want
    ensures MappedType(t) == want != KUnknown ==> Maps(t, want)
    ensures MappedType(t) == KUnknown <==> !Maps(t, KString) && !Maps(t, KInt) && !Maps(t, KDouble)
  {
  }

  predicate Fits32(i: int) { -0x8000_0000 <= i < 0x8000_0000 }

  /** The text of a field stands for this value. */
  predicate StandsFor(d: Dictionary, text: string, t: Typed) {
    match t
    case TString(s) => text == s
    case TInt(i) => ParseInt(text) == Some(i)
    case TDouble(x) => d.doubles.parse(text) == Some(x)
  }

  /** The getters of a FIX object, on any field map: which error, in which order,
      and which value. */
  lemma FixGetIs(d: Dictionary, fields: map<int, string>, name: string, want: FieldType, t: Typed)
    requires want != KUnknown
    ensures var known := name in d.byName && d.byName[name].0 != 0; var r := FixGet(d, fields, name, want);
      && (!known ==> r == Err(UnknownKey(name)))
      && (known && d.byName[name].0 !in fields ==> r == Err(NoKey(name)))
      && (known && d.byName[name].0 in fields && !Maps(d.byName[name].1, want) ==> r == Err(WrongType(name)))
      && (known && d.byName[name].0 in fields && Maps(d.byName[name].1, want) ==>
            (r == Ok(t) <==> HasType(t, want) && StandsFor(d, fields[d.byName[name].0], t)))
  {
    if name in d.byName {
      MappedTypeIs(d.byName[name].1, want);
    }
    hide ParseInt;
  }

  /** What the iterator shows at a tag: nothing for a tag outside the table or of
      a type that maps to none, else the value its text stands for. */
  lemma FixFieldIs(d: Dictionary, tag: int, text: string, want: FieldType, t: Typed)
    ensures tag !in d.byTag ==> FixField(d, tag, text) == Ok(Field("", None))
    ensures tag in d.byTag && (forall w :: !Maps(d.byTag[tag].1, w)) ==>
      FixField(d, tag, text) == Ok(Field(d.byTag[tag].0, None))
    ensures tag in d.byTag && Maps(d.byTag[tag].1, want) ==>
      (FixField(d, tag, text) == Ok(Field(d.byTag[tag].0, Some(t))) <==> HasType(t, want) && StandsFor(d, text, t))
  {
    if tag in d.byTag {
      MappedTypeIs(d.byTag[tag].1, want);
      assert (forall w :: !Maps(d.byTag[tag].1, w)) ==> MappedType(d.byTag[tag].1) == KUnknown by {
        MappedTypeIs(d.byTag[tag].1, KUnknown);
      }
    }
    hide ParseInt;
  }
}
