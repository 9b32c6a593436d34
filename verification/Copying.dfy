/**
 What Object::copy_from does to a JSON object and to a FIX field map, and what
 is left of a JSON object that went through FIX and came back.
 */
module Copying {
  import opened Wrappers
  import opened Messages

  // ---------------------------------------------------------------------
  // The ordered member list is a map
  // ---------------------------------------------------------------------

  ghost predicate DistinctNames(ms: seq<Member>) {
    forall i, j :: 0 <= i < j < |ms| ==> ms[i].name != ms[j].name
  }

  /** The map a member list stands for: first match wins. */
  function ToMap(ms: seq<Member>): map<string, Value> {
    if ms == [] then map[] else ToMap(ms[1..])[ms[0].name := ms[0].value]
  }

  lemma {:induction false} ToMapIsLookup(ms: seq<Member>, name: string)
    ensures name in ToMap(ms) <==> Lookup(ms, name).Some?
    ensures name in ToMap(ms) ==> Lookup(ms, name) == Some(ToMap(ms)[name])
  {
    if ms != [] {
      ToMapIsLookup(ms[1..], name);
    }
  }

  /** Two lists with equal lookups stand for the same map. */
  lemma MapByLookup(ms: seq<Member>, m: map<string, Value>)
    requires forall name :: name in m <==> Lookup(ms, name).Some?
    requires forall name :: name in m ==> Lookup(ms, name) == Some(m[name])
    ensures ToMap(ms) == m
  {
    forall name
      ensures name in ToMap(ms) <==> name in m
      ensures name in m ==> ToMap(ms)[name] == m[name]
    {
      ToMapIsLookup(ms, name);
    }
  }

  /** set_value refines map update, on any list. */
  lemma {:induction false} SetRefines(ms: seq<Member>, name: string, value: Value)
    ensures ToMap(SetMember(ms, name, value)) == ToMap(ms)[name := value]
  {
    if ms != [] && ms[0].name != name {
      SetRefines(ms[1..], name, value);
      var rest := SetMember(ms[1..], name, value);
      assert SetMember(ms, name, value)[1..] == rest;
    } else if ms != [] {
      assert SetMember(ms, name, value)[1..] == ms[1..];
    }
  }

  lemma {:induction false} SetLookup(ms: seq<Member>, name: string, value: Value, at: string)
    ensures Lookup(SetMember(ms, name, value), at) == if at == name then Some(value) else Lookup(ms, at)
  {
    if ms != [] {
      if ms[0].name != name {
        SetLookup(ms[1..], name, value, at);
        assert SetMember(ms, name, value)[1..] == SetMember(ms[1..], name, value);
      } else {
        assert SetMember(ms, name, value)[1..] == ms[1..];
      }
    }
  }

  lemma {:induction false} SetKeepsDistinct(ms: seq<Member>, name: string, value: Value)
    requires DistinctNames(ms)
    ensures DistinctNames(SetMember(ms, name, value))
  {
    var i := FirstAt(ms, name);
    SetAt(ms, name, value, i);
  }

  lemma {:induction false} FirstAt(ms: seq<Member>, name: string) returns (i: nat)
    ensures i <= |ms| && (forall j :: 0 <= j < i ==> ms[j].name != name)
    ensures i < |ms| ==> ms[i].name == name
  {
    if ms == [] || ms[0].name == name {
      i := 0;
    } else {
      i := FirstAt(ms[1..], name);
      i := i + 1;
    }
  }

  /** Iteration over a list with distinct names shows exactly the map's items. */
  lemma {:induction false} IterateRefines(ms: seq<Member>, name: string, value: Value)
    requires DistinctNames(ms)
    ensures Member(name, value) in ms <==> name in ToMap(ms) && ToMap(ms)[name] == value
  {
    if ms != [] {
      IterateRefines(ms[1..], name, value);
      NamesOf(ms[1..], ms[0].name);
    }
  }

  lemma {:induction false} NamesOf(ms: seq<Member>, name: string)
    ensures name in ToMap(ms) <==> exists i :: 0 <= i < |ms| && ms[i].name == name
  {
    if ms != [] {
      NamesOf(ms[1..], name);
      if name in ToMap(ms[1..]) {
        var i :| 0 <= i < |ms[1..]| && ms[1..][i].name == name;
        assert ms[i+1].name == name;
      }
      assert forall i :: 1 <= i < |ms| ==> ms[i] == ms[1..][i-1];
    }
  }

  // ---------------------------------------------------------------------
  // copy_from into a JSON object
  // ---------------------------------------------------------------------

  /** A right-biased override: a name typed in the source reads back with the
      source's value, every other name as before; for any source, any target. */
  lemma {:induction false} CopyLookup(ms: seq<Member>, fields: seq<Field>, name: string)
    ensures Lookup(JsonCopy(ms, fields), name)
         == match TypedAt(fields, name) case None => Lookup(ms, name) case Some(t) => Some(JTyped(t))
  {
    if fields != [] {
      var init, last := fields[..|fields|-1], fields[|fields|-1];
      CopyLookup(ms, init, name);
      if last.value.Some? {
        SetLookup(JsonCopy(ms, init), last.name, JTyped(last.value.value), name);
      }
    }
  }

  lemma {:induction false} CopyKeepsDistinct(ms: seq<Member>, fields: seq<Field>)
    requires DistinctNames(ms)
    ensures DistinctNames(JsonCopy(ms, fields))
  {
    if fields != [] {
      CopyKeepsDistinct(ms, fields[..|fields|-1]);
      var last := fields[|fields|-1];
      if last.value.Some? {
        SetKeepsDistinct(JsonCopy(ms, fields[..|fields|-1]), last.name, JTyped(last.value.value));
      }
    }
  }

  /** Assigning a value that is there already changes nothing. */
  lemma {:induction false} SetSame(ms: seq<Member>, name: string, value: Value)
    requires Lookup(ms, name) == Some(value)
    ensures SetMember(ms, name, value) == ms
  {
    if ms[0].name != name {
      SetSame(ms[1..], name, value);
    }
  }

  ghost predicate DistinctFields(fields: seq<Field>) {
    forall i, j :: 0 <= i < j < |fields| ==> fields[i].name != fields[j].name
  }

  /** With distinct names every typed field is the one its name ends up with. */
  lemma {:induction false} TypedAtOf(fields: seq<Field>, i: nat)
    requires DistinctFields(fields) && i < |fields|
    ensures TypedAt(fields, fields[i].name) == fields[i].value
  {
    var n := |fields| - 1;
    if i < n {
      TypedAtOf(fields[..n], i);
    } else {
      NoneTyped(fields[..n], fields[n].name);
    }
  }

  lemma {:induction false} NoneTyped(fields: seq<Field>, name: string)
    requires forall i :: 0 <= i < |fields| ==> fields[i].name != name
    ensures TypedAt(fields, name) == None
  {
    if fields != [] {
      NoneTyped(fields[..|fields|-1], name);
    }
  }

  lemma {:induction false} TypedAtOccurs(fields: seq<Field>, name: string)
    ensures TypedAt(fields, name).Some? ==> Field(name, TypedAt(fields, name)) in fields
  {
    if fields != [] {
      TypedAtOccurs(fields[..|fields|-1], name);
    }
  }

  /** Copying once more changes nothing, not even the order. */
  lemma {:induction false} CopyIdempotent(ms: seq<Member>, fields: seq<Field>, k: nat)
    requires DistinctFields(fields) && k <= |fields|
    ensures JsonCopy(JsonCopy(ms, fields), fields[..k]) == JsonCopy(ms, fields)
  {
    var done := JsonCopy(ms, fields);
    if k == 0 {
      assert fields[..0] == [];
    } else {
      CopyIdempotent(ms, fields, k - 1);
      assert fields[..k][..k-1] == fields[..k-1];
      var f := fields[k-1];
      if f.value.Some? {
        TypedAtOf(fields, k - 1);
        CopyLookup(ms, fields, f.name);
        SetSame(done, f.name, JTyped(f.value.value));
      }
    }
  }

  /** begin() to end() shows every member, in order, with its name and with its
      value exactly if that has a field type. */
  lemma JsonFieldsAre(ms: seq<Member>, i: nat)
    requires i < |ms|
    ensures var fs := JsonFields(ms);
      && |fs| == |ms| && fs[i].name == ms[i].name
      && (forall t :: fs[i].value == Some(t) <==> ms[i].value == JTyped(t))
  {
  }

  lemma FieldsDistinct(ms: seq<Member>)
    requires DistinctNames(ms)
    ensures DistinctFields(JsonFields(ms))
  {
  }

  /** The whole of copy_from between JSON objects: for every source with
      distinct names and every target, each typed source field reads back with
      its value, every other field is unchanged, distinct names stay distinct,
      and repeating the copy changes nothing. */
  lemma CopyIsOverride(target: seq<Member>, source: seq<Member>)
    requires DistinctNames(source)
    ensures var out := JsonCopy(target, JsonFields(source));
      && (forall i :: 0 <= i < |source| ==>
            Lookup(out, source[i].name) ==
              if source[i].value.JTyped? then Some(source[i].value) else Lookup(target, source[i].name))
      && (forall name :: Lookup(source, name).None? ==> Lookup(out, name) == Lookup(target, name))
      && (DistinctNames(target) ==> DistinctNames(out))
      && JsonCopy(out, JsonFields(source)) == out
  {
    var fields := JsonFields(source);
    var out := JsonCopy(target, fields);
    FieldsDistinct(source);
    forall i | 0 <= i < |source|
      ensures Lookup(out, source[i].name) ==
        if source[i].value.JTyped? then Some(source[i].value) else Lookup(target, source[i].name)
    {
      TypedAtOf(fields, i);
      CopyLookup(target, fields, source[i].name);
    }
    forall name | Lookup(source, name).None?
      ensures Lookup(out, name) == Lookup(target, name)
    {
      CopyLookup(target, fields, name);
      TypedAtOccurs(fields, name);
      ToMapIsLookup(source, name);
      NamesOf(source, name);
    }
    if DistinctNames(target) {
      CopyKeepsDistinct(target, fields);
    }
    CopyIdempotent(target, fields, |fields|);
    assert fields[..|fields|] == fields;
  }
}
