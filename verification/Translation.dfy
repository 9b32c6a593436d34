/**
 HTTP to FIX and back (src/plugin/http_to_fix/http_to_fix_builder.cpp): what a
 JSON object keeps and loses on its way through a FIX field map.
 */
module Translation {
  import opened Wrappers
  import opened Decimal
  import opened Messages
  import opened Copying
  import opened Getters

  // ---------------------------------------------------------------------
  // Into FIX
  // ---------------------------------------------------------------------

  /** The member is written to a tag: a typed value under a known name. */
  predicate Stored(d: Dictionary, m: Member) {
    m.value.JTyped? && TagOf(d, m.name).0 != 0
  }

  /** And is shown again when the FIX map is iterated. */
  predicate Survives(d: Dictionary, m: Member) {
    Stored(d, m) && MappedType(TagOf(d, m.name).1) != KUnknown
  }

  /** What the FIX field of a surviving member reads back as. */
  function Reread(d: Dictionary, m: Member): Result<Option<Typed>, Error>
    requires Survives(d, m)
  {
    Read(d, MappedType(TagOf(d, m.name).1), Text(d, m.value.t))
  }

  /** With consistent tables a tag belongs to one name. */
  lemma TagNamesOne(d: Dictionary, a: string, b: string)
    requires Consistent(d) && TagOf(d, a).0 == TagOf(d, b).0 != 0
    ensures a == b
  {
    assert d.byTag[d.byName[a].0] == (a, d.byName[a].1);
  }

  /** After the copy, every stored member is under its tag. */
  lemma {:induction false} FixCopyStores(d: Dictionary, ms: seq<Member>, m: Member)
    requires Consistent(d) && DistinctNames(ms) && m in ms && Stored(d, m)
    ensures var f := FixCopy(d, map[], JsonFields(ms)); var tag := TagOf(d, m.name).0;
      tag in f && f[tag] == Text(d, m.value.t)
  {
    var n := |ms| - 1;
    var last := ms[n];
    assert JsonFields(ms)[..n] == JsonFields(ms[..n]);
    assert JsonFields(ms)[n] == JsonField(last);
    if m != last {
      assert m in ms[..n];
      FixCopyStores(d, ms[..n], m);
      if Stored(d, last) && TagOf(d, last.name).0 == TagOf(d, m.name).0 {
        TagNamesOne(d, last.name, m.name);
        assert false;
      }
    }
  }

  /** And nothing else is. */
  lemma {:induction false} FixCopyOnly(d: Dictionary, ms: seq<Member>, tag: int) returns (m: Member)
    requires tag in FixCopy(d, map[], JsonFields(ms))
    ensures m in ms && Stored(d, m) && TagOf(d, m.name).0 == tag
  {
    var n := |ms| - 1;
    assert ms != [];
    m := ms[n];
    assert JsonFields(ms)[..n] == JsonFields(ms[..n]);
    assert JsonFields(ms)[n] == JsonField(m);
    if !(Stored(d, m) && TagOf(d, m.name).0 == tag) {
      m := FixCopyOnly(d, ms[..n], tag);
    }
  }

  /** What a field map holds of a JSON object, exactly: a field for every typed
      member with a known name, under its tag, with its text; and no other. */
  lemma OutgoingExact(d: Dictionary, ms: seq<Member>)
    requires Consistent(d) && DistinctNames(ms)
    ensures var f := FixCopy(d, map[], JsonFields(ms));
      && (forall m :: m in ms && m.value.JTyped? && m.name in d.byName && d.byName[m.name].0 != 0 ==>
            && d.byName[m.name].0 in f
            && f[d.byName[m.name].0] == match m.value.t
                 case TString(text) => text
                 case TInt(i) => PrintInt(i)
                 case TDouble(x) => d.doubles.write(x))
      && (forall tag :: tag in f ==>
            exists m :: m in ms && m.value.JTyped? && m.name in d.byName && d.byName[m.name].0 == tag != 0)
  {
    var f := FixCopy(d, map[], JsonFields(ms));
    forall m | m in ms && Stored(d, m)
      ensures TagOf(d, m.name).0 in f && f[TagOf(d, m.name).0] == Text(d, m.value.t)
    {
      FixCopyStores(d, ms, m);
    }
    forall tag | tag in f
      ensures exists m :: m in ms && m.value.JTyped? && m.name in d.byName && d.byName[m.name].0 == tag != 0
    {
      var m := FixCopyOnly(d, ms, tag);
    }
    hide FixCopy, JsonFields;
  }

  // ---------------------------------------------------------------------
  // Back from FIX
  // ---------------------------------------------------------------------

  lemma {:induction false} FixFieldsOk(d: Dictionary, fields: map<int, string>, order: seq<int>)
    requires forall t :: t in order ==> t in fields
    ensures FixFields(d, fields, order).Ok? <==> forall t :: t in order ==> FixField(d, t, fields[t]).Ok?
    ensures FixFields(d, fields, order).Ok? ==>
      var fs := FixFields(d, fields, order).value;
      && |fs| == |order|
      && forall i :: 0 <= i < |order| ==> FixField(d, order[i], fields[order[i]]) == Ok(fs[i])
  {
    if order != [] {
      FixFieldsOk(d, fields, order[1..]);
      assert order == [order[0]] + order[1..];
    }
  }

  /** The field iteration shows for a stored member. */
  lemma ShownField(d: Dictionary, m: Member, text: string)
    requires Consistent(d) && Stored(d, m)
    ensures var t := TagOf(d, m.name).1;
      FixField(d, TagOf(d, m.name).0, text)
        == match Read(d, MappedType(t), text) case Ok(v) => Ok(Field(m.name, v)) case Err(e) => Err(e)
  {
    assert d.byTag[d.byName[m.name].0] == (m.name, d.byName[m.name].1);
  }

  /** No two tags of the table share a name. */
  ghost predicate TagsApart(d: Dictionary) {
    forall t, u :: t in d.byTag && u in d.byTag && d.byTag[t].0 == d.byTag[u].0 ==> t == u
  }

  /** `text` at `tag` is shown under `name` as `t`. */
  predicate Shows(d: Dictionary, tag: int, text: string, name: string, t: Typed) {
    && tag in d.byTag && d.byTag[tag].0 == name
    && Maps(d.byTag[tag].1, TypeOf(t)) && StandsFor(d, text, t)
  }

  /** A field of no mapped type, or one whose text stands for some value of it. */
  ghost predicate Readable(d: Dictionary, tag: int, text: string) {
    tag in d.byTag && !(forall w :: !Maps(d.byTag[tag].1, w)) ==> exists name, t :: Shows(d, tag, text, name, t)
  }

  lemma ReadableIs(d: Dictionary, tag: int, text: string)
    ensures Readable(d, tag, text) <==> FixField(d, tag, text).Ok?
  {
    var r := FixField(d, tag, text);
    if tag in d.byTag {
      var (n, ft) := d.byTag[tag];
      MappedTypeIs(ft, MappedType(ft));
      MappedTypeIs(ft, KUnknown);
      if r.Ok? && r.value.value.Some? {
        ShowsIs(d, tag, text, r.value.name, r.value.value.value);
      }
      if name, t :| Shows(d, tag, text, name, t) {
        ShowsIs(d, tag, text, name, t);
      }
      FixFieldIs(d, tag, text, KUnknown, TString(""));
      ReadGives(d, MappedType(ft), text);
    } else {
      FixFieldIs(d, tag, text, KUnknown, TString(""));
    }
    hide Shows, ParseInt;
  }

  lemma ShowsIs(d: Dictionary, tag: int, text: string, name: string, t: Typed)
    ensures Shows(d, tag, text, name, t) ==> FixField(d, tag, text) == Ok(Field(name, Some(t)))
    ensures FixField(d, tag, text) == Ok(Field(name, Some(t))) ==> Shows(d, tag, text, name, t)
  {
    FixFieldIs(d, tag, text, TypeOf(t), t);
    if tag in d.byTag {
      MappedTypeIs(d.byTag[tag].1, TypeOf(t));
      MappedTypeIs(d.byTag[tag].1, KUnknown);
      MappedTypeIs(d.byTag[tag].1, MappedType(d.byTag[tag].1));
      FixFieldIs(d, tag, text, MappedType(d.byTag[tag].1), t);
    }
    hide FixField, ParseInt;
  }

  /** The field of the last tag shown under a name decides what it stands for. */
  lemma {:induction false} TypedAtOfOrder(d: Dictionary, f: map<int, string>, order: seq<int>, name: string, t: Typed)
    requires TagsApart(d) && forall tag :: tag in order ==> tag in f
    requires FixFields(d, f, order).Ok?
    ensures TypedAt(FixFields(d, f, order).value, name) == Some(t) <==>
      exists tag :: tag in order && Shows(d, tag, f[tag], name, t)
  {
    hide Shows, FixField;
    FixFieldsOk(d, f, order);
    var fs := FixFields(d, f, order).value;
    if TypedAt(fs, name) == Some(t) {
      TypedAtOccurs(fs, name);
      var i :| 0 <= i < |fs| && fs[i] == Field(name, Some(t));
      ShowsIs(d, order[i], f[order[i]], name, t);
      assert order[i] in order;
    }
    if tag :| tag in order && Shows(d, tag, f[tag], name, t) {
      var i :| 0 <= i < |order| && order[i] == tag;
      ShowsIs(d, tag, f[tag], name, t);
      assert fs[i] == Field(name, Some(t));
      TypedSomewhere(fs, name, i);
      var u := TypedAt(fs, name).value;
      TypedAtOccurs(fs, name);
      var j :| 0 <= j < |fs| && fs[j] == Field(name, Some(u));
      ShowsIs(d, order[j], f[order[j]], name, u);
      SameTag(d, f, tag, order[j], name, t, u);
    }
  }

  lemma SameTag(d: Dictionary, f: map<int, string>, tag: int, other: int, name: string, t: Typed, u: Typed)
    requires TagsApart(d) && tag in f && other in f && Shows(d, tag, f[tag], name, t) && Shows(d, other, f[other], name, u)
    ensures t == u
  {
    MappedTypeIs(d.byTag[tag].1, TypeOf(t));
    MappedTypeIs(d.byTag[tag].1, TypeOf(u));
  }

  lemma {:induction false} TypedSomewhere(fields: seq<Field>, name: string, i: nat)
    requires i < |fields| && fields[i].name == name && fields[i].value.Some?
    ensures TypedAt(fields, name).Some?
  {
    var n := |fields| - 1;
    if !(fields[n].name == name && fields[n].value.Some?) {
      TypedSomewhere(fields[..n], name, i);
    }
  }

  /** The way back, exactly, for whatever field map a counterparty answers with:
      it succeeds if and only if every field of a mapped type can be read, and
      then a name carries a value if and only if some field of the table's name
      and type stands for it. Tags outside the table leave no trace. */
  lemma IncomingExact(d: Dictionary, f: map<int, string>, order: seq<int>)
    requires TagsApart(d) && Enumerates(order, f)
    ensures FixFields(d, f, order).Ok? <==> forall tag :: tag in f ==> Readable(d, tag, f[tag])
    ensures FixFields(d, f, order).Ok? ==>
      forall name, t :: Lookup(JsonCopy([], FixFields(d, f, order).value), name) == Some(JTyped(t)) <==>
        exists tag :: tag in f && Shows(d, tag, f[tag], name, t)
  {
    FixFieldsOk(d, f, order);
    hide FixField, Shows, Readable;
    forall tag | tag in f
      ensures Readable(d, tag, f[tag]) <==> FixField(d, tag, f[tag]).Ok?
    {
      ReadableIs(d, tag, f[tag]);
    }
    if FixFields(d, f, order).Ok? {
      var fs := FixFields(d, f, order).value;
      forall name, t
        ensures Lookup(JsonCopy([], fs), name) == Some(JTyped(t)) <==>
          exists tag :: tag in f && Shows(d, tag, f[tag], name, t)
      {
        CopyLookup([], fs, name);
        TypedAtOfOrder(d, f, order, name, t);
        assert forall tag :: tag in order <==> tag in f;
      }
    }
  }

  /** Every surviving member's text can be read as its table type says. */
  ghost predicate AllReadable(d: Dictionary, ms: seq<Member>) {
    forall m :: m in ms && Survives(d, m) ==> Reread(d, m).Ok?
  }

  lemma ReadableIffOk(d: Dictionary, ms: seq<Member>, order: seq<int>)
    requires Consistent(d) && DistinctNames(ms) && Enumerates(order, FixCopy(d, map[], JsonFields(ms)))
    ensures FixFields(d, FixCopy(d, map[], JsonFields(ms)), order).Ok? <==> AllReadable(d, ms)
  {
    var f := FixCopy(d, map[], JsonFields(ms));
    FixFieldsOk(d, f, order);
    forall t | t in order && AllReadable(d, ms)
      ensures FixField(d, t, f[t]).Ok?
    {
      var m := FixCopyOnly(d, ms, t);
      FixCopyStores(d, ms, m);
      ShownField(d, m, f[t]);
    }
    forall m | m in ms && Survives(d, m) && FixFields(d, f, order).Ok?
      ensures Reread(d, m).Ok?
    {
      FixCopyStores(d, ms, m);
      ShownField(d, m, f[TagOf(d, m.name).0]);
    }
  }

  /** What comes back under `name`: the member's value as its table type reads
      it, if there is such a member and it survives. */
  ghost predicate Returned(d: Dictionary, ms: seq<Member>, back: seq<Member>, name: string) {
    match Lookup(ms, name)
    case None => Lookup(back, name) == None
    case Some(v) =>
      if Survives(d, Member(name, v)) then
        && Reread(d, Member(name, v)).Ok? && Reread(d, Member(name, v)).value.Some?
        && Lookup(back, name) == Some(JTyped(Reread(d, Member(name, v)).value.value))
      else Lookup(back, name) == None
  }

  lemma ShownDistinct(d: Dictionary, ms: seq<Member>, order: seq<int>)
    requires Consistent(d) && DistinctNames(ms) && Enumerates(order, FixCopy(d, map[], JsonFields(ms)))
    requires FixFields(d, FixCopy(d, map[], JsonFields(ms)), order).Ok?
    ensures DistinctFields(FixFields(d, FixCopy(d, map[], JsonFields(ms)), order).value)
  {
    var f := FixCopy(d, map[], JsonFields(ms));
    var fs := FixFields(d, f, order).value;
    FixFieldsOk(d, f, order);
    forall i, j | 0 <= i < j < |fs|
      ensures fs[i].name != fs[j].name
    {
      var a := FixCopyOnly(d, ms, order[i]);
      var b := FixCopyOnly(d, ms, order[j]);
      ShownField(d, a, f[order[i]]);
      ShownField(d, b, f[order[j]]);
    }
  }

  lemma BackUnder(d: Dictionary, ms: seq<Member>, order: seq<int>, name: string)
    requires Consistent(d) && DistinctNames(ms) && Enumerates(order, FixCopy(d, map[], JsonFields(ms)))
    requires FixFields(d, FixCopy(d, map[], JsonFields(ms)), order).Ok?
    ensures Returned(d, ms, JsonCopy([], FixFields(d, FixCopy(d, map[], JsonFields(ms)), order).value), name)
  {
    var f := FixCopy(d, map[], JsonFields(ms));
    var fs := FixFields(d, f, order).value;
    FixFieldsOk(d, f, order);
    ShownDistinct(d, ms, order);
    CopyLookup([], fs, name);
    LookupOccurs(ms, name);
    if Lookup(ms, name).Some? && Stored(d, Member(name, Lookup(ms, name).value)) {
      var m := Member(name, Lookup(ms, name).value);
      FixCopyStores(d, ms, m);
      var tag := TagOf(d, name).0;
      var i :| 0 <= i < |order| && order[i] == tag;
      ShownField(d, m, f[tag]);
      TypedAtOf(fs, i);
      ReadGives(d, MappedType(TagOf(d, name).1), f[tag]);
    } else {
      forall i | 0 <= i < |fs|
        ensures fs[i].name != name
      {
        var m := FixCopyOnly(d, ms, order[i]);
        ShownField(d, m, f[order[i]]);
        DistinctLookup(ms, m);
      }
      NoneTyped(fs, name);
    }
  }

  lemma ReadGives(d: Dictionary, want: FieldType, text: string)
    ensures Read(d, want, text).Ok? ==> (Read(d, want, text).value.Some? <==> want != KUnknown)
  {
  }

  lemma {:induction false} LookupOccurs(ms: seq<Member>, name: string)
    ensures Lookup(ms, name).Some? ==> Member(name, Lookup(ms, name).value) in ms
  {
    if ms != [] {
      LookupOccurs(ms[1..], name);
    }
  }

  lemma {:induction false} DistinctLookup(ms: seq<Member>, m: Member)
    requires DistinctNames(ms) && m in ms
    ensures Lookup(ms, m.name) == Some(m.value)
  {
    if ms[0] != m {
      assert m in ms[1..];
      DistinctLookup(ms[1..], m);
      var i :| 0 <= i < |ms| && ms[i] == m;
      assert ms[0].name != ms[i].name;
    }
  }

  // ---------------------------------------------------------------------
  // Main results
  // ---------------------------------------------------------------------

  /** The translation, exactly. For every JSON object with distinct names and
      every order of iteration: the copy back succeeds if and only if each
      surviving field's text can be read as the type its table entry maps to,
      and then a name carries that reading, or nothing when the name is
      unknown, the value has no field type, or the FIX type maps to none. */
  lemma TranslationExact(d: Dictionary, ms: seq<Member>, order: seq<int>)
    requires Consistent(d) && DistinctNames(ms) && Enumerates(order, FixCopy(d, map[], JsonFields(ms)))
    ensures var back := FixFields(d, FixCopy(d, map[], JsonFields(ms)), order);
      && (back.Ok? <==> AllReadable(d, ms))
      && (back.Ok? ==>
            && DistinctNames(JsonCopy([], back.value))
            && forall name :: Returned(d, ms, JsonCopy([], back.value), name))
  {
    ReadableIffOk(d, ms, order);
    var back := FixFields(d, FixCopy(d, map[], JsonFields(ms)), order);
    if back.Ok? {
      CopyKeepsDistinct([], back.value);
      forall name
        ensures Returned(d, ms, JsonCopy([], back.value), name)
      {
        BackUnder(d, ms, order, name);
      }
    }
  }

  /** A typed value under a known name has the type the table maps to. */
  ghost predicate TypesAgree(d: Dictionary, ms: seq<Member>) {
    forall m :: m in ms && Survives(d, m) ==> TypeOf(m.value.t) == MappedType(TagOf(d, m.name).1)
  }

  /** Reading undoes writing at the value's own type, exactly if the text keeps
      the value; integers and strings always. */
  lemma ReadText(d: Dictionary, t: Typed)
    ensures Read(d, TypeOf(t), Text(d, t)) == Ok(Some(t)) <==> TextKeeps(d, t)
  {
    match t
    case TInt(i) => ParsePrintInt(i);
    case TString(_) =>
    case TDouble(_) =>
  }

  /** The part of the map that survives. */
  ghost function Kept(d: Dictionary, ms: seq<Member>): map<string, Value> {
    map name | name in ToMap(ms) && Survives(d, Member(name, ToMap(ms)[name])) :: ToMap(ms)[name]
  }

  /** The text of every double that is written keeps it. */
  ghost predicate DoublesKept(d: Dictionary, ms: seq<Member>) {
    forall m :: m in ms && Survives(d, m) ==> TextKeeps(d, m.value.t)
  }

  /** Every kept value comes back. */
  lemma KeptComesBack(d: Dictionary, ms: seq<Member>, order: seq<int>)
    requires Consistent(d) && DistinctNames(ms) && TypesAgree(d, ms) && DoublesKept(d, ms)
    requires Enumerates(order, FixCopy(d, map[], JsonFields(ms)))
    ensures var back := FixFields(d, FixCopy(d, map[], JsonFields(ms)), order);
      back.Ok? && ToMap(JsonCopy([], back.value)) == Kept(d, ms)
  {
    forall m | m in ms && Survives(d, m)
      ensures Reread(d, m) == Ok(Some(m.value.t))
    {
      ReadText(d, m.value.t);
    }
    TranslationExact(d, ms, order);
    hide Consistent, Enumerates, DistinctNames, Read, Text, FixFields;
    var out := JsonCopy([], FixFields(d, FixCopy(d, map[], JsonFields(ms)), order).value);
    var kept := Kept(d, ms);
    forall name
      ensures name in kept <==> Lookup(out, name).Some?
      ensures name in kept ==> Lookup(out, name) == Some(kept[name])
    {
      assert Returned(d, ms, out, name);
      ToMapIsLookup(ms, name);
      LookupOccurs(ms, name);
    }
    MapByLookup(out, kept);
  }

  /** A double that its text does not keep comes back as another, or not at all. */
  lemma LostDouble(d: Dictionary, ms: seq<Member>, order: seq<int>, m: Member)
    requires Consistent(d) && DistinctNames(ms) && TypesAgree(d, ms)
    requires Enumerates(order, FixCopy(d, map[], JsonFields(ms)))
    requires m in ms && Survives(d, m) && !TextKeeps(d, m.value.t)
    ensures var back := FixFields(d, FixCopy(d, map[], JsonFields(ms)), order);
      back.Ok? ==> ToMap(JsonCopy([], back.value)) != Kept(d, ms)
  {
    var back := FixFields(d, FixCopy(d, map[], JsonFields(ms)), order);
    TranslationExact(d, ms, order);
    DistinctLookup(ms, m);
    ToMapIsLookup(ms, m.name);
    ReadText(d, m.value.t);
    hide Consistent, Enumerates, DistinctNames, Read, Text, FixFields;
    if back.Ok? {
      assert Returned(d, ms, JsonCopy([], back.value), m.name);
      ToMapIsLookup(JsonCopy([], back.value), m.name);
    }
  }

  lemma AllSurvive(d: Dictionary, ms: seq<Member>)
    requires forall m :: m in ms ==> Survives(d, m)
    ensures Kept(d, ms) == ToMap(ms)
  {
    forall name | name in ToMap(ms)
      ensures name in Kept(d, ms)
    {
      ToMapIsLookup(ms, name);
      LookupOccurs(ms, name);
    }
  }

  /** Round trip HTTP to FIX to HTTP, when the values have the types of the
      tables: exactly the unknown names, the nested or untyped values and the
      fields whose FIX type maps to no field type are lost and all else comes
      back with its value, if and only if the doubles among it survive their
      text. With nothing to lose, the map is the same. */
  lemma RoundTrip(d: Dictionary, ms: seq<Member>, order: seq<int>)
    requires Consistent(d) && DistinctNames(ms) && TypesAgree(d, ms)
    requires Enumerates(order, FixCopy(d, map[], JsonFields(ms)))
    ensures var back := FixFields(d, FixCopy(d, map[], JsonFields(ms)), order);
      && ((back.Ok? && ToMap(JsonCopy([], back.value)) == Kept(d, ms)) <==> DoublesKept(d, ms))
      && ((forall m :: m in ms ==> Survives(d, m)) ==> Kept(d, ms) == ToMap(ms))
  {
    hide Consistent, Enumerates, DistinctNames, TypesAgree, FixFields, FixCopy, TagOf, TextKeeps, Kept;
    if forall m :: m in ms ==> Survives(d, m) {
      AllSurvive(d, ms);
    }
    if DoublesKept(d, ms) {
      KeptComesBack(d, ms, order);
    } else {
      var m :| m in ms && Survives(d, m) && !TextKeeps(d, m.value.t);
      LostDouble(d, ms, order, m);
    }
  }

  // ---------------------------------------------------------------------
  // The getters
  // ---------------------------------------------------------------------

  /** set_value then a getter on a FIX object: an unknown name is refused
      whatever was set; a known one asked for at another type than the table's
      is refused; set and asked for at that type it answers with the value, if
      and only if its text keeps it; other names answer as before. */
  lemma FixSetThenGet(d: Dictionary, fields: map<int, string>, name: string, t: Typed, want: FieldType, other: string)
    requires Consistent(d) && want != KUnknown
    ensures var f := SetField(d, fields, name, t); var (tag, ft) := TagOf(d, name);
      && (tag == 0 ==> f == fields && FixGet(d, f, name, want) == Err(UnknownKey(name)))
      && (tag != 0 && MappedType(ft) != want ==> FixGet(d, f, name, want) == Err(WrongType(name)))
      && (tag != 0 && MappedType(ft) == want == TypeOf(t) ==> (FixGet(d, f, name, want) == Ok(t) <==> TextKeeps(d, t)))
      && (other != name ==> FixGet(d, f, other, want) == FixGet(d, fields, other, want))
  {
    ReadText(d, t);
    if TagOf(d, other).0 == TagOf(d, name).0 != 0 {
      TagNamesOne(d, other, name);
    }
  }

  /** The same for a JSON object, where setting decides the type. */
  lemma JsonSetThenGet(ms: seq<Member>, name: string, t: Typed, want: FieldType, other: string)
    ensures var out := SetMember(ms, name, JTyped(t));
      && GetTyped(out, name, want) == (if TypeOf(t) == want then Ok(t) else Err(WrongType(name)))
      && (other != name ==> GetTyped(out, other, want) == GetTyped(ms, other, want))
  {
    SetLookup(ms, name, JTyped(t), name);
    SetLookup(ms, name, JTyped(t), other);
  }

  // ---------------------------------------------------------------------
  // HttpToFixBuilder
  // ---------------------------------------------------------------------

  datatype FixMessage = FixMessage(head: map<int, string>, body: map<int, string>)

  /** The builder registered as "fix", and the order its field maps iterate in. */
  datatype FixSide = FixSide(send: FixMessage -> Result<FixMessage, Error>, order: map<int, string> -> seq<int>)

  ghost predicate Iterates(side: FixSide) {
    forall f :: Enumerates(side.order(f), f)
  }

  /** The request's "head" or "body", copied into an empty FIX field map. */
  function Outgoing(d: Dictionary, request: seq<Member>, part: string): Result<map<int, string>, Error> {
    match GetObject(request, part)
    case Err(e) => Err(e)
    case Ok(ms) => Ok(FixCopy(d, map[], JsonFields(ms)))
  }

  /** A FIX field map, copied into the object under `part` of the response. */
  function Incoming(d: Dictionary, side: FixSide, response: seq<Member>, part: string, fields: map<int, string>): Result<seq<Member>, Error>
    requires forall t :: t in side.order(fields) ==> t in fields
  {
    match FixFields(d, fields, side.order(fields))
    case Err(e) => Err(e)
    case Ok(fs) => Ok(SetMember(response, part, JObject(JsonCopy(ObjectAt(response, part), fs))))
  }

  /** HttpToFixBuilder::create, from request body to response body. */
  method Create(d: Dictionary, side: FixSide, request: seq<Member>) returns (response: Result<seq<Member>, Error>)
    requires Iterates(side)
    ensures response == Created(d, side, request)
  {
    var head := GetObject(request, "head");
    if head.Err? {
      return Err(head.error);
    }
    var fixHead := new FixObject(d);
    fixHead.CopyFields(JsonFields(head.value));
    var body := GetObject(request, "body");
    if body.Err? {
      return Err(body.error);
    }
    var fixBody := new FixObject(d);
    fixBody.CopyFields(JsonFields(body.value));
    var answer := side.send(FixMessage(fixHead.fields, fixBody.fields));
    if answer.Err? {
      return Err(answer.error);
    }
    assert Enumerates(side.order(answer.value.head), answer.value.head);
    assert Enumerates(side.order(answer.value.body), answer.value.body);
    var members: seq<Member> := [];
    var shown := FixFields(d, answer.value.head, side.order(answer.value.head));
    if shown.Err? {
      return Err(shown.error);
    }
    var part := new JsonObject();
    part.CopyFields(shown.value);
    FreshParts(part.members);
    members := SetMember(members, "head", JObject(part.members));
    shown := FixFields(d, answer.value.body, side.order(answer.value.body));
    if shown.Err? {
      return Err(shown.error);
    }
    part := new JsonObject();
    part.CopyFields(shown.value);
    members := SetMember(members, "body", JObject(part.members));
    response := Ok(members);
  }

  function Created(d: Dictionary, side: FixSide, request: seq<Member>): Result<seq<Member>, Error>
    requires forall f, t :: t in side.order(f) ==> t in f
  {
    match Outgoing(d, request, "head")
    case Err(e) => Err(e)
    case Ok(head) =>
      match Outgoing(d, request, "body")
      case Err(e) => Err(e)
      case Ok(body) =>
        match side.send(FixMessage(head, body))
        case Err(e) => Err(e)
        case Ok(answer) =>
          match Incoming(d, side, [], "head", answer.head)
          case Err(e) => Err(e)
          case Ok(half) => Incoming(d, side, half, "body", answer.body)
  }

  /** The response body starts empty: get_or_set_object adds "head", then "body". */
  lemma FreshParts(head: seq<Member>)
    ensures ObjectAt([], "head") == []
    ensures ObjectAt([Member("head", JObject(head))], "body") == []
    ensures SetMember([], "head", JObject(head)) == [Member("head", JObject(head))]
    ensures forall body :: SetMember([Member("head", JObject(head))], "body", body)
                             == [Member("head", JObject(head)), Member("body", body)]
  {
    assert "head"[0] != "body"[0];
    var one := [Member("head", JObject(head))];
    assert one[1..] == [] && Lookup(one, "body") == Lookup(one[1..], "body");
    forall body
      ensures SetMember(one, "body", body) == [Member("head", JObject(head)), Member("body", body)]
    {
      assert SetMember(one, "body", body) == [one[0]] + SetMember(one[1..], "body", body);
    }
  }

  lemma TwoParts(head: seq<Member>, body: seq<Member>)
    ensures var out := [Member("head", JObject(head)), Member("body", JObject(body))];
      GetObject(out, "head") == Ok(head) && GetObject(out, "body") == Ok(body)
  {
    var out := [Member("head", JObject(head)), Member("body", JObject(body))];
    assert "head"[0] != "body"[0];
    assert out[1..] == [Member("body", JObject(body))];
    assert Lookup(out, "body") == Lookup(out[1..], "body");
  }

  /** When both parts of the answer can be read, they make up the response. */
  lemma CreatedFrom(d: Dictionary, side: FixSide, request: seq<Member>, head: map<int, string>, body: map<int, string>)
    requires Iterates(side) && Outgoing(d, request, "head").Ok? && Outgoing(d, request, "body").Ok?
    requires side.send(FixMessage(Outgoing(d, request, "head").value, Outgoing(d, request, "body").value)) == Ok(FixMessage(head, body))
    requires (forall t :: t in side.order(head) ==> t in head) && (forall t :: t in side.order(body) ==> t in body)
    requires FixFields(d, head, side.order(head)).Ok? && FixFields(d, body, side.order(body)).Ok?
    ensures Created(d, side, request) == Ok([
      Member("head", JObject(JsonCopy([], FixFields(d, head, side.order(head)).value))),
      Member("body", JObject(JsonCopy([], FixFields(d, body, side.order(body)).value)))])
  {
    hide FixFields, Outgoing, SetMember, ObjectAt, JsonCopy;
    FreshParts(JsonCopy([], FixFields(d, head, side.order(head)).value));
  }

  /** Against a counterparty that answers with the request itself: the response
      has exactly the parts "head" and "body", and each stands for what its
      request part keeps of itself. */
  lemma EchoKeepsBothParts(d: Dictionary, side: FixSide, request: seq<Member>, head: seq<Member>, body: seq<Member>)
    requires Consistent(d) && Iterates(side) && forall m :: side.send(m) == Ok(m)
    requires GetObject(request, "head") == Ok(head) && GetObject(request, "body") == Ok(body)
    requires DistinctNames(head) && TypesAgree(d, head) && DoublesKept(d, head)
    requires DistinctNames(body) && TypesAgree(d, body) && DoublesKept(d, body)
    ensures var out := Created(d, side, request);
      && out.Ok? && |out.value| == 2
      && GetObject(out.value, "head").Ok? && ToMap(GetObject(out.value, "head").value) == Kept(d, head)
      && GetObject(out.value, "body").Ok? && ToMap(GetObject(out.value, "body").value) == Kept(d, body)
  {
    hide Consistent, DistinctNames, TypesAgree, DoublesKept, GetObject, FixFields, FixCopy, JsonFields, ToMap, Kept, Created, JsonCopy;
    var fixHead, fixBody := FixCopy(d, map[], JsonFields(head)), FixCopy(d, map[], JsonFields(body));
    assert Enumerates(side.order(fixHead), fixHead) && Enumerates(side.order(fixBody), fixBody);
    RoundTrip(d, head, side.order(fixHead));
    RoundTrip(d, body, side.order(fixBody));
    CreatedFrom(d, side, request, fixHead, fixBody);
    TwoParts(JsonCopy([], FixFields(d, fixHead, side.order(fixHead)).value),
             JsonCopy([], FixFields(d, fixBody, side.order(fixBody)).value));
  }

  function Failing(side: FixSide, e: Error): FixSide {
    side.(send := _ => Err(e))
  }

  /** Whatever the failure of the other side, it is the one reported, if and
      only if the first member named "head" and the first one named "body" are
      both objects; else nothing is sent and the error is that of the part, the
      head being looked at first. `h` and `b` are the two positions. */
  lemma NothingSentIff(d: Dictionary, side: FixSide, request: seq<Member>, h: nat, b: nat)
    requires Iterates(side) && IsFirst(request, "head", h) && IsFirst(request, "body", b)
    ensures (forall e :: Created(d, Failing(side, e), request) == Err(e)) <==>
      (h < |request| && request[h].value.JObject? && b < |request| && request[b].value.JObject?)
    ensures h == |request| ==> Created(d, side, request) == Err(NoKey("head"))
    ensures h < |request| && !request[h].value.JObject? ==> Created(d, side, request) == Err(WrongType("head"))
    ensures h < |request| && request[h].value.JObject? ==>
      && (b == |request| ==> Created(d, side, request) == Err(NoKey("body")))
      && (b < |request| && !request[b].value.JObject? ==> Created(d, side, request) == Err(WrongType("body")))
  {
    hide GetObject, IsFirst, FixCopy;
    GetObjectIs(request, "head", h);
    GetObjectIs(request, "body", b);
    var e := Malformed("sent");
    assert GetObject(request, "head") != Err(e) && GetObject(request, "body") != Err(e) by { NotMalformed(request, e); }
    assert forall f :: Failing(side, f).send(FixMessage(map[], map[])) == Err(f);
    assert !(GetObject(request, "head").Ok? && GetObject(request, "body").Ok?) ==> Created(d, Failing(side, e), request) != Err(e);
    BoundsOf(request, h, b);
  }

  lemma BoundsOf(request: seq<Member>, h: nat, b: nat)
    requires IsFirst(request, "head", h) && IsFirst(request, "body", b)
    ensures h <= |request| && b <= |request|
  {
  }

  lemma NotMalformed(ms: seq<Member>, e: Error)
    requires e.Malformed?
    ensures forall name :: GetObject(ms, name) != Err(e)
  {
  }
}
