/** Values a checkpoint may hold, the document tree each is stored as, and the JSON it reads back
    as.  A `Sequence` is a list on disk together with the encoder of its records and the length
    it was captured with; what it holds is looked up in `views`. */
module Documents {
  import opened ChunkTree
  import opened Spool
  import opened DiskBackedList

  datatype Key = StrKey(s: string) | NullKey | BoolKey(b: bool) | NumberKey(text: string) | OtherKey

  datatype Entry = Entry(key: Key, value: Value)

  datatype Value =
    | Atom(scalar: Scalar)
    | Unsupported
    | Listing(tuple: bool, elements: seq<Value>)
    | Dict(entries: seq<Entry>)
    | Sequence(source: DiskBackedList, encoder: nat, length: nat)

  type Encoders = nat -> Record -> Value
  type Views = map<DiskBackedList, seq<Record>>

  /** Scalar keys become strings, as JSON writes them; any other key is refused. */
  function KeyName(k: Key): Option<string> {
    match k
    case StrKey(s) => Some(s)
    case NullKey => Some("null")
    case BoolKey(b) => Some(if b then "true" else "false")
    case NumberKey(text) => Some(text)
    case OtherKey => None
  }

  /** A value with no list on disk inside it. */
  predicate Plain(v: Value) {
    match v
    case Listing(_, elements) => forall i | 0 <= i < |elements| :: Plain(elements[i])
    case Dict(entries) => forall i | 0 <= i < |entries| :: Plain(entries[i].value)
    case Sequence(_, _, _) => false
    case _ => true
  }

  /** Encoders are pure and give plain values. */
  ghost predicate PlainEncoders(enc: Encoders) {
    forall e: nat, r: Record :: Plain(enc(e)(r))
  }

  function AllSome<T>(options: seq<Option<T>>): (r: Option<seq<T>>)
  {
    if forall i | 0 <= i < |options| :: options[i].Some? then
      Some(seq(|options|, i requires 0 <= i < |options| => options[i].value))
    else None
  }

  /** The document a value is stored as; None when saving it is refused. */
  ghost function DocOf(enc: Encoders, views: Views, v: Value): Option<Doc>
    requires PlainEncoders(enc)
    decreases if Plain(v) then 0 else 1, v
  {
    match v
    case Atom(scalar) => Some(ChunkTree.Value(scalar))
    case Unsupported => None
    case Listing(_, elements) =>
      var docs := AllSome(seq(|elements|, i requires 0 <= i < |elements| => DocOf(enc, views, elements[i])));
      if docs.None? then None else Some(CanonTree(docs.value))
    case Dict(entries) =>
      var members := AllSome(seq(|entries|, i requires 0 <= i < |entries| =>
        MemberOf(entries[i].key, DocOf(enc, views, entries[i].value))));
      if members.None? then None else Some(Object(members.value))
    case Sequence(source, encoder, length) =>
      if source !in views || length > |views[source]| then None
      else
        var docs := AllSome(seq(length, i requires 0 <= i < length =>
          DocOf(enc, map[], enc(encoder)(views[source][i]))));
        if docs.None? then None else Some(CanonTree(docs.value))
  }

  function MemberOf(k: Key, d: Option<Doc>): Option<Member> {
    if KeyName(k).Some? && d.Some? then Some(Member(KeyName(k).value, d.value)) else None
  }

  /** Every list on disk a value refers to is one of `lists`. */
  ghost predicate Within(v: Value, lists: set<DiskBackedList>) {
    match v
    case Listing(_, elements) => forall i | 0 <= i < |elements| :: Within(elements[i], lists)
    case Dict(entries) => forall i | 0 <= i < |entries| :: Within(entries[i].value, lists)
    case Sequence(source, _, _) => source in lists
    case _ => true
  }

  lemma PlainIsWithin(v: Value)
    requires Plain(v)
    ensures Within(v, {})
  {}

  // ---------- what reading gives back ----------

  datatype Json = JAtom(scalar: Scalar) | JArray(elements: seq<Json>) | JObject(fields: map<string, Json>)

  /** A dict built member by member: the last of equal names wins. */
  function Fold(names: seq<string>, values: seq<Json>): map<string, Json>
    requires |names| == |values|
  {
    if names == [] then map[]
    else Fold(names[..|names| - 1], values[..|values| - 1])[names[|names| - 1] := values[|values| - 1]]
  }

  function Flatten<T>(parts: seq<seq<T>>): seq<T> {
    if parts == [] then [] else parts[0] + Flatten(parts[1..])
  }

  /** The JSON a document tree stands for; None when a concat chunk is not a list. */
  function DocJson(d: Doc): Option<Json> {
    match d
    case Value(scalar) => Some(JAtom(scalar))
    case List(items) =>
      var js := AllSome(seq(|items|, i requires 0 <= i < |items| => DocJson(items[i])));
      if js.None? then None else Some(JArray(js.value))
    case Concat(chunks) =>
      Joined(AllSome(seq(|chunks|, i requires 0 <= i < |chunks| => DocJson(chunks[i]))))
    case Object(members) =>
      var js := AllSome(seq(|members|, i requires 0 <= i < |members| => DocJson(members[i].doc)));
      if js.None? then None
      else Some(JObject(Fold(seq(|members|, i requires 0 <= i < |members| => members[i].name), js.value)))
  }

  function Joined(parts: Option<seq<Json>>): Option<Json> {
    if parts.None? || exists i :: 0 <= i < |parts.value| && !parts.value[i].JArray? then None
    else Some(JArray(Flatten(seq(|parts.value|, i requires 0 <= i < |parts.value| =>
      parts.value[i].elements))))
  }

  /** The JSON normal form: tuples and sequences are lists, scalar keys are strings. */
  ghost function Normal(enc: Encoders, views: Views, v: Value): Json
    requires PlainEncoders(enc)
    decreases if Plain(v) then 0 else 1, v
  {
    match v
    case Atom(scalar) => JAtom(scalar)
    case Unsupported => JAtom(Null)
    case Listing(_, elements) =>
      JArray(seq(|elements|, i requires 0 <= i < |elements| => Normal(enc, views, elements[i])))
    case Dict(entries) =>
      JObject(Fold(
        seq(|entries|, i requires 0 <= i < |entries| => KeyName(entries[i].key).GetOr("")),
        seq(|entries|, i requires 0 <= i < |entries| => Normal(enc, views, entries[i].value))))
    case Sequence(source, encoder, length) =>
      if source !in views || length > |views[source]| then JAtom(Null)
      else JArray(seq(length, i requires 0 <= i < length =>
        Normal(enc, map[], enc(encoder)(views[source][i]))))
  }

  // ---------- a chunk tree reads back as its list ----------

  lemma {:induction false} FlattenChunks<T>(s: seq<T>, size: nat)
    requires size > 0
    ensures Flatten(Chunks(s, size)) == s
    decreases |s|
  {
    if |s| > size {
      FlattenChunks(s[size..], size);
      assert Chunks(s, size)[1..] == Chunks(s[size..], size);
    } else if s != [] {
      assert Flatten([s]) == s + Flatten([]);
    }
  }

  ghost predicate ReadsAs(docs: seq<Doc>, js: seq<Json>) {
    |docs| == |js| && forall i | 0 <= i < |docs| :: DocJson(docs[i]) == Some(js[i])
  }

  lemma {:induction false} ChunksReadAs(docs: seq<Doc>, js: seq<Json>, size: nat)
    requires size > 0 && ReadsAs(docs, js)
    ensures |Chunks(docs, size)| == |Chunks(js, size)|
    ensures forall i | 0 <= i < |Chunks(docs, size)| :: ReadsAs(Chunks(docs, size)[i], Chunks(js, size)[i])
    decreases |docs|
  {
    if |docs| > size {
      ChunksReadAs(docs[size..], js[size..], size);
    }
  }

  lemma AllSomeOf<T>(options: seq<Option<T>>, values: seq<T>)
    requires |options| == |values| && forall i | 0 <= i < |options| :: options[i] == Some(values[i])
    ensures AllSome(options) == Some(values)
  {
    assert seq(|options|, i requires 0 <= i < |options| => options[i].value) == values;
  }

  lemma JoinedArrays(parts: seq<Json>, runs: seq<seq<Json>>)
    requires |parts| == |runs| && forall i | 0 <= i < |parts| :: parts[i] == JArray(runs[i])
    ensures Joined(Some(parts)) == Some(JArray(Flatten(runs)))
  {
    assert seq(|parts|, i requires 0 <= i < |parts| => parts[i].elements) == runs;
  }

  /** Chunk structure is invisible to a reader, and list elements that are lists stay elements. */
  lemma {:induction false} BuildReadsAs(docs: seq<Doc>, js: seq<Json>, h: nat)
    requires ReadsAs(docs, js)
    ensures DocJson(Build(docs, h)) == Some(JArray(js))
    decreases h
  {
    if h == 0 {
      AllSomeOf(seq(|docs|, i requires 0 <= i < |docs| => DocJson(docs[i])), js);
    } else {
      var runs, jruns := Chunks(docs, Pow(h)), Chunks(js, Pow(h));
      ChunksReadAs(docs, js, Pow(h));
      var chunks := BuildAll(runs, h - 1);
      var parts := seq(|jruns|, i requires 0 <= i < |jruns| => JArray(jruns[i]));
      forall i | 0 <= i < |runs| ensures DocJson(chunks[i]) == Some(parts[i]) {
        BuildReadsAs(runs[i], jruns[i], h - 1);
      }
      AllSomeOf(seq(|chunks|, i requires 0 <= i < |chunks| => DocJson(chunks[i])), parts);
      JoinedArrays(parts, jruns);
      FlattenChunks(js, Pow(h));
    }
  }

  lemma AllSomeAt<T>(options: seq<Option<T>>, values: seq<T>)
    requires AllSome(options) == Some(values)
    ensures |options| == |values| && forall i | 0 <= i < |options| :: options[i] == Some(values[i])
  {}

  /** Decoding what was encoded gives the JSON normal form. */
  lemma {:induction false} DocReadsAsNormal(enc: Encoders, views: Views, v: Value, d: Doc)
    requires PlainEncoders(enc) && DocOf(enc, views, v) == Some(d)
    ensures DocJson(d) == Some(Normal(enc, views, v))
    decreases if Plain(v) then 0 else 1, v
  {
    match v
    case Atom(scalar) =>
    case Listing(_, elements) =>
      var options := seq(|elements|, i requires 0 <= i < |elements| => DocOf(enc, views, elements[i]));
      var docs := AllSome(options).value;
      AllSomeAt(options, docs);
      forall i | 0 <= i < |elements| ensures DocJson(docs[i]) == Some(Normal(enc, views, elements[i])) {
        assert options[i] == Some(docs[i]);
        DocReadsAsNormal(enc, views, elements[i], docs[i]);
      }
      BuildReadsAs(docs, Normal(enc, views, v).elements, Height(|docs|));
    case Dict(entries) =>
      DictReadsAsNormal(enc, views, v, d);
    case Sequence(source, encoder, length) =>
      var records := views[source];
      var options := seq(length, i requires 0 <= i < length =>
        DocOf(enc, map[], enc(encoder)(records[i])));
      var docs := AllSome(options).value;
      AllSomeAt(options, docs);
      forall i | 0 <= i < length
        ensures DocJson(docs[i]) == Some(Normal(enc, map[], enc(encoder)(records[i])))
      {
        assert options[i] == Some(docs[i]);
        DocReadsAsNormal(enc, map[], enc(encoder)(records[i]), docs[i]);
      }
      BuildReadsAs(docs, Normal(enc, views, v).elements, Height(|docs|));
  }

  lemma {:induction false} DictReadsAsNormal(enc: Encoders, views: Views, v: Value, d: Doc)
    requires PlainEncoders(enc) && v.Dict? && DocOf(enc, views, v) == Some(d)
    ensures DocJson(d) == Some(Normal(enc, views, v))
    decreases if Plain(v) then 0 else 1, v, 0
  {
    var entries := v.entries;
    var options := seq(|entries|, i requires 0 <= i < |entries| =>
      MemberOf(entries[i].key, DocOf(enc, views, entries[i].value)));
    var members := d.members;
    AllSomeAt(options, members);
    var js := seq(|entries|, i requires 0 <= i < |entries| => Normal(enc, views, entries[i].value));
    forall i | 0 <= i < |entries| ensures DocJson(members[i].doc) == Some(js[i]) {
      assert options[i] == Some(members[i]);
      DocReadsAsNormal(enc, views, entries[i].value, members[i].doc);
    }
    AllSomeOf(seq(|members|, i requires 0 <= i < |members| => DocJson(members[i].doc)), js);
    assert seq(|members|, i requires 0 <= i < |members| => members[i].name)
        == seq(|entries|, i requires 0 <= i < |entries| => KeyName(entries[i].key).GetOr(""));
  }

  // ---------- what can be saved, and under which names it is read ----------

  /** Scalars throughout, keys that JSON can write, lists on disk that are long enough, and records whose
      encoded values can be saved. */
  ghost predicate Savable(enc: Encoders, views: Views, v: Value)
    requires PlainEncoders(enc)
    decreases if Plain(v) then 0 else 1, v
  {
    match v
    case Atom(_) => true
    case Unsupported => false
    case Listing(_, elements) => forall i | 0 <= i < |elements| :: Savable(enc, views, elements[i])
    case Dict(entries) =>
      forall i | 0 <= i < |entries| :: !entries[i].key.OtherKey? && Savable(enc, views, entries[i].value)
    case Sequence(source, encoder, length) =>
      && source in views && length <= |views[source]|
      && forall i | 0 <= i < length :: Savable(enc, map[], enc(encoder)(views[source][i]))
  }

  lemma AllSomeIff<T>(options: seq<Option<T>>)
    ensures AllSome(options).Some? <==> forall i | 0 <= i < |options| :: options[i].Some?
  {}

  /** A value can be saved if and only if every part of it can. */
  lemma {:induction false} SavedIff(enc: Encoders, views: Views, v: Value)
    requires PlainEncoders(enc)
    ensures DocOf(enc, views, v).Some? <==> Savable(enc, views, v)
    decreases if Plain(v) then 0 else 1, v
  {
    match v
    case Listing(_, elements) =>
      var options := seq(|elements|, i requires 0 <= i < |elements| => DocOf(enc, views, elements[i]));
      AllSomeIff(options);
      forall i | 0 <= i < |elements| ensures options[i].Some? <==> Savable(enc, views, elements[i]) {
        SavedIff(enc, views, elements[i]);
      }
    case Dict(entries) => DictSavedIff(enc, views, v);
    case Sequence(source, encoder, length) =>
      if source in views && length <= |views[source]| {
        var records := views[source];
        var options := seq(length, i requires 0 <= i < length => DocOf(enc, map[], enc(encoder)(records[i])));
        AllSomeIff(options);
        forall i | 0 <= i < length ensures options[i].Some? <==> Savable(enc, map[], enc(encoder)(records[i])) {
          SavedIff(enc, map[], enc(encoder)(records[i]));
        }
      }
    case _ =>
  }

  lemma {:induction false} DictSavedIff(enc: Encoders, views: Views, v: Value)
    requires PlainEncoders(enc) && v.Dict?
    ensures DocOf(enc, views, v).Some? <==> Savable(enc, views, v)
    decreases if Plain(v) then 0 else 1, v, 0
  {
    var entries := v.entries;
    var options := seq(|entries|, i requires 0 <= i < |entries| =>
      MemberOf(entries[i].key, DocOf(enc, views, entries[i].value)));
    AllSomeIff(options);
    forall i | 0 <= i < |entries|
      ensures options[i].Some? <==> !entries[i].key.OtherKey? && Savable(enc, views, entries[i].value)
    {
      SavedIff(enc, views, entries[i].value);
    }
  }

  /** A key is written under a name: as it is, or as JSON writes null, a boolean or a number. */
  predicate WrittenAs(k: Key, name: string) {
    || k == StrKey(name) || k == NumberKey(name)
    || (k == NullKey && name == "null")
    || (k == BoolKey(true) && name == "true") || (k == BoolKey(false) && name == "false")
  }

  lemma WrittenAsIs(k: Key, name: string)
    ensures WrittenAs(k, name) <==> KeyName(k) == Some(name)
  {}

  /** Of equal names the last one counts. */
  lemma {:induction false} FoldLast(names: seq<string>, values: seq<Json>)
    requires |names| == |values|
    ensures forall name :: name in Fold(names, values) <==> name in names
    ensures forall i | 0 <= i < |names| && names[i] !in names[i + 1..] :: Fold(names, values)[names[i]] == values[i]
  {
    if names != [] {
      var n := |names| - 1;
      FoldLast(names[..n], values[..n]);
      assert names == names[..n] + [names[n]];
      forall i | 0 <= i < n && names[i] !in names[i + 1..]
        ensures names[i] !in names[..n][i + 1..] && names[i] != names[n]
      {
        assert names[i + 1..] == names[..n][i + 1..] + [names[n]];
      }
    }
  }

  /** A saved dict is read back with a field for each name its keys are written under, holding what the last
      entry of that name reads as. */
  lemma DictReadsFields(enc: Encoders, views: Views, entries: seq<Entry>, d: Doc)
    requires PlainEncoders(enc) && DocOf(enc, views, Dict(entries)) == Some(d)
    ensures DocJson(d).Some? && DocJson(d).value.JObject?
    ensures var fields := DocJson(d).value.fields;
            && (forall name :: name in fields <==> exists i | 0 <= i < |entries| :: WrittenAs(entries[i].key, name))
            && forall i, name | 0 <= i < |entries| && WrittenAs(entries[i].key, name)
                                && (forall j | i < j < |entries| :: !WrittenAs(entries[j].key, name)) ::
                 name in fields && fields[name] == Normal(enc, views, entries[i].value)
  {
    hide Normal, DocOf, DocJson, Fold, KeyName, WrittenAs;
    DocReadsAsNormal(enc, views, Dict(entries), d);
    var names := seq(|entries|, i requires 0 <= i < |entries| => KeyName(entries[i].key).GetOr(""));
    var values := seq(|entries|, i requires 0 <= i < |entries| => Normal(enc, views, entries[i].value));
    DictIsNormal(enc, views, entries, names, values);
    KeysNamed(enc, views, entries);
    FoldLast(names, values);
    FieldsNamed(entries, names, values);
  }

  lemma DictIsNormal(enc: Encoders, views: Views, entries: seq<Entry>, names: seq<string>, values: seq<Json>)
    requires PlainEncoders(enc) && |names| == |values| == |entries|
    requires forall i | 0 <= i < |entries| :: names[i] == KeyName(entries[i].key).GetOr("")
    requires forall i | 0 <= i < |entries| :: values[i] == Normal(enc, views, entries[i].value)
    ensures Normal(enc, views, Dict(entries)) == JObject(Fold(names, values))
  {
    var v := Dict(entries);
    assert names == seq(|v.entries|, i requires 0 <= i < |v.entries| => KeyName(v.entries[i].key).GetOr(""));
    assert values == seq(|v.entries|, i requires 0 <= i < |v.entries| => Normal(enc, views, v.entries[i].value));
  }

  lemma FieldsNamed(entries: seq<Entry>, names: seq<string>, values: seq<Json>)
    requires |names| == |values| == |entries|
    requires forall i, name | 0 <= i < |entries| :: WrittenAs(entries[i].key, name) <==> name == names[i]
    ensures forall name :: name in Fold(names, values) <==>
              exists i | 0 <= i < |entries| :: WrittenAs(entries[i].key, name)
    ensures forall i, name | 0 <= i < |entries| && WrittenAs(entries[i].key, name)
                             && (forall j | i < j < |entries| :: !WrittenAs(entries[j].key, name)) ::
              name in Fold(names, values) && Fold(names, values)[name] == values[i]
  {
    FoldLast(names, values);
    hide Fold, WrittenAs;
    forall name ensures name in names <==> exists i | 0 <= i < |entries| :: WrittenAs(entries[i].key, name) {
      if i :| 0 <= i < |entries| && WrittenAs(entries[i].key, name) { assert names[i] == name; }
      if i :| 0 <= i < |names| && names[i] == name { assert WrittenAs(entries[i].key, name); }
    }
    forall i, name | 0 <= i < |entries| && WrittenAs(entries[i].key, name)
                     && (forall j | i < j < |entries| :: !WrittenAs(entries[j].key, name))
      ensures name == names[i] && names[i] in names && names[i] !in names[i + 1..]
    {
      forall j | i < j < |names| ensures names[j] != names[i] { assert !WrittenAs(entries[j].key, name); }
    }
  }

  lemma KeysNamed(enc: Encoders, views: Views, entries: seq<Entry>)
    requires PlainEncoders(enc) && DocOf(enc, views, Dict(entries)).Some?
    ensures forall i, name | 0 <= i < |entries| ::
              WrittenAs(entries[i].key, name) <==> name == KeyName(entries[i].key).GetOr("")
  {
    SavedIff(enc, views, Dict(entries));
    forall i, name | 0 <= i < |entries|
      ensures WrittenAs(entries[i].key, name) <==> name == KeyName(entries[i].key).GetOr("")
    {
      assert !entries[i].key.OtherKey?;
      WrittenAsIs(entries[i].key, name);
    }
  }
}
