/** JSON documents, reading them by pointer, and seeing them through a schema (dynamic.rs `content`,
    `typed`). */
module Json {
  import opened Kube
  import opened Decimals
  import opened Pointers

  /** A number is a whole one as the text had it, or a fraction. */
  datatype Json =
    | Null
    | Bool(flag: bool)
    | Whole(whole: int)
    | Fraction(fraction: real)
    | Str(text: string)
    | Arr(items: seq<Json>)
    | Obj(entries: map<string, Json>)

  // ---- places -----------------------------------------------------------------------------------------------

  /** An array index, as section 4 of RFC 6901 writes one. */
  function Index(token: string): Option<nat> {
    if Canonical(token) then Some(Number(token)) else None
  }

  /** What is one token down. */
  function Child(tree: Json, token: string): Option<Json> {
    match tree
    case Obj(entries) => if token in entries then Some(entries[token]) else None
    case Arr(items) =>
      if Index(token).Some? && Index(token).value < |items| then Some(items[Index(token).value]) else None
    case _ => None
  }

  /** What is at the end of a list of tokens. */
  function At(tree: Json, tokens: seq<string>): Option<Json>
    decreases |tokens|
  {
    if tokens == [] then Some(tree)
    else
      var child := Child(tree, tokens[0]);
      if child.None? then None else At(child.value, tokens[1..])
  }

  /** `Value::pointer`. */
  function Lookup(tree: Json, pointer: string): Option<Json> {
    var tokens := Split(pointer);
    if tokens.None? then None else At(tree, tokens.value)
  }

  /** Every place has a pointer of its own, and reading by it gets there. */
  lemma PlacesHavePointers(tree: Json, p: seq<string>, q: seq<string>)
    ensures Lookup(tree, Join(p)) == At(tree, p)
    ensures p != q ==> Join(p) != Join(q)
  {
    SplitJoin(p);
    SplitJoin(q);
  }

  // ---- typed values -----------------------------------------------------------------------------------------

  datatype Value =
    | Nothing
    | Flag(flag: bool)
    | Int(whole: int)
    | Float(fraction: real)
    | Instant(instant: nat)
    | Text(text: string)
    | List(items: seq<Value>)
    | Map(entries: map<string, Value>)

  /** What the schema says, and how instants are read and written: which pointers carry the `date-time`
      format, what a text parses to, and how that prints. */
  datatype Projection = Projection(dateTime: string -> bool, parse: string -> Option<nat>, show: nat -> string)

  predicate FitsI64(n: int) {
    -0x8000_0000_0000_0000 <= n <= 0x7FFF_FFFF_FFFF_FFFF
  }

  function Typed(projection: Projection, pointer: string, value: Json): Value
    decreases value
  {
    match value
    case Null => Nothing
    case Bool(flag) => Flag(flag)
    case Whole(n) => if FitsI64(n) then Int(n) else Float(n as real)
    case Fraction(f) => Float(f)
    case Str(text) =>
      if projection.dateTime(pointer) && projection.parse(text).Some?
      then Instant(projection.parse(text).value) else Text(text)
    case Arr(items) =>
      List(seq(|items|, i requires 0 <= i < |items| => Typed(projection, pointer + "/" + Decimal(i), items[i])))
    case Obj(entries) =>
      Map(map name | name in entries :: Typed(projection, pointer + "/" + Escape(name), entries[name]))
  }

  /** The document a value is a reading of. */
  function Erased(projection: Projection, value: Value): Json
    decreases value
  {
    match value
    case Nothing => Null
    case Flag(flag) => Bool(flag)
    case Int(n) => Whole(n)
    case Float(f) => Fraction(f)
    case Instant(instant) => Str(projection.show(instant))
    case Text(text) => Str(text)
    case List(items) => Arr(seq(|items|, i requires 0 <= i < |items| => Erased(projection, items[i])))
    case Map(entries) => Obj(map name | name in entries :: Erased(projection, entries[name]))
  }

  /** Every whole number fits `i64`, and every text read as an instant is how that instant prints. */
  predicate Plain(projection: Projection, pointer: string, value: Json)
    decreases value
  {
    match value
    case Whole(n) => -9_223_372_036_854_775_808 <= n <= 9_223_372_036_854_775_807
    case Str(text) =>
      projection.dateTime(pointer) && projection.parse(text).Some? ==>
        projection.show(projection.parse(text).value) == text
    case Arr(items) => forall i :: 0 <= i < |items| ==> Plain(projection, pointer + "/" + Decimal(i), items[i])
    case Obj(entries) =>
      forall name :: name in entries ==> Plain(projection, pointer + "/" + Escape(name), entries[name])
    case _ => true
  }

  /** Typing loses nothing, exactly when the document is plain. */
  lemma {:induction false} ErasedTyped(projection: Projection, pointer: string, value: Json)
    ensures Erased(projection, Typed(projection, pointer, value)) == value <==> Plain(projection, pointer, value)
    decreases value
  {
    hide Decimal, Escape;
    match value
    case Arr(items) =>
      var back := Erased(projection, Typed(projection, pointer, value)).items;
      forall i | 0 <= i < |items|
        ensures back[i] == items[i] <==> Plain(projection, pointer + "/" + Decimal(i), items[i])
      {
        ErasedTyped(projection, pointer + "/" + Decimal(i), items[i]);
      }
      assert back == items <==> forall i :: 0 <= i < |items| ==> back[i] == items[i];
    case Obj(entries) =>
      var back := Erased(projection, Typed(projection, pointer, value)).entries;
      assert back.Keys == entries.Keys;
      forall name | name in entries
        ensures back[name] == entries[name] <==> Plain(projection, pointer + "/" + Escape(name), entries[name])
      {
        ErasedTyped(projection, pointer + "/" + Escape(name), entries[name]);
      }
      assert back == entries <==> forall name :: name in entries ==> back[name] == entries[name];
    case _ =>
  }

  function ChildValue(value: Value, token: string): Option<Value> {
    match value
    case Map(entries) => if token in entries then Some(entries[token]) else None
    case List(items) =>
      if Index(token).Some? && Index(token).value < |items| then Some(items[Index(token).value]) else None
    case _ => None
  }

  function ValueAt(value: Value, tokens: seq<string>): Option<Value>
    decreases |tokens|
  {
    if tokens == [] then Some(value)
    else
      var child := ChildValue(value, tokens[0]);
      if child.None? then None else ValueAt(child.value, tokens[1..])
  }

  lemma ChildTyped(projection: Projection, at: seq<string>, value: Json, token: string)
    ensures ChildValue(Typed(projection, Join(at), value), token) ==
      match Child(value, token)
      case None => None
      case Some(child) => Some(Typed(projection, Join(at + [token]), child))
  {
    hide Join, Escape;
    JoinAppend(at, token);
    if value.Arr? && Index(token).Some? {
      DecimalOfNumber(token);
      assert Escape(token) == token by { DigitsPlain(token); }
    }
  }

  lemma DigitsPlain(token: string)
    requires AllDigits(token)
    ensures Escape(token) == token
  {
    EscapeHasNoSlash(token);
  }

  /** Every node is typed under its own pointer: reading a place of the typed document is typing what the
      document holds there, under the pointer of that place. */
  lemma {:induction false} TypedEverywhere(projection: Projection, at: seq<string>, value: Json, tokens: seq<string>)
    ensures ValueAt(Typed(projection, Join(at), value), tokens) ==
      match At(value, tokens)
      case None => None
      case Some(node) => Some(Typed(projection, Join(at + tokens), node))
    decreases |tokens|
  {
    hide Join, Typed, Child, ChildValue;
    if tokens == [] {
      assert at + tokens == at;
    } else {
      ChildTyped(projection, at, value, tokens[0]);
      var child := Child(value, tokens[0]);
      if child.Some? {
        TypedEverywhere(projection, at + [tokens[0]], child.value, tokens[1..]);
        assert at + [tokens[0]] + tokens[1..] == at + tokens;
      }
    }
  }

  // ---- an object's content ----------------------------------------------------------------------------------

  /** `spec`, `status`, and every other field but the identity and the metadata. */
  datatype Content = Content(desired: Value, observed: Value, other: Value)

  const APART: set<string> := {"apiVersion", "kind", "metadata", "spec", "status"}

  function Field(native: Json, name: string): Json {
    if native.Obj? && name in native.entries then native.entries[name] else Null
  }

  function Subtree(projection: Projection, native: Json, name: string): Value {
    if Field(native, name).Null? then Nothing else Typed(projection, "/" + name, Field(native, name))
  }

  /** Every other top-level field, typed. */
  function Others(projection: Projection, entries: map<string, Json>): map<string, Value> {
    map name | name in entries && name !in APART :: Typed(projection, "/" + name, entries[name])
  }

  function ContentOf(projection: Projection, native: Json): Content {
    var other := Others(projection, if native.Obj? then native.entries else map[]);
    Content(Subtree(projection, native, "spec"), Subtree(projection, native, "status"),
            if other == map[] then Nothing else Map(other))
  }

  /** The fields a content reports, as a document again. */
  function Reported(projection: Projection, content: Content): map<string, Json> {
    (if content.other.Map? then Erased(projection, content.other).entries else map[])
    + (if content.desired.Nothing? then map[] else map["spec" := Erased(projection, content.desired)])
    + (if content.observed.Nothing? then map[] else map["status" := Erased(projection, content.observed)])
  }

  /** The fields a content is to report: all but the identity, the metadata, and a null `spec` or `status`. */
  predicate Reports(entries: map<string, Json>, name: string) {
    && name in entries && name !in {"apiVersion", "kind", "metadata"}
    && (name in {"spec", "status"} ==> !entries[name].Null?)
  }

  /** The fields the third part of a content reports. */
  function Rest(content: Content): set<string> {
    if content.other.Map? then content.other.entries.Keys else {}
  }

  /** Whatever the values are, each field that is to be reported lies in exactly one of the three parts: `spec`
      and `status` each in its own, every other one in the third; and nothing else lies in any of them. */
  lemma FieldsLand(projection: Projection, native: Json)
    requires native.Obj?
    ensures var content := ContentOf(projection, native);
      && (content.desired.Nothing? <==> !Reports(native.entries, "spec"))
      && (content.observed.Nothing? <==> !Reports(native.entries, "status"))
      && Rest(content) == (set name | name in native.entries && Reports(native.entries, name)) - {"spec", "status"}
      && (content.other.Nothing? || content.other == Map(Others(projection, native.entries)))
      && (content.other.Nothing? <==> Rest(content) == {})
  {
    hide Typed;
    if "spec" in native.entries { TypedNothing(projection, "/spec", native.entries["spec"]); }
    if "status" in native.entries { TypedNothing(projection, "/status", native.entries["status"]); }
    assert "/" + "spec" == "/spec" && "/" + "status" == "/status";
    assert Others(projection, native.entries).Keys
        == (set name | name in native.entries && Reports(native.entries, name)) - {"spec", "status"};
  }

  /** Put together again, the parts are the fields that are to be reported, always; and a field is given back as
      the object has it exactly when its value is plain. */
  lemma ContentPartitions(projection: Projection, native: Json, name: string)
    requires native.Obj?
    ensures name in Reported(projection, ContentOf(projection, native)) <==> Reports(native.entries, name)
    ensures Reports(native.entries, name) ==>
      (Reported(projection, ContentOf(projection, native))[name] == native.entries[name] <==>
         Plain(projection, "/" + name, native.entries[name]))
  {
    hide Typed, Erased, Plain, Reports, Rest;
    FieldsLand(projection, native);
    var content := ContentOf(projection, native);
    if content.other.Map? { ErasedMap(projection, content.other.entries); }
    WhereReported(projection, content, name);
    WhereLanded(native, content, name);
    if name in native.entries { ErasedTyped(projection, "/" + name, native.entries[name]); }
  }

  lemma WhereReported(projection: Projection, content: Content, name: string)
    requires content.other.Map? || content.other.Nothing?
    requires content.other.Map? ==>
      Erased(projection, content.other) ==
        Obj(map n | n in content.other.entries :: Erased(projection, content.other.entries[n]))
    requires "spec" !in Rest(content) && "status" !in Rest(content)
    ensures name in Reported(projection, content) <==>
      name in Rest(content)
      || (name == "spec" && !content.desired.Nothing?) || (name == "status" && !content.observed.Nothing?)
    ensures name in Rest(content) ==>
      Reported(projection, content)[name] == Erased(projection, content.other.entries[name])
    ensures name == "spec" && !content.desired.Nothing? ==>
      Reported(projection, content)[name] == Erased(projection, content.desired)
    ensures name == "status" && !content.observed.Nothing? ==>
      Reported(projection, content)[name] == Erased(projection, content.observed)
  {
    hide Erased;
  }

  lemma WhereLanded(native: Json, content: Content, name: string)
    requires native.Obj?
    requires Rest(content) == (set n | n in native.entries && Reports(native.entries, n)) - {"spec", "status"}
    ensures name in Rest(content) <==> Reports(native.entries, name) && name != "spec" && name != "status"
    ensures name in Rest(content) ==> name in native.entries && name !in APART
  {
    hide Rest;
  }

  lemma TypedNothing(projection: Projection, pointer: string, value: Json)
    ensures Typed(projection, pointer, value).Nothing? <==> value.Null?
  {
  }

  lemma ErasedMap(projection: Projection, entries: map<string, Value>)
    ensures Erased(projection, Map(entries)) == Obj(map name | name in entries :: Erased(projection, entries[name]))
  {
  }

  /** Under a top-level name that needs no escaping, every node of a content is typed under its own
      pointer; `content` does not escape the name, and any other name would need it. */
  lemma TopLevelPointers(projection: Projection, name: string, value: Json, tokens: seq<string>)
    ensures "/" + name == Join([name]) <==> '~' !in name && '/' !in name
    ensures '~' !in name && '/' !in name ==>
      ValueAt(Typed(projection, "/" + name, value), tokens) ==
        match At(value, tokens)
        case None => None
        case Some(node) => Some(Typed(projection, Join([name] + tokens), node))
  {
    hide Join, Typed, ValueAt;
    PlainName(name);
    TypedEverywhere(projection, [name], value, tokens);
  }
}
