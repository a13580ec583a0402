/** The curated actions (planning.rs `Intent::action`): from what was asked and the object that was read to
    a list of field changes. */
module Planning {
  import opened Kube
  import opened Decimals
  import opened Json
  import opened Pointers
  import opened Edits

  datatype Target = Target(native: Json, resourceVersion: Option<string>)

  datatype MapField = Labels | Annotations

  datatype Wanted =
    | SetFields(put: seq<(string, Json)>, unset: seq<string>)
    | Scale(replicas: int)
    | SetImage(images: seq<(string, string)>)
    | RestartRollout
    | Schedulable(allowed: bool)
    | Metadata(field: MapField, pairs: seq<(string, Option<string>)>)

  datatype Fault = NoContainers | NoSuchContainer(name: string) | NoTemplate

  datatype Result<T> = Ok(value: T) | Err(fault: Fault)

  // The places the actions write, by the tokens of their pointers: `/spec/replicas` and so on.

  const REPLICAS := ["spec", "replicas"]
  const UNSCHEDULABLE := ["spec", "unschedulable"]
  const TEMPLATE := ["spec", "template"]
  const TEMPLATE_CONTAINERS := ["spec", "template", "spec", "containers"]
  const POD_CONTAINERS := ["spec", "containers"]
  const MARKER_NAME := "ono-sendai.io" + ("/" + "restarted-from-resource-version")
  const RESTART_MARKER := ["spec", "template", "metadata", "annotations", MARKER_NAME]
  const LABELS := ["metadata", "labels"]
  const ANNOTATIONS := ["metadata", "annotations"]

  predicate Unescaped(tokens: seq<string>) {
    forall i :: 0 <= i < |tokens| ==> '~' !in tokens[i] && '/' !in tokens[i]
  }

  /** Tokens with a slash before each. */
  function Slashed(tokens: seq<string>): string {
    if tokens == [] then "" else "/" + tokens[0] + Slashed(tokens[1..])
  }

  lemma {:induction false} JoinSlashed(tokens: seq<string>)
    requires Unescaped(tokens)
    ensures Join(tokens) == Slashed(tokens)
  {
    hide Escape;
    if tokens != [] {
      EscapeHasNoSlash(tokens[0]);
      JoinSlashed(tokens[1..]);
    }
  }

  lemma TwoSlashed(a: string, b: string)
    ensures Slashed([a, b]) == "/" + a + "/" + b
  {
    assert [a, b][1..] == [b] && [b][1..] == [];
    assert Slashed([b]) == "/" + b;
    assert "/" + a + ("/" + b) == "/" + a + "/" + b;
  }

  lemma FourSlashed(a: string, b: string, c: string, d: string)
    ensures Slashed([a, b, c, d]) == "/" + a + "/" + b + "/" + c + "/" + d
  {
    hide Slashed;
    TwoSlashed(c, d);
    FirstSlashed(b, [c, d]);
    FirstSlashed(a, [b, c, d]);
    assert [b] + [c, d] == [b, c, d] && [a] + [b, c, d] == [a, b, c, d];
    assert "/" + a + ("/" + b + ("/" + c + "/" + d)) == "/" + a + "/" + b + "/" + c + "/" + d;
  }

  lemma FirstSlashed(a: string, rest: seq<string>)
    ensures Slashed([a] + rest) == "/" + a + Slashed(rest)
  {
    assert ([a] + rest)[1..] == rest;
  }

  lemma TwoJoined(a: string, b: string)
    requires Unescaped([a, b])
    ensures Join([a, b]) == "/" + a + "/" + b
  {
    hide Join, Slashed;
    JoinSlashed([a, b]);
    TwoSlashed(a, b);
  }

  lemma FourJoined(a: string, b: string, c: string, d: string)
    requires Unescaped([a, b, c, d])
    ensures Join([a, b, c, d]) == "/" + a + "/" + b + "/" + c + "/" + d
  {
    hide Join, Slashed;
    JoinSlashed([a, b, c, d]);
    FourSlashed(a, b, c, d);
  }

  /** The pointers that are written. */
  lemma PlacesAreSpelled()
    ensures Join(REPLICAS) == "/" + "spec" + "/" + "replicas"
    ensures Join(UNSCHEDULABLE) == "/" + "spec" + "/" + "unschedulable"
    ensures Join(FieldTokens(Labels)) == "/" + "metadata" + "/" + "labels"
    ensures Join(FieldTokens(Annotations)) == "/" + "metadata" + "/" + "annotations"
    ensures Join(POD_CONTAINERS) == "/" + "spec" + "/" + "containers"
    ensures Join(TEMPLATE_CONTAINERS) == "/" + "spec" + "/" + "template" + "/" + "spec" + "/" + "containers"
  {
    hide Join;
    TwoJoined("spec", "replicas");
    TwoJoined("spec", "unschedulable");
    TwoJoined("metadata", "labels");
    TwoJoined("metadata", "annotations");
    TwoJoined("spec", "containers");
    FourJoined("spec", "template", "spec", "containers");
  }

  /** The slash in the name of the restart marker is escaped. */
  lemma MarkerIsSpelled()
    ensures Join(RESTART_MARKER) ==
      "/" + "spec" + "/" + "template" + "/" + "metadata" + "/" + "annotations"
      + "/" + ("ono-sendai.io" + ("~1" + "restarted-from-resource-version"))
  {
    hide Join, Escape;
    var front := ["spec", "template", "metadata", "annotations"];
    assert RESTART_MARKER == front + [MARKER_NAME];
    JoinAppend(front, MARKER_NAME);
    FourJoined("spec", "template", "metadata", "annotations");
    EscapeAround("ono-sendai.io", "restarted-from-resource-version");
  }

  lemma EscapeAround(a: string, b: string)
    requires '~' !in a && '/' !in a && '~' !in b && '/' !in b
    ensures Escape(a + ("/" + b)) == a + ("~1" + b)
  {
    ReplacedJoin(a, "/" + b, '~', "~0");
    ReplacedJoin("/", b, '~', "~0");
    EscapeHasNoSlash(a);
    EscapeHasNoSlash(b);
    ReplacedNothing(a, '~', "~0");
    ReplacedNothing(b, '~', "~0");
    ReplacedJoin(a, "/" + b, '/', "~1");
    ReplacedJoin("/", b, '/', "~1");
    ReplacedNothing(a, '/', "~1");
    ReplacedNothing(b, '/', "~1");
    assert "/"[1..] == "";
  }

  lemma {:induction false} ReplacedNothing(text: string, c: char, with: string)
    requires c !in text
    ensures Replaced(text, c, with) == text
    decreases |text|
  {
    if text != "" { ReplacedNothing(text[1..], c, with); }
  }

  function FieldTokens(field: MapField): seq<string> {
    if field.Labels? then LABELS else ANNOTATIONS
  }

  /** Setting a place, with a record of what it held. */
  function Against(native: Json, path: string, wanted: Json): FieldChange {
    FieldChange(path, Lookup(native, path), Some(wanted))
  }

  function ContainerBase(native: Json): Option<string> {
    if Lookup(native, Join(TEMPLATE_CONTAINERS)).Some? then Some(Join(TEMPLATE_CONTAINERS))
    else if Lookup(native, Join(POD_CONTAINERS)).Some? then Some(Join(POD_CONTAINERS))
    else None
  }

  function NameOf(entry: Json): Option<string> {
    if entry.Obj? && "name" in entry.entries && entry.entries["name"].Str?
    then Some(entry.entries["name"].text) else None
  }

  /** The names of the entries that have one: an entry without one takes no position. */
  function Named(entries: seq<Json>): seq<string>
    decreases |entries|
  {
    if entries == [] then []
    else Named(entries[..|entries| - 1]) +
         if NameOf(entries[|entries| - 1]).Some? then [NameOf(entries[|entries| - 1]).value] else []
  }

  function Position(names: seq<string>, name: string): Option<nat>
  {
    if names == [] then None
    else if names[0] == name then Some(0)
    else
      var rest := Position(names[1..], name);
      if rest.None? then None else Some(rest.value + 1)
  }

  function ContainerIndex(native: Json, base: string, container: string): Option<nat> {
    var list := Lookup(native, base);
    Position(Named(if list.Some? && list.value.Arr? then list.value.items else []), container)
  }

  function EntryPath(base: string, at: nat, field: string): string {
    base + "/" + Decimal(at) + "/" + field
  }

  /** The name travels with the image, since lists are merged by it. */
  function ImageChange(native: Json, base: string, at: nat, container: string, image: string): seq<FieldChange> {
    [Against(native, EntryPath(base, at, "name"), Str(container)),
     Against(native, EntryPath(base, at, "image"), Str(image))]
  }

  function ImageChanges(native: Json, base: string, images: seq<(string, string)>): Result<seq<FieldChange>>
    decreases |images|
  {
    if images == [] then Ok([])
    else
      var front, (container, image) := ImageChanges(native, base, images[..|images| - 1]), images[|images| - 1];
      if front.Err? then front
      else
        var at := ContainerIndex(native, base, container);
        if at.None? then Err(NoSuchContainer(container))
        else Ok(front.value + ImageChange(native, base, at.value, container, image))
  }

  /** A value is set whether or not the key is there; a removal needs something to remove. */
  function PairChange(native: Json, field: string, pair: (string, Option<string>)): seq<FieldChange> {
    var path := field + "/" + Escape(pair.0);
    if pair.1.Some? then [Against(native, path, Str(pair.1.value))]
    else if Lookup(native, path).Some? then [FieldChange(path, Lookup(native, path), None)]
    else []
  }

  function PairChanges(native: Json, field: string, pairs: seq<(string, Option<string>)>): seq<FieldChange>
    decreases |pairs|
  {
    if pairs == [] then []
    else PairChanges(native, field, pairs[..|pairs| - 1]) + PairChange(native, field, pairs[|pairs| - 1])
  }

  function SetChanges(native: Json, put: seq<(string, Json)>): seq<FieldChange>
    decreases |put|
  {
    if put == [] then []
    else SetChanges(native, put[..|put| - 1]) + [Against(native, put[|put| - 1].0, put[|put| - 1].1)]
  }

  function UnsetChanges(native: Json, unset: seq<string>): seq<FieldChange>
    decreases |unset|
  {
    if unset == [] then []
    else
      var front, path := UnsetChanges(native, unset[..|unset| - 1]), unset[|unset| - 1];
      front + if Lookup(native, path).Some? then [FieldChange(path, Lookup(native, path), None)] else []
  }

  function Changes(target: Target, wanted: Wanted): Result<seq<FieldChange>> {
    var native := target.native;
    match wanted
    case SetFields(put, unset) => Ok(SetChanges(native, put) + UnsetChanges(native, unset))
    case Scale(replicas) => Ok([Against(native, Join(REPLICAS), Whole(replicas))])
    case SetImage(images) =>
      if ContainerBase(native).None? then Err(NoContainers)
      else ImageChanges(native, ContainerBase(native).value, images)
    case RestartRollout =>
      if Lookup(native, Join(TEMPLATE)).None? then Err(NoTemplate)
      else
        var token := if target.resourceVersion.Some? then target.resourceVersion.value else "unknown";
        Ok([Against(native, Join(RESTART_MARKER), Str(token))])
    case Schedulable(allowed) => Ok([Against(native, Join(UNSCHEDULABLE), Bool(!allowed))])
    case Metadata(field, pairs) => Ok(PairChanges(native, Join(FieldTokens(field)), pairs))
  }

  method Action(target: Target, wanted: Wanted) returns (changes: Result<seq<FieldChange>>)
    ensures changes == Changes(target, wanted)
  {
    hide Lookup, Against, Escape, EntryPath, ContainerIndex, ContainerBase;
    var native, list := target.native, [];
    match wanted
    case SetFields(put, unset) =>
      for i := 0 to |put|
        invariant list == SetChanges(native, put[..i])
      {
        assert put[..i + 1][..i] == put[..i];
        list := list + [Against(native, put[i].0, put[i].1)];
      }
      assert put[..|put|] == put;
      for i := 0 to |unset|
        invariant list == SetChanges(native, put) + UnsetChanges(native, unset[..i])
      {
        assert unset[..i + 1][..i] == unset[..i];
        var held := Lookup(native, unset[i]);
        if held.Some? { list := list + [FieldChange(unset[i], held, None)]; }
      }
      assert unset[..|unset|] == unset;
      return Ok(list);
    case Scale(replicas) => return Ok([Against(native, Join(REPLICAS), Whole(replicas))]);
    case SetImage(images) =>
      var base := ContainerBase(native);
      if base.None? { return Err(NoContainers); }
      for i := 0 to |images|
        invariant ImageChanges(native, base.value, images[..i]) == Ok(list)
      {
        assert images[..i + 1][..i] == images[..i];
        var (container, image) := images[i];
        var at := ContainerIndex(native, base.value, container);
        if at.None? {
          FirstFailure(native, base.value, images, i + 1);
          return Err(NoSuchContainer(container));
        }
        list := list + ImageChange(native, base.value, at.value, container, image);
      }
      assert images[..|images|] == images;
      return Ok(list);
    case RestartRollout =>
      if Lookup(native, Join(TEMPLATE)).None? { return Err(NoTemplate); }
      var token := if target.resourceVersion.Some? then target.resourceVersion.value else "unknown";
      return Ok([Against(native, Join(RESTART_MARKER), Str(token))]);
    case Schedulable(allowed) => return Ok([Against(native, Join(UNSCHEDULABLE), Bool(!allowed))]);
    case Metadata(field, pairs) =>
      for i := 0 to |pairs|
        invariant list == PairChanges(native, Join(FieldTokens(field)), pairs[..i])
      {
        assert pairs[..i + 1][..i] == pairs[..i];
        var (key, value) := pairs[i];
        var path := Join(FieldTokens(field)) + "/" + Escape(key);
        if value.Some? {
          list := list + [Against(native, path, Str(value.value))];
        } else if Lookup(native, path).Some? {
          list := list + [FieldChange(path, Lookup(native, path), None)];
        }
      }
      assert pairs[..|pairs|] == pairs;
      return Ok(list);
  }

  lemma {:induction false} FirstFailure(native: Json, base: string, images: seq<(string, string)>, i: nat)
    requires i <= |images| && ImageChanges(native, base, images[..i]).Err?
    ensures ImageChanges(native, base, images) == ImageChanges(native, base, images[..i])
    decreases |images|
  {
    if i < |images| {
      var front := images[..|images| - 1];
      assert front[..i] == images[..i];
      FirstFailure(native, base, front, i);
    } else {
      assert images[..i] == images;
    }
  }

  // ---- which container --------------------------------------------------------------------------------------

  lemma {:induction false} PositionIs(names: seq<string>, name: string, at: nat)
    requires at < |names| && names[at] == name && name !in names[..at]
    ensures Position(names, name) == Some(at)
    decreases at
  {
    if at > 0 {
      assert names[0] in names[..at];
      assert names[..at] == [names[0]] + names[1..][..at - 1];
      PositionIs(names[1..], name, at - 1);
    }
  }

  lemma {:induction false} PositionNone(names: seq<string>, name: string)
    ensures Position(names, name).None? <==> name !in names
  {
    if names != [] {
      PositionNone(names[1..], name);
      assert names == [names[0]] + names[1..];
    }
  }

  lemma {:induction false} NamedPrefix(entries: seq<Json>, k: nat)
    requires k <= |entries|
    ensures Named(entries[..k]) <= Named(entries)
    decreases |entries|
  {
    hide NameOf;
    if k < |entries| {
      var front := entries[..|entries| - 1];
      assert front[..k] == entries[..k];
      NamedPrefix(front, k);
    } else {
      assert entries[..k] == entries;
    }
  }

  lemma {:induction false} NamedIs(entries: seq<Json>)
    ensures |Named(entries)| <= |entries|
    ensures |Named(entries)| == |entries| <==> forall i :: 0 <= i < |entries| ==> NameOf(entries[i]).Some?
    ensures forall n :: n in Named(entries) <==> exists i :: 0 <= i < |entries| && NameOf(entries[i]) == Some(n)
    decreases |entries|
  {
    hide NameOf;
    if entries != [] {
      var front, last := entries[..|entries| - 1], entries[|entries| - 1];
      NamedIs(front);
      assert entries == front + [last];
      forall n ensures n in Named(entries) <==> exists i :: 0 <= i < |entries| && NameOf(entries[i]) == Some(n) {
        if NameOf(last) == Some(n) { assert NameOf(entries[|entries| - 1]) == Some(n); }
        if i :| 0 <= i < |front| && NameOf(front[i]) == Some(n) { assert NameOf(entries[i]) == Some(n); }
      }
    }
  }

  /** The first entry of that name. */
  predicate FirstNamed(entries: seq<Json>, name: string, k: nat) {
    k < |entries| && NameOf(entries[k]) == Some(name) && forall i :: 0 <= i < k ==> NameOf(entries[i]) != Some(name)
  }

  predicate AllNamed(entries: seq<Json>) {
    forall i :: 0 <= i < |entries| ==> NameOf(entries[i]).Some?
  }

  /** Every entry before the first of that name has a name too. */
  predicate InReach(entries: seq<Json>, name: string) {
    forall k :: 0 <= k < |entries| && FirstNamed(entries, name, k) ==> AllNamed(entries[..k])
  }

  lemma PositionOfFirst(entries: seq<Json>, name: string, k: nat)
    requires FirstNamed(entries, name, k)
    ensures Position(Named(entries), name) == Some(|Named(entries[..k])|)
  {
    hide NameOf, Position;
    NamedIs(entries[..k]);
    NamedPrefix(entries, k + 1);
    assert entries[..k + 1][..k] == entries[..k];
    var m := |Named(entries[..k])|;
    assert Named(entries[..k + 1]) == Named(entries[..k]) + [name];
    assert Named(entries)[..m] == Named(entries[..k]);
    PositionIs(Named(entries), name, m);
  }

  /** The index a container is given is that of the first entry of its name exactly when every entry before
      that one has a name; otherwise it falls short, on an entry that is not of that name. */
  lemma IndexIsRight(native: Json, base: string, name: string, k: nat)
    requires Lookup(native, base).Some? && Lookup(native, base).value.Arr?
    requires FirstNamed(Lookup(native, base).value.items, name, k)
    ensures var entries, at := Lookup(native, base).value.items, ContainerIndex(native, base, name);
      && at.Some? && at.value <= k
      && (at == Some(k) <==> forall i :: 0 <= i < k ==> NameOf(entries[i]).Some?)
      && (at != Some(k) ==> NameOf(entries[at.value]) != Some(name))
  {
    hide Lookup, NameOf, Named, Position;
    var entries := Lookup(native, base).value.items;
    PositionOfFirst(entries, name, k);
    NamedIs(entries[..k]);
  }

  lemma {:induction false} SomeFirst(entries: seq<Json>, name: string, j: nat) returns (k: nat)
    requires j < |entries| && NameOf(entries[j]) == Some(name)
    ensures FirstNamed(entries, name, k)
  {
    hide NameOf;
    k := 0;
    while NameOf(entries[k]) != Some(name)
      invariant k <= j && forall i :: 0 <= i < k ==> NameOf(entries[i]) != Some(name)
      decreases j - k
    {
      k := k + 1;
    }
  }

  /** A container is refused exactly when no entry has its name. */
  lemma RefusedExactly(native: Json, base: string, name: string)
    requires Lookup(native, base).Some? && Lookup(native, base).value.Arr?
    ensures var entries := Lookup(native, base).value.items;
      ContainerIndex(native, base, name).None? <==> forall i :: 0 <= i < |entries| ==> NameOf(entries[i]) != Some(name)
  {
    hide Lookup, NameOf, Named, Position;
    var entries := Lookup(native, base).value.items;
    NamedIs(entries);
    PositionNone(Named(entries), name);
  }

  /** Falling short does happen: of two containers of which only the second has a name, an image for it is
      aimed at the first. */
  lemma UnnamedEntryShiftsTheIndex(native: Json)
    requires native == Obj(map["spec" := Obj(map["containers" := Arr([Obj(map[]), Obj(map["name" := Str("web")])])])])
    ensures ContainerIndex(native, Join(POD_CONTAINERS), "web") == Some(0)
  {
    hide Join, Split, Named, Position, NameOf, Child;
    var list := [Obj(map[]), Obj(map["name" := Str("web")])];
    PlacesHavePointers(native, POD_CONTAINERS, []);
    assert At(native, POD_CONTAINERS) == Some(Arr(list)) by { Spelled(native, list); }
    assert FirstNamed(list, "web", 1) by { WebIsSecond(list); }
    assert NameOf(list[0]).None? by { WebIsSecond(list); }
    IndexIsRight(native, Join(POD_CONTAINERS), "web", 1);
  }

  lemma TwoDown(native: Json, a: string, b: string)
    ensures At(native, [a, b]) == if Child(native, a).None? then None else Child(Child(native, a).value, b)
  {
    hide Child;
    assert [a, b][1..] == [b] && [b][1..] == [];
    if Child(native, a).Some? {
      assert At(Child(native, a).value, [b]) == Child(Child(native, a).value, b);
    }
  }

  lemma Spelled(native: Json, list: seq<Json>)
    requires native == Obj(map["spec" := Obj(map["containers" := Arr(list)])])
    ensures At(native, POD_CONTAINERS) == Some(Arr(list))
  {
    hide At;
    TwoDown(native, "spec", "containers");
  }

  lemma WebIsSecond(list: seq<Json>)
    requires list == [Obj(map[]), Obj(map["name" := Str("web")])]
    ensures FirstNamed(list, "web", 1) && NameOf(list[0]).None?
  {
  }
}
