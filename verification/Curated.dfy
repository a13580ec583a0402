/** What the curated actions do to the object they were planned against. */
module Curated {
  import opened Kube
  import opened Decimals
  import opened Json
  import opened Pointers
  import opened Edits
  import opened Planning

  // ---- places -----------------------------------------------------------------------------------------------

  lemma AgainstPlace(native: Json, tokens: seq<string>, wanted: Json)
    ensures var change := Against(native, Join(tokens), wanted);
      PathOf(change) == tokens && change.from == At(native, tokens) && change.to == Some(wanted)
    ensures PathOf(FieldChange(Join(tokens), Lookup(native, Join(tokens)), None)) == tokens
    ensures Lookup(native, Join(tokens)) == At(native, tokens)
  {
    hide Join, Split, At;
    SplitJoin(tokens);
  }

  lemma AppendAside(f: seq<string>, x: seq<string>, y: seq<string>)
    ensures Aside(x, y) ==> Aside(f + x, f + y)
  {
    if f + x <= f + y { assert x == (f + x)[|f|..] && y == (f + y)[|f|..]; assert x <= y; }
    if f + y <= f + x { assert x == (f + x)[|f|..] && y == (f + y)[|f|..]; assert y <= x; }
  }

  /** In an object, or where nothing is, any name is open. */
  lemma {:induction false} OpenBelow(tree: Json, f: seq<string>, key: string)
    requires Open(tree, f) && (At(tree, f).Some? ==> At(tree, f).value.Obj?)
    ensures Open(tree, f + [key])
    ensures At(tree, f + [key]).Some? ==> InObject(tree, f + [key])
    decreases |f|
  {
    hide Index;
    if f == [] {
      assert f + [key] == [key] && [key][1..] == [];
    } else {
      assert (f + [key])[0] == f[0] && (f + [key])[1..] == f[1..] + [key];
      if Child(tree, f[0]).Some? { OpenBelow(Child(tree, f[0]).value, f[1..], key); }
    }
  }

  lemma {:induction false} OpenWhereSome(tree: Json, p: seq<string>)
    requires At(tree, p).Some?
    ensures Open(tree, p)
    decreases |p|
  {
    hide Index;
    if p != [] { OpenWhereSome(Child(tree, p[0]).value, p[1..]); }
  }

  // ---- what an action needs of the object -------------------------------------------------------------------

  predicate DistinctKeys<T>(pairs: seq<(string, T)>) {
    forall i, j :: 0 <= i < j < |pairs| ==> pairs[i].0 != pairs[j].0
  }

  /** The list of containers an image is set in. */
  function Containers(native: Json): Option<Json> {
    if At(native, TEMPLATE_CONTAINERS).Some? then At(native, TEMPLATE_CONTAINERS) else At(native, POD_CONTAINERS)
  }

  function BaseTokens(native: Json): seq<string> {
    if At(native, TEMPLATE_CONTAINERS).Some? then TEMPLATE_CONTAINERS else POD_CONTAINERS
  }

  /** A list of entries in which that name is within reach. */
  predicate Reachable(native: Json, b: seq<string>, name: string) {
    At(native, b).Some? && At(native, b).value.Arr? && InReach(At(native, b).value.items, name)
  }

  predicate AllReachable(native: Json, b: seq<string>, images: seq<(string, string)>) {
    forall j :: 0 <= j < |images| ==> Reachable(native, b, images[j].0)
  }

  /** Objects where the API has objects, lists where it has lists, the containers asked for within reach, and
      no key or container asked for twice. */
  predicate Ready(native: Json, wanted: Wanted) {
    match wanted
    case SetFields(_, _) => false
    case Scale(_) => Open(native, REPLICAS)
    case Schedulable(_) => Open(native, UNSCHEDULABLE)
    case RestartRollout => Open(native, RESTART_MARKER)
    case Metadata(field, pairs) =>
      && DistinctKeys(pairs) && Open(native, FieldTokens(field))
      && (At(native, FieldTokens(field)).Some? ==> At(native, FieldTokens(field)).value.Obj?)
    case SetImage(images) => DistinctKeys(images) && AllReachable(native, BaseTokens(native), images)
  }

  // ---- metadata ---------------------------------------------------------------------------------------------

  /** One pair's change, if it makes one. */
  predicate Serves(native: Json, f: seq<string>, pair: (string, Option<string>), changes: seq<FieldChange>) {
    match pair.1
    case Some(value) =>
      exists i :: 0 <= i < |changes| && PathOf(changes[i]) == f + [pair.0] && changes[i].to == Some(Str(value))
    case None =>
      At(native, f + [pair.0]).Some? ==>
        exists i :: 0 <= i < |changes| && PathOf(changes[i]) == f + [pair.0] && changes[i].to == None
  }

  /** Every change is some pair's, and of one that has something to change. */
  predicate OnlyPairs(native: Json, f: seq<string>, pairs: seq<(string, Option<string>)>, changes: seq<FieldChange>) {
    forall i :: 0 <= i < |changes| ==> exists j :: 0 <= j < |pairs| && Makes(native, f, pairs[j], changes[i])
  }

  predicate Makes(native: Json, f: seq<string>, pair: (string, Option<string>), change: FieldChange) {
    PathOf(change) == f + [pair.0] && (pair.1.Some? || At(native, f + [pair.0]).Some?)
  }

  lemma KeyAside(f: seq<string>, a: string, b: string)
    requires a != b
    ensures Aside(f + [a], f + [b])
  {
    assert [a][0] != [b][0];
    AppendAside(f, [a], [b]);
  }

  lemma PairSound(native: Json, f: seq<string>, pair: (string, Option<string>))
    requires Open(native, f) && (At(native, f).Some? ==> At(native, f).value.Obj?)
    ensures var made := PairChange(native, Join(f), pair);
      && |made| <= 1 && (forall i :: 0 <= i < |made| ==> Sound(native, made[i]) && Makes(native, f, pair, made[i]))
      && Serves(native, f, pair, made)
  {
    hide Join, Escape, Split, At, Open, InObject;
    var key := pair.0;
    JoinAppend(f, key);
    OpenBelow(native, f, key);
    AgainstPlace(native, f + [key], if pair.1.Some? then Str(pair.1.value) else Null);
    var made := PairChange(native, Join(f), pair);
    if made != [] { assert PathOf(made[0]) == f + [key]; }
  }

  lemma {:induction false} PairsSound(native: Json, f: seq<string>, pairs: seq<(string, Option<string>)>)
    requires Open(native, f) && (At(native, f).Some? ==> At(native, f).value.Obj?)
    ensures AllSound(native, PairChanges(native, Join(f), pairs))
    ensures OnlyPairs(native, f, pairs, PairChanges(native, Join(f), pairs))
    decreases |pairs|
  {
    hide Join, PairChange, At, Open, Sound, Makes, Serves;
    if pairs != [] {
      var front, last := pairs[..|pairs| - 1], pairs[|pairs| - 1];
      PairsSound(native, f, front);
      PairSound(native, f, last);
      var before, changes := PairChanges(native, Join(f), front), PairChanges(native, Join(f), pairs);
      forall i | 0 <= i < |changes| ensures exists j :: 0 <= j < |pairs| && Makes(native, f, pairs[j], changes[i]) {
        if i < |before| {
          var j :| 0 <= j < |front| && Makes(native, f, front[j], before[i]);
          assert Makes(native, f, pairs[j], changes[i]);
        } else {
          assert Makes(native, f, pairs[|pairs| - 1], changes[i]);
        }
      }
    }
  }

  lemma {:induction false} PairsAside(native: Json, f: seq<string>, pairs: seq<(string, Option<string>)>)
    requires DistinctKeys(pairs) && Open(native, f) && (At(native, f).Some? ==> At(native, f).value.Obj?)
    ensures AllAside(PairChanges(native, Join(f), pairs))
    decreases |pairs|
  {
    hide Join, PairChange, PathOf, At, Open, Sound, Serves, Aside;
    if pairs != [] {
      var front, last := pairs[..|pairs| - 1], pairs[|pairs| - 1];
      PairsAside(native, f, front);
      PairsSound(native, f, front);
      PairSound(native, f, last);
      var before, changes := PairChanges(native, Join(f), front), PairChanges(native, Join(f), pairs);
      if |changes| > |before| {
        forall i | 0 <= i < |before| ensures Aside(PathOf(changes[i]), PathOf(changes[|before|])) {
          var j :| 0 <= j < |front| && Makes(native, f, front[j], before[i]);
          KeyAside(f, pairs[j].0, last.0);
        }
      }
    }
  }

  lemma {:induction false} PairsServe(native: Json, f: seq<string>, pairs: seq<(string, Option<string>)>, j: nat)
    requires Open(native, f) && (At(native, f).Some? ==> At(native, f).value.Obj?) && j < |pairs|
    ensures Serves(native, f, pairs[j], PairChanges(native, Join(f), pairs))
    decreases |pairs|
  {
    hide Join, PairChange, PathOf, At, Open, Sound, Serves, Aside;
    var front, last := pairs[..|pairs| - 1], pairs[|pairs| - 1];
    var before := PairChanges(native, Join(f), front);
    if j < |front| {
      PairsServe(native, f, front, j);
      ServesMore(native, f, pairs[j], before, [], PairChange(native, Join(f), last));
    } else {
      PairSound(native, f, last);
      ServesMore(native, f, last, PairChange(native, Join(f), last), before, []);
    }
    assert before + PairChange(native, Join(f), last) + [] == before + PairChange(native, Join(f), last);
    assert [] + before + PairChange(native, Join(f), last) == before + PairChange(native, Join(f), last);
  }

  lemma ServesMore(native: Json, f: seq<string>, pair: (string, Option<string>), some: seq<FieldChange>,
                   front: seq<FieldChange>, back: seq<FieldChange>)
    requires Serves(native, f, pair, some)
    ensures Serves(native, f, pair, front + some + back)
  {
    hide PathOf, At;
    var all := front + some + back;
    assert forall i :: 0 <= i < |some| ==> some[i] == all[|front| + i];
  }

  /** Every pair asked for holds in the object after the changes: a value that was given, or nothing. */
  lemma PairsHold(native: Json, f: seq<string>, pairs: seq<(string, Option<string>)>, j: nat)
    requires DistinctKeys(pairs) && Open(native, f) && (At(native, f).Some? ==> At(native, f).value.Obj?)
    requires j < |pairs|
    ensures At(Applied(native, PairChanges(native, Join(f), pairs)), f + [pairs[j].0]) ==
      if pairs[j].1.Some? then Some(Str(pairs[j].1.value)) else None
  {
    hide Join, PathOf, At, Open, Aside, PairChanges, AllSound, AllAside, Applied;
    PairsSound(native, f, pairs);
    PairsAside(native, f, pairs);
    PairsServe(native, f, pairs, j);
    var changes := PairChanges(native, Join(f), pairs);
    AppliedHits(native, changes, f + [pairs[j].0]);
    if pairs[j].1.None? && At(native, f + [pairs[j].0]).None? {
      forall i | 0 <= i < |changes| ensures Aside(PathOf(changes[i]), f + [pairs[j].0]) {
        var k :| 0 <= k < |pairs| && Makes(native, f, pairs[k], changes[i]);
        if k != j {
          assert pairs[k].0 != pairs[j].0;
          KeyAside(f, pairs[k].0, pairs[j].0);
        }
      }
    }
  }

  // ---- images -----------------------------------------------------------------------------------------------

  lemma {:induction false} AtAppend(tree: Json, p: seq<string>, token: string)
    requires At(tree, p).Some?
    ensures At(tree, p + [token]) == Child(At(tree, p).value, token)
    decreases |p|
  {
    hide Child;
    if p == [] {
      assert p + [token] == [token] && [token][1..] == [];
      var child := Child(tree, token);
      assert child.Some? ==> At(child.value, []) == child;
    } else {
      assert (p + [token])[0] == p[0] && (p + [token])[1..] == p[1..] + [token];
      AtAppend(Child(tree, p[0]).value, p[1..], token);
    }
  }

  predicate PlainWord(token: string) {
    '~' !in token && '/' !in token
  }

  lemma EntryPlace(b: seq<string>, k: nat, field: string)
    requires PlainWord(field)
    ensures EntryPath(Join(b), k, field) == Join(b + [Decimal(k), field])
  {
    hide Join, Escape, Decimal;
    JoinAppend(b, Decimal(k));
    JoinAppend(b + [Decimal(k)], field);
    assert b + [Decimal(k)] + [field] == b + [Decimal(k), field];
    NumberOfDecimal(k);
    DigitsPlain(Decimal(k));
    EscapeHasNoSlash(field);
  }

  lemma FieldWords()
    ensures PlainWord("name") && PlainWord("image")
  {
  }

  /** The entry a container is found at has its name, and its fields are places of an object. */
  lemma EntryFound(native: Json, b: seq<string>, c: string, k: nat)
    requires Reachable(native, b, c) && ContainerIndex(native, Join(b), c) == Some(k)
    ensures FirstNamed(At(native, b).value.items, c, k)
    ensures At(native, b + [Decimal(k)]) == Some(At(native, b).value.items[k])
    ensures At(native, b + [Decimal(k), "name"]) == Some(Str(c))
    ensures Open(native, b + [Decimal(k), "image"])
  {
    hide Join, Decimal, Named, Position, Open, At;
    PlacesHavePointers(native, b, b);
    var items := At(native, b).value.items;
    RefusedExactly(native, Join(b), c);
    var j: nat :| j < |items| && NameOf(items[j]) == Some(c);
    var first := SomeFirst(items, c, j);
    IndexIsRight(native, Join(b), c, first);
    assert first == k by { assert AllNamed(items[..first]); }
    AtAppend(native, b, Decimal(k));
    NumberOfDecimal(k);
    AtAppend(native, b + [Decimal(k)], "name");
    assert b + [Decimal(k)] + ["name"] == b + [Decimal(k), "name"];
    OpenWhereSome(native, b + [Decimal(k)]);
    OpenBelow(native, b + [Decimal(k)], "image");
    assert b + [Decimal(k)] + ["image"] == b + [Decimal(k), "image"];
  }

  /** The change is to the name or the image of the container's own entry. */
  predicate MakesImage(native: Json, b: seq<string>, container: string, change: FieldChange) {
    var at := ContainerIndex(native, Join(b), container);
    at.Some?
    && (PathOf(change) == b + [Decimal(at.value), "name"] || PathOf(change) == b + [Decimal(at.value), "image"])
  }

  lemma ImagePlaces(native: Json, b: seq<string>, k: nat, c: string, image: string)
    ensures var made := ImageChange(native, Join(b), k, c, image);
      && |made| == 2
      && PathOf(made[0]) == b + [Decimal(k), "name"] && made[0].to == Some(Str(c))
      && PathOf(made[1]) == b + [Decimal(k), "image"] && made[1].to == Some(Str(image))
      && made[0].from == At(native, PathOf(made[0])) && made[1].from == At(native, PathOf(made[1]))
      && Aside(PathOf(made[0]), PathOf(made[1]))
  {
    hide Join, Decimal, Split, At, PathOf;
    FieldWords();
    EntryPlace(b, k, "name");
    EntryPlace(b, k, "image");
    AgainstPlace(native, b + [Decimal(k), "name"], Str(c));
    AgainstPlace(native, b + [Decimal(k), "image"], Str(image));
    EntriesAside(b, k, "name", k, "image");
  }

  lemma ImageSound(native: Json, b: seq<string>, c: string, k: nat, image: string)
    requires Reachable(native, b, c) && ContainerIndex(native, Join(b), c) == Some(k)
    ensures var made := ImageChange(native, Join(b), k, c, image);
      |made| == 2 && Sound(native, made[0]) && Sound(native, made[1]) && Aside(PathOf(made[0]), PathOf(made[1]))
  {
    hide Join, Decimal, Split, Open, At, ContainerIndex, Reachable, PathOf, ImageChange;
    EntryFound(native, b, c, k);
    ImagePlaces(native, b, k, c, image);
    OpenWhereSome(native, b + [Decimal(k), "name"]);
    SoundHere(native, ImageChange(native, Join(b), k, c, image)[0]);
    SoundHere(native, ImageChange(native, Join(b), k, c, image)[1]);
  }

  lemma SoundHere(native: Json, change: FieldChange)
    requires PathOf(change) != [] && change.from == At(native, PathOf(change))
    requires Open(native, PathOf(change)) && change.to.Some?
    ensures Sound(native, change)
  {
  }

  lemma EntriesAside(b: seq<string>, k: nat, x: string, l: nat, y: string)
    requires k != l || x != y
    ensures Aside(b + [Decimal(k), x], b + [Decimal(l), y])
  {
    hide Decimal;
    NumberOfDecimal(k);
    NumberOfDecimal(l);
    assert [Decimal(k), x][0] == Decimal(k) && [Decimal(l), y][0] == Decimal(l);
    assert [Decimal(k), x][1] == x && [Decimal(l), y][1] == y;
    AppendAside(b, [Decimal(k), x], [Decimal(l), y]);
  }

  predicate OnlyImages(native: Json, b: seq<string>, images: seq<(string, string)>, changes: seq<FieldChange>) {
    forall i :: 0 <= i < |changes| ==> exists j :: 0 <= j < |images| && MakesImage(native, b, images[j].0, changes[i])
  }

  /** The last image adds two changes of its own. */
  lemma ImagesNext(native: Json, b: seq<string>, images: seq<(string, string)>) returns (made: seq<FieldChange>)
    requires images != [] && AllReachable(native, b, images) && ImageChanges(native, Join(b), images).Ok?
    ensures |made| == 2 && AllSound(native, made) && AllAside(made)
    ensures ImageChanges(native, Join(b), images[..|images| - 1]).Ok?
    ensures ImageChanges(native, Join(b), images).value ==
      ImageChanges(native, Join(b), images[..|images| - 1]).value + made
    ensures MakesImage(native, b, images[|images| - 1].0, made[0])
    ensures MakesImage(native, b, images[|images| - 1].0, made[1])
  {
    hide Join, ImageChange, Reachable, Sound, ContainerIndex, PathOf, Aside;
    var (c, image) := images[|images| - 1];
    assert Reachable(native, b, images[|images| - 1].0);
    var k := ContainerIndex(native, Join(b), c).value;
    made := ImageChange(native, Join(b), k, c, image);
    ImageSound(native, b, c, k, image);
    ImagePlaces(native, b, k, c, image);
  }

  lemma {:induction false} ImagesSound(native: Json, b: seq<string>, images: seq<(string, string)>)
    requires AllReachable(native, b, images) && ImageChanges(native, Join(b), images).Ok?
    ensures AllSound(native, ImageChanges(native, Join(b), images).value)
    ensures OnlyImages(native, b, images, ImageChanges(native, Join(b), images).value)
    decreases |images|
  {
    hide Join, ImageChange, Reachable, Sound, ContainerIndex, PathOf, MakesImage;
    if images != [] {
      var front := images[..|images| - 1];
      var made := ImagesNext(native, b, images);
      ImagesSound(native, b, front);
      var before, changes := ImageChanges(native, Join(b), front).value, ImageChanges(native, Join(b), images).value;
      forall i | 0 <= i < |changes|
        ensures exists j :: 0 <= j < |images| && MakesImage(native, b, images[j].0, changes[i]) {
        if i < |before| {
          var j :| 0 <= j < |front| && MakesImage(native, b, front[j].0, before[i]);
          assert MakesImage(native, b, images[j].0, changes[i]);
        } else {
          assert MakesImage(native, b, images[|images| - 1].0, changes[i]);
        }
      }
    }
  }

  /** Changes for containers of different names are to different entries. */
  lemma NamesApart(native: Json, b: seq<string>, c: string, d: string, x: FieldChange, y: FieldChange)
    requires Reachable(native, b, c) && Reachable(native, b, d) && c != d
    requires MakesImage(native, b, c, x) && MakesImage(native, b, d, y)
    ensures Aside(PathOf(x), PathOf(y))
  {
    hide Join, Reachable, ContainerIndex, PathOf, Aside, At;
    var k, l := ContainerIndex(native, Join(b), c).value, ContainerIndex(native, Join(b), d).value;
    EntryFound(native, b, c, k);
    EntryFound(native, b, d, l);
    assert k != l;
    EntriesAside(b, k, PathOf(x)[|b| + 1], l, PathOf(y)[|b| + 1]);
  }

  lemma {:induction false} ImagesAside(native: Json, b: seq<string>, images: seq<(string, string)>)
    requires DistinctKeys(images) && AllReachable(native, b, images) && ImageChanges(native, Join(b), images).Ok?
    ensures AllAside(ImageChanges(native, Join(b), images).value)
    decreases |images|
  {
    hide Join, ImageChange, Reachable, Sound, ContainerIndex, PathOf, Aside, MakesImage;
    if images != [] {
      var front, c := images[..|images| - 1], images[|images| - 1].0;
      ImagesAside(native, b, front);
      ImagesSound(native, b, front);
      var made := ImagesNext(native, b, images);
      var before := ImageChanges(native, Join(b), front).value;
      forall i, l | 0 <= i < |before| && 0 <= l < 2 ensures Aside(PathOf(before[i]), PathOf(made[l])) {
        var j :| 0 <= j < |front| && MakesImage(native, b, front[j].0, before[i]);
        assert images[j].0 != c && Reachable(native, b, images[j].0);
        NamesApart(native, b, images[j].0, c, before[i], made[l]);
      }
    }
  }

  /** The two changes of one image are those of the entry its container is found at. */
  lemma {:induction false} ImageMade(native: Json, b: seq<string>, images: seq<(string, string)>, j: nat)
      returns (at: nat)
    requires ImageChanges(native, Join(b), images).Ok? && j < |images|
    ensures ContainerIndex(native, Join(b), images[j].0) == Some(at)
    ensures var changes := ImageChanges(native, Join(b), images).value;
      |changes| == 2 * |images| && Aims(b, at, images[j], changes[2 * j], changes[2 * j + 1])
    decreases |images|
  {
    hide Join, ImageChange, ContainerIndex, PathOf, Aside;
    var front := images[..|images| - 1];
    var (name, image) := images[|images| - 1];
    ImagePlaces(native, b, ContainerIndex(native, Join(b), name).value, name, image);
    if front != [] { at := ImageMade(native, b, front, if j < |front| then j else 0); }
    if j == |front| { at := ContainerIndex(native, Join(b), name).value; }
  }

  /** One change gives that entry the name, the next one the image. */
  predicate Aims(b: seq<string>, at: nat, image: (string, string), first: FieldChange, second: FieldChange) {
    && PathOf(first) == b + [Decimal(at), "name"] && first.to == Some(Str(image.0))
    && PathOf(second) == b + [Decimal(at), "image"] && second.to == Some(Str(image.1))
  }

  /** An image is set in the first container of its name exactly when that name is within reach. Otherwise it
      is set in an earlier entry, which is not of that name and is given it. */
  lemma ImagesAim(native: Json, b: seq<string>, images: seq<(string, string)>, j: nat, k: nat)
    requires ImageChanges(native, Join(b), images).Ok? && j < |images|
    requires At(native, b).Some? && At(native, b).value.Arr?
    requires FirstNamed(At(native, b).value.items, images[j].0, k)
    ensures var changes, items := ImageChanges(native, Join(b), images).value, At(native, b).value.items;
      && |changes| == 2 * |images|
      && exists at: nat ::
           && at <= k && Aims(b, at, images[j], changes[2 * j], changes[2 * j + 1])
           && (at == k <==> InReach(items, images[j].0))
           && (at != k ==> NameOf(items[at]) != Some(images[j].0))
  {
    hide Join, ImageChanges, ContainerIndex, At, Aims, NameOf;
    PlacesHavePointers(native, b, b);
    var at := ImageMade(native, b, images, j);
    IndexIsRight(native, Join(b), images[j].0, k);
    OneFirst(At(native, b).value.items, images[j].0, k);
  }

  lemma OneFirst(entries: seq<Json>, name: string, k: nat)
    requires FirstNamed(entries, name, k)
    ensures InReach(entries, name) <==> forall i :: 0 <= i < k ==> NameOf(entries[i]).Some?
  {
    hide NameOf;
    forall l | 0 <= l < |entries| && FirstNamed(entries, name, l) ensures l == k {
    }
  }

  // ---- main results -----------------------------------------------------------------------------------------

  /** What the object is to hold at a place, by the action's own words. */
  ghost predicate Holds(target: Target, wanted: Wanted, after: Json) {
    var native := target.native;
    match wanted
    case SetFields(_, _) => true
    case Scale(replicas) => At(after, REPLICAS) == Some(Whole(replicas))
    case Schedulable(allowed) => At(after, UNSCHEDULABLE) == Some(Bool(!allowed))
    case RestartRollout =>
      At(after, RESTART_MARKER) ==
        Some(Str(if target.resourceVersion.Some? then target.resourceVersion.value else "unknown"))
    case Metadata(field, pairs) =>
      forall j :: 0 <= j < |pairs| ==>
        At(after, FieldTokens(field) + [pairs[j].0]) == if pairs[j].1.Some? then Some(Str(pairs[j].1.value)) else None
    case SetImage(images) =>
      forall j :: 0 <= j < |images| ==> HoldsImage(native, BaseTokens(native), images[j].0, images[j].1, after)
  }

  /** The first container of that name has that image, and still that name. */
  ghost predicate HoldsImage(native: Json, b: seq<string>, name: string, image: string, after: Json) {
    exists k: nat ::
      && At(native, b).Some? && At(native, b).value.Arr? && FirstNamed(At(native, b).value.items, name, k)
      && At(after, b + [Decimal(k), "image"]) == Some(Str(image))
      && At(after, b + [Decimal(k), "name"]) == Some(Str(name))
  }

  lemma BaseIs(native: Json)
    ensures ContainerBase(native) ==
      if Containers(native).Some? then Some(Join(BaseTokens(native))) else None
    ensures Containers(native).Some? ==> At(native, BaseTokens(native)) == Containers(native)
  {
    hide Join, At, Lookup;
    PlacesHavePointers(native, TEMPLATE_CONTAINERS, []);
    PlacesHavePointers(native, POD_CONTAINERS, []);
  }

  lemma SingleSound(native: Json, tokens: seq<string>, wanted: Json)
    requires tokens != [] && Open(native, tokens)
    ensures AllSound(native, [Against(native, Join(tokens), wanted)])
    ensures AllAside([Against(native, Join(tokens), wanted)])
    ensures At(Applied(native, [Against(native, Join(tokens), wanted)]), tokens) == Some(wanted)
  {
    hide Join, At, Open, PathOf, Aside, Applied;
    AgainstPlace(native, tokens, wanted);
    var change := Against(native, Join(tokens), wanted);
    SoundHere(native, change);
    assert AllSound(native, [change]);
    AppliedHits(native, [change], tokens);
    assert [change][0] == change;
  }

  /** On an object that is as the API would have it, the changes of every curated action say truly what
      their places held, and touch places apart from one another; and once they are made, the object holds
      what was asked for. */
  lemma CuratedHolds(target: Target, wanted: Wanted)
    requires Ready(target.native, wanted) && Changes(target, wanted).Ok?
    ensures AllSound(target.native, Changes(target, wanted).value) && AllAside(Changes(target, wanted).value)
    ensures Holds(target, wanted, Applied(target.native, Changes(target, wanted).value))
  {
    hide Join, Open, At, AllSound, AllAside, Applied, PairChanges, ImageChanges, Against, DistinctKeys, HoldsImage;
    var native := target.native;
    match wanted
    case Scale(replicas) => SingleSound(native, REPLICAS, Whole(replicas));
    case Schedulable(allowed) => SingleSound(native, UNSCHEDULABLE, Bool(!allowed));
    case RestartRollout =>
      SingleSound(native, RESTART_MARKER,
                  Str(if target.resourceVersion.Some? then target.resourceVersion.value else "unknown"));
    case Metadata(field, pairs) =>
      PairsSound(native, FieldTokens(field), pairs);
      PairsAside(native, FieldTokens(field), pairs);
      forall j | 0 <= j < |pairs|
        ensures At(Applied(native, Changes(target, wanted).value), FieldTokens(field) + [pairs[j].0]) ==
          if pairs[j].1.Some? then Some(Str(pairs[j].1.value)) else None
      {
        PairsHold(native, FieldTokens(field), pairs, j);
      }
    case SetImage(images) =>
      BaseIs(native);
      ImagesHold(native, BaseTokens(native), images);
  }

  /** Every image asked for is the image of the first container of that name after the changes, and the
      container keeps its name. */
  lemma ImagesHold(native: Json, b: seq<string>, images: seq<(string, string)>)
    requires DistinctKeys(images) && AllReachable(native, b, images) && ImageChanges(native, Join(b), images).Ok?
    ensures var changes := ImageChanges(native, Join(b), images).value;
      && AllSound(native, changes) && AllAside(changes)
      && forall j :: 0 <= j < |images| ==> HoldsImage(native, b, images[j].0, images[j].1, Applied(native, changes))
  {
    hide Join, Open, AllSound, AllAside, Applied, ImageChanges, DistinctKeys, ContainerIndex, PathOf, At;
    ImagesSound(native, b, images);
    ImagesAside(native, b, images);
    var changes := ImageChanges(native, Join(b), images).value;
    AppliedHits(native, changes, []);
    forall j | 0 <= j < |images|
      ensures HoldsImage(native, b, images[j].0, images[j].1, Applied(native, changes))
    {
      var k := ImageMade(native, b, images, j);
      EntryFound(native, b, images[j].0, k);
      assert At(Applied(native, changes), PathOf(changes[2 * j])) == changes[2 * j].to;
      assert At(Applied(native, changes), PathOf(changes[2 * j + 1])) == changes[2 * j + 1].to;
    }
  }

  /** And nothing else changes: a place apart from all the changed ones reads as before; taking the changes
      back leaves the object with nothing more in it than the parents of the changed places, so that every
      other place reads as it did and the parents are raised at most; and nothing more either exactly when
      the parents were there. */
  lemma CuratedTouchesNothingElse(target: Target, wanted: Wanted, q: seq<string>)
    requires Ready(target.native, wanted) && Changes(target, wanted).Ok?
    ensures var changes, native := Changes(target, wanted).value, target.native;
      var back := Applied(Applied(native, changes), Undo(changes));
      && ((forall i :: 0 <= i < |changes| ==> Aside(PathOf(changes[i]), q)) ==>
            At(Applied(native, changes), q) == At(native, q))
      && back == Scaffolded(native, changes)
      && (if exists i :: 0 <= i < |changes| && q < PathOf(changes[i])
          then Raised(At(native, q), At(back, q)) else At(back, q) == At(native, q))
      && (back == native <==> AllHoused(native, changes))
  {
    hide At, AllSound, AllAside, AllHoused, Applied, Undo, PathOf, Aside, Changes, Ready, Scaffolded, Raised;
    CuratedHolds(target, wanted);
    var changes := Changes(target, wanted).value;
    AppliedHits(target.native, changes, q);
    UndoIs(target.native, changes);
    UndoReads(target.native, changes, q);
    UndoRestores(target.native, changes);
  }

  // ---- refusals ---------------------------------------------------------------------------------------------

  /** The containers an image may be set in, by name. */
  predicate HasContainer(native: Json, name: string) {
    && Containers(native).Some? && Containers(native).value.Arr?
    && exists i :: 0 <= i < |Containers(native).value.items|
         && NameOf(Containers(native).value.items[i]) == Some(name)
  }

  predicate AllThere(native: Json, images: seq<(string, string)>) {
    forall j :: 0 <= j < |images| ==> HasContainer(native, images[j].0)
  }

  /** Refused for the first container asked for that the list does not name. */
  ghost predicate RefusedImages(native: Json, images: seq<(string, string)>, fault: Fault) {
    exists j: nat :: FirstMissing(native, images, j) && fault == NoSuchContainer(images[j].0)
  }

  /** An action is refused for nothing but what it needs and does not find. */
  ghost predicate RightlyRefused(native: Json, wanted: Wanted, fault: Fault) {
    match wanted
    case RestartRollout => fault == NoTemplate && At(native, TEMPLATE).None?
    case SetImage(images) =>
      if Containers(native).None? then fault == NoContainers else RefusedImages(native, images, fault)
    case _ => false
  }

  /** And made wherever that is there: a restart where there is a template, images where there is a list of
      containers that names all of those asked for, and any other action always. */
  ghost predicate RightlyMade(native: Json, wanted: Wanted) {
    match wanted
    case RestartRollout => At(native, TEMPLATE).Some?
    case SetImage(images) => Containers(native).Some? && AllThere(native, images)
    case _ => true
  }

  lemma RefusedFor(target: Target, wanted: Wanted)
    ensures match Changes(target, wanted)
      case Ok(_) => RightlyMade(target.native, wanted)
      case Err(fault) => RightlyRefused(target.native, wanted, fault)
  {
    hide Join, Lookup, At, HasContainer, Against, FirstMissing, ImageChanges, Containers, PairChanges;
    PlacesHavePointers(target.native, TEMPLATE, []);
    BaseIs(target.native);
    if wanted.SetImage? && Containers(target.native).Some? {
      ImagesRefused(target.native, BaseTokens(target.native), wanted.images);
    }
  }

  predicate FirstMissing(native: Json, images: seq<(string, string)>, j: nat) {
    j < |images| && !HasContainer(native, images[j].0)
    && forall i :: 0 <= i < j ==> HasContainer(native, images[i].0)
  }

  lemma MissingIs(native: Json, b: seq<string>, name: string)
    requires At(native, b) == Containers(native) && Containers(native).Some?
    ensures ContainerIndex(native, Join(b), name).Some? <==> HasContainer(native, name)
  {
    hide Join, Lookup, At, Containers, NameOf, Named, Position;
    PlacesHavePointers(native, b, []);
    if Containers(native).value.Arr? {
      RefusedExactly(native, Join(b), name);
    } else {
      assert Named([]) == [] && Position([], name) == None by { NoNames(name); }
    }
  }

  lemma NoNames(name: string)
    ensures Named([]) == [] && Position([], name) == None
  {
  }

  lemma {:induction false} ImagesRefused(native: Json, b: seq<string>, images: seq<(string, string)>)
    requires At(native, b) == Containers(native) && Containers(native).Some?
    ensures match ImageChanges(native, Join(b), images)
      case Ok(_) => AllThere(native, images)
      case Err(fault) => RefusedImages(native, images, fault)
    decreases |images|
  {
    hide Join, At, HasContainer, ImageChange, ContainerIndex, Containers;
    if images != [] {
      var front, n := images[..|images| - 1], |images| - 1;
      ImagesRefused(native, b, front);
      MissingIs(native, b, images[n].0);
      if ImageChanges(native, Join(b), front).Err? {
        var j: nat :| FirstMissing(native, front, j)
          && ImageChanges(native, Join(b), front) == Err(NoSuchContainer(front[j].0));
        assert FirstMissing(native, images, j) by {
          assert forall i :: 0 <= i <= j ==> front[i] == images[i];
        }
      } else if !HasContainer(native, images[n].0) {
        assert FirstMissing(native, images, n) by {
          assert forall i :: 0 <= i < n ==> front[i] == images[i];
        }
      }
    }
  }

  /** Whether some change is to that place. */
  predicate Touches(changes: seq<FieldChange>, path: string) {
    exists i :: 0 <= i < |changes| && changes[i].path == path
  }

  lemma TouchesJoin(a: seq<FieldChange>, b: seq<FieldChange>, path: string)
    ensures Touches(a + b, path) <==> Touches(a, path) || Touches(b, path)
  {
    if i :| 0 <= i < |a| && a[i].path == path { assert (a + b)[i].path == path; }
    if i :| 0 <= i < |b| && b[i].path == path { assert (a + b)[|a| + i].path == path; }
    if i :| 0 <= i < |a + b| && (a + b)[i].path == path {
      if i < |a| { assert a[i].path == path; } else { assert b[i - |a|].path == path; }
    }
  }

  predicate AllRemove(changes: seq<FieldChange>) {
    forall i :: 0 <= i < |changes| ==> changes[i].to == None
  }

  /** The raw field changes put what was to be put, each in its turn, and then take away what was to be taken
      away and is there. */
  lemma FieldsAreSet(target: Target, put: seq<(string, Json)>, unset: seq<string>)
    ensures var changes := Changes(target, SetFields(put, unset)).value;
      && |changes| >= |put|
      && (forall j :: 0 <= j < |put| ==> changes[j].path == put[j].0 && changes[j].to == Some(put[j].1))
      && AllRemove(changes[|put|..])
      && forall path :: Touches(changes[|put|..], path) <==> path in unset && Lookup(target.native, path).Some?
  {
    hide Lookup, Touches;
    var puts, unsets := SetChanges(target.native, put), UnsetChanges(target.native, unset);
    PutsAre(target.native, put);
    UnsetsAre(target.native, unset);
    assert (puts + unsets)[|put|..] == unsets;
  }

  lemma {:induction false} PutsAre(native: Json, put: seq<(string, Json)>)
    ensures var changes := SetChanges(native, put);
      && |changes| == |put|
      && forall j :: 0 <= j < |put| ==> changes[j].path == put[j].0 && changes[j].to == Some(put[j].1)
    decreases |put|
  {
    hide Lookup;
    if put != [] { PutsAre(native, put[..|put| - 1]); }
  }

  lemma {:induction false} UnsetsAre(native: Json, unset: seq<string>)
    ensures AllRemove(UnsetChanges(native, unset))
    ensures forall path :: Touches(UnsetChanges(native, unset), path) <==> path in unset && Lookup(native, path).Some?
    decreases |unset|
  {
    hide Lookup, Touches;
    if unset == [] {
      assert forall path :: !Touches([], path) by { TouchesNone(); }
    } else {
      var front, last := unset[..|unset| - 1], unset[|unset| - 1];
      UnsetsAre(native, front);
      assert unset == front + [last];
      var made := if Lookup(native, last).Some? then [FieldChange(last, Lookup(native, last), None)] else [];
      assert UnsetChanges(native, unset) == UnsetChanges(native, front) + made;
      forall path ensures Touches(UnsetChanges(native, unset), path) <==> path in unset && Lookup(native, path).Some? {
        TouchesJoin(UnsetChanges(native, front), made, path);
        if made == [] { TouchesNone(); } else { TouchesOne(made[0], path); }
      }
    }
  }

  lemma TouchesNone()
    ensures forall path :: !Touches([], path)
  {
  }

  lemma TouchesOne(change: FieldChange, path: string)
    ensures Touches([change], path) <==> change.path == path
  {
    assert [change][0] == change;
  }

  // ---- any action -------------------------------------------------------------------------------------------

  /** What a change says its place held is what the object held there, and a removal removes something. */
  predicate Stated(native: Json, change: FieldChange) {
    change.from == Lookup(native, change.path) && (change.to.None? ==> change.from.Some?)
  }

  predicate AllTrue(native: Json, changes: seq<FieldChange>) {
    forall i :: 0 <= i < |changes| ==> Stated(native, changes[i])
  }

  /** Every change of every action, the raw field changes included, states truly what was held. */
  lemma EveryChangeIsTrue(target: Target, wanted: Wanted)
    requires Changes(target, wanted).Ok?
    ensures AllTrue(target.native, Changes(target, wanted).value)
  {
    hide Lookup, Join;
    match wanted
    case SetFields(put, unset) =>
      PutsTrue(target.native, put);
      UnsetsTrue(target.native, unset);
    case SetImage(images) => ImagesTrue(target.native, ContainerBase(target.native).value, images);
    case Metadata(field, pairs) => PairsTrue(target.native, Join(FieldTokens(field)), pairs);
    case _ =>
  }

  lemma {:induction false} PutsTrue(native: Json, put: seq<(string, Json)>)
    ensures AllTrue(native, SetChanges(native, put))
    decreases |put|
  {
    hide Lookup;
    if put != [] { PutsTrue(native, put[..|put| - 1]); }
  }

  lemma {:induction false} UnsetsTrue(native: Json, unset: seq<string>)
    ensures AllTrue(native, UnsetChanges(native, unset))
    decreases |unset|
  {
    hide Lookup;
    if unset != [] { UnsetsTrue(native, unset[..|unset| - 1]); }
  }

  lemma {:induction false} ImagesTrue(native: Json, base: string, images: seq<(string, string)>)
    requires ImageChanges(native, base, images).Ok?
    ensures AllTrue(native, ImageChanges(native, base, images).value)
    decreases |images|
  {
    hide Lookup, ContainerIndex, EntryPath;
    if images != [] { ImagesTrue(native, base, images[..|images| - 1]); }
  }

  lemma {:induction false} PairsTrue(native: Json, field: string, pairs: seq<(string, Option<string>)>)
    ensures AllTrue(native, PairChanges(native, field, pairs))
    decreases |pairs|
  {
    hide Lookup, Escape;
    if pairs != [] { PairsTrue(native, field, pairs[..|pairs| - 1]); }
  }
}
