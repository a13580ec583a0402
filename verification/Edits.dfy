/** What a list of field changes does to a document: a change states the place, what it held and what it
    is to hold (plan.rs `FieldChange`). */
module Edits {
  import opened Kube
  import opened Decimals
  import opened Json
  import opened Pointers

  /** `from` is what the place was observed to hold; no `to` is a removal. */
  datatype FieldChange = FieldChange(path: string, from: Option<Json>, to: Option<Json>)

  function PathOf(change: FieldChange): seq<string> {
    if Split(change.path).Some? then Split(change.path).value else []
  }

  // ---- one level --------------------------------------------------------------------------------------------

  /** The token names an entry of the list, if this is a list. */
  predicate Fits(tree: Json, token: string) {
    tree.Arr? ==> Index(token).Some? && Index(token).value < |tree.items|
  }

  /** What is one token down, or would be to start with. */
  function Below(tree: Json, token: string): Json {
    if Child(tree, token).Some? then Child(tree, token).value else Null
  }

  /** `tree` with `value` one token down; what is neither an object nor a list with that entry gives way to
      an object. */
  function With(tree: Json, token: string, value: Json): Json {
    match tree
    case Obj(entries) => Obj(entries[token := value])
    case Arr(items) => if Fits(tree, token) then Arr(items[Index(token).value := value]) else Obj(map[token := value])
    case _ => Obj(map[token := value])
  }

  function Without(tree: Json, token: string): Json {
    if tree.Obj? then Obj(tree.entries - {token}) else tree
  }

  lemma WithHits(tree: Json, t: string, x: Json)
    ensures Child(With(tree, t, x), t) == Some(x) && Fits(With(tree, t, x), t)
    ensures Child(tree, t) == Some(x) ==> With(tree, t, x) == tree
    ensures With(tree, t, x).Obj? || (With(tree, t, x).Arr? && tree.Arr?)
    ensures tree.Obj? ==> With(tree, t, x).Obj?
  {
  }

  lemma WithAgain(tree: Json, t: string, x: Json, y: Json)
    requires Fits(tree, t)
    ensures With(With(tree, t, x), t, y) == With(tree, t, y)
  {
  }

  lemma WithFrame(tree: Json, t: string, x: Json, u: string)
    requires Fits(tree, t) && t != u
    ensures Child(With(tree, t, x), u) == Child(tree, u)
    ensures Fits(With(tree, t, x), u) == Fits(tree, u)
    ensures tree.Arr? ==> With(tree, t, x).Arr? && |With(tree, t, x).items| == |tree.items|
  {
    if Index(t).Some? && Index(t) == Index(u) { SameSlot(t, u); }
  }

  lemma WithSwap(tree: Json, t: string, x: Json, u: string, y: Json)
    requires Fits(tree, t) && Fits(tree, u) && t != u
    ensures With(With(tree, t, x), u, y) == With(With(tree, u, y), t, x)
  {
    if Index(t).Some? && Index(t) == Index(u) { SameSlot(t, u); }
  }

  lemma WithScalar(tree: Json, t: string, x: Json)
    requires !tree.Obj? && !tree.Arr?
    ensures With(Obj(map[]), t, x) == With(tree, t, x)
    ensures Child(Obj(map[]), t) == None && Child(tree, t) == None
  {
  }

  lemma WithoutHits(tree: Json, t: string, x: Json)
    requires tree.Obj?
    ensures Child(Without(tree, t), t) == None
    ensures With(Without(tree, t), t, x) == With(tree, t, x)
    ensures Without(With(tree, t, x), t) == Without(tree, t)
    ensures Child(tree, t).None? ==> Without(tree, t) == tree
  {
  }

  lemma WithoutFrame(tree: Json, t: string, u: string, y: Json)
    requires tree.Obj? && t != u
    ensures Child(Without(tree, t), u) == Child(tree, u)
    ensures Without(With(tree, u, y), t) == With(Without(tree, t), u, y)
  {
  }

  lemma SameSlot(a: string, b: string)
    requires Index(a).Some? && Index(a) == Index(b)
    ensures a == b
  {
    DecimalOfNumber(a);
    DecimalOfNumber(b);
  }

  // ---- one place --------------------------------------------------------------------------------------------

  /** `tree` with `value` at the end of `tokens`; objects on the way are created. */
  function Put(tree: Json, tokens: seq<string>, value: Json): Json
    decreases |tokens|
  {
    if tokens == [] then value else With(tree, tokens[0], Put(Below(tree, tokens[0]), tokens[1..], value))
  }

  /** `tree` without the entry of an object at the end of `tokens`. */
  function Cut(tree: Json, tokens: seq<string>): Json
    decreases |tokens|
  {
    if tokens == [] || Child(tree, tokens[0]).None? then tree
    else if |tokens| == 1 then Without(tree, tokens[0])
    else With(tree, tokens[0], Cut(Child(tree, tokens[0]).value, tokens[1..]))
  }

  /** `tree` with an object for everything the place lies in that was neither an object nor a list. */
  function Scaffold(tree: Json, tokens: seq<string>): Json
    decreases |tokens|
  {
    if tokens == [] || !Fits(tree, tokens[0]) then tree
    else if |tokens| > 1 then With(tree, tokens[0], Scaffold(Below(tree, tokens[0]), tokens[1..]))
    else if tree.Obj? || tree.Arr? then tree
    else Obj(map[])
  }

  /** No list on the way lacks the entry named. */
  predicate Open(tree: Json, tokens: seq<string>)
    decreases |tokens|
  {
    tokens == [] ||
    (Fits(tree, tokens[0]) && (Child(tree, tokens[0]).Some? ==> Open(Child(tree, tokens[0]).value, tokens[1..])))
  }

  /** What the place lies in is an object. */
  predicate InObject(tree: Json, tokens: seq<string>)
    decreases |tokens|
  {
    if |tokens| <= 1 then tokens != [] && tree.Obj?
    else Child(tree, tokens[0]).Some? && InObject(Child(tree, tokens[0]).value, tokens[1..])
  }

  /** Neither place is the other or lies in it. */
  predicate Aside(p: seq<string>, q: seq<string>) {
    !(p <= q) && !(q <= p)
  }

  lemma AsideStep(p: seq<string>, q: seq<string>)
    requires Aside(p, q)
    ensures p != [] && q != []
    ensures p[0] == q[0] ==> Aside(p[1..], q[1..]) && |p| > 1 && |q| > 1
  {
    assert p == [p[0]] + p[1..] && q == [q[0]] + q[1..];
  }

  lemma NothingBelow(tree: Json, p: seq<string>)
    ensures tree == Null ==> Open(tree, p) && (p != [] ==> At(tree, p) == None && !InObject(tree, p))
  {
  }

  lemma AtOne(tree: Json, p: seq<string>)
    requires |p| == 1
    ensures At(tree, p) == Child(tree, p[0])
  {
    hide Child;
    assert p[1..] == [];
  }

  lemma {:induction false} PutHits(tree: Json, p: seq<string>, value: Json)
    ensures At(Put(tree, p, value), p) == Some(value)
    decreases |p|
  {
    hide Child, With, Below;
    if p != [] {
      PutHits(Below(tree, p[0]), p[1..], value);
      WithHits(tree, p[0], Put(Below(tree, p[0]), p[1..], value));
    }
  }

  lemma {:induction false} PutFrame(tree: Json, p: seq<string>, value: Json, q: seq<string>)
    requires Open(tree, p) && Aside(p, q)
    ensures At(Put(tree, p, value), q) == At(tree, q)
    ensures Open(tree, q) ==> Open(Put(tree, p, value), q)
    ensures InObject(tree, q) ==> InObject(Put(tree, p, value), q)
    decreases |p|
  {
    hide Child, With, Fits, Aside;
    AsideStep(p, q);
    var below := Below(tree, p[0]);
    var put := Put(below, p[1..], value);
    WithHits(tree, p[0], put);
    NothingBelow(below, p[1..]);
    NothingBelow(below, q[1..]);
    if p[0] == q[0] { PutFrame(below, p[1..], value, q[1..]); } else { WithFrame(tree, p[0], put, q[0]); }
  }

  lemma {:induction false} CutHits(tree: Json, p: seq<string>)
    requires InObject(tree, p)
    ensures At(Cut(tree, p), p) == None
    decreases |p|
  {
    hide Child, With, Without;
    if Child(tree, p[0]).Some? {
      if |p| > 1 {
        CutHits(Child(tree, p[0]).value, p[1..]);
        WithHits(tree, p[0], Cut(Child(tree, p[0]).value, p[1..]));
      } else {
        WithoutHits(tree, p[0], Null);
      }
    }
  }

  lemma ChildFits(tree: Json, t: string)
    ensures Child(tree, t).Some? || tree.Obj? ==> Fits(tree, t)
    ensures Child(tree, t).Some? ==> tree.Obj? || tree.Arr?
  {
  }

  lemma WithoutObject(tree: Json, t: string)
    ensures tree.Obj? ==> Without(tree, t).Obj? && forall u :: Fits(Without(tree, t), u)
  {
  }

  lemma {:induction false} CutFrame(tree: Json, p: seq<string>, q: seq<string>)
    requires InObject(tree, p) && Aside(p, q)
    ensures At(Cut(tree, p), q) == At(tree, q)
    ensures Open(tree, q) ==> Open(Cut(tree, p), q)
    ensures InObject(tree, q) ==> InObject(Cut(tree, p), q)
    decreases |p|
  {
    hide Child, With, Without, Fits, Aside;
    AsideStep(p, q);
    ChildFits(tree, p[0]);
    if Child(tree, p[0]).Some? {
      var below := Child(tree, p[0]).value;
      if |p| == 1 {
        WithoutFrame(tree, p[0], q[0], Null);
        WithoutObject(tree, p[0]);
      } else {
        WithHits(tree, p[0], Cut(below, p[1..]));
        if p[0] == q[0] { CutFrame(below, p[1..], q[1..]); } else { WithFrame(tree, p[0], Cut(below, p[1..]), q[0]); }
      }
    }
  }

  /** Putting back what was there restores the document. */
  lemma {:induction false} PutBack(tree: Json, p: seq<string>, value: Json, was: Json)
    requires At(tree, p) == Some(was)
    ensures Put(Put(tree, p, value), p, was) == tree
    decreases |p|
  {
    hide Child, With, Fits;
    if p != [] {
      var below := Below(tree, p[0]);
      PutBack(below, p[1..], value, was);
      ChildFits(tree, p[0]);
      WithHits(tree, p[0], Put(below, p[1..], value));
      WithAgain(tree, p[0], Put(below, p[1..], value), below);
      WithHits(tree, p[0], below);
    }
  }

  /** So does putting back what was cut out. */
  lemma {:induction false} PutCut(tree: Json, p: seq<string>, was: Json)
    requires InObject(tree, p) && At(tree, p) == Some(was)
    ensures Put(Cut(tree, p), p, was) == tree
    decreases |p|
  {
    hide Child, With, Without, Fits;
    var below := Below(tree, p[0]);
    WithHits(tree, p[0], below);
    if |p| == 1 {
      WithoutHits(tree, p[0], was);
      assert p[1..] == [];
    } else {
      PutCut(below, p[1..], was);
      ChildFits(tree, p[0]);
      WithHits(tree, p[0], Cut(below, p[1..]));
      WithAgain(tree, p[0], Cut(below, p[1..]), below);
    }
  }

  lemma {:induction false} CutNothing(tree: Json, p: seq<string>)
    requires At(tree, p) == None
    ensures Cut(tree, p) == tree
    decreases |p|
  {
    hide Child, With;
    if |p| == 1 {
      AtOne(tree, p);
    } else if p != [] && Child(tree, p[0]).Some? {
      CutNothing(Child(tree, p[0]).value, p[1..]);
      WithHits(tree, p[0], Child(tree, p[0]).value);
    }
  }

  lemma {:induction false} PutAfter(tree: Json, p: seq<string>, value: Json)
    ensures Open(Put(tree, p, value), p)
    ensures p != [] && Open(tree, p) && At(tree, p) == None ==> InObject(Put(tree, p, value), p)
    decreases |p|
  {
    hide Child, With, Fits;
    if p != [] {
      var below := Below(tree, p[0]);
      var put := Put(below, p[1..], value);
      PutAfter(below, p[1..], value);
      NothingBelow(below, p[1..]);
      WithHits(tree, p[0], put);
      if |p| == 1 {
        AtOne(tree, p);
        if Fits(tree, p[0]) && Child(tree, p[0]).None? { WithMakesObject(tree, p[0], put); }
      }
    }
  }

  lemma WithMakesObject(tree: Json, t: string, x: Json)
    requires Fits(tree, t) && Child(tree, t).None?
    ensures With(tree, t, x).Obj?
  {
  }

  lemma {:induction false} CutAfter(tree: Json, p: seq<string>)
    requires InObject(tree, p)
    ensures Open(Cut(tree, p), p)
    decreases |p|
  {
    hide Child, With, Without, Fits;
    ChildFits(tree, p[0]);
    WithoutObject(tree, p[0]);
    if |p| == 1 {
      WithoutHits(tree, p[0], Null);
    } else {
      CutAfter(Child(tree, p[0]).value, p[1..]);
      WithHits(tree, p[0], Cut(Child(tree, p[0]).value, p[1..]));
    }
  }

  // ---- parents ----------------------------------------------------------------------------------------------

  /** The parents of a place are there. */
  predicate Housed(tree: Json, tokens: seq<string>) {
    At(tree, tokens).Some? || InObject(tree, tokens)
  }

  /** An object of such objects and nothing else. */
  predicate Hollow(tree: Json)
    decreases tree
  {
    tree.Obj? && forall name :: name in tree.entries ==> Hollow(tree.entries[name])
  }

  /** What becomes of a parent: an object stays an object and a list a list of the same length; where nothing
      was, or a value that holds no others, there is an object of created parents. */
  predicate Raised(before: Option<Json>, after: Option<Json>) {
    after.Some? &&
    match before
    case Some(Obj(_)) => after.value.Obj? && (Hollow(before.value) ==> Hollow(after.value))
    case Some(Arr(items)) => after.value.Arr? && |after.value.items| == |items|
    case _ => Hollow(after.value)
  }

  /** Where the parents were all there, and only there, nothing is created. */
  lemma {:induction false} ScaffoldStands(tree: Json, p: seq<string>)
    requires p != [] && Open(tree, p)
    ensures Scaffold(tree, p) == tree <==> Housed(tree, p)
    decreases |p|
  {
    hide With;
    if |p| == 1 {
      AtOne(tree, p);
    } else {
      var below := Below(tree, p[0]);
      WithHits(tree, p[0], Scaffold(below, p[1..]));
      if Child(tree, p[0]).Some? { ScaffoldStands(below, p[1..]); }
    }
  }

  lemma {:induction false} ScaffoldHouses(tree: Json, p: seq<string>)
    requires p != [] && Open(tree, p)
    ensures Housed(Scaffold(tree, p), p)
    decreases |p|
  {
    hide With;
    if |p| == 1 {
      AtOne(tree, p);
    } else {
      var below := Below(tree, p[0]);
      WithHits(tree, p[0], Scaffold(below, p[1..]));
      ScaffoldHouses(below, p[1..]);
    }
  }

  /** Cutting out what was put where nothing was leaves the parents. */
  lemma {:induction false} CutPut(tree: Json, p: seq<string>, value: Json)
    requires p != [] && Open(tree, p) && At(tree, p).None?
    ensures Cut(Put(tree, p, value), p) == Scaffold(tree, p)
    decreases |p|
  {
    hide With;
    var below := Below(tree, p[0]);
    var put := Put(below, p[1..], value);
    WithHits(tree, p[0], put);
    if |p| == 1 {
      assert p[1..] == [] && put == value;
      CutPutOne(tree, p[0], value);
    } else {
      CutPut(below, p[1..], value);
      WithAgain(tree, p[0], put, Cut(put, p[1..]));
    }
  }

  lemma CutPutOne(tree: Json, t: string, value: Json)
    requires Fits(tree, t) && Child(tree, t).None?
    ensures Without(With(tree, t, value), t) == if tree.Obj? then tree else Obj(map[])
  {
  }

  lemma {:induction false} ScaffoldFrame(tree: Json, p: seq<string>, q: seq<string>)
    requires !(q < p)
    ensures At(Scaffold(tree, p), q) == At(tree, q)
    ensures Open(tree, q) ==> Open(Scaffold(tree, p), q)
    ensures InObject(tree, q) ==> InObject(Scaffold(tree, p), q)
    decreases |p|
  {
    hide With;
    if p != [] && q != [] && |p| > 1 && Fits(tree, p[0]) {
      assert p == [p[0]] + p[1..] && q == [q[0]] + q[1..];
      var below := Below(tree, p[0]);
      WithHits(tree, p[0], Scaffold(below, p[1..]));
      NothingBelow(below, q[1..]);
      if p[0] == q[0] {
        ScaffoldFrame(below, p[1..], q[1..]);
      } else {
        WithFrame(tree, p[0], Scaffold(below, p[1..]), q[0]);
      }
    }
  }

  lemma {:induction false} ScaffoldHollow(tree: Json, p: seq<string>)
    requires p != [] && !tree.Arr? && (tree.Obj? ==> Hollow(tree))
    ensures Hollow(Scaffold(tree, p))
    decreases |p|
  {
    if |p| > 1 { ScaffoldHollow(Below(tree, p[0]), p[1..]); }
  }

  lemma {:induction false} ScaffoldRaises(tree: Json, p: seq<string>, q: seq<string>)
    requires q < p && Open(tree, p)
    ensures Raised(At(tree, q), At(Scaffold(tree, p), q))
    decreases |p|
  {
    hide Hollow, Index;
    if q == [] {
      if !tree.Arr? && (tree.Obj? ==> Hollow(tree)) { ScaffoldHollow(tree, p); }
    } else {
      assert p == [p[0]] + p[1..] && q == [q[0]] + q[1..];
      ScaffoldRaises(Below(tree, p[0]), p[1..], q[1..]);
      WithHits(tree, p[0], Scaffold(Below(tree, p[0]), p[1..]));
    }
  }

  lemma {:induction false} ScaffoldPut(tree: Json, p: seq<string>, value: Json, q: seq<string>)
    requires Open(tree, p) && Open(tree, q) && Aside(p, q)
    ensures Scaffold(Put(tree, p, value), q) == Put(Scaffold(tree, q), p, value)
    decreases |p|
  {
    hide With, Child, Aside;
    AsideStep(p, q);
    var t, u, x, y := p[0], q[0], Put(Below(tree, p[0]), p[1..], value), Scaffold(Below(tree, q[0]), q[1..]);
    WithHits(tree, t, x);
    WithHits(tree, u, y);
    if t == u {
      NothingBelow(Below(tree, t), p[1..]);
      NothingBelow(Below(tree, t), q[1..]);
      ScaffoldPut(Below(tree, t), p[1..], value, q[1..]);
      WithAgain(tree, t, x, Scaffold(x, q[1..]));
      WithAgain(tree, t, y, Put(y, p[1..], value));
    } else {
      WithFrame(tree, t, x, u);
      WithFrame(tree, u, y, t);
      WithSwap(tree, t, x, u, y);
      if |q| == 1 && !tree.Obj? && !tree.Arr? { WithScalar(tree, t, x); }
    }
  }

  lemma {:induction false} ScaffoldCut(tree: Json, p: seq<string>, q: seq<string>)
    requires InObject(tree, p) && Open(tree, q) && Aside(p, q)
    ensures Scaffold(Cut(tree, p), q) == Cut(Scaffold(tree, q), p)
    decreases |p|
  {
    hide With, Without, Child, Aside;
    AsideStep(p, q);
    ChildFits(tree, p[0]);
    var t, u, x, y := p[0], q[0], Cut(Below(tree, p[0]), p[1..]), Scaffold(Below(tree, q[0]), q[1..]);
    WithHits(tree, t, x);
    WithHits(tree, u, y);
    if t == u {
      ScaffoldCut(Below(tree, t), p[1..], q[1..]);
      WithAgain(tree, t, x, Scaffold(x, q[1..]));
      WithAgain(tree, t, y, Cut(y, p[1..]));
    } else {
      WithFrame(tree, u, y, t);
      if |p| == 1 {
        WithoutFrame(tree, t, u, y);
        WithoutObject(tree, t);
      } else {
        WithFrame(tree, t, x, u);
        WithSwap(tree, t, x, u, y);
      }
    }
  }

  // ---- a list of changes ------------------------------------------------------------------------------------

  function Apply(tree: Json, change: FieldChange): Json {
    if change.to.Some? then Put(tree, PathOf(change), change.to.value) else Cut(tree, PathOf(change))
  }

  function Applied(tree: Json, changes: seq<FieldChange>): Json
    decreases |changes|
  {
    if changes == [] then tree else Applied(Apply(tree, changes[0]), changes[1..])
  }

  /** The change says truly what its place holds, and can be made there. */
  predicate Sound(tree: Json, change: FieldChange) {
    && PathOf(change) != [] && change.from == At(tree, PathOf(change)) && Open(tree, PathOf(change))
    && (change.to.None? ==> InObject(tree, PathOf(change)))
  }

  predicate AllSound(tree: Json, changes: seq<FieldChange>) {
    forall i :: 0 <= i < |changes| ==> Sound(tree, changes[i])
  }

  predicate AllAside(changes: seq<FieldChange>) {
    forall i, j :: 0 <= i < j < |changes| ==> Aside(PathOf(changes[i]), PathOf(changes[j]))
  }

  lemma ApplyOne(tree: Json, change: FieldChange, other: seq<string>)
    requires Sound(tree, change)
    ensures At(Apply(tree, change), PathOf(change)) == change.to
    ensures Aside(PathOf(change), other) ==>
      && At(Apply(tree, change), other) == At(tree, other)
      && (Open(tree, other) ==> Open(Apply(tree, change), other))
      && (InObject(tree, other) ==> InObject(Apply(tree, change), other))
  {
    hide Put, Cut, At, Open, InObject, Aside;
    var p := PathOf(change);
    if change.to.Some? {
      PutHits(tree, p, change.to.value);
      if Aside(p, other) { PutFrame(tree, p, change.to.value, other); }
    } else {
      CutHits(tree, p);
      if Aside(p, other) { CutFrame(tree, p, other); }
    }
  }

  lemma RestSound(tree: Json, changes: seq<FieldChange>)
    requires changes != [] && AllSound(tree, changes) && AllAside(changes)
    ensures AllSound(Apply(tree, changes[0]), changes[1..]) && AllAside(changes[1..])
  {
    hide Apply, At, Open, InObject, Aside;
    assert Sound(tree, changes[0]);
    forall i | 0 <= i < |changes| - 1 ensures Sound(Apply(tree, changes[0]), changes[1..][i]) {
      assert Sound(tree, changes[i + 1]) && Aside(PathOf(changes[0]), PathOf(changes[i + 1]));
      ApplyOne(tree, changes[0], PathOf(changes[i + 1]));
    }
  }

  /** Changes to places apart from one another have each place hold what its change says, and leave every
      place apart from all of them as it was. */
  lemma {:induction false} AppliedHits(tree: Json, changes: seq<FieldChange>, q: seq<string>)
    requires AllSound(tree, changes) && AllAside(changes)
    ensures forall i :: 0 <= i < |changes| ==> At(Applied(tree, changes), PathOf(changes[i])) == changes[i].to
    ensures (forall i :: 0 <= i < |changes| ==> Aside(PathOf(changes[i]), q)) ==>
      At(Applied(tree, changes), q) == At(tree, q)
    decreases |changes|
  {
    hide Apply, At, Aside, PathOf, Sound;
    if changes != [] {
      var first, rest := Apply(tree, changes[0]), changes[1..];
      RestSound(tree, changes);
      assert Sound(tree, changes[0]);
      ApplyOne(tree, changes[0], q);
      AppliedHits(first, rest, q);
      AppliedHits(first, rest, PathOf(changes[0]));
      forall i | 0 <= i < |rest| ensures Aside(PathOf(rest[i]), PathOf(changes[0])) {
        assert Aside(PathOf(changes[0]), PathOf(changes[i + 1]));
        AsideEither(PathOf(changes[0]), PathOf(changes[i + 1]));
      }
      forall i | 0 <= i < |changes| ensures At(Applied(tree, changes), PathOf(changes[i])) == changes[i].to {
        if i > 0 { assert changes[i] == rest[i - 1]; }
      }
      if forall i :: 0 <= i < |changes| ==> Aside(PathOf(changes[i]), q) {
        assert Aside(PathOf(changes[0]), q);
        forall i | 0 <= i < |rest| ensures Aside(PathOf(rest[i]), q) { assert rest[i] == changes[i + 1]; }
      }
    }
  }

  lemma AsideEither(p: seq<string>, q: seq<string>)
    ensures Aside(p, q) <==> Aside(q, p)
  {
  }

  function Inverse(change: FieldChange): FieldChange {
    FieldChange(change.path, change.to, change.from)
  }

  /** The inverses of a list of changes, last first. */
  function Undo(changes: seq<FieldChange>): seq<FieldChange>
    decreases |changes|
  {
    if changes == [] then [] else Undo(changes[1..]) + [Inverse(changes[0])]
  }

  lemma {:induction false} AppliedThen(tree: Json, changes: seq<FieldChange>, last: FieldChange)
    ensures Applied(tree, changes + [last]) == Apply(Applied(tree, changes), last)
    decreases |changes|
  {
    hide Apply;
    if changes == [] {
      assert ([last])[1..] == [] && changes + [last] == [last];
    } else {
      AppliedThen(Apply(tree, changes[0]), changes[1..], last);
      assert (changes + [last])[1..] == changes[1..] + [last];
    }
  }

  // ---- what taking them back leaves -------------------------------------------------------------------------

  /** `tree` with the parents of every changed place. */
  function Scaffolded(tree: Json, changes: seq<FieldChange>): Json
    decreases |changes|
  {
    if changes == [] then tree else Scaffolded(Scaffold(tree, PathOf(changes[0])), changes[1..])
  }

  lemma InverseSound(tree: Json, change: FieldChange)
    requires Sound(tree, change)
    ensures Sound(Apply(tree, change), Inverse(change))
  {
    hide Put, Cut, At, Open, InObject;
    var p := PathOf(change);
    assert PathOf(Inverse(change)) == p;
    ApplyOne(tree, change, p);
    if change.to.Some? { PutAfter(tree, p, change.to.value); } else { CutAfter(tree, p); }
    if change.to.None? && change.from.None? { CutNothing(tree, p); }
  }

  /** Every place can be created. */
  predicate AllOpen(tree: Json, changes: seq<FieldChange>) {
    forall i :: 0 <= i < |changes| ==> PathOf(changes[i]) != [] && Open(tree, PathOf(changes[i]))
  }

  lemma SoundOpen(tree: Json, changes: seq<FieldChange>)
    requires AllSound(tree, changes)
    ensures AllOpen(tree, changes)
  {
    hide Open, PathOf, At, InObject;
    assert forall i :: 0 <= i < |changes| ==> Sound(tree, changes[i]);
  }

  lemma RestOpen(tree: Json, changes: seq<FieldChange>)
    requires changes != [] && AllOpen(tree, changes) && AllAside(changes)
    ensures AllOpen(Scaffold(tree, PathOf(changes[0])), changes[1..]) && AllAside(changes[1..])
  {
    hide Scaffold, At, Open, InObject, PathOf;
    var q := PathOf(changes[0]);
    forall i | 0 <= i < |changes| - 1
      ensures PathOf(changes[1..][i]) != [] && Open(Scaffold(tree, q), PathOf(changes[1..][i]))
    {
      assert Aside(q, PathOf(changes[i + 1]));
      ScaffoldFrame(tree, q, PathOf(changes[i + 1]));
    }
  }

  /** Making a change and creating the parents of other places can be done in either order. */
  lemma {:induction false} ApplyScaffolded(tree: Json, changes: seq<FieldChange>, change: FieldChange)
    requires Sound(tree, change) && AllOpen(tree, changes) && AllAside(changes)
    requires forall i :: 0 <= i < |changes| ==> Aside(PathOf(change), PathOf(changes[i]))
    ensures Apply(Scaffolded(tree, changes), change) == Scaffolded(Apply(tree, change), changes)
    decreases |changes|
  {
    hide Put, Cut, At, Open, InObject, Scaffold, PathOf;
    if changes != [] {
      var p, q := PathOf(change), PathOf(changes[0]);
      assert Aside(p, q);
      if change.to.Some? { ScaffoldPut(tree, p, change.to.value, q); } else { ScaffoldCut(tree, p, q); }
      ScaffoldFrame(tree, q, p);
      RestOpen(tree, changes);
      ApplyScaffolded(Scaffold(tree, q), changes[1..], change);
    }
  }

  /** Taking back a change restores what its place held, and leaves the parents that were made for it. */
  lemma TakeBack(tree: Json, change: FieldChange)
    requires Sound(tree, change)
    ensures Apply(Apply(tree, change), Inverse(change)) == Scaffold(tree, PathOf(change))
  {
    hide Put, Cut, At, Open, InObject, Scaffold;
    var p := PathOf(change);
    if change.from.Some? || change.to.None? { ScaffoldStands(tree, p); }
    if change.from.None? {
      if change.to.None? { CutNothing(tree, p); } else { CutPut(tree, p, change.to.value); }
    } else if change.to.None? {
      PutCut(tree, p, change.from.value);
    } else {
      PutBack(tree, p, change.to.value, change.from.value);
    }
  }

  /** Taking back a list of changes, last first, leaves exactly the document they were made to with the
      parents of the changed places in it. */
  lemma {:induction false} UndoIs(tree: Json, changes: seq<FieldChange>)
    requires AllSound(tree, changes) && AllAside(changes)
    ensures Applied(Applied(tree, changes), Undo(changes)) == Scaffolded(tree, changes)
    decreases |changes|
  {
    hide Apply, At, InObject, Open, Aside, PathOf, Scaffold;
    if changes != [] {
      var first, rest, back := Apply(tree, changes[0]), changes[1..], Inverse(changes[0]);
      RestSound(tree, changes);
      assert Sound(tree, changes[0]);
      UndoIs(first, rest);
      AppliedThen(Applied(tree, changes), Undo(rest), back);
      InverseSound(tree, changes[0]);
      SoundOpen(first, rest);
      SamePath(changes[0]);
      forall i | 0 <= i < |rest| ensures Aside(PathOf(back), PathOf(rest[i])) {
        assert Aside(PathOf(changes[0]), PathOf(changes[i + 1]));
      }
      ApplyScaffolded(first, rest, back);
      TakeBack(tree, changes[0]);
    }
  }

  lemma SamePath(change: FieldChange)
    ensures PathOf(Inverse(change)) == PathOf(change)
  {
  }

  predicate AllHoused(tree: Json, changes: seq<FieldChange>) {
    forall i :: 0 <= i < |changes| ==> Housed(tree, PathOf(changes[i]))
  }

  lemma {:induction false} ScaffoldedHouses(tree: Json, changes: seq<FieldChange>, i: nat)
    requires AllOpen(tree, changes) && AllAside(changes) && i < |changes|
    ensures Housed(Scaffolded(tree, changes), PathOf(changes[i]))
    decreases |changes|
  {
    hide At, InObject, Open, Aside, PathOf, Scaffold;
    var q := PathOf(changes[0]);
    RestOpen(tree, changes);
    if i > 0 {
      ScaffoldedHouses(Scaffold(tree, q), changes[1..], i - 1);
    } else {
      ScaffoldHouses(tree, q);
      ScaffoldFrame(tree, q, q);
      forall j | 0 <= j < |changes| - 1 ensures !(q < PathOf(changes[1..][j])) {
        assert Aside(PathOf(changes[0]), PathOf(changes[j + 1])) && changes[1..][j] == changes[j + 1];
        AsideApart(q, PathOf(changes[j + 1]));
      }
      ScaffoldedFrame(Scaffold(tree, q), changes[1..], q);
    }
  }

  lemma AsideApart(p: seq<string>, q: seq<string>)
    requires Aside(p, q)
    ensures !(p < q)
  {
  }

  lemma {:induction false} ScaffoldedFrame(tree: Json, changes: seq<FieldChange>, q: seq<string>)
    requires forall i :: 0 <= i < |changes| ==> !(q < PathOf(changes[i]))
    ensures At(Scaffolded(tree, changes), q) == At(tree, q)
    ensures InObject(tree, q) ==> InObject(Scaffolded(tree, changes), q)
    decreases |changes|
  {
    hide At, InObject, Open, PathOf, Scaffold;
    if changes != [] {
      ScaffoldFrame(tree, PathOf(changes[0]), q);
      ScaffoldedFrame(Scaffold(tree, PathOf(changes[0])), changes[1..], q);
    }
  }

  lemma {:induction false} ScaffoldedRaises(tree: Json, changes: seq<FieldChange>, q: seq<string>)
    requires AllOpen(tree, changes) && AllAside(changes)
    requires exists i :: 0 <= i < |changes| && q < PathOf(changes[i])
    ensures Raised(At(tree, q), At(Scaffolded(tree, changes), q))
    decreases |changes|
  {
    hide At, InObject, Open, Aside, PathOf, Scaffold, Hollow;
    var p, first, rest := PathOf(changes[0]), Scaffold(tree, PathOf(changes[0])), changes[1..];
    RestOpen(tree, changes);
    if q < p { ScaffoldRaises(tree, p, q); } else { ScaffoldFrame(tree, p, q); }
    if exists i :: 0 <= i < |rest| && q < PathOf(rest[i]) {
      ScaffoldedRaises(first, rest, q);
      HollowObject(At(first, q));
    } else {
      assert forall i :: 0 < i < |changes| ==> changes[i] == rest[i - 1];
      ScaffoldedFrame(first, rest, q);
    }
  }

  lemma HollowObject(found: Option<Json>)
    ensures found.Some? && Hollow(found.value) ==> found.value.Obj?
  {
  }

  /** Taking back a list of changes, last first, restores the document to the letter exactly when the parents
      of all the changed places were there. */
  lemma UndoRestores(tree: Json, changes: seq<FieldChange>)
    requires AllSound(tree, changes) && AllAside(changes)
    ensures Applied(Applied(tree, changes), Undo(changes)) == tree <==> AllHoused(tree, changes)
  {
    hide At, InObject, Open, Aside, PathOf, Scaffold, Scaffolded, Applied, Undo, Sound, Housed;
    UndoIs(tree, changes);
    SoundOpen(tree, changes);
    forall i | 0 <= i < |changes| ensures Housed(Scaffolded(tree, changes), PathOf(changes[i])) {
      ScaffoldedHouses(tree, changes, i);
    }
    if AllHoused(tree, changes) { HousedStands(tree, changes); }
  }

  lemma {:induction false} HousedStands(tree: Json, changes: seq<FieldChange>)
    requires AllOpen(tree, changes) && AllHoused(tree, changes)
    ensures Scaffolded(tree, changes) == tree
    decreases |changes|
  {
    hide At, InObject, Open, PathOf, Scaffold;
    if changes != [] {
      assert Housed(tree, PathOf(changes[0]));
      ScaffoldStands(tree, PathOf(changes[0]));
      HousedStands(tree, changes[1..]);
    }
  }

  /** Whether or not they were there: every place that is no parent of a changed one reads as it did before
      the changes were made and taken back, and the parents are raised. */
  lemma UndoReads(tree: Json, changes: seq<FieldChange>, q: seq<string>)
    requires AllSound(tree, changes) && AllAside(changes)
    ensures var after := Applied(Applied(tree, changes), Undo(changes));
      if exists i :: 0 <= i < |changes| && q < PathOf(changes[i])
      then Raised(At(tree, q), At(after, q)) else At(after, q) == At(tree, q)
  {
    hide At, Sound, PathOf, Aside, Undo, Applied, Scaffolded, Raised;
    UndoIs(tree, changes);
    SoundOpen(tree, changes);
    if exists i :: 0 <= i < |changes| && q < PathOf(changes[i]) {
      ScaffoldedRaises(tree, changes, q);
    } else {
      ScaffoldedFrame(tree, changes, q);
    }
  }
}
