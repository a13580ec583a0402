/** Which served resource a query's words name (dynamic.rs `Selector::matches`, `resolve_for`). */
module Surface {
  import opened Kube

  datatype Verb = Get | List | Watch | Create | Update | Patch | Delete

  datatype Resource = Resource(
    group: string, version: string, kind: string, plural: string, shortNames: seq<string>, verbs: set<Verb>)

  datatype Selector = Selector(
    kind: Option<string>, resource: Option<string>, group: Option<string>, version: Option<string>)

  datatype Resolution =
    | Resolved(resource: Resource)
    | Unasked
    | NotServed
    | Ambiguous(candidates: seq<string>)
    | NotListable(gvr: string)
    | NotGettable(gvr: string)

  function AsciiLower(c: char): char {
    if 'A' <= c <= 'Z' then (c as int + 32) as char else c
  }

  predicate EqIgnoreAsciiCase(a: string, b: string) {
    |a| == |b| && forall i :: 0 <= i < |a| ==> AsciiLower(a[i]) == AsciiLower(b[i])
  }

  predicate NamesSomething(selector: Selector) {
    selector.kind.Some? || selector.resource.Some?
  }

  /** The kind exactly, the plural or a short name in either case; group and version narrow. */
  predicate Matches(selector: Selector, r: Resource) {
    && (selector.group.Some? ==> r.group == selector.group.value)
    && (selector.version.Some? ==> r.version == selector.version.value)
    && (selector.kind.Some? ==> r.kind == selector.kind.value)
    && (selector.resource.Some? ==>
          EqIgnoreAsciiCase(r.plural, selector.resource.value)
          || exists i :: 0 <= i < |r.shortNames| && EqIgnoreAsciiCase(r.shortNames[i], selector.resource.value))
  }

  function Matched(selector: Selector, all: seq<Resource>): seq<Resource>
    decreases |all|
  {
    if all == [] then []
    else Matched(selector, all[..|all| - 1]) + if Matches(selector, all[|all| - 1]) then [all[|all| - 1]] else []
  }

  // ---- sorting ----------------------------------------------------------------------------------------------

  predicate TextBefore(a: string, b: string) {
    b != "" && (a == "" || a[0] < b[0] || (a[0] == b[0] && TextBefore(a[1..], b[1..])))
  }

  /** The sort key is the group, then the kind. */
  predicate KeyBefore(a: Resource, b: Resource) {
    TextBefore(a.group, b.group) || (a.group == b.group && TextBefore(a.kind, b.kind))
  }

  /** A stable sort by that key. */
  function Sorted(all: seq<Resource>): seq<Resource>
    decreases |all|
  {
    if all == [] then [] else Placed(Sorted(all[..|all| - 1]), all[|all| - 1])
  }

  /** `r` after everything that does not come after it. */
  function Placed(sorted: seq<Resource>, r: Resource): seq<Resource>
    decreases |sorted|
  {
    if sorted == [] || !KeyBefore(r, sorted[|sorted| - 1]) then sorted + [r]
    else Placed(sorted[..|sorted| - 1], r) + [sorted[|sorted| - 1]]
  }

  function Gvr(r: Resource): string {
    r.group + "/" + r.version + "/" + r.plural
  }

  /** The line of an ambiguity that stands for one match. */
  function Candidate(r: Resource): string {
    "--kind " + r.kind + " --group '" + r.group + "' (version " + r.version + ", resource " + r.plural + ")"
  }

  function Candidates(several: seq<Resource>): (texts: seq<string>)
    ensures |texts| == |several|
    ensures forall i :: 0 <= i < |several| ==> texts[i] == Candidate(several[i])
  {
    seq(|several|, i requires 0 <= i < |several| => Candidate(several[i]))
  }

  function Decide(matched: seq<Resource>, verb: Verb): Resolution {
    if matched == [] then NotServed
    else if |matched| > 1 then Ambiguous(Candidates(matched))
    else if verb in matched[0].verbs then Resolved(matched[0])
    else if verb.Get? then NotGettable(Gvr(matched[0]))
    else NotListable(Gvr(matched[0]))
  }

  function ResolveFor(selector: Selector, all: seq<Resource>, verb: Verb): Resolution {
    if !NamesSomething(selector) then Unasked else Decide(Sorted(Matched(selector, all)), verb)
  }

  // ---- filtering and sorting keep what they should ----------------------------------------------------------

  lemma {:induction false} MatchedCount(selector: Selector, all: seq<Resource>, r: Resource)
    ensures multiset(Matched(selector, all))[r] == if Matches(selector, r) then multiset(all)[r] else 0
    decreases |all|
  {
    hide Matches;
    if all != [] {
      var front, last := all[..|all| - 1], all[|all| - 1];
      MatchedCount(selector, front, r);
      assert all == front + [last];
    }
  }

  lemma {:induction false} PlacedKeeps(sorted: seq<Resource>, r: Resource)
    ensures multiset(Placed(sorted, r)) == multiset(sorted) + multiset{r}
    decreases |sorted|
  {
    hide KeyBefore;
    if sorted != [] {
      var front, last := sorted[..|sorted| - 1], sorted[|sorted| - 1];
      PlacedKeeps(front, r);
      assert sorted == front + [last];
    }
  }

  lemma {:induction false} SortedKeeps(all: seq<Resource>)
    ensures multiset(Sorted(all)) == multiset(all) && |Sorted(all)| == |all|
    decreases |all|
  {
    if all != [] {
      var front, last := all[..|all| - 1], all[|all| - 1];
      SortedKeeps(front);
      PlacedKeeps(Sorted(front), last);
      assert all == front + [last];
    }
    assert |multiset(Sorted(all))| == |Sorted(all)| && |multiset(all)| == |all|;
  }

  lemma {:induction false} TextBeforeTotal(a: string, b: string)
    ensures a == b || TextBefore(a, b) || TextBefore(b, a)
    ensures !(TextBefore(a, b) && TextBefore(b, a)) && !TextBefore(a, a)
    decreases |a|
  {
    if a != "" {
      TextBeforeTotal(a[1..], if b == "" then "" else b[1..]);
      if b != "" { assert a == [a[0]] + a[1..] && b == [b[0]] + b[1..]; }
    }
  }

  lemma {:induction false} TextBeforeTransitive(a: string, b: string, c: string)
    requires TextBefore(a, b) && TextBefore(b, c)
    ensures TextBefore(a, c)
    decreases |a|
  {
    if a != "" && a[0] == b[0] == c[0] { TextBeforeTransitive(a[1..], b[1..], c[1..]); }
  }

  lemma KeyOrder(a: Resource, b: Resource, c: Resource)
    ensures !(KeyBefore(a, b) && KeyBefore(b, a)) && !KeyBefore(a, a)
    ensures KeyBefore(a, b) && KeyBefore(b, c) ==> KeyBefore(a, c)
    ensures !KeyBefore(a, b) && !KeyBefore(b, a) ==> a.group == b.group && a.kind == b.kind
    ensures !KeyBefore(b, a) && !KeyBefore(c, b) ==> !KeyBefore(c, a)
  {
    hide TextBefore;
    TextBeforeTotal(a.group, b.group);
    TextBeforeTotal(a.kind, b.kind);
    TextBeforeTotal(b.group, c.group);
    TextBeforeTotal(b.kind, c.kind);
    TextBeforeTotal(a.group, c.group);
    TextBeforeTotal(a.kind, c.kind);
    TextBeforeTotal(a.group, a.group);
    TextBeforeTotal(a.kind, a.kind);
    if TextBefore(a.group, b.group) && TextBefore(b.group, c.group) { TextBeforeTransitive(a.group, b.group, c.group); }
    if TextBefore(a.kind, b.kind) && TextBefore(b.kind, c.kind) { TextBeforeTransitive(a.kind, b.kind, c.kind); }
    if TextBefore(c.group, a.group) && TextBefore(a.group, b.group) { TextBeforeTransitive(c.group, a.group, b.group); }
    if TextBefore(c.kind, a.kind) && TextBefore(a.kind, b.kind) { TextBeforeTransitive(c.kind, a.kind, b.kind); }
  }

  predicate IsSorted(all: seq<Resource>) {
    forall i, j :: 0 <= i < j < |all| ==> !KeyBefore(all[j], all[i])
  }

  lemma {:induction false} PlacedSorts(sorted: seq<Resource>, r: Resource)
    requires IsSorted(sorted)
    ensures IsSorted(Placed(sorted, r))
    decreases |sorted|
  {
    hide KeyBefore;
    if sorted == [] {
    } else {
      var front, last := sorted[..|sorted| - 1], sorted[|sorted| - 1];
      if !KeyBefore(r, last) {
        forall i | 0 <= i < |sorted| ensures !KeyBefore(r, sorted[i]) {
          KeyOrder(sorted[i], last, r);
        }
      } else {
        PlacedSorts(front, r);
        PlacedKeeps(front, r);
        forall x | x in Placed(front, r) ensures !KeyBefore(last, x) {
          assert x in multiset(Placed(front, r));
          KeyOrder(last, r, last);
          assert x == r || x in front;
        }
      }
    }
  }

  lemma {:induction false} SortedSorts(all: seq<Resource>)
    ensures IsSorted(Sorted(all))
    decreases |all|
  {
    if all != [] {
      SortedSorts(all[..|all| - 1]);
      PlacedSorts(Sorted(all[..|all| - 1]), all[|all| - 1]);
    }
  }

  // ---- main results -----------------------------------------------------------------------------------------

  /** The same answer, up to the order of the candidates of an ambiguity. */
  predicate SameAnswer(a: Resolution, b: Resolution) {
    if a.Ambiguous? && b.Ambiguous?
    then |a.candidates| == |b.candidates| && (set c | c in a.candidates) == (set c | c in b.candidates)
    else a == b
  }

  lemma MembersAgree(a: seq<Resource>, b: seq<Resource>)
    requires multiset(a) == multiset(b)
    ensures |a| == |b| && forall r :: r in a <==> r in b
  {
    assert |multiset(a)| == |a| && |multiset(b)| == |b|;
    forall r ensures r in a <==> r in b { assert r in multiset(a) <==> r in multiset(b); }
  }

  lemma DecideAgrees(a: seq<Resource>, b: seq<Resource>, verb: Verb)
    requires multiset(a) == multiset(b)
    ensures SameAnswer(Decide(a, verb), Decide(b, verb))
  {
    hide Candidate;
    MembersAgree(a, b);
    if |a| == 1 {
      assert a[0] in b;
    } else if |a| > 1 {
      forall c ensures c in Candidates(a) <==> c in Candidates(b) {
        if c in Candidates(a) {
          var i :| 0 <= i < |a| && Candidates(a)[i] == c;
          assert a[i] in b;
          var j :| 0 <= j < |b| && b[j] == a[i];
          assert Candidates(b)[j] == c;
        }
        if c in Candidates(b) {
          var j :| 0 <= j < |b| && Candidates(b)[j] == c;
          assert b[j] in a;
          var i :| 0 <= i < |a| && a[i] == b[j];
          assert Candidates(a)[i] == c;
        }
      }
    }
  }

  /** The order a snapshot lists its resources in decides nothing. */
  lemma OrderDecidesNothing(selector: Selector, a: seq<Resource>, b: seq<Resource>, verb: Verb)
    requires multiset(a) == multiset(b)
    ensures SameAnswer(ResolveFor(selector, a, verb), ResolveFor(selector, b, verb))
  {
    hide Matched, Matches, Decide, SameAnswer;
    if NamesSomething(selector) {
      forall r ensures multiset(Matched(selector, a))[r] == multiset(Matched(selector, b))[r] {
        MatchedCount(selector, a, r);
        MatchedCount(selector, b, r);
      }
      assert multiset(Matched(selector, a)) == multiset(Matched(selector, b));
      SortedKeeps(Matched(selector, a));
      SortedKeeps(Matched(selector, b));
      DecideAgrees(Sorted(Matched(selector, a)), Sorted(Matched(selector, b)), verb);
    } else {
      assert SameAnswer(Unasked, Unasked) by { SameAsItself(Unasked); }
    }
  }

  lemma SameAsItself(a: Resolution)
    ensures SameAnswer(a, a)
  {
  }

  /** No two different resources share a group and a kind. */
  predicate DistinctKeys(all: seq<Resource>) {
    forall x, y :: x in all && y in all && x.group == y.group && x.kind == y.kind ==> x == y
  }

  lemma LastAgrees(a: seq<Resource>, b: seq<Resource>)
    requires multiset(a) == multiset(b) && IsSorted(a) && IsSorted(b) && DistinctKeys(a) && a != []
    ensures |a| == |b| && a[|a| - 1] == b[|b| - 1]
  {
    hide KeyBefore;
    MembersAgree(a, b);
    var x, y := a[|a| - 1], b[|b| - 1];
    assert x in b && y in a;
    KeyOrder(x, y, x);
  }

  lemma FrontKeeps(a: seq<Resource>)
    requires a != [] && IsSorted(a) && DistinctKeys(a)
    ensures IsSorted(a[..|a| - 1]) && DistinctKeys(a[..|a| - 1])
  {
    hide KeyBefore;
  }

  lemma FrontSorted(a: seq<Resource>)
    requires a != [] && IsSorted(a)
    ensures IsSorted(a[..|a| - 1])
  {
    hide KeyBefore;
  }

  lemma FrontsAgree(a: seq<Resource>, b: seq<Resource>)
    requires multiset(a) == multiset(b) && |a| == |b| > 0 && a[|a| - 1] == b[|b| - 1]
    ensures multiset(a[..|a| - 1]) == multiset(b[..|b| - 1])
  {
    var n := |a| - 1;
    assert a == a[..n] + [a[n]] && b == b[..n] + [b[n]];
    assert multiset(a[..n]) == multiset(a) - multiset{a[n]} && multiset(b[..n]) == multiset(b) - multiset{b[n]};
  }

  lemma {:induction false} SortedUnique(a: seq<Resource>, b: seq<Resource>)
    requires multiset(a) == multiset(b) && IsSorted(a) && IsSorted(b) && DistinctKeys(a)
    ensures a == b
    decreases |a|
  {
    hide IsSorted, DistinctKeys;
    MembersAgree(a, b);
    if a != [] {
      var n := |a| - 1;
      LastAgrees(a, b);
      FrontsAgree(a, b);
      FrontKeeps(a);
      FrontSorted(b);
      SortedUnique(a[..n], b[..n]);
      assert a == a[..n] + [a[n]] && b == b[..n] + [b[n]];
    }
  }

  lemma DistinctTravels(a: seq<Resource>, b: seq<Resource>)
    requires multiset(a) == multiset(b) && DistinctKeys(a)
    ensures DistinctKeys(b)
  {
    MembersAgree(a, b);
  }

  /** Where no two matches share a group and a kind, the answer is the same to the letter. */
  lemma OrderDecidesNothingAtAll(selector: Selector, a: seq<Resource>, b: seq<Resource>, verb: Verb)
    requires multiset(a) == multiset(b) && DistinctKeys(Matched(selector, a))
    ensures ResolveFor(selector, a, verb) == ResolveFor(selector, b, verb)
  {
    hide Matched, Matches, Decide, DistinctKeys, IsSorted;
    forall r ensures multiset(Matched(selector, a))[r] == multiset(Matched(selector, b))[r] {
      MatchedCount(selector, a, r);
      MatchedCount(selector, b, r);
    }
    assert multiset(Matched(selector, a)) == multiset(Matched(selector, b));
    SortedKeeps(Matched(selector, a));
    SortedKeeps(Matched(selector, b));
    SortedSorts(Matched(selector, a));
    SortedSorts(Matched(selector, b));
    DistinctTravels(Matched(selector, a), Sorted(Matched(selector, a)));
    SortedUnique(Sorted(Matched(selector, a)), Sorted(Matched(selector, b)));
  }

  /** `narrow` is `wide` with a group or a version added. */
  predicate Narrows(narrow: Selector, wide: Selector) {
    && narrow.kind == wide.kind && narrow.resource == wide.resource
    && (wide.group.Some? ==> narrow.group == wide.group)
    && (wide.version.Some? ==> narrow.version == wide.version)
  }

  lemma {:induction false} NarrowCount(narrow: Selector, wide: Selector, all: seq<Resource>)
    requires Narrows(narrow, wide)
    ensures |Matched(narrow, all)| <= |Matched(wide, all)|
    ensures |Matched(narrow, all)| == |Matched(wide, all)| ==> Matched(narrow, all) == Matched(wide, all)
    decreases |all|
  {
    if all != [] {
      hide EqIgnoreAsciiCase;
      NarrowCount(narrow, wide, all[..|all| - 1]);
    }
  }

  lemma MatchedSize(selector: Selector, all: seq<Resource>)
    ensures |Sorted(Matched(selector, all))| == |Matched(selector, all)|
    ensures |Matched(selector, all)| == 1 ==> Sorted(Matched(selector, all)) == Matched(selector, all)
  {
    SortedKeeps(Matched(selector, all));
    if |Matched(selector, all)| == 1 {
      assert Sorted(Matched(selector, all)) == Placed([], Matched(selector, all)[0]);
    }
  }

  /** Adding a group or a version never finds anything new: what resolved resolves to the same resource
      or is no longer served, and what was not served stays so. */
  lemma NarrowingAddsNothing(narrow: Selector, wide: Selector, all: seq<Resource>, verb: Verb)
    requires Narrows(narrow, wide)
    ensures ResolveFor(wide, all, verb).Resolved? ==>
      ResolveFor(narrow, all, verb) in {ResolveFor(wide, all, verb), NotServed}
    ensures ResolveFor(wide, all, verb) == NotServed ==> ResolveFor(narrow, all, verb) == NotServed
    ensures ResolveFor(narrow, all, verb).Ambiguous? ==> ResolveFor(wide, all, verb).Ambiguous?
  {
    hide Matched, Sorted, Candidates;
    NarrowCount(narrow, wide, all);
    MatchedSize(narrow, all);
    MatchedSize(wide, all);
  }

  /** The selector a candidate's words spell. */
  function Pick(r: Resource): Selector {
    Selector(Some(r.kind), None, Some(r.group), None)
  }

  function Sharing(r: Resource, all: seq<Resource>): nat
    decreases |all|
  {
    if all == [] then 0
    else Sharing(r, all[..|all| - 1]) +
         if all[|all| - 1].group == r.group && all[|all| - 1].kind == r.kind then 1 else 0
  }

  lemma {:induction false} PickCount(r: Resource, all: seq<Resource>)
    ensures |Matched(Pick(r), all)| == Sharing(r, all)
    decreases |all|
  {
    if all != [] { PickCount(r, all[..|all| - 1]); }
  }

  /** A listed candidate's kind and group select it alone exactly when no other served resource has both. */
  lemma CandidateSelects(selector: Selector, all: seq<Resource>, verb: Verb, r: Resource)
    requires r in Matched(selector, all)
    ensures ResolveFor(Pick(r), all, verb) == Decide([r], verb) <==> Sharing(r, all) == 1
    ensures OnlyMatch(Pick(r), all, r) <==> Sharing(r, all) == 1
    ensures Sharing(r, all) > 1 ==> ResolveFor(Pick(r), all, verb).Ambiguous?
  {
    hide Candidates, Sorted, Sharing, Matched, Matches, OnlyMatch;
    OnlyOne(Pick(r), all, r);
    PickCount(r, all);
    MatchedSize(Pick(r), all);
    MatchedCount(selector, all, r);
    MatchedCount(Pick(r), all, r);
    assert r in multiset(Matched(selector, all));
    assert Matches(Pick(r), r) by { PickMatches(r); }
    assert r in multiset(Matched(Pick(r), all));
    assert r in Matched(Pick(r), all);
  }

  lemma PickMatches(r: Resource)
    ensures Matches(Pick(r), r)
  {
  }

  // ---- what an answer says ----------------------------------------------------------------------------------

  /** The places of the snapshot that the selector matches. */
  function Hits(selector: Selector, all: seq<Resource>): set<nat> {
    set i: nat | i < |all| && Matches(selector, all[i])
  }

  lemma {:induction false} HitsAreMatched(selector: Selector, all: seq<Resource>)
    ensures |Hits(selector, all)| == |Matched(selector, all)|
    ensures forall r :: r in Matched(selector, all) <==> exists i :: i in Hits(selector, all) && all[i] == r
    decreases |all|
  {
    hide Matches;
    if all == [] {
      assert Hits(selector, all) == {};
    } else {
      var n := |all| - 1;
      var front, last := all[..n], all[n];
      HitsAreMatched(selector, front);
      assert forall i: nat :: i < n ==> front[i] == all[i];
      assert Hits(selector, all) == Hits(selector, front) + if Matches(selector, last) then {n} else {};
      assert n !in Hits(selector, front);
      forall r ensures r in Matched(selector, all) <==> exists i :: i in Hits(selector, all) && all[i] == r {
        if r in Matched(selector, front) {
          var i :| i in Hits(selector, front) && front[i] == r;
          assert i in Hits(selector, all) && all[i] == r;
        }
        if i :| i in Hits(selector, all) && all[i] == r {
          if i < n { assert i in Hits(selector, front) && front[i] == r; }
        }
      }
    }
  }

  lemma OneHit(hits: set<nat>, i: nat)
    requires |hits| == 1 && i in hits
    ensures hits == {i}
  {
    assert |hits - {i}| == 0;
  }

  /** The one match, if there is one. */
  lemma OneMatch(selector: Selector, all: seq<Resource>)
    requires |Hits(selector, all)| == 1
    ensures exists i: nat :: i < |all| && Hits(selector, all) == {i} && Matched(selector, all) == [all[i]]
  {
    hide Matches;
    HitsAreMatched(selector, all);
    var r := Matched(selector, all)[0];
    assert r in Matched(selector, all);
    var i :| i in Hits(selector, all) && all[i] == r;
    OneHit(Hits(selector, all), i);
  }

  /** The resource given is the only match of the snapshot, and offers the verb. */
  ghost predicate OnlyMatch(selector: Selector, all: seq<Resource>, r: Resource) {
    exists i: nat :: i < |all| && all[i] == r && Hits(selector, all) == {i}
  }

  lemma OnlyOne(selector: Selector, all: seq<Resource>, r: Resource)
    ensures OnlyMatch(selector, all, r) <==> Matched(selector, all) == [r]
  {
    hide Matches;
    HitsAreMatched(selector, all);
    if |Hits(selector, all)| == 1 { OneMatch(selector, all); }
  }

  /** What the answer is, in terms of the snapshot: a resource exactly when it is the one that matches and offers
      the verb; the refusal of a verb exactly when the one that matches does not offer it; not served exactly
      when nothing matches, and ambiguous exactly when more than one does, with a line for each. */
  lemma AnswerSays(selector: Selector, all: seq<Resource>, verb: Verb)
    requires selector.kind.Some? || selector.resource.Some?
    ensures var answer := ResolveFor(selector, all, verb);
      && (forall r :: answer == Resolved(r) <==> OnlyMatch(selector, all, r) && verb in r.verbs)
      && (forall gvr :: answer == NotGettable(gvr) <==>
            verb == Get && exists r :: OnlyMatch(selector, all, r) && verb !in r.verbs && gvr == Gvr(r))
      && (forall gvr :: answer == NotListable(gvr) <==>
            verb != Get && exists r :: OnlyMatch(selector, all, r) && verb !in r.verbs && gvr == Gvr(r))
      && (answer == NotServed <==> Hits(selector, all) == {})
      && (answer.Ambiguous? <==> |Hits(selector, all)| > 1)
      && !answer.Unasked?
  {
    hide Matches, Matched, Sorted, Candidates, Hits;
    var matched := Matched(selector, all);
    HitsAreMatched(selector, all);
    MatchedSize(selector, all);
    assert |Hits(selector, all)| == 0 <==> Hits(selector, all) == {};
    forall r ensures OnlyMatch(selector, all, r) <==> matched == [r] { OnlyOne(selector, all, r); }
    if |matched| == 1 { assert matched == [matched[0]]; }
  }

  /** An ambiguity has one line for each match, and each match has its line. */
  lemma CandidatesAreHits(selector: Selector, all: seq<Resource>, verb: Verb)
    requires ResolveFor(selector, all, verb).Ambiguous?
    ensures var candidates := ResolveFor(selector, all, verb).candidates;
      && |candidates| == |Hits(selector, all)|
      && (forall text :: text in candidates <==> exists i :: i in Hits(selector, all) && text == Candidate(all[i]))
  {
    hide Matches, Matched, Sorted, Candidate;
    var matched, sorted := Matched(selector, all), Sorted(Matched(selector, all));
    HitsAreMatched(selector, all);
    SortedKeeps(matched);
    MembersAgree(sorted, matched);
    var candidates := ResolveFor(selector, all, verb).candidates;
    forall text ensures text in candidates <==> exists i :: i in Hits(selector, all) && text == Candidate(all[i]) {
      if text in candidates {
        var j :| 0 <= j < |candidates| && candidates[j] == text;
        assert sorted[j] in matched;
      }
      if i :| i in Hits(selector, all) && text == Candidate(all[i]) {
        assert all[i] in matched && all[i] in sorted;
        var j :| 0 <= j < |sorted| && sorted[j] == all[i];
        assert candidates[j] == text;
      }
    }
  }

  /** A query that names neither a kind nor a resource is not asked at all. */
  lemma UnaskedSays(selector: Selector, all: seq<Resource>, verb: Verb)
    ensures ResolveFor(selector, all, verb).Unasked? <==> selector.kind.None? && selector.resource.None?
  {
    hide Decide;
    if NamesSomething(selector) { AnswerSays(selector, all, verb); }
  }

  /** The same letter of the ASCII alphabet, or the same character. */
  predicate SameLetter(a: char, b: char) {
    a == b || ('A' <= a <= 'Z' && b as int == a as int + 32) || ('A' <= b <= 'Z' && a as int == b as int + 32)
  }

  predicate Respelled(a: string, b: string) {
    |a| == |b| && forall i :: 0 <= i < |a| ==> SameLetter(a[i], b[i])
  }

  /** A plural or a short name is meant in any mix of ASCII case, a kind only to the letter; a group and a version
      leave out what has another one. */
  lemma WordsSelect(selector: Selector, r: Resource)
    ensures Matches(selector, r) <==>
      && selector.kind in {None, Some(r.kind)} && selector.group in {None, Some(r.group)}
      && selector.version in {None, Some(r.version)}
      && (selector.resource.Some? ==>
            || Respelled(selector.resource.value, r.plural)
            || exists i :: 0 <= i < |r.shortNames| && Respelled(selector.resource.value, r.shortNames[i]))
  {
    hide EqIgnoreAsciiCase, Respelled;
    assert selector.kind in {None, Some(r.kind)} <==> (selector.kind.Some? ==> r.kind == selector.kind.value);
    assert selector.group in {None, Some(r.group)} <==> (selector.group.Some? ==> r.group == selector.group.value);
    assert selector.version in {None, Some(r.version)} <==>
      (selector.version.Some? ==> r.version == selector.version.value);
    if selector.resource.Some? {
      LettersAgree(r.plural, selector.resource.value);
      forall i | 0 <= i < |r.shortNames|
        ensures EqIgnoreAsciiCase(r.shortNames[i], selector.resource.value) <==>
          Respelled(selector.resource.value, r.shortNames[i])
      {
        LettersAgree(r.shortNames[i], selector.resource.value);
      }
    }
  }

  lemma LettersAgree(a: string, b: string)
    ensures EqIgnoreAsciiCase(a, b) <==> Respelled(b, a)
  {
    assert forall x: char, y: char :: AsciiLower(x) == AsciiLower(y) <==> SameLetter(x, y);
  }

  // ---- the words of a candidate -----------------------------------------------------------------------------

  function Until(text: string, c: char): (n: nat)
    ensures n <= |text| && c !in text[..n] && (n < |text| ==> text[n] == c)
  {
    if text == "" || text[0] == c then 0
    else
      var n := Until(text[1..], c);
      assert text[..n + 1] == [text[0]] + text[1..][..n];
      n + 1
  }

  lemma {:induction false} UntilIs(word: string, rest: string, c: char)
    requires c !in word && rest != "" && rest[0] == c
    ensures Until(word + rest, c) == |word|
    decreases |word|
  {
    if word == "" {
      assert word + rest == rest;
    } else {
      assert (word + rest)[0] == word[0] && (word + rest)[1..] == word[1..] + rest;
      UntilIs(word[1..], rest, c);
    }
  }

  /** The options a line starts with. */
  function Options(line: string): Option<Selector> {
    if !("--kind " <= line) then None
    else
      var kind := line[7..][..Until(line[7..], ' ')];
      var rest := line[7 + |kind|..];
      if !(" --group '" <= rest) then None
      else Some(Selector(Some(kind), None, Some(rest[10..][..Until(rest[10..], '\'')]), None))
  }

  lemma Dropped(a: string, b: string)
    ensures (a + b)[|a|..] == b
  {
  }

  lemma DroppedTwice(text: string, i: nat, j: nat)
    requires i + j <= |text|
    ensures text[i + j..] == text[i..][j..]
  {
  }

  lemma Nested(a: string, b: string, c: string, d: string, e: string)
    ensures a + b + c + d + e == a + (b + (c + (d + e)))
  {
  }

  lemma TwoWords(head: string, a: string, middle: string, b: string, tail: string)
    requires middle != "" && tail != ""
    requires middle[0] !in a && tail[0] !in b
    ensures var line := head + a + middle + b + tail;
      && line[|head|..] == a + (middle + (b + tail)) && Until(line[|head|..], middle[0]) == |a|
      && line[|head| + |a|..] == middle + (b + tail)
      && line[|head| + |a|..][|middle|..] == b + tail && Until(b + tail, tail[0]) == |b|
  {
    hide Until;
    var line, end := head + a + middle + b + tail, b + tail;
    var rest := middle + end;
    Nested(head, a, middle, b, tail);
    Dropped(head, a + rest);
    Dropped(a, rest);
    Dropped(middle, end);
    DroppedTwice(line, |head|, |a|);
    UntilIs(a, rest, middle[0]);
    UntilIs(b, tail, tail[0]);
  }

  lemma OptionsRead(kind: string, group: string, tail: string)
    requires ' ' !in kind && '\'' !in group && tail != "" && tail[0] == '\''
    ensures var line := "--kind " + kind + " --group '" + group + tail;
      Options(line) == Some(Selector(Some(kind), None, Some(group), None))
  {
    hide Until;
    TwoWords("--kind ", kind, " --group '", group, tail);
    var line := "--kind " + kind + " --group '" + group + tail;
    assert "--kind " <= line && |"--kind "| == 7 && |" --group '"| == 10;
    assert line[7..][..|kind|] == kind && (group + tail)[..|group|] == group;
    assert " --group '" <= line[7 + |kind|..];
  }

  /** The options a candidate's line spells are those that select by its kind and group. */
  lemma CandidateSpells(r: Resource)
    requires ' ' !in r.kind && '\'' !in r.group
    ensures Options(Candidate(r)) == Some(Pick(r))
  {
    hide Options, Candidate;
    CandidateParts(r);
    OptionsRead(r.kind, r.group, "' (version " + r.version + ", resource " + r.plural + ")");
  }

  lemma CandidateParts(r: Resource)
    ensures Candidate(r) ==
      "--kind " + r.kind + " --group '" + r.group + ("' (version " + r.version + ", resource " + r.plural + ")")
  {
  }
}
