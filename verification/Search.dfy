/** A search over the served API surface that may fail to read some groups (query.rs `search`,
    `Searched::resolve`, `resolve_in`, `unresolved_over`, `one`), and what its answers establish about the
    groups it could not read. */
module Search {
  import opened Kube
  import opened Surface

  /** What became of one group-version that was not read. */
  datatype Coverage = ReadDenied | TypeNotServed | Unavailable | RequestFailed

  datatype Gap = Gap(groupVersion: string, coverage: Coverage)

  datatype Entry = Entry(groupVersion: string, inventory: seq<Resource>)

  /** What is known of the surface before the search: the groups with their versions, which version is
      preferred, and whatever inventories an aggregated document already stated, some of them stale. */
  datatype Served = Served(
    groups: seq<string>, versions: map<string, seq<string>>, preferred: map<string, string>,
    inventories: map<string, seq<Resource>>, stale: set<string>)

  /** What asking a group-version for its list comes to: a document, which may not read as a list; a status
      other than 200; or a broken connection or budget, which ends the search. */
  datatype Reply = Document(list: Option<seq<Resource>>) | Status(code: nat) | Broken

  datatype Fault = VersionWithoutGroup | VersionNotServed | GroupNotServed | TooBroad | BrokenOff

  datatype Result<T> = Ok(value: T) | Err(fault: Fault)

  datatype Searched = Searched(discovery: seq<Entry>, unread: seq<Gap>)

  function GroupVersionOf(group: string, version: string): string {
    if group == "" then version else group + "/" + version
  }

  /** The group and the version that a text names: the core group has none in front of its version. */
  function PartsOf(text: string): (string, string) {
    var n := Until(text, '/');
    if n == |text| then ("", text) else (text[..n], text[n + 1..])
  }

  /** A group-version reads back as its parts, neither of which holds a slash. */
  lemma PartsRead(group: string, version: string)
    requires '/' !in group && '/' !in version
    ensures PartsOf(GroupVersionOf(group, version)) == (group, version)
  {
    hide Until;
    if group == "" {
      assert '/' !in version[..Until(version, '/')];
    } else {
      assert group + "/" + version == group + ("/" + version);
      UntilIs(group, "/" + version, '/');
    }
  }

  // ---- the search space -------------------------------------------------------------------------------------

  function Into(space: seq<string>, groupVersion: string): seq<string>
    decreases |space|
  {
    if space == [] || TextBefore(space[|space| - 1], groupVersion) then space + [groupVersion]
    else if space[|space| - 1] == groupVersion then space
    else Into(space[..|space| - 1], groupVersion) + [space[|space| - 1]]
  }

  /** The preferred version of every group, sorted and without repetition. */
  function PreferredSpace(served: Served, groups: seq<string>): seq<string>
    decreases |groups|
  {
    if groups == [] then []
    else
      var front, last := PreferredSpace(served, groups[..|groups| - 1]), groups[|groups| - 1];
      if last in served.preferred then Into(front, GroupVersionOf(last, served.preferred[last])) else front
  }

  function SearchSpace(served: Served, selector: Selector): Result<seq<string>> {
    match selector.group
    case None =>
      if selector.version.Some? then Err(VersionWithoutGroup) else Ok(PreferredSpace(served, served.groups))
    case Some(group) =>
      match selector.version
      case Some(version) =>
        if group in served.versions && version in served.versions[group]
        then Ok([GroupVersionOf(group, version)]) else Err(VersionNotServed)
      case None =>
        if group in served.preferred
        then Ok([GroupVersionOf(group, served.preferred[group])]) else Err(GroupNotServed)
  }

  predicate Ascending(space: seq<string>) {
    forall i, j :: 0 <= i < j < |space| ==> TextBefore(space[i], space[j])
  }

  lemma {:induction false} IntoKeeps(space: seq<string>, groupVersion: string)
    requires Ascending(space)
    ensures Ascending(Into(space, groupVersion))
    ensures forall gv :: gv in Into(space, groupVersion) <==> gv in space || gv == groupVersion
    decreases |space|
  {
    hide TextBefore;
    if space != [] {
      var front, last := space[..|space| - 1], space[|space| - 1];
      assert space == front + [last];
      TextBeforeTotal(last, groupVersion);
      if TextBefore(last, groupVersion) {
        forall i | 0 <= i < |space| ensures TextBefore(space[i], groupVersion) {
          if i < |space| - 1 { TextBeforeTransitive(space[i], last, groupVersion); }
        }
      } else if last != groupVersion {
        IntoKeeps(front, groupVersion);
        forall gv | gv in Into(front, groupVersion) ensures TextBefore(gv, last) {
          assert gv == groupVersion || gv in front;
        }
      }
    }
  }

  /** The space of an unnarrowed search is the preferred version of every group that has one: in order, and
      each once. */
  lemma {:induction false} SpaceIsPreferred(served: Served, groups: seq<string>)
    ensures Ascending(PreferredSpace(served, groups))
    ensures forall g :: g in groups && g in served.preferred ==>
              GroupVersionOf(g, served.preferred[g]) in PreferredSpace(served, groups)
    ensures forall gv :: gv in PreferredSpace(served, groups) ==>
              exists g :: g in groups && g in served.preferred && gv == GroupVersionOf(g, served.preferred[g])
    decreases |groups|
  {
    hide Ascending, GroupVersionOf;
    if groups == [] {
      assert Ascending([]) by { AscendingEmpty(); }
    } else {
      var front, last := groups[..|groups| - 1], groups[|groups| - 1];
      assert groups == front + [last];
      SpaceIsPreferred(served, front);
      if last in served.preferred {
        IntoKeeps(PreferredSpace(served, front), GroupVersionOf(last, served.preferred[last]));
      }
    }
  }

  lemma AscendingEmpty()
    ensures Ascending([])
  {
  }

  predicate Distinct(space: seq<string>) {
    forall i, j :: 0 <= i < j < |space| ==> space[i] != space[j]
  }

  lemma SpaceDistinct(served: Served, selector: Selector)
    requires SearchSpace(served, selector).Ok?
    ensures Distinct(SearchSpace(served, selector).value)
  {
    var space := SearchSpace(served, selector).value;
    if selector.group.None? {
      SpaceIsPreferred(served, served.groups);
      forall i, j | 0 <= i < j < |space| ensures space[i] != space[j] {
        TextBeforeTotal(space[i], space[i]);
      }
    }
  }

  /** A group-version spelled by a group and a version that the selector allows. */
  predicate Fits(selector: Selector, groupVersion: string, group: string, version: string) {
    && groupVersion == GroupVersionOf(group, version)
    && (selector.group.Some? ==> group == selector.group.value)
    && (selector.version.Some? ==> version == selector.version.value)
  }

  ghost predicate SpaceFits(selector: Selector, space: seq<string>) {
    forall gv :: gv in space ==> exists group, version :: Fits(selector, gv, group, version)
  }

  lemma SpaceIsFit(served: Served, selector: Selector)
    requires SearchSpace(served, selector).Ok?
    ensures SpaceFits(selector, SearchSpace(served, selector).value)
  {
    var space := SearchSpace(served, selector).value;
    match selector.group
    case None =>
      SpaceIsPreferred(served, served.groups);
      forall gv | gv in space ensures exists group, version :: Fits(selector, gv, group, version) {
        var g :| g in served.groups && g in served.preferred && gv == GroupVersionOf(g, served.preferred[g]);
        assert Fits(selector, gv, g, served.preferred[g]);
      }
    case Some(group) =>
      var version := if selector.version.Some? then selector.version.value else served.preferred[group];
      assert Fits(selector, space[0], group, version);
  }

  /** The group and version are among those asked for: the ones named, or for a group named alone the version it
      prefers, or with nothing named the preferred version of any group. */
  ghost predicate AskedFor(served: Served, selector: Selector, group: string, version: string) {
    && (selector.group.Some? ==> group == selector.group.value)
    && (selector.group.None? ==> group in served.groups && selector.version.None?)
    && (if selector.version.Some?
        then version == selector.version.value && group in served.versions && version in served.versions[group]
        else group in served.preferred && version == served.preferred[group])
  }

  /** The space of a search is exactly what is asked for, each group-version once; it is one for a group that is
      named; and a search is refused before it begins exactly for a version without a group, for a version its
      group does not serve, and for a group that serves none. */
  lemma SpaceIs(served: Served, selector: Selector)
    ensures match SearchSpace(served, selector)
      case Ok(space) =>
        && Distinct(space) && (selector.group.Some? ==> |space| == 1)
        && (forall gv :: gv in space <==> exists g, v :: AskedFor(served, selector, g, v) && gv == GroupVersionOf(g, v))
      case Err(fault) =>
        || (fault == VersionWithoutGroup && selector.group.None? && selector.version.Some?)
        || (fault == VersionNotServed && selector.group.Some? && selector.version.Some?
            && !AskedFor(served, selector, selector.group.value, selector.version.value))
        || (fault == GroupNotServed && selector.group.Some? && selector.version.None?
            && forall v :: !AskedFor(served, selector, selector.group.value, v))
    ensures selector.group.None? && selector.version.Some? ==> SearchSpace(served, selector).Err?
    ensures selector.group.Some? && (forall v :: !AskedFor(served, selector, selector.group.value, v)) ==>
      SearchSpace(served, selector).Err?
  {
    hide Distinct, GroupVersionOf;
    var found := SearchSpace(served, selector);
    if found.Ok? { SpaceDistinct(served, selector); }
    if selector.group.None? {
      SpaceIsPreferred(served, served.groups);
      forall gv ensures found.Ok? ==>
        (gv in found.value <==> exists g, v :: AskedFor(served, selector, g, v) && gv == GroupVersionOf(g, v))
      {
        if found.Ok? && gv in found.value {
          var g :| g in served.groups && g in served.preferred && gv == GroupVersionOf(g, served.preferred[g]);
          assert AskedFor(served, selector, g, served.preferred[g]);
        }
      }
    } else if found.Ok? {
      var g := selector.group.value;
      var v := if selector.version.Some? then selector.version.value else served.preferred[g];
      assert AskedFor(served, selector, g, v) && found.value == [GroupVersionOf(g, v)];
    }
  }

  // ---- the search -------------------------------------------------------------------------------------------

  function UnreadOutcome(status: nat): Coverage {
    if status == 403 then ReadDenied
    else if status == 404 || status == 410 then TypeNotServed
    else if 502 <= status <= 504 then Unavailable
    else RequestFailed
  }

  /** An entry holds what the server said the group-version serves. */
  predicate EntryOk(served: Served, replies: string -> Reply, entry: Entry) {
    if entry.groupVersion in served.inventories
    then entry.groupVersion !in served.stale && entry.inventory == served.inventories[entry.groupVersion]
    else replies(entry.groupVersion) == Document(Some(entry.inventory))
  }

  /** A gap is a group-version whose content nobody could say. */
  predicate GapOk(served: Served, replies: string -> Reply, gap: Gap) {
    if gap.groupVersion in served.inventories
    then gap.groupVersion in served.stale && gap.coverage == Unavailable
    else
      match replies(gap.groupVersion)
      case Document(list) => list.None? && gap.coverage == RequestFailed
      case Status(code) =>
        if code == 403 then gap.coverage == ReadDenied
        else if code in {404, 410} then gap.coverage == TypeNotServed
        else if code in {502, 503, 504} then gap.coverage == Unavailable
        else gap.coverage == RequestFailed
      case Broken => false
  }

  /** Every group-version of the space is read or unread, never both and never neither, in order. */
  predicate Splits(space: seq<string>, read: seq<Entry>, unread: seq<Gap>)
    decreases |space|
  {
    if space == [] then read == [] && unread == []
    else
      var front, last := space[..|space| - 1], space[|space| - 1];
      || (read != [] && read[|read| - 1].groupVersion == last && Splits(front, read[..|read| - 1], unread))
      || (unread != [] && unread[|unread| - 1].groupVersion == last && Splits(front, read, unread[..|unread| - 1]))
  }

  /** A search over a space: all of it accounted for, and every entry and gap justified. */
  ghost predicate SearchedOver(served: Served, replies: string -> Reply, space: seq<string>, searched: Searched) {
    && Splits(space, searched.discovery, searched.unread)
    && (forall e :: e in searched.discovery ==> EntryOk(served, replies, e))
    && (forall g :: g in searched.unread ==> GapOk(served, replies, g))
  }

  method Search(served: Served, selector: Selector, admitted: bool, replies: string -> Reply)
      returns (searched: Result<Searched>)
    ensures SearchSpace(served, selector).Err? ==> searched == Err(SearchSpace(served, selector).fault)
    ensures SearchSpace(served, selector).Ok? && !admitted ==> searched == Err(TooBroad)
    ensures SearchSpace(served, selector).Ok? && admitted ==>
      var space := SearchSpace(served, selector).value;
      && (searched.Err? <==> exists gv :: gv in space && gv !in served.inventories && replies(gv).Broken?)
      && (searched.Err? ==> searched.fault == BrokenOff)
      && (searched.Ok? ==> SearchedOver(served, replies, space, searched.value))
  {
    hide Splits, SearchSpace;
    SplitsStart();
    var found := SearchSpace(served, selector);
    if found.Err? { return Err(found.fault); }
    if !admitted { return Err(TooBroad); }
    var space, discovery, unread := found.value, [], [];
    for i := 0 to |space|
      invariant Splits(space[..i], discovery, unread)
      invariant forall e :: e in discovery ==> EntryOk(served, replies, e)
      invariant forall g :: g in unread ==> GapOk(served, replies, g)
      invariant forall k :: 0 <= k < i ==> space[k] in served.inventories || !replies(space[k]).Broken?
    {
      var gv := space[i];
      SplitsNext(space, i, discovery, unread);
      if gv in served.inventories {
        if gv in served.stale {
          unread := unread + [Gap(gv, Unavailable)];
        } else {
          discovery := discovery + [Entry(gv, served.inventories[gv])];
        }
      } else {
        match replies(gv)
        case Broken => return Err(BrokenOff);
        case Document(Some(list)) => discovery := discovery + [Entry(gv, list)];
        case Document(None) => unread := unread + [Gap(gv, RequestFailed)];
        case Status(code) => unread := unread + [Gap(gv, UnreadOutcome(code))];
      }
    }
    assert space[..|space|] == space;
    return Ok(Searched(discovery, unread));
  }

  lemma SplitsStart()
    ensures Splits([], [], [])
  {
  }

  lemma SplitsNext(space: seq<string>, i: nat, read: seq<Entry>, unread: seq<Gap>)
    requires i < |space| && Splits(space[..i], read, unread)
    ensures forall e: Entry :: e.groupVersion == space[i] ==> Splits(space[..i + 1], read + [e], unread)
    ensures forall g: Gap :: g.groupVersion == space[i] ==> Splits(space[..i + 1], read, unread + [g])
  {
    assert space[..i + 1][..i] == space[..i];
    forall e: Entry | e.groupVersion == space[i] ensures Splits(space[..i + 1], read + [e], unread) {
      assert (read + [e])[..|read|] == read;
    }
    forall g: Gap | g.groupVersion == space[i] ensures Splits(space[..i + 1], read, unread + [g]) {
      assert (unread + [g])[..|unread|] == unread;
    }
  }

  // ---- what the cluster may serve, given what was read ------------------------------------------------------

  /** Everything the entries hold, in order. */
  function All(entries: seq<Entry>): seq<Resource>
    decreases |entries|
  {
    if entries == [] then [] else All(entries[..|entries| - 1]) + entries[|entries| - 1].inventory
  }

  /** What a group-version serves in a possible cluster. */
  type World = map<string, seq<Resource>>

  function At(world: World, groupVersion: string): seq<Resource> {
    if groupVersion in world then world[groupVersion] else []
  }

  /** What a search that read everything would have found there. */
  function Everything(world: World, space: seq<string>): seq<Resource>
    decreases |space|
  {
    if space == [] then [] else Everything(world, space[..|space| - 1]) + At(world, space[|space| - 1])
  }

  /** A cluster that agrees with all that was read. Where nothing was it serves anything at all or, with
      `own`, anything that is of the group-version it is served under. */
  ghost predicate Possible(world: World, searched: Searched, own: bool) {
    && (forall e :: e in searched.discovery ==> At(world, e.groupVersion) == e.inventory)
    && (own ==> forall g :: g in searched.unread ==> OfItsOwn(world, g.groupVersion))
  }

  predicate OfItsOwn(world: World, groupVersion: string) {
    forall r :: r in At(world, groupVersion) ==> GroupVersionOf(r.group, r.version) == groupVersion
  }

  /** What the certainty of an answer rests on. */
  ghost predicate Sought(selector: Selector, space: seq<string>, searched: Searched) {
    Splits(space, searched.discovery, searched.unread) && Distinct(space) && SpaceFits(selector, space)
  }

  lemma {:induction false} MatchedJoin(selector: Selector, a: seq<Resource>, b: seq<Resource>)
    ensures Matched(selector, a + b) == Matched(selector, a) + Matched(selector, b)
    decreases |b|
  {
    hide Matches;
    if b == [] {
      assert a + b == a;
    } else {
      MatchedJoin(selector, a, b[..|b| - 1]);
      assert (a + b)[..|a + b| - 1] == a + b[..|b| - 1];
    }
  }

  /** What was found is part of what there is; the rest is in the groups that were not read. */
  lemma {:induction false} FoundIsPart(selector: Selector, space: seq<string>, searched: Searched, world: World)
    requires Splits(space, searched.discovery, searched.unread) && Possible(world, searched, false)
    ensures |Matched(selector, All(searched.discovery))| <= |Matched(selector, Everything(world, space))|
    ensures |Matched(selector, All(searched.discovery))| == |Matched(selector, Everything(world, space))| ==>
              Matched(selector, All(searched.discovery)) == Matched(selector, Everything(world, space))
    ensures (forall g :: g in searched.unread ==> At(world, g.groupVersion) == []) ==>
              Matched(selector, All(searched.discovery)) == Matched(selector, Everything(world, space))
    decreases |space|
  {
    hide Matches, Matched;
    if space != [] {
      var front, last := space[..|space| - 1], space[|space| - 1];
      var read, unread := searched.discovery, searched.unread;
      MatchedJoin(selector, Everything(world, front), At(world, last));
      if read != [] && read[|read| - 1].groupVersion == last && Splits(front, read[..|read| - 1], unread) {
        FoundIsPart(selector, front, Searched(read[..|read| - 1], unread), world);
        assert read[|read| - 1] in read;
        MatchedJoin(selector, All(read[..|read| - 1]), read[|read| - 1].inventory);
      } else {
        FoundIsPart(selector, front, Searched(read, unread[..|unread| - 1]), world);
        if At(world, last) == [] { assert Matched(selector, []) == [] by { MatchedNone(selector); } }
        assert unread[|unread| - 1] in unread;
      }
    }
  }

  lemma MatchedNone(selector: Selector)
    ensures Matched(selector, []) == []
  {
  }

  lemma {:induction false} SplitMembers(space: seq<string>, read: seq<Entry>, unread: seq<Gap>)
    requires Splits(space, read, unread)
    ensures forall e :: e in read ==> e.groupVersion in space
    ensures forall g :: g in unread ==> g.groupVersion in space
    decreases |space|
  {
    if space != [] {
      var front, last := space[..|space| - 1], space[|space| - 1];
      assert space == front + [last];
      if read != [] && read[|read| - 1].groupVersion == last && Splits(front, read[..|read| - 1], unread) {
        SplitMembers(front, read[..|read| - 1], unread);
      } else {
        SplitMembers(front, read, unread[..|unread| - 1]);
      }
    }
  }

  /** The cluster that serves nothing where nothing was read. */
  function Bare(entries: seq<Entry>): World
    decreases |entries|
  {
    if entries == [] then map[]
    else Bare(entries[..|entries| - 1])[entries[|entries| - 1].groupVersion := entries[|entries| - 1].inventory]
  }

  lemma {:induction false} BareIsPossible(space: seq<string>, read: seq<Entry>, unread: seq<Gap>)
    requires Splits(space, read, unread) && Distinct(space)
    ensures forall e :: e in read ==> e.groupVersion in Bare(read) && Bare(read)[e.groupVersion] == e.inventory
    ensures forall gv :: gv in Bare(read) ==> exists e :: e in read && e.groupVersion == gv
    ensures forall g :: g in unread ==> g.groupVersion !in Bare(read)
    decreases |space|
  {
    if space != [] {
      var front, last := space[..|space| - 1], space[|space| - 1];
      if read != [] && read[|read| - 1].groupVersion == last && Splits(front, read[..|read| - 1], unread) {
        BareIsPossible(front, read[..|read| - 1], unread);
        SplitMembers(front, read[..|read| - 1], unread);
        assert last !in front;
      } else {
        BareIsPossible(front, read, unread[..|unread| - 1]);
        SplitMembers(front, read, unread[..|unread| - 1]);
        assert last !in front;
      }
    }
  }

  /** A resource of this group and version that any selector allowing them matches. */
  function Example(selector: Selector, group: string, version: string): Resource {
    Resource(
      group, version,
      if selector.kind.Some? then selector.kind.value else "",
      if selector.resource.Some? then selector.resource.value else "", [], {})
  }

  /** One possible cluster serves nothing more than was found; and where something was not read, another
      serves one match more, of a group-version of its own. */
  lemma TwoWorlds(selector: Selector, space: seq<string>, searched: Searched) returns (less: World, more: World)
    requires Sought(selector, space, searched)
    ensures Possible(less, searched, true)
    ensures Matched(selector, Everything(less, space)) == Matched(selector, All(searched.discovery))
    ensures searched.unread != [] ==> Possible(more, searched, true)
    ensures searched.unread != [] ==>
      |Matched(selector, Everything(more, space))| > |Matched(selector, All(searched.discovery))|
  {
    hide Splits, Distinct, Matched, Matches, Fits;
    less := Bare(searched.discovery);
    more := less;
    BareIsPossible(space, searched.discovery, searched.unread);
    FoundIsPart(selector, space, searched, less);
    if searched.unread != [] {
      var gap := searched.unread[0];
      assert gap in searched.unread;
      SplitMembers(space, searched.discovery, searched.unread);
      var group, version :| Fits(selector, gap.groupVersion, group, version);
      var example := Example(selector, group, version);
      ExampleMatches(selector, gap.groupVersion, group, version);
      more := less[gap.groupVersion := [example]];
      FoundIsPart(selector, space, searched, more);
      OneMore(selector, space, less, more, gap.groupVersion, example);
    }
  }

  lemma {:induction false} OneMore(selector: Selector, space: seq<string>, less: World, more: World,
                                   gv: string, r: Resource)
    requires gv !in less && more == less[gv := [r]] && Matched(selector, [r]) == [r]
    ensures |Matched(selector, Everything(less, space))| <= |Matched(selector, Everything(more, space))|
    ensures gv in space ==>
      |Matched(selector, Everything(less, space))| < |Matched(selector, Everything(more, space))|
    decreases |space|
  {
    hide Matched, Matches;
    if space != [] {
      var front, last := space[..|space| - 1], space[|space| - 1];
      assert space == front + [last];
      OneMore(selector, front, less, more, gv, r);
      MatchedJoin(selector, Everything(less, front), At(less, last));
      MatchedJoin(selector, Everything(more, front), At(more, last));
      if last == gv {
        assert At(less, last) == [] && At(more, last) == [r];
        MatchedNone(selector);
      } else {
        assert At(less, last) == At(more, last);
      }
    }
  }

  lemma ExampleMatches(selector: Selector, groupVersion: string, group: string, version: string)
    requires Fits(selector, groupVersion, group, version)
    ensures Matched(selector, [Example(selector, group, version)]) == [Example(selector, group, version)]
    ensures GroupVersionOf(Example(selector, group, version).group,
                           Example(selector, group, version).version) == groupVersion
  {
    assert [Example(selector, group, version)][..0] == [];
  }

  // ---- what is answered -------------------------------------------------------------------------------------

  /** A refusal, with the groups it admits it did not read; `Unproven` is the weaker word for not served. */
  datatype Refusal =
    | Declined(why: Resolution, unread: seq<Gap>)
    | Unproven(unread: seq<Gap>)

  datatype Answered = Answer(resource: Resource) | Refusal(refusal: Refusal)

  function UnresolvedOver(why: Resolution, unread: seq<Gap>): Refusal {
    if unread == [] then Declined(why, [])
    else if why.NotServed? then Unproven(unread)
    else Declined(why, unread)
  }

  /** `Searched::resolve`, for callers that carry the gaps along. */
  function ResolveAmong(searched: Searched, selector: Selector, verb: Verb): Answered {
    var found := ResolveFor(selector, All(searched.discovery), verb);
    if found.Resolved? then Answer(found.resource) else Refusal(UnresolvedOver(found, searched.unread))
  }

  /** `resolve_in`, for callers that have nowhere to put a gap. */
  function ResolveIn(searched: Searched, selector: Selector, verb: Verb): Answered {
    var among := ResolveAmong(searched, selector, verb);
    if among.Answer? && searched.unread != [] then Refusal(Unproven(searched.unread)) else among
  }

  /** The answer of a search that read everything, were the cluster `world`. */
  function Truth(world: World, space: seq<string>, selector: Selector, verb: Verb): Resolution {
    ResolveFor(selector, Everything(world, space), verb)
  }

  /** A selector that names something is decided by how many resources match, and which. */
  lemma DecidedBy(selector: Selector, all: seq<Resource>, verb: Verb)
    requires NamesSomething(selector)
    ensures var n := |Matched(selector, all)|;
      && (n == 0 <==> ResolveFor(selector, all, verb) == NotServed)
      && (n > 1 <==> ResolveFor(selector, all, verb).Ambiguous?)
      && (n == 1 ==> ResolveFor(selector, all, verb) == Decide(Matched(selector, all), verb))
      && !ResolveFor(selector, all, verb).Unasked?
  {
    hide Matched, Sorted, Candidates;
    MatchedSize(selector, all);
  }

  /** One resource is the answer in every possible cluster. */
  ghost predicate Certain(
    space: seq<string>, searched: Searched, selector: Selector, verb: Verb, own: bool, r: Resource)
  {
    forall world :: Possible(world, searched, own) ==> Truth(world, space, selector, verb) == Resolved(r)
  }

  /** With nothing unread there is nothing left to be possible. */
  lemma NothingUnread(selector: Selector, space: seq<string>, searched: Searched, verb: Verb, own: bool)
    requires Splits(space, searched.discovery, searched.unread) && searched.unread == []
    ensures forall world :: Possible(world, searched, own) ==>
      Truth(world, space, selector, verb) == ResolveFor(selector, All(searched.discovery), verb)
  {
    hide Splits, Matched, Sorted, All, Everything;
    forall world | Possible(world, searched, own)
      ensures Truth(world, space, selector, verb) == ResolveFor(selector, All(searched.discovery), verb)
    {
      FoundIsPart(selector, space, searched, world);
    }
  }

  /** A resource from `resolve_in` is the answer in every possible cluster, and whenever one resource is
      the answer in every possible cluster, `resolve_in` gives it. */
  lemma ResolveInIsCertain(
    selector: Selector, space: seq<string>, searched: Searched, verb: Verb, own: bool, r: Resource)
    requires Sought(selector, space, searched)
    ensures ResolveIn(searched, selector, verb) == Answer(r) <==> Certain(space, searched, selector, verb, own, r)
  {
    hide Splits, Distinct, SpaceFits, Matched, Sorted, OfItsOwn, All, Everything;
    var less, more := TwoWorlds(selector, space, searched);
    assert Possible(less, searched, own);
    if searched.unread == [] { NothingUnread(selector, space, searched, verb, own); }
    if NamesSomething(selector) {
      DecidedBy(selector, All(searched.discovery), verb);
      DecidedBy(selector, Everything(less, space), verb);
      if searched.unread != [] {
        assert Possible(more, searched, own);
        DecidedBy(selector, Everything(more, space), verb);
      }
    } else {
      assert Truth(less, space, selector, verb) == Unasked;
    }
  }

  /** Not served is said exactly when no possible cluster serves a match; with a gap it is never said. */
  lemma NotServedIsCertain(selector: Selector, space: seq<string>, searched: Searched, verb: Verb, own: bool)
    requires Sought(selector, space, searched)
    ensures ResolveAmong(searched, selector, verb) == Refusal(Declined(NotServed, searched.unread)) <==>
      forall world :: Possible(world, searched, own) ==> Truth(world, space, selector, verb) == NotServed
  {
    hide Splits, Distinct, SpaceFits, Matched, Sorted, OfItsOwn, All, Everything;
    var less, more := TwoWorlds(selector, space, searched);
    assert Possible(less, searched, own);
    if searched.unread == [] { NothingUnread(selector, space, searched, verb, own); }
    if NamesSomething(selector) {
      DecidedBy(selector, All(searched.discovery), verb);
      DecidedBy(selector, Everything(less, space), verb);
      if searched.unread != [] {
        assert Possible(more, searched, own);
        DecidedBy(selector, Everything(more, space), verb);
      }
    } else {
      assert Truth(less, space, selector, verb) == Unasked;
    }
  }

  /** An ambiguous answer is ambiguous in every possible cluster, and what is ambiguous in all of them is
      answered so. */
  lemma AmbiguityIsCertain(selector: Selector, space: seq<string>, searched: Searched, verb: Verb, own: bool)
    requires Sought(selector, space, searched)
    ensures var among := ResolveAmong(searched, selector, verb);
      (among.Refusal? && among.refusal.Declined? && among.refusal.why.Ambiguous?) <==>
        forall world :: Possible(world, searched, own) ==> Truth(world, space, selector, verb).Ambiguous?
  {
    hide Splits, Distinct, SpaceFits, Matched, Sorted, OfItsOwn, All, Everything;
    var less, more := TwoWorlds(selector, space, searched);
    assert Possible(less, searched, own);
    if NamesSomething(selector) {
      DecidedBy(selector, All(searched.discovery), verb);
      DecidedBy(selector, Everything(less, space), verb);
      forall world | Possible(world, searched, own)
        ensures ResolveFor(selector, All(searched.discovery), verb).Ambiguous? ==>
          Truth(world, space, selector, verb).Ambiguous?
      {
        FoundIsPart(selector, space, searched, world);
        DecidedBy(selector, Everything(world, space), verb);
      }
    } else {
      assert Truth(less, space, selector, verb) == Unasked;
    }
  }

  /** Whatever is refused outright resolves in no possible cluster. */
  lemma RefusalsHold(selector: Selector, space: seq<string>, searched: Searched, verb: Verb, world: World)
    requires Splits(space, searched.discovery, searched.unread)
    requires ResolveAmong(searched, selector, verb).Refusal? && ResolveAmong(searched, selector, verb).refusal.Declined?
    requires Possible(world, searched, false)
    ensures !Truth(world, space, selector, verb).Resolved?
  {
    hide Splits, Matched, Sorted, Possible, All, Everything, Candidates;
    FoundIsPart(selector, space, searched, world);
    if searched.unread == [] { NothingUnread(selector, space, searched, verb, false); }
    if NamesSomething(selector) {
      DecidedBy(selector, All(searched.discovery), verb);
      DecidedBy(selector, Everything(world, space), verb);
    }
  }

  // ---- one named object -------------------------------------------------------------------------------------

  /** What the collection answered about the one object that was named. */
  datatype Lookup = Absent | Fetched

  /** `one`: how many records were emitted and how the query ended. */
  datatype Outcome = Completed(records: nat) | Failed(records: nat)

  function One(answer: Lookup, unread: seq<Gap>): Outcome {
    match answer
    case Absent => if unread != [] then Failed(0) else Completed(0)
    case Fetched => if unread == [] then Completed(1) else Failed(1)
  }

  /** A query for one named object over discovered resources. */
  function NamedObject(searched: Searched, selector: Selector, lookup: Resource -> Lookup): Outcome {
    match ResolveAmong(searched, selector, List)
    case Refusal(_) => Failed(0)
    case Answer(resource) => One(lookup(resource), searched.unread)
  }

  /** A record is emitted exactly when one resource was found and holds the object, and the query is complete
      exactly when nothing was left unread on the way to that resource. */
  lemma NamedObjectSays(searched: Searched, selector: Selector, lookup: Resource -> Lookup)
    ensures var outcome, among := NamedObject(searched, selector, lookup), ResolveAmong(searched, selector, List);
      && (outcome.Completed? <==> among.Answer? && searched.unread == [])
      && outcome.records == if among.Answer? && lookup(among.resource) == Fetched then 1 else 0
  {
    hide ResolveAmong;
  }

  /** A named object is reported absent exactly when one resource is the answer in every possible cluster,
      and its collection does not hold the object. */
  lemma AbsenceIsCertain(
    selector: Selector, space: seq<string>, searched: Searched, own: bool, lookup: Resource -> Lookup)
    requires Sought(selector, space, searched)
    ensures NamedObject(searched, selector, lookup) == Completed(0) <==>
      exists r :: lookup(r) == Absent && Certain(space, searched, selector, List, own, r)
  {
    hide Sought, Certain, ResolveFor;
    var among := ResolveAmong(searched, selector, List);
    if among.Answer? { ResolveInIsCertain(selector, space, searched, List, own, among.resource); }
    forall r | Certain(space, searched, selector, List, own, r)
      ensures ResolveIn(searched, selector, List) == Answer(r) {
      ResolveInIsCertain(selector, space, searched, List, own, r);
    }
  }

  // ---- from the search to the answers -----------------------------------------------------------------------

  /** A cluster behind the search: every group-version of the space serves what its server said, fresh and
      beforehand or when it was asked. */
  ghost predicate Behind(world: World, served: Served, replies: string -> Reply, space: seq<string>) {
    forall gv :: gv in space ==>
      if gv in served.inventories then gv !in served.stale ==> At(world, gv) == served.inventories[gv]
      else replies(gv).Document? && replies(gv).list.Some? ==> At(world, gv) == replies(gv).list.value
  }

  /** What a search comes back with is what certainty rests on, and the cluster behind it is a possible one. */
  lemma SearchIsSought(
    served: Served, selector: Selector, replies: string -> Reply, searched: Searched, world: World)
    requires SearchSpace(served, selector).Ok?
    requires SearchedOver(served, replies, SearchSpace(served, selector).value, searched)
    ensures Sought(selector, SearchSpace(served, selector).value, searched)
    ensures Behind(world, served, replies, SearchSpace(served, selector).value) ==> Possible(world, searched, false)
  {
    hide Splits, SearchSpace, Distinct, SpaceFits;
    var space := SearchSpace(served, selector).value;
    SpaceDistinct(served, selector);
    SpaceIsFit(served, selector);
    SplitMembers(space, searched.discovery, searched.unread);
  }

  /** So what is answered after a search is true of the cluster behind it: the resource given is the one that
      the whole surface resolves to, what is refused as not served or as ambiguous is, and what is refused
      outright resolves to nothing. */
  lemma AnswersAreTrue(
    served: Served, selector: Selector, replies: string -> Reply, searched: Searched, verb: Verb, world: World)
    requires SearchSpace(served, selector).Ok?
    requires SearchedOver(served, replies, SearchSpace(served, selector).value, searched)
    requires Behind(world, served, replies, SearchSpace(served, selector).value)
    ensures var truth := Truth(world, SearchSpace(served, selector).value, selector, verb);
      && (ResolveIn(searched, selector, verb).Answer? ==>
            truth == Resolved(ResolveIn(searched, selector, verb).resource))
      && match ResolveAmong(searched, selector, verb)
         case Answer(_) => true
         case Refusal(Unproven(_)) => true
         case Refusal(Declined(why, _)) =>
           !truth.Resolved? && (why.NotServed? ==> truth == NotServed) && (why.Ambiguous? ==> truth.Ambiguous?)
  {
    hide SearchSpace, SearchedOver, Behind, Sought, Possible, Truth, ResolveFor;
    var space := SearchSpace(served, selector).value;
    SearchIsSought(served, selector, replies, searched, world);
    var one, among := ResolveIn(searched, selector, verb), ResolveAmong(searched, selector, verb);
    if one.Answer? { ResolveInIsCertain(selector, space, searched, verb, false, one.resource); }
    if among.Refusal? && among.refusal.Declined? {
      SoughtSplits(selector, space, searched);
      RefusalsHold(selector, space, searched, verb, world);
      NotServedIsCertain(selector, space, searched, verb, false);
      AmbiguityIsCertain(selector, space, searched, verb, false);
      OverGaps(ResolveFor(selector, All(searched.discovery), verb), searched.unread);
    }
  }

  lemma SoughtSplits(selector: Selector, space: seq<string>, searched: Searched)
    requires Sought(selector, space, searched)
    ensures Splits(space, searched.discovery, searched.unread)
  {
  }

  lemma OverGaps(why: Resolution, unread: seq<Gap>)
    ensures UnresolvedOver(why, unread).Declined? ==> UnresolvedOver(why, unread) == Declined(why, unread)
  {
  }

  // ---- what is true of the cluster ---------------------------------------------------------------------------

  /** A match that the cluster serves, in a group and version asked for. */
  ghost predicate Place(world: World, served: Served, selector: Selector, gv: string, i: nat) {
    && (exists g, v :: AskedFor(served, selector, g, v) && gv == GroupVersionOf(g, v))
    && i < |At(world, gv)| && Matches(selector, At(world, gv)[i])
  }

  /** `r` is the only match that the cluster serves in what was asked for. */
  ghost predicate OnlyServed(world: World, served: Served, selector: Selector, r: Resource) {
    exists gv: string, i: nat ::
      && Place(world, served, selector, gv, i) && At(world, gv)[i] == r
      && forall gw: string, j: nat :: Place(world, served, selector, gw, j) ==> gw == gv && j == i
  }

  ghost predicate NoneServed(world: World, served: Served, selector: Selector) {
    forall gv: string, i: nat :: !Place(world, served, selector, gv, i)
  }

  ghost predicate SeveralServed(world: World, served: Served, selector: Selector) {
    exists gv: string, i: nat, gw: string, j: nat ::
      Place(world, served, selector, gv, i) && Place(world, served, selector, gw, j) && (gv, i) != (gw, j)
  }

  /** The matches in a space. */
  function Places(world: World, selector: Selector, space: seq<string>): set<(string, nat)>
    decreases |space|
  {
    if space == [] then {}
    else
      var last := space[|space| - 1];
      Places(world, selector, space[..|space| - 1]) + PlacesAt(last, Hits(selector, At(world, last)))
  }

  function PlacesAt(gv: string, hits: set<nat>): set<(string, nat)> {
    set i | i in hits :: (gv, i)
  }

  lemma {:induction false} PlacesAtCount(gv: string, hits: set<nat>)
    ensures |PlacesAt(gv, hits)| == |hits|
    decreases hits
  {
    if hits != {} {
      var i :| i in hits;
      PlacesAtCount(gv, hits - {i});
      assert PlacesAt(gv, hits) == PlacesAt(gv, hits - {i}) + {(gv, i)};
    }
  }

  lemma {:induction false} PlacesAre(world: World, selector: Selector, space: seq<string>)
    requires Distinct(space)
    ensures |Places(world, selector, space)| == |Matched(selector, Everything(world, space))|
    ensures forall gv, i: nat :: (gv, i) in Places(world, selector, space) <==>
      gv in space && i < |At(world, gv)| && Matches(selector, At(world, gv)[i])
    ensures forall r :: r in Matched(selector, Everything(world, space)) <==>
      exists gv, i: nat :: (gv, i) in Places(world, selector, space) && i < |At(world, gv)| && At(world, gv)[i] == r
    decreases |space|
  {
    hide Matches, Matched, At;
    MatchedNone(selector);
    if space != [] {
      var front, last := space[..|space| - 1], space[|space| - 1];
      assert space == front + [last];
      PlacesAre(world, selector, front);
      HitsAreMatched(selector, At(world, last));
      MatchedJoin(selector, Everything(world, front), At(world, last));
      PlacesAtCount(last, Hits(selector, At(world, last)));
      var some, more := Places(world, selector, front), PlacesAt(last, Hits(selector, At(world, last)));
      assert last !in front;
      assert some !! more;
    }
  }

  lemma PlaceIs(world: World, served: Served, selector: Selector, gv: string, i: nat)
    requires SearchSpace(served, selector).Ok?
    ensures Place(world, served, selector, gv, i) <==>
      (gv, i) in Places(world, selector, SearchSpace(served, selector).value)
  {
    hide SearchSpace, Matches, AskedFor, GroupVersionOf, Distinct, Matched;
    SpaceIs(served, selector);
    PlacesAre(world, selector, SearchSpace(served, selector).value);
  }

  lemma OnePlace(places: set<(string, nat)>, p: (string, nat))
    requires p in places
    ensures |places| > 0 && (|places| == 1 <==> forall q :: q in places ==> q == p)
  {
    var rest := places - {p};
    assert places == rest + {p};
    if |places| == 1 { assert rest == {}; }
    if forall q :: q in places ==> q == p { assert rest == {}; }
  }

  lemma ServedCounts(world: World, served: Served, selector: Selector)
    requires SearchSpace(served, selector).Ok?
    ensures var n := |Places(world, selector, SearchSpace(served, selector).value)|;
      && (n == 0 <==> NoneServed(world, served, selector))
      && (n > 1 <==> SeveralServed(world, served, selector))
      && (n == 1 <==> exists r :: OnlyServed(world, served, selector, r))
  {
    hide SearchSpace, Place, Places, At;
    var places := Places(world, selector, SearchSpace(served, selector).value);
    forall gv, i: nat ensures Place(world, served, selector, gv, i) <==> (gv, i) in places {
      PlaceIs(world, served, selector, gv, i);
    }
    if NoneServed(world, served, selector) {
      assert forall p :: p in places ==> Place(world, served, selector, p.0, p.1);
      assert places == {};
      NoneIsNotOne(world, served, selector);
    } else {
      var gv, i: nat :| Place(world, served, selector, gv, i);
      OnePlace(places, (gv, i));
      if |places| == 1 {
        InPlace(world, served, selector, gv, i);
        assert OnlyServed(world, served, selector, At(world, gv)[i]);
      } else {
        var q :| q in places && q != (gv, i);
        assert Place(world, served, selector, q.0, q.1);
        NotOnly(world, served, selector, gv, i, q.0, q.1);
      }
    }
  }

  lemma NoneIsNotOne(world: World, served: Served, selector: Selector)
    requires NoneServed(world, served, selector)
    ensures !SeveralServed(world, served, selector) && forall r :: !OnlyServed(world, served, selector, r)
  {
    hide Place;
  }

  lemma NotOnly(world: World, served: Served, selector: Selector, gv: string, i: nat, gw: string, j: nat)
    requires Place(world, served, selector, gv, i) && Place(world, served, selector, gw, j) && (gv, i) != (gw, j)
    ensures SeveralServed(world, served, selector) && forall r :: !OnlyServed(world, served, selector, r)
  {
    hide Place;
  }

  lemma InPlace(world: World, served: Served, selector: Selector, gv: string, i: nat)
    ensures Place(world, served, selector, gv, i) ==> i < |At(world, gv)|
  {
  }

  /** Were everything read, the search would answer as the cluster has it. */
  lemma TruthIs(world: World, served: Served, selector: Selector, verb: Verb)
    requires SearchSpace(served, selector).Ok? && NamesSomething(selector)
    ensures var truth := Truth(world, SearchSpace(served, selector).value, selector, verb);
      && (forall r :: truth == Resolved(r) <==> OnlyServed(world, served, selector, r) && verb in r.verbs)
      && (truth == NotServed <==> NoneServed(world, served, selector))
      && (truth.Ambiguous? <==> SeveralServed(world, served, selector))
  {
    hide SearchSpace, Matches, Matched, Places, Place, Hits, Everything, ResolveFor, OnlyServed;
    var space := SearchSpace(served, selector).value;
    var all := Everything(world, space);
    AnswerSays(selector, all, verb);
    HitsAreMatched(selector, all);
    SpaceIs(served, selector);
    PlacesAre(world, selector, space);
    ServedCounts(world, served, selector);
    assert |Hits(selector, all)| == 0 <==> Hits(selector, all) == {};
    forall r ensures OnlyServed(world, served, selector, r) <==> OnlyMatch(selector, all, r) {
      OnlyOne(selector, all, r);
      OnlyServedIs(world, served, selector, r);
    }
  }

  lemma OnlyServedIs(world: World, served: Served, selector: Selector, r: Resource)
    requires SearchSpace(served, selector).Ok?
    ensures OnlyServed(world, served, selector, r) <==>
      Matched(selector, Everything(world, SearchSpace(served, selector).value)) == [r]
  {
    hide SearchSpace, Matches, Matched, Places, Place, Everything;
    var space := SearchSpace(served, selector).value;
    var matched := Matched(selector, Everything(world, space));
    SpaceIs(served, selector);
    PlacesAre(world, selector, space);
    ServedCounts(world, served, selector);
    forall gv, i: nat ensures Place(world, served, selector, gv, i) <==> (gv, i) in Places(world, selector, space) {
      PlaceIs(world, served, selector, gv, i);
    }
    if OnlyServed(world, served, selector, r) {
      var gv, i: nat :| Place(world, served, selector, gv, i) && At(world, gv)[i] == r;
      InPlace(world, served, selector, gv, i);
      assert r in matched;
    }
    if matched == [r] {
      assert r in matched;
      var gv, i: nat :| (gv, i) in Places(world, selector, space) && i < |At(world, gv)| && At(world, gv)[i] == r;
      OnePlace(Places(world, selector, space), (gv, i));
    }
  }

  /** What is answered after a search is so in the cluster behind it, of everything it serves in the group and
      version asked for: a resource that is given is the only match there and offers the verb; what is called
      not served has no match there, and what is called ambiguous more than one; and what is refused outright is
      no single match that offers the verb. Where nothing was left unread, the resource is given exactly when
      the cluster has it so. */
  lemma AnswersHold(
    served: Served, selector: Selector, replies: string -> Reply, searched: Searched, verb: Verb, world: World)
    requires SearchSpace(served, selector).Ok? && NamesSomething(selector)
    requires SearchedOver(served, replies, SearchSpace(served, selector).value, searched)
    requires Behind(world, served, replies, SearchSpace(served, selector).value)
    ensures forall r ::
      ResolveIn(searched, selector, verb) == Answer(r) ==> OnlyServed(world, served, selector, r) && verb in r.verbs
    ensures searched.unread == [] ==> forall r ::
      OnlyServed(world, served, selector, r) && verb in r.verbs ==> ResolveIn(searched, selector, verb) == Answer(r)
    ensures match ResolveAmong(searched, selector, verb)
      case Answer(_) => true
      case Refusal(Unproven(_)) => true
      case Refusal(Declined(why, _)) =>
        && (why.NotServed? ==> NoneServed(world, served, selector))
        && (why.Ambiguous? ==> SeveralServed(world, served, selector))
        && forall r :: OnlyServed(world, served, selector, r) ==> verb !in r.verbs
  {
    hide SearchSpace, SearchedOver, Behind, Sought, Possible, Truth, ResolveFor, OnlyServed, NoneServed, SeveralServed;
    AnswersAreTrue(served, selector, replies, searched, verb, world);
    TruthIs(world, served, selector, verb);
    if searched.unread == [] { AllRead(served, selector, replies, searched, verb, world); }
  }

  lemma AllRead(
    served: Served, selector: Selector, replies: string -> Reply, searched: Searched, verb: Verb, world: World)
    requires SearchSpace(served, selector).Ok? && searched.unread == []
    requires SearchedOver(served, replies, SearchSpace(served, selector).value, searched)
    requires Behind(world, served, replies, SearchSpace(served, selector).value)
    ensures Truth(world, SearchSpace(served, selector).value, selector, verb) ==
      ResolveFor(selector, All(searched.discovery), verb)
  {
    hide SearchSpace, Behind, Truth, ResolveFor, EntryOk, GapOk;
    var space := SearchSpace(served, selector).value;
    SearchIsSought(served, selector, replies, searched, world);
    NothingUnread(selector, space, searched, verb, false);
  }
}
