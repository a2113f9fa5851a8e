/**
 * The bounded walk over the service's cgroup domain: every directory below it must be unpopulated,
 * hold no process and no symbolic link, within 256 directories and 16 levels. The tree is arbitrary
 * and may be infinitely deep.
 */
module DomainWalk {
  import opened Common

  type Path = seq<string>

  datatype Kind = Directory | SymbolicLink | Plain

  /** What opening one directory shows; `events` are the fields of each line of its events file. */
  datatype Facts = Facts(id: nat, events: seq<seq<string>>, idle: bool, entries: seq<(string, Kind)>)

  type Tree = Path -> Option<Facts>

  const MaxDirectories: nat := 256
  const MaxDepth: nat := 16

  /** No two entries have the same name. */
  predicate NamedApart(entries: seq<(string, Kind)>) {
    forall i, j | 0 <= i < j < |entries| :: entries[i].0 != entries[j].0
  }

  predicate Distinct(names: seq<string>) {
    forall i, j | 0 <= i < j < |names| :: names[i] != names[j]
  }

  function DirNames(entries: seq<(string, Kind)>): (names: seq<string>)
    ensures forall n :: n in names <==> (n, Directory) in entries
    ensures NamedApart(entries) ==> Distinct(names)
  {
    if entries == [] then []
    else
      var rest := DirNames(entries[1..]);
      if entries[0].1.Directory? then [entries[0].0] + rest else rest
  }

  // ----- Events -----

  predicate EventsCalm(lines: seq<seq<string>>) {
    && (forall i | 0 <= i < |lines| :: |lines[i]| == 2 && lines[i][1] in {"0", "1"})
    && (forall i, j | 0 <= i < j < |lines| :: lines[i][0] != lines[j][0])
    && (exists i | 0 <= i < |lines| :: lines[i] == ["populated", "0"])
  }

  /** Parses the events file into unique keys and requires the domain to be unpopulated. */
  method CheckEvents(lines: seq<seq<string>>) returns (ok: bool)
    ensures ok <==> EventsCalm(lines)
  {
    var values: map<string, string> := map[];
    for n := 0 to |lines|
      invariant forall i | 0 <= i < n :: |lines[i]| == 2 && lines[i][1] in {"0", "1"}
      invariant forall i, j | 0 <= i < j < n :: lines[i][0] != lines[j][0]
      invariant forall i | 0 <= i < n :: lines[i][0] in values && values[lines[i][0]] == lines[i][1]
      invariant forall k <- values :: exists i | 0 <= i < n :: lines[i][0] == k
    {
      var pair := lines[n];
      if |pair| != 2 || pair[0] in values || pair[1] !in {"0", "1"} { return false; }
      values := values[pair[0] := pair[1]];
    }
    ok := "populated" in values && values["populated"] == "0";
    if ok {
      var i :| 0 <= i < |lines| && lines[i][0] == "populated";
      assert lines[i] == ["populated", "0"];
    }
  }

  // ----- What the walk accepts -----

  predicate NodeCalm(f: Facts) {
    EventsCalm(f.events) && f.idle && forall e <- f.entries :: !e.1.SymbolicLink?
  }

  /** `p` lies at or below `root`, reached through directory entries. */
  predicate Descends(tree: Tree, root: Path, p: Path) {
    root <= p && forall i | |root| <= i < |p| :: tree(p[..i]).Some? && p[i] in DirNames(tree(p[..i]).value.entries)
  }

  predicate CalmAt(tree: Tree, p: Path) {
    tree(p).Some? && NodeCalm(tree(p).value)
  }

  /** The acceptance condition, directory by directory. */
  predicate Calm(tree: Tree, path: Path, depth: nat)
    decreases 18 - depth, 0
  {
    depth <= MaxDepth && CalmAt(tree, path) && AllCalm(tree, path, DirNames(tree(path).value.entries), depth + 1)
  }

  predicate AllCalm(tree: Tree, path: Path, names: seq<string>, depth: nat)
    requires depth <= MaxDepth + 1
    decreases 18 - depth, 1 + |names|
  {
    names == [] || (AllCalm(tree, path, names[..|names| - 1], depth) && Calm(tree, path + [names[|names| - 1]], depth))
  }

  function Size(tree: Tree, path: Path, depth: nat): nat
    decreases 18 - depth, 0
  {
    if depth > MaxDepth || tree(path).None? then 1
    else 1 + SizeAll(tree, path, DirNames(tree(path).value.entries), depth + 1)
  }

  function SizeAll(tree: Tree, path: Path, names: seq<string>, depth: nat): nat
    requires depth <= MaxDepth + 1
    decreases 18 - depth, 1 + |names|
  {
    if names == [] then 0
    else SizeAll(tree, path, names[..|names| - 1], depth) + Size(tree, path + [names[|names| - 1]], depth)
  }

  lemma {:induction false} AllCalmEach(tree: Tree, path: Path, names: seq<string>, depth: nat)
    requires depth <= MaxDepth + 1
    ensures AllCalm(tree, path, names, depth) <==> forall n <- names :: Calm(tree, path + [n], depth)
    decreases |names|
  {
    if names != [] {
      AllCalmEach(tree, path, names[..|names| - 1], depth);
      assert names == names[..|names| - 1] + [names[|names| - 1]];
    }
  }

  lemma AllCalmAt(tree: Tree, path: Path, names: seq<string>, depth: nat, i: nat)
    requires depth <= MaxDepth + 1 && i < |names| && AllCalm(tree, path, names, depth)
    ensures Calm(tree, path + [names[i]], depth)
  {
    AllCalmEach(tree, path, names, depth);
  }

  lemma CalmChild(tree: Tree, path: Path, depth: nat, name: string)
    requires Calm(tree, path, depth) && name in DirNames(tree(path).value.entries)
    ensures Calm(tree, path + [name], depth + 1)
  {
    AllCalmEach(tree, path, DirNames(tree(path).value.entries), depth + 1);
  }

  lemma RefusedChild(tree: Tree, path: Path, depth: nat) returns (name: string)
    requires !Calm(tree, path, depth) && depth <= MaxDepth && CalmAt(tree, path)
    ensures name in DirNames(tree(path).value.entries) && !Calm(tree, path + [name], depth + 1)
  {
    AllCalmEach(tree, path, DirNames(tree(path).value.entries), depth + 1);
    name :| name in DirNames(tree(path).value.entries) && !Calm(tree, path + [name], depth + 1);
  }

  lemma DescendsStep(tree: Tree, path: Path, p: Path)
    requires Descends(tree, path, p) && p != path
    ensures tree(path).Some? && p[|path|] in DirNames(tree(path).value.entries) && Descends(tree, path + [p[|path|]], p)
  {
    assert p[..|path|] == path;
    assert p[..|path| + 1] == path + [p[|path|]];
  }

  lemma DescendsChild(tree: Tree, path: Path, name: string, p: Path)
    requires tree(path).Some? && name in DirNames(tree(path).value.entries) && Descends(tree, path + [name], p)
    ensures Descends(tree, path, p)
  {
    assert p[..|path|] == path;
  }

  /** Accepted means: every directory at or below, at any depth, is calm and at most 16 levels down. */
  lemma {:induction false} CalmMeans(tree: Tree, path: Path, depth: nat, p: Path)
    requires Calm(tree, path, depth) && Descends(tree, path, p)
    ensures CalmAt(tree, p) && depth + |p| - |path| <= MaxDepth
    decreases 18 - depth
  {
    if p != path {
      DescendsStep(tree, path, p);
      CalmChild(tree, path, depth, p[|path|]);
      CalmMeans(tree, path + [p[|path|]], depth + 1, p);
    }
  }

  /** Refused, on calm grounds, means: some directory at or below is not calm or lies too deep. */
  lemma {:induction false} RefusedMeans(tree: Tree, path: Path, depth: nat) returns (p: Path)
    requires !Calm(tree, path, depth)
    ensures Descends(tree, path, p) && (!CalmAt(tree, p) || depth + |p| - |path| > MaxDepth)
    decreases 18 - depth
  {
    p := path;
    if depth <= MaxDepth && CalmAt(tree, path) {
      var n := RefusedChild(tree, path, depth);
      p := RefusedMeans(tree, path + [n], depth + 1);
      DescendsChild(tree, path, n, p);
    }
  }

  // ----- How many directories there are -----

  /** A directory lists each name once. */
  ghost predicate Proper(tree: Tree) {
    forall p :: tree(p).Some? ==> NamedApart(tree(p).value.entries)
  }

  /** The directories at or below `path`, as far as the walk may go. */
  function Listed(tree: Tree, path: Path, depth: nat): set<Path>
    decreases 18 - depth, 0
  {
    if depth > MaxDepth || tree(path).None? then {path}
    else {path} + ListedAll(tree, path, DirNames(tree(path).value.entries), depth + 1)
  }

  function ListedAll(tree: Tree, path: Path, names: seq<string>, depth: nat): set<Path>
    requires depth <= MaxDepth + 1
    decreases 18 - depth, 1 + |names|
  {
    if names == [] then {}
    else ListedAll(tree, path, names[..|names| - 1], depth) + Listed(tree, path + [names[|names| - 1]], depth)
  }

  lemma {:induction false} ListedUnder(tree: Tree, path: Path, names: seq<string>, depth: nat, p: Path)
    returns (n: string)
    requires depth <= MaxDepth + 1 && p in ListedAll(tree, path, names, depth)
    ensures n in names && p in Listed(tree, path + [n], depth)
    decreases |names|
  {
    n := names[|names| - 1];
    if p !in Listed(tree, path + [n], depth) {
      n := ListedUnder(tree, path, names[..|names| - 1], depth, p);
    }
  }

  lemma {:induction false} UnderIsListed(
      tree: Tree, path: Path, names: seq<string>, depth: nat, n: string, p: Path)
    requires depth <= MaxDepth + 1 && n in names && p in Listed(tree, path + [n], depth)
    ensures p in ListedAll(tree, path, names, depth)
    decreases |names|
  {
    var rest := names[..|names| - 1];
    assert names == rest + [names[|names| - 1]];
    if n in rest { UnderIsListed(tree, path, rest, depth, n, p); }
  }

  lemma {:induction false} ListedIsBelow(tree: Tree, path: Path, depth: nat, p: Path)
    requires p in Listed(tree, path, depth)
    ensures Descends(tree, path, p)
    decreases 18 - depth
  {
    if p != path {
      var n := ListedUnder(tree, path, DirNames(tree(path).value.entries), depth + 1, p);
      ListedIsBelow(tree, path + [n], depth + 1, p);
      DescendsChild(tree, path, n, p);
    }
  }

  /** In a calm tree nothing is beyond the walk's reach. */
  lemma {:induction false} BelowIsListed(tree: Tree, path: Path, depth: nat, p: Path)
    requires Calm(tree, path, depth) && Descends(tree, path, p)
    ensures p in Listed(tree, path, depth)
    decreases 18 - depth
  {
    if p != path {
      DescendsStep(tree, path, p);
      var n := p[|path|];
      CalmChild(tree, path, depth, n);
      BelowIsListed(tree, path + [n], depth + 1, p);
      UnderIsListed(tree, path, DirNames(tree(path).value.entries), depth + 1, n, p);
    }
  }

  /** What is listed under some entries lies below one of them. */
  lemma ListedBelowEntry(tree: Tree, path: Path, names: seq<string>, depth: nat, p: Path)
    requires depth <= MaxDepth + 1 && p in ListedAll(tree, path, names, depth)
    ensures |p| > |path| && p[|path|] in names
  {
    var n := ListedUnder(tree, path, names, depth, p);
    ListedIsBelow(tree, path + [n], depth, p);
  }

  lemma PathIsNotBelow(tree: Tree, path: Path, names: seq<string>, depth: nat)
    requires depth <= MaxDepth + 1
    ensures path !in ListedAll(tree, path, names, depth)
  {
    if path in ListedAll(tree, path, names, depth) { ListedBelowEntry(tree, path, names, depth, path); }
  }

  lemma AddOne(p: Path, s: set<Path>)
    requires p !in s
    ensures |{p} + s| == 1 + |s|
  {
    assert {p} + s - {p} == s;
  }

  lemma AddApart(a: set<Path>, b: set<Path>)
    requires a !! b
    ensures |a + b| == |a| + |b|
  {
  }

  /** One level of the recursion. */
  lemma ListedUnfolds(tree: Tree, path: Path, depth: nat)
    requires depth <= MaxDepth && tree(path).Some?
    ensures var names := DirNames(tree(path).value.entries);
            && Listed(tree, path, depth) == {path} + ListedAll(tree, path, names, depth + 1)
            && Size(tree, path, depth) == 1 + SizeAll(tree, path, names, depth + 1)
  {
  }

  lemma ListedAllUnfolds(tree: Tree, path: Path, rest: seq<string>, last: string, depth: nat)
    requires depth <= MaxDepth + 1
    ensures ListedAll(tree, path, rest + [last], depth)
            == ListedAll(tree, path, rest, depth) + Listed(tree, path + [last], depth)
    ensures SizeAll(tree, path, rest + [last], depth)
            == SizeAll(tree, path, rest, depth) + Size(tree, path + [last], depth)
  {
    assert (rest + [last])[..|rest|] == rest;
  }

  lemma SizeIsListedHere(tree: Tree, path: Path, depth: nat)
    requires depth <= MaxDepth && tree(path).Some?
    requires var names := DirNames(tree(path).value.entries);
             |ListedAll(tree, path, names, depth + 1)| == SizeAll(tree, path, names, depth + 1)
    ensures |Listed(tree, path, depth)| == Size(tree, path, depth)
  {
    var names := DirNames(tree(path).value.entries);
    ListedUnfolds(tree, path, depth);
    PathIsNotBelow(tree, path, names, depth + 1);
    AddOne(path, ListedAll(tree, path, names, depth + 1));
  }

  lemma {:induction false} SizeIsListed(tree: Tree, path: Path, depth: nat)
    requires Proper(tree)
    ensures |Listed(tree, path, depth)| == Size(tree, path, depth)
    decreases 18 - depth, 0
  {
    if depth <= MaxDepth && tree(path).Some? {
      var names := DirNames(tree(path).value.entries);
      SizeIsListedAll(tree, path, names, depth + 1);
      SizeIsListedHere(tree, path, depth);
    }
  }

  lemma {:induction false} SizeIsListedAll(tree: Tree, path: Path, names: seq<string>, depth: nat)
    requires Proper(tree) && depth <= MaxDepth + 1 && Distinct(names)
    ensures |ListedAll(tree, path, names, depth)| == SizeAll(tree, path, names, depth)
    decreases 18 - depth, 1 + |names|
  {
    if names != [] {
      var rest, last := names[..|names| - 1], names[|names| - 1];
      assert names == rest + [last];
      SizeIsListedAll(tree, path, rest, depth);
      SizeIsListed(tree, path + [last], depth);
      SubtreesListedApart(tree, path, rest, last, depth);
      AddApart(ListedAll(tree, path, rest, depth), Listed(tree, path + [last], depth));
      ListedAllUnfolds(tree, path, rest, last, depth);
    }
  }

  lemma SubtreesListedApart(tree: Tree, path: Path, rest: seq<string>, last: string, depth: nat)
    requires depth <= MaxDepth + 1 && last !in rest
    ensures ListedAll(tree, path, rest, depth) !! Listed(tree, path + [last], depth)
  {
    forall p <- ListedAll(tree, path, rest, depth) ensures p !in Listed(tree, path + [last], depth) {
      ListedApart(tree, path, rest, last, depth, p);
    }
  }

  /** What is below one entry is not below another. */
  lemma ListedApart(tree: Tree, path: Path, rest: seq<string>, last: string, depth: nat, p: Path)
    requires depth <= MaxDepth + 1 && last !in rest && p in ListedAll(tree, path, rest, depth)
    ensures p !in Listed(tree, path + [last], depth)
  {
    ListedBelowEntry(tree, path, rest, depth, p);
    if p in Listed(tree, path + [last], depth) { ListedIsBelow(tree, path + [last], depth, p); }
  }

  /** `s` is the set of all directories at or below `root`. */
  ghost predicate Comprises(tree: Tree, root: Path, s: set<Path>) {
    forall p :: p in s <==> Descends(tree, root, p)
  }

  /** In a calm tree the walk's size is the number of directories. */
  lemma SizeCounts(tree: Tree, root: Path, s: set<Path>)
    requires Proper(tree) && Calm(tree, root, 0)
    ensures Comprises(tree, root, Listed(tree, root, 0))
    ensures Comprises(tree, root, s) ==> |s| == Size(tree, root, 0)
  {
    forall p ensures p in Listed(tree, root, 0) <==> Descends(tree, root, p) {
      if p in Listed(tree, root, 0) { ListedIsBelow(tree, root, 0, p); }
      if Descends(tree, root, p) { BelowIsListed(tree, root, 0, p); }
    }
    SizeIsListed(tree, root, 0);
    if Comprises(tree, root, s) {
      forall p ensures p in s <==> p in Listed(tree, root, 0) { assert p in s <==> Descends(tree, root, p); }
      assert s == Listed(tree, root, 0);
    }
  }

  /** The promise of the walk: at most 256 directories, each calm and at most 16 levels down. */
  ghost predicate Acceptable(tree: Tree, root: Path) {
    && (forall p | Descends(tree, root, p) :: CalmAt(tree, p) && |p| - |root| <= MaxDepth)
    && (exists s :: Comprises(tree, root, s) && |s| <= MaxDirectories)
  }

  lemma AcceptableMeans(tree: Tree, root: Path)
    requires Proper(tree)
    ensures Acceptable(tree, root) <==> Calm(tree, root, 0) && Size(tree, root, 0) <= MaxDirectories
  {
    if Calm(tree, root, 0) {
      SizeCounts(tree, root, Listed(tree, root, 0));
      forall p | Descends(tree, root, p) ensures CalmAt(tree, p) && |p| - |root| <= MaxDepth {
        CalmMeans(tree, root, 0, p);
      }
      if Acceptable(tree, root) {
        var s :| Comprises(tree, root, s) && |s| <= MaxDirectories;
        SizeCounts(tree, root, s);
      }
    } else {
      var p := RefusedMeans(tree, root, 0);
    }
  }

  // ----- The walk -----

  /** `p` lies at or below one of the named subdirectories. */
  predicate Below(tree: Tree, path: Path, names: seq<string>, p: Path) {
    exists i | 0 <= i < |names| :: Descends(tree, path + [names[i]], p)
  }

  lemma BelowPush(tree: Tree, path: Path, names: seq<string>, i: nat, p: Path)
    requires i < |names|
    ensures Below(tree, path, names[..i + 1], p) <==>
            Below(tree, path, names[..i], p) || Descends(tree, path + [names[i]], p)
  {
    if Below(tree, path, names[..i], p) {
      var j :| 0 <= j < i && Descends(tree, path + [names[..i][j]], p);
      assert names[..i + 1][j] == names[..i][j];
    }
    if Descends(tree, path + [names[i]], p) { assert names[..i + 1][i] == names[i]; }
  }

  lemma DescendsSplits(tree: Tree, path: Path, p: Path)
    requires tree(path).Some?
    ensures Descends(tree, path, p) <==> p == path || Below(tree, path, DirNames(tree(path).value.entries), p)
  {
    var names := DirNames(tree(path).value.entries);
    if Descends(tree, path, p) && p != path {
      DescendsStep(tree, path, p);
      var i :| 0 <= i < |names| && names[i] == p[|path|];
      assert Descends(tree, path + [names[i]], p);
    }
    if Below(tree, path, names, p) {
      var i :| 0 <= i < |names| && Descends(tree, path + [names[i]], p);
      DescendsChild(tree, path, names[i], p);
    }
  }

  /** Subtrees of different entries do not meet, and none contains its parent. */
  lemma SubtreesApart(tree: Tree, path: Path, names: seq<string>, i: nat, p: Path)
    requires i < |names| && Distinct(names)
    requires Descends(tree, path + [names[i]], p)
    ensures p != path && !Below(tree, path, names[..i], p)
  {
    assert p[|path|] == names[i];
    forall j | 0 <= j < i ensures !Descends(tree, path + [names[..i][j]], p) {
      assert names[..i][j] != names[i];
    }
  }

  lemma {:induction false} PrefixFits(tree: Tree, path: Path, names: seq<string>, i: nat, depth: nat)
    requires depth <= MaxDepth + 1 && i < |names|
    ensures SizeAll(tree, path, names[..i], depth) + Size(tree, path + [names[i]], depth)
            <= SizeAll(tree, path, names, depth)
    decreases |names|
  {
    if i == |names| - 1 {
    } else {
      PrefixFits(tree, path, names[..|names| - 1], i, depth);
      assert names[..|names| - 1][..i] == names[..i];
    }
  }

  lemma PushAll(tree: Tree, path: Path, names: seq<string>, i: nat, depth: nat)
    requires depth <= MaxDepth + 1 && i < |names|
    ensures SizeAll(tree, path, names[..i + 1], depth)
            == SizeAll(tree, path, names[..i], depth) + Size(tree, path + [names[i]], depth)
    ensures AllCalm(tree, path, names[..i + 1], depth) <==>
            AllCalm(tree, path, names[..i], depth) && Calm(tree, path + [names[i]], depth)
  {
    assert names[..i + 1][..i] == names[..i];
  }

  class Walk {
    const tree: Tree
    /** The tree does not change while it is walked. */
    const still: bool
    var count: nat
    var observed: map<Path, Facts>

    constructor (tree: Tree, still: bool)
      ensures this.tree == tree && this.still == still && count == 0 && observed == map[]
    {
      this.tree, this.still, count, observed := tree, still, 0, map[];
    }

    /** Everything at or below `path`, and nothing else, was added to the earlier observations. */
    ghost predicate Covers(path: Path, before: map<Path, Facts>)
      reads this
    {
      && (forall p :: p in observed <==> p in before || Descends(tree, path, p))
      && (forall p <- before :: observed[p] == before[p])
      && (forall p <- observed :: p in before || tree(p) == Some(observed[p]))
    }

    /** As `Covers`, part-way through the subdirectories of `path`. */
    ghost predicate CoversPart(path: Path, names: seq<string>, before: map<Path, Facts>)
      reads this
    {
      && (forall p :: p in observed <==> p in before || p == path || Below(tree, path, names, p))
      && (forall p <- before :: observed[p] == before[p])
      && (forall p <- observed :: p in before || tree(p) == Some(observed[p]))
    }

    lemma ChildIsNew(path: Path, names: seq<string>, i: nat, before: map<Path, Facts>)
      requires i < |names| && Distinct(names)
               && CoversPart(path, names[..i], before)
      requires tree(path).Some? && names == DirNames(tree(path).value.entries)
               && forall p <- before :: !Descends(tree, path, p)
      ensures forall p <- observed :: !Descends(tree, path + [names[i]], p)
    {
      forall p <- observed ensures !Descends(tree, path + [names[i]], p) {
        if Descends(tree, path + [names[i]], p) {
          DescendsChild(tree, path, names[i], p);
          SubtreesApart(tree, path, names, i, p);
        }
      }
    }

    lemma ChildCovered(path: Path, names: seq<string>, i: nat, before: map<Path, Facts>, sofar: map<Path, Facts>)
      requires i < |names| && Covers(path + [names[i]], sofar)
      requires forall p :: p in sofar <==> p in before || p == path || Below(tree, path, names[..i], p)
      requires forall p <- before :: sofar[p] == before[p]
      requires forall p <- sofar :: p in before || tree(p) == Some(sofar[p])
      ensures CoversPart(path, names[..i + 1], before)
    {
      forall p
        ensures Below(tree, path, names[..i + 1], p) <==>
                Below(tree, path, names[..i], p) || Descends(tree, path + [names[i]], p)
      {
        BelowPush(tree, path, names, i, p);
      }
    }

    /** Reads one directory and refuses facts that are not calm. */
    method Inspect(path: Path) returns (facts: Option<Facts>)
      ensures facts.Some? <==> CalmAt(tree, path)
      ensures facts.Some? ==> facts == tree(path)
    {
      if tree(path).None? { return None; }
      var found := tree(path).value;
      var ok := CheckEvents(found.events);
      if !ok || !found.idle || (exists e <- found.entries :: e.1.SymbolicLink?) { return None; }
      return Some(found);
    }

    /** Visits one directory and then its subdirectories; refuses on the first fact that is not calm. */
    method Visit(path: Path, depth: nat) returns (ok: bool)
      requires depth <= MaxDepth + 1 && Proper(tree) && forall p <- observed :: !Descends(tree, path, p)
      modifies this
      ensures ok ==> Calm(tree, path, depth) && count == old(count) + Size(tree, path, depth) <= MaxDirectories
      ensures still && Calm(tree, path, depth) && old(count) + Size(tree, path, depth) <= MaxDirectories ==> ok
      ensures ok ==> Covers(path, old(observed)) && |observed| - |old(observed)| == count - old(count)
      decreases 18 - depth, 0
    {
      count := count + 1;
      if count > MaxDirectories || depth > MaxDepth { return false; }
      var facts := Inspect(path);
      if facts.None? { return false; }
      ghost var before := observed;
      assert path !in observed by { assert Descends(tree, path, path); }
      observed := observed[path := facts.value];
      ok := VisitChildren(path, DirNames(facts.value.entries), depth + 1, before);
      if !ok { return; }
      CoversAll(path, before);
      var changed := *;
      ok := still || !changed;
    }

    lemma CoversAll(path: Path, before: map<Path, Facts>)
      requires tree(path).Some? && CoversPart(path, DirNames(tree(path).value.entries), before)
      ensures Covers(path, before)
    {
      forall p
        ensures Descends(tree, path, p) <==> p == path || Below(tree, path, DirNames(tree(path).value.entries), p)
      {
        DescendsSplits(tree, path, p);
      }
    }

    /** One more subdirectory, in the order of the listing. */
    method VisitChild(path: Path, names: seq<string>, i: nat, depth: nat, ghost before: map<Path, Facts>)
      returns (ok: bool)
      requires 0 < depth <= MaxDepth + 1 && i < |names| && Proper(tree) && count <= MaxDirectories
      requires tree(path).Some? && names == DirNames(tree(path).value.entries) && Distinct(names)
      requires CoversPart(path, names[..i], before) && forall p <- before :: !Descends(tree, path, p)
      modifies this
      ensures ok ==>
                && Calm(tree, path + [names[i]], depth) && CoversPart(path, names[..i + 1], before)
                && count == old(count) + Size(tree, path + [names[i]], depth) <= MaxDirectories
                && |observed| - |old(observed)| == count - old(count)
      ensures && still && Calm(tree, path + [names[i]], depth)
              && old(count) + Size(tree, path + [names[i]], depth) <= MaxDirectories
              ==> ok
      decreases 18 - depth, 1
    {
      ChildIsNew(path, names, i, before);
      ghost var sofar := observed;
      ok := Visit(path + [names[i]], depth);
      if ok { ChildCovered(path, names, i, before, sofar); }
    }

    method VisitChildren(path: Path, names: seq<string>, depth: nat, ghost before: map<Path, Facts>) returns (ok: bool)
      requires 0 < depth <= MaxDepth + 1 && Proper(tree) && count <= MaxDirectories && CoversPart(path, [], before)
      requires tree(path).Some? && names == DirNames(tree(path).value.entries)
               && forall p <- before :: !Descends(tree, path, p)
      modifies this
      ensures ok ==>
                AllCalm(tree, path, names, depth)
                && count == old(count) + SizeAll(tree, path, names, depth) <= MaxDirectories
      ensures && still && AllCalm(tree, path, names, depth)
              && old(count) + SizeAll(tree, path, names, depth) <= MaxDirectories
              ==> ok
      ensures ok ==> CoversPart(path, names, before) && |observed| - |old(observed)| == count - old(count)
      decreases 18 - depth, 2
    {
      assert Distinct(names);
      for i := 0 to |names|
        invariant count == old(count) + SizeAll(tree, path, names[..i], depth) <= MaxDirectories
        invariant AllCalm(tree, path, names[..i], depth)
        invariant CoversPart(path, names[..i], before) && |observed| - |old(observed)| == count - old(count)
      {
        PrefixFits(tree, path, names, i, depth);
        PushAll(tree, path, names, i, depth);
        if AllCalm(tree, path, names, depth) { AllCalmAt(tree, path, names, depth, i); }
        ok := VisitChild(path, names, i, depth, before);
        if !ok { return; }
      }
      assert names[..|names|] == names;
      ok := true;
    }

    /**
     * The whole domain. An accepted walk observed exactly the directories at or below the root, at most
     * 256 of them and 16 levels, every one calm; an unchanging tree of that kind is always accepted.
     */
    method Domain(root: Path) returns (accepted: bool, result: Option<map<Path, Facts>>)
      requires Proper(tree) && count == 0 && observed == map[]
      modifies this
      ensures tree(root).None? ==> accepted && result.None?
      ensures accepted && tree(root).Some? ==>
                && Acceptable(tree, root) && result.Some? && |result.value| <= MaxDirectories
                && (forall p :: p in result.value <==> Descends(tree, root, p))
                && (forall p <- result.value :: tree(p) == Some(result.value[p]))
      ensures still && Acceptable(tree, root) ==> accepted
    {
      if tree(root).None? { return true, None; }
      AcceptableMeans(tree, root);
      accepted := Visit(root, 0);
      result := if accepted then Some(observed) else None;
    }
  }
}
