/**
 * The external Web root: release directories, possibly reached through one symbolic link, and the
 * `current` pointer. Every filesystem effect may fail; removing or filling a directory may stop
 * half-way.
 */
module UpdateWeb {
  import opened Common

  type Tree = map<string, string>

  datatype Entry = Dir(tree: Tree) | Link(to: string)

  datatype Web = Web(entries: map<string, Entry>, current: Option<string>)

  /** The directory a name resolves to. */
  function Real(w: Web, name: string): string {
    if name in w.entries && w.entries[name].Link? then w.entries[name].to else name
  }

  function Live(w: Web): Option<string> {
    if w.current.None? then None else Some(Real(w, w.current.value))
  }

  function Content(w: Web, name: string): Option<Tree> {
    if name in w.entries && w.entries[name].Dir? then Some(w.entries[name].tree) else None
  }

  /** What visitors are served. */
  function Served(w: Web): Option<Tree> {
    if w.current.None? then None else Content(w, Real(w, w.current.value))
  }

  /** Links lead to directories. */
  predicate Shallow(w: Web) {
    forall n <- w.entries :: w.entries[n].Link? ==> w.entries[n].to !in w.entries || w.entries[w.entries[n].to].Dir?
  }

  /** One effect leaves the served tree alone, or moves the pointer and leaves the tree it led to alone. */
  predicate Intact(w: Web, w': Web) {
    w.current.Some? ==>
      && Content(w', Real(w, w.current.value)) == Content(w, Real(w, w.current.value))
      && (w'.current == w.current ==> Served(w') == Served(w))
  }

  function PartialName(commit: string): string { "." + commit + ".partial" }

  /** The name is the live directory, or the link that leads to it. */
  predicate LeadsTo(w: Web, name: string) {
    w.current == Some(name) || Live(w) == Some(name)
  }

  /** A live directory under the staging name is lost when staging clears that name. */
  lemma StagingNameMayBeLive(commit: string, tree: Tree)
    ensures var name := PartialName(commit);
            var w := Web(map[name := Dir(tree)], Some(name));
            && Shallow(w) && LeadsTo(w, name) && Served(w) == Some(tree)
            && !Intact(w, w.(entries := w.entries - {name}))
  {
    var name := PartialName(commit);
    var w := Web(map[name := Dir(tree)], Some(name));
    assert Content(w.(entries := w.entries - {name}), name).None?;
  }

  datatype Plan = Plan(candidate: string, partialName: string, previous: string, previousDigest: string,
                       stagedDigest: string)

  class WebRoot {
    /** The hash of a tree's names and contents. */
    const hash: Tree -> string
    var web: Web
    /** Some effect so far rewrote the tree being served. */
    ghost var rewritten: bool

    ghost predicate Valid()
      reads this
    {
      Shallow(web)
    }

    constructor (w: Web, h: Tree -> string)
      requires Shallow(w)
      ensures Valid() && web == w && !rewritten && hash == h
    {
      hash, web, rewritten := h, w, false;
    }

    function Digest(tree: Tree): string { "sha256:" + hash(tree) }

    /** Visitors are served a tree with this digest. */
    predicate Serves(w: Web, digest: string) {
      Served(w).Some? && Digest(Served(w).value) == digest
    }

    /** Replaces or removes one entry of the root, or fails without effect. */
    method Put(name: string, entry: Option<Entry>) returns (ok: bool)
      requires Valid() && (entry.Some? ==> entry.value.Dir?)
      modifies this
      ensures Valid() && web.current == old(web).current
      ensures web.entries == if !ok then old(web).entries
                             else if entry.None? then old(web).entries - {name}
                             else old(web).entries[name := entry.value]
      ensures rewritten == (old(rewritten) || !Intact(old(web), web))
    {
      ok := *;
      if ok {
        ghost var before := web;
        web := web.(entries := if entry.None? then web.entries - {name} else web.entries[name := entry.value]);
        rewritten := rewritten || !Intact(before, web);
      }
    }

    /** Removes an entry; a directory may be left half removed. */
    method Remove(name: string) returns (ok: bool)
      requires Valid()
      modifies this
      ensures Valid() && web.current == old(web).current && web.entries - {name} == old(web).entries - {name}
      ensures ok ==> name !in web.entries
      ensures old(rewritten) ==> rewritten
      ensures !LeadsTo(old(web), name) ==>
                rewritten == old(rewritten) && Intact(old(web), web) && Live(web) == Live(old(web))
      ensures ok && LeadsTo(old(web), name) && Served(old(web)).Some? ==> rewritten
    {
      if name in web.entries && web.entries[name].Dir? {
        var remains: Tree := *;
        ok := Put(name, Some(Dir(remains)));
        if !ok { return; }
      }
      ok := Put(name, None);
    }

    /** Moves the `current` pointer in one atomic replacement. */
    method Switch(to: string) returns (ok: bool)
      requires Valid()
      modifies this
      ensures Valid() && web.entries == old(web).entries && rewritten == old(rewritten)
      ensures web.current == if ok then Some(to) else old(web).current
    {
      ok := *;
      if ok { web := web.(current := Some(to)); }
    }

    /**
     * Extracts the candidate's assets beside the live tree. The live tree is left alone exactly when
     * the staging name does not lead to it.
     */
    method Stage(commit: string, extracted: Tree) returns (plan: Option<Plan>)
      requires Valid()
      modifies this
      ensures Valid() && web.current == old(web).current && (old(rewritten) ==> rewritten)
      ensures web.entries - {PartialName(commit)} == old(web).entries - {PartialName(commit)}
      ensures !LeadsTo(old(web), PartialName(commit)) ==>
                rewritten == old(rewritten) && Served(web) == Served(old(web)) && !LeadsTo(web, PartialName(commit))
      ensures plan.Some? ==>
                && Some(plan.value.previous) == Live(old(web)) && plan.value.previous != ""
                && Serves(old(web), plan.value.previousDigest)
                && plan.value.candidate == commit && plan.value.partialName == PartialName(commit)
                && plan.value.stagedDigest == Digest(extracted) && extracted != map[]
                && (rewritten <==> old(rewritten) || LeadsTo(old(web), PartialName(commit)))
    {
      if web.current.None? { return None; }
      var live := Real(web, web.current.value);
      if live == "" || Content(web, live).None? { return None; }
      var previousDigest := Digest(Content(web, live).value);
      var partialName := PartialName(commit);
      if partialName in web.entries {
        var removed := Remove(partialName);
        if !removed { return None; }
      }
      var filled := Fill(partialName, extracted);
      if !filled || extracted == map[] { return None; }
      if Real(web, commit) == Real(web, web.current.value) {
        var removed := Remove(partialName);
        if !removed || Digest(extracted) != previousDigest { return None; }
      }
      return Some(Plan(commit, partialName, live, previousDigest, Digest(extracted)));
    }

    /** Makes the staging directory and copies the assets into it. */
    method Fill(name: string, extracted: Tree) returns (ok: bool)
      requires Valid() && name !in web.entries
      modifies this
      ensures Valid() && web.current == old(web).current && web.entries - {name} == old(web).entries - {name}
      ensures ok ==> web.entries == old(web).entries[name := Dir(extracted)]
      ensures old(rewritten) ==> rewritten
      ensures !LeadsTo(old(web), name) ==>
                rewritten == old(rewritten) && Intact(old(web), web) && Live(web) == Live(old(web))
    {
      var partly: Tree := *;
      ok := Put(name, Some(Dir(partly)));
      if !ok { return; }
      ok := Put(name, Some(Dir(extracted)));
    }

    /** Publishes the staged tree under a new target, or confirms that it is already live. */
    method Publish(plan: Plan) returns (ok: bool)
      requires Valid()
      modifies this
      ensures Valid() && (old(rewritten) ==> rewritten)
      ensures ok ==> web.current == Some(plan.candidate) && Serves(web, plan.stagedDigest)
      ensures !LeadsTo(old(web), plan.partialName) && old(web).current.Some? ==>
                rewritten == old(rewritten) && Content(web, Live(old(web)).value) == Served(old(web))
    {
      if Live(web) != Some(Real(web, plan.candidate)) {
        assert !LeadsTo(web, plan.candidate);
        if plan.candidate in web.entries {
          ok := Remove(plan.candidate);
          if !ok { return; }
        }
        ok := MoveIntoPlace(plan);
        if !ok { return; }
        ok := Switch(plan.candidate);
        if !ok { return; }
      }
      ok := web.current == Some(plan.candidate) && Serves(web, plan.stagedDigest);
    }

    /** Renames the staged directory to its final name. */
    method MoveIntoPlace(plan: Plan) returns (ok: bool)
      requires Valid() && plan.candidate !in web.entries && !LeadsTo(web, plan.candidate)
      modifies this
      ensures Valid() && web.current == old(web).current && (old(rewritten) ==> rewritten)
      ensures !LeadsTo(old(web), plan.partialName) ==>
                rewritten == old(rewritten) && Intact(old(web), web) && Live(web) == Live(old(web))
    {
      if Content(web, plan.partialName).None? { return false; }
      ghost var before := web;
      ok := *;
      if ok {
        web := web.(entries := (web.entries - {plan.partialName})[plan.candidate := web.entries[plan.partialName]]);
        rewritten := rewritten || !Intact(before, web);
      }
    }

    /** Points back at the previous tree and confirms its digest. */
    method Restore(previous: string, expected: string) returns (ok: bool)
      requires Valid()
      modifies this
      ensures Valid() && rewritten == old(rewritten) && web.entries == old(web).entries
      ensures ok ==> web.current == Some(previous) && Serves(web, expected)
    {
      ok := Switch(previous);
      ok := ok && Serves(web, expected);
    }
  }
}
