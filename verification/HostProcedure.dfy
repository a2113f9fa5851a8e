/**
 * The host steps of one replacement, in their order: begin, vacate, install, start and finalize. Each is
 * a process of its own; between any two of them outside parties act and the host may reboot.
 */
module HostProcedure {
  import opened Common
  import opened Payloads
  import opened HostMachine
  import opened Maintenance
  import Custody

  /** The installer finds something other than the target under a live name. */
  predicate Conflict(names: Names, target: PerKey<Hash>) {
    exists k: Key :: names.At(k).Some? && names.At(k) != Some(target.At(k))
  }

  /** The first `n` names show the target, the others what they showed before. */
  predicate LinkedSoFar(before: Names, names: Names, target: PerKey<Hash>, n: nat) {
    forall j | 0 <= j < |Keys| ::
      names.At(Keys[j]) == if j < n then Some(target.At(Keys[j])) else before.At(Keys[j])
  }

  lemma AllLinked(before: Names, names: Names, target: PerKey<Hash>)
    requires LinkedSoFar(before, names, target, |Keys|)
    ensures names == Present(target)
  {
    assert Keys[0] == Nanohost && Keys[1] == Gateway && Keys[2] == Unit;
  }

  /** Custody holds the old files of these payloads. */
  ghost predicate Holding(root: Custody.Root, vacated: seq<Key>)
    reads root
  {
    forall k <- vacated :: root.Holds(k)
  }

  /**
   * Links one payload to its live name, exclusively, and reads it back. The link appears on the disk of
   * a vacated payload as well, where its old file stays in custody.
   */
  method LinkOne(m: Operator, root: Custody.Root, vacated: seq<Key>, target: PerKey<Hash>, k: Key) returns (ok: bool)
    requires root.Ready(m) && Holding(root, vacated)
    modifies m, root`disk, root`history, root`tied
    ensures root.Ready(m) && Holding(root, vacated) && Drift(old(m.host), m.host)
    ensures old(m.host).payload.names.At(k).Some? ==> !ok && m.host == old(m.host) && root.disk == old(root.disk)
    ensures ok ==> m.host.payload.names.At(k) == Some(target.At(k)) && m.host.boot == old(m.host.boot)
    ensures ok && m.host.serials == root.tied ==>
              m.host.payload.names == old(m.host).payload.names.With(k, Some(target.At(k)))
              && old(m.host.serials) == old(root.tied)
  {
    if m.host.payload.names.At(k).Some? { return false; }
    if k in vacated && root.disk.live.At(k).now.None? {
      root.PlaceTarget(m, k, target.At(k));
    } else {
      m.WriteNames(m.host.payload.names.With(k, Some(target.At(k))));
    }
    ghost var mid := m.host;
    var alive := m.Yield();
    DriftsOn(old(m.host), mid, m.host);
    Custody.TiedLater(mid, m.host, root.disk, root.tied);
    ok := alive && m.host.payload.names.At(k) == Some(target.At(k));
  }

  /**
   * The installer: refuses a conflict, otherwise links the payloads that are absent. Unless others write
   * the names, all of them show the target then.
   */
  method RunInstaller(m: Operator, root: Custody.Root, vacated: seq<Key>, target: PerKey<Hash>) returns (ok: bool)
    requires root.Ready(m) && Holding(root, vacated)
    modifies m, root`disk, root`history, root`tied
    ensures root.Ready(m) && Holding(root, vacated) && Drift(old(m.host), m.host)
    ensures Conflict(old(m.host).payload.names, target) ==> !ok && m.host == old(m.host) && root.disk == old(root.disk)
    ensures ok ==> m.host.boot == old(m.host.boot)
    ensures ok && m.host.serials == root.tied ==> m.host.payload.names == Present(target)
  {
    var names := m.host.payload.names;
    if Conflict(names, target) { return false; }
    for i := 0 to |Keys|
      invariant root.Ready(m) && Holding(root, vacated)
      invariant Drift(old(m.host), m.host) && m.host.boot == old(m.host.boot)
      invariant m.host.serials == root.tied ==> LinkedSoFar(names, m.host.payload.names, target, i)
    {
      if names.At(Keys[i]).None? {
        ghost var mid := m.host;
        ok := LinkOne(m, root, vacated, target, Keys[i]);
        DriftsOn(old(m.host), mid, m.host);
        if !ok { return; }
      } else {
        assert names.At(Keys[i]) == Some(target.At(Keys[i]));
      }
    }
    if m.host.serials == root.tied { AllLinked(names, m.host.payload.names, target); }
    ok := true;
  }

  /** A fresh fence, then a look at the live names. */
  method FencedLook(m: Operator, ghost root: Custody.Root) returns (names: Option<Names>)
    requires root.Ready(m)
    modifies m
    ensures root.Ready(m) && Drift(old(m.host), m.host)
    ensures names.Some? ==> names.value == m.host.payload.names && m.host.boot == old(m.host.boot) && Sealed(m.host)
  {
    var ok := m.Fence();
    Custody.TiedLater(old(m.host), m.host, root.disk, root.tied);
    if !ok { return None; }
    ghost var mid := m.host;
    ok := m.Yield();
    DriftsOn(old(m.host), mid, m.host);
    Custody.TiedLater(old(m.host), m.host, root.disk, root.tied);
    names := if ok then Some(m.host.payload.names) else None;
  }

  /** The install step: the installer runs in a fenced domain, and afterwards every name shows the target. */
  method InstallTarget(m: Operator, root: Custody.Root, vacated: seq<Key>, target: PerKey<Hash>) returns (ok: bool)
    requires root.Ready(m) && Holding(root, vacated)
    modifies m, root`disk, root`history, root`tied
    ensures root.Ready(m) && Holding(root, vacated) && Drift(old(m.host), m.host)
    ensures ok ==> m.host.payload.names == Present(target) && m.host.boot == old(m.host.boot) && Sealed(m.host)
  {
    ok := MayInstall(m, root, target);
    if !ok { return; }
    ghost var mid := m.host;
    ok := RunInstaller(m, root, vacated, target);
    DriftsOn(old(m.host), mid, m.host);
    if !ok { return; }
    mid := m.host;
    ok := Installed(m, root, target);
    DriftsOn(old(m.host), mid, m.host);
  }

  /** Before the installer: fences, and no conflict found. */
  method MayInstall(m: Operator, root: Custody.Root, target: PerKey<Hash>) returns (ok: bool)
    requires root.Ready(m)
    modifies m
    ensures root.Ready(m) && Drift(old(m.host), m.host)
    ensures ok ==> Sealed(m.host) && m.host.boot == old(m.host.boot)
  {
    var found := FencedLook(m, root);
    if found.None? || Conflict(found.value, target) { return false; }
    ghost var mid := m.host;
    found := FencedLook(m, root);
    DriftsOn(old(m.host), mid, m.host);
    ok := found.Some?;
  }

  /** After the installer: fences, and the target twice in place. */
  method Installed(m: Operator, root: Custody.Root, target: PerKey<Hash>) returns (ok: bool)
    requires root.Ready(m)
    modifies m
    ensures root.Ready(m) && Drift(old(m.host), m.host)
    ensures ok ==> m.host.payload.names == Present(target) && m.host.boot == old(m.host.boot) && Sealed(m.host)
  {
    var found := FencedLook(m, root);
    if found != Some(Present(target)) { return false; }
    ghost var mid := m.host;
    found := FencedLook(m, root);
    DriftsOn(old(m.host), mid, m.host);
    ok := found == Some(Present(target));
  }

  /** Every payload that the replacement changes is durably in custody. */
  ghost predicate InCustody(root: Custody.Root, before: Custody.Disk, request: Custody.Request)
    reads root
  {
    && root.start == before && root.Valid() && (forall k: Key :: Custody.Measured(before, request, k))
    && forall k <- Custody.Differing(request, Keys) ::
         before.live.At(k).now.Some? && Custody.Retained(root.disk, k, before.live.At(k).now.value)
  }

  /** Vacate and install over a sealed domain: nothing is executed, and no permit is published. */
  method Exchange(m: Operator, root: Custody.Root, request: Custody.Request, inodes: Custody.PerDir<nat>)
    returns (ok: bool)
    requires root.Ready(m)
    modifies m, root
    ensures root.Ready(m) && Drift(old(m.host), m.host)
    ensures ok ==>
              && Sealed(m.host) && m.host.payload.names == Present(request.target)
              && InCustody(root, old(root.disk), request)
  {
    var report := root.Vacate(m, request, inodes);
    if report.None? { return false; }
    ghost var mid := m.host;
    var alive := m.Yield();
    DriftsOn(old(m.host), mid, m.host);
    Custody.TiedLater(mid, m.host, root.disk, root.tied);
    mid := m.host;
    ok := InstallTarget(m, root, report.value.retained, request.target);
    DriftsOn(old(m.host), mid, m.host);
  }

  /** Begin, vacate and install: from the stop on nothing is executed, and no permit is published. */
  method PutInPlace(m: Operator, root: Custody.Root, request: Custody.Request, inodes: Custody.PerDir<nat>)
    returns (ok: bool, ghost fenced: Host)
    requires root.Ready(m)
    modifies m, root
    ensures root.Ready(m) && Goes(old(m.host), m.host)
    ensures ok ==>
              && Goes(old(m.host), fenced) && Goes(fenced, m.host) && Fenced(fenced) && Held(fenced)
              && Held(m.host) && Sealed(m.host) && m.host.execs == fenced.execs && m.host.guardedExecs == 0
              && m.host.payload.names == Present(request.target) && InCustody(root, old(root.disk), request)
  {
    var custodyFree := root.disk.recovery.lib.now.None? && root.disk.recovery.systemd.now.None?;
    ok := m.Begin(request.previous.unit, custodyFree);
    fenced := m.host;
    Custody.TiedLater(old(m.host), fenced, root.disk, root.tied);
    if !ok { return; }
    var alive := m.Yield();
    ghost var mid := m.host;
    Custody.TiedLater(fenced, mid, root.disk, root.tied);
    ok := Exchange(m, root, request, inodes);
    DriftsOn(fenced, mid, m.host);
    GoesOn(old(m.host), fenced, m.host);
  }

  /**
   * The target's payload identities stayed the same while the guard was lifted: at `sight` under it and
   * at `restored` after it, with the process of this stamp running at both.
   */
  predicate SameTarget(h: Host, sight: Host, restored: Host, h': Host, stamp: Stamp, target: PerKey<Hash>) {
    && Goes(h, sight) && Goes(sight, restored) && Goes(restored, h')
    && RunsAs(sight, true, stamp) && Restored(restored, stamp, target) && restored.payload == sight.payload
  }

  /** The controlled start and the restoration of supervision, over a target that is in place. */
  method StartAndFinish(m: Operator, me: nat, target: PerKey<Hash>)
    returns (finished: Option<Stamp>, ghost sight: Host, ghost restored: Host)
    requires m.Valid() && Held(m.host)
    modifies m
    ensures m.Valid() && Goes(old(m.host), m.host)
    ensures finished.Some? ==> SameTarget(old(m.host), sight, restored, m.host, finished.value, target)
    ensures finished.Some? ==>
              && m.host.guard == Entry(false, false) && !m.host.permit && !m.host.loaded
              && m.host.attempt == Entry(true, true)
              && m.host.service.Running? && m.host.service.stamp == finished.value && m.host.service.guarded
              && m.host.service.image.names == Present(target)
              && m.host.guardedExecs == 1 && m.host.execs - old(m.host.execs) == 1 - old(m.host.guardedExecs)
  {
    var started := m.StartOnce(me, target);
    sight, restored := m.host, m.host;
    if started.None? { return None, sight, restored; }
    ghost var at := m.host;
    var alive := m.Yield();
    GoesOn(old(m.host), at, m.host);
    ghost var mid := m.host;
    var ok: bool;
    ok, sight, restored := m.Finalize(started.value, target);
    GoesOn(at, mid, m.host);
    GoesOn(old(m.host), mid, m.host);
    StaysOfTarget(at, m.host, started.value, target);
    RunKeepsSingle(m.initial, m.log);
    if ok {
      GoesOn(old(m.host), mid, sight);
      finished := started;
    } else {
      finished := None;
    }
  }

  /**
   * A completed replacement: supervision is stock again around the process the controlled start
   * returned. That process is the only execution since the old service was stopped, it was guarded and
   * it executed the target, whose identities were the same before and after the guard was lifted. Every
   * replaced payload is in custody, and at every moment of the disk a crash would have found it; unless
   * others wrote the live names, the disk shows the target too.
   */
  method Replace(m: Operator, root: Custody.Root, me: nat, request: Custody.Request, inodes: Custody.PerDir<nat>)
    returns (finished: Option<Stamp>, ghost fenced: Host, ghost sight: Host, ghost restored: Host)
    requires root.Ready(m)
    modifies m, root
    ensures root.Ready(m) && m.host.guardedExecs <= 1
    ensures finished.Some? ==>
              && m.host.guard == Entry(false, false) && !m.host.permit && !m.host.loaded
              && m.host.attempt == Entry(true, true)
              && m.host.service.Running? && m.host.service.stamp == finished.value
    ensures finished.Some? ==>
              && m.host.service.guarded && m.host.service.image.names == Present(request.target)
              && Fenced(fenced) && Goes(old(m.host), fenced)
              && m.host.guardedExecs == 1 && m.host.execs == fenced.execs + 1
    ensures finished.Some? ==> SameTarget(fenced, sight, restored, m.host, finished.value, request.target)
    ensures finished.Some? ==> InCustody(root, old(root.disk), request)
    ensures finished.Some? && m.host.serials == root.tied ==> Custody.Shown(root.disk) == Present(request.target)
  {
    finished := None;
    var placed: bool;
    placed, fenced := PutInPlace(m, root, request, inodes);
    sight, restored := m.host, m.host;
    if placed {
      ghost var inPlace := m.host;
      var alive := m.Yield();
      GoesOn(fenced, inPlace, m.host);
      ghost var before := m.host;
      finished, sight, restored := StartAndFinish(m, me, request.target);
      if finished.Some? { GoesOn(fenced, before, sight); }
      GoesOn(inPlace, before, m.host);
      Custody.TiedLater(inPlace, m.host, root.disk, root.tied);
    }
    RunKeepsSingle(m.initial, m.log);
  }
}
