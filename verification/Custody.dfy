/**
 * Fixed-destination custody of the three installed payloads: each differing old file is retained by
 * an exclusive hard link, made durable, before its live name is removed. Any effect may fail, and the
 * machine may lose power after any of them. The maintenance manager supplies a fresh fence before every
 * effect on a payload's own names, and outside parties act on the host meanwhile.
 */
module Custody {
  import opened Common
  import opened Payloads
  import opened Maintenance
  import HostMachine

  datatype Dir = LibOpenkit | SystemdSystem

  function DirOf(k: Key): Dir { if k.Unit? then SystemdSystem else LibOpenkit }
  function ModeOf(k: Key): int { if k.Unit? then 0x1a4 else 0x1ed }  // 0644 and 0755

  datatype PerDir<T> = PerDir(lib: T, systemd: T)
  {
    function At(d: Dir): T { if d.LibOpenkit? then lib else systemd }
    function With(d: Dir, t: T): PerDir<T> { if d.LibOpenkit? then this.(lib := t) else this.(systemd := t) }
  }

  /** The retained identity of one file; a hard link shares it. */
  datatype File = File(inode: nat, regular: bool, mode: int, owned: bool, hash: Hash)

  /**
   * One directory entry: `now` is what the kernel shows, `earlier` the values it had since the entry
   * was last synchronised. A crash may leave any of them.
   */
  datatype Slot<T(==)> = Slot(now: Option<T>, earlier: set<Option<T>>)
  {
    function OnDisk(): set<Option<T>> { earlier + {now} }
    function Write(value: Option<T>): Slot<T> { Slot(value, OnDisk()) }
    function Synced(): Slot<T> { Slot(now, {}) }
    predicate Durable() { earlier == {} }
  }

  datatype Disk = Disk(
    live: PerKey<Slot<File>>,
    custody: PerKey<Slot<File>>,
    recovery: PerDir<Slot<nat>>,
    residue: PerKey<Option<File>>,
    flushed: set<nat>)

  // ----- What a crash may leave -----

  datatype Image = Image(live: PerKey<Option<File>>, custody: PerKey<Option<File>>, recovery: PerDir<Option<nat>>)

  predicate CrashImage(d: Disk, i: Image) {
    && (forall k: Key :: i.live.At(k) in d.live.At(k).OnDisk())
    && (forall k: Key :: i.custody.At(k) in d.custody.At(k).OnDisk())
    && (forall r: Dir :: i.recovery.At(r) in d.recovery.At(r).OnDisk())
  }

  /** The recovery directory is on disk, holds the file, and the file's bytes were flushed. */
  predicate RetainedIn(i: Image, k: Key, f: File, flushed: set<nat>) {
    i.recovery.At(DirOf(k)).Some? && i.custody.At(k) == Some(f) && f.inode in flushed
  }

  /** Whatever a crash at the start would have found at the live name is still there, or is in custody. */
  predicate Reachable(start: Disk, d: Disk, i: Image, k: Key) {
    || i.live.At(k) in start.live.At(k).OnDisk()
    || (start.live.At(k).now.Some? && RetainedIn(i, k, start.live.At(k).now.value, d.flushed))
  }

  // ----- The invariant of every step -----

  predicate Anchored(d: Disk, r: Dir) {
    d.recovery.At(r).now.Some? && d.recovery.At(r).Durable()
  }

  predicate Retained(d: Disk, k: Key, f: File) {
    d.custody.At(k) == Slot(Some(f), {}) && f.inode in d.flushed && Anchored(d, DirOf(k))
  }

  predicate Protected(start: Disk, d: Disk, changed: seq<Key>, k: Key) {
    || d.live.At(k).OnDisk() <= start.live.At(k).OnDisk()
    || (k in changed && start.live.At(k).now.Some? && Retained(d, k, start.live.At(k).now.value))
  }

  predicate Safe(start: Disk, changed: seq<Key>, d: Disk) {
    forall k: Key :: Protected(start, d, changed, k)
  }

  /** A safe state loses nothing in a crash, and never touches a payload that does not differ. */
  lemma SafeSurvivesCrash(start: Disk, changed: seq<Key>, d: Disk, i: Image, k: Key)
    requires Safe(start, changed, d) && CrashImage(d, i)
    ensures Reachable(start, d, i, k)
    ensures k !in changed ==> i.live.At(k) in start.live.At(k).OnDisk()
  {
    assert Protected(start, d, changed, k);
    assert i.recovery.At(DirOf(k)) in d.recovery.At(DirOf(k)).OnDisk();
    assert i.custody.At(k) in d.custody.At(k).OnDisk();
  }

  // ----- The request and its checks -----

  datatype Request = Request(previous: PerKey<Hash>, target: PerKey<Hash>)

  predicate PayloadOk(f: Option<File>, hash: Hash, mode: int) {
    f.Some? && f.value.regular && f.value.owned && f.value.mode == mode && f.value.hash == hash
  }

  /** The live name holds the expected previous payload. */
  predicate Measured(d: Disk, request: Request, k: Key) {
    PayloadOk(d.live.At(k).now, request.previous.At(k), ModeOf(k))
  }

  /** Installer residue is absent or is exactly the target payload. */
  predicate ReservedOk(d: Disk, request: Request) {
    forall k: Key :: d.residue.At(k).None? || PayloadOk(d.residue.At(k), request.target.At(k), ModeOf(k))
  }

  /** The live names not yet vacated still carry the measured files. */
  predicate RemainingOk(d: Disk, request: Request, original: PerKey<File>, vacated: set<Key>) {
    && (forall k: Key :: k in vacated ||
          (Measured(d, request, k) && d.live.At(k).now == Some(original.At(k))))
    && ReservedOk(d, request)
  }

  function Differing(request: Request, keys: seq<Key>): (ks: seq<Key>)
    ensures forall k <- ks :: k in keys && request.previous.At(k) != request.target.At(k)
    ensures forall k <- keys :: request.previous.At(k) != request.target.At(k) ==> k in ks
    ensures (forall i, j | 0 <= i < j < |keys| :: keys[i] != keys[j]) ==>
              (forall i, j | 0 <= i < j < |ks| :: ks[i] != ks[j])
  {
    if keys == [] then []
    else
      var rest := Differing(request, keys[1..]);
      if request.previous.At(keys[0]) != request.target.At(keys[0]) then [keys[0]] + rest else rest
  }

  function Unchanged(keys: seq<Key>, vacated: set<Key>): (ks: seq<Key>)
    ensures forall k :: k in ks <==> k in keys && k !in vacated
  {
    if keys == [] then [] else (if keys[0] in vacated then [] else [keys[0]]) + Unchanged(keys[1..], vacated)
  }

  datatype Report = Report(retained: seq<Key>, leftInPlace: seq<Key>)

  // ----- Filesystem effects -----

  /** A new recovery directory is empty. */
  function Mkdir(d: Disk, r: Dir, inode: nat): Disk {
    var empty := (k: Key) => if DirOf(k) == r then Slot(None, {}) else d.custody.At(k);
    d.(recovery := d.recovery.With(r, d.recovery.At(r).Write(Some(inode))),
       custody := PerKey(empty(Nanohost), empty(Gateway), empty(Unit)))
  }

  function Link(d: Disk, k: Key): Disk {
    d.(custody := d.custody.With(k, d.custody.At(k).Write(d.live.At(k).now)))
  }

  function Flush(d: Disk, inode: nat): Disk { d.(flushed := d.flushed + {inode}) }

  function Unlink(d: Disk, k: Key): Disk {
    d.(live := d.live.With(k, d.live.At(k).Write(None)))
  }

  function SyncNames(names: PerKey<Slot<File>>, r: Dir): PerKey<Slot<File>> {
    var synced := (k: Key) => if DirOf(k) == r then names.At(k).Synced() else names.At(k);
    PerKey(synced(Nanohost), synced(Gateway), synced(Unit))
  }

  /** Synchronises the entries of one parent: its live names and its recovery directory. */
  function SyncParent(d: Disk, r: Dir): Disk {
    d.(live := SyncNames(d.live, r), recovery := d.recovery.With(r, d.recovery.At(r).Synced()))
  }

  function SyncRecovery(d: Disk, r: Dir): Disk {
    d.(custody := SyncNames(d.custody, r))
  }

  // ----- Progress of the procedure -----

  /** The live name is gone for good and its old file is durably in custody. */
  predicate Vacated(start: Disk, d: Disk, k: Key) {
    && d.live.At(k) == Slot(None, {})
    && start.live.At(k).now.Some? && Retained(d, k, start.live.At(k).now.value)
  }

  predicate Untouched(start: Disk, d: Disk, k: Key) {
    d.live.At(k).now == start.live.At(k).now && d.live.At(k).earlier <= start.live.At(k).earlier
  }

  /** No live name has been touched. */
  predicate Pristine(start: Disk, d: Disk) {
    forall k: Key :: Untouched(start, d, k)
  }

  lemma PristineIsSafe(start: Disk, changed: seq<Key>, d: Disk)
    requires Pristine(start, d)
    ensures Safe(start, changed, d)
  {
    forall k: Key ensures Protected(start, d, changed, k) {
      assert Untouched(start, d, k);
    }
  }

  lemma MkdirStaysPristine(start: Disk, changed: seq<Key>, d: Disk, r: Dir, inode: nat)
    requires Pristine(start, d)
    ensures Pristine(start, Mkdir(d, r, inode)) && Safe(start, changed, Mkdir(d, r, inode))
  {
    forall k: Key ensures Untouched(start, Mkdir(d, r, inode), k) { assert Untouched(start, d, k); }
    PristineIsSafe(start, changed, Mkdir(d, r, inode));
  }

  lemma SyncStaysPristine(start: Disk, changed: seq<Key>, d: Disk, r: Dir)
    requires Pristine(start, d)
    ensures Pristine(start, SyncParent(d, r)) && Safe(start, changed, SyncParent(d, r))
  {
    forall k: Key ensures Untouched(start, SyncParent(d, r), k) { assert Untouched(start, d, k); }
    PristineIsSafe(start, changed, SyncParent(d, r));
  }

  /**
   * Keys in `vacated` are in custody, the others untouched, and every recovery directory in use is on
   * disk; nothing is said about `active`, the key that is between its two names.
   */
  predicate Frame(start: Disk, d: Disk, dirs: set<Dir>, vacated: set<Key>, active: Option<Key>) {
    && (forall k: Key :: k in vacated ==> Vacated(start, d, k))
    && (forall k: Key :: k !in vacated && active != Some(k) ==> Untouched(start, d, k))
    && (forall r: Dir :: r in dirs ==> Anchored(d, r))
  }

  /** The frame holds around `k`, which itself is protected by one of its two names. */
  predicate Around(start: Disk, d: Disk, changed: seq<Key>, dirs: set<Dir>, vacated: set<Key>, k: Key) {
    && Frame(start, d, dirs, vacated, Some(k)) && k !in vacated && (forall v: Key :: v in vacated ==> v in changed)
    && Protected(start, d, changed, k)
  }

  lemma AroundIsSafe(start: Disk, d: Disk, changed: seq<Key>, dirs: set<Dir>, vacated: set<Key>, k: Key)
    requires Around(start, d, changed, dirs, vacated, k)
    ensures Safe(start, changed, d)
  {
    forall q: Key ensures Protected(start, d, changed, q) {
      if q in vacated {
        assert Vacated(start, d, q);
      } else if q != k {
        assert Untouched(start, d, q);
      }
    }
  }

  /** Synchronising, flushing and touching only `k` keep every other key where it was. */
  lemma FrameKept(start: Disk, d: Disk, d': Disk, dirs: set<Dir>, vacated: set<Key>, k: Key)
    requires Frame(start, d, dirs, vacated, Some(k)) && d.flushed <= d'.flushed && k !in vacated
    requires forall q: Key :: q != k ==> d'.live.At(q) == d.live.At(q) || d'.live.At(q) == d.live.At(q).Synced()
    requires forall q: Key :: q != k ==>
               d'.custody.At(q) == d.custody.At(q) || d'.custody.At(q) == d.custody.At(q).Synced()
    requires forall r: Dir :: d'.recovery.At(r) == d.recovery.At(r) || d'.recovery.At(r) == d.recovery.At(r).Synced()
    ensures Frame(start, d', dirs, vacated, Some(k))
  {
    forall q: Key | q in vacated ensures Vacated(start, d', q) { assert Vacated(start, d, q); }
    forall q: Key | q !in vacated && q != k ensures Untouched(start, d', q) { assert Untouched(start, d, q); }
    forall r: Dir | r in dirs ensures Anchored(d', r) { assert Anchored(d, r); }
  }

  /** The file is under both of its names, in a recovery directory that is on disk. */
  predicate Linked(start: Disk, d: Disk, changed: seq<Key>, dirs: set<Dir>, vacated: set<Key>, k: Key, f: File) {
    && Around(start, d, changed, dirs, vacated, k) && Untouched(start, d, k)
    && d.live.At(k).now == Some(f) && d.custody.At(k).now == Some(f) && Anchored(d, DirOf(k))
  }

  lemma LinkLinks(start: Disk, d: Disk, changed: seq<Key>, dirs: set<Dir>, vacated: set<Key>, k: Key, f: File)
    requires Frame(start, d, dirs, vacated, None) && k !in vacated && DirOf(k) in dirs && d.live.At(k).now == Some(f)
    requires forall v: Key :: v in vacated ==> v in changed
    ensures Linked(start, Link(d, k), changed, dirs, vacated, k, f) && Safe(start, changed, Link(d, k))
  {
    assert Untouched(start, d, k) && Anchored(d, DirOf(k));
    FrameKept(start, d, Link(d, k), dirs, vacated, k);
    AroundIsSafe(start, Link(d, k), changed, dirs, vacated, k);
  }

  lemma FlushKeepsLink(start: Disk, d: Disk, changed: seq<Key>, dirs: set<Dir>, vacated: set<Key>, k: Key, f: File)
    requires Linked(start, d, changed, dirs, vacated, k, f)
    ensures Linked(start, Flush(d, f.inode), changed, dirs, vacated, k, f) && Safe(start, changed, Flush(d, f.inode))
  {
    FrameKept(start, d, Flush(d, f.inode), dirs, vacated, k);
    AroundIsSafe(start, Flush(d, f.inode), changed, dirs, vacated, k);
  }

  lemma SyncRecoveryRetains(start: Disk, d: Disk, changed: seq<Key>, dirs: set<Dir>, vacated: set<Key>, k: Key, f: File)
    requires Linked(start, d, changed, dirs, vacated, k, f) && f.inode in d.flushed
    ensures var d' := SyncRecovery(d, DirOf(k));
            Around(start, d', changed, dirs, vacated, k) && Untouched(start, d', k) && Retained(d', k, f)
            && Safe(start, changed, d')
  {
    FrameKept(start, d, SyncRecovery(d, DirOf(k)), dirs, vacated, k);
    AroundIsSafe(start, SyncRecovery(d, DirOf(k)), changed, dirs, vacated, k);
  }

  lemma SyncParentKeeps(start: Disk, d: Disk, changed: seq<Key>, dirs: set<Dir>, vacated: set<Key>, k: Key, f: File)
    requires Around(start, d, changed, dirs, vacated, k) && Retained(d, k, f)
    ensures var d' := SyncParent(d, DirOf(k));
            && Around(start, d', changed, dirs, vacated, k) && Retained(d', k, f) && Safe(start, changed, d')
            && d'.live.At(k) == d.live.At(k).Synced()
  {
    FrameKept(start, d, SyncParent(d, DirOf(k)), dirs, vacated, k);
    AroundIsSafe(start, SyncParent(d, DirOf(k)), changed, dirs, vacated, k);
  }

  lemma UnlinkKeeps(start: Disk, d: Disk, changed: seq<Key>, dirs: set<Dir>, vacated: set<Key>, k: Key, f: File)
    requires Around(start, d, changed, dirs, vacated, k) && k in changed
    requires start.live.At(k).now == Some(f) && Retained(d, k, f)
    ensures var d' := Unlink(d, k);
            && Around(start, d', changed, dirs, vacated, k) && Retained(d', k, f) && Safe(start, changed, d')
            && d'.live.At(k).now.None?
  {
    FrameKept(start, d, Unlink(d, k), dirs, vacated, k);
    AroundIsSafe(start, Unlink(d, k), changed, dirs, vacated, k);
  }

  lemma CustodyTaken(start: Disk, d: Disk, changed: seq<Key>, dirs: set<Dir>, vacated: set<Key>, k: Key, f: File)
    requires Around(start, d, changed, dirs, vacated, k) && Retained(d, k, f)
    requires start.live.At(k).now == Some(f) && d.live.At(k) == Slot(None, {})
    ensures Frame(start, d, dirs, vacated + {k}, None)
  {
  }

  /** Residue is not part of custody. */
  lemma ResidueIsSafe(start: Disk, changed: seq<Key>, d: Disk, residue: PerKey<Option<File>>)
    requires Safe(start, changed, d)
    ensures Safe(start, changed, d.(residue := residue))
  {
    forall k: Key ensures Protected(start, d.(residue := residue), changed, k) {
      assert Protected(start, d, changed, k);
    }
  }

  /** Two disks that differ at most in installer residue. */
  predicate SameCustody(d: Disk, d': Disk) { d' == d.(residue := d'.residue) }

  lemma ResidueKeepsFrame(start: Disk, d: Disk, d': Disk, dirs: set<Dir>, vacated: set<Key>, active: Option<Key>)
    requires SameCustody(d, d') && Frame(start, d, dirs, vacated, active)
    ensures Frame(start, d', dirs, vacated, active)
  {
    forall q: Key | q in vacated ensures Vacated(start, d', q) { assert Vacated(start, d, q); }
    forall q: Key | q !in vacated && active != Some(q) ensures Untouched(start, d', q) {
      assert Untouched(start, d, q);
    }
    forall r: Dir | r in dirs ensures Anchored(d', r) { assert Anchored(d, r); }
  }

  // ----- The live names as the host shows them -----

  function HashOf(f: Option<File>): Option<Hash> { if f.None? then None else Some(f.value.hash) }

  /** What the disk shows under the live names. */
  function Shown(d: Disk): Names {
    PerKey(HashOf(d.live.nanohost.now), HashOf(d.live.gateway.now), HashOf(d.live.unit.now))
  }

  /** The host showed the disk's live names when it had this serial; nobody else had written them then. */
  predicate Tied(h: HostMachine.Host, d: Disk, serial: nat) {
    serial <= h.serials && (h.serials == serial ==> h.payload.names == Shown(d))
  }

  lemma TiedLater(h: HostMachine.Host, h': HostMachine.Host, d: Disk, serial: nat)
    requires Tied(h, d, serial) && Goes(h, h')
    ensures Tied(h', d, serial)
  {
  }

  lemma PristineShows(start: Disk, d: Disk)
    requires Pristine(start, d)
    ensures Shown(d) == Shown(start)
  {
    assert Untouched(start, d, Nanohost) && Untouched(start, d, Gateway) && Untouched(start, d, Unit);
  }

  /** A target file linked to the vacant live name of a retained payload. */
  function Place(d: Disk, k: Key, f: File): Disk {
    d.(live := d.live.With(k, d.live.At(k).Write(Some(f))))
  }

  lemma PlaceKeeps(start: Disk, changed: seq<Key>, d: Disk, k: Key, f: File)
    requires Safe(start, changed, d) && k in changed
    requires start.live.At(k).now.Some? && Retained(d, k, start.live.At(k).now.value)
    ensures Safe(start, changed, Place(d, k, f)) && Shown(Place(d, k, f)) == Shown(d).With(k, Some(f.hash))
  {
    forall q: Key ensures Protected(start, Place(d, k, f), changed, q) { assert Protected(start, d, changed, q); }
  }

  class Root {
    var disk: Disk
    /** Every state the disk has been in. */
    ghost var history: seq<Disk>
    /** Where the current procedure started, and which payloads it replaces. */
    ghost var since: nat
    ghost var start: Disk
    ghost var differing: seq<Key>
    /** The host's serial when its live names were last known to be the disk's. */
    ghost var tied: nat

    /** Every state since the procedure started was safe. */
    ghost predicate Valid()
      reads this
    {
      && since < |history| && history[since] == start && history[|history| - 1] == disk
      && forall i | since <= i < |history| :: Safe(start, differing, history[i])
    }

    /** The same with a manager whose host shows these live names, unless others wrote them. */
    ghost predicate Ready(m: Operator)
      reads this, m
    {
      Valid() && m.Valid() && Tied(m.host, disk, tied)
    }

    /** The old file of a replaced payload is durably in custody. */
    ghost predicate Holds(k: Key)
      reads this
    {
      k in differing && start.live.At(k).now.Some? && Retained(disk, k, start.live.At(k).now.value)
    }

    constructor (d: Disk, serial: nat)
      ensures Valid() && disk == d && history == [d] && tied == serial
    {
      disk := d;
      history := [d];
      since := 0;
      start := d;
      differing := [];
      tied := serial;
      new;
      PristineIsSafe(d, [], d);
    }

    /** One filesystem effect: it happens completely, or fails without effect. */
    method Attempt(next: Disk) returns (ok: bool)
      requires Valid() && Safe(start, differing, next)
      modifies this`disk, this`history
      ensures Valid() && old(history) <= history
      ensures disk == if ok then next else old(disk)
    {
      ok := *;
      if ok {
        disk := next;
        history := history + [next];
      }
    }

    /** An effect on a payload's own names: it happens only while nothing runs or can be executed. */
    method AttemptSealed(m: Operator, next: Disk) returns (ok: bool)
      requires Ready(m) && Safe(start, differing, next) && Sealed(m.host)
      modifies this`disk, this`history, m
      ensures Valid() && old(history) <= history && m.Valid() && Drift(old(m.host), m.host)
      ensures Tied(m.host, old(disk), tied)
      ensures disk == if ok then next else old(disk)
      ensures disk != old(disk) ==> Sealed(m.host) && m.host.execs == old(m.host.execs)
    {
      ok := m.Yield();
      if ok { ok := Attempt(next); }
    }

    /** Asks the manager for a fresh fence; the installer's residue may change meanwhile. */
    method Prerequisite(m: Operator) returns (ok: bool)
      requires Ready(m)
      modifies this`disk, this`history, m
      ensures Ready(m) && old(history) <= history && SameCustody(old(disk), disk)
      ensures Drift(old(m.host), m.host)
      ensures ok ==> Sealed(m.host)
    {
      var residue: PerKey<Option<File>> := *;
      ResidueIsSafe(start, differing, disk, residue);
      disk := disk.(residue := residue);
      history := history + [disk];
      ok := m.Fence();
    }

    /** Measures all live payloads and refuses occupied custody before the first effect. */
    method Measure(request: Request) returns (original: Option<PerKey<File>>)
      ensures original.Some? ==>
                forall k: Key :: disk.live.At(k).now == Some(original.value.At(k)) && Measured(disk, request, k)
      ensures (exists r: Dir :: disk.recovery.At(r).now.Some?) ==> original.None?
    {
      for i := 0 to |Keys|
        invariant forall j | 0 <= j < i :: Measured(disk, request, Keys[j])
        invariant forall j | 0 <= j < i :: disk.recovery.At(DirOf(Keys[j])).now.None?
      {
        var k := Keys[i];
        if !Measured(disk, request, k) { return None; }
        if disk.recovery.At(DirOf(k)).now.Some? { return None; }
      }
      assert Keys[0] == Nanohost && Keys[1] == Gateway && Keys[2] == Unit;
      forall r: Dir ensures disk.recovery.At(r).now.None? {
        assert r == DirOf(Keys[if r.LibOpenkit? then 0 else 2]);
      }
      return Some(PerKey(disk.live.nanohost.now.value, disk.live.gateway.now.value, disk.live.unit.now.value));
    }

    /** Creates and synchronises one recovery directory. */
    method MakeOne(r: Dir, inode: nat) returns (ok: bool)
      requires Valid() && Pristine(start, disk)
      modifies this`disk, this`history
      ensures Valid() && old(history) <= history && Pristine(start, disk)
      ensures ok ==> disk.recovery == old(disk.recovery).With(r, Slot(Some(inode), {}))
    {
      if disk.recovery.At(r).now.Some? { return false; }
      MkdirStaysPristine(start, differing, disk, r, inode);
      ok := Attempt(Mkdir(disk, r, inode));
      if !ok { return; }
      SyncStaysPristine(start, differing, disk, r);
      ok := Attempt(SyncParent(disk, r));
    }

    /** Creates and synchronises one recovery directory per parent of a differing payload. */
    method MakeRecovery(changed: seq<Key>, inodes: PerDir<nat>) returns (ok: bool)
      requires Valid() && Pristine(start, disk)
      modifies this`disk, this`history
      ensures Valid() && old(history) <= history && Pristine(start, disk)
      ensures ok ==> forall k <- changed :: Anchored(disk, DirOf(k))
    {
      var done: set<Dir> := {};
      for i := 0 to |changed|
        invariant Valid() && old(history) <= history && Pristine(start, disk)
        invariant forall j | 0 <= j < i :: DirOf(changed[j]) in done
        invariant forall r: Dir :: r in done ==> Anchored(disk, r)
      {
        var r := DirOf(changed[i]);
        if r !in done {
          var made := MakeOne(r, inodes.At(r));
          if !made { return false; }
          done := done + {r};
        }
      }
      ok := true;
    }

    /** Links one differing payload into custody and makes the link durable. */
    method Retain(m: Operator, ghost dirs: set<Dir>, ghost vacated: set<Key>, k: Key, f: File) returns (ok: bool)
      requires Ready(m) && Frame(start, disk, dirs, vacated, None) && Sealed(m.host)
      requires k in differing && k !in vacated && DirOf(k) in dirs && disk.live.At(k).now == Some(f)
      requires forall v: Key :: v in vacated ==> v in differing
      modifies this`disk, this`history, m
      ensures Ready(m) && old(history) <= history && Drift(old(m.host), m.host)
      ensures ok ==> Around(start, disk, differing, dirs, vacated, k) && Retained(disk, k, f)
    {
      if disk.custody.At(k).now.Some? { return false; }
      LinkLinks(start, disk, differing, dirs, vacated, k, f);
      ok := AttemptSealed(m, Link(disk, k));
      if ok { ok := MakeDurable(dirs, vacated, k, f); }
    }

    /** Flushes a linked file and synchronises its recovery directory and their parent. */
    method MakeDurable(ghost dirs: set<Dir>, ghost vacated: set<Key>, k: Key, f: File) returns (ok: bool)
      requires Valid() && Linked(start, disk, differing, dirs, vacated, k, f)
      modifies this`disk, this`history
      ensures Valid() && old(history) <= history && Shown(disk) == Shown(old(disk))
      ensures ok ==> Around(start, disk, differing, dirs, vacated, k) && Retained(disk, k, f)
    {
      FlushKeepsLink(start, disk, differing, dirs, vacated, k, f);
      ok := Attempt(Flush(disk, f.inode));
      if !ok { return; }
      SyncRecoveryRetains(start, disk, differing, dirs, vacated, k, f);
      ok := Attempt(SyncRecovery(disk, DirOf(k)));
      if !ok { return; }
      SyncParentKeeps(start, disk, differing, dirs, vacated, k, f);
      ok := Attempt(SyncParent(disk, DirOf(k)));
    }

    /** The host shows a change that the disk just made to one live name. */
    method ShowName(m: Operator, k: Key, hash: Option<Hash>)
      requires Valid() && m.Valid() && tied <= m.host.serials
      requires m.host.serials == tied ==> m.host.payload.names.With(k, hash) == Shown(disk)
      modifies this`tied, m
      ensures Ready(m) && Drift(old(m.host), m.host) && m.host.boot == old(m.host.boot)
      ensures m.host.payload.names == old(m.host).payload.names.With(k, hash)
      ensures old(m.host.serials) == old(tied) <==> m.host.serials == tied
    {
      ghost var agreed := m.host.serials == tied;
      m.WriteNames(m.host.payload.names.With(k, hash));
      tied := if agreed then m.host.serials else tied;
    }

    /** Links a target file to the vacant live name of a payload that is in custody. */
    method PlaceTarget(m: Operator, k: Key, hash: Hash)
      requires Ready(m) && Holds(k)
      modifies this`disk, this`history, this`tied, m
      ensures Ready(m) && old(history) <= history && Drift(old(m.host), m.host) && m.host.boot == old(m.host.boot)
      ensures disk == old(disk).(live := disk.live) && HashOf(disk.live.At(k).now) == Some(hash)
      ensures m.host.payload.names == old(m.host).payload.names.With(k, Some(hash))
      ensures old(m.host.serials) == old(tied) <==> m.host.serials == tied
    {
      var inode: nat := *;
      var f := File(inode, true, ModeOf(k), true, hash);
      PlaceKeeps(start, differing, disk, k, f);
      disk := Place(disk, k, f);
      history := history + [disk];
      ShowName(m, k, Some(hash));
    }

    /** Removes one live name whose file is durably retained. */
    method RemoveLive(m: Operator, ghost dirs: set<Dir>, ghost vacated: set<Key>, k: Key, ghost f: File)
      returns (ok: bool)
      requires Ready(m) && Around(start, disk, differing, dirs, vacated, k) && Sealed(m.host)
      requires k in differing && start.live.At(k).now == Some(f) && Retained(disk, k, f)
      modifies this`disk, this`history, this`tied, m
      ensures Ready(m) && old(history) <= history && Drift(old(m.host), m.host)
      ensures ok ==> Frame(start, disk, dirs, vacated + {k}, None)
    {
      UnlinkKeeps(start, disk, differing, dirs, vacated, k, f);
      ok := AttemptSealed(m, Unlink(disk, k));
      if !ok { return; }
      ghost var mid := m.host;
      ShowName(m, k, None);
      DriftsOn(old(m.host), mid, m.host);
      SyncParentKeeps(start, disk, differing, dirs, vacated, k, f);
      ok := Attempt(SyncParent(disk, DirOf(k)));
      if ok { CustodyTaken(start, disk, differing, dirs, vacated, k, f); }
    }

    /** A fresh fence, then the live names not yet vacated are measured again. */
    method Recheck(m: Operator, request: Request, original: PerKey<File>, vacated: set<Key>) returns (ok: bool)
      requires Ready(m)
      modifies this`disk, this`history, m
      ensures Ready(m) && old(history) <= history && SameCustody(old(disk), disk)
      ensures Drift(old(m.host), m.host)
      ensures ok ==> Sealed(m.host) && RemainingOk(disk, request, original, vacated)
    {
      ok := Prerequisite(m);
      ok := ok && RemainingOk(disk, request, original, vacated);
    }

    /** One round: fresh fence and checks before the link, and again before the live name goes. */
    method TakeCustody(m: Operator, request: Request, original: PerKey<File>, inodes: PerDir<nat>,
                       ghost dirs: set<Dir>, vacated: set<Key>, k: Key)
      returns (ok: bool)
      requires Ready(m) && Frame(start, disk, dirs, vacated, None)
      requires k in differing && k !in vacated && DirOf(k) in dirs && (forall v: Key :: v in vacated ==> v in differing)
      requires start.live.At(k).now == Some(original.At(k))
      modifies this`disk, this`history, this`tied, m
      ensures Ready(m) && old(history) <= history && Drift(old(m.host), m.host)
      ensures ok ==> Frame(start, disk, dirs, vacated + {k}, None)
    {
      var f := original.At(k);
      ok := LinkRound(m, request, original, inodes, dirs, vacated, k);
      if !ok { return; }
      ghost var before := disk;
      ghost var mid := m.host;
      ok := Recheck(m, request, original, vacated);
      DriftsOn(old(m.host), mid, m.host);
      if !ok || disk.recovery.At(DirOf(k)).now != Some(inodes.At(DirOf(k))) { return false; }
      if disk.custody.At(k).now != Some(f) || !PayloadOk(Some(f), request.previous.At(k), ModeOf(k)) { return false; }
      ResidueKeepsFrame(start, before, disk, dirs, vacated, Some(k));
      mid := m.host;
      ok := RemoveLive(m, dirs, vacated, k, f);
      DriftsOn(old(m.host), mid, m.host);
    }

    /** The first half of a round: under a fresh fence the old file becomes durably retained. */
    method LinkRound(m: Operator, request: Request, original: PerKey<File>, inodes: PerDir<nat>, ghost dirs: set<Dir>,
                     vacated: set<Key>, k: Key)
      returns (ok: bool)
      requires Ready(m) && Frame(start, disk, dirs, vacated, None)
      requires k in differing && k !in vacated && DirOf(k) in dirs && (forall v: Key :: v in vacated ==> v in differing)
      requires start.live.At(k).now == Some(original.At(k))
      modifies this`disk, this`history, m
      ensures Ready(m) && old(history) <= history && Drift(old(m.host), m.host)
      ensures ok ==> Around(start, disk, differing, dirs, vacated, k) && Retained(disk, k, original.At(k))
    {
      ghost var before := disk;
      ok := Recheck(m, request, original, vacated);
      if !ok || disk.recovery.At(DirOf(k)).now != Some(inodes.At(DirOf(k))) { return false; }
      ResidueKeepsFrame(start, before, disk, dirs, vacated, None);
      ghost var mid := m.host;
      ok := Retain(m, dirs, vacated, k, original.At(k));
      DriftsOn(old(m.host), mid, m.host);
    }

    /** The custody rounds over all differing payloads, in their fixed order. */
    method TakeAll(m: Operator, request: Request, original: PerKey<File>, changed: seq<Key>, inodes: PerDir<nat>,
                   ghost dirs: set<Dir>)
      returns (ok: bool, vacated: set<Key>)
      requires Ready(m) && Frame(start, disk, dirs, {}, None)
      requires differing == changed && (forall i, j | 0 <= i < j < |changed| :: changed[i] != changed[j])
      requires forall k <- changed :: DirOf(k) in dirs
      requires forall k: Key :: start.live.At(k).now == Some(original.At(k))
      modifies this`disk, this`history, this`tied, m
      ensures Ready(m) && old(history) <= history && Drift(old(m.host), m.host)
      ensures ok ==> vacated == (set k <- changed) && Frame(start, disk, dirs, vacated, None)
    {
      vacated := {};
      for i := 0 to |changed|
        invariant Ready(m) && old(history) <= history && Drift(old(m.host), m.host)
        invariant vacated == set j | 0 <= j < i :: changed[j]
        invariant Frame(start, disk, dirs, vacated, None)
      {
        ghost var mid := m.host;
        ok := TakeCustody(m, request, original, inodes, dirs, vacated, changed[i]);
        DriftsOn(old(m.host), mid, m.host);
        if !ok { return; }
        vacated := vacated + {changed[i]};
      }
      ok := true;
    }

    /** Every check that precedes the first effect, then the recovery directories. */
    method Prepare(m: Operator, request: Request, changed: seq<Key>, inodes: PerDir<nat>)
      returns (original: Option<PerKey<File>>)
      requires Ready(m) && disk == start
      modifies this`disk, this`history, m
      ensures Ready(m) && old(history) <= history && Drift(old(m.host), m.host)
      ensures original.Some? ==>
                && (forall k: Key :: start.live.At(k).now == Some(original.value.At(k)) && Measured(start, request, k))
                && Frame(start, disk, set k <- changed :: DirOf(k), {}, None)
      ensures (exists r: Dir :: start.recovery.At(r).now.Some?) ==> original.None? && disk == start
    {
      original := Measure(request);
      if original.None? || !ReservedOk(disk, request) { return None; }
      var ok := Recheck(m, request, original.value, {});
      if !ok { return None; }
      ResidueKeepsFrame(start, start, disk, {}, {}, None);
      PristineShows(start, disk);
      ok := MakeRecovery(changed, inodes);
      PristineShows(start, disk);
      if !ok { return None; }
    }

    /** All checks and rounds. */
    method CheckAndTake(m: Operator, request: Request, changed: seq<Key>, inodes: PerDir<nat>)
      returns (vacated: Option<set<Key>>)
      requires Ready(m) && disk == start && differing == changed
      requires forall i, j | 0 <= i < j < |changed| :: changed[i] != changed[j]
      modifies this`disk, this`history, this`tied, m
      ensures Ready(m) && old(history) <= history && Drift(old(m.host), m.host)
      ensures vacated.Some? ==>
                && vacated.value == (set k <- changed) && (forall k: Key :: Measured(start, request, k))
                && Frame(start, disk, set k <- changed :: DirOf(k), vacated.value, None)
      ensures (exists r: Dir :: start.recovery.At(r).now.Some?) ==> vacated.None? && disk == start
    {
      var original := Prepare(m, request, changed, inodes);
      if original.None? { return None; }
      ghost var mid := m.host;
      var ok, done := TakeAll(m, request, original.value, changed, inodes, set k <- changed :: DirOf(k));
      DriftsOn(old(m.host), mid, m.host);
      vacated := if ok then Some(done) else None;
    }

    /** The same with a last fresh fence. */
    method Rounds(m: Operator, request: Request, changed: seq<Key>, inodes: PerDir<nat>)
      returns (vacated: Option<set<Key>>)
      requires Ready(m) && disk == start && differing == changed
      requires forall i, j | 0 <= i < j < |changed| :: changed[i] != changed[j]
      modifies this`disk, this`history, this`tied, m
      ensures Ready(m) && old(history) <= history && Drift(old(m.host), m.host)
      ensures vacated.Some? ==>
                && vacated.value == (set k <- changed) && Sealed(m.host)
                && (forall k: Key :: Measured(start, request, k))
                && Frame(start, disk, set k <- changed :: DirOf(k), vacated.value, None)
      ensures (exists r: Dir :: start.recovery.At(r).now.Some?) ==> vacated.None? && disk == start
    {
      vacated := CheckAndTake(m, request, changed, inodes);
      if vacated.None? { return; }
      ghost var before, mid := disk, m.host;
      var ok := Prerequisite(m);
      DriftsOn(old(m.host), mid, m.host);
      ResidueKeepsFrame(start, before, disk, set k <- changed :: DirOf(k), vacated.value, None);
      if !ok { vacated := None; }
    }

    /**
     * Retains only the differing old files, durably, before vacating their live names. After every
     * effect, successful or not, a crash still finds each old payload; success vacates and retains
     * exactly the differing ones. A domain that was sealed stays so: nothing is executed meanwhile.
     */
    method Vacate(m: Operator, request: Request, inodes: PerDir<nat>) returns (report: Option<Report>)
      requires Ready(m)
      modifies this, m
      ensures Ready(m) && old(history) <= history && Drift(old(m.host), m.host)
      ensures since == |old(history)| - 1 && start == old(disk) && differing == Differing(request, Keys)
      ensures report.Some? ==>
                && report.value.retained == differing && (forall k: Key :: Measured(start, request, k))
                && (forall k: Key :: k in report.value.leftInPlace <==> k !in differing)
                && (forall k: Key :: if k in differing then Vacated(start, disk, k) else Untouched(start, disk, k))
      ensures report.Some? ==> Sealed(m.host)
      ensures (exists r: Dir :: old(disk).recovery.At(r).now.Some?) ==> report.None? && disk == old(disk)
    {
      var changed := Differing(request, Keys);
      since, start, differing := |history| - 1, disk, changed;
      PristineIsSafe(start, changed, disk);
      var vacated := Rounds(m, request, changed, inodes);
      if vacated.None? { return None; }
      AllKeys();
      return Some(Report(changed, Unchanged(Keys, vacated.value)));
    }
  }
}
