/**
 * The host seen by one NanoHost replacement: drop-in directory entries with a volatile and a durable
 * half, the volatile permit under /run, the manager's loaded configuration and the service itself.
 *
 * Every step is a label that may occur at any time. Outside parties start, stop and reload the
 * service, write the live payload names and reboot the machine; any number of operator sessions for
 * the same replacement id interleave their start attempts. A label that is not enabled changes nothing,
 * so a run is any sequence of labels.
 */
module HostMachine {
  import opened Payloads

  /** One directory entry: what the running kernel shows, and what is known to be on disk. */
  datatype Entry = Entry(vol: bool, dur: bool)
  {
    function Create(): Entry { this.(vol := true) }
    function Remove(): Entry { this.(vol := false) }
    function Synced(): Entry { this.(dur := vol) }
    /** What a restart may find: the durable value, or a later one that was written back early. */
    predicate MayBecome(present: bool) { present == vol || present == dur }
  }

  datatype Stamp = Stamp(boot: nat, ticks: nat)

  /**
   * `guarded` records whether the guard was loaded when the start conditions were evaluated, and
   * `image` what the live names showed when the process was executed.
   */
  datatype Service =
    | Stopped
    | Activating(guarded: bool)
    | PreStarted(guarded: bool)
    | Running(guarded: bool, stamp: Stamp, image: Payload)

  /** Progress of one controlled-start session through its effects. */
  datatype Session = Entered | AttemptOpened | AttemptDurable | PermitDirMade | PermitMade

  datatype Host = Host(
    guard: Entry,
    attempt: Entry,
    permitDir: bool,
    permit: bool,
    loaded: bool,
    service: Service,
    boot: nat,
    ticks: nat,
    payload: Payload,
    serials: nat,
    sessions: map<nat, Session>,
    permits: nat,
    guardedExecs: nat,
    execs: nat)

  datatype Label =
    // The manager and outside parties; whoever writes a live name uses `Write`.
    | TryStart
    | PreStart
    | Exec
    | Halt
    | Reload
    | Reboot(guardSurvives: bool, attemptSurvives: bool)
    | Write(names: Names)
    // Operator effects.
    | CreateGuard
    | UnlinkGuard
    | SyncDropIns
    | Enter(session: nat)
    | OpenAttempt(session: nat)
    | SyncAttempt(session: nat)
    | MakePermitDir(session: nat)
    | MakePermit(session: nat)
    | WithdrawPermit(session: nat)
    | Leave(session: nat)

  function Sync(h: Host): Host {
    h.(guard := h.guard.Synced(), attempt := h.attempt.Synced())
  }

  predicate At(h: Host, session: nat, pc: Session) {
    session in h.sessions && h.sessions[session] == pc
  }

  function Move(h: Host, session: nat, pc: Session): Host {
    h.(sessions := h.sessions[session := pc])
  }

  /** The start conditions, the pre-start command and the execution of the service. */
  function DoService(h: Host, l: Label): Host {
    match l
    case TryStart =>
      if h.service.Stopped? && (h.loaded ==> h.permit) then h.(service := Activating(h.loaded)) else h
    case PreStart =>
      if !h.service.Activating? then h
      else if !h.service.guarded then h.(service := PreStarted(false))
      else if h.permit then h.(permit := false, service := PreStarted(true))
      else h.(service := Stopped)
    case Exec =>
      if !h.service.PreStarted? then h
      else h.(service := Running(h.service.guarded, Stamp(h.boot, h.ticks), h.payload),
              ticks := h.ticks + 1, execs := h.execs + 1,
              guardedExecs := if h.service.guarded then h.guardedExecs + 1 else h.guardedExecs)
    case Halt => h.(service := Stopped)
    case _ => h
  }

  /** A restart keeps only what reached the disk, and ends every session. */
  function DoReboot(h: Host, guardPresent: bool, attemptPresent: bool): Host {
    if !h.guard.MayBecome(guardPresent) || !h.attempt.MayBecome(attemptPresent) then h
    else h.(guard := Entry(guardPresent, guardPresent), attempt := Entry(attemptPresent, attemptPresent),
            permitDir := false, permit := false, loaded := guardPresent, service := Stopped,
            boot := h.boot + 1, sessions := map[])
  }

  /** One session's exclusive creations, in the order the controlled start performs them. */
  function DoSession(h: Host, l: Label): Host {
    match l
    case Enter(n) => if n in h.sessions then h else Move(h, n, Entered)
    case OpenAttempt(n) =>
      if At(h, n, Entered) && !h.attempt.vol then Move(h.(attempt := h.attempt.Create()), n, AttemptOpened) else h
    case SyncAttempt(n) =>
      if At(h, n, AttemptOpened) then Move(Sync(h), n, AttemptDurable) else h
    case MakePermitDir(n) =>
      if At(h, n, AttemptDurable) && !h.permitDir then Move(h.(permitDir := true), n, PermitDirMade) else h
    case MakePermit(n) =>
      if At(h, n, PermitDirMade) && !h.permit
      then Move(h.(permit := true, permits := h.permits + 1), n, PermitMade) else h
    case WithdrawPermit(n) => if At(h, n, PermitMade) then h.(permit := false) else h
    case Leave(n) => h.(sessions := h.sessions - {n})
    case _ => h
  }

  function Do(h: Host, l: Label): Host {
    match l
    case TryStart => DoService(h, l)
    case PreStart => DoService(h, l)
    case Exec => DoService(h, l)
    case Halt => DoService(h, l)
    case Reload => h.(loaded := h.guard.vol)
    case Reboot(g, a) => DoReboot(h, g, a)
    case CreateGuard => if h.guard.vol then h else h.(guard := h.guard.Create())
    case UnlinkGuard => h.(guard := h.guard.Remove())
    case SyncDropIns => Sync(h)
    case Write(names) => h.(payload := Payload(names, h.serials), serials := h.serials + 1)
    case _ => DoSession(h, l)
  }

  function Play(h: Host, labels: seq<Label>): Host {
    if labels == [] then h else Do(Play(h, labels[..|labels| - 1]), labels[|labels| - 1])
  }

  /** No attempt of this replacement has been made yet. */
  predicate Untouched(h: Host) {
    && h.attempt == Entry(false, false) && !h.permit && h.sessions == map[]
    && h.permits == 0 && h.guardedExecs == 0
    && !(h.service.PreStarted? && h.service.guarded)
  }

  // ----- At most one execution under the guard -----

  function B(b: bool): nat { if b then 1 else 0 }

  /** The session owns the attempt entry and has not yet published a permit. */
  predicate Owns(h: Host, n: nat) {
    n in h.sessions && (h.sessions[n].AttemptOpened? || h.sessions[n].AttemptDurable? || h.sessions[n].PermitDirMade?)
  }

  /** The attempt marker is exclusive and durable before the one permit; each execution consumed it. */
  ghost predicate Single(h: Host) {
    && h.permits <= 1
    && h.guardedExecs + B(h.permit) + B(h.service.PreStarted? && h.service.guarded) <= h.permits
    && (forall n, m | Owns(h, n) && Owns(h, m) :: n == m)
    && (forall n | Owns(h, n) :: h.permits == 0 && h.attempt.vol)
    && (forall n | Owns(h, n) :: !h.sessions[n].AttemptOpened? ==> h.attempt.dur)
    && (h.permits > 0 ==> h.attempt.vol && h.attempt.dur)
    && (h.attempt.dur ==> h.attempt.vol)
  }

  lemma ServiceKeepsSingle(h: Host, l: Label)
    requires Single(h)
    ensures Single(DoService(h, l))
  {
    var h' := DoService(h, l);
    assert forall n :: Owns(h', n) <==> Owns(h, n);
  }

  lemma SessionKeepsSingle(h: Host, l: Label)
    requires Single(h)
    ensures Single(DoSession(h, l))
  {
    var h' := DoSession(h, l);
    match l
    case Enter(n) => assert forall m :: Owns(h', m) ==> Owns(h, m);
    case OpenAttempt(n) => assert forall m :: Owns(h', m) ==> Owns(h, m) || (m == n && h' != h);
    case SyncAttempt(n) => assert Owns(h, n) || h' == h; assert forall m :: Owns(h', m) ==> Owns(h, m);
    case MakePermitDir(n) => assert Owns(h, n) || h' == h; assert forall m :: Owns(h', m) ==> Owns(h, m);
    case MakePermit(n) => assert Owns(h, n) || h' == h; assert forall m :: Owns(h', m) ==> Owns(h, m);
    case WithdrawPermit(n) => assert forall m :: Owns(h', m) ==> Owns(h, m);
    case Leave(n) => assert forall m :: Owns(h', m) ==> Owns(h, m);
    case _ =>
  }

  lemma StepKeepsSingle(h: Host, l: Label)
    requires Single(h)
    ensures Single(Do(h, l))
  {
    var h' := Do(h, l);
    match l
    case TryStart => ServiceKeepsSingle(h, l);
    case PreStart => ServiceKeepsSingle(h, l);
    case Exec => ServiceKeepsSingle(h, l);
    case Halt => ServiceKeepsSingle(h, l);
    case Reload => assert forall n :: Owns(h', n) <==> Owns(h, n);
    case Reboot(g, a) => assert forall n :: Owns(h', n) ==> h' == h;
    case CreateGuard => assert forall n :: Owns(h', n) <==> Owns(h, n);
    case UnlinkGuard => assert forall n :: Owns(h', n) <==> Owns(h, n);
    case SyncDropIns => assert forall n :: Owns(h', n) <==> Owns(h, n);
    case Write(_) => assert forall n :: Owns(h', n) <==> Owns(h, n);
    case _ => SessionKeepsSingle(h, l);
  }

  lemma {:induction false} RunKeepsSingle(h: Host, labels: seq<Label>)
    requires Untouched(h)
    ensures Single(Play(h, labels))
  {
    if labels != [] {
      RunKeepsSingle(h, labels[..|labels| - 1]);
      StepKeepsSingle(Play(h, labels[..|labels| - 1]), labels[|labels| - 1]);
    }
  }

  // ----- While the guard stays installed every execution is a guarded one -----

  /** Inhibition is durable and loaded, and no start admitted without it is still on its way. */
  predicate Inhibited(h: Host) {
    && h.guard == Entry(true, true) && h.loaded
    && (h.service.Activating? || h.service.PreStarted? ==> h.service.guarded)
  }

  lemma StepStaysInhibited(h: Host, l: Label)
    requires Inhibited(h) && Do(h, l).guard.vol
    ensures Inhibited(Do(h, l))
    ensures Do(h, l).execs - h.execs == Do(h, l).guardedExecs - h.guardedExecs
  {
  }

  lemma {:induction false} WindowIsInhibited(h: Host, labels: seq<Label>)
    requires Inhibited(h)
    requires forall n | 0 <= n <= |labels| :: Play(h, labels[..n]).guard.vol
    ensures Inhibited(Play(h, labels))
    ensures Play(h, labels).execs - h.execs == Play(h, labels).guardedExecs - h.guardedExecs
  {
    if labels != [] {
      var prefix := labels[..|labels| - 1];
      forall n | 0 <= n <= |prefix| ensures Play(h, prefix[..n]).guard.vol {
        assert prefix[..n] == labels[..n];
      }
      assert labels[..|labels|] == labels;
      WindowIsInhibited(h, prefix);
      StepStaysInhibited(Play(h, prefix), labels[|labels| - 1]);
    }
  }

  lemma PlayLast(h: Host, labels: seq<Label>, l: Label)
    ensures Play(h, labels + [l]) == Do(Play(h, labels), l)
  {
    assert (labels + [l])[..|labels|] == labels;
  }

  lemma {:induction false} PlayJoins(h: Host, before: seq<Label>, after: seq<Label>)
    ensures Play(h, before + after) == Play(Play(h, before), after)
  {
    if after == [] {
      assert before + after == before;
    } else {
      var init, last := after[..|after| - 1], after[|after| - 1];
      PlayJoins(h, before, init);
      assert before + after == (before + init) + [last];
      PlayLast(h, before + init, last);
    }
  }

  /**
   * Over every run of this replacement id, with refusals, interruptions, reloads, reboots, outside
   * starts and competing sessions: while the guard stays installed, the service executes at most once.
   */
  lemma AtMostOneExecution(initial: Host, before: seq<Label>, window: seq<Label>)
    requires Untouched(initial) && Inhibited(Play(initial, before))
    requires forall n | 0 <= n <= |window| :: Play(Play(initial, before), window[..n]).guard.vol
    ensures Play(initial, before + window).execs <= Play(initial, before).execs + 1
    ensures Play(initial, before + window).guardedExecs <= 1
  {
    PlayJoins(initial, before, window);
    RunKeepsSingle(initial, before + window);
    WindowIsInhibited(Play(initial, before), window);
  }

  // ----- The bound is attained -----

  /** One label, then the rest: the same run read from its front. */
  lemma PlayFirst(h: Host, l: Label, labels: seq<Label>)
    ensures Play(h, [l] + labels) == Play(Do(h, l), labels)
  {
    PlayJoins(h, [l], labels);
    assert Play(h, [l]) == Do(Play(h, []), l);
  }

  const Stopping: seq<Label> := [CreateGuard] + ([SyncDropIns] + ([Reload] + ([Halt] + [])))
  const Attempting: seq<Label> := [Enter(0)] + ([OpenAttempt(0)] + ([SyncAttempt(0)] + []))
  const Permitting: seq<Label> := [MakePermitDir(0)] + ([MakePermit(0)] + [])
  const Starting: seq<Label> := [TryStart] + ([PreStart] + ([Exec] + []))

  lemma StoppingStops(h: Host)
    requires !h.guard.vol
    ensures Play(h, Stopping)
            == h.(guard := Entry(true, true), attempt := h.attempt.Synced(), loaded := true, service := Stopped)
  {
    var h1 := Do(h, CreateGuard);
    var h2 := Do(h1, SyncDropIns);
    var h3 := Do(h2, Reload);
    PlayFirst(h, CreateGuard, [SyncDropIns] + ([Reload] + ([Halt] + [])));
    PlayFirst(h1, SyncDropIns, [Reload] + ([Halt] + []));
    PlayFirst(h2, Reload, [Halt] + []);
    PlayFirst(h3, Halt, []);
  }

  lemma PlayThree(h: Host, a: Label, b: Label, c: Label)
    ensures Play(h, [a] + ([b] + ([c] + []))) == Do(Do(Do(h, a), b), c)
  {
    PlayFirst(h, a, [b] + ([c] + []));
    PlayFirst(Do(h, a), b, [c] + []);
    PlayFirst(Do(Do(h, a), b), c, []);
  }

  lemma Enters(h: Host)
    requires h.sessions == map[]
    ensures Do(h, Enter(0)) == h.(sessions := map[0 := Entered])
  {
    assert Do(h, Enter(0)).sessions == map[0 := Entered];
  }

  lemma Opens(h: Host)
    requires h.sessions == map[0 := Entered] && !h.attempt.vol
    ensures Do(h, OpenAttempt(0)) == h.(sessions := map[0 := AttemptOpened], attempt := h.attempt.Create())
  {
    assert Do(h, OpenAttempt(0)).sessions == map[0 := AttemptOpened];
  }

  lemma Syncs(h: Host)
    requires h.sessions == map[0 := AttemptOpened] && h.guard == Entry(true, true) && h.attempt.vol
    ensures Do(h, SyncAttempt(0)) == h.(sessions := map[0 := AttemptDurable], attempt := Entry(true, true))
  {
    assert Do(h, SyncAttempt(0)).sessions == map[0 := AttemptDurable];
  }

  lemma AttemptingMarks(h: Host)
    requires h.guard == Entry(true, true) && h.sessions == map[] && !h.attempt.vol
    ensures Play(h, Attempting) == h.(sessions := map[0 := AttemptDurable], attempt := Entry(true, true))
  {
    PlayThree(h, Enter(0), OpenAttempt(0), SyncAttempt(0));
    Enters(h);
    Opens(h.(sessions := map[0 := Entered]));
    Syncs(h.(sessions := map[0 := AttemptOpened], attempt := h.attempt.Create()));
  }

  lemma PermittingPermits(h: Host)
    requires h.sessions == map[0 := AttemptDurable] && !h.permitDir && !h.permit
    ensures Play(h, Permitting)
            == h.(sessions := map[0 := PermitMade], permitDir := true, permit := true, permits := h.permits + 1)
  {
    var h1 := h.(sessions := map[0 := PermitDirMade], permitDir := true);
    PlayFirst(h, MakePermitDir(0), [MakePermit(0)] + []);
    assert Do(h, MakePermitDir(0)).sessions == h1.sessions;
    PlayFirst(h1, MakePermit(0), []);
  }

  lemma StartingExecutes(h: Host)
    requires h.loaded && h.permit && h.service.Stopped?
    ensures Play(h, Starting)
            == h.(permit := false, service := Running(true, Stamp(h.boot, h.ticks), h.payload), ticks := h.ticks + 1,
                  execs := h.execs + 1, guardedExecs := h.guardedExecs + 1)
  {
    PlayThree(h, TryStart, PreStart, Exec);
  }

  /** From any untouched host a run leads to one guarded execution, of whatever the live names then show. */
  lemma OneExecutionHappens(h: Host, names: Names)
    requires Untouched(h) && !h.guard.vol && !h.permitDir
    ensures var stopped := Play(h, Stopping);
            var h' := Play(Play(Play(Do(stopped, Write(names)), Attempting), Permitting), Starting);
            && Inhibited(stopped) && Inhibited(h') && h'.execs == stopped.execs + 1 && h'.guardedExecs == 1
            && h'.service.Running? && h'.service.guarded && h'.service.image.names == names
  {
    StoppingStops(h);
    var placed := Do(Play(h, Stopping), Write(names));
    AttemptingMarks(placed);
    var marked := Play(placed, Attempting);
    PermittingPermits(marked);
    StartingExecutes(Play(marked, Permitting));
  }
}
