/**
 * The manager of one maintenance: establish inhibition, attempt one controlled start and restore
 * supervision. Outside parties act between any two operator effects and between any two observations:
 * they start, stop and reload the service, write the live payload names and reboot the host, which ends
 * the operator's process. Each action is a label of the host machine, so its whole-run results apply.
 */
module Maintenance {
  import opened Common
  import opened Payloads
  import opened HostMachine

  predicate Outside(l: Label) {
    l.TryStart? || l.PreStart? || l.Exec? || l.Halt? || l.Reload? || l.Reboot? || l.Write?
  }

  /** A process identity is never reused and belongs to the current boot; neither is a payload's serial. */
  predicate Sane(h: Host) {
    && (h.service.Running? ==> h.service.stamp.boot == h.boot && h.service.stamp.ticks < h.ticks)
    && h.payload.serial < h.serials
  }

  // ----- What a stretch of steps can change -----

  /** Any steps: an old process is untouched, a new one executed what the names showed. */
  predicate Goes(h: Host, h': Host) {
    && (Sane(h) ==> Sane(h'))
    && h.boot <= h'.boot && h.ticks <= h'.ticks && h.serials <= h'.serials
    && h.execs <= h'.execs && h.guardedExecs <= h'.guardedExecs
    && (h'.serials == h.serials ==> h'.payload == h.payload)
    && (h'.serials != h.serials ==> h'.payload.serial >= h.serials)
    && (h'.service.Running? && h'.service.stamp.ticks < h.ticks ==>
          h'.service == h.service && h'.boot == h.boot && h'.execs == h.execs)
    && (Sane(h) && h'.service.Running? && h'.service.stamp.ticks >= h.ticks && h'.serials == h.serials ==>
          h'.service.image == h.payload)
  }

  lemma StepGoes(h: Host, l: Label)
    ensures Goes(h, Do(h, l))
  {
  }

  lemma GoesOn(a: Host, b: Host, c: Host)
    requires Goes(a, b) && Goes(b, c)
    ensures Goes(a, c)
  {
  }

  /** The guard is durably in force: whatever runs was executed under it. */
  predicate Held(h: Host) {
    Inhibited(h) && (h.service.Running? ==> h.service.guarded && h.guardedExecs >= 1)
  }

  /** Steps that leave the guard in force: every execution is a guarded one. */
  predicate Stays(h: Host, h': Host) {
    Held(h) ==> Held(h') && h'.execs - h.execs == h'.guardedExecs - h.guardedExecs
  }

  lemma StepStays(h: Host, l: Label)
    requires !l.UnlinkGuard?
    ensures Stays(h, Do(h, l))
  {
  }

  /** Nothing runs, and without a permit nothing can be executed. */
  predicate Sealed(h: Host) {
    && h.guard.vol && h.loaded && !h.permit
    && (h.service.Stopped? || (h.service.Activating? && h.service.guarded))
  }

  /** Steps without a permit: a sealed domain stays sealed, also over a reboot when the guard is durable. */
  predicate Rests(h: Host, h': Host) {
    Sealed(h) && (h'.boot == h.boot || h.guard.dur) ==>
      Sealed(h') && h'.execs == h.execs && (h.guard.dur ==> h'.guard.dur)
  }

  lemma StepRests(h: Host, l: Label)
    requires !l.UnlinkGuard? && !l.MakePermit?
    ensures Rests(h, Do(h, l))
  {
  }

  /** All three, for a stretch in which the operator neither lifts the guard nor publishes a permit. */
  predicate Quietly(h: Host, h': Host) { Goes(h, h') && Stays(h, h') && Rests(h, h') }

  lemma QuietlyOn(a: Host, b: Host, c: Host)
    requires Quietly(a, b) && Quietly(b, c)
    ensures Quietly(a, c)
  {
    GoesOn(a, b, c);
  }

  /** What outside parties may have changed, and what they cannot. */
  predicate Drift(h: Host, h': Host) {
    && Quietly(h, h') && h'.permits == h.permits
    && (h.guard.vol == h.guard.dur ==> h'.guard == h.guard)
    && (h.attempt.vol == h.attempt.dur ==> h'.attempt == h.attempt)
    && (h'.boot == h.boot ==>
          && h'.guard == h.guard && h'.attempt == h.attempt && h'.permitDir == h.permitDir
          && h'.sessions == h.sessions
          && (h'.permit ==> h.permit)
          && (h'.loaded == h.loaded || h'.loaded == h.guard.vol))
    && (h'.boot != h.boot ==> h'.sessions == map[] && !h'.permit && !h'.permitDir)
  }

  lemma DriftsOn(a: Host, b: Host, c: Host)
    requires Drift(a, b) && Drift(b, c)
    ensures Drift(a, c)
  {
    QuietlyOn(a, b, c);
  }

  lemma OutsideDrifts(h: Host, l: Label)
    requires Outside(l)
    ensures Drift(h, Do(h, l))
  {
    StepGoes(h, l);
    StepStays(h, l);
    StepRests(h, l);
  }

  /** The stopped domain: guard in place and loaded, no permit, service stopped. */
  predicate Fenced(h: Host) {
    h.guard.vol && h.loaded && !h.permit && h.service.Stopped?
  }

  predicate RunsAs(h: Host, guarded: bool, stamp: Stamp) {
    h.loaded == guarded && h.guard.vol == guarded && h.service.Running? && h.service.stamp == stamp
  }

  /** Stock supervision around this process, with the target in place. */
  predicate Restored(h: Host, stamp: Stamp, target: PerKey<Hash>) {
    h.guard == Entry(false, false) && RunsAs(h, false, stamp) && h.payload.names == Present(target)
  }

  /** A payload seen again was not written in between. */
  lemma SeenAgain(a: Host, b: Host, c: Host)
    requires Sane(a) && Goes(a, b) && Goes(b, c) && c.payload == a.payload
    ensures b.payload == a.payload && b.serials == a.serials
  {
  }

  /** A process that began after a stop, between two sights of one payload, executed that payload. */
  lemma ExecutedThePayload(quiet: Host, running: Host, later: Host)
    requires Sane(quiet) && quiet.service.Stopped? && running.service.Running?
    requires Goes(quiet, running) && Goes(running, later) && later.payload == quiet.payload
    ensures running.service.image == quiet.payload
  {
    SeenAgain(quiet, running, later);
  }

  /** The process of this stamp, as long as it runs, runs the target. */
  predicate OfTarget(h: Host, stamp: Stamp, target: PerKey<Hash>) {
    && stamp.boot <= h.boot && stamp.ticks < h.ticks
    && (h.service.Running? && h.service.stamp == stamp ==> h.service.image.names == Present(target))
  }

  lemma StaysOfTarget(h: Host, h': Host, stamp: Stamp, target: PerKey<Hash>)
    requires Goes(h, h') && OfTarget(h, stamp, target)
    ensures OfTarget(h', stamp, target)
  {
  }

  class Operator {
    ghost const initial: Host
    var host: Host
    ghost var log: seq<Label>

    ghost predicate Driving()
      reads this
    {
      host == Play(initial, log) && Untouched(initial) && Sane(host)
    }

    /** Between stages no session is left open. */
    ghost predicate Valid()
      reads this
    {
      Driving() && host.sessions == map[]
    }

    constructor (start: Host)
      requires Untouched(start) && Sane(start)
      ensures Valid() && host == start && log == []
    {
      initial := start;
      host := start;
      log := [];
    }

    /** One operator effect. */
    method Perform(l: Label)
      requires Driving()
      modifies this
      ensures Driving() && host == Do(old(host), l) && log == old(log) + [l]
      ensures Goes(old(host), host)
      ensures !l.UnlinkGuard? ==> Stays(old(host), host)
      ensures !l.UnlinkGuard? && !l.MakePermit? ==> Rests(old(host), host)
    {
      StepGoes(host, l);
      if !l.UnlinkGuard? { StepStays(host, l); }
      if !l.UnlinkGuard? && !l.MakePermit? { StepRests(host, l); }
      ghost var logged := log;
      host := Do(host, l);
      log := log + [l];
      assert log[..|log| - 1] == logged && log[|log| - 1] == l;
    }

    /** Any number of outside steps; the operator's process is alive unless the host rebooted. */
    method Yield() returns (alive: bool)
      requires Driving()
      modifies this
      ensures Driving() && Drift(old(host), host)
      ensures alive == (host.boot == old(host.boot))
      ensures old(host.sessions) == map[] ==> host.sessions == map[]
    {
      var before := host;
      var steps: nat := *;
      while steps > 0
        invariant Driving() && Drift(before, host)
      {
        var l: Label := *;
        if Outside(l) {
          ghost var previous := host;
          OutsideDrifts(host, l);
          Perform(l);
          DriftsOn(before, previous, host);
        }
        steps := steps - 1;
      }
      alive := host.boot == before.boot;
    }

    /** One operator effect, then any number of outside steps. */
    method Act(l: Label) returns (alive: bool)
      requires Driving() && !l.Reboot?
      modifies this
      ensures Driving() && Drift(Do(old(host), l), host)
      ensures alive == (host.boot == Do(old(host), l).boot)
      ensures Goes(old(host), host)
      ensures !l.UnlinkGuard? ==> Stays(old(host), host)
      ensures !l.UnlinkGuard? && !l.MakePermit? ==> Rests(old(host), host)
    {
      Perform(l);
      ghost var mid := host;
      alive := Yield();
      GoesOn(old(host), mid, host);
    }

    /** Refreshes the observation that the domain is stopped and inhibited. */
    method Fence() returns (ok: bool)
      requires Driving()
      modifies this
      ensures Driving() && Drift(old(host), host)
      ensures ok ==> Fenced(host) && host.boot == old(host.boot)
      ensures old(host.sessions) == map[] ==> host.sessions == map[]
    {
      var alive := Yield();
      ok := alive && Fenced(host);
    }

    /** The operator's own effect on the live payload names; for supervision it is like anyone else's. */
    method WriteNames(names: Names)
      requires Valid()
      modifies this
      ensures Valid() && Drift(old(host), host) && host.payload.names == names && host.boot == old(host.boot)
      ensures host.serials == old(host.serials) + 1
    {
      OutsideDrifts(host, Write(names));
      Perform(Write(names));
    }

    /** Creates the guard and makes it durable. */
    method PersistGuard() returns (ok: bool)
      requires Valid() && !host.guard.vol && host.attempt == Entry(false, false)
      modifies this
      ensures Valid() && host.attempt == Entry(false, false) && Goes(old(host), host)
      ensures ok ==> host.guard == Entry(true, true) && host.boot == old(host.boot)
    {
      ok := Act(CreateGuard);
      if !ok { return; }
      ghost var mid := host;
      ok := Act(SyncDropIns);
      GoesOn(old(host), mid, host);
    }

    /** Creates and synchronises the guard, loads it and stops the whole domain. */
    method Inhibit() returns (ok: bool)
      requires Valid() && !host.guard.vol && host.attempt == Entry(false, false)
      modifies this
      ensures Valid() && host.attempt == Entry(false, false) && Goes(old(host), host)
      ensures ok ==> host.guard == Entry(true, true) && host.loaded && host.boot == old(host.boot)
    {
      ok := PersistGuard();
      if !ok { return; }
      ghost var mid := host;
      ok := Act(Reload);
      GoesOn(old(host), mid, host);
      if !ok { return; }
      mid := host;
      ok := Act(Halt);
      GoesOn(old(host), mid, host);
    }

    /** Admits an active predecessor, persists the guard, loads it and stops the whole domain. */
    method Begin(oldUnit: Hash, custodyFree: bool) returns (ok: bool)
      requires Valid()
      modifies this
      ensures Valid() && Goes(old(host), host)
      ensures ok ==> custodyFree && Fenced(host) && Held(host) && host.permits == 0 && host.guardedExecs == 0
      ensures old(host.attempt) == Entry(true, true) ==> !ok && Drift(old(host), host)
    {
      ok := CheckStock(oldUnit);
      if !ok || !custodyFree { return false; }
      RunKeepsSingle(initial, log);
      ghost var mid := host;
      ok := Inhibit();
      GoesOn(old(host), mid, host);
      if !ok || host.payload.names.unit != Some(oldUnit) { return false; }
      mid := host;
      ok := Fence();
      GoesOn(old(host), mid, host);
      RunKeepsSingle(initial, log);
    }

    /** The predecessor runs under stock supervision, and nothing of this replacement exists yet. */
    method CheckStock(oldUnit: Hash) returns (ok: bool)
      requires Valid()
      modifies this
      ensures Valid() && Drift(old(host), host)
      ensures ok ==> !host.guard.vol && !host.attempt.vol
      ensures old(host.attempt) == Entry(true, true) ==> !ok
    {
      if host.payload.names.unit != Some(oldUnit) || host.loaded || !host.service.Running? { return false; }
      var alive := Yield();
      if !alive || host.guard.vol || host.attempt.vol || host.permitDir { return false; }
      ghost var mid := host;
      alive := Yield();
      DriftsOn(old(host), mid, host);
      ok := alive && host.payload.names.unit == Some(oldUnit) && !host.loaded && host.service.Running?;
    }

    /** Ends the session without further effect. */
    method Close(me: nat)
      requires Driving() && host.sessions.Keys <= {me}
      modifies this
      ensures Valid() && host == old(host).(sessions := map[]) && Quietly(old(host), host)
    {
      Perform(Leave(me));
      assert host.sessions == map[];
    }

    /** Creates the attempt marker, exclusively. */
    method OpenMarker(me: nat) returns (ok: bool)
      requires Driving() && host.sessions == map[me := Entered] && !host.attempt.vol
      modifies this
      ensures Driving() && host.sessions.Keys <= {me} && host.permits == old(host.permits)
      ensures Quietly(old(host), host)
      ensures ok ==> host.sessions == map[me := AttemptOpened] && host.attempt.vol && host.boot == old(host.boot)
    {
      ok := Act(OpenAttempt(me));
      assert Do(old(host), OpenAttempt(me)).sessions == map[me := AttemptOpened];
    }

    /** Synchronises the attempt marker. */
    method SyncMarker(me: nat) returns (ok: bool)
      requires Driving() && host.sessions == map[me := AttemptOpened] && host.attempt.vol
      modifies this
      ensures Driving() && host.sessions.Keys <= {me} && host.permits == old(host.permits)
      ensures Quietly(old(host), host)
      ensures ok ==>
                && host.sessions == map[me := AttemptDurable] && host.attempt == Entry(true, true)
                && host.boot == old(host.boot)
    {
      ok := Act(SyncAttempt(me));
      assert Do(old(host), SyncAttempt(me)).sessions == map[me := AttemptDurable];
    }

    /** Creates and synchronises the attempt marker. */
    method PersistAttempt(me: nat) returns (ok: bool)
      requires Driving() && host.sessions == map[me := Entered] && !host.attempt.vol
      modifies this
      ensures Driving() && host.sessions.Keys <= {me} && host.permits == old(host.permits)
      ensures Quietly(old(host), host)
      ensures ok ==> host.sessions == map[me := AttemptDurable] && host.attempt == Entry(true, true)
      ensures ok ==> host.boot == old(host.boot)
    {
      ok := OpenMarker(me);
      if !ok { return; }
      ghost var mid := host;
      ok := SyncMarker(me);
      QuietlyOn(old(host), mid, host);
    }

    /** The manager reloads its configuration, and the domain is stopped afterwards too. */
    method ReloadFenced() returns (ok: bool)
      requires Driving()
      modifies this
      ensures Driving() && Quietly(old(host), host) && host.permits == old(host.permits)
      ensures host.sessions == map[] || host.sessions == old(host.sessions)
      ensures ok ==> Fenced(host) && host.boot == old(host.boot) && host.sessions == old(host.sessions)
      ensures ok ==> host.attempt == old(host.attempt)
    {
      ok := Fence();
      if !ok { return; }
      ghost var mid := host;
      ok := Act(Reload);
      QuietlyOn(old(host), mid, host);
      if !ok { return; }
      mid := host;
      ok := Fence();
      QuietlyOn(old(host), mid, host);
    }

    /** The checks of the target before the attempt; `quiet` is a moment at which the domain was stopped. */
    method CheckTarget(target: PerKey<Hash>) returns (seen: Option<Payload>, ghost quiet: Host)
      requires Driving()
      modifies this
      ensures Driving() && Quietly(old(host), host) && host.permits == old(host.permits)
      ensures seen.Some? ==>
                && seen.value.names == Present(target) && !host.attempt.vol && host.boot == old(host.boot)
                && host.sessions == old(host.sessions)
                && Sane(quiet) && Fenced(quiet) && quiet.payload == seen.value && Goes(quiet, host)
      ensures host.sessions == map[] || host.sessions == old(host.sessions)
      ensures old(host.attempt) == Entry(true, true) ==> seen.None?
    {
      quiet := host;
      if host.attempt.vol || host.permitDir || host.payload.names != Present(target) { return None, quiet; }
      var payload := host.payload;
      var ok := ReloadFenced();
      if !ok { return None, quiet; }
      quiet := host;
      ok := Yield();
      QuietlyOn(old(host), quiet, host);
      if !ok || host.payload != payload || host.attempt.vol { return None, quiet; }
      SeenAgain(old(host), quiet, host);
      seen := Some(payload);
    }

    /** The session's steps up to the durable attempt marker. */
    method MarkAttempt(me: nat, target: PerKey<Hash>) returns (seen: Option<Payload>, ghost quiet: Host)
      requires Driving() && host.sessions == map[me := Entered]
      modifies this
      ensures Driving() && host.sessions.Keys <= {me} && host.permits == old(host.permits)
      ensures Quietly(old(host), host)
      ensures seen.Some? ==>
                && host.sessions == map[me := AttemptDurable] && host.attempt == Entry(true, true)
                && host.boot == old(host.boot) && seen.value.names == Present(target)
                && Sane(quiet) && Fenced(quiet) && quiet.payload == seen.value && Goes(quiet, host)
      ensures old(host.attempt) == Entry(true, true) ==> seen.None?
    {
      seen, quiet := CheckTarget(target);
      if seen.None? { return; }
      ghost var mid := host;
      var ok := PersistAttempt(me);
      QuietlyOn(old(host), mid, host);
      GoesOn(quiet, mid, host);
      if !ok { seen := None; }
    }

    /** Creates the permit's own directory, exclusively. */
    method MakeDirectory(me: nat) returns (ok: bool)
      requires Driving() && host.sessions == map[me := AttemptDurable] && host.attempt == Entry(true, true)
      modifies this
      ensures Driving() && host.sessions.Keys <= {me} && host.attempt == Entry(true, true)
      ensures Quietly(old(host), host) && host.permits == old(host.permits)
      ensures ok ==> host.sessions == map[me := PermitDirMade] && host.boot == old(host.boot)
    {
      if host.permitDir { return false; }
      ok := Act(MakePermitDir(me));
      assert Do(old(host), MakePermitDir(me)).sessions == map[me := PermitDirMade];
    }

    /** Publishes the permit, exclusively, and asks the manager to start the unit. */
    method AskForStart(me: nat) returns (ok: bool)
      requires Driving() && host.sessions == map[me := PermitDirMade] && host.attempt == Entry(true, true)
      modifies this
      ensures Driving() && host.sessions.Keys <= {me} && host.attempt == Entry(true, true)
      ensures Goes(old(host), host) && Stays(old(host), host)
      ensures ok ==> host.sessions == map[me := PermitMade] && host.boot == old(host.boot)
    {
      if host.permit { return false; }
      ok := Act(MakePermit(me));
      assert Do(old(host), MakePermit(me)).sessions == map[me := PermitMade];
      if !ok { return; }
      ghost var mid := host;
      Perform(TryStart);
      GoesOn(old(host), mid, host);
    }

    /**
     * The permit is published only over the durable marker, after a `sight` of the sealed domain with the
     * payload seen before.
     */
    method PublishPermit(me: nat, seen: Payload) returns (ok: bool, ghost sight: Host)
      requires Driving() && host.sessions == map[me := AttemptDurable] && host.attempt == Entry(true, true)
      modifies this
      ensures Driving() && host.sessions.Keys <= {me} && host.attempt == Entry(true, true)
      ensures Goes(old(host), host) && Stays(old(host), host)
      ensures ok ==> host.sessions == map[me := PermitMade] && host.boot == old(host.boot)
      ensures ok || host.permits != old(host.permits) ==>
                Quietly(old(host), sight) && Sealed(sight) && sight.payload == seen && Goes(sight, host)
    {
      sight := host;
      ok := Fence();
      if !ok { return; }
      ghost var mid := host;
      ok := Yield();
      DriftsOn(old(host), mid, host);
      if !ok || host.payload != seen { return false, sight; }
      sight := host;
      ok := MakeDirectory(me);
      QuietlyOn(old(host), sight, host);
      if !ok { return; }
      mid := host;
      ok := AskForStart(me);
      GoesOn(old(host), mid, host);
      GoesOn(sight, mid, host);
    }

    /** Observes the started process between two sights of the same payload. */
    method SeeProcess(seen: Payload, ghost quiet: Host) returns (stamp: Option<Stamp>)
      requires Driving() && host.attempt == Entry(true, true)
      requires Sane(quiet) && quiet.service.Stopped? && quiet.payload == seen && Goes(quiet, host)
      modifies this
      ensures Driving() && Drift(old(host), host)
      ensures stamp.Some? ==>
                && host.boot == old(host.boot) && stamp.value.boot == host.boot && stamp.value.ticks < host.ticks
                && (host.service.Running? && host.service.stamp == stamp.value ==> host.service.image == seen)
                && (Held(old(host)) ==> host.guardedExecs >= 1)
    {
      if !host.guard.vol || host.permit || !host.attempt.vol { return None; }
      var alive := Yield();
      GoesOn(quiet, old(host), host);
      if !alive || !host.loaded || !host.guard.vol || !host.service.Running? { return None; }
      ghost var running := host;
      var first := host.service.stamp;
      alive := Yield();
      DriftsOn(old(host), running, host);
      if !alive || host.payload != seen { return None; }
      ExecutedThePayload(quiet, running, host);
      stamp := Some(first);
    }

    /** Observes the started process twice, and the guard around it. */
    method ObserveStarted(seen: Payload, ghost quiet: Host) returns (stamp: Option<Stamp>)
      requires Driving() && host.attempt == Entry(true, true)
      requires Sane(quiet) && quiet.service.Stopped? && quiet.payload == seen && Goes(quiet, host)
      modifies this
      ensures Driving() && Drift(old(host), host)
      ensures stamp.Some? ==>
                && stamp.value.boot == host.boot && stamp.value.ticks < host.ticks && host.guard.vol && !host.permit
                && (host.service.Running? && host.service.stamp == stamp.value ==> host.service.image == seen)
                && (Held(old(host)) ==> host.guardedExecs >= 1)
    {
      var first := SeeProcess(seen, quiet);
      if first.None? { return None; }
      ghost var mid := host;
      var alive := Yield();
      if !alive || !RunsAs(host, true, first.value) {
        DriftsOn(old(host), mid, host);
        return None;
      }
      ghost var again := host;
      alive := Yield();
      DriftsOn(mid, again, host);
      DriftsOn(old(host), mid, host);
      if alive && host.guard.vol && !host.permit && host.attempt.vol { stamp := first; } else { stamp := None; }
    }

    /** A known refusal permits removal of the own unconsumed permit. */
    method TakeBack(me: nat)
      requires Driving()
      modifies this
      ensures Driving() && Quietly(old(host), host) && host.sessions == old(host.sessions)
      ensures At(old(host), me, PermitMade) ==> !host.permit
    {
      if host.permit { Perform(WithdrawPermit(me)); }
    }

    /** The start request: either a known refusal, which takes the own unconsumed permit back, or a start. */
    method RequestStart(me: nat, seen: Payload, ghost quiet: Host) returns (stamp: Option<Stamp>)
      requires Driving() && host.sessions == map[me := AttemptDurable] && host.attempt == Entry(true, true)
      requires Sane(quiet) && quiet.service.Stopped? && quiet.payload == seen && Goes(quiet, host)
      modifies this
      ensures Driving() && host.sessions.Keys <= {me}
      ensures Goes(old(host), host) && Stays(old(host), host)
      ensures stamp.Some? ==>
                && stamp.value.boot == host.boot && stamp.value.ticks < host.ticks && host.guard.vol && !host.permit
                && host.attempt == Entry(true, true)
                && (host.service.Running? && host.service.stamp == stamp.value ==> host.service.image == seen)
                && (Held(old(host)) ==> host.guardedExecs >= 1)
    {
      var ok, _ := PublishPermit(me, seen);
      if !ok { return None; }
      ghost var mid := host;
      ok := Yield();
      GoesOn(old(host), mid, host);
      GoesOn(quiet, old(host), host);
      if !ok { return None; }
      var refused: bool := *;
      mid := host;
      if refused {
        TakeBack(me);
        GoesOn(old(host), mid, host);
        return None;
      }
      stamp := ObserveStarted(seen, quiet);
      GoesOn(old(host), mid, host);
    }

    /**
     * Verifies a complete target, persists the attempt, then starts once through a volatile permit. The
     * returned process executed the target, and when the guard was in force it is the one execution
     * under it.
     */
    method StartOnce(me: nat, target: PerKey<Hash>) returns (started: Option<Stamp>)
      requires Valid()
      modifies this
      ensures Valid() && Goes(old(host), host) && Stays(old(host), host)
      ensures started.Some? ==>
                && host.attempt == Entry(true, true) && host.guard.vol && !host.permit
                && started.value.boot == host.boot && OfTarget(host, started.value, target)
                && (Held(old(host)) ==> host.guardedExecs == 1)
      ensures old(host.attempt) == Entry(true, true) ==>
                started.None? && host.permits == old(host.permits) && Quietly(old(host), host)
    {
      Perform(Enter(me));
      ghost var mid := host;
      var seen, quiet := MarkAttempt(me, target);
      QuietlyOn(old(host), mid, host);
      mid := host;
      if seen.None? {
        Close(me);
        QuietlyOn(old(host), mid, host);
        return None;
      }
      started := RequestStart(me, seen.value, quiet);
      GoesOn(old(host), mid, host);
      mid := host;
      Close(me);
      GoesOn(old(host), mid, host);
      RunKeepsSingle(initial, log);
    }

    /** Removes and synchronises the guard and loads the stock configuration. */
    method LiftGuard() returns (alive: bool)
      requires Valid()
      modifies this
      ensures Valid() && Goes(old(host), host)
      ensures alive ==> host.guard == Entry(false, false) && host.boot == old(host.boot)
      ensures alive ==> host.attempt == Entry(old(host).attempt.vol, old(host).attempt.vol)
    {
      alive := Act(UnlinkGuard);
      if !alive { return; }
      ghost var mid := host;
      alive := Act(SyncDropIns);
      GoesOn(old(host), mid, host);
      if !alive { return; }
      mid := host;
      alive := Act(Reload);
      GoesOn(old(host), mid, host);
    }

    /** The measured facts that admit the removal of the guard: a `sight` of the process under it. */
    method CheckGuarded(expected: Stamp, target: PerKey<Hash>) returns (seen: Option<Payload>, ghost sight: Host)
      requires Valid()
      modifies this
      ensures Valid() && Drift(old(host), host)
      ensures seen.Some? ==> seen.value.names == Present(target) && host.payload == seen.value
      ensures seen.Some? ==> host.boot == old(host.boot) && host.attempt.vol
      ensures seen.Some? ==>
                && Drift(old(host), sight) && Goes(sight, host)
                && RunsAs(sight, true, expected) && sight.payload == seen.value
    {
      sight := host;
      if !host.guard.vol || host.permit || !host.attempt.vol || host.payload.names != Present(target) {
        return None, sight;
      }
      var payload := host.payload;
      var alive := Yield();
      if !alive || !RunsAs(host, true, expected) { return None, sight; }
      sight := host;
      alive := Yield();
      DriftsOn(old(host), sight, host);
      if !alive || !host.guard.vol || host.permit || host.payload != payload { return None, sight; }
      SeenAgain(old(host), sight, host);
      seen := Some(payload);
    }

    /** The measured facts after it: stock supervision around the expected process, over the same payload. */
    method CheckRestored(expected: Stamp, seen: Payload) returns (ok: bool, ghost sight: Host)
      requires Valid() && host.guard == Entry(false, false) && host.attempt == Entry(true, true)
      modifies this
      ensures Valid() && Goes(old(host), host)
      ensures ok ==>
                && host.guard == Entry(false, false) && host.attempt == Entry(true, true) && host.boot == old(host.boot)
                && !host.permit && RunsAs(host, false, expected)
                && Goes(old(host), sight) && Goes(sight, host) && sight.payload == seen
                && sight.guard == Entry(false, false) && sight.boot == host.boot && RunsAs(sight, false, expected)
    {
      sight := host;
      if host.permit || host.loaded { return false, sight; }
      var alive := Yield();
      if !alive || !RunsAs(host, false, expected) { return false, sight; }
      ghost var mid := host;
      alive := Yield();
      DriftsOn(old(host), mid, host);
      if !alive || host.payload != seen || !host.attempt.vol { return false, sight; }
      sight := host;
      alive := Yield();
      DriftsOn(old(host), sight, host);
      ok := alive && RunsAs(host, false, expected);
    }

    /**
     * Removes only the own guard and restores supervision around the same process. The guard is lifted
     * only after a `sight` of the expected process under it, over the target; at the moment `restored`
     * after that, the payload identities are the same and the process still runs.
     */
    method Finalize(expected: Stamp, target: PerKey<Hash>)
      returns (ok: bool, ghost sight: Host, ghost restored: Host)
      requires Valid()
      modifies this
      ensures Valid() && Goes(old(host), host)
      ensures ok ==>
                && host.guard == Entry(false, false) && !host.permit && !host.loaded
                && host.attempt == Entry(true, true) && host.boot == old(host.boot)
                && host.service.Running? && host.service.stamp == expected
                && (host.serials == old(host.serials) ==> host.payload.names == Present(target))
      ensures ok ==>
                && Goes(old(host), restored) && Goes(sight, restored) && Goes(restored, host)
                && restored.payload == sight.payload && Restored(restored, expected, target)
      ensures ok || (old(host).guard == Entry(true, true) && host.guard != old(host).guard) ==>
                Drift(old(host), sight) && RunsAs(sight, true, expected) && sight.payload.names == Present(target)
    {
      var seen: Option<Payload>;
      seen, sight := CheckGuarded(expected, target);
      restored := host;
      if seen.None? { return false, sight, restored; }
      ghost var mid := host;
      ok := LiftGuard();
      GoesOn(old(host), mid, host);
      GoesOn(sight, mid, host);
      if !ok { return; }
      mid := host;
      ok, restored := CheckRestored(expected, seen.value);
      GoesOn(old(host), mid, host);
      if ok {
        GoesOn(old(host), mid, restored);
        GoesOn(sight, mid, restored);
      }
    }
  }
}
