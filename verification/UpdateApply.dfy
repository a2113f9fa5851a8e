/**
 * One `--apply` job: it stops the running App, retains it under another name, publishes the
 * candidate's Web assets, starts and verifies the candidate, and on any failure after the stop tries
 * to put the previous App and Web tree back.
 */
module UpdateApply {
  import opened Common
  import opened UpdateLifecycle
  import opened UpdateContainers
  import opened UpdateWeb

  /** The pulled release. */
  datatype Candidate = Candidate(imageId: string, publishedDigest: string, sourceCommit: string)

  /** The answers to the job's observations before it may interrupt the App; how each is measured is not modelled. */
  datatype Checks = Checks(bound: bool, admitted: bool, acquired: bool, smoked: bool, idle: bool)
  {
    predicate Pass() { bound && admitted && acquired && smoked && idle }
  }

  function RetainedName(name: string): string { name + "-previous" }
  function AsideName(name: string, request: string): string { RetainedName(name) + "-pre-" + request }
  function FailedName(name: string, request: string): string { name + ".failed-" + request }

  lemma NamesApart(name: string, request: string)
    ensures name != RetainedName(name) && name != AsideName(name, request) && name != FailedName(name, request)
    ensures RetainedName(name) != AsideName(name, request) && RetainedName(name) != FailedName(name, request)
  {
    assert RetainedName(name)[|name|] == '-' && FailedName(name, request)[|name|] == '.';
  }

  function Planned(r: Receipt, name: string, plan: Plan): Receipt {
    r.(undo := Some(Undo(RetainedName(name), plan.previous, plan.previousDigest, plan.stagedDigest)))
  }

  function Concluded(r: Receipt, restored: bool, at: string, message: string, code: ErrorCode): Receipt {
    r.(stage := if r.appStopped && !restored then RecoveryRequired else Failed,
       restored := Some(r.appStopped && restored), completedAt := Some(at),
       error := Some(message), errorCode := Some(code))
  }

  function Completed(r: Receipt, at: string): Receipt {
    r.(stage := Succeeded, restored := Some(false), completedAt := Some(at), error := None)
  }

  class Updater {
    const f: Formats
    const name: string
    const request: string
    /** The registry digests of an image, as its inspection lists them. */
    const repoDigests: string -> set<string>
    const docker: Docker
    const site: WebRoot
    var m: Machine
    /** Whether the retained name was free when the App was stopped. */
    ghost var retainedFree: bool

    ghost predicate Valid()
      reads this, docker, site
    {
      docker.Valid() && site.Valid() && Sound(f, m)
    }

    /** The job is at work and has not durably reported an end. */
    predicate Working()
      reads this
    {
      m.job.Job? && m.job.held.stage.Worked()
    }

    constructor (f: Formats, name: string, request: string, digests: string -> set<string>, docker: Docker,
                 site: WebRoot, m: Machine)
      requires docker.Valid() && site.Valid() && Sound(f, m)
      ensures Valid() && this.m == m && this.docker == docker && this.site == site
      ensures this.f == f && this.name == name && this.request == request
    {
      this.f, this.name, this.request, this.repoDigests := f, name, request, digests;
      this.docker, this.site, this.m, retainedFree := docker, site, m, false;
    }

    /** Updates the receipt in memory and tries to write it; a failed write leaves the file as it was. */
    method Save(next: Receipt) returns (ok: bool)
      requires Sound(f, m) && Working() && Writes(f, m.job.held, next)
      modifies this`m
      ensures Sound(f, m) && m == Machine(if ok then next else old(m).disk, Job(next, ok), old(m).launches)
    {
      ok := *;
      WriteKeeps(f, m, ApplyWrite(next, ok));
      m := Do(f, m, ApplyWrite(next, ok));
    }

    /** Updates the receipt in memory only. */
    method Note(next: Receipt)
      requires Sound(f, m) && Working() && Writes(f, m.job.held, next)
      modifies this`m
      ensures Sound(f, m) && m == Machine(old(m).disk, Job(next, false), old(m).launches)
    {
      WriteKeeps(f, m, ApplyWrite(next, false));
      m := Do(f, m, ApplyWrite(next, false));
    }

    /** The App under its configured name, and everything else under other names. */
    ghost predicate Serving(app: App)
      reads this, docker
    {
      name in docker.containers.names && docker.containers.names[name] == app
    }

    /** The stopped App is under its own or the retained name. */
    ghost predicate Kept(app: App)
      reads this, docker
    {
      var names := docker.containers.names;
      var retained := RetainedName(name);
      if retainedFree then
        (name in names && names[name] == app && retained !in names) || (retained in names && names[retained] == app)
      else
        name in names && names[name] == app && retained in names && names[retained] != app
    }

    /** Moves an older retained App aside; a failed inspection is taken for its absence. */
    method Aside() returns (ok: bool)
      requires docker.Valid()
      modifies docker
      ensures docker.Valid() && docker.start == old(docker.start) && old(docker.history) <= docker.history
      ensures Writers(docker.containers) <= Writers(old(docker.containers))
      ensures name in old(docker.containers.names) ==>
                name in docker.containers.names && docker.containers.names[name] == old(docker.containers.names)[name]
      ensures RetainedName(name) !in old(docker.containers.names) ==> RetainedName(name) !in docker.containers.names
    {
      NamesApart(name, request);
      var found := *;
      if !(found && RetainedName(name) in docker.containers.names) { return true; }
      var taken := *;
      if taken && AsideName(name, request) in docker.containers.names { return false; }
      var exit := docker.Exec(Rename(RetainedName(name), AsideName(name, request)));
      ok := exit.Done?;
    }

    /** Puts the previous Web tree and the retained App back, with nobody writing meanwhile. */
    method Restore() returns (ok: bool)
      requires Valid() && m.job.Job?
      modifies docker, site
      ensures Valid() && docker.start == old(docker.start) && old(docker.history) <= docker.history
      ensures site.rewritten == old(site.rewritten)
      ensures ok && m.job.held.undo.Some? ==> site.Serves(site.web, m.job.held.undo.value.previousDigest)
      ensures ok && m.job.held.undo.Some? && m.job.held.undo.value.retained == RetainedName(name) ==>
                && RetainedName(name) in old(docker.containers.names)
                && Serving(old(docker.containers.names)[RetainedName(name)])
                && docker.containers.names[name].id in docker.containers.running
    {
      NamesApart(name, request);
      var undo := m.job.held.undo;
      if undo.Some? {
        ok := site.Restore(undo.value.previousWeb, undo.value.previousDigest);
        if !ok { return; }
      }
      ok := StopCandidate();
      if !ok { return; }
      if undo.Some? {
        var exit := docker.Exec(Rename(undo.value.retained, name));
        if !exit.Done? { return false; }
        exit := docker.Exec(Command.Start(name));
        ok := exit.Done?;
      }
    }

    /** Stops whatever holds the App's name, requires that nobody writes, and frees the name. */
    method StopCandidate() returns (ok: bool)
      requires docker.Valid()
      modifies docker
      ensures docker.Valid() && docker.start == old(docker.start) && old(docker.history) <= docker.history
      ensures ok ==> Writers(docker.containers) == {}
      ensures RetainedName(name) in docker.containers.names <==> RetainedName(name) in old(docker.containers.names)
      ensures RetainedName(name) in docker.containers.names ==>
                docker.containers.names[RetainedName(name)] == old(docker.containers.names)[RetainedName(name)]
    {
      NamesApart(name, request);
      var listed := *;
      var occupied := !listed || name in docker.containers.names;
      if occupied {
        var exit := docker.Exec(Stop(name));
        if !exit.Done? { return false; }
      }
      var users := docker.ActiveUsers();
      if users != Some({}) { return false; }
      if occupied {
        var exit := docker.Exec(Rename(name, FailedName(name, request)));
        if exit.Raised? { return false; }
      }
      ok := true;
    }

    function PreviousBootId(): Option<string>
      requires m.job.Job?
      reads this
    {
      var boot := m.job.held.previousBoot;
      if boot.Some? && f.bootId(boot.value.bootId) then Some(boot.value.bootId) else None
    }

    /** Polls the App under its name until it reports another boot; `quiet` tells that nothing blocks readiness. */
    method AwaitBoot(candidate: Candidate, timeout: nat) returns (seen: Option<Boot>, quiet: bool)
      requires docker.Valid() && m.job.Job?
      modifies docker
      ensures docker.Valid() && docker.start == old(docker.start) && old(docker.history) <= docker.history
      ensures docker.containers.names == old(docker.containers.names)
      ensures seen.Some? ==>
                && name in docker.containers.names && Some(seen.value.bootId) != PreviousBootId()
                && f.bootId(seen.value.bootId)
                && seen.value.sourceCommit == Some(candidate.sourceCommit)
    {
      seen, quiet := None, false;
      for attempt := 0 to timeout + 1
        invariant docker.Valid() && docker.start == old(docker.start) && old(docker.history) <= docker.history
        invariant docker.containers.names == old(docker.containers.names)
      {
        docker.Wait();
        var inspected := *;
        if !inspected || name !in docker.containers.names { return None, false; }
        var observed: bool, bootId: string, accepting: bool, reasons: seq<string> := *, *, *, *;
        if observed && Some(bootId) != PreviousBootId() && f.bootId(bootId) {
          var ready: bool := *;
          return Some(Boot(accepting, reasons, bootId, Some(docker.containers.names[name].image),
                           Some(candidate.sourceCommit))), ready;
        }
      }
    }

    /** Evaluates the health checks of the new boot. */
    method Verify(candidate: Candidate, stagedDigest: string, timeout: nat) returns (ok: bool)
      requires Valid() && Working() && m.job.held.stage.Verifying? && m.job.held.appStopped
      modifies this`m, docker
      ensures Valid() && m.job.Job? && m.job.held.stage.Verifying? && m.disk == old(m).disk
      ensures m.job.held.undo == old(m).job.held.undo && m.job.held.appStopped
      ensures docker.start == old(docker.start) && old(docker.history) <= docker.history
      ensures docker.containers.names == old(docker.containers.names)
      ensures ok ==> Verified(f, m.job.held) && site.Serves(site.web, stagedDigest)
      ensures ok ==> name in docker.containers.names && docker.containers.names[name].image == candidate.imageId
      ensures ok ==> candidate.publishedDigest in repoDigests(candidate.imageId)
    {
      var seen, quiet := AwaitBoot(candidate, timeout);
      if seen.None? { return false; }
      var image, previousId := docker.containers.names[name].image, PreviousBootId();
      var imageMatch := candidate.publishedDigest in repoDigests(image);
      var retainedAuth, helper: bool, nanohost: Option<bool> := *, *, *;
      var checks := Predicates(
        seen.value.accepting, helper, imageMatch,
        previousId.Some? && Some(seen.value.bootId) != previousId, quiet, retainedAuth,
        f.commit(candidate.sourceCommit) && image == candidate.imageId && imageMatch, nanohost,
        Some(site.Serves(site.web, stagedDigest)));
      Note(m.job.held.(candidateBoot := seen, predicates := Some(checks)));
      ok := checks.Required();
    }

    /** Everything that is checked and recorded before the App is touched. */
    method Admit(candidate: Candidate, checks: Checks) returns (ok: bool)
      requires Sound(f, m) && Working() && m.job.held.stage.Applying?
      modifies this`m
      ensures Sound(f, m) && m.job.Job? && m.job.held.stage.Applying?
      ensures m.job.held.appStopped == old(m).job.held.appStopped
      ensures m.disk == old(m).disk || m.disk.stage.Applying?
      ensures ok ==>
                name in docker.containers.names && checks.bound && checks.admitted && checks.acquired && checks.smoked
    {
      var boot: Option<Boot> := *;
      if !checks.bound || name !in docker.containers.names { return false; }
      Note(m.job.held.(previousImageId := Some(docker.containers.names[name].image), previousBoot := boot));
      if boot.None? || !f.bootId(boot.value.bootId) || !checks.admitted { return false; }
      ok := Save(m.job.held);
      if !ok { return; }
      if !checks.acquired { return false; }
      ok := Save(m.job.held.(candidateImageId := Some(candidate.publishedDigest)));
      ok := ok && checks.smoked;
    }

    /** Admits the interruption on fresh observations and stops the App. */
    method Interrupt(plan: Plan, idle: bool) returns (ok: bool)
      requires Valid() && Working() && m.job.held.stage.Applying? && name in docker.containers.names
      modifies this`m, this`retainedFree, docker, site
      ensures Valid() && m.job.Job? && m.job.held.stage.Applying? && (m.disk == old(m).disk || m.disk.stage.Applying?)
      ensures m.job.held.undo == old(m).job.held.undo && (old(m).job.held.appStopped ==> m.job.held.appStopped)
      ensures docker.start == old(docker.start) && old(docker.history) <= docker.history
      ensures old(site.rewritten) ==> site.rewritten
      ensures !LeadsTo(old(site.web), plan.partialName) ==> site.rewritten == old(site.rewritten)
      ensures m.job.held.appStopped ==> idle || old(m).job.held.appStopped
      ensures ok ==> site.web == old(site.web) && m.job.held.appStopped && Writers(docker.containers) == {}
      ensures !old(m).job.held.appStopped ==>
                if m.job.held.appStopped then Kept(old(docker.containers.names)[name])
                else !ok && Serving(old(docker.containers.names)[name])
      ensures && m.job.held.appStopped && !old(m).job.held.appStopped
              && RetainedName(name) !in old(docker.containers.names)
              ==> retainedFree
    {
      var users := docker.ActiveUsers();
      if users != Some({name}) { return false; }
      if !idle {
        if plan.partialName in site.web.entries { var _ := site.Remove(plan.partialName); }
        return false;
      }
      ok := Aside();
      if !ok { return; }
      ghost var before := docker.containers;
      var exit := docker.Exec(Stop(name));
      if !exit.Done? { return false; }
      StopAndRenameShrink(before, Stop(name), exit, docker.containers);
      retainedFree := RetainedName(name) !in docker.containers.names;
      Note(m.job.held.(appStopped := true));
      ok := Save(m.job.held);
    }

    /** Retains the stopped App, publishes the candidate's Web tree and starts the candidate. */
    method Launch(candidate: Candidate, plan: Plan, ghost app: App) returns (ok: bool)
      requires Valid() && Working() && m.job.held.stage.Applying? && m.job.held.appStopped
      requires Writers(docker.containers) == {}
      modifies this`m, docker, site
      ensures Valid() && Working() && (m.disk == old(m).disk || m.disk.stage.Worked())
      ensures m.job.held.undo == old(m).job.held.undo && m.job.held.appStopped
      ensures docker.start == old(docker.start) && old(docker.history) <= docker.history
      ensures old(site.rewritten) ==> site.rewritten
      ensures !LeadsTo(old(site.web), plan.partialName) && old(site.web).current.Some? ==>
                site.rewritten == old(site.rewritten)
      ensures old(Kept(app)) ==> Kept(app)
      ensures ok ==> m.job.held.stage.Verifying? && site.Serves(site.web, plan.stagedDigest)
      ensures ok && old(Kept(app)) ==> RetainedIs(app)
    {
      NamesApart(name, request);
      var exit := docker.Exec(Rename(name, RetainedName(name)));
      if !exit.Done? { return false; }
      ok := site.Publish(plan);
      if !ok { return; }
      var id := docker.NewId();
      exit := docker.Exec(Run(name, App(id, candidate.imageId, true)));
      if !exit.Done? { return false; }
      ok := Save(m.job.held.(stage := Verifying));
    }

    /** The receipt names the retained App and the Web tree served before. */
    predicate Recoverable(undo: Option<Undo>, before: Web) {
      undo.Some? && undo.value.retained == RetainedName(name) && site.Serves(before, undo.value.previousDigest)
    }

    /** Admission, staging and the record of both. */
    method Ready(candidate: Candidate, extracted: Tree, checks: Checks) returns (plan: Option<Plan>)
      requires Valid() && Working() && m.job.held.stage.Applying? && m.disk == m.job.held
      modifies this`m, site
      ensures Valid() && m.job.Job? && m.job.held.stage.Applying? && m.disk.stage.Applying?
      ensures m.job.held.appStopped == old(m).job.held.appStopped
      ensures !LeadsTo(old(site.web), PartialName(candidate.sourceCommit)) ==>
                site.rewritten == old(site.rewritten) && !LeadsTo(site.web, PartialName(candidate.sourceCommit))
      ensures plan.Some? ==> checks.bound && checks.admitted && checks.acquired && checks.smoked
      ensures plan.Some? ==>
                && name in docker.containers.names && Recoverable(m.job.held.undo, old(site.web))
                && site.web.current.Some?
                && plan.value.stagedDigest == site.Digest(extracted)
                && plan.value.partialName == PartialName(candidate.sourceCommit)
    {
      var ok := Admit(candidate, checks);
      if !ok { return None; }
      plan := site.Stage(candidate.sourceCommit, extracted);
      if plan.None? { return None; }
      ok := Save(Planned(m.job.held, name, plan.value));
      if !ok { return None; }
    }

    /** The App under its name runs the candidate image and visitors get the candidate's Web tree. */
    ghost predicate UpdatedTo(candidate: Candidate, digest: string)
      reads this, docker, site
    {
      && name in docker.containers.names && docker.containers.names[name].image == candidate.imageId
      && candidate.publishedDigest in repoDigests(candidate.imageId) && site.Serves(site.web, digest)
    }

    /** From the stopped App to a verified candidate. */
    method Exchange(candidate: Candidate, plan: Plan, timeout: nat, ghost app: App) returns (ok: bool)
      requires Valid() && Working() && m.job.held.stage.Applying? && m.job.held.appStopped
               && Writers(docker.containers) == {}
      modifies this`m, docker, site
      ensures Valid() && Working() && (m.disk == old(m).disk || m.disk.stage.Worked())
      ensures m.job.held.undo == old(m).job.held.undo && m.job.held.appStopped
      ensures docker.start == old(docker.start) && old(docker.history) <= docker.history
      ensures !LeadsTo(old(site.web), plan.partialName) && old(site.web).current.Some? ==>
                site.rewritten == old(site.rewritten)
      ensures old(Kept(app)) ==> Kept(app) && (ok ==> RetainedIs(app))
      ensures ok ==> m.job.held.stage.Verifying? && Verified(f, m.job.held) && UpdatedTo(candidate, plan.stagedDigest)
    {
      ok := Launch(candidate, plan, app);
      if !ok { return; }
      ok := Verify(candidate, plan.stagedDigest, timeout);
    }

    /** From the stopped App to the recorded success of a verified candidate. */
    method Complete(candidate: Candidate, plan: Plan, timeout: nat, at: string, ghost app: App) returns (ok: bool)
      requires Valid() && Working() && m.job.held.stage.Applying? && m.job.held.appStopped && m.disk.stage.Worked()
               && Writers(docker.containers) == {}
      modifies this`m, docker, site
      ensures Valid() && m.job.Job? && (ok <==> m.disk.stage.Succeeded?) && (!ok ==> m.disk.stage.Worked())
      ensures if ok then m.job == Job(m.disk, true)
              else m.job.held.stage.Worked() || (m.job.held.stage.Succeeded? && !m.job.saved)
      ensures m.job.held.undo == old(m).job.held.undo && m.job.held.appStopped
      ensures docker.start == old(docker.start) && old(docker.history) <= docker.history
      ensures !LeadsTo(old(site.web), plan.partialName) && old(site.web).current.Some? ==>
                site.rewritten == old(site.rewritten)
      ensures old(Kept(app)) ==> Kept(app) && (ok ==> RetainedIs(app))
      ensures ok ==> UpdatedTo(candidate, plan.stagedDigest)
    {
      ok := Exchange(candidate, plan, timeout, app);
      if !ok { return; }
      ok := Save(Completed(m.job.held, at));
    }

    /** The guarded body of the job; false means that it raised. */
    method Attempt(candidate: Candidate, extracted: Tree, timeout: nat, at: string, checks: Checks,
                   ghost app: Option<App>)
      returns (ok: bool)
      requires Valid() && Working() && m.job.held.stage.Applying? && m.disk == m.job.held
      requires app == if name in docker.containers.names then Some(docker.containers.names[name]) else None
      modifies this`m, this`retainedFree, docker, site
      ensures Valid() && m.job.Job? && (ok <==> m.disk.stage.Succeeded?) && (!ok ==> m.disk.stage.Worked())
      ensures if ok then m.job == Job(m.disk, true)
              else m.job.held.stage.Worked() || (m.job.held.stage.Succeeded? && !m.job.saved)
      ensures docker.start == old(docker.start) && old(docker.history) <= docker.history
      ensures !LeadsTo(old(site.web), PartialName(candidate.sourceCommit)) ==> site.rewritten == old(site.rewritten)
      ensures !old(m).job.held.appStopped && m.job.held.appStopped ==>
                && app.Some? && Kept(app.value) && Recoverable(m.job.held.undo, old(site.web))
                && (RetainedName(name) !in old(docker.containers.names) ==> retainedFree)
      ensures !old(m).job.held.appStopped && m.job.held.appStopped ==> checks.Pass()
      ensures !m.job.held.appStopped && app.Some? ==> Serving(app.value)
      ensures ok ==> m.job.held.appStopped && UpdatedTo(candidate, site.Digest(extracted))
      ensures ok && !old(m).job.held.appStopped ==> RetainedIs(app.value)
    {
      var plan := Ready(candidate, extracted, checks);
      if plan.None? { return false; }
      ok := Interrupt(plan.value, checks.idle);
      if !ok { return; }
      ok := Complete(candidate, plan.value, timeout, at, app.value);
    }

    ghost predicate RetainedIs(app: App)
      reads this, docker
    {
      RetainedName(name) in docker.containers.names && docker.containers.names[RetainedName(name)] == app
    }

    /** Records how the run failed. */
    method Conclude(restored: bool, at: string, message: string, code: ErrorCode) returns (ok: bool)
      requires Sound(f, m) && m.job.Job? && (m.job.held.stage.Worked() || (m.job.held.stage.Succeeded? && !m.job.saved))
      modifies this`m
      ensures var next := Concluded(old(m).job.held, restored, at, message, code);
              Sound(f, m) && m == Machine(if ok then next else old(m).disk, Job(next, ok), old(m).launches)
    {
      var next := Concluded(m.job.held, restored, at, message, code);
      ok := *;
      assert MayWrite(f, m.job, next);
      WriteKeeps(f, m, ApplyWrite(next, ok));
      m := Machine(if ok then next else m.disk, Job(next, ok), m.launches);
    }

    /** The previous Web tree is served, and the App runs under its name if it was the one retained. */
    ghost predicate PutBack(undo: Option<Undo>, before: Web, app: App)
      reads this, docker, site
    {
      && undo.Some? && site.Serves(before, undo.value.previousDigest)
      && site.Serves(site.web, undo.value.previousDigest)
      && name in docker.containers.names && docker.containers.names[name].id in docker.containers.running
      && (retainedFree <==> Serving(app))
    }

    lemma KeptIsPutBack(undo: Option<Undo>, before: Web, app: App, retained: App)
      requires Recoverable(undo, before) && site.Serves(site.web, undo.value.previousDigest)
      requires Serving(retained) && retained.id in docker.containers.running && (retainedFree <==> retained == app)
      ensures PutBack(undo, before, app)
    {
    }

    /** Tries to restore the previous App if it had been stopped; the App is then under one of its names. */
    method RestoreIfStopped(ghost app: App, ghost before: Web) returns (restored: bool)
      requires Valid() && m.job.Job?
      modifies docker, site
      ensures Valid() && site.rewritten == old(site.rewritten)
      ensures docker.start == old(docker.start) && old(docker.history) <= docker.history
      ensures !m.job.held.appStopped ==> !restored && docker.containers == old(docker.containers)
      ensures restored && old(Kept(app)) && Recoverable(m.job.held.undo, before) ==>
              PutBack(m.job.held.undo, before, app)
    {
      if !m.job.held.appStopped { return false; }
      ghost var names := docker.containers.names;
      restored := Restore();
      if restored && old(Kept(app)) && Recoverable(m.job.held.undo, before) {
        KeptIsPutBack(m.job.held.undo, before, app, names[RetainedName(name)]);
      }
    }

    /** Records a failure, after trying to restore the previous App. */
    method FailOrRestore(at: string, message: string, code: ErrorCode, ghost app: App, ghost before: Web)
      returns (answered: bool)
      requires Valid() && m.job.Job? && m.disk.stage.Worked()
      requires m.job.held.stage.Worked() || (m.job.held.stage.Succeeded? && !m.job.saved)
      modifies this`m, docker, site
      ensures Valid() && m.job.Job? && site.rewritten == old(site.rewritten)
      ensures docker.start == old(docker.start) && old(docker.history) <= docker.history
      ensures !m.disk.stage.Succeeded? && (m.disk.stage.Failed? ==> m.disk.appStopped == old(m).job.held.appStopped)
      ensures m.disk.appStopped ==> old(m).job.held.appStopped
      ensures answered ==> m.disk.stage.Failed? || m.disk.stage.RecoveryRequired?
      ensures answered ==> code !in {Capacity, WorkActive, PreflightUnsupported}
      ensures !old(m).job.held.appStopped ==> docker.containers == old(docker.containers)
      ensures m.disk.stage.Failed? && m.disk.restored == Some(true) && old(Kept(app))
              && Recoverable(old(m).job.held.undo, before) ==>
                PutBack(m.disk.undo, before, app)
    {
      var restored := RestoreIfStopped(app, before);
      var ok := Conclude(restored, at, message, code);
      answered := ok && code !in {Capacity, WorkActive, PreflightUnsupported};
    }

    /** A receipt whose earlier run, if any, had not stopped the App. */
    predicate Fresh(r: Receipt) { !r.stage.Terminal() && !r.appStopped }

    /** The job once it has loaded and marked its receipt. */
    method Work(candidate: Candidate, extracted: Tree, timeout: nat, at: string, checks: Checks, ghost app: Option<App>)
      returns (answered: bool)
      requires Valid() && Working() && m.job.held.stage.Applying? && m.disk == m.job.held
      requires app == if name in docker.containers.names then Some(docker.containers.names[name]) else None
      modifies this`m, this`retainedFree, docker, site
      ensures Valid() && docker.start == old(docker.start) && old(docker.history) <= docker.history
      ensures !LeadsTo(old(site.web), PartialName(candidate.sourceCommit)) ==> site.rewritten == old(site.rewritten)
      ensures m.disk.stage.Succeeded? ==> UpdatedTo(candidate, site.Digest(extracted))
      ensures Fresh(old(m).disk) && m.disk.stage.Succeeded? ==> app.Some? && RetainedIs(app.value)
      ensures Fresh(old(m).disk) && m.disk.appStopped ==> checks.Pass()
      ensures m.disk.stage.Failed? && !m.disk.appStopped && app.Some? ==> Serving(app.value)
      ensures Fresh(old(m).disk) && m.disk.stage.Failed? && m.disk.restored == Some(true) ==>
                && app.Some? && PutBack(m.disk.undo, old(site.web), app.value)
                && (RetainedName(name) !in old(docker.containers.names) ==> retainedFree)
    {
      answered := Attempt(candidate, extracted, timeout, at, checks, app);
      if !answered {
        var message: string, code: ErrorCode := *, *;
        ghost var previous := if app.Some? then app.value else App(0, "", false);
        answered := FailOrRestore(at, message, code, previous, old(site.web));
      }
    }

    /**
     * One apply run, under every pattern of command, write and check failures. `Valid()` says that at
     * every moment at most one container wrote the Data Root and that none did when one was launched.
     */
    method Apply(candidate: Candidate, extracted: Tree, timeout: nat, at: string, jobName: string, checks: Checks,
                 ghost app: Option<App>)
      returns (answered: bool)
      requires Valid() && m.job.NoJob?
      requires app == if name in docker.containers.names then Some(docker.containers.names[name]) else None
      modifies this`m, this`retainedFree, docker, site
      ensures Valid() && m.job.NoJob? && docker.start == old(docker.start) && old(docker.history) <= docker.history
      // A terminal receipt is left alone.
      ensures old(m).disk.stage.Terminal() ==>
                m == old(m) && docker.containers == old(docker.containers) && site.web == old(site.web)
      // The live Web tree is not rewritten in place.
      ensures !LeadsTo(old(site.web), PartialName(candidate.sourceCommit)) ==> site.rewritten == old(site.rewritten)
      // Success: the candidate runs under the App's name and the previous App is retained.
      ensures !old(m).disk.stage.Terminal() && m.disk.stage.Succeeded? ==> UpdatedTo(candidate, site.Digest(extracted))
      ensures Fresh(old(m).disk) && m.disk.stage.Succeeded? ==> app.Some? && RetainedIs(app.value)
      // The App is interrupted only after every observation answered yes; the answers are parameters.
      ensures Fresh(old(m).disk) && m.disk.appStopped ==> checks.Pass()
      // Failure before the stop: the App keeps its name.
      ensures Fresh(old(m).disk) && m.disk.stage.Failed? && !m.disk.appStopped && app.Some? ==> Serving(app.value)
      // Failure with restoration: the previous Web tree is served, and the previous App runs under its
      // name exactly when the retained name was free as the App was stopped.
      ensures Fresh(old(m).disk) && m.disk.stage.Failed? && m.disk.restored == Some(true) ==>
                && app.Some? && PutBack(m.disk.undo, old(site.web), app.value)
                && (RetainedName(name) !in old(docker.containers.names) ==> retainedFree)
    {
      if m.disk.stage.Terminal() { return true; }
      var durable := *;
      if !durable { return false; }
      StepKeepsSound(f, m, ApplyLoad(at, jobName, true));
      var loaded := Load(m.disk, at, jobName);
      m := Machine(loaded, Job(loaded, true), m.launches);
      answered := Work(candidate, extracted, timeout, at, checks, app);
      m := m.(job := NoJob);
    }
  }

  /**
   * An older retained App whose inspection failed is taken for the previous one: every command below
   * is one the job issues, with a possible exit, and the restoration succeeds with the wrong App.
   */
  lemma StaleRetainedIsStarted(name: string, request: string, app: App, older: App)
    requires app.id != older.id
    ensures var retained, failed := RetainedName(name), FailedName(name, request);
            var both := map[name := app, retained := older];
            var moved := map[failed := app, retained := older];
            && Possible(Containers(both, {app.id}), Stop(name), Done, Containers(both, {}))
            && Possible(Containers(both, {}), Rename(name, retained), Nonzero, Containers(both, {}))
            && Possible(Containers(both, {}), Stop(name), Done, Containers(both, {}))
            && Possible(Containers(both, {}), Rename(name, failed), Done, Containers(moved, {}))
            && Possible(Containers(moved, {}), Rename(retained, name), Done,
                        Containers(map[failed := app, name := older], {}))
            && Possible(Containers(map[failed := app, name := older], {}), Command.Start(name), Done,
                        Containers(map[failed := app, name := older], {older.id}))
  {
    NamesApart(name, request);
    var retained, failed := RetainedName(name), FailedName(name, request);
    var both := map[name := app, retained := older];
    assert (both - {name})[failed := app] == map[failed := app, retained := older];
    assert (map[failed := app, retained := older] - {retained})[name := older] == map[failed := app, name := older];
  }
}
