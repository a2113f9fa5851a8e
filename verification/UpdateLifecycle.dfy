/**
 * The durable receipt of one App update and the interleavings of `start`, `status` and the launched
 * `--apply` job over it. Each `start` and `status` call is atomic; the job's own writes interleave
 * with them freely, any write may fail, and the job may die at any point and be run again.
 */
module UpdateLifecycle {
  import opened Common

  /** The object keys the helper reads; every other key is carried along by name. */
  datatype Key =
    | AppDigest | SourceCommit | Tag
    | RunningTurns | PendingTurns | QueuedAdmissions | OpenAttempts | ClosingAttempts | InFlightCommands
    | Counts | WorkspaceCount | ObservedAt | State
    | TargetRelease | ExpectedCurrentImageId | ObservedCurrentImageId | InterruptionScope | RecoveryLimitations
    | SafetyEvidence | DeploymentBindings | Preflight
    | SchemaVersion | RequestId | SourceKey | StageKey | OutcomeKey | ErrorCodeKey
    | PreparedHelperSha256 | ApprovalSummary
    | PreparedAt | StartedAt | CompletedAt | JobId | CandidateImageId | PreviousImageId | CandidateBoot | PreviousBoot
    | PreviousAppRestored | ErrorKey | PredicatesKey | AppStopped
    | AcceptingProductWork | BlockingReasons | BootId | ImageId
    | HelperReachable | ImageMatch | NewBoot | NoBlockingReadiness | RetainedAuthRead | SourceMatch
    | NanohostReady | WebAssets | HelperSha256
    | RetainedContainerName | PreviousWebAssets | WebPreviousDigest | WebStagedDigest
    | Other(name: string)

  datatype Json =
    | Null
    | Bool(b: bool)
    | Num(n: int)
    | Str(s: string)
    | Arr(items: seq<Json>)
    | Obj(fields: map<Key, Json>)

  /** The textual shapes the helper recognises. */
  datatype Formats = Formats(
    digest: string -> bool,
    commit: string -> bool,
    tag: string -> bool,
    bootId: string -> bool,
    sha256: string -> bool,
    timestamp: string -> bool,
    redact: string -> string,
    text: Json -> string)

  datatype Stage = Prepared | Launching | Applying | Verifying | Succeeded | Failed | Unknown | RecoveryRequired
  {
    predicate InProgress() { Launching? || Applying? || Verifying? }
    predicate Terminal() { Succeeded? || Failed? || Unknown? || RecoveryRequired? }
    predicate Worked() { Applying? || Verifying? }
  }

  datatype ErrorCode =
    | Busy | WorkActive | PreflightUnsupported | Capacity | Expired | InvalidRequest | NotFound
    | NeedsRecovery | Unconfigured | Unavailable

  datatype Source = Source(tag: string, sourceCommit: string, appDigest: string)

  datatype Boot = Boot(accepting: bool, reasons: seq<string>, bootId: string, imageId: Option<string>,
                       sourceCommit: Option<string>)

  datatype Summary = Summary(
    target: Source, expected: string, observed: string, preflight: Json, scope: string, limitations: seq<string>)

  /** The health checks of a candidate; the last two are absent when they do not apply. */
  datatype Predicates = Predicates(
    acceptingProductWork: bool, helperReachable: bool, imageMatch: bool, newBoot: bool, noBlockingReadiness: bool,
    retainedAuthRead: bool, sourceMatch: bool, nanohostReady: Option<bool>, webAssets: Option<bool>)
  {
    predicate Required() {
      && acceptingProductWork && helperReachable && imageMatch && newBoot && noBlockingReadiness
      && retainedAuthRead && sourceMatch && nanohostReady != Some(false) && webAssets != Some(false)
    }
  }

  /** What a restoration needs: where the App is retained, and the Web tree served before. */
  datatype Undo = Undo(retained: string, previousWeb: string, previousDigest: string, stagedDigest: string)

  datatype Receipt = Receipt(
    requestId: string, source: Source, expected: string, preparedAt: string, helperSha256: string, summary: Summary,
    stage: Stage, startedAt: Option<string>, jobId: Option<string>, completedAt: Option<string>,
    appStopped: bool, restored: Option<bool>, error: Option<string>, errorCode: Option<ErrorCode>,
    candidateImageId: Option<string>, previousImageId: Option<string>,
    candidateBoot: Option<Boot>, previousBoot: Option<Boot>, predicates: Option<Predicates>,
    undo: Option<Undo>, evidence: map<string, Json>)

  // ----- What the job may write -----

  predicate Verified(f: Formats, r: Receipt) {
    && r.predicates.Some? && r.predicates.value.Required()
    && r.candidateBoot.Some? && r.previousBoot.Some? && r.candidateBoot.value.bootId != r.previousBoot.value.bootId
    && f.bootId(r.candidateBoot.value.bootId) && r.candidateBoot.value.accepting
    && r.candidateBoot.value.sourceCommit.Some? && f.commit(r.candidateBoot.value.sourceCommit.value)
  }

  /** What a receipt claims when it reports an end. */
  predicate Evidenced(f: Formats, r: Receipt) {
    && (r.stage.Prepared? ==> r.startedAt == None && r.jobId == None)
    && (r.stage.Succeeded? ==> Verified(f, r) && r.restored == Some(false) && r.error == None)
    && (r.stage.Failed? ==> r.restored == Some(r.appStopped) && r.errorCode.Some? && r.error.Some?)
    && (r.stage.RecoveryRequired? ==> r.appStopped && r.restored == Some(false) && r.errorCode.Some? && r.error.Some?)
    && (r.stage.Unknown? ==> r.error.Some?)
    && (r.stage.Terminal() ==> r.completedAt.Some?)
  }

  predicate SameBinding(h: Receipt, n: Receipt) {
    && n.requestId == h.requestId && n.source == h.source && n.expected == h.expected && n.preparedAt == h.preparedAt
    && n.helperSha256 == h.helperSha256 && n.summary == h.summary && n.startedAt == h.startedAt && n.jobId == h.jobId
  }

  /** One version of the receipt held by the job, and the next one it tries to write. */
  predicate Writes(f: Formats, h: Receipt, n: Receipt) {
    && SameBinding(h, n) && Evidenced(f, n) && (h.appStopped ==> n.appStopped)
    && match n.stage
       case Applying => h.stage.Applying?
       case Verifying => h.stage.Worked() && n.appStopped
       case Succeeded => h.stage.Verifying?
       case Failed => h.stage.Worked() || h.stage.Succeeded?
       case RecoveryRequired => h.stage.Worked() || h.stage.Succeeded?
       case _ => false
  }

  // ----- The operations -----

  /** The running job with the receipt it holds; `saved` tells whether that version reached the disk. */
  datatype Job = NoJob | Job(held: Receipt, saved: bool)

  datatype Machine = Machine(disk: Receipt, job: Job, launches: nat)

  /** What `start` or `status` sees of a launch: whether 30 seconds passed, and whether systemd reports the job live. */
  datatype Sight = Sight(aged: bool, live: bool, at: string, durable: bool)

  datatype Label =
    | Status(sight: Sight)
    | Start(sight: Sight, expired: bool, busy: bool, jobName: string, launched: bool, failure: string, recorded: bool)
    | ApplyLoad(at: string, jobName: string, durable: bool)
    | ApplyWrite(next: Receipt, durable: bool)
    | ApplyEnd

  function MarkUnknown(r: Receipt, s: Sight): Receipt {
    if r.stage.InProgress() && r.startedAt.Some? && s.aged && !s.live && s.durable then
      r.(stage := Unknown, completedAt := Some(s.at), error := Some("Launch intent has no live job after 30 seconds."))
    else r
  }

  function Launch(r: Receipt, at: string, jobName: string): Receipt {
    r.(stage := Launching, startedAt := Some(at), jobId := Some(jobName))
  }

  function LaunchFailed(r: Receipt, at: string, failure: string): Receipt {
    r.(stage := Unknown, completedAt := Some(at), error := Some(failure))
  }

  function Load(r: Receipt, at: string, jobName: string): Receipt {
    r.(stage := Applying,
       startedAt := if r.startedAt.None? then Some(at) else r.startedAt,
       jobId := if r.jobId.None? then Some(jobName) else r.jobId)
  }

  /** The job goes on after a failed write, but returns after a durable terminal one. */
  predicate MayWrite(f: Formats, j: Job, next: Receipt) {
    j.Job? && Writes(f, j.held, next) && !(j.saved && j.held.stage.Terminal())
  }

  function Do(f: Formats, m: Machine, l: Label): Machine {
    match l
    case Status(s) => m.(disk := MarkUnknown(m.disk, s))
    case Start(s, expired, busy, name, launched, failure, recorded) =>
      var seen := MarkUnknown(m.disk, s);
      if !seen.stage.Prepared? then m.(disk := seen)
      else if expired || busy || !s.durable then m
      else
        var intent := Launch(seen, s.at, name);
        Machine(if launched || !recorded then intent else LaunchFailed(intent, s.at, failure), m.job, m.launches + 1)
    case ApplyLoad(at, name, durable) =>
      if m.job.Job? || m.disk.stage.Terminal() || !durable then m
      else m.(disk := Load(m.disk, at, name), job := Job(Load(m.disk, at, name), true))
    case ApplyWrite(next, durable) =>
      if !MayWrite(f, m.job, next) then m
      else m.(disk := if durable then next else m.disk, job := Job(next, durable))
    case ApplyEnd => m.(job := NoJob)
  }

  function Play(f: Formats, m: Machine, ls: seq<Label>): Machine
    decreases |ls|
  {
    if ls == [] then m else Play(f, Do(f, m, ls[0]), ls[1..])
  }

  // ----- What every run keeps -----

  /** Whoever writes, the disk holds an evidenced receipt of this request, launched at most once. */
  predicate Sound(f: Formats, m: Machine) {
    && Evidenced(f, m.disk) && m.launches <= 1
    && (m.disk.stage.Prepared? ==> m.launches == 0 && m.job.NoJob?)
    && (m.disk.stage.InProgress() ==> m.disk.startedAt.Some?)
    && (m.job.Job? ==> SameBinding(m.disk, m.job.held) && Evidenced(f, m.job.held) && m.disk.startedAt.Some?
                       && (m.disk.appStopped ==> m.job.held.appStopped)
                       && !m.disk.stage.Launching? && (m.job.held.stage.Worked() || m.job.held.stage.Terminal()))
  }

  lemma MarkUnknownKeeps(f: Formats, m: Machine, s: Sight)
    requires Sound(f, m)
    ensures Sound(f, m.(disk := MarkUnknown(m.disk, s)))
  {
  }

  lemma StartKeeps(f: Formats, m: Machine, l: Label)
    requires Sound(f, m) && l.Start?
    ensures Sound(f, Do(f, m, l)) && (Do(f, m, l).disk.stage.Prepared? ==> Do(f, m, l).disk == m.disk)
  {
    MarkUnknownKeeps(f, m, l.sight);
  }

  lemma WriteKeeps(f: Formats, m: Machine, l: Label)
    requires Sound(f, m) && l.ApplyWrite? && MayWrite(f, m.job, l.next)
    ensures Sound(f, Do(f, m, l))
  {
  }

  lemma StepKeepsSound(f: Formats, m: Machine, l: Label)
    requires Sound(f, m)
    ensures Sound(f, Do(f, m, l)) && (Do(f, m, l).disk.stage.Prepared? ==> Do(f, m, l).disk == m.disk)
  {
    match l
    case Status(s) => MarkUnknownKeeps(f, m, s);
    case Start(_, _, _, _, _, _, _) => StartKeeps(f, m, l);
    case ApplyLoad(_, _, _) =>
    case ApplyWrite(next, _) => if MayWrite(f, m.job, next) { WriteKeeps(f, m, l); }
    case ApplyEnd =>
  }

  /** Every run stays sound, never returns to prepared and never launches a second job. */
  lemma {:induction false} RunStaysSound(f: Formats, m: Machine, ls: seq<Label>)
    requires Sound(f, m)
    ensures Sound(f, Play(f, m, ls)) && Play(f, m, ls).launches <= 1
    ensures Play(f, m, ls).disk.stage.Prepared? ==> Play(f, m, ls).disk == m.disk
    decreases |ls|
  {
    if ls != [] {
      StepKeepsSound(f, m, ls[0]);
      RunStaysSound(f, Do(f, m, ls[0]), ls[1..]);
    }
  }

  // ----- Terminal receipts -----

  /** A call made while the job runs sees it live. */
  predicate Truthful(m: Machine, l: Label) {
    (l.Status? || l.Start?) && m.job.Job? ==> l.sight.live
  }

  predicate TruthfulRun(f: Formats, m: Machine, ls: seq<Label>)
    decreases |ls|
  {
    ls != [] ==> Truthful(m, ls[0]) && TruthfulRun(f, Do(f, m, ls[0]), ls[1..])
  }

  /** The receipt already reports an end while the job still has a version to write. */
  predicate Overwritable(m: Machine) {
    && m.disk.stage.Terminal() && m.job.Job?
    && (m.job.held.stage.Worked() || (m.job.held.stage.Succeeded? && !m.job.saved))
  }

  function FailedWith(h: Receipt, message: string): Receipt {
    h.(stage := Failed, restored := Some(h.appStopped), errorCode := Some(Unavailable), error := Some(message),
       completedAt := Some(""))
  }

  lemma OnlyTheJobOverwrites(f: Formats, m: Machine, l: Label)
    requires Sound(f, m) && m.disk.stage.Terminal() && Do(f, m, l).disk != m.disk
    ensures Overwritable(m)
  {
    assert l.ApplyWrite? && MayWrite(f, m.job, l.next);
  }

  lemma LateFailureOverwrites(f: Formats, m: Machine, message: string)
    requires Sound(f, m) && Overwritable(m) && m.disk.error != Some(message)
    ensures Do(f, m, ApplyWrite(FailedWith(m.job.held, message), true)).disk != m.disk
  {
    var next := FailedWith(m.job.held, message);
    assert Evidenced(f, next) && SameBinding(m.job.held, next);
  }

  /** A terminal receipt can be replaced exactly when the job still has a version to write. */
  lemma OverwriteExactly(f: Formats, m: Machine)
    requires Sound(f, m) && m.disk.stage.Terminal()
    ensures Overwritable(m) <==> exists l :: Do(f, m, l).disk != m.disk
  {
    if Overwritable(m) {
      LateFailureOverwrites(f, m, if m.disk.error == Some("") then " " else "");
    }
    if l :| Do(f, m, l).disk != m.disk {
      OnlyTheJobOverwrites(f, m, l);
    }
  }

  lemma TruthfulStep(f: Formats, m: Machine, l: Label)
    requires Sound(f, m) && Truthful(m, l) && !Overwritable(m)
    ensures !Overwritable(Do(f, m, l))
    ensures m.disk.stage.Terminal() ==> Do(f, m, l).disk == m.disk
  {
    if l.Status? || l.Start? {
      assert m.job.Job? ==> MarkUnknown(m.disk, l.sight) == m.disk;
    }
  }

  /** While a running job is seen live, no run replaces a terminal receipt. */
  lemma {:induction false} TerminalAbsorbs(f: Formats, m: Machine, ls: seq<Label>)
    requires Sound(f, m) && !Overwritable(m) && TruthfulRun(f, m, ls)
    ensures !Overwritable(Play(f, m, ls))
    ensures m.disk.stage.Terminal() ==> Play(f, m, ls).disk == m.disk
    decreases |ls|
  {
    if ls != [] {
      StepKeepsSound(f, m, ls[0]);
      TruthfulStep(f, m, ls[0]);
      TerminalAbsorbs(f, Do(f, m, ls[0]), ls[1..]);
    }
  }

  /** One status call that misses a running job is enough for a terminal receipt to be replaced. */
  lemma MissedJobIsOverwritten(f: Formats, m: Machine, at: string)
    requires Sound(f, m) && m.disk.stage.Prepared?
    ensures var launch := Start(Sight(false, false, at, true), false, false, "job", true, "", true);
            var missed := Status(Sight(true, false, at, true));
            var late := ApplyWrite(FailedWith(Load(Launch(m.disk, at, "job"), at, "job"), "late"), true);
            && Play(f, m, [launch, ApplyLoad(at, "job", true), missed]).disk.stage.Unknown?
            && Play(f, m, [launch, ApplyLoad(at, "job", true), missed, late]).disk.stage.Failed?
  {
    var launch := Start(Sight(false, false, at, true), false, false, "job", true, "", true);
    var load := ApplyLoad(at, "job", true);
    var missed := Status(Sight(true, false, at, true));
    var late := ApplyWrite(FailedWith(Load(Launch(m.disk, at, "job"), at, "job"), "late"), true);
    var m1 := Do(f, m, launch);
    var m2 := Do(f, m1, load);
    var m3 := Do(f, m2, missed);
    assert m1.disk == Launch(m.disk, at, "job") && m2.job == Job(Load(m1.disk, at, "job"), true);
    PlayThree(f, m, launch, load, missed);
    PlayThree(f, m1, load, missed, late);
    assert [launch, load, missed, late][1..] == [load, missed, late];
  }

  lemma PlayThree(f: Formats, m: Machine, a: Label, b: Label, c: Label)
    ensures Play(f, m, [a, b, c]) == Do(f, Do(f, Do(f, m, a), b), c)
  {
    assert [a, b, c][1..] == [b, c] && [b, c][1..] == [c] && [c][1..] == [];
    assert Play(f, Do(f, m, a), [b, c]) == Play(f, Do(f, Do(f, m, a), b), [c]);
  }
}
