/**
 * The JSON form of App-update receipts: the validator every load goes through, the public
 * projections, and the proof that whatever the helper writes it can load and project again.
 */
module UpdateFormat {
  import opened Common
  import opened UpdateLifecycle

  type Fields = map<Key, Json>

  /** A dictionary lookup that yields null for a missing key. */
  function Get(o: Fields, key: Key): Json {
    if key in o then o[key] else Null
  }

  predicate Truthy(j: Json) {
    match j
    case Null => false
    case Bool(b) => b
    case Num(n) => n != 0
    case Str(s) => s != ""
    case Arr(items) => items != []
    case Obj(fields) => fields != map[]
  }

  /** The text of a field, empty when the field is missing or falsy. */
  function TextOf(f: Formats, j: Json): string {
    if j.Str? then j.s else if Truthy(j) then f.text(j) else ""
  }

  // ----- Release sources and work counts -----

  const SourceKeys: set<Key> := {AppDigest, SourceCommit, Tag}

  /** A version tag, an image digest and a source commit, each in its own format. */
  predicate SourceFieldsOk(f: Formats, fields: map<Key, Json>) {
    && Get(fields, Tag).Str? && f.tag(Get(fields, Tag).s) && Get(fields, Tag).s != "latest"
    && Get(fields, AppDigest).Str? && f.digest(Get(fields, AppDigest).s)
    && Get(fields, SourceCommit).Str? && f.commit(Get(fields, SourceCommit).s)
  }

  /** Validates a release identity; an observed one may carry further fields, which are dropped. */
  function RequireSource(f: Formats, value: Json, observed: bool): (r: Result<Json, ErrorCode>)
    ensures r.Ok? ==> r.value.Obj? && r.value.fields.Keys == SourceKeys && SourceFieldsOk(f, r.value.fields)
    ensures r.Ok? ==>
              value.Obj? && forall k <- SourceKeys :: k in value.fields && r.value.fields[k] == value.fields[k]
  {
    var shaped := value.Obj? && (observed || value.fields.Keys <= SourceKeys);
    :- Need(shaped, InvalidRequest);
    var (tag, commit, digest) := (Get(value.fields, Tag), Get(value.fields, SourceCommit),
                                  Get(value.fields, AppDigest));
    :- Need(tag.Str? && f.tag(tag.s) && tag.s != "latest", InvalidRequest);
    :- Need(digest.Str? && f.digest(digest.s), InvalidRequest);
    :- Need(commit.Str? && f.commit(commit.s), InvalidRequest);
    Ok(Obj(map[AppDigest := digest, SourceCommit := commit, Tag := tag]))
  }

  lemma SourceIdempotent(f: Formats, value: Json, observed: bool)
    ensures var r := RequireSource(f, value, observed);
            r.Ok? ==> RequireSource(f, r.value, true) == r && RequireSource(f, r.value, false) == r
  {
  }

  const WorkCountKeys: set<Key> :=
    {RunningTurns, PendingTurns, QueuedAdmissions, OpenAttempts, ClosingAttempts, InFlightCommands}

  predicate CountsOk(counts: Json) {
    && counts.Obj? && counts.fields.Keys == WorkCountKeys
    && forall k <- counts.fields :: counts.fields[k].Num? && counts.fields[k].n >= 0
  }

  predicate AllZero(counts: Json)
    requires CountsOk(counts)
  {
    forall k <- counts.fields :: counts.fields[k].n == 0
  }

  /** Keeps the closed work-count core of a preflight whose state agrees with its counts. */
  function ParseWorkPreflight(f: Formats, body: Json): (r: Result<Json, ErrorCode>)
    ensures r.Ok? ==> r.value.Obj? && CountsOk(Get(r.value.fields, Counts))
                      && (Get(r.value.fields, State) == Str("idle") <==> AllZero(Get(r.value.fields, Counts)))
  {
    var shaped := body.Obj?;
    :- Need(shaped, Unavailable);
    var counts, workspaces := Get(body.fields, Counts), Get(body.fields, WorkspaceCount);
    var observedAt, state := Get(body.fields, ObservedAt), Get(body.fields, State);
    :- Need(CountsOk(counts) && workspaces.Num? && workspaces.n >= 0, Unavailable);
    :- Need(observedAt.Str? && f.timestamp(observedAt.s) && state in {Str("idle"), Str("busy")}, Unavailable);
    :- Need((state == Str("idle")) == AllZero(counts), Unavailable);
    Ok(Obj(map[ObservedAt := observedAt, WorkspaceCount := workspaces, Counts := counts, State := state]))
  }

  lemma PreflightIdempotent(f: Formats, body: Json)
    ensures var r := ParseWorkPreflight(f, body); r.Ok? ==> ParseWorkPreflight(f, r.value) == r
  {
  }

  // ----- The approval summary -----

  predicate Line(f: Formats, j: Json) {
    j.Str? && 1 <= |j.s| <= 512 && f.redact(j.s) == j.s
  }

  predicate DigestText(f: Formats, j: Json) {
    j.Str? && f.digest(j.s)
  }

  predicate TextsOk(f: Formats, scope: Json, limits: Json) {
    Line(f, scope) && limits.Arr? && 1 <= |limits.items| <= 16 && forall l <- limits.items :: Line(f, l)
  }

  /** Deployment bindings held and no work was active. */
  function ProjectEvidence(f: Formats, evidence: Json): (r: Result<Json, ErrorCode>) {
    var bound := evidence.Obj? && Get(evidence.fields, DeploymentBindings) == Bool(true);
    :- Need(bound, NeedsRecovery);
    var preflight := ParseWorkPreflight(f, Get(evidence.fields, Preflight));
    :- Need(preflight.Ok? && Get(preflight.value.fields, State) == Str("idle"), NeedsRecovery);
    Ok(Obj(map[DeploymentBindings := Bool(true), Preflight := preflight.value]))
  }

  lemma EvidenceIdempotent(f: Formats, evidence: Json)
    ensures var r := ProjectEvidence(f, evidence); r.Ok? ==> ProjectEvidence(f, r.value) == r
  {
    if ProjectEvidence(f, evidence).Ok? {
      PreflightIdempotent(f, Get(evidence.fields, Preflight));
    }
  }

  /** Validates retained preparation evidence and keeps only the review core. */
  function ProjectApprovalSummary(f: Formats, summary: Json): (r: Result<Json, ErrorCode>)
    ensures r.Ok? ==> r.value.Obj?
  {
    var shaped := summary.Obj?;
    :- Need(shaped, NeedsRecovery);
    var s := summary.fields;
    var source, evidence := RequireSource(f, Get(s, TargetRelease), true), ProjectEvidence(f, Get(s, SafetyEvidence));
    var expected, observed := Get(s, ExpectedCurrentImageId), Get(s, ObservedCurrentImageId);
    :- Need(source.Ok? && DigestText(f, expected) && DigestText(f, observed), NeedsRecovery);
    :- Need(TextsOk(f, Get(s, InterruptionScope), Get(s, RecoveryLimitations)) && evidence.Ok?, NeedsRecovery);
    Ok(Obj(map[
             TargetRelease := source.value, ExpectedCurrentImageId := expected, ObservedCurrentImageId := observed,
             InterruptionScope := Get(s, InterruptionScope), RecoveryLimitations := Get(s, RecoveryLimitations),
             SafetyEvidence := evidence.value]))
  }

  /** Projecting a projected summary changes nothing. */
  lemma SummaryProjectionIdempotent(f: Formats, summary: Json)
    ensures var r := ProjectApprovalSummary(f, summary); r.Ok? ==> ProjectApprovalSummary(f, r.value) == r
  {
    if ProjectApprovalSummary(f, summary).Ok? {
      SourceIdempotent(f, Get(summary.fields, TargetRelease), true);
      EvidenceIdempotent(f, Get(summary.fields, SafetyEvidence));
    }
  }

  // ----- Loading -----

  function StageName(s: Stage): string {
    match s
    case Prepared => "prepared" case Launching => "launching" case Applying => "applying" case Verifying => "verifying"
    case Succeeded => "succeeded" case Failed => "failed" case Unknown => "unknown"
    case RecoveryRequired => "recovery_required"
  }

  const StageNames: set<string> :=
    {"prepared", "launching", "applying", "verifying", "succeeded", "failed", "unknown", "recovery_required"}

  function CollapseOutcome(stage: string): string {
    if stage in {"launching", "applying", "verifying"} then "running" else stage
  }

  function CodeName(c: ErrorCode): string {
    match c
    case Busy => "app_update_busy" case WorkActive => "app_update_work_active"
    case PreflightUnsupported => "app_update_preflight_unsupported" case Capacity => "app_update_capacity"
    case Expired => "app_update_expired" case InvalidRequest => "app_update_invalid_request"
    case NotFound => "app_update_not_found" case NeedsRecovery => "app_update_recovery_required"
    case Unconfigured => "app_update_unconfigured" case Unavailable => "app_update_unavailable"
  }

  const CodeNames: set<string> := {
    "app_update_busy", "app_update_work_active", "app_update_preflight_unsupported", "app_update_capacity",
    "app_update_expired", "app_update_invalid_request", "app_update_not_found", "app_update_recovery_required",
    "app_update_unconfigured", "app_update_unavailable"}

  predicate BootIdentified(f: Formats, boot: Json) {
    && boot.Obj? && f.bootId(TextOf(f, Get(boot.fields, BootId)))
    && f.commit(TextOf(f, Get(boot.fields, SourceCommit)))
  }

  /** The lifecycle part of the receipt checks. */
  predicate LifecycleOk(f: Formats, p: Fields) {
    var stage, outcome, code := Get(p, StageKey), Get(p, OutcomeKey), Get(p, ErrorCodeKey);
    && stage.Str? && stage.s in StageNames && outcome in {Null, Str(CollapseOutcome(stage.s))}
    && (stage.s == "succeeded" ==> BootIdentified(f, Get(p, CandidateBoot)))
    && (code == Null || (code.Str? && code.s in CodeNames))
  }

  /** A retained summary must agree with the prepared binding. */
  predicate SummaryAgrees(f: Formats, summary: Json, source: Json, expected: Json) {
    summary == Null ||
    var s := ProjectApprovalSummary(f, summary);
    s.Ok? && Get(s.value.fields, TargetRelease) == source && Get(s.value.fields, ExpectedCurrentImageId) == expected
  }

  predicate HelperIdentityOk(f: Formats, sha: Json) {
    sha == Null || f.sha256(TextOf(f, sha))
  }

  predicate IdentityOk(p: Fields, filename: string) {
    Get(p, SchemaVersion) in {Num(1), Bool(true)} && Get(p, RequestId).Str? && filename == Get(p, RequestId).s + ".json"
  }

  predicate Acceptable(f: Formats, p: Fields, filename: string) {
    var source, expected := RequireSource(f, Get(p, SourceKey), true), Get(p, ExpectedCurrentImageId);
    && IdentityOk(p, filename) && source.Ok? && DigestText(f, expected) && LifecycleOk(f, p)
    && HelperIdentityOk(f, Get(p, PreparedHelperSha256))
    && SummaryAgrees(f, Get(p, ApprovalSummary), source.value, expected)
  }

  /** Checks one receipt file and normalises its binding. */
  function ValidateReceipt(f: Formats, parsed: Json, filename: string): Result<Json, ErrorCode> {
    var acceptable := parsed.Obj? && Acceptable(f, parsed.fields, filename);
    :- Need(acceptable, NeedsRecovery);
    var p := parsed.fields;
    Ok(Obj(p[SourceKey := RequireSource(f, Get(p, SourceKey), true).value]
            [OutcomeKey := Str(CollapseOutcome(Get(p, StageKey).s))]))
  }

  /** A loaded receipt, written back, loads as itself: the file name, binding and lifecycle survive. */
  lemma LoadIsStable(f: Formats, parsed: Json, filename: string)
    ensures var r := ValidateReceipt(f, parsed, filename); r.Ok? ==> ValidateReceipt(f, r.value, filename) == r
  {
    var r := ValidateReceipt(f, parsed, filename);
    if r.Ok? {
      var p, q := parsed.fields, r.value.fields;
      SourceIdempotent(f, Get(p, SourceKey), true);
      assert Acceptable(f, q, filename);
      NormalForm(f, q, filename);
    }
  }

  // ----- The public status -----

  function Pick(o: Fields, keys: set<Key>): Fields {
    map k | k in keys :: Get(o, k)
  }

  const BootKeys: set<Key> := {AcceptingProductWork, BlockingReasons, BootId, ImageId, SourceCommit}

  const PredicateKeys: set<Key> := {
    AcceptingProductWork, HelperReachable, ImageMatch, NanohostReady, NewBoot, NoBlockingReadiness, RetainedAuthRead,
    SourceMatch, WebAssets}

  const PublicKeys: set<Key> := {
    ApprovalSummary, PreparedHelperSha256, CandidateBoot, CandidateImageId, CompletedAt, ErrorKey, ErrorCodeKey,
    ExpectedCurrentImageId, JobId, OutcomeKey, PredicatesKey, PreparedAt, PreviousAppRestored, PreviousBoot,
    PreviousImageId, RequestId, SourceKey, StageKey, StartedAt}

  function Clip(text: string): string { if |text| <= 512 then text else text[..512] }

  function ProjectBoot(boot: Json): Json {
    if boot.Obj? then Obj(Pick(boot.fields, BootKeys)) else boot
  }

  function ProjectPredicates(stage: string, predicates: Json): Json {
    if stage in {"prepared", "launching", "applying"} || !predicates.Obj? then Null
    else Obj(Pick(predicates.fields, PredicateKeys))
  }

  function ProjectError(f: Formats, error: Json): Json {
    if !Truthy(error) then error
    else var text := Clip(f.redact(TextOf(f, error))); Str(if text == "" then "App-update helper failed." else text)
  }

  function ProjectSummary(f: Formats, summary: Json): Result<Json, ErrorCode> {
    if summary == Null then Ok(Null) else ProjectApprovalSummary(f, summary)
  }

  function StatusField(f: Formats, helper: string, r: Fields, k: Key): Json {
    match k
    case HelperSha256 => Str(helper)
    case ApprovalSummary => var s := ProjectSummary(f, Get(r, ApprovalSummary)); if s.Ok? then s.value else Null
    case StageKey => Str(TextOf(f, Get(r, StageKey)))
    case OutcomeKey => Str(CollapseOutcome(TextOf(f, Get(r, StageKey))))
    case CandidateBoot => ProjectBoot(Get(r, k))
    case PreviousBoot => ProjectBoot(Get(r, k))
    case PredicatesKey => ProjectPredicates(TextOf(f, Get(r, StageKey)), Get(r, k))
    case ErrorKey => ProjectError(f, Get(r, k))
    case _ => Get(r, k)
  }

  predicate SuccessIdentified(f: Formats, e: Fields) {
    TextOf(f, Get(e, StageKey)) == "succeeded" ==> BootIdentified(f, ProjectBoot(Get(e, CandidateBoot)))
  }

  /** The status a caller sees: only public keys, and nothing at all for an unidentified success. */
  function ProjectStatus(f: Formats, helper: string, r: Fields): Result<Json, ErrorCode> {
    var summary :- ProjectSummary(f, Get(r, ApprovalSummary));
    :- Need(SuccessIdentified(f, r), NeedsRecovery);
    Ok(Obj(StatusOf(f, helper, r)))
  }

  function StatusOf(f: Formats, helper: string, r: Fields): Fields {
    map k | k in PublicKeys + {HelperSha256} :: StatusField(f, helper, r, k)
  }

  // ----- Writing -----

  const Scope: string :=
    "NanoCore, Web and active client connections on this deployment are interrupted. NanoHost is not restarted."

  const Limitations: seq<string> := [
    "Restoration requires the configured migration-free assessment; apply rechecks it before stopping.",
    "No automatic rollback across data migrations.",
    "No automatic resume or replay of interrupted product work.",
    "The final preflight is not an admission barrier; work may arrive before shutdown closes admission.",
    "Candidate acquisition, smoke, retained-auth and NanoHost verification remain apply-time checks."]

  function OrNull(o: Option<string>): Json { if o.None? then Null else Str(o.value) }
  function FlagOrNull(o: Option<bool>): Json { if o.None? then Null else Bool(o.value) }
  function CodeOrNull(o: Option<ErrorCode>): Json { if o.None? then Null else Str(CodeName(o.value)) }
  function BootOrNull(o: Option<Boot>): Json { if o.None? then Null else EncodeBoot(o.value) }

  function Texts(ss: seq<string>): Json { Arr(seq(|ss|, i requires 0 <= i < |ss| => Str(ss[i]))) }

  function EncodeSource(s: Source): Json {
    Obj(map[AppDigest := Str(s.appDigest), SourceCommit := Str(s.sourceCommit), Tag := Str(s.tag)])
  }

  function EncodeSummary(s: Summary): Json {
    Obj(map[
          TargetRelease := EncodeSource(s.target), ExpectedCurrentImageId := Str(s.expected),
          ObservedCurrentImageId := Str(s.observed), InterruptionScope := Str(s.scope),
          RecoveryLimitations := Texts(s.limitations),
          SafetyEvidence := Obj(map[DeploymentBindings := Bool(true), Preflight := s.preflight])])
  }

  function EncodeBoot(b: Boot): Json {
    Obj(map[
          AcceptingProductWork := Bool(b.accepting), BlockingReasons := Texts(b.reasons), BootId := Str(b.bootId),
          ImageId := OrNull(b.imageId), SourceCommit := OrNull(b.sourceCommit)])
  }

  function EncodePredicates(p: Predicates): Json {
    Obj(map[
          AcceptingProductWork := Bool(p.acceptingProductWork), HelperReachable := Bool(p.helperReachable),
          ImageMatch := Bool(p.imageMatch), NewBoot := Bool(p.newBoot),
          NoBlockingReadiness := Bool(p.noBlockingReadiness),
          RetainedAuthRead := Bool(p.retainedAuthRead), SourceMatch := Bool(p.sourceMatch),
          NanohostReady := FlagOrNull(p.nanohostReady), WebAssets := FlagOrNull(p.webAssets)])
  }

  const ReceiptKeys: set<Key> := {
    SchemaVersion, RequestId, SourceKey, ExpectedCurrentImageId, PreparedAt, PreparedHelperSha256, ApprovalSummary,
    StageKey, OutcomeKey, StartedAt, JobId, CompletedAt, AppStopped, PreviousAppRestored, ErrorKey, ErrorCodeKey,
    CandidateImageId, PreviousImageId, CandidateBoot, PreviousBoot, PredicatesKey, RetainedContainerName,
    PreviousWebAssets, WebPreviousDigest, WebStagedDigest}

  function FieldOf(r: Receipt, k: Key): Json {
    match k
    case SchemaVersion => Num(1)
    case RequestId => Str(r.requestId)
    case SourceKey => EncodeSource(r.source)
    case ExpectedCurrentImageId => Str(r.expected)
    case PreparedAt => Str(r.preparedAt)
    case PreparedHelperSha256 => Str(r.helperSha256)
    case ApprovalSummary => EncodeSummary(r.summary)
    case StageKey => Str(StageName(r.stage))
    case OutcomeKey => Str(CollapseOutcome(StageName(r.stage)))
    case StartedAt => OrNull(r.startedAt)
    case JobId => OrNull(r.jobId)
    case CompletedAt => OrNull(r.completedAt)
    case AppStopped => Bool(r.appStopped)
    case PreviousAppRestored => FlagOrNull(r.restored)
    case ErrorKey => OrNull(r.error)
    case ErrorCodeKey => CodeOrNull(r.errorCode)
    case CandidateImageId => OrNull(r.candidateImageId)
    case PreviousImageId => OrNull(r.previousImageId)
    case CandidateBoot => BootOrNull(r.candidateBoot)
    case PreviousBoot => BootOrNull(r.previousBoot)
    case PredicatesKey => if r.predicates.None? then Null else EncodePredicates(r.predicates.value)
    case RetainedContainerName => if r.undo.None? then Null else Str(r.undo.value.retained)
    case PreviousWebAssets => if r.undo.None? then Null else Str(r.undo.value.previousWeb)
    case WebPreviousDigest => if r.undo.None? then Null else Str(r.undo.value.previousDigest)
    case WebStagedDigest => if r.undo.None? then Null else Str(r.undo.value.stagedDigest)
    case Other(name) => if name in r.evidence then r.evidence[name] else Null
    case _ => Null
  }

  /** The receipt dictionary. */
  function Encode(r: Receipt): Fields {
    map k | k in ReceiptKeys + (set name <- r.evidence :: Other(name)) :: FieldOf(r, k)
  }

  predicate SourceBound(f: Formats, s: Source) {
    f.tag(s.tag) && s.tag != "latest" && f.commit(s.sourceCommit) && f.digest(s.appDigest)
  }

  predicate IdlePreflight(f: Formats, preflight: Json) {
    ParseWorkPreflight(f, preflight) == Ok(preflight) && preflight.Obj? && Get(preflight.fields, State) == Str("idle")
  }

  /** What preparation binds for good. */
  predicate Bound(f: Formats, r: Receipt) {
    && SourceBound(f, r.source) && f.digest(r.expected) && f.sha256(r.helperSha256)
    && r.summary.target == r.source && r.summary.expected == r.expected && f.digest(r.summary.observed)
    && IdlePreflight(f, r.summary.preflight) && TextsOk(f, Str(r.summary.scope), Texts(r.summary.limitations))
  }

  /** The fixed review texts contain no secret. */
  predicate TextsFixed(f: Formats) {
    f.redact(Scope) == Scope && forall l <- Limitations :: f.redact(l) == l
  }

  lemma TextsLoad(f: Formats)
    ensures TextsFixed(f) ==> TextsOk(f, Str(Scope), Texts(Limitations))
  {
    assert |Limitations| == 5;
    forall l <- Limitations ensures 1 <= |l| <= 512 {
      assert l in {Limitations[0], Limitations[1], Limitations[2], Limitations[3], Limitations[4]};
    }
  }

  /** A prepared receipt, from a closed command and observations of the running App. */
  function Prepare(f: Formats, source: Json, expected: Json, observed: string, body: Json, id: string, at: string,
                   sha: string)
    : (r: Result<Receipt, ErrorCode>)
    ensures r.Ok? && f.digest(observed) && f.sha256(sha) && TextsFixed(f) ==>
              Bound(f, r.value) && r.value.stage.Prepared? && Evidenced(f, r.value)
    ensures r.Ok? ==>
              r.value.requestId == id && EncodeSource(r.value.source) == source && Str(r.value.expected) == expected
  {
    var release :- RequireSource(f, source, false);
    :- Need(DigestText(f, expected), InvalidRequest);
    var preflight :- ParseWorkPreflight(f, body);
    :- Need(Get(preflight.fields, State) == Str("idle"), WorkActive);
    SourceIdempotent(f, source, false);
    PreflightIdempotent(f, body);
    TextsLoad(f);
    var s := Source(release.fields[Tag].s, release.fields[SourceCommit].s, release.fields[AppDigest].s);
    var summary := Summary(s, expected.s, observed, preflight, Scope, Limitations);
    Ok(Receipt(id, s, expected.s, at, sha, summary, Prepared, None, None, None, false,
               None, None, None, None, None, None, None, None, None, map[]))
  }

  // ----- Closure -----

  lemma SourceLoads(f: Formats, s: Source)
    requires SourceBound(f, s)
    ensures RequireSource(f, EncodeSource(s), true) == Ok(EncodeSource(s))
  {
  }

  lemma SummaryLoads(f: Formats, r: Receipt)
    requires Bound(f, r)
    ensures ProjectApprovalSummary(f, EncodeSummary(r.summary)) == Ok(EncodeSummary(r.summary))
  {
    SourceLoads(f, r.source);
    var evidence := Obj(map[DeploymentBindings := Bool(true), Preflight := r.summary.preflight]);
    assert ProjectEvidence(f, evidence) == Ok(evidence);
  }

  lemma NamesKnown(stage: Stage, code: ErrorCode)
    ensures StageName(stage) in StageNames && CodeName(code) in CodeNames
    ensures StageName(stage) == "succeeded" <==> stage.Succeeded?
  {
  }

  lemma BootLoads(f: Formats, r: Receipt)
    requires r.stage.Succeeded? && Evidenced(f, r)
    ensures var boot := EncodeBoot(r.candidateBoot.value);
            BootIdentified(f, boot) && BootIdentified(f, ProjectBoot(boot))
  {
    var boot := r.candidateBoot.value;
    assert Get(EncodeBoot(boot).fields, SourceCommit) == Str(boot.sourceCommit.value);
    assert Get(EncodeBoot(boot).fields, BootId) == Str(boot.bootId);
  }

  /** A dictionary that reads as the receipt, at the keys the readers look at. */
  predicate ReadsAs(e: Fields, r: Receipt) {
    ReadsBinding(e, r) && ReadsSummary(e, r) && ReadsLifecycle(e, r)
  }

  predicate ReadsBinding(e: Fields, r: Receipt) {
    && Get(e, SchemaVersion) == Num(1) && Get(e, RequestId) == Str(r.requestId)
    && Get(e, SourceKey) == EncodeSource(r.source) && Get(e, ExpectedCurrentImageId) == Str(r.expected)
  }

  predicate ReadsSummary(e: Fields, r: Receipt) {
    && Get(e, PreparedHelperSha256) == Str(r.helperSha256) && Get(e, ApprovalSummary) == EncodeSummary(r.summary)
    && Get(e, PreviousAppRestored) == FlagOrNull(r.restored)
  }

  predicate ReadsLifecycle(e: Fields, r: Receipt) {
    && Get(e, StageKey) == Str(StageName(r.stage)) && Get(e, OutcomeKey) == Str(CollapseOutcome(StageName(r.stage)))
    && Get(e, ErrorCodeKey) == CodeOrNull(r.errorCode) && Get(e, CandidateBoot) == BootOrNull(r.candidateBoot)
  }

  lemma EncodeReads(r: Receipt)
    ensures ReadsAs(Encode(r), r)
  {
    EncodeGet(r);
    BindingRead(Encode(r), r);
    SummaryRead(Encode(r), r);
    LifecycleRead(Encode(r), r);
  }

  lemma EncodeGet(r: Receipt)
    ensures forall k :: Get(Encode(r), k) == FieldOf(r, k)
  {
  }

  lemma BindingRead(e: Fields, r: Receipt)
    requires forall k :: Get(e, k) == FieldOf(r, k)
    ensures ReadsBinding(e, r)
  {
  }

  lemma SummaryRead(e: Fields, r: Receipt)
    requires forall k :: Get(e, k) == FieldOf(r, k)
    ensures ReadsSummary(e, r)
  {
  }

  lemma LifecycleRead(e: Fields, r: Receipt)
    requires forall k :: Get(e, k) == FieldOf(r, k)
    ensures ReadsLifecycle(e, r)
  {
  }

  lemma LifecycleLoads(f: Formats, r: Receipt, e: Fields)
    requires Evidenced(f, r) && ReadsAs(e, r)
    ensures LifecycleOk(f, e)
  {
    NamesKnown(r.stage, if r.errorCode.Some? then r.errorCode.value else Unavailable);
    if r.stage.Succeeded? { BootLoads(f, r); }
  }

  lemma BindingLoads(f: Formats, r: Receipt, e: Fields)
    requires Bound(f, r) && ReadsAs(e, r)
    ensures IdentityOk(e, r.requestId + ".json") && HelperIdentityOk(f, Get(e, PreparedHelperSha256))
    ensures RequireSource(f, Get(e, SourceKey), true) == Ok(Get(e, SourceKey))
            && DigestText(f, Get(e, ExpectedCurrentImageId))
  {
    SourceLoads(f, r.source);
  }

  lemma SummaryFields(s: Summary)
    ensures EncodeSummary(s).Obj?
    ensures Get(EncodeSummary(s).fields, TargetRelease) == EncodeSource(s.target)
    ensures Get(EncodeSummary(s).fields, ExpectedCurrentImageId) == Str(s.expected)
  {
  }

  lemma AgreementLoads(f: Formats, r: Receipt, e: Fields)
    requires Bound(f, r) && ReadsAs(e, r)
    ensures SummaryAgrees(f, Get(e, ApprovalSummary), Get(e, SourceKey), Get(e, ExpectedCurrentImageId))
  {
    SummaryLoads(f, r);
    SummaryFields(r.summary);
  }

  lemma NormalForm(f: Formats, e: Fields, filename: string)
    requires Acceptable(f, e, filename) && SourceKey in e && OutcomeKey in e
    requires RequireSource(f, e[SourceKey], true) == Ok(e[SourceKey])
             && e[OutcomeKey] == Str(CollapseOutcome(Get(e, StageKey).s))
    ensures ValidateReceipt(f, Obj(e), filename) == Ok(Obj(e))
  {
    assert e[SourceKey := e[SourceKey]][OutcomeKey := e[OutcomeKey]] == e;
  }

  /** Whatever is written is accepted, unchanged, by the next load. */
  lemma WrittenLoads(f: Formats, r: Receipt)
    requires Bound(f, r) && Evidenced(f, r)
    ensures ValidateReceipt(f, Obj(Encode(r)), r.requestId + ".json") == Ok(Obj(Encode(r)))
  {
    var e := Encode(r);
    EncodeReads(r);
    BindingLoads(f, r, e);
    LifecycleLoads(f, r, e);
    AgreementLoads(f, r, e);
    NormalForm(f, e, r.requestId + ".json");
  }

  lemma SuccessProjects(f: Formats, r: Receipt, e: Fields)
    requires Evidenced(f, r) && ReadsAs(e, r)
    ensures SuccessIdentified(f, e)
  {
    NamesKnown(r.stage, Unavailable);
    if r.stage.Succeeded? { BootLoads(f, r); }
  }

  lemma SummaryProjects(f: Formats, r: Receipt)
    requires Bound(f, r)
    ensures ProjectSummary(f, EncodeSummary(r.summary)) == Ok(EncodeSummary(r.summary))
  {
    SummaryLoads(f, r);
  }

  /** Whatever is written projects to a public status. */
  lemma WrittenProjects(f: Formats, helper: string, r: Receipt, e: Fields)
    requires Bound(f, r) && Evidenced(f, r) && ReadsAs(e, r)
    ensures ProjectStatus(f, helper, e) == Ok(Obj(StatusOf(f, helper, e)))
  {
    SummaryProjects(f, r);
    SuccessProjects(f, r, e);
  }

  predicate SamePreparation(r: Receipt, n: Receipt) {
    && n.requestId == r.requestId && n.source == r.source && n.expected == r.expected
    && n.helperSha256 == r.helperSha256 && n.summary == r.summary
  }

  lemma StepKeepsPreparation(f: Formats, m: Machine, l: Label)
    requires Sound(f, m)
    ensures SamePreparation(m.disk, Do(f, m, l).disk)
  {
  }

  lemma BoundKept(f: Formats, r: Receipt, n: Receipt)
    requires Bound(f, r) && SamePreparation(r, n)
    ensures Bound(f, n)
  {
  }

  /** Every version of the receipt, in every run, loads as written and projects. */
  lemma {:induction false} EveryVersionLoads(f: Formats, helper: string, m: Machine, ls: seq<Label>)
    requires Sound(f, m) && Bound(f, m.disk)
    ensures var r := Play(f, m, ls).disk;
            && ValidateReceipt(f, Obj(Encode(r)), m.disk.requestId + ".json") == Ok(Obj(Encode(r)))
            && ProjectStatus(f, helper, Encode(r)).Ok?
    decreases |ls|
  {
    if ls == [] {
      EncodeReads(m.disk);
      WrittenLoads(f, m.disk);
      WrittenProjects(f, helper, m.disk, Encode(m.disk));
    } else {
      StepKeepsPreparation(f, m, ls[0]);
      BoundKept(f, m.disk, Do(f, m, ls[0]).disk);
      StepKeepsSound(f, m, ls[0]);
      EveryVersionLoads(f, helper, Do(f, m, ls[0]), ls[1..]);
    }
  }
}
