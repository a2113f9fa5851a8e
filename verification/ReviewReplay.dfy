/**
 * Attempting a request again after any later run: what a retained receipt answers, with the same or with
 * another clock, and that no request takes effect twice.
 */
module ReviewReplay {
  import opened Common
  import opened ReviewStore
  import opened ReviewAuthority
  import opened ReviewProperties

  /** In replay every mode only reads. */
  lemma ReplayReads(s: Store, c: Command)
    requires RunMode(s, c, true).Ok?
    ensures RunMode(s, c, true).value.0 == s
  {
    match c
    case Judge(_, _, _) => JudgeReplays(s, c);
    case Submit(_, _, _, _, _) =>
    case SelectCandidateCommand(_, _) =>
    case DecideCommand(_, _) =>
    case DecisionReceipt(_, _) =>
  }

  /** A retained receipt admits no effect, and none at all for a different input. */
  lemma RetainedReceiptHasNoEffect(s: Store, c: Command)
    requires Prior(s, c.TheReceipt()).Some?
    ensures Apply(s, c).Ok? ==>
              Apply(s, c).value.0 == s && Apply(s, c).value.1.Points() == Prior(s, c.TheReceipt()).value.pointer
    ensures ReceiptAdmitted(s, c.TheReceipt().value)
            && c.TheReceipt().value.inputHash != Prior(s, c.TheReceipt()).value.inputHash
            ==> Apply(s, c) == Err(IdempotencyKeyConflict)
  {
    if RunMode(s, c, true).Ok? {
      ReplayReads(s, c);
    }
  }

  // ----- What each committed command leaves behind -----

  predicate SubmitEvidence(s: Store, c: Command)
    requires c.Submit?
  {
    var a, p, r := c.artifact, c.review, c.receipt;
    && r.command == ArtifactSubmit && r.responseKind == ArtifactResponse
    && r.requestId == a.originRequestId && a.lastMutationRequestId == r.requestId
    && a.createdAt == r.createdAt && a.updatedAt == r.createdAt && a.workspaceId == s.workspaceId
    && p.artifactId == a.id && p.artifactVersion == 1 && p.digest == a.digest
    && p.sourceThreadId == a.threadId && p.sourceTurnId == a.turnId
    && p.sourceAgentId == Some(c.agentId) && p.createdAt == a.createdAt
    && a.originTurnId in s.turns
    && s.turns[a.originTurnId].threadId == a.originThreadId
    && s.turns[a.originTurnId].agentSessionId == Some(c.agentSessionId)
    && s.turns[a.originTurnId].agentId == Some(c.agentId)
    && (a.id, a.originTurnId) in s.references
    && p.Shaped() && (p.artifactId, p.artifactVersion) in s.reviews
    && s.reviews[(p.artifactId, p.artifactVersion)].facts == p
  }

  predicate JudgeEvidence(s: Store, c: Command)
    requires c.Judge?
  {
    JudgeAdmitted(s, c) && JudgementKept(s, c.judgement)
  }

  predicate RecordsChoice(j: Judgement, x: Selection) {
    j.requestId == x.requestId && j.kind.Select? && j.actorId == x.actorId && j.note == x.reason
  }

  predicate SelectEvidence(s: Store, c: Command)
    requires c.SelectCandidateCommand?
  {
    var x, r := c.selection, c.receipt;
    && r.command == ReviewSelect && r.responseKind == ReviewResponse && r.requestId == x.requestId
    && x.actorId != "" && x.requestId != "" && x.reason != Some("")
    && (x.artifactId, x.artifactVersion) in s.reviews
    && var row := s.reviews[(x.artifactId, x.artifactVersion)];
    && row.facts.digest == x.digest
    && exists j <- row.judgements :: RecordsChoice(j, x)
  }

  predicate DecisionEvidence(s: Store, x: DecisionInput) {
    && x.Shaped() && (x.artifactId, x.artifactVersion) in s.reviews
    && var row := s.reviews[(x.artifactId, x.artifactVersion)];
    InputMatches(row, x) && row.decisionRequestId == Some(x.requestId)
  }

  /** The facts that make a repeat of the command answerable. */
  predicate Evidence(s: Store, c: Command) {
    match c
    case Submit(_, _, _, _, _) => SubmitEvidence(s, c)
    case Judge(_, _, _) => JudgeEvidence(s, c)
    case SelectCandidateCommand(_, _) => SelectEvidence(s, c)
    case DecideCommand(x, r) =>
      (if r.Some? then DecisionReceiptShaped(r.value, x.input.requestId) else x.input.decision.FollowUp())
      && DecisionEvidence(s, x.input)
    case DecisionReceipt(x, r) =>
      && DecisionReceiptShaped(r, x.requestId) && DecisionEvidence(s, x) && x.decision.FollowUp()
      && FollowUpTurn(s, x.artifactId, x.artifactVersion, x.requestId) in s.turns
  }

  /** The identity a command answers with, known from the command alone. */
  function Answer(workspaceId: string, c: Command): Pointer {
    match c
    case Submit(a, _, _, _, _) => ArtifactPointer(a.id)
    case Judge(_, j, _) => JudgementPointer(j.requestId)
    case SelectCandidateCommand(x, _) => ReviewPointer(ReviewOf(workspaceId, x.artifactId, x.artifactVersion))
    case DecideCommand(x, _) => ReviewPointer(ReviewOf(workspaceId, x.input.artifactId, x.input.artifactVersion))
    case DecisionReceipt(x, _) => ReviewPointer(ReviewOf(workspaceId, x.artifactId, x.artifactVersion))
  }

  lemma SubmitLeaves(s: Store, c: Command, replayed: bool)
    requires c.Submit? && RunSubmit(s, c, replayed).Ok?
    ensures SubmitEvidence(RunSubmit(s, c, replayed).value.0, c)
    ensures RunSubmit(s, c, replayed).value.1.Points() == Answer(s.workspaceId, c)
  {
  }

  /** What every accepted judgement command shows before it appends or replays. */
  predicate JudgeAdmitted(s: Store, c: Command)
    requires c.Judge?
  {
    var j, r := c.judgement, c.receipt;
    && r.command == JudgementAdd && r.responseKind == JudgementResponse
    && j.workspaceId == s.workspaceId && j.requestId == r.requestId && j.target.ArtifactVersion?
    && (c.publication.Some? ==>
          && var p := c.publication.value;
          && p.artifactId == j.target.version.artifactId && p.artifactVersion == j.target.version.artifactVersion
          && p.digest == j.target.version.digest && p.proposal.None? && p.sourceAgentId.None?
          && PublicationSource(s, p))
  }

  lemma JudgeIsAdmitted(s: Store, c: Command, replayed: bool)
    requires c.Judge? && RunJudge(s, c, replayed).Ok?
    ensures JudgeAdmitted(s, c)
  {
  }

  /** The judgement is among those of its Review. */
  predicate JudgementKept(s: Store, j: Judgement)
    requires j.target.ArtifactVersion?
  {
    var k := (j.target.version.artifactId, j.target.version.artifactVersion);
    k in s.reviews && j in s.reviews[k].judgements
  }

  lemma ReplayedJudgementKept(s: Store, c: Command)
    requires c.Judge? && JudgeAdmitted(s, c) && RunJudge(s, c, true).Ok?
    ensures JudgementKept(s, c.judgement)
  {
    var row := s.reviews[(c.judgement.target.version.artifactId, c.judgement.target.version.artifactVersion)];
    assert FindJudgement(row.judgements, c.judgement.requestId) == Some(c.judgement);
  }

  lemma AppendedJudgementKept(s: Store, j: Judgement)
    requires AppendJudgement(s, j).Ok?
    ensures j.target.ArtifactVersion? && JudgementKept(AppendJudgement(s, j).value, j)
  {
  }

  lemma JudgeLeaves(s: Store, c: Command, replayed: bool)
    requires c.Judge? && RunJudge(s, c, replayed).Ok?
    ensures JudgeEvidence(RunJudge(s, c, replayed).value.0, c)
    ensures RunJudge(s, c, replayed).value.1.Points() == Answer(s.workspaceId, c)
  {
    JudgeIsAdmitted(s, c, replayed);
    if replayed {
      JudgeReplays(s, c);
      ReplayedJudgementKept(s, c);
    } else {
      JudgeAppends(s, c);
      PublishedOnlyAdds(s, c);
      AppendOnlyAdds(Published(s, c), c.judgement);
      AppendedJudgementKept(Published(s, c), c.judgement);
    }
  }

  /** The choice a selection finds or records. */
  lemma SelectUnfolds(s: Store, x: Selection, replay: bool) returns (choice: Judgement)
    requires SelectCandidate(s, x, replay).Ok? && (x.artifactId, x.artifactVersion) in s.reviews
    requires var facts := s.reviews[(x.artifactId, x.artifactVersion)].facts;
             facts.artifactId == x.artifactId && facts.artifactVersion == x.artifactVersion
    ensures var k := (x.artifactId, x.artifactVersion);
            var (after, review) := SelectCandidate(s, x, replay).value;
            && x.actorId != "" && x.requestId != "" && x.reason != Some("")
            && k in after.reviews && after.reviews[k].facts == s.reviews[k].facts
            && s.reviews[k].facts.digest == x.digest && review.reviewId == s.reviews[k].reviewId
            && choice in after.reviews[k].judgements && RecordsChoice(choice, x)
  {
    var row := s.reviews[(x.artifactId, x.artifactVersion)];
    choice := if replay then FindJudgement(row.judgements, x.requestId).value else ChoiceOf(s, row, x);
  }

  lemma SelectLeaves(s: Store, c: Command, replayed: bool)
    requires c.SelectCandidateCommand? && Coherent(s) && RunSelect(s, c, replayed).Ok?
    ensures SelectEvidence(RunSelect(s, c, replayed).value.0, c)
    ensures RunSelect(s, c, replayed).value.1.Points() == Answer(s.workspaceId, c)
  {
    var k := (c.selection.artifactId, c.selection.artifactVersion);
    assert RowOk(s, k, s.reviews[k]);
    var choice := SelectUnfolds(s, c.selection, replayed);
  }

  lemma DecideLeavesEvidence(s: Store, c: Command, replayed: bool)
    requires c.DecideCommand? && Coherent(s) && RunDecide(s, c, replayed).Ok?
    ensures Evidence(RunDecide(s, c, replayed).value.0, c)
    ensures RunDecide(s, c, replayed).value.1.Points() == Answer(s.workspaceId, c)
  {
    var x := c.attempt.input;
    if replayed {
      assert RowOk(s, (x.artifactId, x.artifactVersion), s.reviews[(x.artifactId, x.artifactVersion)]);
    } else {
      DecideLeaves(s, c.attempt);
    }
  }

  lemma DecisionReceiptLeaves(s: Store, c: Command)
    requires c.DecisionReceipt? && Coherent(s) && RunDecisionReceipt(s, c).Ok?
    ensures Evidence(RunDecisionReceipt(s, c).value.0, c)
    ensures RunDecisionReceipt(s, c).value.1.Points() == Answer(s.workspaceId, c)
  {
    var x := c.replay;
    assert RowOk(s, (x.artifactId, x.artifactVersion), s.reviews[(x.artifactId, x.artifactVersion)]);
  }

  lemma ModeLeaves(s: Store, c: Command, replayed: bool)
    requires Coherent(s) && RunMode(s, c, replayed).Ok?
    ensures Evidence(RunMode(s, c, replayed).value.0, c)
    ensures RunMode(s, c, replayed).value.1.Points() == Answer(s.workspaceId, c)
  {
    match c
    case Submit(_, _, _, _, _) => SubmitLeaves(s, c, replayed);
    case Judge(_, _, _) => JudgeLeaves(s, c, replayed);
    case SelectCandidateCommand(_, _) => SelectLeaves(s, c, replayed);
    case DecideCommand(_, _) => DecideLeavesEvidence(s, c, replayed);
    case DecisionReceipt(_, _) => DecisionReceiptLeaves(s, c);
  }

  // ----- Evidence survives, and answers a repeat -----

  lemma EvidenceLater(s: Store, t: Store, c: Command)
    requires Evidence(s, c) && Later(s, t)
    ensures Evidence(t, c)
  {
    match c
    case Submit(_, p, _, _, _) =>
      assert RowLater(s.reviews[(p.artifactId, p.artifactVersion)], t.reviews[(p.artifactId, p.artifactVersion)]);
    case Judge(_, j, _) =>
      var k := (j.target.version.artifactId, j.target.version.artifactVersion);
      assert RowLater(s.reviews[k], t.reviews[k]);
    case SelectCandidateCommand(x, _) =>
      var k := (x.artifactId, x.artifactVersion);
      assert RowLater(s.reviews[k], t.reviews[k]);
      var j :| j in s.reviews[k].judgements && RecordsChoice(j, x);
      assert j in t.reviews[k].judgements;
    case DecideCommand(x, _) =>
      var k := (x.input.artifactId, x.input.artifactVersion);
      assert RowLater(s.reviews[k], t.reviews[k]);
    case DecisionReceipt(x, _) =>
      assert RowLater(s.reviews[(x.artifactId, x.artifactVersion)], t.reviews[(x.artifactId, x.artifactVersion)]);
  }

  /** A retained judgement is found again under its request. */
  lemma Found(judgements: seq<Judgement>, j: Judgement)
    requires j in judgements && UniqueRequests(judgements)
    ensures FindJudgement(judgements, j.requestId) == Some(j)
  {
    var found := FindJudgement(judgements, j.requestId).value;
    var a :| 0 <= a < |judgements| && judgements[a] == j;
    var b :| 0 <= b < |judgements| && judgements[b] == found;
  }

  lemma SubmitAnswers(t: Store, c: Command)
    requires c.Submit? && SubmitEvidence(t, c) && Coherent(t)
    ensures RunSubmit(t, c, true) == Ok((t, Submitted(c.artifact.id)))
  {
    var k := (c.review.artifactId, c.review.artifactVersion);
    assert RowOk(t, k, t.reviews[k]);
  }

  lemma JudgeAnswers(t: Store, c: Command)
    requires c.Judge? && JudgeEvidence(t, c) && Coherent(t)
    ensures RunJudge(t, c, true) == Ok((t, Judged(c.judgement)))
  {
    var k := (c.judgement.target.version.artifactId, c.judgement.target.version.artifactVersion);
    assert RowOk(t, k, t.reviews[k]);
    Found(t.reviews[k].judgements, c.judgement);
  }

  lemma SelectAnswers(t: Store, c: Command)
    requires c.SelectCandidateCommand? && SelectEvidence(t, c) && Coherent(t)
    ensures RunSelect(t, c, true).Ok? && RunSelect(t, c, true).value.0 == t
    ensures RunSelect(t, c, true).value.1.Points() == Answer(t.workspaceId, c)
  {
    var k := (c.selection.artifactId, c.selection.artifactVersion);
    assert RowOk(t, k, t.reviews[k]);
    var j :| j in t.reviews[k].judgements && RecordsChoice(j, c.selection);
    Found(t.reviews[k].judgements, j);
  }

  lemma DecisionAnswers(t: Store, x: DecisionInput)
    requires DecisionEvidence(t, x) && Coherent(t)
    ensures ReplayDecision(t, x).Ok?
    ensures ReplayDecision(t, x).value.reviewId == ReviewOf(t.workspaceId, x.artifactId, x.artifactVersion)
    ensures x.decision.FollowUp() ==>
              ReplayDecision(t, x).value.followUpTurnId
              == Some(FollowUpTurn(t, x.artifactId, x.artifactVersion, x.requestId))
  {
    var k := (x.artifactId, x.artifactVersion);
    assert RowOk(t, k, t.reviews[k]);
  }

  lemma DecideAnswers(t: Store, c: Command)
    requires c.DecideCommand? && Evidence(t, c) && Coherent(t)
    ensures RunDecide(t, c, true).Ok? && RunDecide(t, c, true).value.0 == t
    ensures RunDecide(t, c, true).value.1.Points() == Answer(t.workspaceId, c)
  {
    DecisionAnswers(t, c.attempt.input);
  }

  lemma DecisionReceiptAnswers(t: Store, c: Command)
    requires c.DecisionReceipt? && Evidence(t, c) && Coherent(t)
    ensures RunDecisionReceipt(t, c).Ok? && RunDecisionReceipt(t, c).value.0 == t
    ensures RunDecisionReceipt(t, c).value.1.Points() == Answer(t.workspaceId, c)
  {
    DecisionAnswers(t, c.replay);
  }

  lemma ModeAnswers(t: Store, c: Command)
    requires Evidence(t, c) && Coherent(t)
    ensures RunMode(t, c, true).Ok? && RunMode(t, c, true).value.0 == t
    ensures RunMode(t, c, true).value.1.Points() == Answer(t.workspaceId, c)
  {
    match c
    case Submit(_, _, _, _, _) => SubmitAnswers(t, c);
    case Judge(_, _, _) => JudgeAnswers(t, c);
    case SelectCandidateCommand(_, _) => SelectAnswers(t, c);
    case DecideCommand(_, _) => DecideAnswers(t, c);
    case DecisionReceipt(_, _) => DecisionReceiptAnswers(t, c);
  }

  /** The receipt that answers a repeat of the command. */
  predicate Kept(s: Store, c: Command, r: ReceiptInput) {
    && r.key in s.receipts
    && var kept := s.receipts[r.key];
    && kept.inputHash == r.inputHash && kept.command == r.command && kept.scope == r.scope
    && kept.responseKind == r.responseKind && kept.pointer == Answer(s.workspaceId, c)
    && r.createdAt < kept.expiresAt
  }

  lemma RecordKeeps(mid: Store, c: Command, r: ReceiptInput)
    requires r.createdAt < r.expiresAt
    ensures Kept(RecordReceipt(mid, r, Answer(mid.workspaceId, c)), c, r)
  {
  }

  lemma RecordIsLater(mid: Store, c: Command, r: ReceiptInput, pointer: Pointer)
    requires Coherent(mid) && Evidence(mid, c)
    ensures Evidence(RecordReceipt(mid, r, pointer), c)
  {
    SameRowsKeep(mid, RecordReceipt(mid, r, pointer));
    EvidenceLater(mid, RecordReceipt(mid, r, pointer), c);
  }

  lemma FreshCommitLeaves(s: Store, c: Command)
    requires Coherent(s) && c.TheReceipt().Some? && RunMode(s, c, false).Ok? && ReceiptAdmitted(s, c.TheReceipt().value)
    ensures var r := c.TheReceipt().value;
            var done := RunMode(s, c, false).value;
            var s' := RecordReceipt(done.0, r, done.1.Points());
            Evidence(s', c) && Kept(s', c, r) && done.1.Points() == Answer(s.workspaceId, c)
  {
    var mid := RunMode(s, c, false).value.0;
    ModeLeaves(s, c, false);
    RunModeKeeps(s, c, false);
    RecordIsLater(mid, c, c.TheReceipt().value, Answer(s.workspaceId, c));
    RecordKeeps(mid, c, c.TheReceipt().value);
  }

  /** A commit leaves its evidence and answers with the identity its receipt retains. */
  lemma CommitLeaves(s: Store, c: Command, s': Store)
    requires Coherent(s) && Commits(s, c, s') && c.TheReceipt().Some?
    ensures Apply(s, c).value.1.Points() == Answer(s.workspaceId, c) && ReceiptAdmitted(s, c.TheReceipt().value)
    ensures Evidence(s', c) && Kept(s', c, c.TheReceipt().value)
  {
    if Prior(s, c.TheReceipt()).Some? {
      ModeLeaves(s, c, true);
      ReplayReads(s, c);
    } else {
      FreshCommitLeaves(s, c);
    }
  }

  lemma ApplyRepeats(t: Store, c: Command)
    requires t.active && c.TheReceipt().Some? && ReceiptAdmitted(t, c.TheReceipt().value)
             && Kept(t, c, c.TheReceipt().value)
    requires RunMode(t, c, true).Ok? && RunMode(t, c, true).value.1.Points() == Answer(t.workspaceId, c)
    ensures Apply(t, c) == RunMode(t, c, true)
  {
  }

  lemma RepeatAnswers(t: Store, c: Command)
    requires Evidence(t, c) && Coherent(t) && t.active && c.TheReceipt().Some?
    requires ReceiptAdmitted(t, c.TheReceipt().value)
    requires Kept(t, c, c.TheReceipt().value)
    ensures Apply(t, c).Ok? && Apply(t, c).value.0 == t && Apply(t, c).value.1.Points() == Answer(t.workspaceId, c)
  {
    ModeAnswers(t, c);
    ApplyRepeats(t, c);
  }

  // ----- The same request at another time -----

  function Untimed(r: ReceiptInput): ReceiptInput { r.(createdAt := 0, expiresAt := 0) }

  /** The command without its clock readings: every attempt takes new ones. */
  function Timeless(c: Command): Command {
    match c
    case Submit(a, p, session, agent, r) =>
      Submit(a.(createdAt := 0, updatedAt := 0), p.(createdAt := 0), session, agent, Untimed(r))
    case Judge(p, j, r) =>
      Judge(if p.Some? then Some(p.value.(createdAt := 0)) else None, j.(recordedAt := 0), Untimed(r))
    case SelectCandidateCommand(x, r) => SelectCandidateCommand(x.(selectedAt := 0), Untimed(r))
    case DecideCommand(x, r) =>
      DecideCommand(x.(decidedAt := 0), if r.Some? then Some(Untimed(r.value)) else None)
    case DecisionReceipt(x, r) => DecisionReceipt(x, Untimed(r))
  }

  /**
   * Two attempts at one request: they differ at most in their clock readings, and the second need not
   * publish the Review that the first one published.
   */
  predicate SameRequest(c: Command, d: Command) {
    || Timeless(c) == Timeless(d)
    || (c.Judge? && Timeless(c.(publication := None)) == Timeless(d))
  }

  /** A submission takes all its times from its receipt. */
  predicate Dated(c: Command)
    requires c.Submit?
  {
    var now := c.receipt.createdAt;
    c.artifact.createdAt == now && c.artifact.updatedAt == now && c.review.createdAt == now
  }

  /** Which attempts a retained receipt answers: the facts of a submission and of a judgement include their time. */
  predicate Answerable(c: Command, d: Command)
    requires SameRequest(c, d)
  {
    match c
    case Submit(_, p, _, _, _) => Dated(d) && d.review.createdAt == p.createdAt
    case Judge(_, j, _) => d.judgement.recordedAt == j.recordedAt
    case _ => true
  }

  function Unanswered(d: Command): Refusal {
    if d.Submit? && !Dated(d) then InvalidRequest else RecoveryRequired
  }

  lemma SubmitLaterExactly(t: Store, c: Command, d: Command)
    requires c.Submit? && SubmitEvidence(t, c) && Coherent(t) && SameRequest(c, d)
    ensures if Answerable(c, d) then SubmitEvidence(t, d) else RunSubmit(t, d, true) == Err(Unanswered(d))
  {
    var k := (c.review.artifactId, c.review.artifactVersion);
    assert RowOk(t, k, t.reviews[k]);
  }

  /** The judgement of another attempt is the first one, but for its time. */
  lemma JudgementLater(t: Store, c: Command, d: Command)
    requires c.Judge? && SameRequest(c, d) && JudgeAdmitted(t, c)
    ensures d.Judge? && JudgeAdmitted(t, d) && d.judgement == c.judgement.(recordedAt := d.judgement.recordedAt)
  {
  }

  /** A replay finds exactly the judgement its Review keeps under the request. */
  lemma JudgeReplaysExactly(t: Store, d: Command, kept: Judgement)
    requires d.Judge? && JudgeAdmitted(t, d) && JudgementKept(t, d.judgement.(recordedAt := kept.recordedAt))
    requires Coherent(t) && kept == d.judgement.(recordedAt := kept.recordedAt) && kept != d.judgement
    ensures RunJudge(t, d, true) == Err(RecoveryRequired)
  {
    var k := (kept.target.version.artifactId, kept.target.version.artifactVersion);
    assert RowOk(t, k, t.reviews[k]);
    Found(t.reviews[k].judgements, kept);
  }

  lemma JudgeLaterExactly(t: Store, c: Command, d: Command)
    requires c.Judge? && JudgeEvidence(t, c) && Coherent(t) && SameRequest(c, d)
    ensures if Answerable(c, d) then JudgeEvidence(t, d) else RunJudge(t, d, true) == Err(RecoveryRequired)
  {
    JudgementLater(t, c, d);
    if !Answerable(c, d) { JudgeReplaysExactly(t, d, c.judgement); }
  }

  /** Selections and decisions carry no time that their evidence depends on. */
  lemma TimelessEvidence(t: Store, c: Command, d: Command)
    requires SameRequest(c, d) && Evidence(t, c) && !c.Submit? && !c.Judge?
    ensures Evidence(t, d)
  {
  }

  /** Another attempt finds the evidence of the first one exactly when it is answerable. */
  lemma ModeLaterExactly(t: Store, c: Command, d: Command)
    requires Evidence(t, c) && Coherent(t) && SameRequest(c, d)
    ensures if Answerable(c, d) then Evidence(t, d) else RunMode(t, d, true) == Err(Unanswered(d))
  {
    match c
    case Submit(_, _, _, _, _) => SubmitLaterExactly(t, c, d);
    case Judge(_, _, _) => JudgeLaterExactly(t, c, d);
    case SelectCandidateCommand(_, _) => TimelessEvidence(t, c, d);
    case DecideCommand(_, _) => TimelessEvidence(t, c, d);
    case DecisionReceipt(_, _) => TimelessEvidence(t, c, d);
  }

  lemma ApplyRefuses(t: Store, d: Command, refusal: Refusal)
    requires t.active && d.TheReceipt().Some? && ReceiptAdmitted(t, d.TheReceipt().value)
    requires Kept(t, d, d.TheReceipt().value) && RunMode(t, d, true) == Err(refusal)
    ensures Apply(t, d) == Err(refusal)
  {
  }

  /** Another attempt has the same receipt key and answers with the same identity. */
  lemma KeptForLater(t: Store, c: Command, d: Command)
    requires SameRequest(c, d) && c.TheReceipt().Some?
    requires ReceiptAdmitted(t, c.TheReceipt().value) && Kept(t, c, c.TheReceipt().value)
    requires d.TheReceipt().Some? && var r := d.TheReceipt().value;
             r.createdAt < r.expiresAt && (r.key in t.receipts ==> r.createdAt < t.receipts[r.key].expiresAt)
    ensures ReceiptAdmitted(t, d.TheReceipt().value) && Kept(t, d, d.TheReceipt().value)
    ensures Answer(t.workspaceId, d) == Answer(t.workspaceId, c)
  {
  }

  /** The same over the evidence and the receipt that the first attempt left. */
  lemma AttemptExactly(t: Store, c: Command, d: Command)
    requires Evidence(t, c) && Coherent(t) && t.active && SameRequest(c, d) && c.TheReceipt().Some?
    requires ReceiptAdmitted(t, c.TheReceipt().value) && Kept(t, c, c.TheReceipt().value)
    requires d.TheReceipt().Some? && var r := d.TheReceipt().value;
             r.createdAt < r.expiresAt && (r.key in t.receipts ==> r.createdAt < t.receipts[r.key].expiresAt)
    ensures if Answerable(c, d)
            then Apply(t, d).Ok? && Apply(t, d).value.0 == t
                 && Apply(t, d).value.1.Points() == Answer(t.workspaceId, c)
            else Apply(t, d) == Err(Unanswered(d))
  {
    ModeLaterExactly(t, c, d);
    KeptForLater(t, c, d);
    if Answerable(c, d) {
      RepeatAnswers(t, d);
    } else {
      ApplyRefuses(t, d, Unanswered(d));
    }
  }

  /**
   * Another attempt at a committed request, with its own clock, at any later point of a run at which the
   * receipt is retained and not expired by that clock: it is answered without effect and with the
   * original identity if and only if it is answerable. A selection and a decision always are; a
   * submission or a judgement only with its original time, and is otherwise refused.
   */
  lemma LaterAttemptExactly(s: Store, c: Command, s': Store, t: Store, d: Command)
    requires Coherent(s) && Commits(s, c, s') && c.TheReceipt().Some? && c.TheReceipt().value.key in s'.receipts
    requires Later(s', t) && Coherent(t) && t.active && SameRequest(c, d)
    requires c.TheReceipt().value.key in t.receipts
    requires t.receipts[c.TheReceipt().value.key] == s'.receipts[c.TheReceipt().value.key]
    requires d.TheReceipt().Some? && var r := d.TheReceipt().value;
             r.createdAt < r.expiresAt && r.createdAt < t.receipts[r.key].expiresAt
    ensures if Answerable(c, d)
            then Apply(t, d).Ok? && Apply(t, d).value.0 == t
                 && Apply(t, d).value.1.Points() == Apply(s, c).value.1.Points()
            else Apply(t, d) == Err(Unanswered(d))
  {
    CommitKeeps(s, c, s');
    CommitLeaves(s, c, s');
    EvidenceLater(s', t, c);
    AttemptExactly(t, c, d);
  }

  /**
   * For all five modes: once committed, the same command repeated at any later point of a run, while
   * its receipt is retained and the Workspace is active, succeeds, changes nothing and answers with
   * the original identity.
   */
  lemma ReplayIsExact(s: Store, c: Command, s': Store, t: Store)
    requires Coherent(s) && Commits(s, c, s') && c.TheReceipt().Some? && c.TheReceipt().value.key in s'.receipts
    requires Later(s', t) && Coherent(t) && t.active
    requires c.TheReceipt().value.key in t.receipts
    requires t.receipts[c.TheReceipt().value.key] == s'.receipts[c.TheReceipt().value.key]
    ensures Apply(t, c).Ok? && Apply(t, c).value.0 == t
    ensures Apply(t, c).value.1.Points() == Apply(s, c).value.1.Points()
  {
    CommitLeaves(s, c, s');
    LaterAttemptExactly(s, c, s', t, c);
  }

  function JudgementAt(now: Time): Command {
    var scope := Scope(Some("workspace"), None, None, None, map[]);
    var target := ArtifactVersion(Version("artifact", 1, Sha256([1])));
    Judge(None, Judgement("workspace", "request", "user", now, None, Accept, target, NoChoice),
          ReceiptInput(ReceiptKey(JudgementAdd, "request", scope), JudgementAdd, "request", scope,
                       "hash", JudgementResponse, now, now + 10))
  }

  lemma JudgementCommits()
    ensures Apply(OneReview(), JudgementAt(0)).Ok?
    ensures var s', key := Apply(OneReview(), JudgementAt(0)).value.0, JudgementAt(0).receipt.key;
            s'.active && key in s'.receipts && s'.receipts[key].expiresAt == 10
  {
    var s, c := OneReview(), JudgementAt(0);
    OneReviewIsSound();
    assert RowOk(s, ("artifact", 1), s.reviews[("artifact", 1)]);
    JudgementApplies(s, c);
  }

  lemma JudgementApplies(s: Store, c: Command)
    requires c.Judge? && s.active && ReceiptAdmitted(s, c.receipt) && Prior(s, Some(c.receipt)).None?
    requires RunJudge(s, c, false).Ok?
    ensures Apply(s, c).Ok?
    ensures Apply(s, c).value.0 == RecordReceipt(RunJudge(s, c, false).value.0, c.receipt,
                                                 JudgementPointer(c.judgement.requestId))
  {
    JudgeAppends(s, c);
  }

  lemma OneTickLater(s: Store, s': Store)
    requires Coherent(s) && Commits(s, JudgementAt(0), s') && s'.active && JudgementAt(0).receipt.key in s'.receipts
    requires s'.receipts[JudgementAt(0).receipt.key].expiresAt == 10
    ensures Apply(s', JudgementAt(1)) == Err(RecoveryRequired)
  {
    CommitKeeps(s, JudgementAt(0), s');
    CommitLeaves(s, JudgementAt(0), s');
    AttemptExactly(s', JudgementAt(0), JudgementAt(1));
  }

  /** A judgement attempted again one tick after it was committed is refused, although its receipt is retained. */
  lemma LaterJudgementIsRefused()
    ensures Coherent(OneReview()) && SameRequest(JudgementAt(0), JudgementAt(1))
    ensures Apply(OneReview(), JudgementAt(0)).Ok?
    ensures Apply(Apply(OneReview(), JudgementAt(0)).value.0, JudgementAt(1)) == Err(RecoveryRequired)
  {
    OneReviewIsSound();
    JudgementCommits();
    OneTickLater(OneReview(), Apply(OneReview(), JudgementAt(0)).value.0);
  }

  // ----- No effect twice, with or without the receipt -----

  lemma CommitLeavesEvidence(s: Store, c: Command, s': Store)
    requires Coherent(s) && Commits(s, c, s')
    ensures Evidence(s', c)
  {
    if c.TheReceipt().Some? {
      CommitLeaves(s, c, s');
    } else {
      ModeLeaves(s, c, false);
      CommitUnfolds(s, c, s');
    }
  }

  lemma JudgeNotTwice(t: Store, c: Command, d: Command)
    requires c.Judge? && JudgeEvidence(t, c) && SameRequest(c, d)
    ensures RunJudge(t, d, false).Err?
  {
    JudgementLater(t, c, d);
    var k := (c.judgement.target.version.artifactId, c.judgement.target.version.artifactVersion);
    assert c.judgement in t.reviews[k].judgements && c.judgement.requestId == d.judgement.requestId;
    assert FindJudgement(t.reviews[k].judgements, d.judgement.requestId).Some?;
  }

  lemma SelectNotTwice(t: Store, c: Command, d: Command)
    requires c.SelectCandidateCommand? && SelectEvidence(t, c) && SameRequest(c, d)
    ensures RunSelect(t, d, false).Err?
  {
    var k := (c.selection.artifactId, c.selection.artifactVersion);
    var j :| j in t.reviews[k].judgements && RecordsChoice(j, c.selection);
    assert FindJudgement(t.reviews[k].judgements, d.selection.requestId).Some?;
  }

  lemma DecideNotTwice(t: Store, c: Command, d: Command)
    requires c.DecideCommand? && DecisionEvidence(t, c.attempt.input) && SameRequest(c, d)
    ensures RunDecide(t, d, false).Ok? ==> RunDecide(t, d, false).value.0 == t
  {
    if RunDecide(t, d, false).Ok? { DecideUnfolds(t, d.attempt); }
  }

  lemma ModeNotTwice(t: Store, c: Command, d: Command)
    requires Evidence(t, c) && SameRequest(c, d) && RunMode(t, d, false).Ok?
    ensures RunMode(t, d, false).value.0 == t
  {
    match c
    case Submit(_, _, _, _, _) =>
    case Judge(_, _, _) => JudgeNotTwice(t, c, d);
    case SelectCandidateCommand(_, _) => SelectNotTwice(t, c, d);
    case DecideCommand(_, _) => DecideNotTwice(t, c, d);
    case DecisionReceipt(_, _) =>
  }

  /**
   * A committed request never has an effect a second time: whatever the clock of a later attempt, and
   * also after its receipt has expired or was dropped, at most the receipt is written again.
   */
  lemma EffectAtMostOnce(s: Store, c: Command, s': Store, t: Store, d: Command)
    requires Coherent(s) && Commits(s, c, s') && Later(s', t) && SameRequest(c, d)
    ensures Apply(t, d).Ok? ==> Apply(t, d).value.0 == t.(receipts := Apply(t, d).value.0.receipts)
  {
    if Apply(t, d).Ok? {
      CommitLeavesEvidence(s, c, s');
      EvidenceLater(s', t, c);
      CommitUnfolds(t, d, Apply(t, d).value.0);
      if Prior(t, d.TheReceipt()).Some? {
        ReplayReads(t, d);
      } else {
        ModeNotTwice(t, c, d);
      }
    }
  }
}
