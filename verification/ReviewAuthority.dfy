/**
 * The Artifact Review authority. Each command runs in one savepoint: a function from the store
 * to either a new store with a response, or a refusal that leaves the store as it was.
 */
module ReviewAuthority {
  import opened Common
  import opened ReviewStore

  datatype Refusal = Conflict | IdempotencyKeyConflict | InvalidRequest | RecoveryRequired | Stale

  // ----- Retained tuple coherence (artifact-review-v1.ts) -----

  predicate RangeNamesBase(range: Range, proposal: Option<Proposal>) {
    && proposal.Some?
    && range.materialId == proposal.value.materialId
    && range.revisionId == proposal.value.baseRevisionId
    && range.digest == proposal.value.baseDigest
  }

  /** The version 1 retained tuple predicate every stored Review must satisfy. */
  predicate V1Coherent(r: Review) {
    && r.facts.Shaped()
    && r.decisionActorId != Some("") && r.feedback != Some("")
    && (forall j <- r.judgements :: j.Shaped())
    && (r.rangeFeedback.Some? ==>
          && r.rangeFeedback.value.Shaped()
          && RangeNamesBase(r.rangeFeedback.value, r.facts.proposal)
          && r.decision.Some?)
    && match r.decision
       case None =>
         r.decisionActorId.None? && r.feedback.None? && r.decidedAt.None?
         && r.followUpTurnId.None? && r.appliedRevisionId.None?
       case Some(d) =>
         && r.decisionActorId.Some? && r.decidedAt.Some?
         && (if d.FollowUp() then
               r.feedback.Some? && r.followUpTurnId.Some? && r.appliedRevisionId.None?
             else
               r.followUpTurnId.None?
               && (r.appliedRevisionId.Some? <==> d.Accepted? && r.facts.proposal.Some?))
  }

  // ----- Material authority (workspace-materials.ts) -----

  predicate HighSurrogate(u: CodeUnit) { 0xd800 <= u <= 0xdbff }
  predicate LowSurrogate(u: CodeUnit) { 0xdc00 <= u <= 0xdfff }

  predicate SplitsPair(content: Text, offset: int) {
    0 < offset < |content| && HighSurrogate(content[offset - 1]) && LowSurrogate(content[offset])
  }

  /** Every surrogate is half of a pair, so the text has an exact UTF-8 form. */
  predicate WellFormed(content: Text) {
    forall i | 0 <= i < |content| ::
      && (HighSurrogate(content[i]) ==> i + 1 < |content| && LowSurrogate(content[i + 1]))
      && (LowSurrogate(content[i]) ==> 0 < i && HighSurrogate(content[i - 1]))
  }

  /** UTF-8 length: a surrogate pair is four bytes, counted two for each half. */
  function Utf8Length(content: Text): nat {
    if content == [] then 0
    else
      (var u := content[0];
       if u < 0x80 then 1 else if u < 0x800 then 2 else if 0xd800 <= u <= 0xdfff then 2 else 3)
      + Utf8Length(content[1..])
  }

  const MaxMaterialBytes := 16_777_216

  /** The exact original-source range check. */
  predicate RangeMatches(s: Store, range: Range) {
    && range.materialId in s.materials
    && var revisions := s.materials[range.materialId].revisions;
    && range.revisionId in revisions
    && var revision := revisions[range.revisionId];
    && revision.ContentOk()
    && revision.digest == range.digest
    && 0 <= range.start < range.end <= |revision.content|
    && !SplitsPair(revision.content, range.start)
    && !SplitsPair(revision.content, range.end)
    && revision.content[range.start..range.end] == range.originalText
  }

  /** The proposal base is intact and its Material has an intact current revision. */
  predicate ProposalAuthority(s: Store, p: Proposal) {
    && p.materialId in s.materials
    && var material := s.materials[p.materialId];
    && material.PointerOk()
    && p.baseRevisionId in material.revisions
    && material.current.Some?
    && var base := material.revisions[p.baseRevisionId];
    && base.ContentOk()
    && base.digest == p.baseDigest
    && base.mediaType == MediaOf(material.kind)
  }

  /** Appends one revision under a compare-and-set of the current pointer. */
  function SaveRevision(
      s: Store, actor: Actor, materialId: string, requestId: string,
      expected: Option<EntityId>, content: Text, digest: Digest, acceptedAt: Time)
    : Result<(Store, EntityId), Refusal>
  {
    var id := RevisionSavedBy(actor, s.workspaceId, materialId, requestId);
    :- Need(!(materialId in s.materials && id in s.materials[materialId].revisions), RecoveryRequired);
    :- Need(WellFormed(content) && Utf8Length(content) <= MaxMaterialBytes, InvalidRequest);
    :- Need(digest == Sha256(content), InvalidRequest);
    :- Need(materialId in s.materials, Stale);
    var material := s.materials[materialId];
    :- Need(material.PointerOk(), RecoveryRequired);
    :- Need(material.current == expected, Conflict);
    var revision := Revision(expected, MediaOf(material.kind), digest, content,
                             actor.Responsible(), requestId, acceptedAt);
    var saved := material.(current := Some(id), revisions := material.revisions[id := revision]);
    Ok((s.(materials := s.materials[materialId := saved]), id))
  }

  // ----- The stored-authority check -----

  predicate UniqueRequests(judgements: seq<Judgement>) {
    forall i, j | 0 <= i < j < |judgements| :: judgements[i].requestId != judgements[j].requestId
  }

  /** A version Review owns assessments and choices on its exact target. */
  predicate OwnsJudgement(r: Review, j: Judgement) {
    j.workspaceId == r.workspaceId && j.target == ArtifactVersion(r.Identity()) && !j.kind.Correct?
  }

  predicate AppliedRevision(s: Store, r: Review, p: Proposal) {
    && r.appliedRevisionId.Some? && r.decidedAt.Some?
    && p.materialId in s.materials
    && var material := s.materials[p.materialId];
    && material.PointerOk()
    && r.appliedRevisionId.value in material.revisions
    && var revision := material.revisions[r.appliedRevisionId.value];
    && revision.ContentOk()
    && revision.parent == Some(p.baseRevisionId)
    && revision.digest == r.facts.digest
    && revision.authorId == r.decisionActorId
    && Some(revision.createdByRequestId) == r.decisionRequestId
    && revision.createdAt == r.decidedAt.value
    && revision.mediaType == MediaOf(material.kind)
  }

  predicate ImportedRequest(requestId: string) {
    "import-lineage:" <= requestId
  }

  predicate StoredResult(s: Store, r: Review)
    requires r.decision.Some?
  {
    && r.decisionRequestId.Some? && r.decisionRequestId.value != ""
    && (if r.decision.value.FollowUp() then
          ImportedRequest(r.decisionRequestId.value)
          || r.followUpTurnId == Some(FollowUpTurn(s, r.facts.artifactId, r.facts.artifactVersion,
                                                   r.decisionRequestId.value))
        else
          r.decision.value.Accepted? && r.facts.proposal.Some? ==> AppliedRevision(s, r, r.facts.proposal.value))
  }

  /** What the reader demands of every stored Review before it serves or changes it. */
  predicate StoredOk(s: Store, r: Review) {
    && r.reviewId == ReviewOf(r.workspaceId, r.facts.artifactId, r.facts.artifactVersion)
    && (r.decision.None? <==> r.decisionRequestId.None?)
    && V1Coherent(r)
    && UniqueRequests(r.judgements)
    && (forall j <- r.judgements :: OwnsJudgement(r, j))
    && (r.facts.proposal.Some? ==> ProposalAuthority(s, r.facts.proposal.value))
    && (r.rangeFeedback.Some? ==> RangeMatches(s, r.rangeFeedback.value))
    && (r.decision.Some? ==> StoredResult(s, r))
  }

  /** Reads one exact version-keyed Review through the stored-authority check. */
  function ReadReview(s: Store, artifactId: string, version: int): Result<Review, Refusal> {
    var key := (artifactId, version);
    :- Need(key in s.reviews, Stale);
    var row := s.reviews[key];
    :- Need(StoredOk(s, row), RecoveryRequired);
    Ok(row)
  }

  function FollowUpTurn(s: Store, artifactId: string, version: int, requestId: string): EntityId {
    FollowUpTurnOf(s.workspaceId, artifactId, version, requestId)
  }

  // ----- Creation and judgement -----

  function Unresolved(s: Store, p: Publication): Review {
    Review(s.workspaceId, ReviewOf(s.workspaceId, p.artifactId, p.artifactVersion), p,
           None, None, None, None, None, None, None, None, [])
  }

  /** Creates the immutable owner of one Artifact version, or verifies the one that exists. */
  function CreateReview(s: Store, p: Publication): Result<Store, Refusal> {
    var key := (p.artifactId, p.artifactVersion);
    :- Need(p.Shaped(), InvalidRequest);
    if key in s.reviews then
      var row :- ReadReview(s, p.artifactId, p.artifactVersion);
      :- Need(row.facts == p, RecoveryRequired);
      Ok(s)
    else
      :- Need(forall k <- s.reviews :: s.reviews[k].reviewId != Unresolved(s, p).reviewId, RecoveryRequired);
      :- Need(p.proposal.Some? ==> ProposalAuthority(s, p.proposal.value), RecoveryRequired);
      Ok(s.(reviews := s.reviews[key := Unresolved(s, p)]))
  }

  /** Appends one annotation to its exact version Review; decision authority is untouched. */
  function AppendJudgement(s: Store, j: Judgement): Result<Store, Refusal> {
    var admitted := j.Shaped() && j.target.ArtifactVersion? && j.workspaceId == s.workspaceId;
    :- Need(admitted, InvalidRequest);
    var target := j.target.version;
    var row :- ReadReview(s, target.artifactId, target.artifactVersion);
    :- Need(OwnsJudgement(row, j), InvalidRequest);
    :- Need(forall k <- row.judgements :: k.requestId != j.requestId, Conflict);
    var updated := row.(judgements := row.judgements + [j]);
    Ok(s.(reviews := s.reviews[(target.artifactId, target.artifactVersion) := updated]))
  }

  datatype Selection = Selection(
    actorId: string, artifactId: string, artifactVersion: int, digest: Digest,
    requestId: string, reason: Option<string>, selectedAt: Time)

  function FindJudgement(judgements: seq<Judgement>, requestId: string): (found: Option<Judgement>)
    ensures found.None? <==> forall j <- judgements :: j.requestId != requestId
    ensures found.Some? ==> found.value in judgements && found.value.requestId == requestId
  {
    if judgements == [] then None
    else if judgements[0].requestId == requestId then Some(judgements[0])
    else
      var rest := FindJudgement(judgements[1..], requestId);
      assert judgements == [judgements[0]] + judgements[1..];
      rest
  }

  /** Records a candidate choice, or on replay finds the retained one. */
  function SelectCandidate(s: Store, x: Selection, replay: bool): Result<(Store, Review), Refusal> {
    var shaped := x.actorId != "" && x.requestId != "" && x.reason != Some("");
    :- Need(shaped, InvalidRequest);
    var row :- ReadReview(s, x.artifactId, x.artifactVersion);
    :- Need(row.facts.digest == x.digest, Stale);
    match FindJudgement(row.judgements, x.requestId)
    case Some(prior) =>
      :- Need(prior.kind.Select? && prior.actorId == x.actorId && prior.note == x.reason, IdempotencyKeyConflict);
      :- Need(replay, RecoveryRequired);
      Ok((s, row))
    case None =>
      :- Need(!replay, RecoveryRequired);
      var choice := row.Identity();
      var s' :- AppendJudgement(s, Judgement(s.workspaceId, x.requestId, x.actorId, x.selectedAt, x.reason,
                                             Select, ArtifactVersion(choice), Chosen(choice)));
      var row' :- ReadReview(s', x.artifactId, x.artifactVersion);
      Ok((s', row'))
  }

  // ----- Decisions -----

  datatype DecisionInput = DecisionInput(
    actorId: string, artifactId: string, artifactVersion: int, decision: Decision,
    feedback: Option<string>, rangeFeedback: Option<Range>, requestId: string)
  {
    predicate Shaped() {
      && actorId != "" && artifactId != "" && artifactVersion > 0 && requestId != ""
      && feedback != Some("")
      && (decision.FollowUp() ==> feedback.Some?)
      && (rangeFeedback.Some? ==> rangeFeedback.value.Shaped())
    }
  }

  /** Exact text, or the identity of a file whose text is not carried. */
  datatype Content = Exact(text: Text) | File(byteLength: int, digest: Digest)
  {
    function ContentDigest(): Digest {
      match this
      case Exact(text) => Sha256(text)
      case File(_, digest) => digest
    }
  }

  datatype FreshDecision = FreshDecision(
    input: DecisionInput, actor: Actor, decidedAt: Time, content: Content, mediaType: MediaType)
  {
    predicate Shaped() {
      && input.Shaped()
      && match content
         case Exact(text) => text != [] && !mediaType.OtherMedia?
         case File(byteLength, _) => 0 <= byteLength <= 1_000_000_000 && mediaType != OtherMedia("")
    }
  }

  datatype DecisionResponse = DecisionResponse(
    reviewId: EntityId, artifactId: string, artifactVersion: int,
    decision: Decision, followUpTurnId: Option<EntityId>)

  /** Projects the response only through the stored-authority check. */
  function ToResponse(s: Store, artifactId: string, version: int): Result<DecisionResponse, Refusal> {
    var row :- ReadReview(s, artifactId, version);
    :- Need(row.decision.Some?, RecoveryRequired);
    Ok(DecisionResponse(row.reviewId, row.facts.artifactId, row.facts.artifactVersion,
                        row.decision.value, row.followUpTurnId))
  }

  predicate InputMatches(r: Review, x: DecisionInput) {
    && r.decision == Some(x.decision)
    && r.decisionActorId == Some(x.actorId)
    && r.feedback == x.feedback
    && r.rangeFeedback == x.rangeFeedback
  }

  /** The base is still current, media-compatible and has no child. */
  function RequireCurrentBase(s: Store, p: Proposal, mediaType: MediaType): Check<Refusal> {
    if !ProposalAuthority(s, p) then Fail(RecoveryRequired)
    else
      var material := s.materials[p.materialId];
      if material.current != Some(p.baseRevisionId) then Fail(Conflict)
      else if mediaType != MediaOf(material.kind) then Fail(RecoveryRequired)
      else Need(forall id <- material.revisions :: material.revisions[id].parent != Some(p.baseRevisionId),
                RecoveryRequired)
  }

  /** The compare-and-set update of the decision columns; a decided row refuses. */
  function UpdateDecision(
      s: Store, key: ReviewKey, x: FreshDecision,
      followUpTurnId: Option<EntityId>, appliedRevisionId: Option<EntityId>): Result<Store, Refusal>
  {
    var undecided := key in s.reviews && s.reviews[key].decision.None?;
    :- Need(undecided, Stale);
    var row := s.reviews[key];
    var decided := row.(
      decision := Some(x.input.decision), decisionActorId := Some(x.input.actorId),
      decisionRequestId := Some(x.input.requestId), feedback := x.input.feedback,
      decidedAt := Some(x.decidedAt), followUpTurnId := followUpTurnId,
      appliedRevisionId := appliedRevisionId, rangeFeedback := x.input.rangeFeedback);
    Ok(s.(reviews := s.reviews[key := decided]))
  }

  /** Saves the accepted content as the base's child, then writes the decision. */
  function ApplyAcceptedProposal(s: Store, row: Review, p: Proposal, x: FreshDecision): Result<Store, Refusal> {
    var exact := x.content.Exact?;
    :- Need(exact, InvalidRequest);
    :- RequireCurrentBase(s, p, x.mediaType);
    match SaveRevision(s, x.actor, p.materialId, x.input.requestId, Some(p.baseRevisionId),
                       x.content.text, row.facts.digest, x.decidedAt)
    case Err(Conflict) => Err(Conflict)
    case Err(_) => Err(RecoveryRequired)
    case Ok((saved, id)) =>
      UpdateDecision(saved, (x.input.artifactId, x.input.artifactVersion), x, None, Some(id))
  }

  /** The three ways a first decision is written: apply the proposal, claim a follow-up, or record it. */
  function WriteDecision(s: Store, row: Review, x: FreshDecision): Result<Store, Refusal> {
    var key := (x.input.artifactId, x.input.artifactVersion);
    var proposal := row.facts.proposal;
    if x.input.decision.Accepted? && proposal.Some? then
      ApplyAcceptedProposal(s, row, proposal.value, x)
    else if x.input.decision.FollowUp() then
      :- Need(row.facts.sourceThreadId.Some? && row.facts.sourceTurnId.Some? && row.facts.sourceAgentId.Some?,
              RecoveryRequired);
      :- Need(proposal.Some? ==> x.content.Exact?, InvalidRequest);
      :- if proposal.Some? then RequireCurrentBase(s, proposal.value, x.mediaType) else Pass;
      UpdateDecision(s, key, x, Some(FollowUpTurn(s, key.0, key.1, x.input.requestId)), None)
    else
      UpdateDecision(s, key, x, None, None)
  }

  /** A first decision on an unresolved row, after its proposal and range are proved current. */
  function FirstDecision(s: Store, row: Review, x: FreshDecision): Result<Store, Refusal> {
    var proposal := row.facts.proposal;
    :- Need(proposal.Some? ==> ProposalAuthority(s, proposal.value), RecoveryRequired);
    :- Need(x.input.rangeFeedback.Some? ==>
              RangeNamesBase(x.input.rangeFeedback.value, proposal) && RangeMatches(s, x.input.rangeFeedback.value),
            InvalidRequest);
    :- Need(x.input.rangeFeedback.Some? ==>
              s.materials[proposal.value.materialId].current == Some(proposal.value.baseRevisionId),
            Conflict);
    WriteDecision(s, row, x)
  }

  /** Claims one first-writer decision; only an own refinement or redo claim may be driven again. */
  function Decide(s: Store, x: FreshDecision): Result<(Store, DecisionResponse), Refusal> {
    var shaped := x.Shaped();
    :- Need(shaped, InvalidRequest);
    var row :- ReadReview(s, x.input.artifactId, x.input.artifactVersion);
    :- Need(x.content.ContentDigest() == row.facts.digest, RecoveryRequired);
    var s' :-
      if row.decision.None? then FirstDecision(s, row, x)
      else
        :- Need(row.decisionRequestId == Some(x.input.requestId), Stale);
        :- Need(InputMatches(row, x.input), IdempotencyKeyConflict);
        :- Need(row.decision.value.FollowUp(), RecoveryRequired);
        Ok(s);
    var response :- ToResponse(s', x.input.artifactId, x.input.artifactVersion);
    Ok((s', response))
  }

  /** Validates a receipt replay against the retained decision owner. */
  function ReplayDecision(s: Store, x: DecisionInput): Result<DecisionResponse, Refusal> {
    var shaped := x.Shaped();
    :- Need(shaped, InvalidRequest);
    var row :- ReadReview(s, x.artifactId, x.artifactVersion);
    :- Need(row.decision.Some? && row.decisionRequestId == Some(x.requestId), RecoveryRequired);
    :- Need(InputMatches(row, x), IdempotencyKeyConflict);
    ToResponse(s, x.artifactId, x.artifactVersion)
  }

  // ----- The five command modes -----

  datatype Artifact = Artifact(
    id: string, workspaceId: string, digest: Digest, threadId: Option<string>, turnId: Option<EntityId>,
    originThreadId: string, originTurnId: EntityId, originRequestId: string,
    lastMutationRequestId: string, createdAt: Time, updatedAt: Time)

  datatype Command =
    | Submit(artifact: Artifact, review: Publication, agentSessionId: string, agentId: string, receipt: ReceiptInput)
    | Judge(publication: Option<Publication>, judgement: Judgement, receipt: ReceiptInput)
    | SelectCandidateCommand(selection: Selection, receipt: ReceiptInput)
    | DecideCommand(attempt: FreshDecision, optionalReceipt: Option<ReceiptInput>)
    | DecisionReceipt(replay: DecisionInput, receipt: ReceiptInput)
  {
    function TheReceipt(): Option<ReceiptInput> {
      if DecideCommand? then optionalReceipt else Some(receipt)
    }
  }

  datatype Response =
    | Submitted(artifactId: string)
    | Judged(judgement: Judgement)
    | Selected(review: Review)
    | Decided(decision: DecisionResponse)
  {
    function Points(): Pointer {
      match this
      case Submitted(id) => ArtifactPointer(id)
      case Judged(j) => JudgementPointer(j.requestId)
      case Selected(review) => ReviewPointer(review.reviewId)
      case Decided(d) => ReviewPointer(d.reviewId)
    }
  }

  predicate ReceiptAdmitted(s: Store, r: ReceiptInput) {
    && r.scope.workspaceId == Some(s.workspaceId)
    && r.scope.coreId.None? && r.scope.userId.None? && r.scope.appId.None?
    && r.key == ReceiptKey(r.command, r.requestId, r.scope)
    && r.createdAt < r.expiresAt
  }

  /** The retained receipt under this key, unless it expired by the command's own clock. */
  function Prior(s: Store, r: Option<ReceiptInput>): Option<Receipt> {
    if r.Some? && r.value.key in s.receipts && r.value.createdAt < s.receipts[r.value.key].expiresAt
    then Some(s.receipts[r.value.key]) else None
  }

  function RunSubmit(s: Store, c: Command, replayed: bool): Result<(Store, Response), Refusal>
    requires c.Submit?
  {
    var a, p, r := c.artifact, c.review, c.receipt;
    :- Need(r.command == ArtifactSubmit && r.responseKind == ArtifactResponse
            && r.requestId == a.originRequestId && a.lastMutationRequestId == r.requestId
            && a.createdAt == r.createdAt && a.updatedAt == r.createdAt && a.workspaceId == s.workspaceId,
            InvalidRequest);
    :- Need(p.artifactId == a.id && p.artifactVersion == 1 && p.digest == a.digest
            && p.sourceThreadId == a.threadId && p.sourceTurnId == a.turnId
            && p.sourceAgentId == Some(c.agentId) && p.createdAt == a.createdAt, InvalidRequest);
    :- Need(a.originTurnId in s.turns, Stale);
    var turn := s.turns[a.originTurnId];
    :- Need(turn.threadId == a.originThreadId && turn.agentSessionId == Some(c.agentSessionId)
            && turn.agentId == Some(c.agentId), Stale);
    var reference := (a.id, a.originTurnId);
    if replayed then
      :- Need((p.artifactId, p.artifactVersion) in s.reviews, Stale);
      :- Need(p.Shaped(), InvalidRequest);
      var row :- ReadReview(s, p.artifactId, p.artifactVersion);
      :- Need(row.facts == p && reference in s.references, RecoveryRequired);
      Ok((s, Submitted(a.id)))
    else
      :- Need(turn.status.Running?, Stale);
      :- Need((a.id, 1) !in s.reviews && reference !in s.references, RecoveryRequired);
      var s' :- CreateReview(s.(references := s.references + {reference}), p);
      Ok((s', Submitted(a.id)))
  }

  /** A judgement may publish the Review of a version no Agent produced. */
  predicate PublicationSource(s: Store, p: Publication) {
    p.sourceTurnId.Some? ==>
      && p.sourceTurnId.value in s.turns
      && var turn := s.turns[p.sourceTurnId.value];
      && turn.status.Completed? && turn.agentId.None? && Some(turn.threadId) == p.sourceThreadId
  }

  function RunJudge(s: Store, c: Command, replayed: bool): Result<(Store, Response), Refusal>
    requires c.Judge?
  {
    var j, r := c.judgement, c.receipt;
    :- Need(r.command == JudgementAdd && r.responseKind == JudgementResponse
            && j.workspaceId == s.workspaceId && j.requestId == r.requestId && j.target.ArtifactVersion?,
            InvalidRequest);
    var target := j.target.version;
    var published :-
      if c.publication.None? then Ok(s)
      else
        var p := c.publication.value;
        :- Need(p.artifactId == target.artifactId && p.artifactVersion == target.artifactVersion
                && p.digest == target.digest && p.proposal.None? && p.sourceAgentId.None?, InvalidRequest);
        :- Need(PublicationSource(s, p), RecoveryRequired);
        if replayed then Ok(s) else CreateReview(s, p);
    var review :- ReadReview(published, target.artifactId, target.artifactVersion);
    var existing := FindJudgement(review.judgements, j.requestId);
    if replayed then
      :- Need(existing == Some(j), RecoveryRequired);
      Ok((published, Judged(j)))
    else
      :- Need(existing.None?, RecoveryRequired);
      var s' :- AppendJudgement(published, j);
      Ok((s', Judged(j)))
  }

  function RunSelect(s: Store, c: Command, replayed: bool): Result<(Store, Response), Refusal>
    requires c.SelectCandidateCommand?
  {
    var r := c.receipt;
    :- Need(r.command == ReviewSelect && r.responseKind == ReviewResponse && r.requestId == c.selection.requestId,
            InvalidRequest);
    var chosen :- SelectCandidate(s, c.selection, replayed);
    Ok((chosen.0, Selected(chosen.1)))
  }

  predicate DecisionReceiptShaped(r: ReceiptInput, requestId: string) {
    r.command == ReviewDecide && r.responseKind == ReviewResponse && r.requestId == requestId
  }

  function RunDecide(s: Store, c: Command, replayed: bool): Result<(Store, Response), Refusal>
    requires c.DecideCommand?
  {
    var x := c.attempt.input;
    :- Need(c.optionalReceipt.Some? ==> DecisionReceiptShaped(c.optionalReceipt.value, x.requestId), InvalidRequest);
    :- Need(c.optionalReceipt.Some? || x.decision.FollowUp(), InvalidRequest);
    if replayed then
      var d :- ReplayDecision(s, x);
      Ok((s, Decided(d)))
    else
      var d :- Decide(s, c.attempt);
      Ok((d.0, Decided(d.1)))
  }

  /** The second phase of refinement and redo: a receipt only over a retained follow-up Turn. */
  function RunDecisionReceipt(s: Store, c: Command): Result<(Store, Response), Refusal>
    requires c.DecisionReceipt?
  {
    var x := c.replay;
    :- Need(DecisionReceiptShaped(c.receipt, x.requestId), InvalidRequest);
    var d :- ReplayDecision(s, x);
    :- Need(x.decision.FollowUp() && d.followUpTurnId.Some? && d.followUpTurnId.value in s.turns, RecoveryRequired);
    Ok((s, Decided(d)))
  }

  function RunMode(s: Store, c: Command, replayed: bool): Result<(Store, Response), Refusal> {
    match c
    case Submit(_, _, _, _, _) => RunSubmit(s, c, replayed)
    case Judge(_, _, _) => RunJudge(s, c, replayed)
    case SelectCandidateCommand(_, _) => RunSelect(s, c, replayed)
    case DecideCommand(_, _) => RunDecide(s, c, replayed)
    case DecisionReceipt(_, _) => RunDecisionReceipt(s, c)
  }

  /** Retains the original receipt and drops the receipts that expired by its clock. */
  function RecordReceipt(s: Store, r: ReceiptInput, pointer: Pointer): Store {
    var written := s.receipts[r.key := Receipt(r.command, r.requestId, r.scope, r.inputHash, r.responseKind,
                                                pointer, r.createdAt, r.expiresAt)];
    s.(receipts :=
         map k | k in written && (r.createdAt < written[k].expiresAt || k.command.OtherCommand?) :: written[k])
  }

  /** One complete Review transition together with its receipt, in one savepoint. */
  function Apply(s: Store, c: Command): Result<(Store, Response), Refusal> {
    var receipt := c.TheReceipt();
    :- Need(receipt.Some? ==> ReceiptAdmitted(s, receipt.value), InvalidRequest);
    var prior := Prior(s, receipt);
    :- Need(prior.Some? ==>
              prior.value.inputHash == receipt.value.inputHash && prior.value.command == receipt.value.command
              && prior.value.scope == receipt.value.scope, IdempotencyKeyConflict);
    :- Need(s.active, Stale);
    var done :- RunMode(s, c, prior.Some?);
    if receipt.None? then Ok(done)
    else if prior.Some? then
      :- Need(prior.value.responseKind == receipt.value.responseKind && prior.value.pointer == done.1.Points(),
              RecoveryRequired);
      Ok(done)
    else
      Ok((RecordReceipt(done.0, receipt.value, done.1.Points()), done.1))
  }
}
