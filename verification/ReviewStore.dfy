/**
 * Rows of the Workspace control store that the Artifact Review authority reads and writes:
 * Reviews with their judgement history, Materials with their immutable revisions, Turns,
 * published references and command receipts.
 *
 * SHA-256 digests and derived entity ids are datatype constructors, hence injective.
 */
module ReviewStore {
  import opened Common

  /** One UTF-16 code unit; source offsets count these. */
  type CodeUnit = u: int | 0 <= u < 65536
  type Text = seq<CodeUnit>
  type Time = int

  datatype Digest = Sha256(content: Text)

  /** An actor acts for one responsible user; a user is responsible for itself. */
  datatype Actor = User(id: string) | Agent(id: string, responsibleUserId: Option<string>)
  {
    function Responsible(): Option<string> {
      match this
      case User(id) => Some(id)
      case Agent(_, user) => user
    }
  }

  datatype EntityId =
    | Opaque(text: string)
    | ReviewOf(workspace: string, artifact: string, version: int)
    | FollowUpTurnOf(workspace: string, artifact: string, version: int, request: string)
    | RevisionSavedBy(actor: Actor, workspace: string, material: string, request: string)

  datatype Decision = Accepted | NeedsRefinement | Redo | Rejected | Deferred
  {
    /** Refinement and redo reserve a follow-up Turn; the other decisions are local. */
    predicate FollowUp() { NeedsRefinement? || Redo? }
  }

  datatype Proposal = Proposal(materialId: string, baseRevisionId: EntityId, baseDigest: Digest)

  datatype Range = Range(
    materialId: string, revisionId: EntityId, digest: Digest,
    start: int, end: int, originalText: Text)
  {
    predicate Shaped() { 0 <= start < end && originalText != [] }
  }

  datatype JudgementKind = Accept | Reject | Rate | Select | Correct
  datatype Version = Version(artifactId: string, artifactVersion: int, digest: Digest)
  datatype Target = ArtifactVersion(version: Version) | OtherTarget(name: string)
  datatype Choice = NoChoice | Chosen(version: Version) | Rating(value: real, lower: real, upper: real)

  datatype Judgement = Judgement(
    workspaceId: string, requestId: string, actorId: string, recordedAt: Time,
    note: Option<string>, kind: JudgementKind, target: Target, choice: Choice)
  {
    /** The record schema: a selection chooses its exact target, a rating lies in its scale. */
    predicate Shaped() {
      && requestId != "" && actorId != "" && note != Some("")
      && match kind
         case Select => choice.Chosen? && (target.ArtifactVersion? ==> choice.version == target.version)
         case Rate => choice.Rating? && choice.lower < choice.upper && choice.lower <= choice.value <= choice.upper
         case Accept => choice.NoChoice?
         case Reject => choice.NoChoice?
         case Correct => !target.ArtifactVersion?
    }
  }

  /** Immutable facts captured when one Artifact version becomes reviewable. */
  datatype Publication = Publication(
    artifactId: string, artifactVersion: int, digest: Digest,
    sourceThreadId: Option<string>, sourceTurnId: Option<EntityId>, sourceAgentId: Option<string>,
    proposal: Option<Proposal>, createdAt: Time)
  {
    predicate Shaped() {
      artifactId != "" && artifactVersion > 0 && sourceAgentId != Some("")
    }
  }

  /** One retained Review row: nullable decision columns are kept separate, as the table keeps them. */
  datatype Review = Review(
    workspaceId: string, reviewId: EntityId, facts: Publication,
    decision: Option<Decision>, decisionActorId: Option<string>, decisionRequestId: Option<string>,
    feedback: Option<string>, decidedAt: Option<Time>, followUpTurnId: Option<EntityId>,
    appliedRevisionId: Option<EntityId>, rangeFeedback: Option<Range>, judgements: seq<Judgement>)
  {
    function Identity(): Version { Version(facts.artifactId, facts.artifactVersion, facts.digest) }
  }

  datatype MaterialKind = Markdown | Plain
  datatype MediaType = TextMarkdown | TextPlain | ApplicationJson | OtherMedia(name: string)

  function MediaOf(kind: MaterialKind): MediaType {
    if kind.Markdown? then TextMarkdown else TextPlain
  }

  datatype Revision = Revision(
    parent: Option<EntityId>, mediaType: MediaType, digest: Digest, content: Text,
    authorId: Option<string>, createdByRequestId: string, createdAt: Time)
  {
    predicate ContentOk() { digest == Sha256(content) }
  }

  datatype Material = Material(kind: MaterialKind, current: Option<EntityId>, revisions: map<EntityId, Revision>)
  {
    /** The current pointer names an intact revision. */
    predicate PointerOk() {
      current.Some? ==> current.value in revisions && revisions[current.value].ContentOk()
    }
  }

  datatype TurnStatus = Running | Completed | OtherStatus
  datatype Turn = Turn(threadId: string, agentId: Option<string>, agentSessionId: Option<string>, status: TurnStatus)

  datatype CommandName = ArtifactSubmit | ReviewSelect | ReviewDecide | JudgementAdd | OtherCommand(name: string)
  datatype ResponseKind = ArtifactResponse | ReviewResponse | JudgementResponse | OtherResponse

  datatype Scope = Scope(
    workspaceId: Option<string>, coreId: Option<string>, userId: Option<string>, appId: Option<string>,
    rest: map<string, string>)

  datatype ReceiptKey = ReceiptKey(command: CommandName, requestId: string, scope: Scope)

  datatype ReceiptInput = ReceiptInput(
    key: ReceiptKey, command: CommandName, requestId: string, scope: Scope,
    inputHash: string, responseKind: ResponseKind, createdAt: Time, expiresAt: Time)

  /** What a command answered with: the kind and id a receipt retains. */
  datatype Pointer =
    | ArtifactPointer(artifactId: string)
    | ReviewPointer(reviewId: EntityId)
    | JudgementPointer(requestId: string)

  datatype Receipt = Receipt(
    command: CommandName, requestId: string, scope: Scope, inputHash: string,
    responseKind: ResponseKind, pointer: Pointer, createdAt: Time, expiresAt: Time)

  type ReviewKey = (string, int)

  datatype Store = Store(
    workspaceId: string,
    active: bool,
    reviews: map<ReviewKey, Review>,
    materials: map<string, Material>,
    turns: map<EntityId, Turn>,
    references: set<(string, EntityId)>,
    receipts: map<ReceiptKey, Receipt>)
}
