/**
 * What every run of Review commands keeps. Other writers of the same Workspace run in between:
 * they append Material revisions, create and complete Turns, publish references, and expire receipts.
 */
module ReviewProperties {
  import opened Common
  import opened ReviewStore
  import opened ReviewAuthority

  // ----- How rows may change -----

  /** A Material's revisions form one chain from its root to its current revision. */
  predicate Linear(m: Material) {
    && (m.current.None? ==> m.revisions == map[])
    && (m.current.Some? ==> m.current.value in m.revisions)
    && (forall id <- m.revisions :: m.revisions[id].parent != m.current)
    && (forall id <- m.revisions :: m.revisions[id].parent.Some? ==> m.revisions[id].parent.value in m.revisions)
    && (forall a <- m.revisions, b <- m.revisions :: m.revisions[a].parent == m.revisions[b].parent ==> a == b)
  }

  /** Revisions are immutable and only appended; the current pointer stays intact. */
  predicate AppendOnly(m: Material, m': Material) {
    && m'.kind == m.kind
    && (forall id <- m.revisions :: id in m'.revisions && m'.revisions[id] == m.revisions[id])
    && (m.current.Some? ==> m'.current.Some?)
    && (m.PointerOk() ==> m'.PointerOk())
    && (Linear(m) ==> Linear(m'))
  }

  predicate MaterialsLater(s: Store, s': Store) {
    && s'.workspaceId == s.workspaceId
    && (forall id <- s.materials :: id in s'.materials && AppendOnly(s.materials[id], s'.materials[id]))
    && (forall id <- s'.materials :: id in s.materials || Linear(s'.materials[id]))
  }

  predicate TurnsLater(s: Store, s': Store) {
    forall id <- s.turns ::
      && id in s'.turns
      && s'.turns[id].threadId == s.turns[id].threadId
      && s'.turns[id].agentId == s.turns[id].agentId
      && s'.turns[id].agentSessionId == s.turns[id].agentSessionId
      && (s.turns[id].status.Completed? ==> s'.turns[id].status.Completed?)
  }

  /** Immutable facts and the first decision tuple never change; history only grows at its end. */
  predicate RowLater(r: Review, r': Review) {
    && r'.workspaceId == r.workspaceId && r'.reviewId == r.reviewId && r'.facts == r.facts
    && r.judgements <= r'.judgements
    && (r.decision.Some? ==> r'.(judgements := r.judgements) == r)
  }

  /** Everything a later store still shows of an earlier one. */
  predicate Later(s: Store, s': Store) {
    && MaterialsLater(s, s')
    && TurnsLater(s, s')
    && s.references <= s'.references
    && (forall k <- s.reviews :: k in s'.reviews && RowLater(s.reviews[k], s'.reviews[k]))
  }

  lemma LaterTransitive(a: Store, b: Store, c: Store)
    requires Later(a, b) && Later(b, c)
    ensures Later(a, c)
  {
    forall id <- a.materials ensures id in c.materials && AppendOnly(a.materials[id], c.materials[id]) {
      assert AppendOnly(a.materials[id], b.materials[id]) && AppendOnly(b.materials[id], c.materials[id]);
    }
    forall id <- c.materials ensures id in a.materials || Linear(c.materials[id]) {
      if id in b.materials && id !in a.materials {
        assert AppendOnly(b.materials[id], c.materials[id]);
      }
    }
    forall k <- a.reviews ensures k in c.reviews && RowLater(a.reviews[k], c.reviews[k]) {
      assert RowLater(a.reviews[k], b.reviews[k]) && RowLater(b.reviews[k], c.reviews[k]);
    }
  }

  lemma LaterIsAnOrder()
    ensures forall a :: Later(a, a)
    ensures forall a, b, c :: Later(a, b) && Later(b, c) ==> Later(a, c)
  {
    forall a, b, c | Later(a, b) && Later(b, c) ensures Later(a, c) {
      LaterTransitive(a, b, c);
    }
  }

  // ----- Steps and runs -----

  /** Other writers: no Review row, and no receipt of a Review command, is theirs to write. */
  predicate OtherWriters(s: Store, s': Store) {
    && s'.reviews == s.reviews
    && MaterialsLater(s, s') && TurnsLater(s, s') && s.references <= s'.references
    && (forall k <- s'.receipts :: k.command.OtherCommand? || (k in s.receipts && s'.receipts[k] == s.receipts[k]))
  }

  predicate Commits(s: Store, c: Command, s': Store) {
    Apply(s, c).Ok? && Apply(s, c).value.0 == s'
  }

  /** The caller sends a local decision with its receipt and a follow-up claim without one. */
  predicate CallerShape(c: Command) {
    c.DecideCommand? ==> (c.optionalReceipt.Some? <==> !c.attempt.input.decision.FollowUp())
  }

  ghost predicate Step(s: Store, s': Store) {
    OtherWriters(s, s') || exists c :: Commits(s, c, s')
  }

  ghost predicate Run(states: seq<Store>) {
    states != [] && forall i | 0 <= i < |states| - 1 :: Step(states[i], states[i + 1])
  }

  /** The same runs when every command comes from the operations caller. */
  ghost predicate CallerStep(s: Store, s': Store) {
    OtherWriters(s, s') || exists c :: CallerShape(c) && Commits(s, c, s')
  }

  ghost predicate CallerRun(states: seq<Store>) {
    states != [] && forall i | 0 <= i < |states| - 1 :: CallerStep(states[i], states[i + 1])
  }

  // ----- Invariants -----

  /** Both Reviews were accepted into the same Material on the same base revision. */
  predicate SameAcceptance(r: Review, q: Review) {
    && r.decision == Some(Accepted) && q.decision == Some(Accepted)
    && r.facts.proposal.Some? && q.facts.proposal.Some?
    && r.facts.proposal.value.materialId == q.facts.proposal.value.materialId
    && r.facts.proposal.value.baseRevisionId == q.facts.proposal.value.baseRevisionId
  }

  predicate RowOk(s: Store, k: ReviewKey, r: Review) {
    && r.workspaceId == s.workspaceId && r.facts.artifactId == k.0 && r.facts.artifactVersion == k.1
    && StoredOk(s, r)
    && (r.decision.Some? && r.decision.value.FollowUp() ==>
          r.followUpTurnId == Some(FollowUpTurn(s, k.0, k.1, r.decisionRequestId.value)))
  }

  /** Every row passes its own reader, Materials are chains, and acceptance is unique per base. */
  predicate Coherent(s: Store) {
    && (forall k <- s.reviews :: RowOk(s, k, s.reviews[k]))
    && (forall id <- s.materials :: Linear(s.materials[id]))
    && (forall k <- s.reviews, l <- s.reviews :: SameAcceptance(s.reviews[k], s.reviews[l]) ==> k == l)
  }

  /** A stored row stays readable whatever later writers append. */
  lemma StoredStaysOk(s: Store, s': Store, r: Review)
    requires MaterialsLater(s, s') && StoredOk(s, r)
    ensures StoredOk(s', r)
  {
    if r.facts.proposal.Some? {
      var id := r.facts.proposal.value.materialId;
      assert AppendOnly(s.materials[id], s'.materials[id]);
    }
    if r.rangeFeedback.Some? {
      var id := r.rangeFeedback.value.materialId;
      assert AppendOnly(s.materials[id], s'.materials[id]);
    }
  }

  /** A new revision on top of the current one keeps the chain. */
  lemma ExtendChain(m: Material, id: EntityId, revision: Revision)
    requires Linear(m) && id !in m.revisions && revision.parent == m.current && revision.ContentOk()
    ensures AppendOnly(m, m.(current := Some(id), revisions := m.revisions[id := revision]))
  {
    var revisions := m.revisions[id := revision];
    forall r <- revisions
      ensures revisions[r].parent != Some(id) && (revisions[r].parent.Some? ==> revisions[r].parent.value in revisions)
    {
      if r != id { assert revisions[r] == m.revisions[r]; }
    }
    forall a <- revisions, b <- revisions ensures revisions[a].parent == revisions[b].parent ==> a == b {
      if a != id && b != id { assert revisions[a] == m.revisions[a] && revisions[b] == m.revisions[b]; }
    }
  }

  /** The one Material writer appends to the chain. */
  lemma SaveRevisionAppends(
      s: Store, actor: Actor, materialId: string, requestId: string,
      expected: Option<EntityId>, content: Text, digest: Digest, acceptedAt: Time)
    requires forall id <- s.materials :: Linear(s.materials[id])
    ensures var saved := SaveRevision(s, actor, materialId, requestId, expected, content, digest, acceptedAt);
            saved.Ok? ==> MaterialsLater(s, saved.value.0) && saved.value.0.reviews == s.reviews
  {
    var saved := SaveRevision(s, actor, materialId, requestId, expected, content, digest, acceptedAt);
    if saved.Ok? {
      var revision := Revision(expected, MediaOf(s.materials[materialId].kind), digest, content, actor.Responsible(),
                               requestId, acceptedAt);
      ExtendChain(s.materials[materialId], saved.value.1, revision);
    }
  }

  /** Writing one sound row keeps everything else. */
  lemma WriteRow(s: Store, s': Store, k: ReviewKey, row: Review)
    requires Coherent(s)
    requires MaterialsLater(s, s') && TurnsLater(s, s') && s.references <= s'.references
    requires s'.reviews == s.reviews[k := row]
    requires k in s.reviews ==> RowLater(s.reviews[k], row)
    requires RowOk(s', k, row)
    requires forall l <- s.reviews :: l != k ==> !SameAcceptance(row, s.reviews[l])
    ensures Coherent(s') && Later(s, s')
  {
    RowsStayOk(s, s', k, row);
    AcceptancesStayUnique(s, s', k, row);
    ChainsStayLinear(s, s');
    WriteIsLater(s, s', k, row);
  }

  lemma ChainsStayLinear(s: Store, s': Store)
    requires MaterialsLater(s, s') && forall id <- s.materials :: Linear(s.materials[id])
    ensures forall id <- s'.materials :: Linear(s'.materials[id])
  {
    forall id <- s'.materials ensures Linear(s'.materials[id]) {
      if id in s.materials { assert AppendOnly(s.materials[id], s'.materials[id]); }
    }
  }

  lemma WriteIsLater(s: Store, s': Store, k: ReviewKey, row: Review)
    requires MaterialsLater(s, s') && TurnsLater(s, s') && s.references <= s'.references
    requires s'.reviews == s.reviews[k := row] && (k in s.reviews ==> RowLater(s.reviews[k], row))
    ensures Later(s, s')
  {
  }

  lemma RowsStayOk(s: Store, s': Store, k: ReviewKey, row: Review)
    requires MaterialsLater(s, s') && s'.reviews == s.reviews[k := row] && RowOk(s', k, row)
    requires forall l <- s.reviews :: RowOk(s, l, s.reviews[l])
    ensures forall l <- s'.reviews :: RowOk(s', l, s'.reviews[l])
  {
    forall l <- s'.reviews ensures RowOk(s', l, s'.reviews[l]) {
      if l != k { StoredStaysOk(s, s', s.reviews[l]); }
    }
  }

  lemma AcceptancesStayUnique(s: Store, s': Store, k: ReviewKey, row: Review)
    requires forall a <- s.reviews, b <- s.reviews :: SameAcceptance(s.reviews[a], s.reviews[b]) ==> a == b
    requires s'.reviews == s.reviews[k := row] && forall l <- s.reviews :: l != k ==> !SameAcceptance(row, s.reviews[l])
    ensures forall a <- s'.reviews, b <- s'.reviews :: SameAcceptance(s'.reviews[a], s'.reviews[b]) ==> a == b
  {
  }

  /** No other Review was accepted on a base that has no child yet. */
  lemma ChildlessBaseIsUnclaimed(s: Store, row: Review, l: ReviewKey)
    requires Coherent(s) && l in s.reviews && row.facts.proposal.Some?
    requires row.facts.proposal.value.materialId in s.materials
    requires var m := s.materials[row.facts.proposal.value.materialId];
             forall id <- m.revisions :: m.revisions[id].parent != Some(row.facts.proposal.value.baseRevisionId)
    ensures !SameAcceptance(row, s.reviews[l])
  {
    assert RowOk(s, l, s.reviews[l]);
  }

  lemma UnresolvedIsOk(s: Store, p: Publication)
    requires p.Shaped() && (p.proposal.Some? ==> ProposalAuthority(s, p.proposal.value))
    ensures RowOk(s, (p.artifactId, p.artifactVersion), Unresolved(s, p))
  {
  }

  lemma UnresolvedRowKeeps(s: Store, p: Publication)
    requires Coherent(s) && (p.artifactId, p.artifactVersion) !in s.reviews
    requires p.Shaped() && (p.proposal.Some? ==> ProposalAuthority(s, p.proposal.value))
    ensures var s' := s.(reviews := s.reviews[(p.artifactId, p.artifactVersion) := Unresolved(s, p)]);
            Coherent(s') && Later(s, s')
  {
    var key := (p.artifactId, p.artifactVersion);
    var s' := s.(reviews := s.reviews[key := Unresolved(s, p)]);
    UnresolvedIsOk(s', p);
    WriteRow(s, s', key, Unresolved(s, p));
  }

  lemma CreateKeeps(s: Store, p: Publication)
    requires Coherent(s) && CreateReview(s, p).Ok?
    ensures Coherent(CreateReview(s, p).value) && Later(s, CreateReview(s, p).value)
  {
    if (p.artifactId, p.artifactVersion) !in s.reviews { UnresolvedRowKeeps(s, p); }
  }

  lemma AppendedIsOk(s: Store, k: ReviewKey, row: Review, j: Judgement)
    requires RowOk(s, k, row) && j.Shaped() && OwnsJudgement(row, j)
             && forall q <- row.judgements :: q.requestId != j.requestId
    ensures RowOk(s, k, row.(judgements := row.judgements + [j]))
  {
  }

  lemma AppendedRowKeeps(s: Store, key: ReviewKey, j: Judgement)
    requires Coherent(s) && key in s.reviews && j.Shaped() && OwnsJudgement(s.reviews[key], j)
    requires forall q <- s.reviews[key].judgements :: q.requestId != j.requestId
    ensures var row := s.reviews[key];
            var s' := s.(reviews := s.reviews[key := row.(judgements := row.judgements + [j])]);
            Coherent(s') && Later(s, s')
  {
    var row := s.reviews[key];
    var updated := row.(judgements := row.judgements + [j]);
    var s' := s.(reviews := s.reviews[key := updated]);
    AppendedIsOk(s, key, row, j);
    StoredStaysOk(s, s', updated);
    WriteRow(s, s', key, updated);
  }

  lemma AppendKeeps(s: Store, j: Judgement)
    requires Coherent(s) && AppendJudgement(s, j).Ok?
    ensures var s' := AppendJudgement(s, j).value;
            var k := (j.target.version.artifactId, j.target.version.artifactVersion);
            && Coherent(s') && Later(s, s')
            && s'.reviews[k].judgements == s.reviews[k].judgements + [j]
  {
    AppendedRowKeeps(s, (j.target.version.artifactId, j.target.version.artifactVersion), j);
  }

  /** The only row a decision writes is its own, and only its decision columns. */
  predicate WritesVerdict(s: Store, s': Store, x: FreshDecision) {
    var key := (x.input.artifactId, x.input.artifactVersion);
    && key in s.reviews && key in s'.reviews
    && s'.reviews == s.reviews[key := s'.reviews[key]]
    && s'.turns == s.turns && s'.references == s.references && s'.receipts == s.receipts
    && s'.active == s.active && s'.workspaceId == s.workspaceId
    && var row, row' := s.reviews[key], s'.reviews[key];
    && row.decision.None?
    && row'.workspaceId == row.workspaceId && row'.reviewId == row.reviewId
    && row'.facts == row.facts && row'.judgements == row.judgements
    && row'.decision == Some(x.input.decision) && row'.decisionActorId == Some(x.input.actorId)
    && row'.decisionRequestId == Some(x.input.requestId) && row'.feedback == x.input.feedback
    && row'.rangeFeedback == x.input.rangeFeedback
    && (x.input.decision.FollowUp() ==> row'.followUpTurnId == Some(FollowUpTurn(s, key.0, key.1, x.input.requestId)))
  }

  predicate AllLinear(s: Store) {
    forall id <- s.materials :: Linear(s.materials[id])
  }

  /** Acceptance needs a base without a child. */
  lemma AcceptedBaseIsChildless(s: Store, row: Review, p: Proposal, x: FreshDecision)
    requires ApplyAcceptedProposal(s, row, p, x).Ok?
    ensures p.materialId in s.materials
    ensures forall id <- s.materials[p.materialId].revisions ::
              s.materials[p.materialId].revisions[id].parent != Some(p.baseRevisionId)
  {
    assert RequireCurrentBase(s, p, x.mediaType).Pass?;
  }

  /** The revision that an acceptance saves: the Artifact's content on top of the base. */
  function SavedAcceptance(s: Store, row: Review, p: Proposal, x: FreshDecision): Result<(Store, EntityId), Refusal>
    requires x.content.Exact?
  {
    SaveRevision(s, x.actor, p.materialId, x.input.requestId, Some(p.baseRevisionId), x.content.text,
                 row.facts.digest, x.decidedAt)
  }

  lemma AcceptanceUnfolds(s: Store, row: Review, p: Proposal, x: FreshDecision)
    requires ApplyAcceptedProposal(s, row, p, x).Ok?
    ensures x.content.Exact? && SavedAcceptance(s, row, p, x).Ok?
    ensures var (mid, id) := SavedAcceptance(s, row, p, x).value;
            && mid == s.(materials := mid.materials)
            && UpdateDecision(mid, (x.input.artifactId, x.input.artifactVersion), x, None, Some(id))
               == ApplyAcceptedProposal(s, row, p, x)
  {
  }

  /** The decision written over a store whose Materials were extended. */
  lemma AcceptanceFrom(s: Store, mid: Store, s': Store, x: FreshDecision, id: EntityId)
    requires x.input.decision.Accepted? && MaterialsLater(s, mid) && mid == s.(materials := mid.materials)
    requires UpdateDecision(mid, (x.input.artifactId, x.input.artifactVersion), x, None, Some(id)) == Ok(s')
    ensures WritesVerdict(s, s', x) && MaterialsLater(s, s')
  {
    UpdateWrites(mid, x, None, Some(id));
    VerdictSince(s, mid, s', x);
  }

  lemma AcceptanceWrites(s: Store, row: Review, p: Proposal, x: FreshDecision)
    requires AllLinear(s) && x.input.decision.Accepted? && ApplyAcceptedProposal(s, row, p, x).Ok?
    ensures WritesVerdict(s, ApplyAcceptedProposal(s, row, p, x).value, x)
    ensures MaterialsLater(s, ApplyAcceptedProposal(s, row, p, x).value)
  {
    AcceptanceUnfolds(s, row, p, x);
    SaveRevisionAppends(s, x.actor, p.materialId, x.input.requestId, Some(p.baseRevisionId),
                        x.content.text, row.facts.digest, x.decidedAt);
    var (mid, id) := SavedAcceptance(s, row, p, x).value;
    AcceptanceFrom(s, mid, ApplyAcceptedProposal(s, row, p, x).value, x, id);
  }

  /** A verdict written after a Material change is a verdict on the store before it. */
  lemma VerdictSince(s: Store, mid: Store, s': Store, x: FreshDecision)
    requires WritesVerdict(mid, s', x) && MaterialsLater(s, mid) && s'.materials == mid.materials
    requires mid == s.(materials := mid.materials)
    ensures WritesVerdict(s, s', x) && MaterialsLater(s, s')
  {
  }

  lemma UpdateWrites(s: Store, x: FreshDecision, turn: Option<EntityId>, applied: Option<EntityId>)
    requires UpdateDecision(s, (x.input.artifactId, x.input.artifactVersion), x, turn, applied).Ok?
    requires x.input.decision.FollowUp() ==>
               turn == Some(FollowUpTurn(s, x.input.artifactId, x.input.artifactVersion, x.input.requestId))
    ensures var s' := UpdateDecision(s, (x.input.artifactId, x.input.artifactVersion), x, turn, applied).value;
            WritesVerdict(s, s', x) && MaterialsLater(s, s') && s'.materials == s.materials
  {
  }

  lemma DecisionWrites(s: Store, row: Review, x: FreshDecision)
    requires AllLinear(s) && WriteDecision(s, row, x).Ok?
    ensures WritesVerdict(s, WriteDecision(s, row, x).value, x)
    ensures MaterialsLater(s, WriteDecision(s, row, x).value)
  {
    var key := (x.input.artifactId, x.input.artifactVersion);
    if x.input.decision.Accepted? && row.facts.proposal.Some? {
      AcceptanceWrites(s, row, row.facts.proposal.value, x);
    } else if x.input.decision.FollowUp() {
      UpdateWrites(s, x, Some(FollowUpTurn(s, key.0, key.1, x.input.requestId)), None);
    } else {
      UpdateWrites(s, x, None, None);
    }
  }

  lemma FirstAcceptanceIsUnclaimed(s: Store, x: FreshDecision, k: ReviewKey, l: ReviewKey)
    requires Coherent(s) && k in s.reviews && l in s.reviews && k == (x.input.artifactId, x.input.artifactVersion)
    requires WriteDecision(s, s.reviews[k], x).Ok?
    requires k in WriteDecision(s, s.reviews[k], x).value.reviews
    ensures !SameAcceptance(WriteDecision(s, s.reviews[k], x).value.reviews[k], s.reviews[l])
  {
    var row := s.reviews[k];
    DecisionWrites(s, row, x);
    if x.input.decision.Accepted? && row.facts.proposal.Some? {
      AcceptedBaseIsChildless(s, row, row.facts.proposal.value, x);
      ChildlessBaseIsUnclaimed(s, row.(decision := Some(Accepted)), l);
    }
  }

  lemma VerdictKeeps(s: Store, s': Store, x: FreshDecision)
    requires Coherent(s) && WritesVerdict(s, s', x) && MaterialsLater(s, s')
    requires var key := (x.input.artifactId, x.input.artifactVersion);
             && StoredOk(s', s'.reviews[key])
             && forall l <- s.reviews :: l != key ==> !SameAcceptance(s'.reviews[key], s.reviews[l])
    ensures Coherent(s') && Later(s, s')
  {
    var key := (x.input.artifactId, x.input.artifactVersion);
    assert RowOk(s, key, s.reviews[key]);
    WriteRow(s, s', key, s'.reviews[key]);
  }

  /** A successful decide writes a first verdict that its own reader accepts, or changes nothing. */
  lemma DecideUnfolds(s: Store, x: FreshDecision)
    requires Decide(s, x).Ok?
    ensures var key := (x.input.artifactId, x.input.artifactVersion);
            var s' := Decide(s, x).value.0;
            && key in s.reviews && key in s'.reviews && StoredOk(s', s'.reviews[key])
            && Decide(s, x).value.1.reviewId == s'.reviews[key].reviewId
            && (if s.reviews[key].decision.None? then WriteDecision(s, s.reviews[key], x) == Ok(s') else s' == s)
  {
  }

  /** On a decided row only the same request with the same input succeeds. */
  lemma DecideRepeats(s: Store, x: FreshDecision)
    requires Decide(s, x).Ok? && (x.input.artifactId, x.input.artifactVersion) in s.reviews
    requires s.reviews[(x.input.artifactId, x.input.artifactVersion)].decision.Some?
    ensures var row := s.reviews[(x.input.artifactId, x.input.artifactVersion)];
            InputMatches(row, x.input) && row.decisionRequestId == Some(x.input.requestId)
  {
  }

  lemma FirstVerdictKeeps(s: Store, x: FreshDecision, s': Store)
    requires Coherent(s) && (x.input.artifactId, x.input.artifactVersion) in s.reviews
    requires WriteDecision(s, s.reviews[(x.input.artifactId, x.input.artifactVersion)], x) == Ok(s')
    requires (x.input.artifactId, x.input.artifactVersion) in s'.reviews
    requires StoredOk(s', s'.reviews[(x.input.artifactId, x.input.artifactVersion)])
    ensures Coherent(s') && Later(s, s')
  {
    var key := (x.input.artifactId, x.input.artifactVersion);
    DecisionWrites(s, s.reviews[key], x);
    forall l <- s.reviews ensures !SameAcceptance(s'.reviews[key], s.reviews[l]) {
      FirstAcceptanceIsUnclaimed(s, x, key, l);
    }
    VerdictKeeps(s, s', x);
  }

  lemma DecideKeeps(s: Store, x: FreshDecision)
    requires Coherent(s) && Decide(s, x).Ok?
    ensures Coherent(Decide(s, x).value.0) && Later(s, Decide(s, x).value.0)
  {
    DecideUnfolds(s, x);
    if s.reviews[(x.input.artifactId, x.input.artifactVersion)].decision.None? {
      FirstVerdictKeeps(s, x, Decide(s, x).value.0);
    }
  }

  /** References and receipts do not enter a row's authority. */
  lemma SameRowsKeep(s: Store, s': Store)
    requires Coherent(s)
    requires s'.reviews == s.reviews && s'.workspaceId == s.workspaceId
    requires MaterialsLater(s, s') && TurnsLater(s, s') && s.references <= s'.references
    ensures Coherent(s') && Later(s, s')
  {
    forall l <- s'.reviews ensures RowOk(s', l, s'.reviews[l]) {
      StoredStaysOk(s, s', s.reviews[l]);
    }
  }

  lemma PublishKeeps(s: Store, reference: (string, EntityId), p: Publication)
    requires Coherent(s) && CreateReview(s.(references := s.references + {reference}), p).Ok?
    ensures var s' := CreateReview(s.(references := s.references + {reference}), p).value; Coherent(s') && Later(s, s')
  {
    var published := s.(references := s.references + {reference});
    SameRowsKeep(s, published);
    CreateKeeps(published, p);
    LaterTransitive(s, published, CreateReview(published, p).value);
  }

  lemma SubmitCreates(s: Store, c: Command)
    requires c.Submit? && RunSubmit(s, c, false).Ok?
    ensures CreateReview(s.(references := s.references + {(c.artifact.id, c.artifact.originTurnId)}), c.review)
            == Ok(RunSubmit(s, c, false).value.0)
  {
  }

  lemma SubmitReplays(s: Store, c: Command)
    requires c.Submit? && RunSubmit(s, c, true).Ok?
    ensures RunSubmit(s, c, true).value.0 == s
  {
  }

  lemma SubmitKeeps(s: Store, c: Command, replayed: bool)
    requires c.Submit? && Coherent(s) && RunSubmit(s, c, replayed).Ok?
    ensures Coherent(RunSubmit(s, c, replayed).value.0) && Later(s, RunSubmit(s, c, replayed).value.0)
  {
    if replayed {
      SubmitReplays(s, c);
    } else {
      SubmitCreates(s, c);
      PublishKeeps(s, (c.artifact.id, c.artifact.originTurnId), c.review);
    }
  }

  /** The store a judgement appends to: with its publication created first, when it carries one. */
  function Published(s: Store, c: Command): Store
    requires c.Judge?
  {
    if c.publication.Some? && CreateReview(s, c.publication.value).Ok?
    then CreateReview(s, c.publication.value).value else s
  }

  lemma JudgeAppends(s: Store, c: Command)
    requires c.Judge? && RunJudge(s, c, false).Ok?
    ensures c.publication.Some? ==> CreateReview(s, c.publication.value).Ok?
    ensures AppendJudgement(Published(s, c), c.judgement) == Ok(RunJudge(s, c, false).value.0)
    ensures RunJudge(s, c, false).value.1 == Judged(c.judgement)
  {
  }

  lemma JudgeReplays(s: Store, c: Command)
    requires c.Judge? && RunJudge(s, c, true).Ok?
    ensures RunJudge(s, c, true).value == (s, Judged(c.judgement))
  {
  }

  /** Publishing the Review first changes Reviews only. */
  lemma PublishedOnlyAdds(s: Store, c: Command)
    requires c.Judge?
    ensures Published(s, c) == s.(reviews := Published(s, c).reviews)
  {
  }

  lemma AppendOnlyAdds(s: Store, j: Judgement)
    requires AppendJudgement(s, j).Ok?
    ensures AppendJudgement(s, j).value == s.(reviews := AppendJudgement(s, j).value.reviews)
  {
  }

  lemma PublishedKeeps(s: Store, c: Command)
    requires c.Judge? && Coherent(s)
    ensures Coherent(Published(s, c)) && Later(s, Published(s, c))
  {
    if c.publication.Some? && CreateReview(s, c.publication.value).Ok? { CreateKeeps(s, c.publication.value); }
  }

  lemma AppendLater(s: Store, mid: Store, j: Judgement)
    requires Coherent(mid) && Later(s, mid) && AppendJudgement(mid, j).Ok?
    ensures Coherent(AppendJudgement(mid, j).value) && Later(s, AppendJudgement(mid, j).value)
  {
    AppendKeeps(mid, j);
    LaterTransitive(s, mid, AppendJudgement(mid, j).value);
  }

  lemma JudgeKeeps(s: Store, c: Command, replayed: bool)
    requires c.Judge? && Coherent(s) && RunJudge(s, c, replayed).Ok?
    ensures Coherent(RunJudge(s, c, replayed).value.0) && Later(s, RunJudge(s, c, replayed).value.0)
  {
    if !replayed {
      JudgeAppends(s, c);
      PublishedKeeps(s, c);
      AppendLater(s, Published(s, c), c.judgement);
    } else {
      JudgeReplays(s, c);
    }
  }

  function ChoiceOf(s: Store, row: Review, x: Selection): Judgement {
    Judgement(s.workspaceId, x.requestId, x.actorId, x.selectedAt, x.reason,
              Select, ArtifactVersion(row.Identity()), Chosen(row.Identity()))
  }

  lemma SelectReplays(s: Store, c: Command)
    requires c.SelectCandidateCommand? && RunSelect(s, c, true).Ok?
    ensures RunSelect(s, c, true).value.0 == s
  {
  }

  lemma SelectAppends(s: Store, c: Command)
    requires c.SelectCandidateCommand? && RunSelect(s, c, false).Ok?
    ensures (c.selection.artifactId, c.selection.artifactVersion) in s.reviews
    ensures var row := s.reviews[(c.selection.artifactId, c.selection.artifactVersion)];
            AppendJudgement(s, ChoiceOf(s, row, c.selection)) == Ok(RunSelect(s, c, false).value.0)
  {
  }

  lemma SelectKeeps(s: Store, c: Command, replayed: bool)
    requires c.SelectCandidateCommand? && Coherent(s) && RunSelect(s, c, replayed).Ok?
    ensures Coherent(RunSelect(s, c, replayed).value.0) && Later(s, RunSelect(s, c, replayed).value.0)
  {
    if replayed {
      SelectReplays(s, c);
    } else {
      SelectAppends(s, c);
      AppendKeeps(s, ChoiceOf(s, s.reviews[(c.selection.artifactId, c.selection.artifactVersion)], c.selection));
    }
  }

  lemma RunModeKeeps(s: Store, c: Command, replayed: bool)
    requires Coherent(s) && RunMode(s, c, replayed).Ok?
    ensures Coherent(RunMode(s, c, replayed).value.0) && Later(s, RunMode(s, c, replayed).value.0)
  {
    match c
    case Submit(_, _, _, _, _) => SubmitKeeps(s, c, replayed);
    case Judge(_, _, _) => JudgeKeeps(s, c, replayed);
    case SelectCandidateCommand(_, _) => SelectKeeps(s, c, replayed);
    case DecideCommand(_, _) => DecideModeKeeps(s, c, replayed);
    case DecisionReceipt(_, _) => DecisionReceiptReads(s, c);
  }

  lemma DecideModeKeeps(s: Store, c: Command, replayed: bool)
    requires c.DecideCommand? && Coherent(s) && RunDecide(s, c, replayed).Ok?
    ensures Coherent(RunDecide(s, c, replayed).value.0) && Later(s, RunDecide(s, c, replayed).value.0)
  {
    if replayed {
      DecideModeReplays(s, c);
    } else {
      DecideModeDecides(s, c);
      DecideKeeps(s, c.attempt);
    }
  }

  lemma DecideModeReplays(s: Store, c: Command)
    requires c.DecideCommand? && RunDecide(s, c, true).Ok?
    ensures RunDecide(s, c, true).value.0 == s
  {
  }

  lemma DecideModeDecides(s: Store, c: Command)
    requires c.DecideCommand? && RunDecide(s, c, false).Ok?
    ensures Decide(s, c.attempt).Ok? && RunDecide(s, c, false).value.0 == Decide(s, c.attempt).value.0
  {
  }

  lemma DecisionReceiptReads(s: Store, c: Command)
    requires c.DecisionReceipt? && RunDecisionReceipt(s, c).Ok?
    ensures RunDecisionReceipt(s, c).value.0 == s
  {
  }

  /** A commit is a mode's result with at most the receipts changed. */
  lemma CommitUnfolds(s: Store, c: Command, s': Store)
    requires Commits(s, c, s')
    ensures var done := RunMode(s, c, Prior(s, c.TheReceipt()).Some?);
            done.Ok? && s' == done.value.0.(receipts := s'.receipts)
  {
  }

  lemma ReceiptsKeep(s: Store, mid: Store, s': Store)
    requires Coherent(mid) && Later(s, mid) && s' == mid.(receipts := s'.receipts)
    ensures Coherent(s') && Later(s, s')
  {
    SameRowsKeep(mid, s');
  }

  lemma CommitKeeps(s: Store, c: Command, s': Store)
    requires Coherent(s) && Commits(s, c, s')
    ensures Coherent(s') && Later(s, s')
  {
    CommitUnfolds(s, c, s');
    RunModeKeeps(s, c, Prior(s, c.TheReceipt()).Some?);
    ReceiptsKeep(s, RunMode(s, c, Prior(s, c.TheReceipt()).Some?).value.0, s');
  }

  // ----- Whole runs -----

  lemma StepKeeps(s: Store, s': Store)
    requires Coherent(s) && Step(s, s')
    ensures Coherent(s') && Later(s, s')
  {
    if OtherWriters(s, s') {
      SameRowsKeep(s, s');
    } else {
      var c :| Commits(s, c, s');
      CommitKeeps(s, c, s');
    }
  }

  /** The writer never produces a row its own reader calls contradictory. */
  lemma {:induction false} RunStaysCoherent(states: seq<Store>, i: nat)
    requires Run(states) && i < |states|
    requires states[0].reviews == map[] && states[0].materials == map[]
    ensures Coherent(states[i])
  {
    if i > 0 {
      RunStaysCoherent(states, i - 1);
      StepKeeps(states[i - 1], states[i]);
    }
  }

  /** Immutable facts, the first decision and every earlier judgement survive any run. */
  lemma RunOnlyGrows(states: seq<Store>, i: nat, j: nat)
    requires Run(states) && i <= j < |states|
    requires states[0].reviews == map[] && states[0].materials == map[]
    ensures Later(states[i], states[j])
  {
    forall n | 0 < n < |states| ensures Later(states[n - 1], states[n]) {
      RunStaysCoherent(states, n - 1);
      StepKeeps(states[n - 1], states[n]);
    }
    LaterIsAnOrder();
    Chains(states, Later, i, j);
  }

  /** An acceptance owns its base's only child, which carries the Artifact's bytes. */
  lemma AcceptanceOwnsTheChild(s: Store, k: ReviewKey)
    requires Coherent(s) && k in s.reviews
    requires s.reviews[k].decision == Some(Accepted) && s.reviews[k].facts.proposal.Some?
    ensures var row := s.reviews[k];
            var p := row.facts.proposal.value;
            && p.materialId in s.materials && row.appliedRevisionId.Some?
            && var revisions := s.materials[p.materialId].revisions;
            && row.appliedRevisionId.value in revisions
            && revisions[row.appliedRevisionId.value].digest == row.facts.digest
            && forall id <- revisions ::
                 revisions[id].parent == Some(p.baseRevisionId) <==> id == row.appliedRevisionId.value
  {
    assert RowOk(s, k, s.reviews[k]);
    assert Linear(s.materials[s.reviews[k].facts.proposal.value.materialId]);
  }

  /** At most one Review is ever accepted per Material and base revision, at whatever points of a run. */
  lemma AcceptedOncePerBase(states: seq<Store>, i: nat, j: nat, k: ReviewKey, l: ReviewKey)
    requires Run(states) && i <= j < |states|
    requires states[0].reviews == map[] && states[0].materials == map[]
    requires k in states[i].reviews && l in states[j].reviews
    requires SameAcceptance(states[i].reviews[k], states[j].reviews[l])
    ensures k == l && states[j].reviews[k].appliedRevisionId == states[i].reviews[k].appliedRevisionId
  {
    RunOnlyGrows(states, i, j);
    RunStaysCoherent(states, j);
    assert SameAcceptance(states[j].reviews[k], states[j].reviews[l]);
  }

  // ----- Receipts and the two-phase follow-up -----

  /** A decision receipt stands on a decided row, and for a follow-up also on its deterministic Turn. */
  predicate Backed(s: Store, key: ReceiptKey, pointer: Pointer) {
    && pointer.ReviewPointer? && pointer.reviewId.ReviewOf?
    && var k := (pointer.reviewId.artifact, pointer.reviewId.version);
    && k in s.reviews
    && var row := s.reviews[k];
    && row.decision.Some? && row.decisionRequestId == Some(key.requestId)
    && (row.decision.value.FollowUp() ==> FollowUpTurn(s, k.0, k.1, key.requestId) in s.turns)
  }

  predicate ReceiptsBacked(s: Store) {
    forall key <- s.receipts :: key.command.ReviewDecide? ==> Backed(s, key, s.receipts[key].pointer)
  }

  lemma BackedLater(s: Store, s': Store, key: ReceiptKey, pointer: Pointer)
    requires Later(s, s') && Backed(s, key, pointer)
    ensures Backed(s', key, pointer)
  {
    var k := (pointer.reviewId.artifact, pointer.reviewId.version);
    assert RowLater(s.reviews[k], s'.reviews[k]);
  }

  /** The decision a fresh local decide leaves behind. */
  lemma DecideLeaves(s: Store, x: FreshDecision)
    requires Coherent(s) && Decide(s, x).Ok?
    ensures var s' := Decide(s, x).value.0;
            var response := Decide(s, x).value.1;
            var k := (x.input.artifactId, x.input.artifactVersion);
            && k in s'.reviews
            && InputMatches(s'.reviews[k], x.input)
            && s'.reviews[k].decisionRequestId == Some(x.input.requestId)
            && response.reviewId == ReviewOf(s.workspaceId, k.0, k.1)
            && s'.reviews == s.reviews[k := s'.reviews[k]]
            && s'.receipts == s.receipts && s'.turns == s.turns && s'.workspaceId == s.workspaceId
  {
    var k := (x.input.artifactId, x.input.artifactVersion);
    DecideUnfolds(s, x);
    assert RowOk(s, k, s.reviews[k]);
    if s.reviews[k].decision.None? {
      DecisionWrites(s, s.reviews[k], x);
    } else {
      DecideRepeats(s, x);
    }
  }

  predicate SkipsTheTurn(s: Store, c: Command) {
    && c.DecideCommand? && c.optionalReceipt.Some? && Prior(s, c.optionalReceipt).None?
    && var x := c.attempt.input;
    x.decision.FollowUp() && FollowUpTurn(s, x.artifactId, x.artifactVersion, x.requestId) !in s.turns
  }

  /** A fresh decision receipt is recorded only over what it promises. */
  lemma FreshReceiptIsBacked(s: Store, c: Command)
    requires Coherent(s) && c.TheReceipt().Some? && c.TheReceipt().value.key.command.ReviewDecide?
    requires Prior(s, c.TheReceipt()).None? && !SkipsTheTurn(s, c)
    requires ReceiptAdmitted(s, c.TheReceipt().value) && RunMode(s, c, false).Ok?
    ensures Backed(RunMode(s, c, false).value.0, c.TheReceipt().value.key, RunMode(s, c, false).value.1.Points())
  {
    match c
    case DecideCommand(_, _) => FreshDecideIsBacked(s, c);
    case DecisionReceipt(_, _) => FreshDecisionReceiptIsBacked(s, c);
    case Submit(_, _, _, _, _) =>
    case Judge(_, _, _) =>
    case SelectCandidateCommand(_, _) =>
  }

  lemma FreshDecideIsBacked(s: Store, c: Command)
    requires c.DecideCommand? && c.optionalReceipt.Some? && Coherent(s) && ReceiptAdmitted(s, c.optionalReceipt.value)
    requires Prior(s, c.optionalReceipt).None? && !SkipsTheTurn(s, c) && RunDecide(s, c, false).Ok?
    ensures Backed(RunDecide(s, c, false).value.0, c.optionalReceipt.value.key,
                   RunDecide(s, c, false).value.1.Points())
  {
    DecideLeaves(s, c.attempt);
  }

  lemma FreshDecisionReceiptIsBacked(s: Store, c: Command)
    requires c.DecisionReceipt? && Coherent(s) && ReceiptAdmitted(s, c.receipt) && RunDecisionReceipt(s, c).Ok?
    ensures Backed(RunDecisionReceipt(s, c).value.0, c.receipt.key, RunDecisionReceipt(s, c).value.1.Points())
  {
    var k := (c.replay.artifactId, c.replay.artifactVersion);
    assert RowOk(s, k, s.reviews[k]);
  }

  lemma CommitKeepsReceipts(s: Store, c: Command, s': Store)
    requires Coherent(s) && ReceiptsBacked(s) && !SkipsTheTurn(s, c) && Commits(s, c, s')
    ensures ReceiptsBacked(s')
  {
    CommitKeeps(s, c, s');
    RunModeReceipts(s, c, Prior(s, c.TheReceipt()).Some?);
    forall key <- s'.receipts ensures key.command.ReviewDecide? ==> Backed(s', key, s'.receipts[key].pointer) {
      if key.command.ReviewDecide? {
        CommittedReceipt(s, c, s', key);
        if IsFresh(s, c, key) {
          FreshIsBacked(s, c, s', key);
        } else {
          BackedLater(s, s', key, s.receipts[key].pointer);
        }
      }
    }
  }

  /** The command writes this receipt now. */
  predicate IsFresh(s: Store, c: Command, key: ReceiptKey) {
    c.TheReceipt().Some? && Prior(s, c.TheReceipt()).None? && key == c.TheReceipt().value.key
  }

  /** A receipt after a commit is the command's own fresh one, or was there before. */
  lemma CommittedReceipt(s: Store, c: Command, s': Store, key: ReceiptKey)
    requires Commits(s, c, s') && key in s'.receipts
    requires RunMode(s, c, Prior(s, c.TheReceipt()).Some?).Ok? ==>
               RunMode(s, c, Prior(s, c.TheReceipt()).Some?).value.0.receipts == s.receipts
    ensures if IsFresh(s, c, key) then s'.receipts[key].pointer == Apply(s, c).value.1.Points()
            else key in s.receipts && s'.receipts[key] == s.receipts[key]
  {
  }

  lemma FreshIsBacked(s: Store, c: Command, s': Store, key: ReceiptKey)
    requires Coherent(s) && !SkipsTheTurn(s, c) && Commits(s, c, s') && IsFresh(s, c, key) && key.command.ReviewDecide?
    ensures Backed(s', key, Apply(s, c).value.1.Points())
  {
    FreshReceiptIsBacked(s, c);
    CommitUnfolds(s, c, s');
  }

  /** No mode writes receipts itself. */
  lemma RunModeReceipts(s: Store, c: Command, replayed: bool)
    requires Coherent(s) && RunMode(s, c, replayed).Ok?
    ensures RunMode(s, c, replayed).value.0.receipts == s.receipts
  {
    match c
    case Submit(_, _, _, _, _) => SubmitWrites(s, c, replayed);
    case Judge(_, _, _) => JudgeWrites(s, c, replayed);
    case SelectCandidateCommand(_, _) => SelectWrites(s, c, replayed);
    case DecideCommand(x, _) => if !replayed { DecideLeaves(s, x); }
    case DecisionReceipt(_, _) =>
  }

  /** Receipts and every decided row are as before; undecided rows stay undecided. */
  predicate DecidesNothing(s: Store, s': Store) {
    && s'.receipts == s.receipts
    && forall k <- s'.reviews :: s'.reviews[k].decision.Some? ==> k in s.reviews && s.reviews[k].decision.Some?
  }

  lemma SubmitWrites(s: Store, c: Command, replayed: bool)
    requires c.Submit? && RunSubmit(s, c, replayed).Ok?
    ensures DecidesNothing(s, RunSubmit(s, c, replayed).value.0)
  {
  }

  lemma CreateDecidesNothing(s: Store, p: Publication)
    requires CreateReview(s, p).Ok?
    ensures DecidesNothing(s, CreateReview(s, p).value)
  {
  }

  lemma AppendDecidesNothing(s: Store, j: Judgement)
    requires AppendJudgement(s, j).Ok?
    ensures DecidesNothing(s, AppendJudgement(s, j).value)
  {
  }

  lemma JudgeWrites(s: Store, c: Command, replayed: bool)
    requires c.Judge? && RunJudge(s, c, replayed).Ok?
    ensures DecidesNothing(s, RunJudge(s, c, replayed).value.0)
  {
    if replayed {
      JudgeReplays(s, c);
    } else {
      JudgeAppends(s, c);
      if c.publication.Some? { CreateDecidesNothing(s, c.publication.value); }
      AppendDecidesNothing(Published(s, c), c.judgement);
    }
  }

  lemma SelectWrites(s: Store, c: Command, replayed: bool)
    requires c.SelectCandidateCommand? && RunSelect(s, c, replayed).Ok?
    ensures DecidesNothing(s, RunSelect(s, c, replayed).value.0)
  {
  }

  /** Over every caller run a refinement or redo receipt exists only when its Turn exists. */
  lemma {:induction false} ReceiptImpliesTurn(states: seq<Store>, i: nat)
    requires CallerRun(states) && i < |states|
    requires states[0].reviews == map[] && states[0].materials == map[] && states[0].receipts == map[]
    ensures Coherent(states[i]) && ReceiptsBacked(states[i])
  {
    if i > 0 {
      ReceiptImpliesTurn(states, i - 1);
      var s, s' := states[i - 1], states[i];
      assert CallerStep(s, s');
      StepKeeps(s, s');
      if OtherWriters(s, s') {
        forall key <- s'.receipts ensures key.command.ReviewDecide? ==> Backed(s', key, s'.receipts[key].pointer) {
          if key.command.ReviewDecide? { BackedLater(s, s', key, s.receipts[key].pointer); }
        }
      } else {
        var c :| CallerShape(c) && Commits(s, c, s');
        CommitKeepsReceipts(s, c, s');
      }
    }
  }

  /** An accepted, rejected or deferred decision commits together with its receipt. */
  lemma LocalDecisionCarriesReceipt(s: Store, c: Command, s': Store, k: ReviewKey)
    requires Coherent(s) && CallerShape(c) && Commits(s, c, s')
    requires k in s'.reviews && s'.reviews[k].decision.Some? && !s'.reviews[k].decision.value.FollowUp()
    requires k !in s.reviews || s.reviews[k].decision.None?
    ensures c.DecideCommand? && c.optionalReceipt.Some?
    ensures var key := c.optionalReceipt.value.key;
            && key.command == ReviewDecide && s'.reviews[k].decisionRequestId == Some(key.requestId)
            && key in s'.receipts && s'.receipts[key].pointer == ReviewPointer(s'.reviews[k].reviewId)
  {
    var replayed := Prior(s, c.TheReceipt()).Some?;
    RunModeDecides(s, c, replayed, k);
    CommitKeeps(s, c, s');
    assert RowOk(s', k, s'.reviews[k]);
  }

  /** Only a fresh decide decides a row, and only the row it names. */
  lemma RunModeDecides(s: Store, c: Command, replayed: bool, k: ReviewKey)
    requires Coherent(s) && RunMode(s, c, replayed).Ok?
    requires k in RunMode(s, c, replayed).value.0.reviews && RunMode(s, c, replayed).value.0.reviews[k].decision.Some?
    requires k !in s.reviews || s.reviews[k].decision.None?
    ensures c.DecideCommand? && !replayed
    ensures k == (c.attempt.input.artifactId, c.attempt.input.artifactVersion)
    ensures RunMode(s, c, replayed).value.0.reviews[k].decision == Some(c.attempt.input.decision)
    ensures RunMode(s, c, replayed).value.0.reviews[k].decisionRequestId == Some(c.attempt.input.requestId)
    ensures RunMode(s, c, replayed).value.1.Points() == ReviewPointer(ReviewOf(s.workspaceId, k.0, k.1))
  {
    match c
    case Submit(_, _, _, _, _) => SubmitWrites(s, c, replayed);
    case Judge(_, _, _) => JudgeWrites(s, c, replayed);
    case SelectCandidateCommand(_, _) => SelectWrites(s, c, replayed);
    case DecideCommand(x, _) => if !replayed { DecideLeaves(s, x); }
    case DecisionReceipt(_, _) =>
  }

  lemma DecideAgain(s: Store, x: FreshDecision, row: Review)
    requires x.Shaped() && x.input.decision.FollowUp()
    requires (x.input.artifactId, x.input.artifactVersion) in s.reviews
    requires row == s.reviews[(x.input.artifactId, x.input.artifactVersion)] && StoredOk(s, row)
    requires row.decisionRequestId == Some(x.input.requestId) && InputMatches(row, x.input)
    requires x.content.ContentDigest() == row.facts.digest
    ensures Decide(s, x) == Ok((s, DecisionResponse(row.reviewId, row.facts.artifactId, row.facts.artifactVersion,
                                                    x.input.decision, row.followUpTurnId)))
  {
  }

  /** Driving a receiptless claim again with the same request changes nothing and names the same Turn. */
  lemma ClaimRedrives(s: Store, s': Store, x: FreshDecision)
    requires Coherent(s) && Later(s, s') && Coherent(s') && s'.active
    requires x.Shaped() && x.input.decision.FollowUp()
    requires var k := (x.input.artifactId, x.input.artifactVersion);
             && k in s.reviews
             && s.reviews[k].decisionRequestId == Some(x.input.requestId)
             && InputMatches(s.reviews[k], x.input)
             && x.content.ContentDigest() == s.reviews[k].facts.digest
    ensures var redriven := Apply(s', DecideCommand(x, None));
            && redriven.Ok? && redriven.value.0 == s'
            && redriven.value.1.Decided?
            && redriven.value.1.decision.followUpTurnId
               == Some(FollowUpTurnOf(s.workspaceId, x.input.artifactId, x.input.artifactVersion, x.input.requestId))
  {
    var k := (x.input.artifactId, x.input.artifactVersion);
    assert RowLater(s.reviews[k], s'.reviews[k]) && RowOk(s', k, s'.reviews[k]);
    DecideAgain(s', x, s'.reviews[k]);
    ApplyDecides(s', x);
  }

  lemma ApplyDecides(s: Store, x: FreshDecision)
    requires s.active && x.input.decision.FollowUp() && Decide(s, x).Ok?
    ensures Apply(s, DecideCommand(x, None)) == Ok((Decide(s, x).value.0, Decided(Decide(s, x).value.1)))
  {
    assert RunMode(s, DecideCommand(x, None), false) == RunDecide(s, DecideCommand(x, None), false);
  }

  /** A fresh decide with a receipt records that receipt over its decision. */
  lemma DecideRecords(s: Store, c: Command, s': Store)
    requires Commits(s, c, s') && c.DecideCommand? && c.optionalReceipt.Some? && Prior(s, c.optionalReceipt).None?
    ensures Decide(s, c.attempt).Ok? && c.optionalReceipt.value.createdAt < c.optionalReceipt.value.expiresAt
    ensures c.optionalReceipt.value.key.command == ReviewDecide
    ensures c.optionalReceipt.value.key.requestId == c.attempt.input.requestId
    ensures s' == RecordReceipt(Decide(s, c.attempt).value.0, c.optionalReceipt.value,
                                ReviewPointer(Decide(s, c.attempt).value.1.reviewId))
  {
    assert RunMode(s, c, false) == RunDecide(s, c, false);
  }

  lemma SkippingBreaks(s: Store, c: Command, s': Store)
    requires Coherent(s) && Commits(s, c, s') && SkipsTheTurn(s, c)
    ensures !ReceiptsBacked(s')
  {
    DecideRecords(s, c, s');
    DecideLeaves(s, c.attempt);
    var key := c.optionalReceipt.value.key;
    assert key in s'.receipts && !Backed(s', key, s'.receipts[key].pointer);
  }

  /**
   * Exactly one command shape breaks the two-phase rule, and the caller never sends it: a fresh
   * follow-up decide that carries a receipt while the Turn does not exist yet.
   */
  lemma TwoPhaseExactly(s: Store, c: Command, s': Store)
    requires Coherent(s) && ReceiptsBacked(s) && Commits(s, c, s')
    ensures ReceiptsBacked(s') <==> !SkipsTheTurn(s, c)
    ensures CallerShape(c) ==> !SkipsTheTurn(s, c)
  {
    if SkipsTheTurn(s, c) {
      SkippingBreaks(s, c, s');
    } else {
      CommitKeepsReceipts(s, c, s');
    }
  }

  /** A store with one unresolved Review that an Agent produced, and no Turn. */
  function OneReview(): Store {
    var p := Publication("artifact", 1, Sha256([1]), Some("thread"), Some(Opaque("turn")), Some("agent"), None, 0);
    var empty := Store("workspace", true, map[], map[], map[], {}, map[]);
    empty.(reviews := map[("artifact", 1) := Unresolved(empty, p)])
  }

  /** A redo of that Review which carries its receipt at once. */
  function SkippingCommand(): Command {
    var scope := Scope(Some("workspace"), None, None, None, map[]);
    var input := DecisionInput("user", "artifact", 1, Redo, Some("again"), None, "request");
    DecideCommand(
      FreshDecision(input, User("user"), 0, Exact([1]), TextPlain),
      Some(ReceiptInput(ReceiptKey(ReviewDecide, "request", scope), ReviewDecide, "request", scope,
                        "hash", ReviewResponse, 0, 1)))
  }

  lemma OneReviewIsSound()
    ensures Coherent(OneReview()) && ReceiptsBacked(OneReview())
  {
    var s := OneReview();
    UnresolvedIsOk(s, s.reviews[("artifact", 1)].facts);
  }

  lemma SkippingDecides()
    ensures Decide(OneReview(), SkippingCommand().attempt).Ok?
  {
    var s, x := OneReview(), SkippingCommand().attempt;
    assert WriteDecision(s, s.reviews[("artifact", 1)], x).Ok?;
  }

  lemma SkippingCommits()
    ensures Apply(OneReview(), SkippingCommand()).Ok?
  {
    var s, c := OneReview(), SkippingCommand();
    SkippingDecides();
    assert RunMode(s, c, false) == RunDecide(s, c, false);
  }

  /** The authority does admit such a command: its receipt stands without a Turn. */
  lemma TurnMayBeSkipped()
    ensures var s, c := OneReview(), SkippingCommand();
            && Coherent(s) && ReceiptsBacked(s) && SkipsTheTurn(s, c)
            && Apply(s, c).Ok? && !ReceiptsBacked(Apply(s, c).value.0)
  {
    OneReviewIsSound();
    SkippingCommits();
    TwoPhaseExactly(OneReview(), SkippingCommand(), Apply(OneReview(), SkippingCommand()).value.0);
  }
}
