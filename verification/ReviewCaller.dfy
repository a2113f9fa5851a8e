/**
 * The refinement and redo flow of the operations caller: claim, reserve and start the follow-up
 * Turn, then commit the receipt. Between any two steps other writers act and competing callers send
 * any Review command, for the same Review too; the process may stop after any of its own effects, and
 * the same request may be driven again later.
 */
module ReviewCaller {
  import opened Common
  import opened ReviewStore
  import opened ReviewAuthority
  import opened ReviewProperties

  datatype Outcome = Answered(decision: DecisionResponse) | Refused | Interrupted

  /** The deterministic follow-up Turn of a decision. */
  function TurnOf(s: Store, x: DecisionInput): EntityId {
    FollowUpTurn(s, x.artifactId, x.artifactVersion, x.requestId)
  }

  /** The Review was decided by this very request. */
  predicate DecidedBy(s: Store, x: DecisionInput) {
    && (x.artifactId, x.artifactVersion) in s.reviews
    && var row := s.reviews[(x.artifactId, x.artifactVersion)];
    row.decisionRequestId == Some(x.requestId) && InputMatches(row, x)
  }

  /** The Review was decided by another request. */
  predicate DecidedElsewhere(s: Store, x: DecisionInput) {
    && (x.artifactId, x.artifactVersion) in s.reviews
    && var row := s.reviews[(x.artifactId, x.artifactVersion)];
    row.decision.Some? && row.decisionRequestId != Some(x.requestId)
  }

  /** The answer of this request: it decided the Review, and its receipt and its Turn exist. */
  predicate AnswersFor(s: Store, x: DecisionInput, receipt: ReceiptInput, answer: DecisionResponse) {
    && DecidedBy(s, x) && TurnOf(s, x) in s.turns && answer.followUpTurnId == Some(TurnOf(s, x))
    && receipt.key in s.receipts && s.receipts[receipt.key].inputHash == receipt.inputHash
  }

  class Caller {
    var store: Store
    /** Follow-up Turns this flow has started, in order. */
    ghost var started: seq<EntityId>
    /** How often this flow changed the store, and how often other parties did. */
    ghost var ours: nat
    ghost var theirs: nat

    ghost predicate Valid()
      reads this
    {
      && Coherent(store) && ReceiptsBacked(store)
      && (forall i | 0 <= i < |started| :: started[i] in store.turns)
      && (forall i, j | 0 <= i < j < |started| :: started[i] != started[j])
    }

    constructor (initial: Store)
      requires Coherent(initial) && ReceiptsBacked(initial)
      ensures Valid() && store == initial && started == []
    {
      store := initial;
      started := [];
      ours, theirs := 0, 0;
    }

    /** One step of a writer that owns no Review row. */
    method WriteElsewhere()
      requires Valid()
      modifies this`store, this`theirs
      ensures Valid() && Later(old(store), store) && theirs == old(theirs) + 1
    {
      assert OtherWriters(store, store);
      var next :| OtherWriters(store, next);
      assert OtherWriters(store, next);
      SameRowsKeep(store, next);
      OthersKeepReceipts(store, next);
      store, theirs := next, theirs + 1;
    }

    /** One command of a competing caller. */
    method CommandElsewhere(c: Command)
      requires Valid() && CallerShape(c)
      modifies this`store, this`theirs
      ensures Valid() && Later(old(store), store) && theirs == old(theirs) + 1
    {
      LaterIsAnOrder();
      var done := Apply(store, c);
      if done.Ok? {
        CommitKeeps(store, c, done.value.0);
        CommitKeepsReceipts(store, c, done.value.0);
        store := done.value.0;
      }
      theirs := theirs + 1;
    }

    /** Any number of steps of the other parties. */
    method Elsewhere()
      requires Valid()
      modifies this`store, this`theirs
      ensures Valid() && Later(old(store), store) && old(theirs) <= theirs
      ensures theirs == old(theirs) ==> store == old(store)
    {
      LaterIsAnOrder();
      var steps: nat := *;
      while steps > 0
        invariant Valid() && Later(old(store), store) && old(theirs) <= theirs
        invariant theirs == old(theirs) ==> store == old(store)
      {
        var c: Command := *;
        if CallerShape(c) { CommandElsewhere(c); } else { WriteElsewhere(); }
        steps := steps - 1;
      }
    }

    /** Sends one command to the database worker; a refusal leaves the store as it was. */
    method Execute(c: Command) returns (r: Result<Response, Refusal>)
      requires Valid() && CallerShape(c)
      modifies this`store, this`ours
      ensures Valid() && Later(old(store), store)
      ensures r == (match Apply(old(store), c) case Ok((_, response)) => Ok(response) case Err(e) => Err(e))
      ensures store == (match Apply(old(store), c) case Ok((s, _)) => s case Err(_) => old(store))
      ensures store.turns == old(store).turns
      ensures ours == old(ours) + if store == old(store) then 0 else 1
    {
      var done := Apply(store, c);
      if done.Ok? {
        var next := done.value.0;
        CommitKeeps(store, c, next);
        CommitKeepsReceipts(store, c, next);
        ApplyKeepsTurns(store, c);
        ours := ours + if next == store then 0 else 1;
        store := next;
        r := Ok(done.value.1);
      } else {
        r := Err(done.error);
        LaterIsAnOrder();
      }
    }

    /** Starts the worker Turn under its reserved id; its record is created only where none exists. */
    method StartTurn(id: EntityId, turn: Turn) returns (created: bool)
      requires Valid()
      modifies this`store, this`started, this`ours
      ensures Valid() && Later(old(store), store)
      ensures created <==> id !in old(store).turns
      ensures store == if created then old(store).(turns := old(store).turns[id := turn]) else old(store)
      ensures started == if created then old(started) + [id] else old(started)
    {
      LaterIsAnOrder();
      created := id !in store.turns;
      if created {
        var next := store.(turns := store.turns[id := turn]);
        assert OtherWriters(store, next);
        SameRowsKeep(store, next);
        OthersKeepReceipts(store, next);
        store, started, ours := next, started + [id], ours + 1;
      }
    }

    /** Claims a decided Review again: only its own request may, and nothing is written. */
    method ClaimAgain(x: FreshDecision) returns (claimed: bool)
      requires Valid() && x.input.decision.FollowUp() && (x.input.artifactId, x.input.artifactVersion) in store.reviews
      requires store.reviews[(x.input.artifactId, x.input.artifactVersion)].decision.Some?
      modifies this`store, this`ours
      ensures Valid() && store == old(store) && ours == old(ours)
      ensures claimed ==> !DecidedElsewhere(store, x.input)
    {
      ClaimAgainReads(store, x);
      var done := Execute(DecideCommand(x, None));
      claimed := done.Ok?;
    }

    /** Reads the Review while others act; a decision that was there is seen and stays. */
    method Peek(x: DecisionInput) returns (read: Option<Review>)
      requires Valid()
      modifies this`store, this`theirs
      ensures Valid() && Later(old(store), store) && old(theirs) <= theirs
      ensures theirs == old(theirs) ==> store == old(store)
      ensures read.Some? && read.value.decision.Some? ==>
                && (x.artifactId, x.artifactVersion) in store.reviews
                && store.reviews[(x.artifactId, x.artifactVersion)].decision.Some?
      ensures DecidedElsewhere(old(store), x) && read.Some? ==>
                read.value.decision.Some? && DecidedElsewhere(store, x)
    {
      Elsewhere();
      ghost var seen := store;
      if DecidedElsewhere(old(store), x) { DecidedStays(old(store), seen, x); }
      var row := ReadReview(store, x.artifactId, x.artifactVersion);
      if row.Err? { return None; }
      Elsewhere();
      LaterTransitive(old(store), seen, store);
      if row.value.decision.Some? { DecidedStays(seen, store, x); }
      read := Some(row.value);
    }

    /**
     * The first part of a fresh drive: a decided Review is claimed again, which changes nothing, and a
     * follow-up identity that already has its Turn is refused.
     */
    method Admit(x: FreshDecision, eligible: bool) returns (review: Option<Review>)
      requires Valid() && x.input.decision.FollowUp()
      modifies this`store, this`ours, this`theirs
      ensures Valid() && Later(old(store), store) && old(theirs) <= theirs
      ensures ours == old(ours) && (theirs == old(theirs) ==> store == old(store))
      ensures TurnOf(old(store), x.input) in old(store).turns || DecidedElsewhere(old(store), x.input) ==> review.None?
    {
      var read := Peek(x.input);
      if read.None? { return None; }
      if read.value.decision.Some? {
        var claimed := ClaimAgain(x);
        if !claimed { return None; }
        ghost var seen := store;
        Elsewhere();
        LaterTransitive(old(store), seen, store);
      }
      if TurnOf(store, x.input) in store.turns || !eligible { return None; }
      review := read;
    }

    /** Commits the receipt over the Turn that was started. */
    method Commit(x: DecisionInput, receipt: ReceiptInput) returns (outcome: Outcome)
      requires Valid()
      modifies this`store, this`ours
      ensures Valid() && Later(old(store), store) && !outcome.Interrupted?
      ensures outcome.Answered? ==> AnswersFor(store, x, receipt, outcome.decision)
    {
      ghost var before := store;
      var committed := Execute(DecisionReceipt(x, receipt));
      if committed.Err? { return Refused; }
      AnsweredByReceipt(before, x, receipt);
      return Answered(committed.value.decision);
    }

    /** The first claim of a Review that was undecided when it was read. */
    method Claim(x: FreshDecision) returns (claimed: Result<Response, Refusal>)
      requires Valid() && x.input.decision.FollowUp()
      modifies this`store, this`ours, this`theirs
      ensures Valid() && Later(old(store), store)
    {
      Elsewhere();
      ghost var seen := store;
      claimed := Execute(DecideCommand(x, None));
      LaterTransitive(old(store), seen, store);
    }

    /** The effects of an admitted drive: the claim if it is still missing, the Turn and the receipt. */
    method Follow(x: FreshDecision, receipt: ReceiptInput, turn: Turn, unclaimed: bool) returns (outcome: Outcome)
      requires Valid() && x.input.decision.FollowUp()
      modifies this
      ensures Valid() && Later(old(store), store)
      ensures old(started) <= started <= old(started) + [TurnOf(store, x.input)]
      ensures outcome.Answered? ==> AnswersFor(store, x.input, receipt, outcome.decision)
    {
      var id := TurnOf(store, x.input);
      assert started <= started + [id];
      if unclaimed {
        var claimed := Claim(x);
        if claimed.Err? { return Refused; }
        if * { return Interrupted; }
      }
      LaterIsAnOrder();
      Elsewhere();
      var created := StartTurn(id, turn);
      if !created { return Refused; }
      if * { return Interrupted; }
      Elsewhere();
      outcome := Commit(x.input, receipt);
    }

    /**
     * Drives one refinement or redo request. Whatever happens, no follow-up Turn is ever started
     * twice, and an answer means that this request decided the Review and that its receipt and its
     * Turn exist. A request whose Turn exists without its receipt, and one that finds the Review decided
     * by another request, is refused and writes nothing.
     */
    method Drive(x: FreshDecision, receipt: ReceiptInput, turn: Turn, eligible: bool) returns (outcome: Outcome)
      requires Valid() && x.input.decision.FollowUp()
      modifies this
      ensures Valid() && Later(old(store), store)
      ensures old(started) <= started <= old(started) + [TurnOf(store, x.input)]
      ensures outcome.Answered? ==> AnswersFor(store, x.input, receipt, outcome.decision)
      ensures || DecidedElsewhere(old(store), x.input)
              || (Prior(old(store), Some(receipt)).None? && TurnOf(old(store), x.input) in old(store).turns)
              ==> && outcome.Refused? && started == old(started) && ours == old(ours)
                  && (theirs == old(theirs) ==> store == old(store))
    {
      LaterIsAnOrder();
      var id := TurnOf(store, x.input);
      assert started <= started + [id];
      var prior := Prior(store, Some(receipt));
      if prior.Some? {
        var replay := ReplayDecision(store, x.input);
        if prior.value.inputHash != receipt.inputHash || replay.Err?
           || prior.value.pointer != ReviewPointer(replay.value.reviewId) || id !in store.turns {
          return Refused;
        }
        ReplayedDecision(store, x.input);
        return Answered(replay.value);
      }
      var review := Admit(x, eligible);
      if review.None? { return Refused; }
      if * { return Interrupted; }
      ghost var admitted := store;
      outcome := Follow(x, receipt, turn, review.value.decision.None?);
      LaterTransitive(old(store), admitted, store);
    }
  }

  /** Other writers leave every decision receipt as well founded as it was. */
  lemma OthersKeepReceipts(s: Store, s': Store)
    requires ReceiptsBacked(s) && OtherWriters(s, s') && Later(s, s')
    ensures ReceiptsBacked(s')
  {
    forall key <- s'.receipts ensures key.command.ReviewDecide? ==> Backed(s', key, s'.receipts[key].pointer) {
      if key.command.ReviewDecide? { BackedLater(s, s', key, s.receipts[key].pointer); }
    }
  }

  /** A first decision is never replaced. */
  lemma DecidedStays(s: Store, s': Store, x: DecisionInput)
    requires Later(s, s') && (x.artifactId, x.artifactVersion) in s.reviews
    requires s.reviews[(x.artifactId, x.artifactVersion)].decision.Some?
    ensures (x.artifactId, x.artifactVersion) in s'.reviews
    ensures s'.reviews[(x.artifactId, x.artifactVersion)].decision.Some?
    ensures DecidedElsewhere(s, x) ==> DecidedElsewhere(s', x)
  {
    var k := (x.artifactId, x.artifactVersion);
    assert RowLater(s.reviews[k], s'.reviews[k]);
  }

  /** Claiming a decided Review changes nothing, and is refused to any other request. */
  lemma ClaimAgainReads(s: Store, x: FreshDecision)
    requires Coherent(s) && (x.input.artifactId, x.input.artifactVersion) in s.reviews
    requires s.reviews[(x.input.artifactId, x.input.artifactVersion)].decision.Some?
    ensures Apply(s, DecideCommand(x, None)).Ok? ==>
              Apply(s, DecideCommand(x, None)).value.0 == s && !DecidedElsewhere(s, x.input)
  {
    if Apply(s, DecideCommand(x, None)).Ok? {
      assert RunMode(s, DecideCommand(x, None), false) == RunDecide(s, DecideCommand(x, None), false);
      DecideUnfolds(s, x);
      DecideRepeats(s, x);
    }
  }

  /** An answered replay names the decision of this very request and its follow-up Turn. */
  lemma ReplayedDecision(s: Store, x: DecisionInput)
    requires Coherent(s) && x.decision.FollowUp() && ReplayDecision(s, x).Ok?
    ensures DecidedBy(s, x) && !DecidedElsewhere(s, x)
    ensures ReplayDecision(s, x).value.followUpTurnId == Some(TurnOf(s, x))
  {
    var k := (x.artifactId, x.artifactVersion);
    assert RowOk(s, k, s.reviews[k]);
  }

  predicate SameTurns(s: Store, s': Store) {
    s'.turns == s.turns && s'.workspaceId == s.workspaceId
  }

  /** No Review command creates or removes a Turn, or renames the Workspace. */
  lemma ApplyKeepsTurns(s: Store, c: Command)
    requires Coherent(s) && Apply(s, c).Ok?
    ensures SameTurns(s, Apply(s, c).value.0)
  {
    ModeKeepsTurns(s, c, Prior(s, c.TheReceipt()).Some?);
  }

  lemma ModeKeepsTurns(s: Store, c: Command, replayed: bool)
    requires Coherent(s) && RunMode(s, c, replayed).Ok?
    ensures SameTurns(s, RunMode(s, c, replayed).value.0)
  {
    match c
    case Submit(_, _, _, _, _) => SubmitKeepsTurns(s, c, replayed);
    case Judge(_, _, _) => JudgeKeepsTurns(s, c, replayed);
    case SelectCandidateCommand(_, _) => SelectKeepsTurns(s, c, replayed);
    case DecideCommand(x, _) => if !replayed { DecideLeaves(s, x); }
    case DecisionReceipt(_, _) =>
  }

  lemma SubmitKeepsTurns(s: Store, c: Command, replayed: bool)
    requires c.Submit? && RunSubmit(s, c, replayed).Ok?
    ensures SameTurns(s, RunSubmit(s, c, replayed).value.0)
  {
  }

  lemma SelectKeepsTurns(s: Store, c: Command, replayed: bool)
    requires c.SelectCandidateCommand? && RunSelect(s, c, replayed).Ok?
    ensures SameTurns(s, RunSelect(s, c, replayed).value.0)
  {
  }

  lemma JudgeKeepsTurns(s: Store, c: Command, replayed: bool)
    requires c.Judge? && RunJudge(s, c, replayed).Ok?
    ensures SameTurns(s, RunJudge(s, c, replayed).value.0)
  {
    if replayed {
      JudgeReplays(s, c);
    } else {
      JudgeAppends(s, c);
      PublishedOnlyAdds(s, c);
      AppendOnlyAdds(Published(s, c), c.judgement);
    }
  }

  /** A committed second phase retains its receipt over its own decision and an existing Turn. */
  lemma AnsweredByReceipt(s: Store, x: DecisionInput, receipt: ReceiptInput)
    requires Coherent(s) && Apply(s, DecisionReceipt(x, receipt)).Ok?
    ensures var done := Apply(s, DecisionReceipt(x, receipt)).value;
            done.1.Decided? && AnswersFor(done.0, x, receipt, done.1.decision)
  {
    assert RunMode(s, DecisionReceipt(x, receipt), Prior(s, Some(receipt)).Some?)
           == RunDecisionReceipt(s, DecisionReceipt(x, receipt));
    ReplayedDecision(s, x);
  }
}
