/**
 * Import of one streamed original: a byte reservation, a staged payload, the Artifact and its command
 * receipt, with a failure possible at every effect. The Artifact id is derived from the acting actor, the
 * receipt key from the user responsible for it.
 */
module ArtifactImport {
  import opened Common

  /** A user acts for itself, an Agent for its responsible user. */
  datatype Actor = User(id: string) | Agent(id: string, user: string)
  {
    function Responsible(): string { if User? then id else user }
  }

  datatype ArtifactId = ArtifactId(actor: Actor, workspace: string, request: string)

  datatype Key = Key(user: string, workspace: string, request: string)

  /** The receipt key of the import; actors of one user share it. */
  function KeyOf(id: ArtifactId): Key { Key(id.actor.Responsible(), id.workspace, id.request) }

  datatype Input = Input(title: string, mediaType: string, digest: string, byteLength: nat)

  /** Version 1 of an Artifact, with the import that produced it. */
  datatype Artifact = Artifact(content: Input, importedBy: string, sourceRequest: string, lastMutation: string)

  datatype Receipt = Receipt(inputHash: Input, artifact: ArtifactId, expiresAt: int)

  datatype Store = Store(artifacts: map<ArtifactId, Artifact>, receipts: map<Key, Receipt>)

  datatype Failure = Denied | Conflict | RecoveryRequired | CleanupFailed | Constraint | OtherFailure

  /** How long a receipt is retained: seven days, in milliseconds. */
  const Retention: int := 604_800_000

  function Imported(id: ArtifactId, input: Input): Artifact {
    Artifact(input, id.actor.Responsible(), id.request, id.request)
  }

  /** A receipt that has expired is not found. */
  predicate Found(s: Store, key: Key, now: int) {
    key in s.receipts && now < s.receipts[key].expiresAt
  }

  /** The receipt was written for this very import. */
  predicate Accepts(s: Store, id: ArtifactId, input: Input) {
    KeyOf(id) in s.receipts && s.receipts[KeyOf(id)].artifact == id && s.receipts[KeyOf(id)].inputHash == input
  }

  /** Every receipt names an Artifact of its own key, which exists as imported. */
  predicate Backed(s: Store) {
    forall k <- s.receipts ::
      && KeyOf(s.receipts[k].artifact) == k && s.receipts[k].artifact in s.artifacts
      && s.artifacts[s.receipts[k].artifact] == Imported(s.receipts[k].artifact, s.receipts[k].inputHash)
  }

  /** Other requests come and go; this one is alone under its key while its command is in flight. */
  predicate OtherImports(s: Store, s': Store, id: ArtifactId) {
    && Backed(s')
    && (id in s'.artifacts <==> id in s.artifacts) && (id in s.artifacts ==> s'.artifacts[id] == s.artifacts[id])
    && (KeyOf(id) in s'.receipts <==> KeyOf(id) in s.receipts)
    && (KeyOf(id) in s.receipts ==> s'.receipts[KeyOf(id)] == s.receipts[KeyOf(id)])
  }

  /** What the try block leaves behind. */
  datatype Run = Run(result: Result<ArtifactId, Failure>, reserved: bool, staged: bool, created: bool)

  class Importer {
    var store: Store
    /** Every store state, and how often bytes were reserved and released. */
    ghost var history: seq<Store>
    ghost var reservations: nat
    ghost var releases: nat
    /** Runs that kept their reservation because a cleanup was not proved. */
    ghost var retained: nat

    ghost predicate Valid()
      reads this
    {
      |history| > 0 && history[|history| - 1] == store && forall i | 0 <= i < |history| :: Backed(history[i])
    }

    /** Between runs, every reservation was released once or is retained for recovery. */
    ghost predicate Balanced()
      reads this
    {
      reservations == releases + retained
    }

    constructor ()
      ensures Valid() && Balanced() && store == Store(map[], map[])
    {
      store := Store(map[], map[]);
      history := [Store(map[], map[])];
      reservations, releases, retained := 0, 0, 0;
    }

    /** One durable change. */
    method Change(next: Store)
      requires Valid() && Backed(next)
      modifies this`store, this`history
      ensures Valid() && store == next && old(history) <= history
    {
      store, history := next, history + [next];
    }

    method Elsewhere(id: ArtifactId)
      requires Valid()
      modifies this`store, this`history
      ensures Valid() && OtherImports(old(store), store, id) && old(history) <= history
    {
      var next: Store := *;
      if OtherImports(store, next, id) { Change(next); }
    }

    /** Proves an accepted receipt against the same immutable original. */
    method Replay(id: ArtifactId, input: Input) returns (r: Result<ArtifactId, Failure>)
      requires Valid() && KeyOf(id) in store.receipts
      ensures r.Ok? ==> r.value == id && Accepts(store, id, input)
      ensures r.Ok? ==> id in store.artifacts && store.artifacts[id] == Imported(id, input)
      ensures Accepts(store, id, input) && r.Err? ==> r.error == OtherFailure
      ensures r.Err? ==> r.error == OtherFailure || r.error == RecoveryRequired
    {
      if id !in store.artifacts { return Err(OtherFailure); }
      if store.receipts[KeyOf(id)].artifact != id || store.artifacts[id] != Imported(id, input) {
        return Err(RecoveryRequired);
      }
      var readable := *;
      return if readable then Ok(id) else Err(OtherFailure);
    }

    /** Creates the Artifact; a failure may leave it behind. */
    method Create(id: ArtifactId, input: Input) returns (ok: bool)
      requires Valid() && id !in store.artifacts
      modifies this`store, this`history
      ensures Valid() && old(history) <= history && store.receipts == old(store).receipts
      ensures ok ==> id in store.artifacts
      ensures store.artifacts == old(store).artifacts
              || store.artifacts == old(store).artifacts[id := Imported(id, input)]
    {
      var applied: bool;
      ok, applied := *, *;
      if ok || applied {
        Change(store.(artifacts := store.artifacts[id := Imported(id, input)]));
      }
    }

    /** Records the receipt, in place of an expired one; a failure may follow its commit. */
    method Record(id: ArtifactId, input: Input, now: int) returns (failure: Option<Failure>)
      requires Valid() && id in store.artifacts && store.artifacts[id] == Imported(id, input)
      modifies this`store, this`history
      ensures Valid() && old(history) <= history && store.artifacts == old(store).artifacts
      ensures failure.None? ==> Accepts(store, id, input) && Found(store, KeyOf(id), now)
      ensures store.receipts == old(store).receipts
              || store.receipts == old(store).receipts[KeyOf(id) := Receipt(input, id, now + Retention)]
    {
      var ok, applied: bool, error: Failure := *, *, *;
      if ok || applied {
        Change(store.(receipts := store.receipts[KeyOf(id) := Receipt(input, id, now + Retention)]));
      }
      failure := if ok then None else Some(error);
    }

    /** The command body and its receipt. */
    method Execute(id: ArtifactId, input: Input, now: int) returns (run: Run)
      requires Valid() && !Found(store, KeyOf(id), now)
      modifies this
      ensures Valid() && old(history) <= history && releases == old(releases) && retained == old(retained)
      ensures reservations == old(reservations) + if run.reserved then 1 else 0
      ensures run.staged ==> run.reserved
      ensures run.result.Ok? ==>
                && run.result.value == id && run.created
                && Accepts(store, id, input) && Found(store, KeyOf(id), now)
      ensures run.created ==> id in store.artifacts && id !in old(store).artifacts
      ensures id in old(store).artifacts ==>
                run == Run(Err(RecoveryRequired), false, false, false) && store == old(store)
      ensures Found(store, KeyOf(id), now) ==> run.created && store.receipts[KeyOf(id)].artifact == id
      ensures !Found(store, KeyOf(id), now) && KeyOf(id) in store.receipts && id !in old(store).artifacts ==>
                store.receipts[KeyOf(id)].artifact != id
    {
      if id in store.artifacts { return Run(Err(RecoveryRequired), false, false, false); }
      var ok: bool, error: Failure := *, *;
      if !ok { return Run(Err(error), false, false, false); }
      reservations := reservations + 1;
      Elsewhere(id);
      ok, error := *, *;
      if !ok { return Run(Err(error), true, false, false); }
      ok, error := *, *;
      if !ok { return Run(Err(error), true, true, false); }
      ok := Create(id, input);
      if !ok { error := *; return Run(Err(error), true, true, false); }
      Elsewhere(id);
      var failure := Record(id, input, now);
      run := Run(if failure.None? then Ok(id) else Err(failure.value), true, true, true);
    }

    /**
     * Replays an accepted request, or executes a new one. A receipt that has expired by this attempt's
     * clock is not found; the Artifact it stood for then refuses the command.
     */
    method RunIdempotent(id: ArtifactId, input: Input, now: int) returns (run: Run)
      requires Valid()
      modifies this
      ensures Valid() && old(history) <= history && releases == old(releases) && retained == old(retained)
      ensures reservations == old(reservations) + if run.reserved then 1 else 0
      ensures run.staged ==> run.reserved
      ensures run.result.Ok? ==> run.result.value == id && Accepts(store, id, input) && Found(store, KeyOf(id), now)
      ensures run.created ==>
                id in store.artifacts && id !in old(store).artifacts && !Found(old(store), KeyOf(id), now)
      // A receipt that is found: only its own import is answered, and nothing is changed.
      ensures Found(old(store), KeyOf(id), now) ==>
                && store == old(store) && !run.reserved && !run.staged && !run.created
                && (if old(store).receipts[KeyOf(id)].inputHash != input then run.result == Err(Conflict)
                    else if Accepts(old(store), id, input) then run.result == Ok(id) || run.result == Err(OtherFailure)
                    else run.result == Err(RecoveryRequired) || run.result == Err(OtherFailure))
      ensures id in old(store).artifacts && !Found(old(store), KeyOf(id), now) ==>
                run == Run(Err(RecoveryRequired), false, false, false) && store == old(store)
      ensures Found(store, KeyOf(id), now) && !Found(old(store), KeyOf(id), now) ==>
                run.created && store.receipts[KeyOf(id)].artifact == id
      ensures run.created && !Found(store, KeyOf(id), now) && KeyOf(id) in store.receipts ==>
                store.receipts[KeyOf(id)].artifact != id
    {
      if Found(store, KeyOf(id), now) {
        if store.receipts[KeyOf(id)].inputHash != input { return Run(Err(Conflict), false, false, false); }
        var replayed := Replay(id, input);
        return Run(replayed, false, false, false);
      }
      run := Execute(id, input, now);
    }

    /** Takes back a created Artifact, only when its receipt is known not to exist. */
    method Rollback(id: ArtifactId, error: Failure, now: int) returns (proved: bool, rolledBack: bool)
      requires Valid() && id in store.artifacts
      requires !Found(store, KeyOf(id), now) && KeyOf(id) in store.receipts ==> store.receipts[KeyOf(id)].artifact != id
      modifies this`store, this`history
      ensures Valid() && old(history) <= history && store.receipts == old(store).receipts
      ensures store.artifacts == old(store).artifacts || store.artifacts == old(store).artifacts - {id}
      ensures rolledBack ==> id !in store.artifacts
      ensures id !in store.artifacts ==> !Found(store, KeyOf(id), now) && error == Constraint
    {
      var read := *;
      if !read { return false, false; }
      if Found(store, KeyOf(id), now) || error != Constraint { return true, false; }
      var ok, applied: bool := *, *;
      if ok || applied {
        Change(store.(artifacts := store.artifacts - {id}));
      }
      return ok, ok;
    }

    /**
     * One import request, with failures anywhere. `Valid()` says that in every state, also in between,
     * each receipt's Artifact exists as imported.
     */
    method Import(id: ArtifactId, input: Input, now: int, authorized: bool, stillAuthorized: bool)
      returns (result: Result<ArtifactId, Failure>, reserved: bool, unproved: bool)
      requires Valid() && Balanced()
      modifies this
      ensures Valid() && Balanced() && old(history) <= history
      // Without authority there is no effect before, and no answer after.
      ensures !authorized ==> result == Err(Denied) && store == old(store) && !reserved
      ensures result.Ok? ==> authorized && stillAuthorized
      // Reserved bytes are released once, unless some cleanup is unproved.
      ensures reservations == old(reservations) + if reserved then 1 else 0
      ensures releases == old(releases) + if reserved && !unproved then 1 else 0
      ensures unproved ==> result.Err?
      ensures retained == old(retained) + if reserved && unproved then 1 else 0
      // An answer is backed by this import's receipt.
      ensures result.Ok? ==> result.value == id && Accepts(store, id, input) && Found(store, KeyOf(id), now)
      // A receipt that is found is never lost or replaced, and answers only its own import.
      ensures Found(old(store), KeyOf(id), now) ==> store == old(store) && !reserved
      ensures Found(old(store), KeyOf(id), now) && authorized ==>
                if old(store).receipts[KeyOf(id)].inputHash != input then result == Err(Conflict)
                else if Accepts(old(store), id, input)
                then result == Ok(id) || result == Err(Denied) || result == Err(OtherFailure)
                else result == Err(RecoveryRequired) || result == Err(OtherFailure)
      // An Artifact whose receipt is missing or has expired makes the same import refuse without effect.
      ensures id in old(store).artifacts && !Found(old(store), KeyOf(id), now) ==>
                result == Err(if authorized then RecoveryRequired else Denied) && !reserved && store == old(store)
      // A lost Artifact was never accepted: rollback happens without a receipt.
      ensures id in old(store).artifacts ==> id in store.artifacts
    {
      reserved, unproved := false, false;
      if !authorized { return Err(Denied), false, false; }
      var run := RunIdempotent(id, input, now);
      reserved := run.reserved;
      var failures := 0;
      if run.result.Err? {
        unproved, failures := run.result.error == CleanupFailed, 1;
        if run.created {
          var proved, _ := Rollback(id, run.result.error, now);
          if !proved { unproved, failures := true, failures + 1; }
        }
      }
      var removed := *;
      if run.staged && !removed { unproved, failures := true, failures + 1; }
      if reserved {
        if unproved { retained := retained + 1; } else { releases := releases + 1; }
      }
      if failures > 1 { return Err(CleanupFailed), reserved, unproved; }
      if run.result.Ok? && failures == 1 { return Err(CleanupFailed), reserved, unproved; }
      result := if run.result.Ok? && !stillAuthorized then Err(Denied) else run.result;
    }
  }
}
