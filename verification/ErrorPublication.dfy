/**
 * Choosing the text of a failure that is about to be published. The failure is a graph of error
 * objects linked by causes and aggregates; it may be cyclic. Decoder errors can quote retained
 * input, so their texts, and any text that embeds them, must not be published.
 */
module ErrorPublication {
  import opened Common

  type Id = nat

  /** A thrown value is an object of the graph or a primitive. */
  datatype Value = Ref(id: Id) | Primitive

  datatype Kind = Preparation | RetainedRead | Decoder | Aggregate | OtherError | NotAnError

  datatype Node = Node(kind: Kind, message: Option<string>, cause: Option<Value>, errors: seq<Value>)

  type Graph = map<Id, Node>

  const PreparationText: string := "The agent environment snapshot could not be prepared."
  const RetainedText: string := "The retained record could not be read."
  const DecoderText: string := "The record could not be processed."

  /** What a node leads to: its cause, and the members of an aggregate. */
  function Links(n: Node): seq<Value> {
    (if n.cause.Some? then [n.cause.value] else []) + (if n.kind.Aggregate? then n.errors else [])
  }

  predicate Closed(g: Graph) {
    forall id <- g :: forall v <- Links(g[id]) :: v.Ref? ==> v.id in g
  }

  /** A failed read of a retained record is reported as such, whatever it wraps. */
  predicate Expands(g: Graph, id: Id) {
    id in g && !g[id].kind.RetainedRead?
  }

  /** A walk from one object to another through objects that are looked into. */
  predicate Walk(g: Graph, from: Id, path: seq<Id>) {
    && |path| > 0 && path[0] == from && (forall id <- path :: id in g)
    && forall i | 0 <= i < |path| - 1 :: Expands(g, path[i]) && Ref(path[i + 1]) in Links(g[path[i]])
  }

  ghost predicate Reaches(g: Graph, error: Value, id: Id) {
    error.Ref? && exists path :: Walk(g, error.id, path) && path[|path| - 1] == id
  }

  ghost predicate Contains(g: Graph, error: Value, kind: Kind) {
    exists id :: Reaches(g, error, id) && g[id].kind == kind
  }

  function Authored(g: Graph, error: Value, fallback: Option<string>): Option<string> {
    if error.Ref? && error.id in g && !g[error.id].kind.NotAnError? then g[error.id].message
    else if fallback.Some? then fallback
    else if error.Ref? && error.id in g then g[error.id].message
    else None
  }

  // ----- Reachability and the work list -----

  lemma ReachesSelf(g: Graph, id: Id)
    requires id in g
    ensures Reaches(g, Ref(id), id)
  {
    assert Walk(g, id, [id]);
  }

  lemma ReachesNext(g: Graph, error: Value, id: Id, next: Id)
    requires Reaches(g, error, id) && Expands(g, id) && Ref(next) in Links(g[id]) && next in g
    ensures Reaches(g, error, next)
  {
    var path :| Walk(g, error.id, path) && path[|path| - 1] == id;
    assert Walk(g, error.id, path + [next]);
  }

  /** Every object reached lies in a set that is closed under what is looked into. */
  lemma {:induction false} ClosedSetHolds(g: Graph, done: set<Id>, path: seq<Id>)
    requires |path| > 0 && path[0] in done && Walk(g, path[0], path)
    requires forall id <- done :: Expands(g, id) ==> forall v <- Links(g[id]) :: v.Ref? ==> v.id in done
    ensures path[|path| - 1] in done
    decreases |path|
  {
    if |path| > 1 {
      assert path[1] in done;
      assert Walk(g, path[1], path[1..]);
      ClosedSetHolds(g, done, path[1..]);
    }
  }

  predicate HasKind(g: Graph, ids: set<Id>, kind: Kind) {
    exists id <- ids :: id in g && g[id].kind == kind
  }

  lemma HasKindAdd(g: Graph, ids: set<Id>, id: Id, kind: Kind)
    requires id in g
    ensures HasKind(g, ids + {id}, kind) <==> HasKind(g, ids, kind) || g[id].kind == kind
  {
    if HasKind(g, ids, kind) {
      var other :| other in ids && other in g && g[other].kind == kind;
      assert other in ids + {id};
    }
    if g[id].kind == kind { assert id in ids + {id}; }
  }

  /** Once nothing is pending, the search has seen exactly the kinds that are reached. */
  lemma SearchedKinds(g: Graph, error: Value, done: set<Id>, kind: Kind)
    requires Searched(g, error, [], done)
    ensures Contains(g, error, kind) <==> HasKind(g, done, kind)
  {
    if Contains(g, error, kind) {
      var id :| Reaches(g, error, id) && g[id].kind == kind;
      SearchedAll(g, error, done, id);
    }
  }

  predicate Pending(pending: seq<Value>, id: Id) { Ref(id) in pending }

  /** The objects popped so far and those still to visit; `done` was reached, and its links are accounted for. */
  ghost predicate Searched(g: Graph, error: Value, pending: seq<Value>, done: set<Id>) {
    && (forall v <- pending :: v.Ref? ==> v.id in g && Reaches(g, error, v.id))
    && (forall id <- done :: id in g && Reaches(g, error, id) && !g[id].kind.Preparation?)
    && (error.Ref? ==> error.id in done || Pending(pending, error.id))
    && (forall id <- done :: Expands(g, id) ==>
          forall v <- Links(g[id]) :: v.Ref? ==> v.id in done || Pending(pending, v.id))
  }

  lemma SearchedAll(g: Graph, error: Value, done: set<Id>, id: Id)
    requires Searched(g, error, [], done) && Reaches(g, error, id)
    ensures id in done
  {
    var path :| Walk(g, error.id, path) && path[|path| - 1] == id;
    ClosedSetHolds(g, done, path);
  }

  lemma SkipSeen(g: Graph, error: Value, pending: seq<Value>, done: set<Id>)
    requires pending != [] && Searched(g, error, pending, done)
    requires pending[|pending| - 1].Ref? ==> pending[|pending| - 1].id in done
    ensures Searched(g, error, pending[..|pending| - 1], done)
  {
    var rest, last := pending[..|pending| - 1], pending[|pending| - 1];
    assert pending == rest + [last];
    forall id | Pending(pending, id) && id !in done ensures Pending(rest, id) {
      assert Ref(id) != last;
    }
  }

  lemma VisitNew(g: Graph, error: Value, pending: seq<Value>, done: set<Id>, more: seq<Value>)
    requires Closed(g) && pending != [] && pending[|pending| - 1].Ref? && Searched(g, error, pending, done)
    requires var id := pending[|pending| - 1].id;
             !g[id].kind.Preparation? && more == if Expands(g, id) then Links(g[id]) else []
    ensures Searched(g, error, pending[..|pending| - 1] + more, done + {pending[|pending| - 1].id})
  {
    var rest, id := pending[..|pending| - 1], pending[|pending| - 1].id;
    assert pending == rest + [Ref(id)];
    forall v <- more | v.Ref? ensures v.id in g && Reaches(g, error, v.id) { ReachesNext(g, error, id, v.id); }
    forall other | Pending(pending, other) && other != id ensures Pending(rest + more, other) {
      assert Ref(other) in rest;
    }
    forall v <- more | v.Ref? ensures Pending(rest + more, v.id) { assert v in rest + more; }
  }

  /** Nothing pending: no preparation was reached, and the other kinds are those of the objects seen. */
  lemma SearchedAllKinds(g: Graph, error: Value, done: set<Id>)
    requires Searched(g, error, [], done)
    ensures !Contains(g, error, Preparation)
    ensures Contains(g, error, RetainedRead) <==> HasKind(g, done, RetainedRead)
    ensures Contains(g, error, Decoder) <==> HasKind(g, done, Decoder)
  {
    SearchedKinds(g, error, done, Preparation);
    SearchedKinds(g, error, done, RetainedRead);
    SearchedKinds(g, error, done, Decoder);
  }

  /** A failed read is not searched further. */
  lemma VisitLeaf(g: Graph, error: Value, pending: seq<Value>, done: set<Id>)
    requires Closed(g) && pending != [] && pending[|pending| - 1].Ref? && Searched(g, error, pending, done)
    requires g[pending[|pending| - 1].id].kind.RetainedRead?
    ensures Searched(g, error, pending[..|pending| - 1], done + {pending[|pending| - 1].id})
  {
    VisitNew(g, error, pending, done, []);
    assert pending[..|pending| - 1] + [] == pending[..|pending| - 1];
  }

  /** Visited objects are done, and those that were searched further are visited. */
  predicate Entered(g: Graph, visited: set<Id>, done: set<Id>) {
    visited <= done && forall id <- done :: Expands(g, id) ==> id in visited
  }

  lemma KindsAdd(g: Graph, ids: set<Id>, id: Id)
    requires id in g
    ensures HasKind(g, ids + {id}, Decoder) <==> HasKind(g, ids, Decoder) || g[id].kind == Decoder
    ensures HasKind(g, ids + {id}, RetainedRead) <==> HasKind(g, ids, RetainedRead) || g[id].kind == RetainedRead
  {
    HasKindAdd(g, ids, id, Decoder);
    HasKindAdd(g, ids, id, RetainedRead);
  }

  /**
   * Publishes a fixed text when the graph holds an error whose own text must not leave, the authored
   * message otherwise: a failed preparation anywhere first, then a failed read, then a decoder.
   */
  method PublishedErrorMessage(g: Graph, error: Value, fallback: Option<string>) returns (text: Option<string>)
    requires Closed(g) && (error.Ref? ==> error.id in g)
    ensures text == if Contains(g, error, Preparation) then Some(PreparationText)
                    else if Contains(g, error, RetainedRead) then Some(RetainedText)
                    else if Contains(g, error, Decoder) then Some(DecoderText)
                    else Authored(g, error, fallback)
  {
    var pending := [error];
    var visited: set<Id> := {};
    var decoderFailed, retainedReadFailed := false, false;
    ghost var done: set<Id> := {};
    if error.Ref? { ReachesSelf(g, error.id); }
    while pending != []
      invariant Searched(g, error, pending, done) && Entered(g, visited, done)
      invariant decoderFailed == HasKind(g, done, Decoder) && retainedReadFailed == HasKind(g, done, RetainedRead)
      decreases g.Keys - visited, |pending|
    {
      var current := pending[|pending| - 1];
      if current.Primitive? || current.id in visited {
        SkipSeen(g, error, pending, done);
        pending := pending[..|pending| - 1];
        continue;
      }
      var node, rest := g[current.id], pending[..|pending| - 1];
      if node.kind.Preparation? {
        assert Contains(g, error, Preparation);
        return Some(PreparationText);
      }
      KindsAdd(g, done, current.id);
      if node.kind.RetainedRead? {
        VisitLeaf(g, error, pending, done);
        retainedReadFailed, pending := true, rest;
      } else {
        VisitNew(g, error, pending, done, Links(node));
        decoderFailed := decoderFailed || node.kind.Decoder?;
        visited, pending := visited + {current.id}, rest + Links(node);
      }
      done := done + {current.id};
    }
    SearchedAllKinds(g, error, done);
    if retainedReadFailed { return Some(RetainedText); }
    if decoderFailed { return Some(DecoderText); }
    text := Authored(g, error, fallback);
  }
}
