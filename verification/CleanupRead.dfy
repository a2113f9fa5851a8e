/**
 * The administrator cleanup read: three readers fill one response under a shared item and byte
 * budget, each source reporting whether its observations are complete.
 */
module CleanupRead {
  import opened Common
  import opened CleanupEncoding

  /** One stored record: its encoded observation, or a record that cannot be read, or one replaced while read. */
  datatype Record = Readable(text: string) | Unreadable | Moved

  /** The records of one source in enumeration order; `open` is false when the source itself cannot be opened. */
  datatype Feed = Feed(records: seq<Record>, open: bool)

  const AllSources: seq<Source> := [Deletion, Registry, Attempt, Backend, Binding, Sandbox, Storage]
  const RuntimeSources: seq<Source> := [Attempt, Backend, Binding, Sandbox, Storage]

  function Of(items: seq<Item>, s: Source): seq<Item> {
    if items == [] then []
    else Of(items[..|items| - 1], s) + (if items[|items| - 1].source == s then [items[|items| - 1]] else [])
  }

  lemma {:induction false} OfJoin(a: seq<Item>, b: seq<Item>, s: Source)
    ensures Of(a + b, s) == Of(a, s) + Of(b, s)
  {
    if b == [] {
      assert a + b == a;
    } else {
      OfJoin(a, b[..|b| - 1], s);
      assert (a + b)[..|a + b| - 1] == a + b[..|b| - 1];
    }
  }

  lemma {:induction false} OfNone(items: seq<Item>, s: Source)
    requires forall item <- items :: item.source != s
    ensures Of(items, s) == []
  {
    if items != [] { OfNone(items[..|items| - 1], s); }
  }

  lemma {:induction false} OfOwn(items: seq<Item>, s: Source)
    requires forall item <- items :: item.source == s
    ensures Of(items, s) == items
  {
    if items != [] { OfOwn(items[..|items| - 1], s); }
  }

  /** The first records, all of them readable, in order. */
  predicate Begins(observed: seq<Item>, records: seq<Record>) {
    |observed| <= |records| && forall i | 0 <= i < |observed| :: records[i] == Readable(observed[i].text)
  }

  /** Exactly these records. */
  predicate Lists(observed: seq<Item>, records: seq<Record>) {
    |observed| == |records| && Begins(observed, records)
  }

  /** A source that does not report itself incomplete has all of its records in the items. */
  predicate Accounted(items: seq<Item>, c: Coverage, records: seq<Record>) {
    !c.incomplete ==> Lists(Of(items, c.source), records)
  }

  function FreshRow(s: Source): Coverage { Coverage(s, true, false, []) }

  function AddReason(c: Coverage, r: Reason): (n: Coverage)
    ensures WellFormed(c) ==> WellFormed(n)
    ensures n.incomplete && n.source == c.source && r in n.reasons && forall q <- c.reasons :: q in n.reasons
  {
    c.(incomplete := true, reasons := if r in c.reasons then c.reasons else c.reasons + [r])
  }

  function Unavailable(c: Coverage): Coverage { AddReason(c.(available := false), SourceUnavailable) }

  /** Items admitted so far and what the shared budget has left. */
  datatype Progress = Progress(items: seq<Item>, itemBytes: nat, exhausted: Option<Reason>)
  {
    predicate Counted(reserved: nat) {
      && itemBytes == ItemBytes(items) && |items| <= MAX_ENTRIES && reserved + itemBytes <= MAX_BYTES
      && (exhausted.Some? ==> exhausted.value in {CountLimit, ByteLimit})
    }

    function Added(item: Item): nat { |item.text| + (if |items| > 0 then 1 else 0) }

    function Push(item: Item): Progress { this.(items := items + [item], itemBytes := itemBytes + Added(item)) }

    lemma PushCounted(item: Item, reserved: nat)
      requires Counted(reserved) && |items| < MAX_ENTRIES && reserved + itemBytes + Added(item) <= MAX_BYTES
      ensures Push(item).Counted(reserved)
    {
      assert (items + [item])[..|items|] == items;
    }
  }

  predicate AllFrom(items: seq<Item>, s: Source) {
    forall item <- items :: item.source == s
  }

  // ----- Room for everything -----

  predicate Whole(feed: Feed) {
    feed.open && forall r <- feed.records :: r.Readable?
  }

  /** The bytes the first `n` records can take, each with a separator. */
  function WeightTo(records: seq<Record>, n: nat): nat
    requires n <= |records|
  {
    if n == 0 then 0 else WeightTo(records, n - 1) + (if records[n - 1].Readable? then |records[n - 1].text| + 1 else 0)
  }

  function Weight(records: seq<Record>): nat { WeightTo(records, |records|) }

  lemma {:induction false} WeightGrows(records: seq<Record>, i: nat, n: nat)
    requires i <= n <= |records|
    ensures WeightTo(records, i) <= WeightTo(records, n)
    decreases n
  {
    if i < n { WeightGrows(records, i, n - 1); }
  }

  function TotalWeight(feeds: seq<Feed>): nat {
    if feeds == [] then 0 else TotalWeight(feeds[..|feeds| - 1]) + Weight(feeds[|feeds| - 1].records)
  }

  function TotalCount(feeds: seq<Feed>): nat {
    if feeds == [] then 0 else TotalCount(feeds[..|feeds| - 1]) + |feeds[|feeds| - 1].records|
  }

  lemma {:induction false} TotalsOfPrefix(feeds: seq<Feed>, n: nat)
    requires n < |feeds|
    ensures TotalWeight(feeds[..n + 1]) == TotalWeight(feeds[..n]) + Weight(feeds[n].records) <= TotalWeight(feeds)
    ensures TotalCount(feeds[..n + 1]) == TotalCount(feeds[..n]) + |feeds[n].records| <= TotalCount(feeds)
    decreases |feeds|
  {
    assert feeds[..n + 1][..n] == feeds[..n];
    if n == |feeds| - 1 {
      assert feeds[..n + 1] == feeds;
    } else {
      TotalsOfPrefix(feeds[..|feeds| - 1], n);
      assert feeds[..|feeds| - 1][..n] == feeds[..n] && feeds[..|feeds| - 1][..n + 1] == feeds[..n + 1];
    }
  }

  // ----- Bytes taken -----

  /** The bytes that items add behind `before` others. */
  function Appended(before: nat, own: seq<Item>): nat { ItemBytes(own) + Bit(before > 0 && own != [], 1) }

  /** The bytes that the first `n` records take behind `before` items. */
  function TakenTo(before: nat, records: seq<Record>, n: nat): nat
    requires n <= |records|
  {
    if n == 0 then 0
    else
      TakenTo(before, records, n - 1) + (if records[n - 1].Readable? then |records[n - 1].text| else 0)
      + Bit(before + n > 1, 1)
  }

  lemma ItemBytesPush(items: seq<Item>, item: Item)
    ensures ItemBytes(items + [item]) == ItemBytes(items) + |item.text| + Bit(|items| > 0, 1)
  {
    assert (items + [item])[..|items|] == items;
  }

  lemma AppendedPush(before: nat, init: seq<Item>, last: Item)
    ensures Appended(before, init + [last]) == Appended(before, init) + |last.text| + Bit(before + |init| > 0, 1)
  {
    ItemBytesPush(init, last);
  }

  lemma {:induction false} TakenIsAppended(before: nat, own: seq<Item>, records: seq<Record>)
    requires Begins(own, records)
    ensures TakenTo(before, records, |own|) == Appended(before, own)
    decreases |own|
  {
    if own != [] {
      var init, last := own[..|own| - 1], own[|own| - 1];
      assert own == init + [last];
      TakenIsAppended(before, init, records);
      AppendedPush(before, init, last);
      assert records[|init|] == Readable(last.text);
    }
  }

  /** Readable records take no more than their weight. */
  lemma {:induction false} TakenWeighs(before: nat, records: seq<Record>, n: nat)
    requires n <= |records| && forall i | 0 <= i < n :: records[i].Readable?
    ensures TakenTo(before, records, n) <= WeightTo(records, n)
  {
    if n > 0 { TakenWeighs(before, records, n - 1); }
  }

  lemma TakenFits(before: nat, records: seq<Record>, n: nat)
    requires n <= |records| && forall i | 0 <= i < n :: records[i].Readable?
    ensures TakenTo(before, records, n) <= Weight(records)
  {
    TakenWeighs(before, records, n);
    WeightGrows(records, n, |records|);
  }

  /** The first records, listed as items, take no more than all of them weigh. */
  lemma ItemsWeigh(items: seq<Item>, records: seq<Record>)
    requires Begins(items, records)
    ensures ItemBytes(items) <= Weight(records)
  {
    TakenIsAppended(0, items, records);
    TakenFits(0, records, |items|);
  }

  // ----- Deletions and the registry -----

  /** How the visit of the deletion requests ended. */
  datatype Stop = Finished | Broken | Replaced | AtLimit(reason: Reason) | LostAuthority

  /** The stop is explained by the first record that is not among the items. */
  predicate Explains(stop: Stop, p: Progress, records: seq<Record>, reserved: nat) {
    match stop
    case Finished => |p.items| == |records|
    case Broken => |p.items| < |records| && records[|p.items|].Unreadable?
    case Replaced => |p.items| < |records| && records[|p.items|].Moved?
    case AtLimit(CountLimit) => |p.items| == MAX_ENTRIES < |records|
    case AtLimit(ByteLimit) => |p.items| < |records| && reserved + Weight(records) > MAX_BYTES
    case AtLimit(_) => false
    case LostAuthority => |p.items| < |records|
  }

  /** One deletion request: admitted, or the reason why the visit ends here. */
  method AdmitDeletion(p: Progress, record: Record, reserved: nat) returns (n: Progress, stop: Option<Stop>)
    requires p.Counted(reserved) && p.exhausted.None? && |p.items| < MAX_ENTRIES
    ensures stop.Some? ==> n == p
    ensures stop.None? ==>
              && n.Counted(reserved) && n.exhausted.None?
              && record.Readable? && n.items == p.items + [Item(Deletion, record.text)]
    ensures match stop
            case None => true
            case Some(Broken) => record.Unreadable?
            case Some(Replaced) => record.Moved?
            case Some(LostAuthority) => true
            case Some(AtLimit(reason)) =>
              && reason == ByteLimit && record.Readable?
              && reserved + ItemBytes(p.items + [Item(Deletion, record.text)]) > MAX_BYTES
            case _ => false
  {
    n := p;
    if record.Unreadable? { return n, Some(Broken); }
    if record.Moved? { return n, Some(Replaced); }
    var denied := *;
    if denied { return n, Some(LostAuthority); }
    var item := Item(Deletion, record.text);
    ItemBytesPush(p.items, item);
    if reserved + p.itemBytes + p.Added(item) > MAX_BYTES { return n, Some(AtLimit(ByteLimit)); }
    p.PushCounted(item, reserved);
    return p.Push(item), None;
  }

  /** Deletion requests, visited in order until a limit, a failure or a replaced record. */
  method VisitDeletions(records: seq<Record>, reserved: nat) returns (p: Progress, stop: Stop)
    requires reserved <= MAX_BYTES
    ensures p.Counted(reserved) && p.exhausted.None? && AllFrom(p.items, Deletion) && p.itemBytes <= Weight(records)
    ensures Begins(p.items, records) && Explains(stop, p, records, reserved)
  {
    p := Progress([], 0, None);
    for i := 0 to |records|
      invariant p.Counted(reserved) && p.exhausted.None? && AllFrom(p.items, Deletion)
      invariant |p.items| == i && Begins(p.items, records)
    {
      ItemsWeigh(p.items, records);
      if i == MAX_ENTRIES { return p, AtLimit(CountLimit); }
      ghost var items := p.items;
      var ended;
      p, ended := AdmitDeletion(p, records[i], reserved);
      if ended.Some? {
        if ended.value.AtLimit? { ItemsWeigh(items + [Item(Deletion, records[i].text)], records); }
        return p, ended.value;
      }
    }
    ItemsWeigh(p.items, records);
    return p, Finished;
  }

  /** The deletion source: its items, and coverage that says why it ended early. */
  method ReadDeletions(feed: Feed, reserved: nat, drifted: bool) returns (p: Progress, cover: Coverage, denied: bool)
    requires reserved <= MAX_BYTES
    ensures p.Counted(reserved) && AllFrom(p.items, Deletion) && WellFormed(cover) && cover.source == Deletion
    ensures !denied && !cover.incomplete ==> Lists(p.items, feed.records)
    ensures !denied && p.exhausted.Some? ==> p.exhausted.value in cover.reasons
    ensures p.itemBytes <= Weight(feed.records) && |p.items| <= |feed.records|
    ensures !denied && Whole(feed) && |feed.records| <= MAX_ENTRIES && reserved + Weight(feed.records) <= MAX_BYTES
            && !drifted
            ==> !cover.incomplete && p.exhausted.None?
  {
    p, cover, denied := Progress([], 0, None), FreshRow(Deletion), false;
    if !feed.open { return p, Unavailable(cover), false; }
    var stop;
    p, stop := VisitDeletions(feed.records, reserved);
    match stop
    case LostAuthority => denied := true;
    case Broken =>
      assert feed.records[|p.items|] in feed.records;
      cover := Unavailable(cover);
    case Replaced =>
      assert feed.records[|p.items|] in feed.records;
      cover := AddReason(cover, SourceChanged);
    case AtLimit(reason) => p, cover := p.(exhausted := Some(reason)), Limited(cover, reason, drifted);
    case Finished => if drifted { cover := AddReason(cover, SourceChanged); }
  }

  /** A source cut off by a limit, with directories that may have changed meanwhile. */
  function Limited(c: Coverage, limit: Reason, drifted: bool): (n: Coverage)
    ensures WellFormed(c) ==> WellFormed(n)
    ensures n.incomplete && n.source == c.source && limit in n.reasons
  {
    if drifted then AddReason(AddReason(c, limit), SourceChanged) else AddReason(c, limit)
  }

  /** How a visit of at most `limit` records that already had `before` items ended; `own` are the items it gave. */
  predicate Ended(stop: Stop, before: nat, own: seq<Item>, records: seq<Record>, limit: nat, maxEntries: nat,
                  free: int)
  {
    match stop
    case Finished => |own| == |records| || |own| == limit < |records|
    case Broken => |own| < |records| && !records[|own|].Readable?
    case AtLimit(CountLimit) => |own| < |records| && before + |own| == maxEntries
    case AtLimit(ByteLimit) => |own| < |records| && Weight(records) > free
    case LostAuthority => |own| < |records|
    case _ => false
  }

  /**
   * Records in turn, each admitted while an item and its bytes are left; a guarded visit asks for
   * authority before each.
   */
  method VisitRows(source: Source, records: seq<Record>, limit: nat, maxEntries: nat, free: int, before: nat,
                   guarded: bool)
    returns (own: seq<Item>, taken: nat, stop: Stop)
    requires before <= maxEntries
    ensures AllFrom(own, source) && Begins(own, records) && before + |own| <= maxEntries
    ensures taken == TakenTo(before, records, |own|) <= Weight(records) && (own != [] ==> taken <= free)
    ensures Ended(stop, before, own, records, limit, maxEntries, free) && (stop.LostAuthority? ==> guarded)
    ensures |own| <= limit && (|own| == limit ==> stop.Finished?)
  {
    own, taken := [], 0;
    var last := if |records| <= limit then |records| else limit;
    for i := 0 to last
      invariant |own| == i && AllFrom(own, source) && Begins(own, records) && before + i <= maxEntries
      invariant taken == TakenTo(before, records, i) && (own != [] ==> taken <= free)
    {
      TakenFits(before, records, i);
      var denied := *;
      if guarded && denied { return own, taken, LostAuthority; }
      if before + |own| == maxEntries { return own, taken, AtLimit(CountLimit); }
      if !records[i].Readable? { return own, taken, Broken; }
      TakenFits(before, records, i + 1);
      var added := |records[i].text| + (if before + |own| > 0 then 1 else 0);
      if taken + added > free { return own, taken, AtLimit(ByteLimit); }
      own, taken := own + [Item(source, records[i].text)], taken + added;
    }
    TakenFits(before, records, last);
    return own, taken, Finished;
  }

  /** Retired and quarantined registry rows, one more than the items still allowed. */
  method ReadRegistry(feed: Feed, reserved: nat, p0: Progress)
    returns (p: Progress, own: seq<Item>, cover: Coverage, denied: bool)
    requires p0.Counted(reserved)
    ensures p.Counted(reserved) && WellFormed(cover) && cover.source == Registry
    ensures p.items == p0.items + own && AllFrom(own, Registry)
    ensures !denied && !cover.incomplete ==> Lists(own, feed.records)
    ensures !denied && p.exhausted.Some? ==> p.exhausted.value in cover.reasons
    ensures p.itemBytes <= p0.itemBytes + Weight(feed.records) && |own| <= |feed.records|
    ensures !denied && Whole(feed) && p0.exhausted.None? && |p0.items| + |feed.records| <= MAX_ENTRIES
            && reserved + p0.itemBytes + Weight(feed.records) <= MAX_BYTES
            ==> !cover.incomplete && p.exhausted.None?
  {
    p, own, cover, denied := p0, [], FreshRow(Registry), false;
    if p.exhausted.Some? { return p, own, AddReason(Unavailable(cover), p.exhausted.value), false; }
    if !feed.open { return p, own, Unavailable(cover), false; }
    var limit, taken, stop := MAX_ENTRIES - |p.items| + 1, 0, Finished;
    own, taken, stop := VisitRows(Registry, feed.records, limit, MAX_ENTRIES, MAX_BYTES - reserved - p.itemBytes,
                                  |p.items|, true);
    TakenIsAppended(|p.items|, own, feed.records);
    ItemBytesJoin(p.items, own);
    p := p.(items := p.items + own, itemBytes := p.itemBytes + taken);
    match stop
    case LostAuthority => denied := true;
    case Broken =>
      assert feed.records[|own|] in feed.records;
      cover := Unavailable(cover);
    case AtLimit(reason) => p, cover := p.(exhausted := Some(reason)), AddReason(cover, reason);
    case Finished =>
  }

  // ----- Dropping items that do not fit -----

  predicate OneRowPerSource(cs: seq<Coverage>) {
    forall i, j | 0 <= i < j < |cs| :: cs[i].source != cs[j].source
  }

  predicate HasRow(cs: seq<Coverage>, s: Source) {
    exists i | 0 <= i < |cs| :: cs[i].source == s
  }

  predicate Sound(r: Response) {
    && OneRowPerSource(r.sources) && (forall c <- r.sources :: WellFormed(c))
    && (forall item <- r.items :: HasRow(r.sources, item.source)) && r.incomplete == AnyIncomplete(r.sources)
  }

  /** The second response keeps a prefix of the items; a source that lost one says so. */
  predicate Reduced(r0: Response, r: Response) {
    && r.observedAt == r0.observedAt && r.items <= r0.items && |r.sources| == |r0.sources|
    && forall i | 0 <= i < |r.sources| ::
         && r.sources[i].source == r0.sources[i].source
         && (!r.sources[i].incomplete ==>
             r.sources[i] == r0.sources[i] && Of(r.items, r.sources[i].source) == Of(r0.items, r.sources[i].source))
  }

  function RowOf(cs: seq<Coverage>, s: Source): (i: nat)
    requires HasRow(cs, s)
    ensures i < |cs| && cs[i].source == s
  {
    if cs[0].source == s then 0 else
      assert HasRow(cs[1..], s) by {
        var i :| 0 <= i < |cs| && cs[i].source == s;
        assert cs[1..][i - 1].source == s;
      }
      1 + RowOf(cs[1..], s)
  }

  function DropLast(r: Response): Response
    requires r.items != [] && Sound(r)
  {
    var i := RowOf(r.sources, r.items[|r.items| - 1].source);
    Response(r.observedAt, r.items[..|r.items| - 1], r.sources[i := AddReason(r.sources[i], ByteLimit)], true)
  }

  lemma DropLastIsSound(r: Response)
    requires r.items != [] && Sound(r)
    ensures Sound(DropLast(r))
  {
    var omitted, n := r.items[|r.items| - 1], DropLast(r);
    var i := RowOf(r.sources, omitted.source);
    assert n.sources[i].incomplete && n.sources[i] in n.sources;
    forall item <- n.items ensures HasRow(n.sources, item.source) {
      var j :| 0 <= j < |r.sources| && r.sources[j].source == item.source;
      assert n.sources[j].source == item.source;
    }
  }

  /** Dropping the last item changes what is listed of its own source only. */
  lemma DropLastKeepsOthers(r: Response, j: nat)
    requires r.items != [] && Sound(r) && j < |r.sources| && !DropLast(r).sources[j].incomplete
    ensures DropLast(r).sources[j] == r.sources[j]
    ensures Of(DropLast(r).items, r.sources[j].source) == Of(r.items, r.sources[j].source)
  {
  }

  lemma DropLastReduces(r0: Response, r: Response)
    requires r.items != [] && Sound(r) && Reduced(r0, r)
    ensures Reduced(r0, DropLast(r))
  {
    var n := DropLast(r);
    forall j | 0 <= j < |n.sources|
      ensures n.sources[j].source == r0.sources[j].source
      ensures !n.sources[j].incomplete ==>
                n.sources[j] == r0.sources[j] && Of(n.items, n.sources[j].source) == Of(r0.items, n.sources[j].source)
    {
      if !n.sources[j].incomplete { DropLastKeepsOthers(r, j); }
    }
  }

  /** Pops items from the end until the response fits. */
  method Trim(r0: Response, limit: nat) returns (r: Response)
    requires Sound(r0)
    ensures Sound(r) && Reduced(r0, r)
    ensures JsonBytes(r) <= limit || r.items == []
    ensures JsonBytes(r0) <= limit || r0.items == [] ==> r == r0
  {
    r := r0;
    while JsonBytes(r) > limit && r.items != []
      invariant Sound(r) && Reduced(r0, r) && (JsonBytes(r0) <= limit || r0.items == [] ==> r == r0)
      decreases |r.items|
    {
      DropLastIsSound(r);
      DropLastReduces(r0, r);
      r := DropLast(r);
    }
  }

  // ----- The runtime reader -----

  datatype Fault = Denied | BudgetTooSmall

  function FreshRows(sources: seq<Source>): (cs: seq<Coverage>)
    ensures |cs| == |sources| && forall i | 0 <= i < |cs| :: cs[i] == FreshRow(sources[i])
  {
    seq(|sources|, i requires 0 <= i < |sources| => FreshRow(sources[i]))
  }

  function Metadata(observedAt: string, cs: seq<Coverage>): nat {
    JsonBytes(Response(observedAt, [], cs, AnyIncomplete(cs)))
  }

  /** Items, the byte count, the row visits still allowed, and the limit that stopped the reading. */
  datatype Reading = Reading(items: seq<Item>, itemBytes: nat, work: nat, exhausted: Option<Reason>)
  {
    predicate Counted(maxEntries: nat) {
      && itemBytes == ItemBytes(items) && |items| <= maxEntries
      && (exhausted.Some? ==> exhausted.value in {CountLimit, ByteLimit})
    }
  }

  /** A visit of readable rows with room for all of them comes to their end. */
  lemma WholeFinishes(feed: Feed, stop: Stop, before: nat, own: seq<Item>, limit: nat, maxEntries: nat, free: int)
    requires Whole(feed) && Begins(own, feed.records) && !stop.LostAuthority?
    requires Ended(stop, before, own, feed.records, limit, maxEntries, free)
    ensures before + |feed.records| <= maxEntries && |feed.records| < limit && Weight(feed.records) <= free ==>
              stop.Finished? && |own| == |feed.records|
  {
    if |own| < |feed.records| { assert feed.records[|own|] in feed.records; }
  }

  /** Rows of one source, one more than the items or visits still allowed. */
  method ReadSource(source: Source, feed: Feed, maxEntries: nat, maxBytes: nat, metadata: nat, g0: Reading)
    returns (g: Reading, own: seq<Item>, cover: Coverage)
    requires g0.Counted(maxEntries) && |g0.items| < maxEntries && g0.work > 0 && g0.exhausted.None?
    ensures g.Counted(maxEntries) && g.items == g0.items + own && AllFrom(own, source)
    ensures cover.source == source && WellFormed(cover) && (!cover.incomplete ==> Lists(own, feed.records))
    ensures g.itemBytes <= g0.itemBytes + Weight(feed.records)
    ensures Whole(feed) && |g0.items| + |feed.records| <= maxEntries && |feed.records| < g0.work
            && metadata + g0.itemBytes + Weight(feed.records) <= maxBytes
            ==> !cover.incomplete && g.exhausted.None? && g.work == g0.work - |feed.records|
  {
    g, own, cover := g0, [], FreshRow(source);
    if !feed.open { return g, own, Unavailable(cover); }
    var limit := if maxEntries - |g.items| + 1 < g.work then maxEntries - |g.items| + 1 else g.work;
    var taken, stop;
    own, taken, stop := VisitRows(source, feed.records, limit, maxEntries, maxBytes - metadata - g.itemBytes, |g.items|,
                                  false);
    TakenIsAppended(|g.items|, own, feed.records);
    ItemBytesJoin(g.items, own);
    if Whole(feed) { WholeFinishes(feed, stop, |g.items|, own, limit, maxEntries, maxBytes - metadata - g.itemBytes); }
    g := Reading(g.items + own, g.itemBytes + taken, g.work - |own| - (if stop.Finished? then 0 else 1), None);
    match stop {
      case Broken =>
        assert feed.records[|own|] in feed.records;
        return g, own, Unavailable(cover);
      case AtLimit(reason) => g := g.(exhausted := Some(reason));
      case Finished =>
        if g.work == 0 { g := g.(exhausted := Some(CountLimit)); }
    }
    if g.exhausted.Some? { cover := AddReason(cover, g.exhausted.value); }
  }

  /** The five rows, in their fixed order. */
  predicate RowsShaped(cs: seq<Coverage>)
    requires |cs| == 5
  {
    forall i | 0 <= i < 5 :: cs[i].source == RuntimeSources[i] && WellFormed(cs[i])
  }

  predicate RowsAccounted(feeds: seq<Feed>, cs: seq<Coverage>, items: seq<Item>, n: nat)
    requires |feeds| == |cs| == 5 && n <= 5
  {
    forall i | 0 <= i < n :: Accounted(items, cs[i], feeds[i].records)
  }

  /** Every item comes from one of the first `n` sources. */
  predicate FromFirst(items: seq<Item>, n: nat)
    requires n <= 5
  {
    forall item <- items :: exists i | 0 <= i < n :: item.source == RuntimeSources[i]
  }

  /** What the reading of the first `n` sources has established. */
  predicate ReadSoFar(feeds: seq<Feed>, cs: seq<Coverage>, items: seq<Item>, n: nat)
    requires |feeds| == |cs| == 5 && n <= 5
  {
    RowsShaped(cs) && RowsAccounted(feeds, cs, items, n) && FromFirst(items, n)
  }

  lemma RuntimeSourcesDiffer()
    ensures forall i, j | 0 <= i < j < 5 :: RuntimeSources[i] != RuntimeSources[j]
  {
  }

  /** Items of another source do not change what a row accounts for. */
  lemma OldRowKept(items: seq<Item>, own: seq<Item>, s: Source, c: Coverage, records: seq<Record>)
    requires AllFrom(own, s) && c.source != s && Accounted(items, c, records)
    ensures Accounted(items + own, c, records)
  {
    OfJoin(items, own, c.source);
    OfNone(own, c.source);
  }

  lemma NewRowAccounts(items: seq<Item>, own: seq<Item>, c: Coverage, records: seq<Record>)
    requires AllFrom(own, c.source) && (forall item <- items :: item.source != c.source)
    requires !c.incomplete ==> Lists(own, records)
    ensures Accounted(items + own, c, records)
  {
    OfJoin(items, own, c.source);
    OfOwn(own, c.source);
    OfNone(items, c.source);
  }

  lemma FromFirstIsOther(items: seq<Item>, n: nat)
    requires n < 5 && FromFirst(items, n)
    ensures forall item <- items :: item.source != RuntimeSources[n]
  {
    RuntimeSourcesDiffer();
  }

  lemma FromOneMore(items: seq<Item>, own: seq<Item>, n: nat)
    requires n < 5 && FromFirst(items, n) && AllFrom(own, RuntimeSources[n])
    ensures FromFirst(items + own, n + 1)
  {
    forall item <- items + own ensures exists i | 0 <= i < n + 1 :: item.source == RuntimeSources[i] {
      if item in items {
        var i :| 0 <= i < n && item.source == RuntimeSources[i];
      } else {
        assert item in own;
      }
    }
  }

  lemma RowsOneMore(feeds: seq<Feed>, cs: seq<Coverage>, items: seq<Item>, n: nat, own: seq<Item>, cover: Coverage)
    requires |feeds| == |cs| == 5 && n < 5 && RowsShaped(cs) && RowsAccounted(feeds, cs, items, n)
    requires FromFirst(items, n) && AllFrom(own, RuntimeSources[n]) && cover.source == RuntimeSources[n]
    requires !cover.incomplete ==> Lists(own, feeds[n].records)
    ensures RowsAccounted(feeds, cs[n := cover], items + own, n + 1)
  {
    RuntimeSourcesDiffer();
    FromFirstIsOther(items, n);
    NewRowAccounts(items, own, cover, feeds[n].records);
    forall i | 0 <= i < n ensures Accounted(items + own, cs[i], feeds[i].records) {
      OldRowKept(items, own, RuntimeSources[n], cs[i], feeds[i].records);
    }
  }

  lemma ReadOneMore(feeds: seq<Feed>, cs: seq<Coverage>, items: seq<Item>, n: nat, own: seq<Item>, cover: Coverage)
    requires |feeds| == |cs| == 5 && n < 5 && ReadSoFar(feeds, cs, items, n)
    requires AllFrom(own, RuntimeSources[n]) && cover.source == RuntimeSources[n] && WellFormed(cover)
    requires !cover.incomplete ==> Lists(own, feeds[n].records)
    ensures ReadSoFar(feeds, cs[n := cover], items + own, n + 1)
  {
    RowsOneMore(feeds, cs, items, n, own, cover);
    FromOneMore(items, own, n);
  }

  lemma FreshStart(feeds: seq<Feed>)
    requires |feeds| == 5
    ensures ReadSoFar(feeds, FreshRows(RuntimeSources), [], 0)
  {
  }

  /** A source that no budget is left for. */
  function Unvisited(s: Source, limit: Option<Reason>): Coverage {
    Coverage(s, false, true, [if limit.Some? then limit.value else CountLimit, SourceUnavailable])
  }

  function RuntimeMaxima(): seq<Coverage> { Maxima(FreshRows(RuntimeSources)) }

  function RuntimeReserve(observedAt: string): nat { JsonBytes(Response(observedAt, [], RuntimeMaxima(), true)) }

  lemma RuntimeMetadataFits(observedAt: string, feeds: seq<Feed>, cs: seq<Coverage>, items: seq<Item>, n: nat)
    requires |feeds| == |cs| == 5 && n <= 5 && ReadSoFar(feeds, cs, items, n)
    ensures Metadata(observedAt, cs) <= JsonBytes(Response(observedAt, [], RuntimeMaxima(), true))
  {
    assert Maxima(cs) == RuntimeMaxima();
    MetadataFits(observedAt, cs);
  }

  /** Every source is reached with an item left: the records fit, and the last one may take the last item. */
  predicate Countable(feeds: seq<Feed>, maxEntries: nat)
    requires feeds != []
  {
    || TotalCount(feeds) < maxEntries
    || (TotalCount(feeds) == maxEntries && feeds[|feeds| - 1].records != [])
  }

  /** Every record is readable, and all of them together leave room for the coverage rows. */
  predicate Spacious(feeds: seq<Feed>, maxBytes: nat, reserve: nat) {
    (forall f <- feeds :: Whole(f)) && reserve + TotalWeight(feeds) <= maxBytes
  }

  predicate Roomy(feeds: seq<Feed>, maxEntries: nat, maxBytes: nat, reserve: nat)
    requires feeds != []
  {
    Spacious(feeds, maxBytes, reserve) && Countable(feeds, maxEntries)
  }

  lemma {:induction false} CountGrows(feeds: seq<Feed>, n: nat)
    requires n <= |feeds|
    ensures TotalCount(feeds[..n]) <= TotalCount(feeds)
  {
    if n == |feeds| {
      assert feeds[..n] == feeds;
    } else {
      CountGrows(feeds[..|feeds| - 1], n);
      assert feeds[..|feeds| - 1][..n] == feeds[..n];
    }
  }

  /** No limit has been met in the first `n` sources. */
  predicate Unhindered(feeds: seq<Feed>, cs: seq<Coverage>, g: Reading, n: nat, maxEntries: nat)
    requires n <= |feeds|
  {
    && g.exhausted.None? && |g.items| == TotalCount(feeds[..n]) && g.work + |g.items| == maxEntries + 1
    && g.itemBytes <= TotalWeight(feeds[..n]) && forall c <- cs :: !c.incomplete
  }

  lemma UnhinderedHasRoom(feeds: seq<Feed>, cs: seq<Coverage>, g: Reading, n: nat, maxEntries: nat)
    requires n < |feeds| && Countable(feeds, maxEntries) && Unhindered(feeds, cs, g, n, maxEntries)
    ensures g.exhausted.None? && |g.items| < maxEntries && g.work > 0 && !Blocked(g, maxEntries)
    ensures |g.items| + |feeds[n].records| <= maxEntries && |feeds[n].records| < g.work
    ensures g.itemBytes + Weight(feeds[n].records) <= TotalWeight(feeds)
  {
    TotalsOfPrefix(feeds, n);
    var init := feeds[..|feeds| - 1];
    CountGrows(init, n);
    assert init[..n] == feeds[..n];
  }

  lemma UnhinderedNext(feeds: seq<Feed>, cs: seq<Coverage>, g: Reading, n: nat, maxEntries: nat, cover: Coverage,
                       g': Reading)
    requires |cs| == |feeds| == 5 && n < 5 && Unhindered(feeds, cs, g, n, maxEntries)
    requires !cover.incomplete && g'.exhausted.None? && |feeds[n].records| <= g.work
             && g'.work == g.work - |feeds[n].records|
    requires |g'.items| == |g.items| + |feeds[n].records| && g'.itemBytes <= g.itemBytes + Weight(feeds[n].records)
    ensures Unhindered(feeds, cs[n := cover], g', n + 1, maxEntries)
  {
    TotalsOfPrefix(feeds, n);
  }

  /** One more source, and the check that its coverage left room. */
  method ReadNext(observedAt: string, feeds: seq<Feed>, cs: seq<Coverage>, g: Reading, n: nat, maxEntries: nat,
                  maxBytes: nat)
    returns (cs': seq<Coverage>, g': Reading)
    requires |feeds| == |cs| == 5 && n < 5 && ReadSoFar(feeds, cs, g.items, n)
    requires g.Counted(maxEntries) && |g.items| < maxEntries && g.work > 0 && g.exhausted.None?
    ensures |cs'| == 5 && g'.Counted(maxEntries) && ReadSoFar(feeds, cs', g'.items, n + 1)
    ensures !cs'[n].incomplete && feeds[n].records == [] ==> |g'.items| < maxEntries
    ensures Roomy(feeds, maxEntries, maxBytes, RuntimeReserve(observedAt))
            && Unhindered(feeds, cs, g, n, maxEntries) ==>
              Unhindered(feeds, cs', g', n + 1, maxEntries)
  {
    var own, cover;
    RuntimeMetadataFits(observedAt, feeds, cs, g.items, n);
    g', own, cover := ReadSource(RuntimeSources[n], feeds[n], maxEntries, maxBytes, Metadata(observedAt, cs), g);
    ReadOneMore(feeds, cs, g.items, n, own, cover);
    cs' := cs[n := cover];
    RuntimeMetadataFits(observedAt, feeds, cs', g'.items, n + 1);
    if Roomy(feeds, maxEntries, maxBytes, RuntimeReserve(observedAt)) && Unhindered(feeds, cs, g, n, maxEntries) {
      UnhinderedHasRoom(feeds, cs, g, n, maxEntries);
      UnhinderedNext(feeds, cs, g, n, maxEntries, cover, g');
    }
    if Metadata(observedAt, cs') + g'.itemBytes > maxBytes { g' := g'.(exhausted := Some(ByteLimit)); }
  }

  /** Without an item budget nothing was read, and the first `n` sources are reported unvisited. */
  predicate Skipped(cs: seq<Coverage>, g: Reading, n: nat)
    requires n <= |cs| == 5
  {
    g.items == [] && g.exhausted.None? && forall i | 0 <= i < n :: cs[i] == Unvisited(RuntimeSources[i], None)
  }

  /** One more source, which is read only while every budget has something left. */
  method ReadOrSkip(observedAt: string, feeds: seq<Feed>, cs: seq<Coverage>, g: Reading, n: nat, maxEntries: nat,
                    maxBytes: nat)
    returns (cs': seq<Coverage>, g': Reading)
    requires |feeds| == |cs| == 5 && n < 5 && ReadSoFar(feeds, cs, g.items, n) && g.Counted(maxEntries)
    ensures |cs'| == 5 && g'.Counted(maxEntries) && ReadSoFar(feeds, cs', g'.items, n + 1)
    ensures !cs'[n].incomplete && feeds[n].records == [] ==> |g'.items| < maxEntries
    ensures maxEntries == 0 && Skipped(cs, g, n) ==> Skipped(cs', g', n + 1)
    ensures Roomy(feeds, maxEntries, maxBytes, RuntimeReserve(observedAt))
            && Unhindered(feeds, cs, g, n, maxEntries) ==>
              Unhindered(feeds, cs', g', n + 1, maxEntries)
  {
    if Roomy(feeds, maxEntries, maxBytes, RuntimeReserve(observedAt)) && Unhindered(feeds, cs, g, n, maxEntries) {
      UnhinderedHasRoom(feeds, cs, g, n, maxEntries);
    }
    if Blocked(g, maxEntries) {
      SkipOne(feeds, cs, g, n, maxEntries);
      return cs[n := Unvisited(RuntimeSources[n], g.exhausted)], g;
    }
    cs', g' := ReadNext(observedAt, feeds, cs, g, n, maxEntries, maxBytes);
  }

  /** Some budget has nothing left. */
  predicate Blocked(g: Reading, maxEntries: nat) {
    g.exhausted.Some? || |g.items| == maxEntries || g.work == 0
  }

  /** A skipped source is reported incomplete, and nothing else changes. */
  lemma SkipOne(feeds: seq<Feed>, cs: seq<Coverage>, g: Reading, n: nat, maxEntries: nat)
    requires |feeds| == |cs| == 5 && n < 5 && ReadSoFar(feeds, cs, g.items, n) && g.Counted(maxEntries)
    ensures var cover := Unvisited(RuntimeSources[n], g.exhausted);
            && ReadSoFar(feeds, cs[n := cover], g.items, n + 1) && cover.incomplete
            && (Skipped(cs, g, n) ==> Skipped(cs[n := cover], g, n + 1))
  {
    ReadOneMore(feeds, cs, g.items, n, [], Unvisited(RuntimeSources[n], g.exhausted));
    assert g.items + [] == g.items;
  }

  /** The five runtime sources in order, under an item, a byte and a visit budget. */
  method ReadSources(observedAt: string, feeds: seq<Feed>, maxEntries: nat, maxBytes: nat)
    returns (cs: seq<Coverage>, g: Reading, denied: bool)
    requires |feeds| == 5
    ensures |cs| == 5 && g.Counted(maxEntries)
    ensures !denied ==> ReadSoFar(feeds, cs, g.items, 5)
    ensures !denied && maxEntries == 0 ==>
              g.items == [] && forall i | 0 <= i < 5 :: cs[i] == Unvisited(RuntimeSources[i], None)
    ensures !denied && Roomy(feeds, maxEntries, maxBytes, RuntimeReserve(observedAt)) ==>
              g.itemBytes <= TotalWeight(feeds) && forall i | 0 <= i < 5 :: !cs[i].incomplete
    ensures !denied && !cs[4].incomplete && feeds[4].records == [] ==> |g.items| < maxEntries
  {
    cs, g, denied := FreshRows(RuntimeSources), Reading([], 0, maxEntries + 1, None), false;
    FreshStart(feeds);
    for n := 0 to 5
      invariant |cs| == 5 && g.Counted(maxEntries) && ReadSoFar(feeds, cs, g.items, n)
      invariant maxEntries == 0 ==> Skipped(cs, g, n)
      invariant Roomy(feeds, maxEntries, maxBytes, RuntimeReserve(observedAt)) ==>
                Unhindered(feeds, cs, g, n, maxEntries)
      invariant n > 0 && !cs[n - 1].incomplete && feeds[n - 1].records == [] ==> |g.items| < maxEntries
    {
      denied := *;
      if denied { return; }
      cs, g := ReadOrSkip(observedAt, feeds, cs, g, n, maxEntries, maxBytes);
    }
    assert feeds[..5] == feeds;
  }

  /** The runtime fragment: five rows in order, complete ones fully listed, within both budgets. */
  predicate FragmentOk(r: Response, observedAt: string, feeds: seq<Feed>, maxEntries: nat, maxBytes: nat)
    requires |feeds| == 5
  {
    && r.observedAt == observedAt && |r.sources| == 5 && ReadSoFar(feeds, r.sources, r.items, 5)
    && |r.items| <= maxEntries && JsonBytes(r) <= maxBytes && r.incomplete == AnyIncomplete(r.sources)
  }

  lemma ReadingIsSound(observedAt: string, feeds: seq<Feed>, cs: seq<Coverage>, items: seq<Item>)
    requires |feeds| == |cs| == 5 && ReadSoFar(feeds, cs, items, 5)
    ensures Sound(Response(observedAt, items, cs, AnyIncomplete(cs)))
  {
    RuntimeSourcesDiffer();
    forall item <- items ensures HasRow(cs, item.source) {
      var i :| 0 <= i < 5 && item.source == RuntimeSources[i];
      assert cs[i].source == item.source;
    }
  }

  lemma ReducedStaysRead(feeds: seq<Feed>, r0: Response, r: Response)
    requires |feeds| == |r0.sources| == 5 && ReadSoFar(feeds, r0.sources, r0.items, 5) && Reduced(r0, r) && Sound(r)
    ensures ReadSoFar(feeds, r.sources, r.items, 5)
  {
    forall i | 0 <= i < 5 ensures Accounted(r.items, r.sources[i], feeds[i].records) {
      assert Accounted(r0.items, r0.sources[i], feeds[i].records);
    }
    forall item <- r.items ensures exists i | 0 <= i < 5 :: item.source == RuntimeSources[i] {
      assert item in r0.items;
    }
  }

  /** Drops what does not fit from the staged observations. */
  method FinishRuntime(observedAt: string, feeds: seq<Feed>, cs: seq<Coverage>, items: seq<Item>, maxEntries: nat,
                       maxBytes: nat)
    returns (r: Result<Response, Fault>)
    requires |feeds| == |cs| == 5 && |items| <= maxEntries && ReadSoFar(feeds, cs, items, 5)
    ensures r.Ok? ==> FragmentOk(r.value, observedAt, feeds, maxEntries, maxBytes)
    ensures r.Ok? && (items == [] || Metadata(observedAt, cs) + ItemBytes(items) <= maxBytes) ==>
              r.value.items == items && r.value.sources == cs
    ensures r.Ok? ==> |r.value.items| <= |items| && (cs[4].incomplete ==> r.value.sources[4].incomplete)
    ensures r.Err? ==> r.error == BudgetTooSmall && RuntimeReserve(observedAt) > maxBytes
  {
    var staged := Response(observedAt, items, cs, AnyIncomplete(cs));
    ReadingIsSound(observedAt, feeds, cs, items);
    var trimmed := Trim(staged, maxBytes);
    ReducedStaysRead(feeds, staged, trimmed);
    RuntimeMetadataFits(observedAt, feeds, trimmed.sources, trimmed.items, 5);
    if JsonBytes(trimmed) > maxBytes { return Err(BudgetTooSmall); }
    return Ok(trimmed);
  }

  /** Reads the runtime sources; a byte budget that carries every coverage row is never refused. */
  method ReadRuntime(observedAt: string, feeds: seq<Feed>, maxEntries: nat, maxBytes: nat)
    returns (r: Result<Response, Fault>)
    requires |feeds| == 5
    ensures r.Ok? ==> FragmentOk(r.value, observedAt, feeds, maxEntries, maxBytes)
    ensures r.Ok? && maxEntries == 0 ==>
              r.value.items == [] && forall i | 0 <= i < 5 :: r.value.sources[i] == Unvisited(RuntimeSources[i], None)
    ensures maxEntries <= MAX_ENTRIES && RuntimeReserve(observedAt) <= maxBytes <= MAX_BYTES ==>
            r != Err(BudgetTooSmall)
    ensures r.Ok? && Roomy(feeds, maxEntries, maxBytes, RuntimeReserve(observedAt)) ==> !r.value.incomplete
    ensures r.Ok? && !r.value.incomplete && feeds[4].records == [] ==> |r.value.items| < maxEntries
  {
    var denied := *;
    if denied { return Err(Denied); }
    if maxEntries > MAX_ENTRIES || maxBytes == 0 || maxBytes > MAX_BYTES { return Err(BudgetTooSmall); }
    FreshStart(feeds);
    RuntimeMetadataFits(observedAt, feeds, FreshRows(RuntimeSources), [], 0);
    if Metadata(observedAt, FreshRows(RuntimeSources)) > maxBytes { return Err(BudgetTooSmall); }
    var cs, g;
    cs, g, denied := ReadSources(observedAt, feeds, maxEntries, maxBytes);
    if denied { return Err(Denied); }
    RuntimeMetadataFits(observedAt, feeds, cs, g.items, 5);
    r := FinishRuntime(observedAt, feeds, cs, g.items, maxEntries, maxBytes);
  }

  // ----- The aggregate -----

  function Reserved(observedAt: string): nat {
    JsonBytes(Response(observedAt, [], Maxima(FreshRows(AllSources)), true)) + 1
  }

  /** An ISO timestamp leaves room for every coverage row. */
  lemma ReservedFits(observedAt: string)
    requires |observedAt| <= 27
    ensures Reserved(observedAt) <= 1300 <= MAX_BYTES
  {
    var ms := Maxima(FreshRows(AllSources));
    assert |ms| == 7;
    forall c <- ms ensures CoverageBytes(c) <= 158 {
      ReasonsAreSubset(c.reasons);
    }
    RowsAtMost(ms);
  }

  lemma {:induction false} RowsAtMost(cs: seq<Coverage>)
    requires forall c <- cs :: CoverageBytes(c) <= 158
    ensures CoveragesBytes(cs) <= 159 * |cs|
  {
    if cs != [] { RowsAtMost(cs[..|cs| - 1]); }
  }

  /** The space left for the runtime fragment carries its coverage, whatever was admitted before. */
  lemma RuntimeBudgetSuffices(observedAt: string, d: Coverage, g: Coverage)
    requires WellFormed(d) && WellFormed(g) && d.source == Deletion && g.source == Registry
    ensures RuntimeReserve(observedAt) + CoverageBytes(d) + CoverageBytes(g) + 3 <= Reserved(observedAt)
  {
    CoverageFitsMaximum(d);
    CoverageFitsMaximum(g);
    var two := [MaximumCoverage(Deletion), MaximumCoverage(Registry)];
    assert Maxima(FreshRows(AllSources)) == two + RuntimeMaxima();
    CoveragesBytesJoin(two, RuntimeMaxima());
    assert two[..1] == [MaximumCoverage(Deletion)];
  }

  function Relabel(r: Reason): Reason { if r == CountLimit then ByteLimit else r }

  function RelabelRow(c: Coverage): (n: Coverage)
    ensures n.source == c.source && |n.reasons| == |c.reasons|
  {
    c.(reasons := seq(|c.reasons|, j requires 0 <= j < |c.reasons| => Relabel(c.reasons[j])))
  }

  /** The byte ceiling, rather than the count, left no budget for the runtime sources. */
  function Relabelled(exhausted: Option<Reason>, cs: seq<Coverage>): (n: seq<Coverage>)
    ensures |n| == |cs|
  {
    if exhausted != Some(ByteLimit) then cs
    else seq(|cs|, i requires 0 <= i < |cs| => RelabelRow(cs[i]))
  }

  lemma {:induction false} NoLongerRows(cs: seq<Coverage>, ns: seq<Coverage>)
    requires |cs| == |ns| && forall i | 0 <= i < |cs| :: CoverageBytes(ns[i]) <= CoverageBytes(cs[i])
    ensures CoveragesBytes(ns) <= CoveragesBytes(cs)
  {
    if cs != [] { NoLongerRows(cs[..|cs| - 1], ns[..|ns| - 1]); }
  }

  lemma UnvisitedRelabelled(s: Source)
    ensures CoverageBytes(Unvisited(s, Some(ByteLimit))) <= CoverageBytes(Unvisited(s, None))
  {
    ReasonsAreSubset(Unvisited(s, None).reasons);
    ReasonsAreSubset(Unvisited(s, Some(ByteLimit)).reasons);
  }

  /** Relabelling changes reasons only, to rows that are no longer than before. */
  lemma {:induction false} RelabelKeeps(exhausted: Option<Reason>, cs: seq<Coverage>)
    requires |cs| == 5 && forall i | 0 <= i < 5 :: cs[i].source == RuntimeSources[i] && WellFormed(cs[i])
    requires exhausted.Some? ==> forall i | 0 <= i < 5 :: cs[i] == Unvisited(RuntimeSources[i], None)
    ensures var ns := Relabelled(exhausted, cs);
            && CoveragesBytes(ns) <= CoveragesBytes(cs)
            && forall i | 0 <= i < 5 ::
                 ns[i].source == cs[i].source && WellFormed(ns[i]) && ns[i].incomplete == cs[i].incomplete
  {
    var ns := Relabelled(exhausted, cs);
    if exhausted == Some(ByteLimit) {
      forall i | 0 <= i < 5 ensures ns[i] == Unvisited(RuntimeSources[i], Some(ByteLimit)) {
        assert ns[i].reasons == [ByteLimit, SourceUnavailable];
      }
      forall i | 0 <= i < 5 ensures CoverageBytes(ns[i]) <= CoverageBytes(cs[i]) {
        UnvisitedRelabelled(RuntimeSources[i]);
      }
    }
    NoLongerRows(cs, ns);
  }

  function RuntimeBudget(p: Progress, d: Coverage, g: Coverage): int {
    MAX_BYTES - p.itemBytes - CoverageBytes(d) - CoverageBytes(g) - 2 - (if |p.items| > 0 then 1 else 0)
  }

  function Assembled(p: Progress, d: Coverage, g: Coverage, fragment: Response): Response {
    Response(fragment.observedAt, p.items + fragment.items, [d, g] + Relabelled(p.exhausted, fragment.sources),
             d.incomplete || g.incomplete || fragment.incomplete)
  }

  /** The joined response fits: the final truncation finds nothing to drop. */
  lemma AssembledFits(p: Progress, d: Coverage, g: Coverage, fragment: Response)
    requires p.itemBytes == ItemBytes(p.items) && JsonBytes(fragment) <= RuntimeBudget(p, d, g)
    requires CoveragesBytes(Relabelled(p.exhausted, fragment.sources)) <= CoveragesBytes(fragment.sources)
             && |fragment.sources| == 5
    ensures JsonBytes(Assembled(p, d, g, fragment)) <= MAX_BYTES
  {
    ItemBytesJoin(p.items, fragment.items);
    CoveragesBytesJoin([d, g], Relabelled(p.exhausted, fragment.sources));
    assert [d, g][..1] == [d] && [d][..0] == [];
    assert CoveragesBytes([d]) == CoverageBytes(d);
  }

  predicate ResponseOk(r: Response, observedAt: string, feeds: seq<Feed>)
    requires |feeds| == 7
  {
    && r.observedAt == observedAt && |Compact(r)| <= MAX_BYTES && |r.items| <= MAX_ENTRIES && |r.sources| == 7
    && AllAccounted(r.items, r.sources, feeds) && r.incomplete == AnyIncomplete(r.sources)
  }

  predicate FromRuntime(items: seq<Item>) {
    forall item <- items :: item.source != Deletion && item.source != Registry
  }

  lemma OfAssembled(deletions: seq<Item>, own: seq<Item>, runtime: seq<Item>, s: Source)
    requires AllFrom(deletions, Deletion) && AllFrom(own, Registry) && FromRuntime(runtime)
    ensures Of(deletions + own + runtime, s)
            == if s == Deletion then deletions else if s == Registry then own else Of(runtime, s)
  {
    OfJoin(deletions + own, runtime, s);
    OfJoin(deletions, own, s);
    if s == Deletion { OfOwn(deletions, s); } else { OfNone(deletions, s); }
    if s == Registry { OfOwn(own, s); } else { OfNone(own, s); }
    if s == Deletion || s == Registry { OfNone(runtime, s); }
  }

  lemma ReadIsRuntime(feeds: seq<Feed>, cs: seq<Coverage>, items: seq<Item>)
    requires |feeds| == |cs| == 5 && ReadSoFar(feeds, cs, items, 5)
    ensures FromRuntime(items)
  {
  }

  /** Every source, in the fixed order, is accounted for in the joined items. */
  predicate AllAccounted(items: seq<Item>, cs: seq<Coverage>, feeds: seq<Feed>)
    requires |cs| == |feeds| == 7
  {
    forall i | 0 <= i < 7 ::
      cs[i].source == AllSources[i] && WellFormed(cs[i]) && Accounted(items, cs[i], feeds[i].records)
  }

  lemma RuntimeRowAccounts(deletions: seq<Item>, own: seq<Item>, runtime: seq<Item>, c: Coverage, n: Coverage,
                           records: seq<Record>)
    requires AllFrom(deletions, Deletion) && AllFrom(own, Registry) && FromRuntime(runtime)
    requires c.source != Deletion && c.source != Registry && Accounted(runtime, c, records)
    requires n.source == c.source && n.incomplete == c.incomplete
    ensures Accounted(deletions + own + runtime, n, records)
  {
    OfAssembled(deletions, own, runtime, c.source);
  }

  lemma AssembledAccounts(deletions: seq<Item>, own: seq<Item>, runtime: seq<Item>, d: Coverage, g: Coverage,
                          cs: seq<Coverage>, ns: seq<Coverage>, feeds: seq<Feed>)
    requires |feeds| == 7 && |cs| == |ns| == 5 && AllFrom(deletions, Deletion) && AllFrom(own, Registry)
    requires d.source == Deletion && WellFormed(d) && (!d.incomplete ==> Lists(deletions, feeds[0].records))
    requires g.source == Registry && WellFormed(g) && (!g.incomplete ==> Lists(own, feeds[1].records))
    requires ReadSoFar(feeds[2..], cs, runtime, 5)
    requires forall i | 0 <= i < 5 ::
               ns[i].source == cs[i].source && WellFormed(ns[i]) && ns[i].incomplete == cs[i].incomplete
    ensures AllAccounted(deletions + own + runtime, [d, g] + ns, feeds)
  {
    var all := [d, g] + ns;
    ReadIsRuntime(feeds[2..], cs, runtime);
    forall i | 0 <= i < 7
      ensures all[i].source == AllSources[i] && WellFormed(all[i])
              && Accounted(deletions + own + runtime, all[i], feeds[i].records)
    {
      if i < 2 {
        OfAssembled(deletions, own, runtime, AllSources[i]);
      } else {
        assert all[i] == ns[i - 2] && AllSources[i] == RuntimeSources[i - 2];
        assert Accounted(runtime, cs[i - 2], feeds[2..][i - 2].records);
        RuntimeRowAccounts(deletions, own, runtime, cs[i - 2], ns[i - 2], feeds[i].records);
      }
    }
  }

  lemma AnyJoin(d: Coverage, g: Coverage, cs: seq<Coverage>, ns: seq<Coverage>)
    requires |cs| == |ns| && forall i | 0 <= i < |cs| :: ns[i].incomplete == cs[i].incomplete
    ensures AnyIncomplete([d, g] + ns) <==> d.incomplete || g.incomplete || AnyIncomplete(cs)
  {
    var all := [d, g] + ns;
    assert all[0] == d && all[1] == g;
    if AnyIncomplete(cs) {
      var i :| 0 <= i < |cs| && cs[i].incomplete;
      assert all[i + 2] == ns[i] && ns[i].incomplete;
    }
    if AnyIncomplete(all) {
      var i :| 0 <= i < |all| && all[i].incomplete;
      if i >= 2 { assert cs[i - 2].incomplete; }
    }
  }

  function PlaceOf(s: Source): (i: nat)
    ensures i < 7 && AllSources[i] == s
  {
    match s
    case Deletion => 0 case Registry => 1 case Attempt => 2 case Backend => 3 case Binding => 4 case Sandbox => 5
    case Storage => 6
  }

  lemma AccountedIsSound(r: Response, feeds: seq<Feed>)
    requires |feeds| == |r.sources| == 7 && AllAccounted(r.items, r.sources, feeds)
             && r.incomplete == AnyIncomplete(r.sources)
    ensures Sound(r)
  {
    forall i, j | 0 <= i < j < 7 ensures r.sources[i].source != r.sources[j].source {
      assert r.sources[i].source == AllSources[i] && r.sources[j].source == AllSources[j];
    }
    forall item <- r.items ensures HasRow(r.sources, item.source) {
      assert r.sources[PlaceOf(item.source)].source == item.source;
    }
  }

  /** Joins the fragment to the earlier items and admits the whole response once more. */
  method Assemble(p: Progress, deletions: seq<Item>, own: seq<Item>, d: Coverage, g: Coverage, fragment: Response,
                  feeds: seq<Feed>)
    returns (r: Response)
    requires |feeds| == 7 && p.items == deletions + own && p.itemBytes == ItemBytes(p.items)
    requires AllFrom(deletions, Deletion) && AllFrom(own, Registry)
    requires d.source == Deletion && WellFormed(d) && (!d.incomplete ==> Lists(deletions, feeds[0].records))
    requires g.source == Registry && WellFormed(g) && (!g.incomplete ==> Lists(own, feeds[1].records))
    requires RuntimeBudget(p, d, g) >= 0 && |p.items| <= MAX_ENTRIES
    requires FragmentOk(fragment, fragment.observedAt, feeds[2..], MAX_ENTRIES - |p.items|, RuntimeBudget(p, d, g))
    requires p.exhausted.Some? ==> forall i | 0 <= i < 5 :: fragment.sources[i] == Unvisited(RuntimeSources[i], None)
    ensures ResponseOk(r, fragment.observedAt, feeds) && r == Assembled(p, d, g, fragment)
  {
    var ns := Relabelled(p.exhausted, fragment.sources);
    RelabelKeeps(p.exhausted, fragment.sources);
    AssembledFits(p, d, g, fragment);
    AssembledAccounts(deletions, own, fragment.items, d, g, fragment.sources, ns, feeds);
    AnyJoin(d, g, fragment.sources, ns);
    r := Assembled(p, d, g, fragment);
    AccountedIsSound(r, feeds);
    r := Trim(r, MAX_BYTES);
    JsonBytesExact(r);
  }

  /** Deletions, then the registry, in the space that the reserved coverage leaves. */
  method ReadLocal(observedAt: string, feeds: seq<Feed>, drifted: bool)
    returns (p: Progress, deletions: seq<Item>, own: seq<Item>, d: Coverage, g: Coverage, denied: bool)
    requires |observedAt| <= 27 && |feeds| == 7
    ensures p.itemBytes == ItemBytes(p.items) && |p.items| <= MAX_ENTRIES && p.items == deletions + own
    ensures AllFrom(deletions, Deletion) && AllFrom(own, Registry)
    ensures d.source == Deletion && WellFormed(d) && (!denied && !d.incomplete ==> Lists(deletions, feeds[0].records))
    ensures g.source == Registry && WellFormed(g) && (!denied && !g.incomplete ==> Lists(own, feeds[1].records))
    ensures RuntimeReserve(observedAt) <= RuntimeBudget(p, d, g) <= MAX_BYTES
    ensures !denied && Roomy(feeds, MAX_ENTRIES, MAX_BYTES, Reserved(observedAt)) && !drifted ==>
              && !d.incomplete && !g.incomplete && p.exhausted.None?
              && Roomy(feeds[2..], MAX_ENTRIES - |p.items|, RuntimeBudget(p, d, g), RuntimeReserve(observedAt))
  {
    var reserved := Reserved(observedAt);
    ReservedFits(observedAt);
    p, d, denied := ReadDeletions(feeds[0], reserved, drifted);
    deletions, own, g := p.items, [], FreshRow(Registry);
    if !denied {
      p, own, g, denied := ReadRegistry(feeds[1], reserved, p);
    }
    RuntimeBudgetSuffices(observedAt, d, g);
    TotalsFromThird(feeds);
  }

  lemma TotalsFromThird(feeds: seq<Feed>)
    requires |feeds| >= 2
    ensures TotalWeight(feeds) == Weight(feeds[0].records) + Weight(feeds[1].records) + TotalWeight(feeds[2..])
    ensures TotalCount(feeds) == |feeds[0].records| + |feeds[1].records| + TotalCount(feeds[2..])
  {
    if |feeds| == 2 {
      assert feeds[..1][..0] == [] && feeds[..1] == [feeds[0]] && feeds[2..] == [];
    } else {
      TotalsFromThird(feeds[..|feeds| - 1]);
      assert feeds[2..][..|feeds| - 3] == feeds[..|feeds| - 1][2..];
    }
  }

  /** Each item belongs to one of the seven sources. */
  lemma {:induction false} OfSums(items: seq<Item>)
    ensures |items| == |Of(items, Deletion)| + |Of(items, Registry)| + |Of(items, Attempt)| + |Of(items, Backend)|
                       + |Of(items, Binding)| + |Of(items, Sandbox)| + |Of(items, Storage)|
  {
    if items != [] { OfSums(items[..|items| - 1]); }
  }

  function CountTo(feeds: seq<Feed>, n: nat): nat
    requires n <= |feeds|
  {
    if n == 0 then 0 else CountTo(feeds, n - 1) + |feeds[n - 1].records|
  }

  lemma {:induction false} CountToIsTotal(feeds: seq<Feed>, n: nat)
    requires n <= |feeds|
    ensures TotalCount(feeds[..n]) == CountTo(feeds, n)
  {
    if n > 0 {
      CountToIsTotal(feeds, n - 1);
      assert feeds[..n][..n - 1] == feeds[..n - 1];
    }
  }

  lemma CountOfSeven(feeds: seq<Feed>)
    requires |feeds| == 7
    ensures TotalCount(feeds) == |feeds[0].records| + |feeds[1].records| + |feeds[2].records| + |feeds[3].records|
                                 + |feeds[4].records| + |feeds[5].records| + |feeds[6].records|
  {
    CountToIsTotal(feeds, 7);
    assert feeds[..7] == feeds;
    assert CountTo(feeds, 1) == |feeds[0].records|;
    assert CountTo(feeds, 3) == |feeds[0].records| + |feeds[1].records| + |feeds[2].records|;
    assert CountTo(feeds, 5) == CountTo(feeds, 3) + |feeds[3].records| + |feeds[4].records|;
  }

  /** Complete sources account for every item, so a complete response has one item per record. */
  lemma CompleteCounts(r: Response, feeds: seq<Feed>)
    requires |feeds| == |r.sources| == 7 && AllAccounted(r.items, r.sources, feeds) && !AnyIncomplete(r.sources)
    ensures |r.items| == TotalCount(feeds)
  {
    forall i | 0 <= i < 7 ensures |Of(r.items, AllSources[i])| == |feeds[i].records| {
      assert r.sources[i] in r.sources && Accounted(r.items, r.sources[i], feeds[i].records);
    }
    OfSums(r.items);
    CountOfSeven(feeds);
  }

  /** One hundred deletion requests with empty texts, and nothing else. */
  function HundredDeletions(): (feeds: seq<Feed>)
    ensures |feeds| == 7
  {
    [Feed(seq(100, _ => Readable("")), true)] + seq(6, _ => Feed([], true))
  }

  lemma {:induction false} EmptyTextsWeigh(records: seq<Record>, n: nat)
    requires n <= |records| && forall i | 0 <= i < |records| :: records[i] == Readable("")
    ensures WeightTo(records, n) == n
  {
    if n > 0 { EmptyTextsWeigh(records, n - 1); }
  }

  lemma {:induction false} EmptyFeedsWeigh(feeds: seq<Feed>)
    requires forall i | 0 <= i < |feeds| :: feeds[i].records == []
    ensures TotalWeight(feeds) == 0
  {
    if feeds != [] { EmptyFeedsWeigh(feeds[..|feeds| - 1]); }
  }

  /** A readable store that fits both limits and is not reported completely: its last source is empty. */
  lemma HundredMayBeIncomplete(observedAt: string)
    requires |observedAt| <= 27
    ensures var feeds := HundredDeletions();
            && Spacious(feeds, MAX_BYTES, Reserved(observedAt))
            && TotalCount(feeds) == MAX_ENTRIES && !Countable(feeds, MAX_ENTRIES)
  {
    var feeds := HundredDeletions();
    CountOfSeven(feeds);
    TotalsFromThird(feeds);
    EmptyTextsWeigh(feeds[0].records, 100);
    EmptyFeedsWeigh(feeds[2..]);
    ReservedFits(observedAt);
  }

  /** The runtime fragment, in the budgets that the local sources left, joined to their items. */
  method ReadRest(observedAt: string, feeds: seq<Feed>, p: Progress, deletions: seq<Item>, own: seq<Item>,
                  d: Coverage, g: Coverage)
    returns (r: Result<Response, Fault>)
    requires |feeds| == 7 && p.items == deletions + own && p.itemBytes == ItemBytes(p.items)
    requires AllFrom(deletions, Deletion) && AllFrom(own, Registry) && |p.items| <= MAX_ENTRIES
    requires d.source == Deletion && WellFormed(d) && (!d.incomplete ==> Lists(deletions, feeds[0].records))
    requires g.source == Registry && WellFormed(g) && (!g.incomplete ==> Lists(own, feeds[1].records))
    requires RuntimeReserve(observedAt) <= RuntimeBudget(p, d, g) <= MAX_BYTES
    ensures r.Ok? ==> ResponseOk(r.value, observedAt, feeds)
    ensures r.Err? ==> r.error == Denied
    ensures r.Ok? && !r.value.incomplete && feeds[6].records == [] ==> |r.value.items| < MAX_ENTRIES
    ensures r.Ok? && !d.incomplete && !g.incomplete && p.exhausted.None?
            && Roomy(feeds[2..], MAX_ENTRIES - |p.items|, RuntimeBudget(p, d, g), RuntimeReserve(observedAt))
            ==> !r.value.incomplete
  {
    var fragment :- ReadRuntime(
      observedAt, feeds[2..], if p.exhausted.Some? then 0 else MAX_ENTRIES - |p.items|, RuntimeBudget(p, d, g));
    var denied := *;
    if denied { return Err(Denied); }
    var joined := Assemble(p, deletions, own, d, g, fragment, feeds);
    return Ok(joined);
  }

  /**
   * The cleanup read. Whatever the sources hold and wherever they fail, an admitted response fits the
   * item and byte limits, never drops an item in its final truncation, and lists every record of each
   * source that does not report itself incomplete; only lost authority refuses it. A complete response
   * needs fewer than 100 records, or exactly 100 with some in the last source; a readable store that
   * leaves room for the coverage rows is reported completely if and only if that is so.
   */
  method Read(observedAt: string, feeds: seq<Feed>, drifted: bool) returns (r: Result<Response, Fault>)
    requires |observedAt| <= 27 && |feeds| == 7
    ensures r.Ok? ==> ResponseOk(r.value, observedAt, feeds)
    ensures r.Err? ==> r.error == Denied
    ensures r.Ok? && !r.value.incomplete ==> Countable(feeds, MAX_ENTRIES)
    ensures r.Ok? && Spacious(feeds, MAX_BYTES, Reserved(observedAt)) && !drifted ==>
              (!r.value.incomplete <==> Countable(feeds, MAX_ENTRIES))
  {
    var p, deletions, own, d, g, denied := ReadLocal(observedAt, feeds, drifted);
    if denied { return Err(Denied); }
    r := ReadRest(observedAt, feeds, p, deletions, own, d, g);
    if r.Ok? && !r.value.incomplete { CompleteCounts(r.value, feeds); }
  }
}
