/**
 * The compact JSON text of the administrator cleanup response, as UTF-8 code units, and the byte
 * counts that budget it. Items are opaque encoded texts; coverage rows are encoded here.
 */
module CleanupEncoding {
  const MAX_ENTRIES: nat := 100
  const MAX_BYTES: nat := 262144

  datatype Source = Deletion | Registry | Attempt | Backend | Binding | Sandbox | Storage

  datatype Reason = CountLimit | ByteLimit | SourceUnavailable | SourceChanged

  datatype Coverage = Coverage(source: Source, available: bool, incomplete: bool, reasons: seq<Reason>)

  datatype Item = Item(source: Source, text: string)

  datatype Response = Response(observedAt: string, items: seq<Item>, sources: seq<Coverage>, incomplete: bool)

  // ----- Text -----

  function SourceName(s: Source): string {
    match s
    case Deletion => "workspace-deletion" case Registry => "workspace-registry" case Attempt => "execution-attempt"
    case Backend => "backend-session" case Binding => "agent-session-binding" case Sandbox => "sandbox-runtime"
    case Storage => "worker-storage"
  }

  function ReasonText(r: Reason): string {
    match r
    case CountLimit => "\"count_limit\"" case ByteLimit => "\"byte_limit\""
    case SourceUnavailable => "\"source_unavailable\"" case SourceChanged => "\"source_changed\""
  }

  function BoolText(b: bool): string { if b then "true" else "false" }

  function Join(texts: seq<string>): string {
    if texts == [] then "" else if |texts| == 1 then texts[0] else Join(texts[..|texts| - 1]) + "," + texts[|texts| - 1]
  }

  function ReasonTexts(rs: seq<Reason>): (texts: seq<string>)
    ensures |texts| == |rs| && forall i | 0 <= i < |rs| :: texts[i] == ReasonText(rs[i])
  {
    seq(|rs|, i requires 0 <= i < |rs| => ReasonText(rs[i]))
  }

  function CoverageText(c: Coverage): string {
    "{\"source\":\"" + SourceName(c.source) + "\",\"availability\":\""
    + (if c.available then "available" else "unavailable")
    + "\",\"incomplete\":" + BoolText(c.incomplete)
    + ",\"reasons\":[" + Join(ReasonTexts(c.reasons)) + "]}"
  }

  function ItemTexts(items: seq<Item>): (texts: seq<string>)
    ensures |texts| == |items| && forall i | 0 <= i < |items| :: texts[i] == items[i].text
  {
    seq(|items|, i requires 0 <= i < |items| => items[i].text)
  }

  function CoverageTexts(cs: seq<Coverage>): (texts: seq<string>)
    ensures |texts| == |cs| && forall i | 0 <= i < |cs| :: texts[i] == CoverageText(cs[i])
  {
    seq(|cs|, i requires 0 <= i < |cs| => CoverageText(cs[i]))
  }

  function Compact(r: Response): string {
    "{\"observedAt\":\"" + r.observedAt + "\",\"items\":[" + Join(ItemTexts(r.items)) + "],\"sources\":["
    + Join(CoverageTexts(r.sources)) + "],\"incomplete\":" + BoolText(r.incomplete) + "}"
  }

  // ----- Byte counts -----

  /** The running count kept while items are admitted: each item, and a separator before all but the first. */
  function ItemBytes(items: seq<Item>): nat {
    if items == [] then 0
    else ItemBytes(items[..|items| - 1]) + |items[|items| - 1].text| + (if |items| > 1 then 1 else 0)
  }

  function NameBytes(s: Source): nat {
    match s
    case Deletion => 18 case Registry => 18 case Attempt => 17 case Backend => 15 case Binding => 21 case Sandbox => 15
    case Storage => 14
  }

  function ReasonBytes(r: Reason): nat {
    match r case CountLimit => 13 case ByteLimit => 12 case SourceUnavailable => 20 case SourceChanged => 16
  }

  function ReasonsBytes(rs: seq<Reason>): nat {
    if rs == [] then 0 else ReasonsBytes(rs[..|rs| - 1]) + ReasonBytes(rs[|rs| - 1]) + (if |rs| > 1 then 1 else 0)
  }

  function CoverageBytes(c: Coverage): nat {
    58 + NameBytes(c.source) + (if c.available then 9 else 11) + (if c.incomplete then 4 else 5)
    + ReasonsBytes(c.reasons)
  }

  function CoveragesBytes(cs: seq<Coverage>): nat {
    if cs == [] then 0 else CoveragesBytes(cs[..|cs| - 1]) + CoverageBytes(cs[|cs| - 1]) + (if |cs| > 1 then 1 else 0)
  }

  function JsonBytes(r: Response): nat {
    55 + |r.observedAt| + ItemBytes(r.items) + CoveragesBytes(r.sources) + (if r.incomplete then 4 else 5)
  }

  // ----- The counts are the lengths of the text -----

  function Bit(b: bool, n: nat): nat { if b then n else 0 }

  lemma JoinPush(texts: seq<string>, t: string)
    ensures |Join(texts + [t])| == |Join(texts)| + |t| + Bit(texts != [], 1)
  {
    assert (texts + [t])[..|texts|] == texts;
  }

  lemma {:induction false} ItemBytesExact(items: seq<Item>)
    ensures |Join(ItemTexts(items))| == ItemBytes(items)
  {
    if items != [] {
      var init, last := items[..|items| - 1], items[|items| - 1];
      ItemBytesExact(init);
      assert items == init + [last];
      assert ItemTexts(items) == ItemTexts(init) + [last.text];
      JoinPush(ItemTexts(init), last.text);
    }
  }

  lemma ReasonBytesExact(r: Reason)
    ensures |ReasonText(r)| == ReasonBytes(r)
  {
  }

  lemma ReasonsBytesPush(init: seq<Reason>, last: Reason)
    ensures ReasonsBytes(init + [last]) == ReasonsBytes(init) + ReasonBytes(last) + Bit(init != [], 1)
  {
    assert (init + [last])[..|init|] == init;
  }

  lemma {:induction false} JoinedReasons(texts: seq<string>, rs: seq<Reason>)
    requires |texts| == |rs| && forall i | 0 <= i < |rs| :: |texts[i]| == ReasonBytes(rs[i])
    ensures |Join(texts)| == ReasonsBytes(rs)
  {
    if rs != [] {
      var init, last := rs[..|rs| - 1], rs[|rs| - 1];
      var before, text := texts[..|rs| - 1], texts[|rs| - 1];
      JoinedReasons(before, init);
      assert rs == init + [last] && texts == before + [text];
      JoinPush(before, text);
      ReasonsBytesPush(init, last);
    }
  }

  lemma ReasonsBytesExact(rs: seq<Reason>)
    ensures |Join(ReasonTexts(rs))| == ReasonsBytes(rs)
  {
    forall i | 0 <= i < |rs| ensures |ReasonTexts(rs)[i]| == ReasonBytes(rs[i]) {
      ReasonBytesExact(rs[i]);
    }
    JoinedReasons(ReasonTexts(rs), rs);
  }

  lemma NameBytesExact(s: Source)
    ensures |SourceName(s)| == NameBytes(s)
  {
  }

  lemma CoverageBytesExact(c: Coverage)
    ensures |CoverageText(c)| == CoverageBytes(c)
  {
    var name, available, incomplete, reasons :=
      SourceName(c.source), if c.available then "available" else "unavailable", BoolText(c.incomplete),
      Join(ReasonTexts(c.reasons));
    NameBytesExact(c.source);
    ReasonsBytesExact(c.reasons);
    FramedLength(name, available, incomplete, reasons);
  }

  /** The fixed parts of a coverage row take 58 bytes. */
  lemma FramedLength(name: string, available: string, incomplete: string, reasons: string)
    ensures |"{\"source\":\"" + name + "\",\"availability\":\"" + available + "\",\"incomplete\":" + incomplete
             + ",\"reasons\":[" + reasons + "]}"|
            == 58 + |name| + |available| + |incomplete| + |reasons|
  {
  }

  lemma CoveragesBytesPush(init: seq<Coverage>, last: Coverage)
    ensures CoveragesBytes(init + [last]) == CoveragesBytes(init) + CoverageBytes(last) + Bit(init != [], 1)
  {
    assert (init + [last])[..|init|] == init;
  }

  /** Texts of these lengths, joined. */
  lemma {:induction false} JoinedBytes(texts: seq<string>, cs: seq<Coverage>)
    requires |texts| == |cs| && forall i | 0 <= i < |cs| :: |texts[i]| == CoverageBytes(cs[i])
    ensures |Join(texts)| == CoveragesBytes(cs)
  {
    if cs != [] {
      var init, last := cs[..|cs| - 1], cs[|cs| - 1];
      var before, text := texts[..|cs| - 1], texts[|cs| - 1];
      JoinedBytes(before, init);
      assert cs == init + [last] && texts == before + [text];
      JoinPush(before, text);
      CoveragesBytesPush(init, last);
    }
  }

  lemma CoveragesBytesExact(cs: seq<Coverage>)
    ensures |Join(CoverageTexts(cs))| == CoveragesBytes(cs)
  {
    forall i | 0 <= i < |cs| ensures |CoverageTexts(cs)[i]| == CoverageBytes(cs[i]) {
      CoverageBytesExact(cs[i]);
    }
    JoinedBytes(CoverageTexts(cs), cs);
  }

  /** The budget arithmetic counts exactly the bytes that are sent. */
  lemma JsonBytesExact(r: Response)
    ensures |Compact(r)| == JsonBytes(r)
  {
    ItemBytesExact(r.items);
    CoveragesBytesExact(r.sources);
  }

  // ----- Joining and bounding -----

  lemma {:induction false} ItemBytesJoin(a: seq<Item>, b: seq<Item>)
    ensures ItemBytes(a + b) == ItemBytes(a) + ItemBytes(b) + (if a != [] && b != [] then 1 else 0)
  {
    if b == [] {
      assert a + b == a;
    } else {
      ItemBytesJoin(a, b[..|b| - 1]);
      assert (a + b)[..|a + b| - 1] == a + b[..|b| - 1];
    }
  }

  lemma {:induction false} CoveragesBytesJoin(a: seq<Coverage>, b: seq<Coverage>)
    ensures CoveragesBytes(a + b) == CoveragesBytes(a) + CoveragesBytes(b) + (if a != [] && b != [] then 1 else 0)
  {
    if b == [] {
      assert a + b == a;
    } else {
      CoveragesBytesJoin(a, b[..|b| - 1]);
      assert (a + b)[..|a + b| - 1] == a + b[..|b| - 1];
    }
  }

  predicate NoRepeats(rs: seq<Reason>) {
    forall i, j | 0 <= i < j < |rs| :: rs[i] != rs[j]
  }

  /** A complete source gives no reasons, and no reason is given twice. */
  predicate WellFormed(c: Coverage) {
    NoRepeats(c.reasons) && (!c.incomplete ==> c.reasons == [])
  }

  function MaximumCoverage(s: Source): Coverage {
    Coverage(s, false, true, [CountLimit, ByteLimit, SourceUnavailable, SourceChanged])
  }

  /** The bytes of the reasons that occur, each with its separator. */
  function Distinct(rs: seq<Reason>): nat {
    Bit(CountLimit in rs, 14) + Bit(ByteLimit in rs, 13) + Bit(SourceUnavailable in rs, 21)
    + Bit(SourceChanged in rs, 17)
  }

  lemma LastIsNew(rs: seq<Reason>)
    requires rs != [] && NoRepeats(rs)
    ensures rs[|rs| - 1] !in rs[..|rs| - 1] && NoRepeats(rs[..|rs| - 1])
  {
  }

  lemma DistinctPush(init: seq<Reason>, last: Reason)
    requires last !in init
    ensures Distinct(init + [last]) == Distinct(init) + ReasonBytes(last) + 1
  {
  }

  lemma {:induction false} ReasonsAreSubset(rs: seq<Reason>)
    requires NoRepeats(rs)
    ensures ReasonsBytes(rs) + Bit(rs != [], 1) == Distinct(rs)
  {
    if rs != [] {
      var init, last := rs[..|rs| - 1], rs[|rs| - 1];
      LastIsNew(rs);
      assert rs == init + [last];
      ReasonsAreSubset(init);
      ReasonsBytesPush(init, last);
      DistinctPush(init, last);
    }
  }

  /** No coverage row is longer than the one reserved for its source. */
  lemma CoverageFitsMaximum(c: Coverage)
    requires WellFormed(c)
    ensures CoverageBytes(c) <= CoverageBytes(MaximumCoverage(c.source))
  {
    ReasonsAreSubset(c.reasons);
    ReasonsAreSubset(MaximumCoverage(c.source).reasons);
  }

  function Maxima(cs: seq<Coverage>): (ms: seq<Coverage>)
    ensures |ms| == |cs| && forall i | 0 <= i < |cs| :: ms[i] == MaximumCoverage(cs[i].source)
  {
    seq(|cs|, i requires 0 <= i < |cs| => MaximumCoverage(cs[i].source))
  }

  lemma MaximaPush(init: seq<Coverage>, last: Coverage)
    ensures Maxima(init + [last]) == Maxima(init) + [MaximumCoverage(last.source)]
  {
  }

  lemma {:induction false} CoveragesFitMaxima(cs: seq<Coverage>)
    requires forall c <- cs :: WellFormed(c)
    ensures CoveragesBytes(cs) <= CoveragesBytes(Maxima(cs))
  {
    if cs != [] {
      var init, last := cs[..|cs| - 1], cs[|cs| - 1];
      assert cs == init + [last];
      CoveragesFitMaxima(init);
      CoverageFitsMaximum(last);
      MaximaPush(init, last);
      CoveragesBytesPush(init, last);
      CoveragesBytesPush(Maxima(init), MaximumCoverage(last.source));
    }
  }

  predicate AnyIncomplete(cs: seq<Coverage>) {
    exists c <- cs :: c.incomplete
  }

  lemma MaximumBytes(s: Source)
    ensures CoverageBytes(MaximumCoverage(s)) == 137 + NameBytes(s)
  {
    ReasonsAreSubset(MaximumCoverage(s).reasons);
  }

  /** A complete row is at least one byte shorter than the one reserved for it. */
  lemma CompleteRowIsShorter(c: Coverage)
    requires WellFormed(c) && !c.incomplete
    ensures CoverageBytes(c) < CoverageBytes(MaximumCoverage(c.source))
  {
    MaximumBytes(c.source);
  }

  lemma CompleteRowsAreShorter(cs: seq<Coverage>)
    requires cs != [] && (forall c <- cs :: WellFormed(c)) && !AnyIncomplete(cs)
    ensures CoveragesBytes(cs) < CoveragesBytes(Maxima(cs))
  {
    var init, last := cs[..|cs| - 1], cs[|cs| - 1];
    assert cs == init + [last] && last in cs;
    CoveragesFitMaxima(init);
    CompleteRowIsShorter(last);
    MaximaPush(init, last);
    CoveragesBytesPush(init, last);
    CoveragesBytesPush(Maxima(init), MaximumCoverage(last.source));
  }

  /** A response without items, whatever its coverage, fits where one with all maximum coverages does. */
  lemma MetadataFits(observedAt: string, cs: seq<Coverage>)
    requires cs != [] && forall c <- cs :: WellFormed(c)
    ensures JsonBytes(Response(observedAt, [], cs, AnyIncomplete(cs)))
            <= JsonBytes(Response(observedAt, [], Maxima(cs), true))
  {
    if AnyIncomplete(cs) {
      CoveragesFitMaxima(cs);
    } else {
      CompleteRowsAreShorter(cs);
    }
  }
}
