/**
 * Continuation cursors: a position and its Workspace as JSON, in base64url without padding. Decoding
 * is lenient about foreign characters, so only text that encodes back to itself is accepted.
 */
module NavigationCursor {
  import opened Common
  import opened Navigation

  type Byte = x: nat | x < 256
  type Sextet = x: nat | x < 64

  // ----- The alphabet -----

  function Letter(s: Sextet): char {
    if s < 26 then 'A' + s as char
    else if s < 52 then 'a' + (s - 26) as char
    else if s < 62 then '0' + (s - 52) as char
    else if s == 62 then '-' else '_'
  }

  /** Both base64 alphabets are understood; anything else is skipped. */
  function Value(c: char): Option<Sextet> {
    if 'A' <= c <= 'Z' then Some((c - 'A') as nat)
    else if 'a' <= c <= 'z' then Some(26 + (c - 'a') as nat)
    else if '0' <= c <= '9' then Some(52 + (c - '0') as nat)
    else if c == '-' || c == '+' then Some(62)
    else if c == '_' || c == '/' then Some(63)
    else None
  }

  lemma LetterValue(s: Sextet)
    ensures Value(Letter(s)) == Some(s)
  {
  }

  function Letters(ss: seq<Sextet>): string {
    if ss == [] then "" else [Letter(ss[0])] + Letters(ss[1..])
  }

  function Values(text: string): seq<Sextet> {
    if text == "" then []
    else (if Value(text[0]).Some? then [Value(text[0]).value] else []) + Values(text[1..])
  }

  lemma {:induction false} LettersValues(ss: seq<Sextet>)
    ensures Values(Letters(ss)) == ss
  {
    if ss != [] {
      LetterValue(ss[0]);
      LettersValues(ss[1..]);
      assert Letters(ss)[1..] == Letters(ss[1..]);
      assert ss == [ss[0]] + ss[1..];
    }
  }

  // ----- Groups of three bytes and four sextets -----

  /** The four sextets of three bytes. */
  function Group(a: Byte, b: Byte, c: Byte): (g: seq<Sextet>)
    ensures |g| == 4
  {
    [a / 4, a % 4 * 16 + b / 16, b % 16 * 4 + c / 64, c % 64]
  }

  function Split(bytes: seq<Byte>): seq<Sextet> {
    if bytes == [] then []
    else if |bytes| == 1 then [bytes[0] / 4, bytes[0] % 4 * 16]
    else if |bytes| == 2 then [bytes[0] / 4, bytes[0] % 4 * 16 + bytes[1] / 16, bytes[1] % 16 * 4]
    else Group(bytes[0], bytes[1], bytes[2]) + Split(bytes[3..])
  }

  function First(a: nat, b: nat): Byte
    requires a < 64 && b < 64
  {
    a * 4 + b / 16
  }

  function Second(b: nat, c: nat): Byte
    requires b < 64 && c < 64
  {
    b % 16 * 16 + c / 4
  }

  function Third(c: nat, d: nat): Byte
    requires c < 64 && d < 64
  {
    c % 4 * 64 + d
  }

  /** The bits of an incomplete last group that do not fill a byte are dropped. */
  function Unite(ss: seq<Sextet>): seq<Byte> {
    if |ss| <= 1 then []
    else if |ss| == 2 then [First(ss[0], ss[1])]
    else if |ss| == 3 then [First(ss[0], ss[1]), Second(ss[1], ss[2])]
    else [First(ss[0], ss[1]), Second(ss[1], ss[2]), Third(ss[2], ss[3])] + Unite(ss[4..])
  }

  lemma FirstUnites(a: Byte, b: Byte)
    ensures First(a / 4, a % 4 * 16 + b / 16) == a
  {
  }

  lemma SecondUnites(a: Byte, b: Byte, c: Byte)
    ensures Second(a % 4 * 16 + b / 16, b % 16 * 4 + c / 64) == b
  {
    var q, r := a % 4 * 16 + b / 16, b % 16 * 4 + c / 64;
    assert q % 16 == b / 16;
    assert r / 4 == b % 16;
  }

  lemma ThirdUnites(b: Byte, c: Byte)
    ensures Third(b % 16 * 4 + c / 64, c % 64) == c
  {
    assert (b % 16 * 4 + c / 64) % 4 == c / 64;
  }

  /** Four sextets that carry three bytes. */
  predicate Carries(p: Sextet, q: Sextet, r: Sextet, t: Sextet, a: Byte, b: Byte, c: Byte) {
    First(p, q) == a && Second(q, r) == b && Third(r, t) == c
  }

  lemma GroupCarries(a: Byte, b: Byte, c: Byte)
    ensures var g := Group(a, b, c); Carries(g[0], g[1], g[2], g[3], a, b, c)
  {
    FirstUnites(a, b);
    SecondUnites(a, b, c);
    ThirdUnites(b, c);
  }

  lemma FourUnite(g: seq<Sextet>, rest: seq<Sextet>, a: Byte, b: Byte, c: Byte)
    requires |g| == 4 && Carries(g[0], g[1], g[2], g[3], a, b, c)
    ensures Unite(g + rest) == [a, b, c] + Unite(rest)
  {
    assert (g + rest)[4..] == rest;
  }

  lemma TwoUnite(a: Byte, b: Byte)
    ensures Unite(Split([a, b])) == [a, b]
  {
    FirstUnites(a, b);
    SecondUnites(a, b, 0);
  }

  lemma OneUnites(a: Byte)
    ensures Unite(Split([a])) == [a]
  {
    FirstUnites(a, 0);
  }

  lemma SplitUnfolds(bytes: seq<Byte>)
    requires |bytes| >= 3
    ensures Split(bytes) == Group(bytes[0], bytes[1], bytes[2]) + Split(bytes[3..])
  {
  }

  lemma {:induction false} SplitUnites(bytes: seq<Byte>, sextets: seq<Sextet>)
    requires sextets == Split(bytes)
    ensures Unite(sextets) == bytes
    decreases |bytes|
  {
    if |bytes| >= 3 {
      var rest := Split(bytes[3..]);
      SplitUnites(bytes[3..], rest);
      SplitUnfolds(bytes);
      GroupCarries(bytes[0], bytes[1], bytes[2]);
      FourUnite(Group(bytes[0], bytes[1], bytes[2]), rest, bytes[0], bytes[1], bytes[2]);
      assert bytes == [bytes[0], bytes[1], bytes[2]] + bytes[3..];
    } else if |bytes| == 2 {
      assert bytes == [bytes[0], bytes[1]];
      TwoUnite(bytes[0], bytes[1]);
    } else if |bytes| == 1 {
      assert bytes == [bytes[0]];
      OneUnites(bytes[0]);
    }
  }

  function EncodeBytes(bytes: seq<Byte>): string { Letters(Split(bytes)) }

  function DecodeText(text: string): seq<Byte> { Unite(Values(text)) }

  lemma Base64RoundTrip(bytes: seq<Byte>)
    ensures DecodeText(EncodeBytes(bytes)) == bytes
  {
    LettersValues(Split(bytes));
    SplitUnites(bytes, Split(bytes));
  }

  // ----- Cursors -----

  datatype Tuple = Tuple(workspace: Text, position: Position)

  /**
   * The JSON form of the cursor tuple and its schema, which admits only Workspace and Thread ids and a
   * timestamp; parsing refuses everything that is not an admitted tuple.
   */
  datatype Codec = Codec(stringify: Tuple -> seq<Byte>, parse: seq<Byte> -> Option<Tuple>, admits: Tuple -> bool)
  {
    ghost predicate Faithful() {
      forall t :: parse(stringify(t)) == if admits(t) then Some(t) else None
    }

    /** The rows' positions satisfy the schema, as the response schema demands of them. */
    predicate Admits(workspace: Text, rows: seq<Row>) {
      forall r <- rows :: admits(Tuple(workspace, r.position))
    }
  }

  datatype Refusal = InvalidRequest

  function EncodeCursor(c: Codec, workspace: Text, position: Position): string {
    EncodeBytes(c.stringify(Tuple(workspace, position)))
  }

  function DecodeCursor(c: Codec, cursor: Option<string>, workspace: Text): Result<Option<Position>, Refusal> {
    if cursor.None? then Ok(None)
    else
      var bytes := DecodeText(cursor.value);
      var tuple := c.parse(bytes);
      :- Need(tuple.Some? && EncodeBytes(bytes) == cursor.value && tuple.value.workspace == workspace, InvalidRequest);
      Ok(Some(tuple.value.position))
  }

  /** An admitted cursor leads back to its position in its own Workspace; every other use is refused. */
  lemma CursorRoundTrip(c: Codec, workspace: Text, position: Position, reader: Text)
    requires c.Faithful()
    ensures DecodeCursor(c, Some(EncodeCursor(c, workspace, position)), reader)
            == if reader == workspace && c.admits(Tuple(workspace, position)) then Ok(Some(position))
               else Err(InvalidRequest)
  {
    Base64RoundTrip(c.stringify(Tuple(workspace, position)));
  }

  /** A continuation is the position of a row. */
  lemma NextIsAdmitted(c: Codec, rows: seq<Row>, workspace: Text, position: Option<Position>, limit: nat)
    requires DistinctThreads(rows) && c.Admits(workspace, rows)
    requires ReadPage(rows, position, Some(limit)).next.Some?
    ensures c.admits(Tuple(workspace, ReadPage(rows, position, Some(limit)).next.value))
  {
    var items := ReadPage(rows, position, Some(limit)).items;
    var last := items[|items| - 1];
    assert last == Remaining(rows, position)[|items| - 1];
    RemainingCounts(rows, position, last);
    assert last in multiset(rows);
  }

  datatype Response = Response(items: seq<Row>, nextCursor: Option<string>)

  /** The navigation read: one page after the decoded position. */
  function ReadNavigation(c: Codec, rows: seq<Row>, workspace: Text, limit: Option<nat>, cursor: Option<string>)
    : Result<Response, Refusal>
  {
    var position :- DecodeCursor(c, cursor, workspace);
    var page := ReadPage(rows, position, limit);
    Ok(Response(page.items, if page.next.None? then None else Some(EncodeCursor(c, workspace, page.next.value))))
  }

  /** The responses a client gets by sending each next cursor back. */
  ghost predicate Followed(
      c: Codec, rows: seq<Row>, workspace: Text, limit: nat, cursor: Option<string>, responses: seq<Response>)
    decreases |responses|
  {
    && |responses| > 0 && ReadNavigation(c, rows, workspace, Some(limit), cursor) == Ok(responses[0])
    && (if responses[0].nextCursor.None? then |responses| == 1
        else Followed(c, rows, workspace, limit, responses[0].nextCursor, responses[1..]))
  }

  function AllItems(responses: seq<Response>): seq<Row> {
    if responses == [] then [] else responses[0].items + AllItems(responses[1..])
  }

  /** Over an unchanged store, following cursors to the end gives the unpaged list. */
  lemma {:induction false} FollowingReadsAll(
      c: Codec, rows: seq<Row>, workspace: Text, limit: nat, position: Option<Position>, cursor: Option<string>,
      responses: seq<Response>)
    requires c.Faithful() && c.Admits(workspace, rows) && DistinctThreads(rows) && limit > 0
    requires DecodeCursor(c, cursor, workspace) == Ok(position)
             && Followed(c, rows, workspace, limit, cursor, responses)
    ensures AllItems(responses) == ReadPage(rows, position, None).items
    ensures cursor.None? ==> AllItems(responses) == SortRows(rows)
    decreases |responses|
  {
    var page := ReadPage(rows, position, Some(limit));
    if page.next.Some? {
      NextIsAdmitted(c, rows, workspace, position, limit);
      CursorRoundTrip(c, workspace, page.next.value, workspace);
      FollowingReadsAll(c, rows, workspace, limit, page.next, responses[0].nextCursor, responses[1..]);
    } else {
      assert AllItems(responses[1..]) == [];
    }
    PagesConcatenate(rows, position, limit);
    if page.next.Some? { PagesConcatenate(rows, page.next, limit); }
  }

  /** Following cursors comes to an end. */
  lemma {:induction false} FollowingEnds(
      c: Codec, rows: seq<Row>, workspace: Text, limit: nat, position: Option<Position>, cursor: Option<string>)
    returns (responses: seq<Response>)
    requires c.Faithful() && c.Admits(workspace, rows) && DistinctThreads(rows) && limit > 0
    requires DecodeCursor(c, cursor, workspace) == Ok(position)
    ensures Followed(c, rows, workspace, limit, cursor, responses)
    decreases |Remaining(rows, position)|
  {
    var page := ReadPage(rows, position, Some(limit));
    var first := ReadNavigation(c, rows, workspace, Some(limit), cursor).value;
    responses := [first];
    if page.next.Some? {
      NextIsAdmitted(c, rows, workspace, position, limit);
      CursorRoundTrip(c, workspace, page.next.value, workspace);
      NextContinues(rows, position, Some(limit));
      var rest := FollowingEnds(c, rows, workspace, limit, page.next, first.nextCursor);
      responses := [first] + rest;
      assert responses[1..] == rest;
    }
  }
}
