/**
 * `fetch_one`: classify the reply for one submission id and, for a page,
 * select the record's fields with their defaults. The markup itself is
 * abstracted into a `Page` of already-extracted pieces (link texts and
 * targets, cell texts, the texts of the optional span and div elements,
 * the subtask-score span texts), so the selection rules are exact.
 */
module Fetch {
  import opened Wrappers
  import opened Scrape

  const NotFoundStatus := 404
  const OkStatus := 200
  /** The host prefixed to the second link's target. */
  const SiteRoot := "https://oj.uz"

  /** An `<a>` of the metadata row: its stripped text and its `href`, which may be absent. */
  datatype Link = Link(text: string, href: Option<string>)

  /** The `span[data-format=datetime]`, with its `data-timestamp-iso` attribute if present. */
  datatype DatetimeSpan = DatetimeSpan(iso: Option<string>)

  /** The first `tr` of the metadata table's `tbody`, as extracted pieces. */
  datatype Row = Row(
    links: seq<Link>,
    datetime: Option<DatetimeSpan>,
    cells: seq<string>,
    scoreText: Option<string>,
    execText: Option<string>,
    memText: Option<string>)

  /**
   * A parsed submission page. `metadata` is None when the table, its tbody
   * or its first row is absent; `code` is the unescaped code block, if any.
   */
  datatype Page = Page(code: Option<string>, metadata: Option<Row>, subtaskTexts: seq<string>)

  /** The single GET of a submission page: a transport failure or a response. */
  datatype Reply = TransportError | Response(status: int, page: Page)

  /** The 10-field row tuple that `fetch_one` returns. */
  datatype Record = Record(
    id: int,
    timestamp: Option<string>,
    username: string,
    problemLink: string,
    language: string,
    score: FloatToken,
    subtaskScores: seq<FloatToken>,
    executionTime: nat,
    memory: nat,
    code: string)

  /** The three results of `fetch_one`: a row, "NOTFOUND", or None. */
  datatype Outcome = Found(record: Record) | NotFound | Dropped

  function Username(links: seq<Link>): string
  {
    if |links| >= 1 then links[0].text else ""
  }

  /** None stands for the KeyError raised when the second link has no `href`. */
  function ProblemLink(links: seq<Link>): Option<string>
  {
    if |links| >= 2 then
      (if links[1].href.Some? then Some(SiteRoot + links[1].href.value) else None)
    else Some("")
  }

  function Timestamp(datetime: Option<DatetimeSpan>): Option<string>
  {
    if datetime.Some? then datetime.value.iso else Some("")
  }

  function Language(cells: seq<string>): string
  {
    if |cells| >= 5 then cells[4] else ""
  }

  function Score(scoreText: Option<string>): FloatToken
  {
    if scoreText.Some? then CleanFloat(scoreText) else ZeroToken
  }

  /** The subtask scores: one token per span, in document order. */
  function SubtaskTokens(texts: seq<string>): seq<FloatToken>
  {
    seq(|texts|, k requires 0 <= k < |texts| => CleanFloat(Some(texts[k])))
  }

  /**
   * The body of `fetch_one`'s `try` block for a page that came back with
   * status 200, given the subtask token list. A missing metadata row,
   * a second link without `href` (`KeyError`) and a time or memory text whose
   * digit run `int()` refuses (`ValueError`) all end in the catch-all
   * `except`, that is in `Dropped`.
   */
  function Parse(i: int, page: Page, subs: seq<FloatToken>): Outcome
  {
    if page.metadata.None? then Dropped
    else
      var row := page.metadata.value;
      var link := ProblemLink(row.links);
      var exec := CleanInt(Some(OrEmpty(row.execText)));
      var mem := CleanInt(Some(OrEmpty(row.memText)));
      if link.None? || exec.None? || mem.None? then Dropped
      else
        Found(Record(i, Timestamp(row.datetime), Username(row.links), link.value, Language(row.cells),
                     Score(row.scoreText), subs, exec.value, mem.value, OrEmpty(page.code)))
  }

  /** `fetch_one(i)` given the reply to its GET: the status is classified before any parsing. */
  function FetchOutcome(i: int, reply: Reply): (o: Outcome)
    ensures o.NotFound? <==> reply.Response? && reply.status == NotFoundStatus
    ensures reply.TransportError? ==> o.Dropped?
    ensures reply.Response? && reply.status != NotFoundStatus && reply.status != OkStatus ==> o.Dropped?
    ensures reply.Response? && reply.status == OkStatus && reply.page.metadata.None? ==> o.Dropped?
    ensures o.Found? ==> reply.Response? && reply.status == OkStatus && reply.page.metadata.Some?
    ensures o.Found? ==> o.record.id == i
  {
    match reply
    case TransportError => Dropped
    case Response(status, page) =>
      if status == NotFoundStatus then NotFound
      else if status != OkStatus then Dropped
      else Parse(i, page, SubtaskTokens(page.subtaskTexts))
  }

  /** Beyond the mandatory row only a second link without a target loses the item. */
  lemma FoundExactly(i: int, reply: Reply)
    ensures FetchOutcome(i, reply).Found? <==>
      && reply.Response? && reply.status == OkStatus && reply.page.metadata.Some?
      && (|reply.page.metadata.value.links| < 2 || reply.page.metadata.value.links[1].href.Some?)
      && CleanInt(reply.page.metadata.value.execText).Some?
      && CleanInt(reply.page.metadata.value.memText).Some?
  {
  }

  /** Every field other than the row's presence has a presence- or length-guarded default. */
  lemma FieldDefaults(i: int, reply: Reply)
    requires FetchOutcome(i, reply).Found?
    ensures var r := FetchOutcome(i, reply).record;
      var row := reply.page.metadata.value;
      && (|row.links| >= 1 ==> r.username == row.links[0].text)
      && (|row.links| == 0 ==> r.username == "")
      && (|row.links| >= 2 ==> r.problemLink == SiteRoot + row.links[1].href.value)
      && (|row.links| < 2 ==> r.problemLink == "")
      && (row.datetime.None? ==> r.timestamp == Some(""))
      && (row.datetime.Some? ==> r.timestamp == row.datetime.value.iso)
      && (|row.cells| >= 5 ==> r.language == row.cells[4])
      && (|row.cells| < 5 ==> r.language == "")
      && (row.scoreText.None? ==> r.score == ZeroToken)
      && (row.scoreText.Some? ==> r.score == CleanFloat(row.scoreText))
      && (row.execText.None? ==> r.executionTime == 0)
      && (row.execText.Some? ==> Some(r.executionTime) == CleanInt(row.execText))
      && (row.memText.None? ==> r.memory == 0)
      && (row.memText.Some? ==> Some(r.memory) == CleanInt(row.memText))
      && (reply.page.code.None? ==> r.code == "")
      && (reply.page.code.Some? ==> r.code == reply.page.code.value)
  {
  }

  /** One subtask score per `subtask-score` span, in document order, each read by `clean_float`. */
  lemma SubtaskScoresPerSpan(i: int, reply: Reply)
    requires FetchOutcome(i, reply).Found?
    ensures var subs := FetchOutcome(i, reply).record.subtaskScores;
      var texts := reply.page.subtaskTexts;
      |subs| == |texts| && forall k :: 0 <= k < |texts| ==> subs[k] == CleanFloat(Some(texts[k]))
  {
  }

  /** A metadata row with author "alice", problem "/problem/42", language "C++" and score "78.5 pts". */
  const ExampleMetadata := Row([Link("alice", Some("/profile/alice")), Link("Problem 42", Some("/problem/42"))],
                               None, ["1", "2", "3", "4", "C++"], Some("78.5 pts"), None, None)

  /** The example row parses to exactly those fields, with defaults everywhere else. */
  lemma ExampleRow(i: int, code: Option<string>, subtasks: seq<string>)
    ensures FetchOutcome(i, Response(OkStatus, Page(code, Some(ExampleMetadata), subtasks)))
         == Found(Record(i, Some(""), "alice", SiteRoot + "/problem/42", "C++", FloatToken("78", Some("5")),
                         SubtaskTokens(subtasks), 0, 0, OrEmpty(code)))
  {
    var row := ExampleMetadata;
    assert ProblemLink(row.links) == Some(SiteRoot + "/problem/42");
    CleanFloatScoreText();
    assert CleanInt(Some(OrEmpty(None))) == Some(0) by {
      ScrapersDefaultToZero(None);
    }
  }

  /** A 200 page whose time text is a 4301-digit run is dropped: `int()` refuses the run. */
  lemma OverlongTimeDrops(i: int, page: Page)
    requires page.metadata.Some? && page.metadata.value.execText == Some(OverlongRun)
    ensures FetchOutcome(i, Response(OkStatus, page)) == Dropped
  {
    CleanIntRefusesOverlongRun();
  }

  /** The `subs` loop: append `clean_float` of each subtask span's text. */
  method SubtaskScores(texts: seq<string>) returns (subs: seq<FloatToken>)
    ensures |subs| == |texts|
    ensures forall k :: 0 <= k < |texts| ==> subs[k] == CleanFloat(Some(texts[k]))
  {
    subs := [];
    for j := 0 to |texts|
      invariant |subs| == j
      invariant forall k :: 0 <= k < j ==> subs[k] == CleanFloat(Some(texts[k]))
    {
      subs := subs + [CleanFloat(Some(texts[j]))];
    }
  }

  /**
   * `fetch_one` as the worker runs it: the status checks as statements, the
   * subtask list built by its loop, then the same `Parse` of the row.
   */
  method FetchOne(i: int, reply: Reply) returns (o: Outcome)
    ensures o == FetchOutcome(i, reply)
  {
    if reply.TransportError? {
      return Dropped;
    }
    if reply.status == NotFoundStatus {
      return NotFound;
    }
    if reply.status != OkStatus {
      return Dropped;
    }
    var page := reply.page;
    var subs := SubtaskScores(page.subtaskTexts);
    assert subs == SubtaskTokens(page.subtaskTexts);
    o := Parse(i, page, subs);
  }
}
