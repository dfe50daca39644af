# Scrape worker model

A Dafny model of the logic core of `worker.py`, a worker that asks a
coordinator for a batch of oj.uz submission ids, fetches and parses every
submission page, and posts back the parsed rows and the ids that answered
404.

The model covers four pieces:

- **Numeric scrapers** (`scrape.dfy`, module `Scrape`). `clean_int` and
  `clean_float` do a regular-expression search over free text and fall back
  to zero. The search is modelled exactly: `SearchDigits` finds the leftmost
  digit and the maximal run after it, and `FractionAt` is the optional
  `(?:\.\d+)` group. `clean_float` returns a `FloatToken`: the integer digits
  plus an optional string of fraction digits. It does not return a float.
- **Fetch-and-parse of one id** (`fetch.dfy`, module `Fetch`). The HTML page
  is abstracted into a `Page` record of already-extracted pieces:
  - the metadata row, `None` when the table, its tbody or its first row is missing;
  - the row's link texts and `href`s;
  - its cell texts;
  - the optional datetime span, score div and time/memory span texts;
  - the texts of every `subtask-score` span in document order.

  `FetchOutcome` is the specification of `fetch_one`: the status is
  classified first, then the fields are selected. `FetchOne` is the same
  computation written as the source writes it, with the loop that builds
  the subtask list (`SubtaskScores`).
- **Batch partition** (`batch.dfy`, module `Batch`). `DispatchAll` submits
  one fetch per position of the batch. `Partition` is the `as_completed` loop
  that appends to `results` and `notfound`. Completion order is a parameter
  `order`, which can be any permutation of the dispatch positions. The
  lemmas show that the report partitions the batch, whatever that order.
- **Poll step** (`worker.dfy`, module `Worker`). `PollAsWritten` is the
  AwaitingWork transition as `main` writes it, including the answer that
  stops the worker; `Poll` is the same transition with that answer backing
  off (see "## Findings"). `Step` is one iteration of `main`'s `while True`
  loop, using `Poll`. It ends in either a 5-second backoff or exactly one
  submission.

`wrappers.dfy` holds the `Option` type that stands for Python's `None`.

Modelling choices that follow the code:

- `links[1]["href"]` raises `KeyError` when the second link has no `href`.
  The `except Exception` in `fetch_one` turns that into `None`. So a page
  with a metadata row but an `href`-less second link is dropped
  (`Fetch.FoundExactly`).
- `tspan.get("data-timestamp-iso")` returns `None` when the span exists but
  the attribute does not. This is why the record's timestamp is an
  `Option<string>`: `""` when there is no span, `None` when the span has no
  attribute.
- `int(m.group(0))` in `clean_int` raises `ValueError` on a digit run longer
  than 4300 digits, the default of `sys.int_max_str_digits` since CPython
  3.11. `Scrape.CleanInt` yields no value then, and the catch-all `except`
  drops the item (`Fetch.OverlongTimeDrops`).
- `r.json().get("ids", [])` followed by `if not ids` gives the same idle
  backoff for an absent field and for every falsy value: null, 0, false, "",
  {} and the empty list (`Worker.IdsField`). A body that is not a JSON object
  fails on `.get` and takes the decode-failure path.
- The futures dictionary is keyed by future, not by id. An id that appears
  twice in a batch is therefore fetched twice and reported once per fetch,
  so the model works per position (`Dispatched`).

## Model

| member | source | states |
|---|---|---|
| `Scrape.FirstDigit` | worker.py:13 | the returned position is the first digit at or after the start, with no digit before it, or the end of the text |
| `Scrape.RunEnd` | worker.py:13 | the greedy `\d+`: every character up to the returned end is a digit and the one at the end is not |
| `Scrape.SearchDigits` | worker.py:13 | there is no match exactly when the text has no digit; otherwise the match starts at the first digit and is the maximal digit run there |
| `Scrape.LeftmostRunOf` | worker.py:13 | for any text made of digit-free text, then a maximal digit run, then the rest, the match is exactly that run |
| `Scrape.CleanInt` | worker.py:12-14 | missing text (`None`), empty text and text without a digit all give 0; the result is never negative |
| `Scrape.CleanIntOfRun` | worker.py:12-14 | `clean_int` is the value of the first maximal digit run, whatever follows it, and fails exactly when that run has more than 4300 digits |
| `Scrape.CleanIntRefusesOverlongRun` | worker.py:14 | a text made of 4301 digits makes `int()` raise |
| `Scrape.CleanIntIgnoresLaterDigits` | worker.py:13-14 | "12ab34" gives 12 |
| `Scrape.CleanIntDropsSign` | worker.py:13-14 | "-5" gives 5: a sign is never part of the match |
| `Scrape.FractionAt` | worker.py:17 | the optional group matches exactly when a point is followed by a digit, and then takes a non-empty digit run |
| `Scrape.CleanFloat` | worker.py:16-18 | the token is a non-empty digit run with an optional non-empty digit fraction; a text with no digit gives the zero token |
| `Scrape.CleanFloatOfRun` | worker.py:16-18 | when the first run is not followed by a point and a digit, the token has no fraction |
| `Scrape.CleanFloatOfFraction` | worker.py:16-18 | when the first run is followed by a point and a digit run, the token's fraction is exactly that digit run |
| `Scrape.CleanFloatTrailingPoint` | worker.py:17 | "5." gives 5: a point not followed by a digit is not consumed |
| `Scrape.CleanFloatOneFraction` | worker.py:17 | "1.2.3" gives 1.2: only one fractional part is taken |
| `Scrape.CleanFloatScoreText` | worker.py:17 | "78.5 pts" gives 78.5: text after the number is ignored |
| `Scrape.CleanFloatWholeIsCleanInt` | worker.py:12-18 | for every text, the integer part of `clean_float`'s token has the value `clean_int` returns, and `clean_int` fails exactly when that part has more than 4300 digits |
| `Scrape.ScrapersDefaultToZero` | worker.py:12-18 | `None` or digit-free text gives 0 and 0.0 and never fails |
| `Fetch.FetchOutcome` | worker.py:20-74 | 404 and only 404 gives "NOTFOUND"; a transport error or any other non-200 status gives None; a 200 page without the metadata row gives None; a row carries the id asked for |
| `Fetch.FoundExactly` | worker.py:25-74 | a row is returned exactly when the status is 200, the metadata row is present, the second link, if there is one, has an `href`, and the time and memory texts are readable by `clean_int` |
| `Fetch.FieldDefaults` | worker.py:34-70 | username, problem link, timestamp, language, score, time, memory and code each take the guarded element or else the empty or zero default |
| `Fetch.OverlongTimeDrops` | worker.py:58-74 | a 200 page whose time text is a 4301-digit run gives None |
| `Fetch.SubtaskScoresPerSpan` | worker.py:63-65 | one subtask score per `subtask-score` span, in document order, each read by `clean_float` |
| `Fetch.ExampleRow` | worker.py:44-70 | a row with author "alice", second link "/problem/42", language cell "C++" and score text "78.5 pts" gives exactly the record with those fields, score 78.5 and every other field at its default |
| `Fetch.SubtaskScores` | worker.py:63-65 | the loop returns one `clean_float` token per text, in order |
| `Fetch.FetchOne` | worker.py:20-74 | the imperative `fetch_one` returns what its specification `FetchOutcome` gives |
| `Batch.Dispatched` | worker.py:110 | one future per position; every found record carries its own position's id |
| `Batch.DispatchAll` | worker.py:110 | the submitting loop fetches every position of the batch, duplicates included |
| `Batch.Partition` | worker.py:111-117 | the completion loop appends each "NOTFOUND" id to `notfound` and each row to `results`, in completion order, and drops None |
| `Batch.GatherPermutation` | worker.py:111 | reordering the completed futures permutes a collected list and never changes its contents |
| `Batch.GatherMembers` | worker.py:114-117 | a value is collected exactly when some future contributes it |
| `Batch.FoundRecordIds` | worker.py:116-117 | the ids of `results` are exactly the ids of the found futures, in order |
| `Batch.PartitionCounts` | worker.py:114-117 | each future counts exactly once among found, not found and dropped |
| `Batch.CarryIdsPermutation` | worker.py:111-112 | reordering the futures keeps each record paired with its own id |
| `Batch.CompletedIsPermutation` | worker.py:111 | every completion order completes exactly the dispatched futures |
| `Batch.BatchPartition` | worker.py:105-117 | rows' ids, `notfound` and the dropped ids together are exactly the batch, so the lists hold at most as many entries as the batch |
| `Batch.NotFoundInDispatchOrder` | worker.py:114-115 | in dispatch order, an id is collected as not found exactly when one of its fetches answered 404 |
| `Batch.FoundInDispatchOrder` | worker.py:116-117 | in dispatch order, an id is collected as found exactly when one of its fetches found the page |
| `Batch.NotFoundExactly` | worker.py:114-115 | an id is in `notfound` exactly when one of its fetches answered 404 |
| `Batch.ResultsExactly` | worker.py:116-117 | an id has a row in `results` exactly when one of its fetches found the page |
| `Batch.DroppedReportedNowhere` | worker.py:113-117 | an id whose every fetch gave None is in neither list |
| `Batch.OrderIndependent` | worker.py:111 | the report's contents are the same for every completion order |
| `Worker.PollAsWritten` | worker.py:90-103 | `main` stops exactly on a truthy `ids` value without a length; on any other answer it processes only a non-empty list of ids, that list itself |
| `Worker.UnsizedIdsStopWorker` | worker.py:98-103 | `{"ids": 5}` passes `not ids` and raises at `len(ids)` |
| `Worker.Poll` | worker.py:90-103 | polling stays in AwaitingWork exactly when the body does not decode or `ids` is not a non-empty list; otherwise it processes exactly the decoded ids |
| `Worker.PollAgreesWhereWorkerSurvives` | worker.py:90-103 | `Poll` gives what `main` does on every answer that does not stop it, and backs off on the one that does |
| `Worker.Step` | worker.py:88-121 | an iteration backs off 5 seconds, with no future dispatched and no submission, exactly when polling stays idle; otherwise it dispatches one fetch per position of the batch, submits once, and the report partitions the batch with `notfound` exactly the ids that answered 404 |

## Left out

- `safe_request` (worker.py:76-85): its retry-forever loop and the `sleep` between attempts are network I/O with a loop that does not terminate by design. The model starts from the response it eventually returns.
- The network is not modelled. `requests.get` in `fetch_one` becomes the parameter `Reply`, a transport error or a status with a page. The two coordinator calls become the parameter `WorkReply` and the action `Submit`.
- The ThreadPoolExecutor, its bound of 32 workers and `as_completed` are not modelled. They are replaced by "outcomes arrive in some permutation of the batch" (the `order` parameter). The pool bound is not a sequential property.
- BeautifulSoup searching, `get_text(strip=True)` and `html.unescape` are library calls. Their results are the pre-extracted fields of `Page` and `Row`.
- Float conversion is not modelled. The `str(float)` rendering of the subtask list (worker.py:66) is not modelled either. The model keeps the matched tokens in `Record.subtaskScores` and `Record.score`, not floats or the `"[...]"` string.
- Python's Unicode `\d` is not modelled. Only the ASCII digits '0'..'9' count as digits.
- Logging (`print`) and JSON encoding are not modelled. JSON decoding is reduced to "decodes or not". The decoding of the submission acknowledgement (worker.py:122-125) only logs, so the model leaves it out.
- The catch-all `except Exception` (worker.py:72-74) appears as the exceptions the parsing code can raise on the abstracted page: the missing `href` (`KeyError`) and a time or memory run too long for `int()` (`ValueError`). Failures inside BeautifulSoup or `html.unescape` are not modelled; a transport error gives None.
- `Worker.IdsField`: a truthy `ids` value that has a length but is not a list of integers (a non-empty string, an object, a list holding non-integers) is not modelled. `main` would iterate it and fetch one page per character, key or element.
- The forever loop of `main` is modelled one iteration at a time (`Worker.Step`). No state survives between iterations.

## Findings

| source | as written | input that shows it | evidently intended | confidence | as-written member | corrected member |
|---|---|---|---|---|---|---|
| worker.py:98-103 | `if not ids` lets every truthy value through, and `len(ids)` then runs outside any `try` | `/get_work` answers `{"ids": 5}` or `{"ids": true}`: `len` raises `TypeError`, which leaves `main` and stops the worker (`Worker.UnsizedIdsStopWorker`) | an unusable `ids` value backs off like an undecodable answer, and the worker keeps polling; `Worker.PollAgreesWhereWorkerSurvives` shows `Poll` differs from the code only there, and `Worker.Step` uses `Poll` | medium, not executed | `Worker.PollAsWritten` | `Worker.Poll` |
