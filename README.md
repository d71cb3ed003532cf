# StockBot session controller, modelled in Dafny

StockBot's web page lets a user type up to three article URLs and have a
backend fetch, split and embed them into a vector index. The user can then ask
a question and get an answer with a list of source identifiers. This project
models the page's client-side controller: the state cells of the `Home`
component and the three handlers that change them (edit a URL, process the
URLs, ask the question). It also models how the sources string of an answer is
split into a list, and how the document count is printed into the progress log.

The two HTTP calls are the model's inputs. Each handler takes the outcome of
its call as a parameter (`IngestOutcome`, `AskOutcome`) and returns the payload
it would have sent. The question handler returns `None` when it sends nothing.
The handlers' alerts are returned as a `Notice` value.

Modules:
- `Wrappers`: the `Option` type, used for the optional `sources` field of an answer.
- `Lines`: `SplitLines` has the semantics of JavaScript `split("\n")`: empty pieces are kept and `""` gives `[""]`. `JoinLines` undoes it, and it undoes `JoinLines` on non-empty lists of newline-free pieces. The module proves the round trips and the piece count.
- `Decimal`: the decimal numeral of a non-negative count, and reading it back.
- `Progress`: the milestone messages, and `IngestLog`, the exact log a "process URLs" run leaves for each outcome.
- `Home`: the `Session` class, whose fields are the page's state cells, and `ParseSources`, the expression that turns a response's sources string into the sources list.

Three points of the code are easy to misread; the model follows the code:
- The progress log is replaced with a fresh one-entry list at the start of every "process URLs" run (`frontend/pages/index.tsx:25`), so entries of earlier runs are discarded. `ProcessUrls` therefore ends with a log that holds exactly the current run's entries, whatever the log held before.
- On a failed ingestion the code appends a fixed message; the error itself goes only to `console.error` (`frontend/pages/index.tsx:39-40`).
- The empty-question check is `!question`. For a string this is true only of `""`, so a question made only of spaces is sent.

## Model

| member | source | states |
|---|---|---|
| Home.Session.constructor | frontend/pages/index.tsx:7-12 | A new session has three empty URL slots, an empty question, answer, sources list and progress log, and is not busy |
| Home.Session.SetUrl | frontend/pages/index.tsx:16-20 | The slot count stays the same; slot `index` becomes `value`; every other slot and every other field is unchanged |
| Home.Session.SetQuestion | frontend/pages/index.tsx:110 | Only the question changes, and it becomes the typed text |
| Home.Session.ProcessUrls | frontend/pages/index.tsx:23-44 | The request carries all URL slots. The log ends as exactly `IngestLog(outcome)`, whatever it held before: started, splitter, embedding and done-with-count on success; started and the error entry on failure. The busy flag ends clear. URLs, question, answer and sources are unchanged |
| Home.Session.AskQuestion | frontend/pages/index.tsx:48-64 | An empty question raises the "Please enter a question" alert, sends no request and changes no field. Otherwise the question is sent. An answer replaces the answer, and the sources become `ParseSources` of the response. A failure keeps the old answer and sources and raises the fetch-error alert. The busy flag ends clear, and URLs and the log are unchanged |
| Home.ParseSources | frontend/pages/index.tsx:58 | The sources list is empty exactly when the sources string is absent or empty. Otherwise, joining the list with newlines gives back the string. No entry contains a newline |
| Home.EndToEndSession | frontend/pages/index.tsx:16-64 | Three URLs `u1,u2,u3` are sent. The ingestion returns 7, and the log's last entry is "✅ Done! Documents count: 7". The answer "X happened" with sources "a\nb" gives the sources list `["a","b"]` |
| Lines.SplitLines | frontend/pages/index.tsx:58 | A split always has at least one piece, as JavaScript `split` returns |
| Lines.JoinSplitLines | frontend/pages/index.tsx:58 | Joining the pieces of `SplitLines(s)` with newlines gives back `s` |
| Lines.SplitLinesNoNewline | frontend/pages/index.tsx:58 | No piece of a split contains a newline |
| Lines.SplitLinesCount | frontend/pages/index.tsx:58 | A split has one piece more than `s` has newlines |
| Lines.SplitLinesPrefix | frontend/pages/index.tsx:58 | A newline-free prefix becomes the start of the first piece, and the other pieces are unaffected |
| Lines.SplitJoinLines | frontend/pages/index.tsx:58 | Splitting the newline join of a non-empty list of newline-free pieces gives back the same pieces in order |
| Lines.SplitLinesExample | frontend/pages/index.tsx:58 | `"s1\ns2\ns3"` splits into `["s1","s2","s3"]`, and `"a\n"` splits into `["a",""]` |
| Decimal.NatToDecimal | frontend/pages/index.tsx:37 | The printed count is a non-empty string of decimal digits. It has no leading zero unless it is "0", and it is one digit long exactly when the count is below 10 |
| Decimal.DecimalRoundTrip | frontend/pages/index.tsx:37 | Reading the printed count back gives the count |
| Decimal.NatToDecimalInjective | frontend/pages/index.tsx:37 | Different counts are printed differently |
| Progress.DoneEntryReportsCount | frontend/pages/index.tsx:37 | The done milestone starts with "✅ Done! Documents count: ", and the rest of it reads back as the document count |
| Progress.IngestLogReportsCount | frontend/pages/index.tsx:25-40 | The log's last entry reports a count exactly when the ingestion succeeded, and the count it reports is the one the service returned |
| Progress.DoneEntry | frontend/pages/index.tsx:37 | The completion milestone: the fixed prefix followed by the decimal numeral of the document count (its meaning is proved in DoneEntryReportsCount) |
| Progress.IngestLog | frontend/pages/index.tsx:25-40 | The log one run leaves: started, splitter, embedding and done-with-count on success; started and the error entry on failure (its properties are proved in IngestLogReportsCount and IngestLogMilestones) |
| Progress.IngestLogMilestones | frontend/pages/index.tsx:25-40 | Every run's log starts with the "started" entry. The splitter, embedding and done milestones appear exactly on success. The error milestone appears exactly on failure |

## Left out

- The HTTP calls to `/process-urls` and `/ask-question`: the model has no transport, status codes or JSON decoding. A call is its outcome, passed in as a parameter. The sent payload is returned.
- The backend (`backend/app/main.py`): loading, splitting, embedding, the vector index and the language model are calls into foreign libraries. Only the response shape is kept: a document count, and an answer with a sources string.
- The two one-second `setTimeout` delays: they affect only wall-clock time. The model keeps the order of the entries appended between them.
- Concurrency and overlapping invocations: each handler runs to completion atomically. The busy flag is set at the start and cleared at the end. The UI reads it only when rendering: it disables the two buttons and changes their labels (`frontend/pages/index.tsx:91`, 94, 117, 119), and its value between suspension points is not observable in the model.
- `console.error` calls: they are logging only. Alerts are returned as `Notice` values.
- Home.Session.ProcessUrls: a successful response without a `documents_count` field would print "undefined" in the done entry. A null response body would make the updater at line 37 throw when React applies it, outside the `try`, so the catch does not run and the error shows up when the page renders. The backend always returns an object with the field (`backend/app/main.py:72`), so the outcome type carries a count and neither path is modelled.
- Home.Session.AskQuestion: a successful response whose `sources` is a truthy non-string would make `split` throw after the answer is already set. The backend always returns a string, so this path is not modelled.
- Decimal.NatToDecimal: JavaScript prints numbers of 10^21 or more in exponent notation. A document count is never that large, so the model always prints plain digits.
- The JSX rendering, including the conditional display of the answer and the sources.
