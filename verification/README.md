# Bug-fixing challenge runner: a Dafny model

The application is a Python debugging trainer. A student edits a buggy
Python program in the browser page `ChallengeEditor` and runs it. The Python
HTTP server `backend/server.py` executes the program against the challenge's
test cases. It streams one Server-Sent Events frame per test case back to the
page. The page reads that stream incrementally, line by line, and keeps a
result log. It enables "submit" only when every result passed, and shows a
success dialog when the student submits a passing solution. The page can also
ask the server for a generated buggy program, and it asks for a hint on a
route the server does not have.

This project models both programs and the wire protocol between them:

- `Text` (text.dfy) has three pieces. JavaScript's `trim` uses the
  ECMAScript white-space and line-terminator set. JavaScript's
  `split('\n')` is defined directly by recursion, and `Join` is proved to be
  its inverse. Python's substring test `in` is also here.
- `Python` (python.dfy) holds the values a test case carries, their
  `str()`/`repr()` text, and what `exec` of the student's program yields.
  The behaviour of the program is an abstract outcome.
- `Json` (json.dfy) holds the JSON objects exchanged as events. `Wrappers`
  (wrappers.dfy) holds `Option`.
- `Server` (server.py) covers several parts:
  - `run_single_test_case`, the events of `run_tests_with_sse`, and the
    framing of `write_sse_data`;
  - the class `TestHandler`, whose `wfile` is the response body written so
    far;
  - request dispatch, and the choice of one generated program.
- `Decoder` is the page's stream reader as a specification. It covers which
  lines yield events, what one chunk does, and the theorem that chunking
  does not matter.
- `Editor` (ChallengeEditor.tsx) covers the page state as the class
  `ChallengeEditor`, with its handlers. It also covers the pass count, the
  submit gate, the message display rule, and the outcomes of code generation
  and hints.
- `Protocol` connects the two programs. Whatever chunks the server's bytes
  arrive in, the page reads exactly the server's events. Submit is enabled
  exactly when the program is not refused, at least one test case ran to
  completion, and every test case that did passed. A refused
  program blocks submit. The hint request always fails.

`JSON.parse` and `json.dumps` are parameters (`parse`, `dumps`). The
end-to-end lemmas require two things of them. First, they are inverse on
objects whose numbers are safe JavaScript integers (at most 2^53 - 1 in
size). Second, `json.dumps` output is one line that does not end in white
space.

A test case can raise a `BaseException` that is not an `Exception`, such as
the `SystemExit` of `sys.exit()`. `except Exception` does not catch it, so
it leaves `run_tests_with_sse`. The frames already written stay sent, and the
stream ends there. The model calls this outcome `Escaped`.

## Model

| member | source | states |
|---|---|---|
| Text.TrimStartStrips | frontend/src/ChallengeEditor.tsx:208 | trimming the start leaves a suffix, everything removed is white space or a line terminator, and the suffix does not begin with one, so the removed run is the longest |
| Text.TrimEndStrips | frontend/src/ChallengeEditor.tsx:208 | trimming the end leaves a prefix, everything removed is white space or a line terminator, and the prefix does not end with one |
| Text.TrimKeeps | frontend/src/ChallengeEditor.tsx:208 | a string with non-space first and last characters is unchanged by `trim` |
| Text.ContainsIffOccurs | backend/server.py:149 | the substring test holds exactly when the pattern occurs at some index |
| Text.OccursContains | backend/server.py:149 | an occurrence at any index makes the substring test true |
| Text.MissingFirstChar | backend/server.py:149 | a text that lacks the pattern's first character does not contain the pattern |
| Text.Split | frontend/src/ChallengeEditor.tsx:205 | `split('\n')` always gives at least one piece, so the last piece the reader keeps as its buffer exists |
| Text.SplitPieces | frontend/src/ChallengeEditor.tsx:205 | no piece of a split holds a line feed, and joining the pieces with line feeds gives back the text |
| Text.SplitJoin | frontend/src/ChallengeEditor.tsx:205 | splitting the join of newline-free pieces gives back those pieces, so split and join are inverse |
| Text.SplitNewlineFree | frontend/src/ChallengeEditor.tsx:205 | text without a line feed splits into itself alone |
| Text.SplitLine | frontend/src/ChallengeEditor.tsx:205 | a line then a line feed splits off as the first piece |
| Text.SplitTerminated | frontend/src/ChallengeEditor.tsx:205 | newline-terminated lines followed by any text split into those lines then the split of the text |
| Text.SplitAppend | frontend/src/ChallengeEditor.tsx:204-205 | appending text to a buffer changes only its last piece: the complete lines before it are kept |
| Text.TerminatedAppend | frontend/src/ChallengeEditor.tsx:205 | terminating two lists of lines is terminating their concatenation |
| Text.JoinIsTerminatedThenLast | frontend/src/ChallengeEditor.tsx:205 | a joined text is its complete lines, each ended by a line feed, then the last piece |
| Server.RunSingleTestCase | backend/server.py:165-193 | there is no result exactly when a `BaseException` outside `Exception` escapes `exec` or `main`. Otherwise the result has exactly the keys status and message, and its message is a string. Status is success or error, and it is success exactly when the program loads, binds `main`, the case has both keys, and `main(*input)` returns the expected value; a passing case always has a result |
| Server.Completed | backend/server.py:156-163 | the number of test cases reported is at most the number sent; no case before it escapes, and the case at that index, if there is one, does |
| Server.CaseEvent | backend/server.py:158-162 | the event has the result's keys plus status and testCase; status is "ok" and testCase is the test number unless the result supplies them |
| Server.CaseEventKeepsResult | backend/server.py:158-162 | every key of the result keeps the result's value in the event, because `**result` comes last |
| Server.ServerEvents | backend/server.py:145-163 | a program containing `GEMINI_API_KEY` gets exactly one forbidden event, with the fixed message and no testCase. Otherwise there is one event per test case up to the first one from which an exception escapes. The k-th event carries testCase k+1, success exactly when that case passes, and that case's message. The status is never the placeholder "ok" |
| Server.EventNumbersAreTestNumbers | backend/server.py:158-162 | every number in an event lies between 1 and the number of test cases, since the test number is the only number sent |
| Server.Frame | backend/server.py:199 | a frame is `data: `, the payload, and two line feeds, and nothing else |
| Server.FramesNext | backend/server.py:163 | one more payload adds exactly its frame at the end of the body |
| Server.PayloadOfCase | backend/server.py:156-162 | the i-th serialised event of an accepted run, for a case that completed, is the dumped case event for test case i |
| Server.TestHandler.WriteSseData | backend/server.py:195-200 | the response grows by exactly `data: <payload>` and a blank line |
| Server.TestHandler.RunTestsWithSse | backend/server.py:145-163 | the response grows by exactly the frames of the serialised events, in order; the method stops early, reporting it, exactly when an accepted program has a test case from which an exception escapes |
| Server.TestHandler.constructor | backend/server.py:34 | the response body starts empty |
| Server.Dispatch | backend/server.py:43-69 | a POST is answered 404 exactly when its path is neither API path; GET /api/health is the health check; each API path reaches its handler |
| Server.GenerateCodeResponse | backend/server.py:62-66 | an exception other than a decode error drops the connection; otherwise the answer is JSON, with a 2xx status exactly for generated code, which it carries under `code`, and 500 with the decoder's message under `error` |
| Server.Respond | backend/server.py:43-69 | a POST to an unknown path gets the 404 error page and only then; only the run path answers with the event stream, which is the body written; the generate path answers as `GenerateCodeResponse`; the health check answers `{"status": "OK"}` |
| Server.GenerateCodeFromPrompt | backend/server.py:123-140 | the error path holds exactly when the model's text is not JSON, and keeps the decoder's message. A program returned is the code of an entry at an in-bounds index. A non-empty list whose entries all have code always yields a program. A failed call, a missing list or an empty list escapes as an exception |
| Editor.PassingTestsCount | frontend/src/ChallengeEditor.tsx:244-246 | the count is at most the number of results and equals it exactly when every result passed |
| Editor.PassingTestsCountIsFilter | frontend/src/ChallengeEditor.tsx:244-246 | the count is the number of results whose status is success, which `filter(...).length` gives and the page shows as passing |
| Editor.SubmitDisabled | frontend/src/ChallengeEditor.tsx:522-525 | submit is enabled exactly when the log is non-empty and every result has status success |
| Editor.SubmitDisabledUntilComplete | frontend/src/ChallengeEditor.tsx:522-525 | the corrected gate: submit is enabled exactly when the log is non-empty, holds one result per test case, and every result has status success |
| Editor.DisplayedMessage | frontend/src/ChallengeEditor.tsx:488-490 | a forbidden result shows the fixed warning and any other result shows its own message |
| Editor.RunLog | frontend/src/ChallengeEditor.tsx:194-229 | the log a run leaves: the events of a body that ended, none without a body, and the single connection error whenever anything threw. Its contract is stated by FailedRunBlocksSubmit and HandleRunCode |
| Editor.FailedRunBlocksSubmit | frontend/src/ChallengeEditor.tsx:194-195 | a run with no body leaves an empty log, and one that throws leaves the single connection error; either way submit stays disabled |
| Editor.GenerateOutcome | frontend/src/ChallengeEditor.tsx:145-177 | generation fails exactly when the reply is missing, not ok or carries a truthy error. The server's error text is shown when present; a non-ok reply without one shows the fallback; a failed `fetch` or a body that is not JSON shows the connection message. The code is replaced exactly when the reply succeeds with a truthy code, and kept exactly when it succeeds without one |
| Editor.HintOutcomeOf | frontend/src/ChallengeEditor.tsx:248-280 | the hint fails by the same rule, with the server's text when present, the hint fallback for a non-ok reply without one, and the connection message when `fetch` or `response.json()` throws; otherwise the hint field, present or not, is stored and shown |
| Editor.ChallengeEditor.constructor | frontend/src/ChallengeEditor.tsx:130-143 | the initial code and the initial values of every state hook |
| Editor.ChallengeEditor.ProcessLine | frontend/src/ChallengeEditor.tsx:207-217 | the log grows by the line's event, which exists exactly for a parsable `data: ` line |
| Editor.ChallengeEditor.ReceiveChunk | frontend/src/ChallengeEditor.tsx:204-218 | the new buffer and log are those of the reference step `Advance`: complete lines decoded in order, and the text after the last line feed kept |
| Editor.ChallengeEditor.HandleRunCode | frontend/src/ChallengeEditor.tsx:179-233 | with no challenge nothing changes. Otherwise the log is cleared, then it is the events of all chunks read, or the single connection error if anything threw; the running flag ends cleared |
| Editor.ChallengeEditor.HandleSubmitSolution | frontend/src/ChallengeEditor.tsx:235-242 | the success dialog opens exactly when every result passed, and is otherwise left as it was |
| Editor.ChallengeEditor.HandleGenerateCode | frontend/src/ChallengeEditor.tsx:145-177 | the error is set exactly on failure and reset otherwise, the code changes only for new code, and the pending flag ends cleared |
| Editor.ChallengeEditor.HandleShowHint | frontend/src/ChallengeEditor.tsx:248-280 | a failure sets the error and leaves the hint and dialog alone; a success stores the hint and opens the dialog; the loading flag ends cleared |
| Decoder.DecodeLine | frontend/src/ChallengeEditor.tsx:208-216 | the events of one line. Its contract is stated by DecodeLineYields |
| Decoder.Advance | frontend/src/ChallengeEditor.tsx:204-218 | one read: the buffer grows by the chunk, the complete lines are decoded in order, and the last piece is the new buffer. ReceiveChunk is proved to match it, and DecodeAppend states what it computes |
| Decoder.Feed | frontend/src/ChallengeEditor.tsx:200-219 | the read loop over all chunks. FeedIsDecode, ChunkingInvariance and ChunkedIsWhole state what it computes |
| Decoder.DecodeLineYields | frontend/src/ChallengeEditor.tsx:208-216 | a line yields at most one event, and exactly one when its trimmed form starts with `data: ` and the rest parses, which is that parsed value |
| Decoder.DecodeNextLine | frontend/src/ChallengeEditor.tsx:207 | processing one more line appends that line's events |
| Decoder.DecodeLinesAppend | frontend/src/ChallengeEditor.tsx:207-217 | decoding distributes over concatenated line lists, so lines are handled in order, independently |
| Decoder.SkippedLine | frontend/src/ChallengeEditor.tsx:209-215 | a non-data line, or one whose payload does not parse, adds nothing and does not stop the lines after it |
| Decoder.PiecesAppend | frontend/src/ChallengeEditor.tsx:207-218 | complete lines in front of other pieces are decoded first and leave the unread last piece unchanged |
| Decoder.DecodeAppend | frontend/src/ChallengeEditor.tsx:204-218 | one more chunk read after a text gives the decoding of the longer text |
| Decoder.FeedIsDecode | frontend/src/ChallengeEditor.tsx:200-219 | after any number of chunks the buffer is the text after the last line feed of everything read, and the events are those of every complete line, in order |
| Decoder.ChunkingInvariance | frontend/src/ChallengeEditor.tsx:200-219 | two chunkings of the same text leave the same buffer and events |
| Decoder.ChunkedIsWhole | frontend/src/ChallengeEditor.tsx:200-219 | reading in chunks equals reading the whole text as one chunk |
| Decoder.UnterminatedTextIgnored | frontend/src/ChallengeEditor.tsx:218-219 | appending text without a line feed adds no event, even when it is a complete `data: ` line |
| Decoder.LastLineIsBuffer | frontend/src/ChallengeEditor.tsx:218-219 | the text after the last line feed is exactly the buffer, which is dropped when the stream ends |
| Protocol.FramesAreLines | backend/server.py:199 | the frames of payloads are their `data: ` lines and blank lines, each ended by a line feed |
| Protocol.FrameLinesNewlineFree | backend/server.py:199 | the lines of frames of one-line payloads contain no line feed, two per payload |
| Protocol.DataLineYieldsPayload | frontend/src/ChallengeEditor.tsx:208-212 | a frame's `data: ` line yields exactly what its payload parses to |
| Protocol.FrameYieldsPayload | backend/server.py:199 | the two lines of one frame yield exactly its payload's parse, since the blank line yields nothing |
| Protocol.FrameLinesDecode | frontend/src/ChallengeEditor.tsx:207-217 | decoding the lines of frames yields the parsed payloads in order |
| Protocol.StreamRoundTrip | frontend/src/ChallengeEditor.tsx:200-219 | however the frames are chunked, the reader ends with an empty buffer and exactly the parsed payloads |
| Protocol.ParseEncoded | backend/server.py:158-163 | when `JSON.parse` inverts `json.dumps` on each event, parsing the serialised events gives back the events |
| Protocol.EventsAreSafe | backend/server.py:158-162 | with fewer than 2^53 test cases, every event's numbers are safe integers, so `JSON.parse` reads each serialised event back unchanged |
| Protocol.RunRoundTrip | backend/server.py:145-163 | whatever chunks the response arrives in, the page reads exactly the server's events in order and nothing is left over, including a stream cut short by an escaping exception |
| Protocol.ForbiddenRunBlocksSubmit | backend/server.py:149-155 | a program containing the key produces a log of one result that is not a success, so submit stays disabled. The page shows its fixed warning in place of the server's message |
| Protocol.SubmitIffCompletedTestsPass | frontend/src/ChallengeEditor.tsx:522-525 | after a run, submit is enabled exactly when the program is not refused, at least one test case ran to completion, and every case that did passed |
| Protocol.ExitingRunEvents | backend/server.py:156-163 | a program that passes its first test case and calls `sys.exit()` on the second gets exactly one event, a success, although the second case does not pass |
| Protocol.ExitEnablesSubmit | frontend/src/ChallengeEditor.tsx:522-525 | for that program the page's log holds one success and submit is enabled, although a test case does not pass |
| Protocol.SubmitIffAllTestsPass | frontend/src/ChallengeEditor.tsx:522-525 | with the corrected gate, after any run submit is enabled exactly when the program is not refused, there is a test case, and every test case passes |
| Protocol.ClientReply | frontend/src/ChallengeEditor.tsx:150-157 | the page reads a response exactly when the server answers with JSON, with `ok` exactly for a 2xx status and the body as sent; the 404 page, which has no CORS headers, and a dropped connection both make `fetch` reject |
| Protocol.HintRequestAlwaysFails | frontend/src/ChallengeEditor.tsx:253 | the hint path dispatches to 404 while both other paths reach their handlers, so the hint request always ends in the connection error |
| Protocol.GenerationAcrossTheWire | backend/server.py:59-67 | a non-empty generated program replaces the code and an empty one leaves it. A decode error shows its text, or the fallback when the text is empty. Any other failure shows the connection error |

## Left out

- Byte decoding: `TextDecoder` with `stream: true` is not modelled, and chunks are taken as text already decoded. A multi-byte character split across reads is therefore not represented.
- `JSON.parse`, `json.loads` and `json.dumps` are parameters, not implementations. Key order in serialised objects is not modelled, because objects are maps.
- Running the student's program (`exec`, the call to `main`, stdout redirection) is an abstract outcome per program. A `main` that is bound but falsy counts as not found.
- Server.KeyError: the traceback text of a missing-key error is left empty, and only its `str()` text is modelled.
- Python.Repr: string escaping, Python's choice of quote character, and the text of floats and dictionaries are not modelled.
- Server.RunSingleTestCase: Python `==` between values (for instance `1 == True`) is modelled as structural equality.
- Reply bodies of code generation and hints are modelled as string-valued fields. A non-string `code`, `error` or `hint` is not represented.
- Server.GenerateCodeFromPrompt: the language model call is not modelled. `random.randint` is a nondeterministic choice of an in-bounds index, so no distribution is stated.
- HTTP details are not modelled: headers, CORS header values, `Content-Length` parsing, the static file server, request-body parsing in `do_POST`, and the `prompt` state hook.
- Concurrency is not modelled: overlapping runs, a click during a run, React's batching of state updates, and rendering generally. Handlers are atomic steps.
- The `useEffect` redirect when the challenge is unknown is not modelled, and neither are the dialogs' own buttons.
- Integers are unbounded; Python has no overflow here.
- Server.RunSingleTestCase: a `main` that changes its list arguments in place changes the input shown in the message, because the message formats `test_case['input']` after the call. The model shows the input as sent.
- Server.RunSingleTestCase: a `main` that never returns is not modelled, because every call has an outcome. Test values have no floats, dictionaries or tuples: `Python.Value` holds None, booleans, integers, strings and lists only.
- Server.TestHandler.RunTestsWithSse: after an exception escapes, `socketserver` re-raises it and the server process stops. The model ends the method with `escaped` set and does not model the process.
- Protocol.RunRoundTrip: `JSON.parse` reads numbers as doubles, so the lemma requires fewer than 2^53 test cases. Above that, test numbers would be rounded.

The server emits only the statuses `success`, `error` and `forbidden`. The
page appends results in arrival order and does not key them by `testCase`.

## Findings

| source | as written | input that shows it | evidently intended | confidence | as-written member | corrected member |
|---|---|---|---|---|---|---|
| frontend/src/ChallengeEditor.tsx:522-525 | submit is enabled when every result received is a success; with backend/server.py:189 catching only `Exception`, a `sys.exit()` in `main` ends the stream early without an error event | a `main` that returns 1 for input 1 and calls `sys.exit()` otherwise, with test cases (1 → 1) and (2 → 2): the log is one success and submit is enabled | submit only after every test case of the challenge passed | not executed | Protocol.ExitEnablesSubmit | Protocol.SubmitIffAllTestsPass |
