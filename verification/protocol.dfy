/** The contract between the two programs: what the browser's reader makes
    of the bytes the server writes, and what the page then lets the student
    do. `dumps` stands for `json.dumps` and `parse` for `JSON.parse`. */
module Protocol {

  import opened Wrappers
  import opened Json
  import opened Text
  import opened Python
  import opened Server
  import opened Decoder
  import opened Editor

  /** A payload the reader recovers intact from a `data: ` line: not empty,
      no line feed, and no trimmable last character. Output of `json.dumps`
      is of this kind: it is one line that ends with a closing bracket. */
  predicate SafePayload(p: string) {
    p != [] && NewlineFree(p) && !IsTrimmable(p[|p| - 1])
  }

  /** The largest integer `JSON.parse` reads exactly (2^53 - 1); larger
      numbers are rounded to a double. */
  const MaxSafeInteger := 0x1F_FFFF_FFFF_FFFF

  /** `dumps` and `parse` agree on every object whose numbers are safe
      integers: it is serialised to a safe payload that parses back to the
      same object. */
  ghost predicate SafeJson(dumps: Obj -> string, parse: string -> Option<Obj>) {
    forall o :: IntsWithin(o, -MaxSafeInteger, MaxSafeInteger) ==>
      SafePayload(dumps(o)) && parse(dumps(o)) == Some(o)
  }

  /** `dumps` and `parse` agree on each of the given events. */
  ghost predicate RoundTrips(events: seq<Obj>, dumps: Obj -> string, parse: string -> Option<Obj>) {
    forall k :: 0 <= k < |events| ==>
      SafePayload(dumps(events[k])) && parse(dumps(events[k])) == Some(events[k])
  }

  /** The lines that frames consist of: each payload's `data: ` line and the
      empty line after it. */
  function FrameLines(ps: seq<string>): seq<string> {
    if ps == [] then [] else FrameLines(ps[..|ps| - 1]) + [DataPrefix + ps[|ps| - 1], ""]
  }

  /** The values that parse from the payloads, in order. */
  function ParsedPayloads<T>(ps: seq<string>, parse: string -> Option<T>): seq<T> {
    if ps == [] then []
    else
      ParsedPayloads(ps[..|ps| - 1], parse)
      + match parse(ps[|ps| - 1]) case Some(v) => [v] case None => []
  }

  lemma {:induction false} FramesAreLines(ps: seq<string>)
    ensures Frames(ps) == Terminated(FrameLines(ps))
    decreases |ps|
  {
    if ps != [] {
      var init := ps[..|ps| - 1];
      var p := ps[|ps| - 1];
      FramesAreLines(init);
      TerminatedAppend(FrameLines(init), [DataPrefix + p, ""]);
      assert Terminated([DataPrefix + p, ""]) == Frame(p) by {
        assert [DataPrefix + p, ""][1..] == [""];
        assert Terminated([""]) == "\n" by {
          assert [""][1..] == [];
        }
      }
    }
  }

  lemma {:induction false} FrameLinesNewlineFree(ps: seq<string>)
    requires forall k :: 0 <= k < |ps| ==> SafePayload(ps[k])
    ensures forall k :: 0 <= k < |FrameLines(ps)| ==> NewlineFree(FrameLines(ps)[k])
    ensures |FrameLines(ps)| == 2 * |ps|
    decreases |ps|
  {
    if ps != [] {
      FrameLinesNewlineFree(ps[..|ps| - 1]);
    }
  }

  /** A safe payload's `data: ` line yields exactly what the payload parses
      to. */
  lemma DataLineYieldsPayload<T>(p: string, parse: string -> Option<T>)
    requires SafePayload(p)
    ensures DecodeLine(DataPrefix + p, parse) == ParsedPayloads([p], parse)
  {
    var line := DataPrefix + p;
    TrimKeeps(line);
    assert line[..|DataPrefix|] == DataPrefix;
    assert line[|DataPrefix|..] == p;
    assert [p][..0] == [];
  }

  /** The two lines of one frame yield what its payload parses to: the
      blank line after the `data: ` line yields nothing. */
  lemma FrameYieldsPayload<T>(p: string, parse: string -> Option<T>)
    requires SafePayload(p)
    ensures DecodeLines([DataPrefix + p, ""], parse) == ParsedPayloads([p], parse)
  {
    var two := [DataPrefix + p, ""];
    assert two[..1] == [DataPrefix + p];
    assert [DataPrefix + p][..0] == [];
    assert DecodeLine("", parse) == [];
    assert DecodeLines([DataPrefix + p], parse) == DecodeLine(DataPrefix + p, parse);
    assert DecodeLines(two, parse) == DecodeLines([DataPrefix + p], parse) + DecodeLine("", parse);
    DataLineYieldsPayload(p, parse);
  }

  lemma {:induction false} FrameLinesDecode<T>(ps: seq<string>, parse: string -> Option<T>)
    requires forall k :: 0 <= k < |ps| ==> SafePayload(ps[k])
    ensures DecodeLines(FrameLines(ps), parse) == ParsedPayloads(ps, parse)
    decreases |ps|
  {
    if ps != [] {
      var init := ps[..|ps| - 1];
      var p := ps[|ps| - 1];
      FrameLinesDecode(init, parse);
      DecodeLinesAppend(FrameLines(init), [DataPrefix + p, ""], parse);
      FrameYieldsPayload(p, parse);
    }
  }

  /** Round trip of the framing: however the frames of safe payloads are cut
      into chunks, the reader ends with an empty buffer and with exactly the
      values the payloads parse to, in order. */
  lemma StreamRoundTrip<T>(ps: seq<string>, chunks: seq<string>, parse: string -> Option<T>)
    requires forall k :: 0 <= k < |ps| ==> SafePayload(ps[k])
    requires Concat(chunks) == Frames(ps)
    ensures Feed(chunks, parse) == Progress("", ParsedPayloads(ps, parse))
  {
    FeedIsDecode(chunks, parse);
    FramesAreLines(ps);
    FrameLinesNewlineFree(ps);
    SplitTerminated(FrameLines(ps), "");
    assert Terminated(FrameLines(ps)) + "" == Frames(ps);
    var lines := Split(Frames(ps));
    assert lines == FrameLines(ps) + [""];
    assert lines[..|lines| - 1] == FrameLines(ps);
    FrameLinesDecode(ps, parse);
  }

  lemma {:induction false} ParseEncoded(events: seq<Obj>, dumps: Obj -> string, parse: string -> Option<Obj>)
    requires RoundTrips(events, dumps, parse)
    ensures ParsedPayloads(EncodeAll(events, dumps), parse) == events
    decreases |events|
  {
    if events != [] {
      var init := events[..|events| - 1];
      assert RoundTrips(init, dumps, parse) by {
        assert forall k :: 0 <= k < |init| ==> init[k] == events[k];
      }
      ParseEncoded(init, dumps, parse);
      var ps := EncodeAll(events, dumps);
      assert ps[..|ps| - 1] == EncodeAll(init, dumps);
      assert parse(ps[|ps| - 1]) == Some(events[|events| - 1]);
    }
  }

  /** The events of a run carry only safe integers as long as the number of
      test cases is at most 2^53 - 1 (`MaxSafeInteger`). */
  lemma EventsAreSafe(p: Program, tests: seq<TestCase>, dumps: Obj -> string, parse: string -> Option<Obj>)
    requires SafeJson(dumps, parse)
    requires |tests| <= MaxSafeInteger
    ensures RoundTrips(ServerEvents(p, tests), dumps, parse)
  {
    var r := ServerEvents(p, tests);
    EventNumbersAreTestNumbers(p, tests);
    forall k | 0 <= k < |r|
      ensures IntsWithin(r[k], -MaxSafeInteger, MaxSafeInteger)
    {
      assert IntsWithin(r[k], 1, |tests|);
    }
  }

  /** The whole run, end to end: whatever chunks the server's output arrives
      in, the browser reads exactly the events the server sent, in order,
      and nothing is left over. */
  lemma RunRoundTrip(p: Program, tests: seq<TestCase>, dumps: Obj -> string,
                     parse: string -> Option<Obj>, chunks: seq<string>)
    requires SafeJson(dumps, parse)
    requires |tests| <= MaxSafeInteger
    requires Concat(chunks) == Frames(EncodeAll(ServerEvents(p, tests), dumps))
    ensures Feed(chunks, parse) == Progress("", ServerEvents(p, tests))
  {
    EventsAreSafe(p, tests, dumps, parse);
    var ps := EncodeAll(ServerEvents(p, tests), dumps);
    assert forall k :: 0 <= k < |ps| ==> SafePayload(ps[k]);
    StreamRoundTrip(ps, chunks, parse);
    ParseEncoded(ServerEvents(p, tests), dumps, parse);
  }

  /** A program that mentions the key: the page shows one result, with the
      fixed warning instead of the server's message, and submit stays
      disabled. */
  lemma ForbiddenRunBlocksSubmit(p: Program, tests: seq<TestCase>, dumps: Obj -> string,
                                 parse: string -> Option<Obj>, chunks: seq<string>)
    requires Contains(p.code, ForbiddenKey)
    requires SafeJson(dumps, parse)
    requires |tests| <= MaxSafeInteger
    requires Concat(chunks) == Frames(EncodeAll(ServerEvents(p, tests), dumps))
    ensures var log := Feed(chunks, parse).events;
      && |log| == 1 && SubmitDisabled(log) && !AllTestsPassed(log)
      && DisplayedMessage(log[0]) == Some(JStr(ForbiddenNotice))
      && "message" in log[0] && log[0]["message"] == JStr(ForbiddenMessage)
  {
    RunRoundTrip(p, tests, dumps, parse, chunks);
    var log := Feed(chunks, parse).events;
    assert log == ServerEvents(p, tests);
    assert HasStatus(log[0], "forbidden");
    assert !IsSuccess(log[0]);
  }

  /** Submit is enabled after a run exactly when the program is not
      refused, at least one test case ran to completion, and every test case
      that did passed. The cases after one from which an exception escapes
      are never reported, and the gate does not notice them. */
  lemma SubmitIffCompletedTestsPass(p: Program, tests: seq<TestCase>, dumps: Obj -> string,
                                    parse: string -> Option<Obj>, chunks: seq<string>)
    requires SafeJson(dumps, parse)
    requires |tests| <= MaxSafeInteger
    requires Concat(chunks) == Frames(EncodeAll(ServerEvents(p, tests), dumps))
    ensures !SubmitDisabled(Feed(chunks, parse).events) <==>
      && !Contains(p.code, ForbiddenKey) && Completed(p.loaded, tests) > 0
      && forall k :: 0 <= k < Completed(p.loaded, tests) ==> Passes(p.loaded, tests[k])
  {
    RunRoundTrip(p, tests, dumps, parse, chunks);
    var log := ServerEvents(p, tests);
    if !Contains(p.code, ForbiddenKey) {
      var n := Completed(p.loaded, tests);
      assert AllTestsPassed(log) <==> forall k :: 0 <= k < n ==> Passes(p.loaded, tests[k]) by {
        assert forall k :: 0 <= k < n ==> (IsSuccess(log[k]) <==> Passes(p.loaded, tests[k]));
      }
    } else {
      assert !IsSuccess(log[0]);
    }
  }

  /** A program whose `main` passes on input 1 and calls `sys.exit()` on
      any other input, and two test cases for it. */
  function ExitingMain(args: seq<Value>): CallOutcome {
    if args == [IntValue(1)] then Returned(IntValue(1)) else Escaped
  }

  function ExitingProgram(): Program {
    Program("import sys\n" + "def main(n):\n" + "    return 1 if n == 1 else sys.exit()", Namespace(Main(ExitingMain)))
  }

  function TwoTests(): seq<TestCase> {
    [TestCase(Some([IntValue(1)]), Some(IntValue(1))), TestCase(Some([IntValue(2)]), Some(IntValue(2)))]
  }

  /** The server sends one `success` event for that program and stops. */
  lemma ExitingRunEvents()
    ensures |ServerEvents(ExitingProgram(), TwoTests())| == 1
    ensures IsSuccess(ServerEvents(ExitingProgram(), TwoTests())[0])
    ensures !Passes(ExitingProgram().loaded, TwoTests()[1])
  {
    var p := ExitingProgram();
    var tests := TwoTests();
    assert ForbiddenKey[0] == 'G';
    assert 'G' !in "import sys\n";
    assert 'G' !in "def main(n):\n";
    assert 'G' !in "    return 1 if n == 1 else sys.exit()";
    MissingFirstChar(p.code, ForbiddenKey);
    assert Passes(p.loaded, tests[0]);
    assert Escapes(p.loaded, tests[1]);
    assert Completed(p.loaded, tests) == 1;
  }

  /** The page's gate as written: the stream of that run is cut after one
      `success` event, and submit is enabled although the second test case
      does not pass. */
  lemma ExitEnablesSubmit(dumps: Obj -> string, parse: string -> Option<Obj>, chunks: seq<string>)
    requires SafeJson(dumps, parse)
    requires Concat(chunks) == Frames(EncodeAll(ServerEvents(ExitingProgram(), TwoTests()), dumps))
    ensures |Feed(chunks, parse).events| == 1
    ensures !SubmitDisabled(Feed(chunks, parse).events)
    ensures !Passes(ExitingProgram().loaded, TwoTests()[1])
  {
    RunRoundTrip(ExitingProgram(), TwoTests(), dumps, parse, chunks);
    ExitingRunEvents();
  }

  /** With the corrected gate, which also counts the challenge's test
      cases, submit is enabled exactly when the program is not refused,
      there is at least one test case, and every test case passes. */
  lemma SubmitIffAllTestsPass(p: Program, tests: seq<TestCase>, dumps: Obj -> string,
                              parse: string -> Option<Obj>, chunks: seq<string>)
    requires SafeJson(dumps, parse)
    requires |tests| <= MaxSafeInteger
    requires Concat(chunks) == Frames(EncodeAll(ServerEvents(p, tests), dumps))
    ensures !SubmitDisabledUntilComplete(Feed(chunks, parse).events, |tests|) <==>
      && !Contains(p.code, ForbiddenKey) && tests != []
      && forall k :: 0 <= k < |tests| ==> Passes(p.loaded, tests[k])
  {
    RunRoundTrip(p, tests, dumps, parse, chunks);
    var log := ServerEvents(p, tests);
    var n := Completed(p.loaded, tests);
    if !Contains(p.code, ForbiddenKey) {
      assert AllTestsPassed(log) <==> forall k :: 0 <= k < n ==> Passes(p.loaded, tests[k]) by {
        assert forall k :: 0 <= k < n ==> (IsSuccess(log[k]) <==> Passes(p.loaded, tests[k]));
      }
    } else {
      assert !IsSuccess(log[0]);
    }
  }

  /** How the browser, on another origin, sees a server answer: a JSON
      answer carries CORS headers and is read; `send_error` sends none, so
      `fetch` rejects, as it does when the connection is dropped. */
  function ClientReply(r: HttpResponse): (reply: Reply)
    requires r.JsonResponse? || r.ErrorPage? || r.ConnectionDropped?
    ensures reply.Response? <==> r.JsonResponse?
    ensures reply.Response? ==> (reply.ok <==> 200 <= r.status < 300) && reply.body == Some(r.body)
  {
    match r
    case JsonResponse(status, body) => Response(200 <= status < 300, Some(body))
    case ErrorPage(_) => NetworkError
    case ConnectionDropped => NetworkError
  }

  /** The server has no hint route: the page's hint request is answered 404
      and the page always ends in its connection error. The same holds if
      the error page were read as a response, since its HTML body does not
      parse as JSON. */
  lemma HintRequestAlwaysFails(body: string, g: Generation)
    ensures Dispatch(Post, GenerateHintPath) == NotFound
    ensures Dispatch(Post, Editor.RunPythonPath) == RunPython
    ensures Dispatch(Post, Editor.GenerateCodePath) == GenerateCode
    ensures HintOutcomeOf(ClientReply(Respond(Post, GenerateHintPath, body, g))) == HintFailed(HintConnectError)
    ensures HintOutcomeOf(Response(false, None)) == HintFailed(HintConnectError)
  {
  }

  /** Code generation across both programs: a non-empty generated program
      replaces the editor's code; an empty one leaves it; a decode error is
      shown with the decoder's text (or the fallback when that is empty);
      any other failure is shown as a connection error. */
  lemma GenerationAcrossTheWire(g: Generation)
    ensures var r := GenerateOutcome(ClientReply(GenerateCodeResponse(g)));
      match g
      case Generated(c) => r == (if c != "" then NewCode(c) else KeepCode)
      case DecodeFailed(e) => r == GenerationFailed(if e != "" then e else GenerationFallback)
      case Crashed => r == GenerationFailed(GenerationConnectError)
  {
  }
}
