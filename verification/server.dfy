/** The Python test server (backend/server.py): which result events a run
    sends and how each is framed on the event stream, how requests are
    dispatched, and how one generated program is picked. */
module Server {

  import opened Wrappers
  import opened Json
  import opened Text
  import opened Python

  const HealthPath := "/api/health"
  const RunPythonPath := "/api/run-python"
  const GenerateCodePath := "/api/generate-code"

  /** Source text that makes the server refuse to run a program. */
  const ForbiddenKey := "GEMINI_API_KEY"
  const ForbiddenMessage := "Execution halted: Code contains forbidden string 'GEMINI_API_KEY'."
  const MainNotFoundMessage := "Function \"main\" not found in code"

  /** The dictionary `{"status": status, "message": message}`. */
  function ResultDict(status: string, message: string): Obj {
    map["status" := JStr(status), "message" := JStr(message)]
  }

  /** The message of the `except` branch: `str(e)` and the traceback. */
  function ErrorText(e: Exception): string {
    "Error:\n\n" + e.text + "\n" + e.traceback
  }

  /** The `KeyError` that `test_case[key]` raises when the key is missing;
      its traceback text is not modelled. */
  function KeyError(key: string): Exception {
    Exception("'" + key + "'", "")
  }

  /** The message that shows input, expected value and returned value. */
  function ComparisonText(input: seq<Value>, expected: Value, got: Value): string {
    "Input:\n" + Str(ListValue(input)) + "\n\nExpected:\n" + Str(expected) + "\n\nGot:\n" + Str(got)
  }

  /** A test case passes when the program loads, binds `main`, the case has
      both keys, and calling `main` on the input returns the expected value. */
  predicate Passes(loaded: Loaded, t: TestCase) {
    && loaded.Namespace? && loaded.main.Main?
    && t.input.Some? && t.expected.Some?
    && loaded.main.call(t.input.value) == Returned(t.expected.value)
  }

  /** Running the case raises a `BaseException` that `except Exception`
      does not catch: from `exec`, or from the call to `main`. */
  predicate Escapes(loaded: Loaded, t: TestCase) {
    || loaded.ExecEscaped?
    || (loaded.Namespace? && loaded.main.Main? && t.input.Some?
        && loaded.main.call(t.input.value).Escaped?)
  }

  /** `run_single_test_case`: the status and message of one test case, or
      None when an exception escapes it. */
  function RunSingleTestCase(loaded: Loaded, t: TestCase): (r: Option<Obj>)
    ensures r.None? <==> Escapes(loaded, t)
    ensures Passes(loaded, t) ==> r.Some?
    ensures r.Some? ==>
      && r.value.Keys == {"status", "message"} && r.value["message"].JStr?
      && (HasStatus(r.value, "success") || HasStatus(r.value, "error"))
      && (HasStatus(r.value, "success") <==> Passes(loaded, t))
  {
    match loaded
    case ExecRaised(e) => Some(ResultDict("error", ErrorText(e)))
    case ExecEscaped => None
    case Namespace(NoMain) => Some(ResultDict("error", MainNotFoundMessage))
    case Namespace(Main(call)) =>
      if t.input.None? then
        Some(ResultDict("error", ErrorText(KeyError("input"))))
      else
        match call(t.input.value)
        case Escaped => None
        case Raised(e) => Some(ResultDict("error", ErrorText(e)))
        case Returned(got) =>
          if t.expected.None? then
            Some(ResultDict("error", ErrorText(KeyError("expected"))))
          else if got == t.expected.value then
            Some(ResultDict("success", ComparisonText(t.input.value, t.expected.value, got)))
          else
            Some(ResultDict("error", ComparisonText(t.input.value, t.expected.value, got)))
  }

  /** How many test cases run to completion: those before the first one
      from which an exception escapes. */
  function Completed(loaded: Loaded, tests: seq<TestCase>): (n: nat)
    ensures n <= |tests|
    ensures forall k :: 0 <= k < n ==> !Escapes(loaded, tests[k])
    ensures n < |tests| ==> Escapes(loaded, tests[n])
    decreases |tests|
  {
    if tests == [] || Escapes(loaded, tests[0]) then 0
    else 1 + Completed(loaded, tests[1..])
  }

  /** `{"status": "ok", "testCase": n, **result}`: the keys of `result`
      replace the earlier ones. */
  function CaseEvent(n: int, result: Obj): (r: Obj)
    ensures r.Keys == result.Keys + {"status", "testCase"}
    ensures r["status"] == if "status" in result then result["status"] else JStr("ok")
    ensures r["testCase"] == if "testCase" in result then result["testCase"] else JInt(n)
  {
    map["status" := JStr("ok"), "testCase" := JInt(n)] + result
  }

  /** Every key of the result keeps the result's value in the event. */
  lemma CaseEventKeepsResult(n: int, result: Obj)
    ensures forall key :: key in result ==> CaseEvent(n, result)[key] == result[key]
  {
  }

  /** The event that reports test case number `n`, which ran to completion. */
  function Report(loaded: Loaded, t: TestCase, n: int): (e: Obj)
    requires !Escapes(loaded, t)
    ensures RunSingleTestCase(loaded, t).Some?
    ensures "testCase" in e && e["testCase"] == JInt(n)
    ensures HasStatus(e, "success") <==> Passes(loaded, t)
    ensures HasStatus(e, "success") || HasStatus(e, "error")
    ensures "message" in e && e["message"] == RunSingleTestCase(loaded, t).value["message"]
  {
    CaseEvent(n, RunSingleTestCase(loaded, t).value)
  }

  /** The one event of a refused run; it has no `testCase` key. */
  function ForbiddenEvent(): Obj {
    ResultDict("forbidden", ForbiddenMessage)
  }

  /** The events `run_tests_with_sse` sends, in order. A program whose text
      holds the forbidden key gets one `forbidden` event and no test is run;
      otherwise the k-th event (from 1) reports the k-th test case, up to
      the first case from which an exception escapes. No event keeps the
      placeholder status "ok". */
  function ServerEvents(p: Program, tests: seq<TestCase>): (r: seq<Obj>)
    ensures Contains(p.code, ForbiddenKey) ==>
      |r| == 1 && HasStatus(r[0], "forbidden") && "testCase" !in r[0]
      && "message" in r[0] && r[0]["message"] == JStr(ForbiddenMessage)
    ensures !Contains(p.code, ForbiddenKey) ==> |r| == Completed(p.loaded, tests)
    ensures !Contains(p.code, ForbiddenKey) ==>
      forall k :: 0 <= k < |r| ==>
        && RunSingleTestCase(p.loaded, tests[k]).Some?
        && "testCase" in r[k] && r[k]["testCase"] == JInt(k + 1)
        && (HasStatus(r[k], "success") <==> Passes(p.loaded, tests[k]))
        && "message" in r[k] && r[k]["message"] == RunSingleTestCase(p.loaded, tests[k]).value["message"]
    ensures forall k :: 0 <= k < |r| ==>
      !HasStatus(r[k], "ok")
      && (HasStatus(r[k], "success") || HasStatus(r[k], "error") || HasStatus(r[k], "forbidden"))
  {
    if Contains(p.code, ForbiddenKey) then
      [ForbiddenEvent()]
    else
      var n := Completed(p.loaded, tests);
      seq(n, k requires 0 <= k < n => Report(p.loaded, tests[k], k + 1))
  }

  /** `f"data: {data}\n\n"`: one `data` field of the Server-Sent Events
      format, then the blank line that ends the event. */
  function Frame(payload: string): (r: string)
    ensures |r| == |payload| + 8
    ensures r[..6] == "data: " && r[6..|r| - 2] == payload && r[|r| - 2..] == "\n\n"
  {
    "data: " + payload + "\n\n"
  }

  /** The only number an event carries is its test number, so every number
      sent lies between 1 and the number of test cases. */
  lemma EventNumbersAreTestNumbers(p: Program, tests: seq<TestCase>)
    ensures forall k :: 0 <= k < |ServerEvents(p, tests)| ==> IntsWithin(ServerEvents(p, tests)[k], 1, |tests|)
  {
    var r := ServerEvents(p, tests);
    forall k | 0 <= k < |r|
      ensures IntsWithin(r[k], 1, |tests|)
    {
      if !Contains(p.code, ForbiddenKey) {
        var result := RunSingleTestCase(p.loaded, tests[k]).value;
        assert r[k] == CaseEvent(k + 1, result);
        assert result.Keys == {"status", "message"};
      }
    }
  }

  /** The frames of several payloads, in order. */
  function Frames(ps: seq<string>): string {
    if ps == [] then "" else Frames(ps[..|ps| - 1]) + Frame(ps[|ps| - 1])
  }

  /** Every event serialised with `json.dumps`. */
  function EncodeAll(events: seq<Obj>, dumps: Obj -> string): seq<string> {
    seq(|events|, k requires 0 <= k < |events| => dumps(events[k]))
  }

  /** One more payload adds its frame at the end. */
  lemma FramesNext(ps: seq<string>, i: int)
    requires 0 <= i < |ps|
    ensures Frames(ps[..i + 1]) == Frames(ps[..i]) + Frame(ps[i])
  {
    assert ps[..i + 1][..i] == ps[..i];
  }

  lemma PayloadOfCase(p: Program, tests: seq<TestCase>, dumps: Obj -> string, i: int)
    requires !Contains(p.code, ForbiddenKey) && 0 <= i < Completed(p.loaded, tests)
    ensures |EncodeAll(ServerEvents(p, tests), dumps)| == Completed(p.loaded, tests)
    ensures RunSingleTestCase(p.loaded, tests[i]).Some?
    ensures EncodeAll(ServerEvents(p, tests), dumps)[i]
         == dumps(CaseEvent(i + 1, RunSingleTestCase(p.loaded, tests[i]).value))
  {
  }

  /** The request handler; `wfile` is everything written to the response
      body so far. */
  class TestHandler {

    var wfile: string

    constructor ()
      ensures wfile == ""
    {
      wfile := "";
    }

    /** `write_sse_data`: append one frame to the response. */
    method WriteSseData(data: string)
      modifies this
      ensures wfile == old(wfile) + Frame(data)
    {
      wfile := wfile + Frame(data);
    }

    /** `run_tests_with_sse`: write one frame per event of the run. When an
        exception escapes a test case, the method ends there (`escaped`):
        the frames already written stay, and the exception leaves the
        handler. */
    method RunTestsWithSse(p: Program, tests: seq<TestCase>, dumps: Obj -> string)
      returns (escaped: bool)
      modifies this
      ensures wfile == old(wfile) + Frames(EncodeAll(ServerEvents(p, tests), dumps))
      ensures escaped <==> !Contains(p.code, ForbiddenKey) && Completed(p.loaded, tests) < |tests|
    {
      ghost var payloads := EncodeAll(ServerEvents(p, tests), dumps);
      if Contains(p.code, ForbiddenKey) {
        var errorResponse := dumps(ForbiddenEvent());
        WriteSseData(errorResponse);
        assert payloads == [errorResponse];
        assert Frames(payloads) == Frames([]) + Frame(errorResponse);
        return false;
      }
      var i := 0;
      escaped := false;
      while i < |tests|
        invariant 0 <= i <= Completed(p.loaded, tests)
        invariant wfile == old(wfile) + Frames(payloads[..i])
        decreases |tests| - i
      {
        var result := RunSingleTestCase(p.loaded, tests[i]);
        if result.None? {
          escaped := true;
          break;
        }
        var response := dumps(CaseEvent(i + 1, result.value));
        WriteSseData(response);
        PayloadOfCase(p, tests, dumps, i);
        FramesNext(payloads, i);
        AppendAssoc(old(wfile), Frames(payloads[..i]), Frame(response));
        i := i + 1;
      }
      assert i == Completed(p.loaded, tests);
      assert payloads[..i] == payloads;
    }
  }

  datatype Method = Get | Post | Options

  /** The handler a request reaches. */
  datatype Handler = Health | StaticFiles | RunPython | GenerateCode | NotFound | Preflight

  /** `do_GET`, `do_POST` and `do_OPTIONS`: a POST to a path other than the
      two API paths is answered 404, and a GET other than the health check
      falls through to static file serving. HEAD requests, which the static
      file server also answers, and other methods, which it answers 501,
      are not modelled. */
  function Dispatch(m: Method, path: string): (h: Handler)
    ensures h == NotFound <==> m == Post && path != RunPythonPath && path != GenerateCodePath
    ensures h == Health <==> m == Get && path == HealthPath
    ensures h == RunPython <==> m == Post && path == RunPythonPath
    ensures h == GenerateCode <==> m == Post && path == GenerateCodePath
  {
    match m
    case Get => if path == HealthPath then Health else StaticFiles
    case Post =>
      if path == RunPythonPath then RunPython
      else if path == GenerateCodePath then GenerateCode
      else NotFound
    case Options => Preflight
  }

  /** What the language model returned: the call failed, its text is not
      JSON (with the decoder's message), or it parsed, in which case
      `content` is the `"content"` list if there is one and each entry is
      that item's `"code"` if it has one. */
  datatype ModelReply =
    | CallFailed
    | NotJson(error: string)
    | Parsed(content: Option<seq<Option<string>>>)

  /** The outcome of `generate_code_from_prompt`: the chosen program, a
      `JSONDecodeError`, or another exception that escapes the handler. */
  datatype Generation = Generated(code: string) | DecodeFailed(error: string) | Crashed

  /** `generate_code_from_prompt`: pick one of the returned programs. The
      random index is a nondeterministic choice within the list's bounds. */
  method GenerateCodeFromPrompt(reply: ModelReply) returns (g: Generation)
    ensures g.DecodeFailed? <==> reply.NotJson?
    ensures g.DecodeFailed? ==> g.error == reply.error
    ensures g.Generated? ==>
      reply.Parsed? && reply.content.Some?
      && exists i :: 0 <= i < |reply.content.value| && reply.content.value[i] == Some(g.code)
    ensures (reply.Parsed? && reply.content.Some? && |reply.content.value| > 0
             && forall i :: 0 <= i < |reply.content.value| ==> reply.content.value[i].Some?)
            ==> g.Generated?
    ensures (reply.CallFailed? || (reply.Parsed? && (reply.content.None? || reply.content.value == [])))
            ==> g.Crashed?
  {
    match reply
    case CallFailed =>
      g := Crashed;
    case NotJson(e) =>
      g := DecodeFailed(e);
    case Parsed(None) =>
      g := Crashed;
    case Parsed(Some(items)) =>
      if |items| == 0 {
        g := Crashed;
      } else {
        var i :| 0 <= i < |items|;
        if items[i].None? {
          g := Crashed;
        } else {
          g := Generated(items[i].value);
        }
      }
  }

  /** One HTTP exchange as the server ends it. */
  datatype HttpResponse =
    | JsonResponse(status: int, body: map<string, string>)
    | EventStream(stream: string)
    | ErrorPage(status: int)
    | StaticFile(path: string)
    | NoContent
    | ConnectionDropped

  /** The answer of the `/api/generate-code` branch of `do_POST`: the code,
      a 500 with the decoder's message, or no answer at all when any other
      exception escapes. */
  function GenerateCodeResponse(g: Generation): (r: HttpResponse)
    ensures r.JsonResponse? || r.ConnectionDropped?
    ensures r.JsonResponse? <==> !g.Crashed?
    ensures r.JsonResponse? ==> (200 <= r.status < 300 <==> g.Generated?)
    ensures g.Generated? ==> "code" in r.body && r.body["code"] == g.code
    ensures g.DecodeFailed? ==> r.status == 500 && "error" in r.body && r.body["error"] == g.error
  {
    match g
    case Generated(code) => JsonResponse(200, map["code" := code])
    case DecodeFailed(e) => JsonResponse(500, map["error" := e])
    case Crashed => ConnectionDropped
  }

  /** The answer to one request; `body` is what `run_tests_with_sse` writes
      and `generation` what `generate_code_from_prompt` returns. */
  function Respond(m: Method, path: string, body: string, generation: Generation): (r: HttpResponse)
    ensures r.ErrorPage? <==> m == Post && path != RunPythonPath && path != GenerateCodePath
    ensures r.ErrorPage? ==> r.status == 404
    ensures r.EventStream? <==> m == Post && path == RunPythonPath
    ensures r.EventStream? ==> r.stream == body
    ensures m == Post && path == GenerateCodePath ==> r == GenerateCodeResponse(generation)
    ensures m == Get && path == HealthPath ==> r == JsonResponse(200, map["status" := "OK"])
  {
    match Dispatch(m, path)
    case Health => JsonResponse(200, map["status" := "OK"])
    case StaticFiles => StaticFile(path)
    case RunPython => EventStream(body)
    case GenerateCode => GenerateCodeResponse(generation)
    case NotFound => ErrorPage(404)
    case Preflight => NoContent
  }
}
