/** The challenge page of the browser client: its state, the handlers that
    change it (run the tests and read the streamed results, generate code,
    ask for a hint, submit), and the rules that decide what the student can
    do next. Network answers are given to the handlers as values. */
module Editor {

  import opened Wrappers
  import opened Json
  import opened Text
  import opened Decoder
  import Python

  const RunPythonPath := "/api/run-python"
  const GenerateCodePath := "/api/generate-code"
  const GenerateHintPath := "/api/generate-hint"

  const InitialCode := "def main(numbers):\n    # Write your solution here\n    pass\n  "
  const RunConnectError := "Failed to connect to Python server. Please make sure the server is running."
  const GenerationFallback := "An unknown error occurred."
  const GenerationConnectError := "Failed to connect to code generation service."
  const HintFallback := "ヒントの生成中にエラーが発生しました。"
  const HintConnectError := "ヒント生成サービスへの接続に失敗しました。"
  const ForbiddenNotice := "APIキーを抜き取ろうとするコードは許可されていません！"

  /** A challenge record; the client only reads it. */
  datatype Challenge = Challenge(id: string, instructions: string, examples: string, testCases: seq<Python.TestCase>)

  /** `result.status === 'success'`. */
  predicate IsSuccess(o: Obj) {
    HasStatus(o, "success")
  }

  /** `testResults.every((result) => result.status === 'success')`. */
  predicate AllTestsPassed(results: seq<Obj>) {
    forall i :: 0 <= i < |results| ==> IsSuccess(results[i])
  }

  /** `getPassingTestsCount`: how many results have status "success"
      (`PassingTestsCountIsFilter`). It reaches the number of results exactly
      when every result passed. */
  function PassingTestsCount(results: seq<Obj>): (n: nat)
    ensures n <= |results|
    ensures n == |results| <==> AllTestsPassed(results)
  {
    if results == [] then 0
    else
      var init := results[..|results| - 1];
      var n := PassingTestsCount(init) + if IsSuccess(results[|results| - 1]) then 1 else 0;
      assert AllTestsPassed(results) ==> AllTestsPassed(init) by {
        if AllTestsPassed(results) {
          forall i | 0 <= i < |init| ensures IsSuccess(init[i]) {
            assert init[i] == results[i];
          }
        }
      }
      n
  }

  /** The indices of the results whose status is "success". */
  function SuccessIndices(results: seq<Obj>): set<int> {
    set i | 0 <= i < |results| && IsSuccess(results[i])
  }

  /** The count is the number of results with status "success", which is
      what `filter(...).length` gives. */
  lemma {:induction false} PassingTestsCountIsFilter(results: seq<Obj>)
    ensures PassingTestsCount(results) == |SuccessIndices(results)|
    decreases |results|
  {
    if results != [] {
      var last := |results| - 1;
      var init := results[..last];
      PassingTestsCountIsFilter(init);
      var before := SuccessIndices(init);
      assert last !in before;
      if IsSuccess(results[last]) {
        assert SuccessIndices(results) == before + {last};
      } else {
        assert SuccessIndices(results) == before;
      }
    }
  }

  /** The `disabled` expression of the submit button: enabled exactly when
      there are results and every one of them passed. */
  function SubmitDisabled(results: seq<Obj>): (d: bool)
    ensures !d <==> results != [] && AllTestsPassed(results)
  {
    |results| == 0 || PassingTestsCount(results) != |results|
  }

  /** The gate the submit button is meant to be: it also waits for one
      result per test case of the challenge, so a stream that ends early
      keeps submit disabled. */
  function SubmitDisabledUntilComplete(results: seq<Obj>, testCount: nat): (d: bool)
    ensures !d <==> results != [] && |results| == testCount && AllTestsPassed(results)
  {
    SubmitDisabled(results) || |results| != testCount
  }

  /** The text shown under one result: a fixed warning in place of the
      server's message for a forbidden result; otherwise the result's own
      message, None when it has none. */
  function DisplayedMessage(o: Obj): (m: Option<JValue>)
    ensures HasStatus(o, "forbidden") ==> m == Some(JStr(ForbiddenNotice))
    ensures !HasStatus(o, "forbidden") && "message" in o ==> m == Some(o["message"])
    ensures !HasStatus(o, "forbidden") && "message" !in o ==> m.None?
  {
    if HasStatus(o, "forbidden") then Some(JStr(ForbiddenNotice))
    else if "message" in o then Some(o["message"])
    else None
  }

  /** The single result that replaces the log when a run fails. */
  function ConnectionErrorResult(): Obj {
    map["testCase" := JInt(1), "status" := JStr("error"), "message" := JStr(RunConnectError)]
  }

  /** What the network gives `handleRunCode`: `fetch` throws, the response
      has no body, or the body delivers `chunks` (already decoded to text) and
      then ends, or throws when `failed`. */
  datatype RunResponse = FetchFailed | NoBody | Body(chunks: seq<string>, failed: bool)

  /** The results a run leaves: the events read from a body that ended, none
      without a body, and the one connection error whenever anything threw,
      whatever had arrived before. */
  function RunLog(resp: RunResponse, parse: string -> Option<Obj>): seq<Obj> {
    match resp
    case FetchFailed => [ConnectionErrorResult()]
    case NoBody => []
    case Body(chunks, failed) => if failed then [ConnectionErrorResult()] else Feed(chunks, parse).events
  }

  /** A run that ends without events from the server never enables submit:
      no body leaves the log empty, and a failure leaves the one connection
      error, shown with its own message. */
  lemma FailedRunBlocksSubmit(resp: RunResponse, parse: string -> Option<Obj>)
    requires resp.FetchFailed? || resp.NoBody? || (resp.Body? && resp.failed)
    ensures SubmitDisabled(RunLog(resp, parse))
    ensures resp.NoBody? ==> RunLog(resp, parse) == []
    ensures !resp.NoBody? ==>
      |RunLog(resp, parse)| == 1 && !IsSuccess(RunLog(resp, parse)[0])
      && DisplayedMessage(RunLog(resp, parse)[0]) == Some(JStr(RunConnectError))
  {
  }

  /** A one-shot answer: `fetch` or `response.json()` throws (network
      failure, or a body that is not JSON, as `body == None`), or a response
      with its `ok` flag and its string-valued fields. */
  datatype Reply = NetworkError | Response(ok: bool, body: Option<map<string, string>>)

  /** `data[key]` is truthy: present and not the empty string. */
  predicate Truthy(d: map<string, string>, key: string) {
    key in d && d[key] != ""
  }

  predicate RepliedWith(reply: Reply, d: map<string, string>) {
    reply.Response? && reply.body == Some(d)
  }

  datatype GenerationOutcome = NewCode(code: string) | KeepCode | GenerationFailed(error: string)

  /** The branches of `handleGenerateCode`: an error (the server's text, or
      a fallback) exactly when the reply is not ok or carries `error`; the
      connection message when `fetch` or `response.json()` throws; new code
      only from a truthy `code`; a failure always has visible text. */
  function GenerateOutcome(reply: Reply): (r: GenerationOutcome)
    ensures r.GenerationFailed? <==>
      !(reply.Response? && reply.ok && reply.body.Some? && !Truthy(reply.body.value, "error"))
    ensures r.GenerationFailed? ==> r.error != ""
    ensures forall d :: RepliedWith(reply, d) && Truthy(d, "error") ==> r == GenerationFailed(d["error"])
    ensures r.NewCode? <==>
      reply.Response? && reply.ok && reply.body.Some?
      && !Truthy(reply.body.value, "error") && Truthy(reply.body.value, "code")
    ensures r.NewCode? ==> r.code == reply.body.value["code"]
    ensures reply.NetworkError? || (reply.Response? && reply.body.None?) ==>
      r == GenerationFailed(GenerationConnectError)
    ensures reply.Response? && reply.body.Some? && !reply.ok && !Truthy(reply.body.value, "error") ==>
      r == GenerationFailed(GenerationFallback)
    ensures r == KeepCode <==>
      reply.Response? && reply.ok && reply.body.Some?
      && !Truthy(reply.body.value, "error") && !Truthy(reply.body.value, "code")
  {
    match reply
    case NetworkError => GenerationFailed(GenerationConnectError)
    case Response(_, None) => GenerationFailed(GenerationConnectError)
    case Response(ok, Some(d)) =>
      if !ok || Truthy(d, "error") then
        GenerationFailed(if Truthy(d, "error") then d["error"] else GenerationFallback)
      else if Truthy(d, "code") then NewCode(d["code"])
      else KeepCode
  }

  /** `hint` is None when the reply has no `hint` field (`undefined`). */
  datatype HintOutcome = ShowHint(hint: Option<string>) | HintFailed(error: string)

  /** The branches of `handleShowHint`: the same error rule as code
      generation; otherwise the hint field, present or not, is stored and
      the hint dialog opens. */
  function HintOutcomeOf(reply: Reply): (r: HintOutcome)
    ensures r.HintFailed? <==>
      !(reply.Response? && reply.ok && reply.body.Some? && !Truthy(reply.body.value, "error"))
    ensures r.HintFailed? ==> r.error != ""
    ensures forall d :: RepliedWith(reply, d) && Truthy(d, "error") ==> r == HintFailed(d["error"])
    ensures r.ShowHint? ==>
      r.hint == if "hint" in reply.body.value then Some(reply.body.value["hint"]) else None
    ensures reply.NetworkError? || (reply.Response? && reply.body.None?) ==>
      r == HintFailed(HintConnectError)
    ensures reply.Response? && reply.body.Some? && !reply.ok && !Truthy(reply.body.value, "error") ==>
      r == HintFailed(HintFallback)
  {
    match reply
    case NetworkError => HintFailed(HintConnectError)
    case Response(_, None) => HintFailed(HintConnectError)
    case Response(ok, Some(d)) =>
      if !ok || Truthy(d, "error") then
        HintFailed(if Truthy(d, "error") then d["error"] else HintFallback)
      else
        ShowHint(if "hint" in d then Some(d["hint"]) else None)
  }

  /** The page's state (its `useState` hooks) and its handlers. */
  class ChallengeEditor {

    const challenge: Option<Challenge>
    var code: string
    var isRunning: bool
    var testResults: seq<Obj>
    var showSuccessModal: bool
    var isGenerating: bool
    var generationError: string
    var showHintModal: bool
    var hint: Option<string>
    var isLoadingHint: bool
    var hintError: string

    constructor (challenge: Option<Challenge>)
      ensures this.challenge == challenge && code == InitialCode
      ensures !isRunning && testResults == [] && !showSuccessModal
      ensures !isGenerating && generationError == ""
      ensures !showHintModal && hint == Some("") && !isLoadingHint && hintError == ""
    {
      this.challenge := challenge;
      code := InitialCode;
      isRunning := false;
      testResults := [];
      showSuccessModal := false;
      isGenerating := false;
      generationError := "";
      showHintModal := false;
      hint := Some("");
      isLoadingHint := false;
      hintError := "";
    }

    /** The body of the inner loop: a trimmed `data: ` line whose payload
        parses appends its event; any other line, or a parse error, appends
        nothing. */
    method ProcessLine(rawLine: string, parse: string -> Option<Obj>)
      modifies this`testResults
      ensures testResults == old(testResults) + DecodeLine(rawLine, parse)
    {
      var line := Trim(rawLine);
      if StartsWith(line, DataPrefix) {
        var data := parse(line[|DataPrefix|..]);
        if data.Some? {
          testResults := testResults + [data.value];
        }
      }
    }

    /** One pass of the read loop: add the chunk to the buffer, split it on
        line feeds, process every piece but the last in order, and keep the
        last piece as the new buffer. */
    method ReceiveChunk(buffer: string, chunk: string, parse: string -> Option<Obj>) returns (rest: string)
      modifies this`testResults
      ensures Progress(rest, testResults) == Advance(Progress(buffer, old(testResults)), chunk, parse)
    {
      var lines := Split(buffer + chunk);
      ghost var before := testResults;
      for i := 0 to |lines| - 1
        invariant testResults == before + DecodeLines(lines[..i], parse)
      {
        ProcessLine(lines[i], parse);
        DecodeNextLine(lines, i, parse);
      }
      rest := lines[|lines| - 1];
    }

    /** `handleRunCode`: without a challenge nothing happens; otherwise the
        results are cleared, filled from the stream, replaced by the one
        connection error if anything throws, and the run ends. */
    method HandleRunCode(resp: RunResponse, parse: string -> Option<Obj>)
      modifies this`isRunning, this`testResults
      ensures challenge.None? ==> testResults == old(testResults) && isRunning == old(isRunning)
      ensures challenge.Some? ==> testResults == RunLog(resp, parse) && !isRunning
    {
      if challenge.None? {
        return;
      }
      isRunning := true;
      testResults := [];
      match resp {
        case FetchFailed =>
          testResults := [ConnectionErrorResult()];
        case NoBody =>
        case Body(chunks, failed) =>
          var buffer := "";
          for k := 0 to |chunks|
            invariant Progress(buffer, testResults) == Feed(chunks[..k], parse)
          {
            buffer := ReceiveChunk(buffer, chunks[k], parse);
            assert chunks[..k + 1][..k] == chunks[..k];
          }
          assert chunks[..|chunks|] == chunks;
          if failed {
            testResults := [ConnectionErrorResult()];
          }
      }
      isRunning := false;
    }

    /** `handleSubmitSolution`: the success dialog opens when every result
        passed. */
    method HandleSubmitSolution()
      modifies this`showSuccessModal
      ensures showSuccessModal == (old(showSuccessModal) || AllTestsPassed(testResults))
    {
      if AllTestsPassed(testResults) {
        showSuccessModal := true;
      }
    }

    /** `handleGenerateCode`: the error is reset, then set by the outcome;
        the code changes only for new code; the pending flag ends cleared. */
    method HandleGenerateCode(reply: Reply)
      modifies this`isGenerating, this`generationError, this`code
      ensures !isGenerating
      ensures GenerateOutcome(reply).GenerationFailed? ==>
        generationError == GenerateOutcome(reply).error && code == old(code)
      ensures !GenerateOutcome(reply).GenerationFailed? ==> generationError == ""
      ensures code == if GenerateOutcome(reply).NewCode? then GenerateOutcome(reply).code else old(code)
    {
      isGenerating := true;
      generationError := "";
      match GenerateOutcome(reply) {
        case GenerationFailed(e) =>
          generationError := e;
        case NewCode(c) =>
          code := c;
        case KeepCode =>
      }
      isGenerating := false;
    }

    /** `handleShowHint`: building the request reads the challenge, so
        without one it throws and ends in the connection error. */
    method HandleShowHint(reply: Reply)
      modifies this`isLoadingHint, this`hintError, this`hint, this`showHintModal
      ensures !isLoadingHint
      ensures var r := if challenge.None? then HintFailed(HintConnectError) else HintOutcomeOf(reply);
        && (r.HintFailed? ==> hintError == r.error && hint == old(hint) && showHintModal == old(showHintModal))
        && (r.ShowHint? ==> hintError == "" && hint == r.hint && showHintModal)
    {
      isLoadingHint := true;
      hintError := "";
      var r := if challenge.None? then HintFailed(HintConnectError) else HintOutcomeOf(reply);
      match r {
        case HintFailed(e) =>
          hintError := e;
        case ShowHint(h) =>
          hint := h;
          showHintModal := true;
      }
      isLoadingHint := false;
    }
  }
}
