/** The `createProblem` handler: an administrator submits a problem with its
    test cases and reference solutions; the first reference solution is
    submitted to Judge0 once per test case, and the problem is created only
    when every result the poll returns is Accepted. The number of results is
    never compared with the number of test cases.

    The Judge0 helpers (`getJudge0Languages`, `submitBatch`,
    `pollBatchResults`) and `db.Problem.create` are oracles, the fields of
    `Collaborators`. The handler returns what it sent on `res` and the trace
    of the oracle calls it made, in order. */
module ProblemController {
  import opened JsRuntime
  import opened Express
  import opened Users

  /** Judge0's status id for "Accepted". */
  const ACCEPTED: int := 3

  const NOT_AUTHENTICATED: string := "You are not authenticated"
  const NOT_AUTHORIZED: string := "You are not authorized to create a problem"
  const INTERNAL_ERROR: string := "Internal server error"

  /** The message of the TypeError `Object.entries(undefined)` throws. */
  const ENTRIES_OF_UNDEFINED: string := "Cannot convert undefined or null to object"
  /** The message of the TypeError `undefined.map(...)` throws. */
  const MAP_OF_UNDEFINED: string := "Cannot read properties of undefined (reading 'map')"

  /** A request-body value the handler passes to the database untouched,
      as JSON text. */
  type Json = string

  datatype TestCase = TestCase(input: string, output: string)

  /** One own entry `[language, solutionCode]` of the `referenceSolution`
      object, in `Object.entries` order. An object's keys are distinct. */
  datatype SolutionEntry = SolutionEntry(language: string, solutionCode: string)

  /** `req.body`; `testcases` and `referenceSolution` are None when the body
      leaves them out. */
  datatype ProblemBody = ProblemBody(
    title: Json,
    description: Json,
    difficulty: Json,
    tags: Json,
    examples: Json,
    constraints: Json,
    testcases: Option<seq<TestCase>>,
    codeSnippets: Json,
    referenceSolution: Option<seq<SolutionEntry>>)

  /** `req.user` is what the authentication middleware attached, if anything. */
  datatype ProblemRequest = ProblemRequest(user: Option<AuthUser>, body: ProblemBody)

  /** One Judge0 submission: `{language_id, source_code, std_in, expected_output}`. */
  datatype Submission = Submission(languageId: int, sourceCode: string, stdIn: string, expectedOutput: string)

  /** An element of what `submitBatch` resolves to. */
  datatype Receipt = Receipt(token: string)

  /** An element of what `pollBatchResults` resolves to; `statusId` is `result.status.id`. */
  datatype JudgeResult = JudgeResult(statusId: int)

  /** The `data` given to `db.Problem.create`. */
  datatype ProblemData = ProblemData(
    title: Json,
    description: Json,
    difficulty: Json,
    tags: Json,
    examples: Json,
    constraints: Json,
    testcases: seq<TestCase>,
    codeSnippets: Json,
    referenceSolution: SolutionEntry,
    userid: string)

  /** The external collaborators, as functions of their arguments. A language
      lookup yields an id or nothing; every call may also throw. */
  datatype Collaborators = Collaborators(
    languageId: string -> Settled<Option<int>>,
    submitBatch: seq<Submission> -> Settled<seq<Receipt>>,
    pollBatchResults: seq<Option<string>> -> Settled<seq<JudgeResult>>,
    createProblem: ProblemData -> Settled<Json>)

  /** A call to one of the collaborators, with its argument. */
  datatype Call =
    | LanguageLookup(language: string)
    | BatchSubmit(submissions: seq<Submission>)
    | BatchPoll(tokens: seq<Option<string>>)
    | ProblemCreate(data: ProblemData)

  datatype Body =
    | Message(success: bool, message: string, error: Option<string>)
    | Created(problem: Json)

  /** What the handler sent (None when it sent nothing) and the calls it made. */
  datatype Handled = Handled(response: Option<Response<Body>>, calls: seq<Call>)

  function Refusal(status: int, message: string): Response<Body>
  {
    Response(status, Message(false, message, None))
  }

  /** The catch block: 500 with the thrown error's message. */
  function InternalError(thrown: string): Response<Body>
  {
    Response(500, Message(false, INTERNAL_ERROR, Some(thrown)))
  }

  function UnsupportedMessage(language: string): string
  {
    "Language " + language + " is not supported"
  }

  /** The wording, misspelling included, of the failed-test message. */
  function FailedMessage(testNumber: nat, language: string): string
  {
    "Test casse " + DecimalString(testNumber) + " failed for language " + language
  }

  /** `testcases.map(...)`: one submission per test case, in order, all with
      the same language id and source code. */
  function BuildSubmissions(languageId: int, sourceCode: string, testcases: seq<TestCase>): (subs: seq<Submission>)
    ensures |subs| == |testcases|
    ensures forall k :: 0 <= k < |subs| ==>
      subs[k].languageId == languageId && subs[k].sourceCode == sourceCode &&
      subs[k].stdIn == testcases[k].input && subs[k].expectedOutput == testcases[k].output
  {
    if testcases == [] then []
    else [Submission(languageId, sourceCode, testcases[0].input, testcases[0].output)]
         + BuildSubmissions(languageId, sourceCode, testcases[1..])
  }

  /** The test cases a batch of submissions carries. */
  function TestCasesOf(subs: seq<Submission>): (tcs: seq<TestCase>)
  {
    if subs == [] then [] else [TestCase(subs[0].stdIn, subs[0].expectedOutput)] + TestCasesOf(subs[1..])
  }

  /** No test case is lost, duplicated or reordered on the way to the judge. */
  lemma {:induction false} TestCasesRoundTrip(languageId: int, sourceCode: string, testcases: seq<TestCase>)
    ensures TestCasesOf(BuildSubmissions(languageId, sourceCode, testcases)) == testcases
  {
    if testcases != [] {
      TestCasesRoundTrip(languageId, sourceCode, testcases[1..]);
    }
  }

  /** `submissionResults.map((res) => {res.token})`: the arrow has a block
      body and no `return`, so every token is `undefined`; there are as many
      as there are receipts. */
  function ExtractTokens(receipts: seq<Receipt>): (tokens: seq<Option<string>>)
    ensures |tokens| == |receipts|
    ensures forall k :: 0 <= k < |tokens| ==> tokens[k] == None
  {
    if receipts == [] then [] else [None] + ExtractTokens(receipts[1..])
  }

  /** The 0-based index of the first result whose status is not Accepted. */
  function FirstRejected(results: seq<JudgeResult>): (r: Option<nat>)
    ensures r.None? <==> forall j :: 0 <= j < |results| ==> results[j].statusId == ACCEPTED
    ensures r.Some? ==>
      r.value < |results| && results[r.value].statusId != ACCEPTED &&
      forall j :: 0 <= j < r.value ==> results[j].statusId == ACCEPTED
  {
    if results == [] then None
    else if results[0].statusId != ACCEPTED then Some(0)
    else match FirstRejected(results[1..])
      case None => None
      case Some(i) => Some(i + 1)
  }

  /** What the handler does, written as one expression: the two guards, then
      the first entry of the mapping only, since every path through the loop
      body returns. */
  function CreateProblemSpec(req: ProblemRequest, env: Collaborators): Handled
  {
    if req.user.None? then Handled(Some(Refusal(403, NOT_AUTHENTICATED)), [])
    else if req.user.value.role != ADMIN then Handled(Some(Refusal(403, NOT_AUTHORIZED)), [])
    else match req.body.referenceSolution
      case None => Handled(Some(InternalError(ENTRIES_OF_UNDEFINED)), [])
      case Some(entries) =>
        if entries == [] then Handled(None, [])
        else VerifyAndCreate(req.user.value, req.body, entries[0], env)
  }

  /** One pass of the loop body for `entry`. */
  function VerifyAndCreate(user: AuthUser, body: ProblemBody, entry: SolutionEntry, env: Collaborators): Handled
  {
    var looked := [LanguageLookup(entry.language)];
    match env.languageId(entry.language)
    case Threw(m) => Handled(Some(InternalError(m)), looked)
    case Returned(languageId) =>
      if FalsyNumber(languageId) then Handled(Some(Refusal(400, UnsupportedMessage(entry.language))), looked)
      else match body.testcases
        case None => Handled(Some(InternalError(MAP_OF_UNDEFINED)), looked)
        case Some(testcases) =>
          var submissions := BuildSubmissions(languageId.value, entry.solutionCode, testcases);
          var submitted := looked + [BatchSubmit(submissions)];
          match env.submitBatch(submissions)
          case Threw(m) => Handled(Some(InternalError(m)), submitted)
          case Returned(receipts) =>
            var tokens := ExtractTokens(receipts);
            var polled := submitted + [BatchPoll(tokens)];
            match env.pollBatchResults(tokens)
            case Threw(m) => Handled(Some(InternalError(m)), polled)
            case Returned(results) =>
              match FirstRejected(results)
              case Some(i) => Handled(Some(Refusal(400, FailedMessage(i + 1, entry.language))), polled)
              case None =>
                var data := ProblemData(body.title, body.description, body.difficulty, body.tags,
                                        body.examples, body.constraints, testcases, body.codeSnippets,
                                        entry, user.id);
                var created := polled + [ProblemCreate(data)];
                match env.createProblem(data)
                case Threw(m) => Handled(Some(InternalError(m)), created)
                case Returned(row) => Handled(Some(Response(201, Created(row))), created)
  }

  /** The handler, step by step: guards, the loop over the reference
      solutions, and the indexed scan of the judge's results. */
  method CreateProblem(req: ProblemRequest, env: Collaborators) returns (h: Handled)
    ensures h == CreateProblemSpec(req, env)
  {
    if req.user.None? {
      return Handled(Some(Refusal(403, NOT_AUTHENTICATED)), []);
    }
    var user := req.user.value;
    if user.role != ADMIN {
      return Handled(Some(Refusal(403, NOT_AUTHORIZED)), []);
    }
    var body := req.body;
    if body.referenceSolution.None? {
      return Handled(Some(InternalError(ENTRIES_OF_UNDEFINED)), []);
    }
    var entries := body.referenceSolution.value;
    var calls: seq<Call> := [];
    for k := 0 to |entries|
      invariant k == 0 && calls == []
    {
      var entry := entries[k];
      calls := calls + [LanguageLookup(entry.language)];
      var lookup := env.languageId(entry.language);
      if lookup.Threw? {
        return Handled(Some(InternalError(lookup.message)), calls);
      }
      var languageId := lookup.value;
      if FalsyNumber(languageId) {
        return Handled(Some(Refusal(400, UnsupportedMessage(entry.language))), calls);
      }
      if body.testcases.None? {
        return Handled(Some(InternalError(MAP_OF_UNDEFINED)), calls);
      }
      var submissions := BuildSubmissions(languageId.value, entry.solutionCode, body.testcases.value);
      calls := calls + [BatchSubmit(submissions)];
      var submitted := env.submitBatch(submissions);
      if submitted.Threw? {
        return Handled(Some(InternalError(submitted.message)), calls);
      }
      var tokens := ExtractTokens(submitted.value);
      calls := calls + [BatchPoll(tokens)];
      var polled := env.pollBatchResults(tokens);
      if polled.Threw? {
        return Handled(Some(InternalError(polled.message)), calls);
      }
      var results := polled.value;
      for i := 0 to |results|
        invariant forall j :: 0 <= j < i ==> results[j].statusId == ACCEPTED
      {
        if results[i].statusId != ACCEPTED {
          return Handled(Some(Refusal(400, FailedMessage(i + 1, entry.language))), calls);
        }
      }
      var data := ProblemData(body.title, body.description, body.difficulty, body.tags,
                              body.examples, body.constraints, body.testcases.value, body.codeSnippets,
                              entry, user.id);
      calls := calls + [ProblemCreate(data)];
      var created := env.createProblem(data);
      if created.Threw? {
        return Handled(Some(InternalError(created.message)), calls);
      }
      return Handled(Some(Response(201, Created(created.value))), calls);
    }
    return Handled(None, []);
  }

  // ---------------------------------------------------------------------
  // Properties of the handler

  /** Number of `db.Problem.create` calls in a trace. */
  function CreateCount(calls: seq<Call>): nat
  {
    if calls == [] then 0 else (if calls[0].ProblemCreate? then 1 else 0) + CreateCount(calls[1..])
  }

  lemma {:induction false} CreateCountConcat(a: seq<Call>, b: seq<Call>)
    ensures CreateCount(a + b) == CreateCount(a) + CreateCount(b)
  {
    if a == [] {
      assert a + b == b;
    } else {
      assert (a + b)[0] == a[0];
      assert (a + b)[1..] == a[1..] + b;
      CreateCountConcat(a[1..], b);
    }
  }

  lemma {:induction false} CreateCountZero(calls: seq<Call>)
    requires forall k :: 0 <= k < |calls| ==> !calls[k].ProblemCreate?
    ensures CreateCount(calls) == 0
  {
    if calls != [] {
      CreateCountZero(calls[1..]);
    }
  }

  /** A trace whose only create call is its last has a count of one. */
  lemma CreateCountLast(calls: seq<Call>)
    requires |calls| > 0 && calls[|calls| - 1].ProblemCreate?
    requires forall k :: 0 <= k < |calls| - 1 ==> !calls[k].ProblemCreate?
    ensures CreateCount(calls) == 1
  {
  }

  /** The caller is an authenticated administrator and the mapping has an entry. */
  ghost predicate AdminWithLanguage(req: ProblemRequest)
  {
    req.user.Some? && req.user.value.role == ADMIN &&
    req.body.referenceSolution.Some? && |req.body.referenceSolution.value| > 0
  }

  /** The first language resolved to a truthy id, its batch was accepted by
      the judge, and polling resolved to `results`. */
  ghost predicate Judged(req: ProblemRequest, env: Collaborators, results: seq<JudgeResult>)
  {
    AdminWithLanguage(req) &&
    var entry := req.body.referenceSolution.value[0];
    var lookup := env.languageId(entry.language);
    lookup.Returned? && !FalsyNumber(lookup.value) && req.body.testcases.Some? &&
    var submitted := env.submitBatch(BuildSubmissions(lookup.value.value, entry.solutionCode, req.body.testcases.value));
    submitted.Returned? && env.pollBatchResults(ExtractTokens(submitted.value)) == Returned(results)
  }

  /** Without `req.user` the answer is 403 and no collaborator is called. */
  lemma UnauthenticatedRefused(req: ProblemRequest, env: Collaborators)
    requires req.user.None?
    ensures CreateProblemSpec(req, env) == Handled(Some(Refusal(403, NOT_AUTHENTICATED)), [])
  {
  }

  /** A user whose role is not ADMIN gets 403 and no collaborator is called. */
  lemma NonAdminRefused(req: ProblemRequest, env: Collaborators)
    requires req.user.Some? && req.user.value.role != ADMIN
    ensures CreateProblemSpec(req, env) == Handled(Some(Refusal(403, NOT_AUTHORIZED)), [])
  {
  }

  /** Both guards run before anything else: any call to the judge or the
      database means the caller is an authenticated administrator, and the
      first call is always the lookup of the first language. */
  lemma CallsOnlyForAdmins(req: ProblemRequest, env: Collaborators)
    ensures var h := CreateProblemSpec(req, env);
      h.calls != [] ==>
        AdminWithLanguage(req) && h.calls[0] == LanguageLookup(req.body.referenceSolution.value[0].language)
  {
  }

  /** An empty mapping skips the loop: nothing is sent and nothing is called. */
  lemma EmptyMappingSendsNothing(req: ProblemRequest, env: Collaborators)
    requires req.user.Some? && req.user.value.role == ADMIN
    requires req.body.referenceSolution == Some([])
    ensures CreateProblemSpec(req, env) == Handled(None, [])
  {
  }

  /** The handler sends no response exactly when an administrator sends an
      empty mapping. */
  lemma SilentOnlyOnEmptyMapping(req: ProblemRequest, env: Collaborators)
    ensures CreateProblemSpec(req, env).response.None? <==>
      req.user.Some? && req.user.value.role == ADMIN && req.body.referenceSolution == Some([])
  {
  }

  /** Only the first entry of the mapping is ever looked at: dropping all the
      others changes nothing. */
  lemma OnlyFirstEntryMatters(req: ProblemRequest, env: Collaborators)
    requires req.body.referenceSolution.Some? && |req.body.referenceSolution.value| > 0
    ensures var first := req.body.referenceSolution.value[0];
      CreateProblemSpec(req, env) ==
      CreateProblemSpec(req.(body := req.body.(referenceSolution := Some([first]))), env)
  {
  }

  /** A language the judge does not know (a falsy id) is refused with 400
      naming it; the lookup is the only call, so nothing is submitted. */
  lemma UnsupportedLanguageRefused(req: ProblemRequest, env: Collaborators)
    requires AdminWithLanguage(req)
    requires var language := req.body.referenceSolution.value[0].language;
      env.languageId(language).Returned? && FalsyNumber(env.languageId(language).value)
    ensures var language := req.body.referenceSolution.value[0].language;
      CreateProblemSpec(req, env) ==
      Handled(Some(Refusal(400, UnsupportedMessage(language))), [LanguageLookup(language)])
  {
  }

  /** An administrator's body without `referenceSolution` makes
      `Object.entries(undefined)` throw; the catch answers 500 with V8's
      message, before any call. */
  lemma AbsentMappingAnswers500(req: ProblemRequest, env: Collaborators)
    requires req.user.Some? && req.user.value.role == ADMIN && req.body.referenceSolution.None?
    ensures CreateProblemSpec(req, env) == Handled(Some(InternalError(ENTRIES_OF_UNDEFINED)), [])
  {
  }

  /** A throwing `getJudge0Languages` answers 500 with its own message; the
      lookup is the only call. */
  lemma LookupThrowsAnswers500(req: ProblemRequest, env: Collaborators, m: string)
    requires AdminWithLanguage(req)
    requires env.languageId(req.body.referenceSolution.value[0].language) == Threw(m)
    ensures CreateProblemSpec(req, env) ==
      Handled(Some(InternalError(m)), [LanguageLookup(req.body.referenceSolution.value[0].language)])
  {
  }

  /** A supported language with a body without `testcases` makes
      `testcases.map` throw; the catch answers 500 with V8's message and the
      lookup is the only call. */
  lemma AbsentTestcasesAnswers500(req: ProblemRequest, env: Collaborators)
    requires AdminWithLanguage(req) && req.body.testcases.None?
    requires var lookup := env.languageId(req.body.referenceSolution.value[0].language);
      lookup.Returned? && !FalsyNumber(lookup.value)
    ensures CreateProblemSpec(req, env) ==
      Handled(Some(InternalError(MAP_OF_UNDEFINED)), [LanguageLookup(req.body.referenceSolution.value[0].language)])
  {
  }

  /** A throwing `submitBatch` answers 500 with its own message; the trace
      ends at the submission and nothing is polled or created. */
  lemma SubmitThrowsAnswers500(req: ProblemRequest, env: Collaborators, m: string)
    requires AdminWithLanguage(req) && req.body.testcases.Some?
    requires var lookup := env.languageId(req.body.referenceSolution.value[0].language);
      lookup.Returned? && !FalsyNumber(lookup.value)
    requires var entry := req.body.referenceSolution.value[0];
      env.submitBatch(BuildSubmissions(env.languageId(entry.language).value.value, entry.solutionCode, req.body.testcases.value)) == Threw(m)
    ensures var entry := req.body.referenceSolution.value[0];
      var subs := BuildSubmissions(env.languageId(entry.language).value.value, entry.solutionCode, req.body.testcases.value);
      CreateProblemSpec(req, env) ==
      Handled(Some(InternalError(m)), [LanguageLookup(entry.language), BatchSubmit(subs)])
  {
  }

  /** A throwing `pollBatchResults` answers 500 with its own message; the
      trace ends at the poll and nothing is created. */
  lemma PollThrowsAnswers500(req: ProblemRequest, env: Collaborators, receipts: seq<Receipt>, m: string)
    requires AdminWithLanguage(req) && req.body.testcases.Some?
    requires var lookup := env.languageId(req.body.referenceSolution.value[0].language);
      lookup.Returned? && !FalsyNumber(lookup.value)
    requires var entry := req.body.referenceSolution.value[0];
      env.submitBatch(BuildSubmissions(env.languageId(entry.language).value.value, entry.solutionCode, req.body.testcases.value)) == Returned(receipts)
    requires env.pollBatchResults(ExtractTokens(receipts)) == Threw(m)
    ensures var entry := req.body.referenceSolution.value[0];
      var subs := BuildSubmissions(env.languageId(entry.language).value.value, entry.solutionCode, req.body.testcases.value);
      CreateProblemSpec(req, env) ==
      Handled(Some(InternalError(m)), [LanguageLookup(entry.language), BatchSubmit(subs), BatchPoll(ExtractTokens(receipts))])
  {
  }

  /** When result i is the first that is not Accepted, the answer is 400
      naming test case i + 1 (1-indexed) and the language, the trace stops at
      the poll, and no problem is created. */
  lemma FirstFailureReported(req: ProblemRequest, env: Collaborators, results: seq<JudgeResult>, i: nat)
    requires Judged(req, env, results)
    requires i < |results| && results[i].statusId != ACCEPTED
    requires forall j :: 0 <= j < i ==> results[j].statusId == ACCEPTED
    ensures var h := CreateProblemSpec(req, env);
      var language := req.body.referenceSolution.value[0].language;
      h.response == Some(Refusal(400, FailedMessage(i + 1, language))) &&
      |h.calls| == 3 && h.calls[0] == LanguageLookup(language) &&
      h.calls[1].BatchSubmit? && h.calls[2].BatchPoll? &&
      CreateCount(h.calls) == 0
  {
    var r := FirstRejected(results);
    assert r == Some(i);
    CreateCountZero(CreateProblemSpec(req, env).calls);
  }

  /** When every result is Accepted, the problem is created exactly once, as
      the last call, with the test cases, the first reference solution and
      the caller's id; the answer is 201 with the created record, or 500 if
      the database throws. */
  lemma AllAcceptedCreatesOnce(req: ProblemRequest, env: Collaborators, results: seq<JudgeResult>)
    requires Judged(req, env, results)
    requires forall j :: 0 <= j < |results| ==> results[j].statusId == ACCEPTED
    ensures var h := CreateProblemSpec(req, env);
      |h.calls| == 4 && h.calls[3].ProblemCreate? && CreateCount(h.calls) == 1 &&
      var data := h.calls[3].data;
      data.referenceSolution == req.body.referenceSolution.value[0] &&
      data.userid == req.user.value.id &&
      data.testcases == req.body.testcases.value &&
      data.title == req.body.title && data.description == req.body.description &&
      data.difficulty == req.body.difficulty && data.tags == req.body.tags &&
      data.examples == req.body.examples && data.constraints == req.body.constraints &&
      data.codeSnippets == req.body.codeSnippets &&
      h.response == match env.createProblem(data)
        case Returned(row) => Some(Response(201, Created(row)))
        case Threw(m) => Some(InternalError(m))
  {
    var h := CreateProblemSpec(req, env);
    assert FirstRejected(results).None?;
    CreateCountLast(h.calls);
  }

  /** The submissions sent for the first language are the test cases in
      order, each with the resolved id and the first reference solution. */
  lemma SubmissionsFollowTestcases(req: ProblemRequest, env: Collaborators)
    requires AdminWithLanguage(req) && req.body.testcases.Some?
    requires var lookup := env.languageId(req.body.referenceSolution.value[0].language);
      lookup.Returned? && !FalsyNumber(lookup.value)
    ensures var h := CreateProblemSpec(req, env);
      var entry := req.body.referenceSolution.value[0];
      var testcases := req.body.testcases.value;
      |h.calls| >= 2 && h.calls[1].BatchSubmit? &&
      var subs := h.calls[1].submissions;
      TestCasesOf(subs) == testcases &&
      forall k :: 0 <= k < |subs| ==>
        subs[k].languageId == env.languageId(entry.language).value.value &&
        subs[k].sourceCode == entry.solutionCode
  {
    var entry := req.body.referenceSolution.value[0];
    TestCasesRoundTrip(env.languageId(entry.language).value.value, entry.solutionCode, req.body.testcases.value);
  }

  /** At most one `db.Problem.create` call is made, whether or not it throws,
      and it is made exactly when the first language was judged and every
      result the poll returned is Accepted. */
  lemma {:induction false} CreatesOnlyWhenVerified(req: ProblemRequest, env: Collaborators)
    ensures var h := CreateProblemSpec(req, env);
      CreateCount(h.calls) <= 1 &&
      (CreateCount(h.calls) == 1 <==>
        exists results: seq<JudgeResult> :: Judged(req, env, results) &&
          forall j :: 0 <= j < |results| ==> results[j].statusId == ACCEPTED)
  {
    var h := CreateProblemSpec(req, env);
    if |h.calls| == 4 {
      CreateCountLast(h.calls);
      var results := env.pollBatchResults(h.calls[2].tokens).value;
      assert Judged(req, env, results);
    } else {
      CreateCountZero(h.calls);
      forall results: seq<JudgeResult> | Judged(req, env, results)
        ensures !forall j :: 0 <= j < |results| ==> results[j].statusId == ACCEPTED
      {
      }
    }
  }

  /** Every response is 201, 400, 403 or 500; a 201 follows exactly one
      create; a 500 is exactly the catch block's body, with an error text.
      Which text each failure gives is pinned by the `...Answers500` lemmas
      and by `AllAcceptedCreatesOnce`. */
  lemma ResponseStatuses(req: ProblemRequest, env: Collaborators)
    ensures var h := CreateProblemSpec(req, env);
      h.response.Some? ==>
        var status := h.response.value.status;
        var body := h.response.value.body;
        (status == 201 || status == 400 || status == 403 || status == 500) &&
        (status == 201 ==> CreateCount(h.calls) == 1 && body.Created?) &&
        (status == 500 <==> body.Message? && body.message == INTERNAL_ERROR && body.error.Some?) &&
        (status == 403 ==> h.calls == [])
  {
    var h := CreateProblemSpec(req, env);
    if h.response.Some? && h.response.value.status == 201 {
      CreateCountLast(h.calls);
    }
  }
}
