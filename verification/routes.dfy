/**
 * The five HTTP POST handlers. Each reads a JSON body, applies a
 * falsy-field guard, builds the flow input, and shapes the response.
 * The flow is a parameter; `Handled.flowInput` records whether, and with
 * what, it was called.
 */
module Routes {
  import opened Wrappers
  import opened Domain
  import opened Json
  import Schemas

  datatype Response = Response(status: int, body: map<string, Json>)

  /** The response, and the input passed to the flow (`None`: the flow was not called). */
  datatype Handled = Handled(response: Response, flowInput: Option<map<string, Json>>)

  /** A flow as the routes call it: a plain object in, a value or a throw out. */
  type Flow = map<string, Json> -> Result<Json, Thrown>

  function ErrorResponse(status: int, message: string): Response {
    Response(status, map["error" := JStr(message)])
  }

  /**
   * The body after `await request.json()` and destructuring: `None` when the
   * text is not JSON (`request` is `None`) or is `null`, both of which throw
   * inside the handler's `try`.
   */
  function ReadBody(request: Option<Json>): Option<Json> {
    match request
    case Some(JNull) => None
    case Some(b) => Some(b)
    case None => None
  }

  /** The 400 message of the three-field routes, and the 500 messages. */
  const ChatbotQuestionRequired := "Question is required"
  const ChatbotFailed := "Failed to get response from chatbot"
  const RawProblemRequired := "Raw problem is required"
  const EnhanceFailed := "Failed to enhance problem"
  const GenerateFieldsRequired := "Language, complexity, and topic are required"
  const GenerateFailed := "Failed to generate problem"
  const CodeFieldsRequired := "Code, language, and problem are required"
  const RunFailed := "Failed to run code"
  const CheckFailed := "Failed to check code"

  /** The three-field guard `a && b && c` on properties of `body`. */
  predicate AllTruthy(body: Json, a: string, b: string, c: string) {
    Truthy(Get(body, a)) && Truthy(Get(body, b)) && Truthy(Get(body, c))
  }

  /** Successful flow result wrapped as `{response: result}`, or a 500 on a throw. */
  function Respond(outcome: Result<Json, Thrown>, failed: string): Response {
    match outcome
    case Success(v) => Response(200, map["response" := v])
    case Failure(_) => ErrorResponse(500, failed)
  }

  // ---------------------------------------------------------------- chatbot

  /** The flow input of the chatbot route: defaults for falsy fields, `medium` for an absent length. */
  function ChatbotFlowInput(body: Json): (m: map<string, Json>)
    requires Truthy(Get(body, "question"))
  {
    map[
      "question" := Get(body, "question").value,
      "responseLength" := Get(body, "responseLength").GetOr(JStr("medium")),
      "problemStatement" := Or(Get(body, "problemStatement"), JStr("")),
      "code" := Or(Get(body, "code"), JStr("")),
      "language" := Or(Get(body, "language"), JStr("java")),
      "history" := Or(Get(body, "history"), JArr([]))]
  }

  function ChatbotPost(request: Option<Json>, flow: Flow): (h: Handled)
    ensures h.flowInput.Some? <==> ReadBody(request).Some? && Truthy(Get(ReadBody(request).value, "question"))
    ensures ReadBody(request).Some? && !Truthy(Get(ReadBody(request).value, "question")) ==>
      h.response == ErrorResponse(400, ChatbotQuestionRequired)
    ensures h.response.status == 200 <==> h.flowInput.Some? && flow(h.flowInput.value).Success? && !flow(h.flowInput.value).value.JNull?
    ensures h.response.status == 200 ==> h.response.body.Keys <= {"answer"}
    ensures h.response.status == 200 ==>
      var answer := Get(flow(h.flowInput.value).value, "answer");
      h.response.body == (if answer.Some? then map["answer" := answer.value] else map[])
    ensures h.response.status != 200 ==> h.response.status in {400, 500}
  {
    match ReadBody(request)
    case None => Handled(ErrorResponse(500, ChatbotFailed), None)
    case Some(body) =>
      if !Truthy(Get(body, "question")) then Handled(ErrorResponse(400, ChatbotQuestionRequired), None)
      else
        var input := ChatbotFlowInput(body);
        match flow(input)
        case Failure(_) => Handled(ErrorResponse(500, ChatbotFailed), Some(input))
        case Success(result) =>
          if result.JNull? then Handled(ErrorResponse(500, ChatbotFailed), Some(input))
          else
            // `{answer: result.answer}`: an undefined answer is dropped when serialised
            var answer := Get(result, "answer");
            Handled(Response(200, if answer.Some? then map["answer" := answer.value] else map[]), Some(input))
  }

  /**
   * What the chatbot route forwards: the question as sent, the length only
   * defaulted when the key is absent (a present `null` passes through), and
   * the fixed fallbacks for a falsy statement, code, language or history.
   */
  lemma ChatbotRouteDefaults(request: Option<Json>, flow: Flow)
    requires ReadBody(request).Some? && Truthy(Get(ReadBody(request).value, "question"))
    ensures var body := ReadBody(request).value;
      var m := ChatbotPost(request, flow).flowInput.value;
      && m.Keys == {"question", "responseLength", "problemStatement", "code", "language", "history"}
      && m["question"] == Get(body, "question").value
      && (Get(body, "responseLength") == None ==> m["responseLength"] == JStr("medium"))
      && (Get(body, "responseLength") != None ==> m["responseLength"] == Get(body, "responseLength").value)
      && (!Truthy(Get(body, "problemStatement")) ==> m["problemStatement"] == JStr(""))
      && (!Truthy(Get(body, "code")) ==> m["code"] == JStr(""))
      && (!Truthy(Get(body, "language")) ==> m["language"] == JStr("java"))
      && (!Truthy(Get(body, "history")) ==> m["history"] == JArr([]))
      && (Truthy(Get(body, "language")) ==> m["language"] == Get(body, "language").value)
  {
  }

  /**
   * A body whose present fields are well typed yields a flow input the
   * library's chatbot schema accepts: the route's defaults fill exactly the
   * gaps the schema would refuse.
   */
  lemma ChatbotRouteMeetsSchema(body: Json)
    requires body.JObj?
    requires IsString(Get(body, "question")) && Get(body, "question").value.s != ""
    requires Truthy(Get(body, "problemStatement")) ==> IsString(Get(body, "problemStatement"))
    requires Truthy(Get(body, "code")) ==> IsString(Get(body, "code"))
    requires Truthy(Get(body, "language")) ==>
      IsString(Get(body, "language")) && Get(body, "language").value.s in {"java", "python", "c"}
    requires Truthy(Get(body, "history")) ==>
      && Get(body, "history").value.JArr?
      && forall i :: 0 <= i < |Get(body, "history").value.items| ==>
           Schemas.ValidHistoryItem(Get(body, "history").value.items[i])
    requires Get(body, "responseLength") == None ||
      (IsString(Get(body, "responseLength")) && Get(body, "responseLength").value.s in {"short", "medium", "full"})
    ensures Schemas.ParseAskChatbot(JObj(ChatbotFlowInput(body))).Some?
  {
    var m := JObj(ChatbotFlowInput(body));
    assert IsString(Get(m, "question")) && Get(m, "question").value.s != "";
    assert IsString(Get(m, "problemStatement"));
    assert IsString(Get(m, "code"));
    assert IsString(Get(m, "language")) && Get(m, "language").value.s in {"java", "python", "c"};
    assert Get(m, "history") == Some(Or(Get(body, "history"), JArr([])));
    assert Get(m, "responseLength") == Some(Get(body, "responseLength").GetOr(JStr("medium")));
    assert Schemas.ChatbotBodyValid(m);
    Schemas.AskChatbotAcceptance(m);
  }

  // ---------------------------------------------------------- enhance-problem

  /** The fixed flow input of the enhance route: only the raw problem comes from the body. */
  function EnhanceFlowInput(rawProblem: Json): map<string, Json> {
    map[
      "topic" := JStr(""),
      "language" := JStr("java"),
      "complexity" := JStr("medium"),
      "problemStatement" := rawProblem,
      "expectedOutput" := JStr("")]
  }

  function EnhancePost(request: Option<Json>, flow: Flow): (h: Handled)
    ensures h.flowInput.Some? <==> ReadBody(request).Some? && Truthy(Get(ReadBody(request).value, "rawProblem"))
    ensures h.flowInput.Some? ==> h.flowInput.value == EnhanceFlowInput(Get(ReadBody(request).value, "rawProblem").value)
    ensures ReadBody(request).Some? && !Truthy(Get(ReadBody(request).value, "rawProblem")) ==>
      h.response == ErrorResponse(400, RawProblemRequired)
    ensures h.flowInput.Some? ==> h.response == Respond(flow(h.flowInput.value), EnhanceFailed)
  {
    match ReadBody(request)
    case None => Handled(ErrorResponse(500, EnhanceFailed), None)
    case Some(body) =>
      var raw := Get(body, "rawProblem");
      if !Truthy(raw) then Handled(ErrorResponse(400, RawProblemRequired), None)
      else
        var input := EnhanceFlowInput(raw.value);
        Handled(Respond(flow(input), EnhanceFailed), Some(input))
  }

  /**
   * Whatever else the body holds, the enhance route's flow input carries an
   * empty topic, so the library's enhance schema (topic of length at least
   * one) would refuse every input this route builds.
   */
  lemma EnhanceRouteIgnoresBody(b1: Json, b2: Json, flow: Flow)
    requires Truthy(Get(b1, "rawProblem")) && Get(b1, "rawProblem") == Get(b2, "rawProblem")
    ensures EnhancePost(Some(b1), flow) == EnhancePost(Some(b2), flow)
    ensures Schemas.ParseEnhance(JObj(EnhancePost(Some(b1), flow).flowInput.value)) == None
  {
    var m := JObj(EnhanceFlowInput(Get(b1, "rawProblem").value));
    assert Get(m, "topic") == Some(JStr(""));
  }

  // --------------------------------------------------------- generate-problem

  function GeneratePost(request: Option<Json>, flow: Flow): (h: Handled)
    ensures h.flowInput.Some? <==> (ReadBody(request).Some? && AllTruthy(ReadBody(request).value, "language", "complexity", "topic"))
    ensures h.flowInput.Some? ==>
      var body := ReadBody(request).value;
      h.flowInput.value == map[
        "language" := Get(body, "language").value,
        "complexity" := Get(body, "complexity").value,
        "topic" := Get(body, "topic").value]
    ensures ReadBody(request).Some? && h.flowInput.None? ==> h.response == ErrorResponse(400, GenerateFieldsRequired)
    ensures h.flowInput.Some? ==> h.response == Respond(flow(h.flowInput.value), GenerateFailed)
  {
    match ReadBody(request)
    case None => Handled(ErrorResponse(500, GenerateFailed), None)
    case Some(body) =>
      var language := Get(body, "language");
      var complexity := Get(body, "complexity");
      var topic := Get(body, "topic");
      if !Truthy(language) || !Truthy(complexity) || !Truthy(topic) then
        Handled(ErrorResponse(400, GenerateFieldsRequired), None)
      else
        var input := map["language" := language.value, "complexity" := complexity.value, "topic" := topic.value];
        Handled(Respond(flow(input), GenerateFailed), Some(input))
  }

  /**
   * The generate route has no enum check: every body with the three fields
   * truthy reaches the flow with its complexity as sent, even a string
   * outside `easy`/`medium`/`hard` that the library's generate schema
   * refuses, and no `hints` key is ever sent.
   */
  lemma GenerateRouteSkipsEnumCheck(body: Json, flow: Flow)
    requires AllTruthy(body, "language", "complexity", "topic")
    ensures var h := GeneratePost(Some(body), flow);
      && h.flowInput.Some?
      && h.flowInput.value["complexity"] == Get(body, "complexity").value
      && "hints" !in h.flowInput.value
    ensures IsString(Get(body, "complexity")) && Get(body, "complexity").value.s !in {"easy", "medium", "hard"} ==>
      Schemas.ParseGenerate(body) == None
  {
    Schemas.GenerateAcceptance(body);
  }

  // ----------------------------------------------------------------- run-code

  function RunPost(request: Option<Json>, flow: Flow): (h: Handled)
    ensures h.flowInput.Some? <==> (ReadBody(request).Some? && AllTruthy(ReadBody(request).value, "code", "language", "problem"))
    ensures h.flowInput.Some? ==>
      var body := ReadBody(request).value;
      h.flowInput.value == map[
        "code" := Get(body, "code").value,
        "language" := Get(body, "language").value,
        "problemStatement" := Get(body, "problem").value,
        "expectedOutput" := JStr("")]
    ensures ReadBody(request).Some? && h.flowInput.None? ==> h.response == ErrorResponse(400, CodeFieldsRequired)
    ensures h.flowInput.Some? ==> h.response == Respond(flow(h.flowInput.value), RunFailed)
  {
    match ReadBody(request)
    case None => Handled(ErrorResponse(500, RunFailed), None)
    case Some(body) =>
      var code := Get(body, "code");
      var language := Get(body, "language");
      var problem := Get(body, "problem");
      if !Truthy(code) || !Truthy(language) || !Truthy(problem) then
        Handled(ErrorResponse(400, CodeFieldsRequired), None)
      else
        var input := map[
          "code" := code.value, "language" := language.value,
          "problemStatement" := problem.value, "expectedOutput" := JStr("")];
        Handled(Respond(flow(input), RunFailed), Some(input))
  }

  /** Renaming `problem` to `problemStatement` and adding an empty expected output meets the run flow's schema. */
  lemma RunRouteMeetsRunFlowSchema(body: Json, flow: Flow)
    requires body.JObj?
    requires IsString(Get(body, "code")) && Get(body, "code").value.s != ""
    requires IsString(Get(body, "language")) && Get(body, "language").value.s in {"java", "python", "c"}
    requires IsString(Get(body, "problem")) && Get(body, "problem").value.s != ""
    ensures RunPost(Some(body), flow).flowInput.Some?
    ensures Schemas.RunFlowAccepts(JObj(RunPost(Some(body), flow).flowInput.value))
  {
  }

  // --------------------------------------------------------------- check-code

  function CheckPost(request: Option<Json>, flow: Flow): (h: Handled)
    ensures h.flowInput.Some? <==> (ReadBody(request).Some? && AllTruthy(ReadBody(request).value, "code", "language", "problem"))
    ensures h.flowInput.Some? ==>
      var body := ReadBody(request).value;
      h.flowInput.value == map["code" := Get(body, "code").value, "language" := Get(body, "language").value]
    ensures ReadBody(request).Some? && h.flowInput.None? ==> h.response == ErrorResponse(400, CodeFieldsRequired)
    ensures h.flowInput.Some? ==> h.response == Respond(flow(h.flowInput.value), CheckFailed)
  {
    match ReadBody(request)
    case None => Handled(ErrorResponse(500, CheckFailed), None)
    case Some(body) =>
      var code := Get(body, "code");
      var language := Get(body, "language");
      var problem := Get(body, "problem");
      if !Truthy(code) || !Truthy(language) || !Truthy(problem) then
        Handled(ErrorResponse(400, CodeFieldsRequired), None)
      else
        var input := map["code" := code.value, "language" := language.value];
        Handled(Respond(flow(input), CheckFailed), Some(input))
  }

  /**
   * The check route demands `problem` but drops it: two bodies that differ
   * only in a truthy `problem` produce the same flow call and response.
   */
  lemma CheckRouteDropsProblem(code: Json, language: Json, p1: Json, p2: Json, flow: Flow)
    requires Truthy(Some(code)) && Truthy(Some(language)) && Truthy(Some(p1)) && Truthy(Some(p2))
    ensures var b1 := JObj(map["code" := code, "language" := language, "problem" := p1]);
      var b2 := JObj(map["code" := code, "language" := language, "problem" := p2]);
      && CheckPost(Some(b1), flow) == CheckPost(Some(b2), flow)
      && "problem" !in CheckPost(Some(b1), flow).flowInput.value
  {
  }

  /** Every route answers an unreadable body with its 500 and never calls its flow. */
  lemma UnreadableBodyIsServerError(flow: Flow)
    ensures ChatbotPost(None, flow) == Handled(ErrorResponse(500, ChatbotFailed), None)
    ensures EnhancePost(None, flow) == Handled(ErrorResponse(500, EnhanceFailed), None)
    ensures GeneratePost(None, flow) == Handled(ErrorResponse(500, GenerateFailed), None)
    ensures RunPost(None, flow) == Handled(ErrorResponse(500, RunFailed), None)
    ensures CheckPost(Some(JNull), flow) == Handled(ErrorResponse(500, CheckFailed), None)
  {
  }
}
