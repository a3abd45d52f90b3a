/**
 * The request schemas of the library types: each is an acceptance test on a
 * JSON body that, on success, yields the typed record the schema infers.
 * Unknown keys are stripped, as zod objects do.
 */
module Schemas {
  import opened Wrappers
  import opened Domain
  import opened Json

  /** `z.string()`: a present string. */
  function RequiredString(body: Json, key: string): (r: Option<string>)
    ensures r.Some? <==> IsString(Get(body, key))
    ensures r.Some? ==> Get(body, key) == Some(JStr(r.value))
  {
    match Get(body, key)
    case Some(JStr(s)) => Some(s)
    case _ => None
  }

  /** `z.string().min(1)`: a present string of length at least one. */
  function NonEmptyString(body: Json, key: string): (r: Option<string>)
    ensures r.Some? <==> IsString(Get(body, key)) && Get(body, key).value.s != ""
    ensures r.Some? ==> Get(body, key) == Some(JStr(r.value)) && |r.value| >= 1
  {
    match RequiredString(body, key)
    case Some(s) => if |s| >= 1 then Some(s) else None
    case None => None
  }

  /** One history entry, `{sender: enum, text: string}`. */
  datatype HistoryEntry = HistoryEntry(sender: Sender, text: string)

  /** The inferred type of the chatbot request schema, after the `responseLength` default. */
  datatype AskChatbotInput = AskChatbotInput(
    question: string,
    problemStatement: string,
    code: Option<string>,
    language: Language,
    history: Option<seq<HistoryEntry>>,
    responseLength: ResponseLength)

  function ParseHistoryEntry(j: Json): Option<HistoryEntry> {
    if !j.JObj? then None
    else match (RequiredString(j, "sender"), RequiredString(j, "text"))
      case (Some(sn), Some(t)) =>
        (match ParseSender(sn)
         case Some(sender) => Some(HistoryEntry(sender, t))
         case None => None)
      case _ => None
  }

  /** An array of history entries: accepted exactly when every element is. */
  function ParseHistory(items: seq<Json>): (r: Option<seq<HistoryEntry>>)
    ensures r.Some? <==> forall i :: 0 <= i < |items| ==> ParseHistoryEntry(items[i]).Some?
    ensures r.Some? ==> |r.value| == |items|
    ensures r.Some? ==> forall i :: 0 <= i < |items| ==> r.value[i] == ParseHistoryEntry(items[i]).value
  {
    if items == [] then Some([])
    else
      match (ParseHistoryEntry(items[0]), ParseHistory(items[1..]))
      case (Some(e), Some(rest)) => Some([e] + rest)
      case _ => None
  }

  /** The chatbot request schema. */
  function ParseAskChatbot(body: Json): (r: Option<AskChatbotInput>)
    ensures r.Some? ==> body.JObj? && |r.value.question| >= 1
    ensures r.Some? ==> Get(body, "language") == Some(JStr(LanguageName(r.value.language)))
    ensures r.Some? && Get(body, "responseLength") == None ==> r.value.responseLength == ResponseLength.Medium
    ensures r.Some? && Get(body, "code") == None ==> r.value.code == None
    ensures r.Some? && Get(body, "history") == None ==> r.value.history == None
  {
    if !body.JObj? then None
    else
      var question := NonEmptyString(body, "question");
      var statement := RequiredString(body, "problemStatement");
      var code := OptionalString(body, "code");
      var language := match RequiredString(body, "language")
        case Some(s) => ParseLanguage(s)
        case None => None;
      var history := match Get(body, "history")
        case None => Some(None)
        case Some(JArr(items)) =>
          (match ParseHistory(items) case Some(h) => Some(Some(h)) case None => None)
        case Some(_) => None;
      var length := match Get(body, "responseLength")
        case None => Some(ResponseLength.Medium)
        case Some(JStr(s)) => ParseResponseLength(s)
        case Some(_) => None;
      if question.Some? && statement.Some? && code.Some? && language.Some? && history.Some? && length.Some?
      then Some(AskChatbotInput(question.value, statement.value, code.value, language.value, history.value, length.value))
      else None
  }

  /** `z.string().optional()`: `Some(None)` when absent, `None` when present but not a string. */
  function OptionalString(body: Json, key: string): Option<Option<string>> {
    match Get(body, key)
    case None => Some(None)
    case Some(JStr(s)) => Some(Some(s))
    case Some(_) => None
  }

  function EncodeHistory(h: seq<HistoryEntry>): (r: seq<Json>)
    ensures |r| == |h|
  {
    if h == [] then []
    else [JObj(map["sender" := JStr(SenderName(h[0].sender)), "text" := JStr(h[0].text)])] + EncodeHistory(h[1..])
  }

  /** The JSON object a caller sends for a chatbot request. */
  function EncodeAskChatbot(x: AskChatbotInput): Json {
    var base := map[
      "question" := JStr(x.question),
      "problemStatement" := JStr(x.problemStatement),
      "language" := JStr(LanguageName(x.language)),
      "responseLength" := JStr(ResponseLengthName(x.responseLength))];
    var withCode := if x.code.Some? then base["code" := JStr(x.code.value)] else base;
    JObj(if x.history.Some? then withCode["history" := JArr(EncodeHistory(x.history.value))] else withCode)
  }

  lemma {:induction false} HistoryRoundTrip(h: seq<HistoryEntry>)
    ensures ParseHistory(EncodeHistory(h)) == Some(h)
  {
    if h != [] {
      HistoryRoundTrip(h[1..]);
      var e := EncodeHistory(h);
      assert e[1..] == EncodeHistory(h[1..]);
      assert ParseSender(SenderName(h[0].sender)) == Some(h[0].sender) by {
        EnumNamesRoundTrip(Java, Easy, Short, h[0].sender, Correct);
      }
      assert ParseHistoryEntry(e[0]) == Some(h[0]);
      assert [h[0]] + h[1..] == h;
    }
  }

  /** A chatbot request survives encoding and parsing exactly when its question is non-empty. */
  lemma AskChatbotRoundTrip(x: AskChatbotInput)
    ensures ParseAskChatbot(EncodeAskChatbot(x)) == (if x.question != "" then Some(x) else None)
  {
    var b := EncodeAskChatbot(x);
    EnumNamesRoundTrip(x.language, Easy, x.responseLength, User, Correct);
    assert Get(b, "question") == Some(JStr(x.question));
    assert Get(b, "problemStatement") == Some(JStr(x.problemStatement));
    assert Get(b, "language") == Some(JStr(LanguageName(x.language)));
    assert Get(b, "responseLength") == Some(JStr(ResponseLengthName(x.responseLength)));
    assert OptionalString(b, "code") == Some(x.code);
    if x.history.Some? {
      HistoryRoundTrip(x.history.value);
      assert Get(b, "history") == Some(JArr(EncodeHistory(x.history.value)));
    } else {
      assert Get(b, "history") == None;
    }
  }

  /** An independent statement of what the chatbot schema admits. */
  predicate ValidHistoryItem(j: Json) {
    && j.JObj?
    && IsString(Get(j, "sender")) && Get(j, "sender").value.s in {"user", "bot"}
    && IsString(Get(j, "text"))
  }

  predicate ChatbotBodyValid(body: Json) {
    && body.JObj?
    && IsString(Get(body, "question")) && Get(body, "question").value.s != ""
    && IsString(Get(body, "problemStatement"))
    && (Get(body, "code") == None || IsString(Get(body, "code")))
    && IsString(Get(body, "language")) && Get(body, "language").value.s in {"java", "python", "c"}
    && (match Get(body, "history")
        case None => true
        case Some(JArr(items)) => forall i :: 0 <= i < |items| ==> ValidHistoryItem(items[i])
        case Some(_) => false)
    && (match Get(body, "responseLength")
        case None => true
        case Some(JStr(s)) => s in {"short", "medium", "full"}
        case Some(_) => false)
  }

  /** The chatbot schema accepts a body exactly when the independent statement holds. */
  lemma AskChatbotAcceptance(body: Json)
    ensures ParseAskChatbot(body).Some? <==> ChatbotBodyValid(body)
  {
    match Get(body, "history")
    case Some(JArr(items)) =>
      forall i | 0 <= i < |items|
        ensures ParseHistoryEntry(items[i]).Some? <==> ValidHistoryItem(items[i])
      {
      }
    case _ =>
  }

  /** The enhance request schema's inferred type. */
  datatype EnhanceInput = EnhanceInput(
    topic: string,
    language: Language,
    complexity: Complexity,
    problemStatement: string,
    expectedOutput: string)

  function ParseEnhance(body: Json): (r: Option<EnhanceInput>)
    ensures r.Some? ==> |r.value.topic| >= 1 && |r.value.problemStatement| >= 1
    ensures r.Some? ==> Get(body, "expectedOutput") == Some(JStr(r.value.expectedOutput))
  {
    if !body.JObj? then None
    else
      var topic := NonEmptyString(body, "topic");
      var language := match RequiredString(body, "language")
        case Some(s) => ParseLanguage(s)
        case None => None;
      var complexity := match RequiredString(body, "complexity")
        case Some(s) => ParseComplexity(s)
        case None => None;
      var statement := NonEmptyString(body, "problemStatement");
      var expected := RequiredString(body, "expectedOutput");
      if topic.Some? && language.Some? && complexity.Some? && statement.Some? && expected.Some?
      then Some(EnhanceInput(topic.value, language.value, complexity.value, statement.value, expected.value))
      else None
  }

  function EncodeEnhance(x: EnhanceInput): Json {
    JObj(map[
      "topic" := JStr(x.topic),
      "language" := JStr(LanguageName(x.language)),
      "complexity" := JStr(ComplexityName(x.complexity)),
      "problemStatement" := JStr(x.problemStatement),
      "expectedOutput" := JStr(x.expectedOutput)])
  }

  /** An enhance request is accepted exactly when topic and statement are non-empty; the expected output may be empty. */
  lemma EnhanceRoundTrip(x: EnhanceInput)
    ensures ParseEnhance(EncodeEnhance(x)) == (if x.topic != "" && x.problemStatement != "" then Some(x) else None)
  {
    EnumNamesRoundTrip(x.language, x.complexity, Short, User, Correct);
  }

  /** An independent statement of what the enhance schema admits. */
  predicate EnhanceBodyValid(body: Json) {
    && body.JObj?
    && IsString(Get(body, "topic")) && Get(body, "topic").value.s != ""
    && IsString(Get(body, "language")) && Get(body, "language").value.s in {"java", "python", "c"}
    && IsString(Get(body, "complexity")) && Get(body, "complexity").value.s in {"easy", "medium", "hard"}
    && IsString(Get(body, "problemStatement")) && Get(body, "problemStatement").value.s != ""
    && IsString(Get(body, "expectedOutput"))
  }

  /** The enhance schema accepts a body exactly when the independent statement holds. */
  lemma EnhanceAcceptance(body: Json)
    ensures ParseEnhance(body).Some? <==> EnhanceBodyValid(body)
  {
  }

  /** The generate request schema's inferred type: the language is any non-empty string. */
  datatype GenerateInput = GenerateInput(language: string, complexity: Complexity, topic: string)

  function ParseGenerate(body: Json): (r: Option<GenerateInput>)
    ensures r.Some? ==> |r.value.language| >= 1 && |r.value.topic| >= 1
  {
    if !body.JObj? then None
    else
      var language := NonEmptyString(body, "language");
      var complexity := match RequiredString(body, "complexity")
        case Some(s) => ParseComplexity(s)
        case None => None;
      var topic := NonEmptyString(body, "topic");
      if language.Some? && complexity.Some? && topic.Some?
      then Some(GenerateInput(language.value, complexity.value, topic.value))
      else None
  }

  function EncodeGenerate(x: GenerateInput): Json {
    JObj(map[
      "language" := JStr(x.language),
      "complexity" := JStr(ComplexityName(x.complexity)),
      "topic" := JStr(x.topic)])
  }

  /** Any non-empty language string passes, enum member or not. */
  lemma GenerateRoundTrip(x: GenerateInput)
    ensures ParseGenerate(EncodeGenerate(x)) == (if x.language != "" && x.topic != "" then Some(x) else None)
  {
    EnumNamesRoundTrip(Java, x.complexity, Short, User, Correct);
  }

  /** An independent statement of what the generate schema admits: only the complexity is an enum. */
  predicate GenerateBodyValid(body: Json) {
    && body.JObj?
    && IsString(Get(body, "language")) && Get(body, "language").value.s != ""
    && IsString(Get(body, "complexity")) && Get(body, "complexity").value.s in {"easy", "medium", "hard"}
    && IsString(Get(body, "topic")) && Get(body, "topic").value.s != ""
  }

  /** The generate schema accepts a body exactly when the independent statement holds. */
  lemma GenerateAcceptance(body: Json)
    ensures ParseGenerate(body).Some? <==> GenerateBodyValid(body)
  {
  }

  /** The shared inferred type of the check and run request schemas. */
  datatype CodeInput = CodeInput(code: string, language: string, problem: string)

  /** The check and run request schemas, which have the same three non-empty string fields. */
  function ParseCodeRequest(body: Json): (r: Option<CodeInput>)
    ensures r.Some? <==> (body.JObj?
      && NonEmptyString(body, "code").Some?
      && NonEmptyString(body, "language").Some?
      && NonEmptyString(body, "problem").Some?)
    ensures r.Some? ==> Get(body, "code") == Some(JStr(r.value.code)) && |r.value.code| >= 1
  {
    if !body.JObj? then None
    else
      var code := NonEmptyString(body, "code");
      var language := NonEmptyString(body, "language");
      var problem := NonEmptyString(body, "problem");
      if code.Some? && language.Some? && problem.Some?
      then Some(CodeInput(code.value, language.value, problem.value))
      else None
  }

  function EncodeCodeRequest(x: CodeInput): Json {
    JObj(map["code" := JStr(x.code), "language" := JStr(x.language), "problem" := JStr(x.problem)])
  }

  /** The length test is the only test: code made of white space alone is accepted. */
  lemma CodeRequestRoundTrip(x: CodeInput)
    ensures ParseCodeRequest(EncodeCodeRequest(x)) == (if x.code != "" && x.language != "" && x.problem != "" then Some(x) else None)
  {
  }

  /**
   * The run flow's own input schema: `problemStatement` and `expectedOutput`
   * are required strings, and `language` is an enum.
   */
  predicate RunFlowAccepts(body: Json) {
    && body.JObj?
    && IsString(Get(body, "code"))
    && IsString(Get(body, "language")) && ParseLanguage(Get(body, "language").value.s).Some?
    && IsString(Get(body, "problemStatement"))
    && IsString(Get(body, "expectedOutput"))
  }
}
