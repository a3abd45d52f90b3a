/**
 * The page's orchestration state and its handlers as state transformers.
 * Each asynchronous handler is split into a start step (the synchronous
 * part, which also yields the request sent to the action) and a finish
 * step that consumes the action's settled result. Chat submission is one
 * atomic step.
 */
module Page {
  import opened Wrappers
  import opened Text
  import opened Domain
  import Schemas

  datatype State = State(
    topic: string,
    language: Language,
    complexity: Complexity,
    problem: Option<Problem>,
    code: string,
    feedback: Option<CheckOutput>,
    runResult: Option<RunOutput>,
    chatHistory: seq<ChatMessage>,
    isTyping: bool,
    isGenerating: bool,
    isChecking: bool,
    isRunning: bool)

  /** The state on first render. */
  const Initial := State("Fibonacci Sequence", Java, Easy, None, "", None, None, [], false, false, false, false)

  /** A start step's new state, and the request it hands to the action (`None`: no call is made). */
  datatype Started<R> = Started(state: State, request: Option<R>)

  /** `result.codeSkeleton || ''`. */
  function SkeletonOrEmpty(p: Problem): string {
    p.codeSkeleton.GetOr("")
  }

  /** The session parts a new problem resets. */
  predicate FreshSession(s: State) {
    s.feedback == None && s.runResult == None && s.chatHistory == []
  }

  // ----------------------------------------------------------------- generate

  function GenerateStart(s: State, topic: string, language: Language, complexity: Complexity): (r: Started<Schemas.GenerateInput>)
    ensures r.request == Some(Schemas.GenerateInput(LanguageName(language), complexity, topic))
    ensures r.state.isGenerating
  {
    Started(
      s.(topic := topic, language := language, complexity := complexity,
         problem := None, feedback := None, runResult := None, chatHistory := [],
         isGenerating := true),
      Some(Schemas.GenerateInput(LanguageName(language), complexity, topic)))
  }

  /** A settled generation: success installs the problem and its skeleton (or `''`); failure only lowers the flag. */
  function GenerateFinish(s: State, outcome: Result<Problem, string>): (r: State)
    ensures !r.isGenerating
    ensures outcome.Success? ==> r == s.(problem := Some(outcome.value), code := SkeletonOrEmpty(outcome.value), isGenerating := false)
    ensures outcome.Failure? ==> r == s.(isGenerating := false)
  {
    match outcome
    case Success(p) => s.(problem := Some(p), code := SkeletonOrEmpty(p), isGenerating := false)
    case Failure(_) => s.(isGenerating := false)
  }

  /**
   * A generation takes its arguments, clears the problem and the session,
   * and leaves the code alone until it settles; success installs the problem
   * and its skeleton, failure leaves no problem and the old code.
   */
  lemma GenerateEffect(s: State, topic: string, language: Language, complexity: Complexity, outcome: Result<Problem, string>)
    ensures var mid := GenerateStart(s, topic, language, complexity).state;
      var r := GenerateFinish(mid, outcome);
      && mid.topic == topic && mid.language == language && mid.complexity == complexity
      && mid.problem == None && FreshSession(mid) && mid.code == s.code
      && r.topic == topic && r.language == language && r.complexity == complexity
      && FreshSession(r) && !r.isGenerating
      && (outcome.Success? ==> r.problem == Some(outcome.value) && r.code == SkeletonOrEmpty(outcome.value))
      && (outcome.Failure? ==> r.problem == None && r.code == s.code)
      && r.isChecking == s.isChecking && r.isRunning == s.isRunning && r.isTyping == s.isTyping
  {
  }

  // -------------------------------------------------------------- check / run

  /** Why a check or run request was turned away, or that it went ahead. */
  datatype Gate = EmptyCode | NoProblem | Accepted

  /** Blank code is rejected first; a check then needs a non-empty problem statement. */
  function CheckGate(s: State): Gate {
    if Trim(s.code) == "" then EmptyCode
    else if s.problem.None? || s.problem.value.problemStatement == "" then NoProblem
    else Accepted
  }

  /** Blank code is rejected first; a run then needs only a problem object. */
  function RunGate(s: State): Gate {
    if Trim(s.code) == "" then EmptyCode
    else if s.problem.None? then NoProblem
    else Accepted
  }

  function CheckStart(s: State): (r: Started<Schemas.CodeInput>)
    ensures r.request.Some? <==> CheckGate(s) == Accepted
    ensures r.request.Some? ==> r.request.value.problem == s.problem.value.problemStatement && r.request.value.code == s.code
    ensures r.request.Some? ==> r.request.value.language == LanguageName(s.language)
    ensures r.request.Some? ==> r.state == s.(feedback := None, isChecking := true)
    ensures r.request.None? ==> r.state == s
  {
    if CheckGate(s) != Accepted then Started(s, None)
    else Started(
      s.(feedback := None, isChecking := true),
      Some(Schemas.CodeInput(s.code, LanguageName(s.language), s.problem.value.problemStatement)))
  }

  /** A settled check: success stores the feedback; failure only lowers the flag. */
  function CheckFinish(s: State, outcome: Result<CheckOutput, string>): (r: State)
    ensures !r.isChecking
    ensures outcome.Success? ==> r == s.(feedback := Some(outcome.value), isChecking := false)
    ensures outcome.Failure? ==> r == s.(isChecking := false)
  {
    match outcome
    case Success(v) => s.(feedback := Some(v), isChecking := false)
    case Failure(_) => s.(isChecking := false)
  }

  function RunStart(s: State): (r: Started<Schemas.CodeInput>)
    ensures r.request.Some? <==> RunGate(s) == Accepted
    ensures r.request.Some? ==> r.request.value.problem == s.problem.value.problemStatement && r.request.value.code == s.code
    ensures r.request.Some? ==> r.request.value.language == LanguageName(s.language)
    ensures r.request.Some? ==> r.state == s.(runResult := None, isRunning := true)
    ensures r.request.None? ==> r.state == s
  {
    if RunGate(s) != Accepted then Started(s, None)
    else Started(
      s.(runResult := None, isRunning := true),
      Some(Schemas.CodeInput(s.code, LanguageName(s.language), s.problem.value.problemStatement)))
  }

  /** A settled run: success stores the result; failure only lowers the flag. */
  function RunFinish(s: State, outcome: Result<RunOutput, string>): (r: State)
    ensures !r.isRunning
    ensures outcome.Success? ==> r == s.(runResult := Some(outcome.value), isRunning := false)
    ensures outcome.Failure? ==> r == s.(isRunning := false)
  {
    match outcome
    case Success(v) => s.(runResult := Some(v), isRunning := false)
    case Failure(_) => s.(isRunning := false)
  }

  /** The whole check: rejected requests change nothing; accepted ones touch only the feedback slot. */
  function Check(s: State, outcome: Result<CheckOutput, string>): State {
    var st := CheckStart(s);
    if st.request.None? then s else CheckFinish(st.state, outcome)
  }

  /** The whole run: rejected requests change nothing; accepted ones touch only the run slot. */
  function Run(s: State, outcome: Result<RunOutput, string>): State {
    var st := RunStart(s);
    if st.request.None? then s else RunFinish(st.state, outcome)
  }

  lemma CheckEffect(s: State, outcome: Result<CheckOutput, string>)
    ensures CheckGate(s) != Accepted ==> Check(s, outcome) == s
    ensures CheckGate(s) == Accepted ==>
      && Check(s, outcome) == s.(feedback := Check(s, outcome).feedback, isChecking := false)
      && Check(s, outcome).feedback == (if outcome.Success? then Some(outcome.value) else None)
  {
    var st := CheckStart(s);
    if CheckGate(s) == Accepted {
      assert st.state == s.(feedback := None, isChecking := true);
      match outcome
      case Success(v) => assert Check(s, outcome) == s.(feedback := Some(v), isChecking := false);
      case Failure(_) => assert Check(s, outcome) == s.(feedback := None, isChecking := false);
    }
  }

  lemma RunEffect(s: State, outcome: Result<RunOutput, string>)
    ensures RunGate(s) != Accepted ==> Run(s, outcome) == s
    ensures RunGate(s) == Accepted ==>
      && Run(s, outcome) == s.(runResult := Run(s, outcome).runResult, isRunning := false)
      && Run(s, outcome).runResult == (if outcome.Success? then Some(outcome.value) else None)
  {
    var st := RunStart(s);
    if RunGate(s) == Accepted {
      assert st.state == s.(runResult := None, isRunning := true);
      match outcome
      case Success(v) => assert Run(s, outcome) == s.(runResult := Some(v), isRunning := false);
      case Failure(_) => assert Run(s, outcome) == s.(runResult := None, isRunning := false);
    }
  }

  /**
   * Guard order: blank code is reported as such even with no problem, and a
   * problem with an empty statement can be run but not checked.
   */
  lemma GateOrder(s: State)
    ensures Trim(s.code) == "" ==> CheckGate(s) == EmptyCode && RunGate(s) == EmptyCode
    ensures IsBlank(s.code) <==> CheckGate(s) == EmptyCode
    ensures CheckGate(s) == Accepted ==> RunGate(s) == Accepted
    ensures Trim(s.code) != "" && s.problem.Some? && s.problem.value.problemStatement == "" ==>
      CheckGate(s) == NoProblem && RunGate(s) == Accepted
  {
    TrimEmptyIffBlank(s.code);
  }

  /**
   * The page's run request carries `problem` where the run flow's schema
   * requires `problemStatement` and `expectedOutput`, so the flow refuses
   * every run the page sends.
   */
  lemma PageRunRequestRefusedByRunFlow(s: State)
    ensures RunStart(s).request.Some? ==> !Schemas.RunFlowAccepts(Schemas.EncodeCodeRequest(RunStart(s).request.value))
  {
  }

  // --------------------------------------------------------------------- chat

  const NoProblemNotice := "I need a coding problem to work with! Please wait for the problem to load, or generate a new one using the \"Generate Problem\" button. Once you have a problem, I can help you with specific questions about it."
  const LoadingNotice := "Please wait, I'm still loading the problem. Once it's ready, I can help you with it!"
  const UnexpectedFormat := "Sorry, I received an unexpected response format. Please try again."
  const ChatError := "Sorry, I encountered an error. Please try again."

  /** The shapes the chatbot action's result is matched against. */
  datatype ChatReply = TextReply(text: string) | ObjectReply(fields: map<string, string>) | OtherReply

  /** A string reply as is; else an `answer` field; else a `response` field; else a fixed notice. */
  function NormaliseAnswer(reply: ChatReply): (a: string)
    ensures a == UnexpectedFormat
      || (reply.TextReply? && a == reply.text)
      || (reply.ObjectReply? && a in reply.fields.Values)
  {
    match reply
    case TextReply(t) => t
    case ObjectReply(f) =>
      if "answer" in f then f["answer"]
      else if "response" in f then f["response"]
      else UnexpectedFormat
    case OtherReply => UnexpectedFormat
  }

  /**
   * For every reply: a string is used as is; an `answer` field wins over
   * anything else the object holds; without one a `response` field is
   * used; an object with neither, or any other value, gives the notice.
   */
  lemma NormaliseAnswerPrecedence(t: string, f: map<string, string>, a: string, b: string)
    ensures NormaliseAnswer(TextReply(t)) == t
    ensures NormaliseAnswer(ObjectReply(f["answer" := a])) == a
    ensures "answer" !in f ==> NormaliseAnswer(ObjectReply(f["response" := b])) == b
    ensures "answer" !in f && "response" !in f ==> NormaliseAnswer(ObjectReply(f)) == UnexpectedFormat
    ensures NormaliseAnswer(OtherReply) == UnexpectedFormat
  {
  }

  /** The request the page gives the chatbot action. */
  datatype AskRequest = AskRequest(
    question: string,
    problemStatement: string,
    code: string,
    language: Language,
    history: seq<ChatMessage>,
    responseLength: ResponseLength)

  datatype ChatTurn = ChatTurn(state: State, request: Option<AskRequest>)

  /** Whether a chat submission reaches the flow. */
  predicate ChatReachesFlow(s: State) {
    s.problem.Some? && s.problem.value.problemStatement != "" && !s.isGenerating
  }

  /** The text of the bot message a submission appends. */
  function BotReplyText(s: State, reply: Result<ChatReply, string>): string {
    if s.problem.None? || s.problem.value.problemStatement == "" then NoProblemNotice
    else if s.isGenerating then LoadingNotice
    else match reply
      case Success(r) => NormaliseAnswer(r)
      case Failure(_) => ChatError
  }

  /**
   * One chat submission: the user message, then exactly one bot message.
   * `reply` is the action's settled result and is read only when the flow
   * is called; the two ids stand for the clock readings the source uses.
   */
  function ChatSubmit(s: State, message: string, length: ResponseLength, userId: string, botId: string,
                      reply: Result<ChatReply, string>): (t: ChatTurn)
    ensures var h := t.state.chatHistory; var n := |s.chatHistory|;
      && |h| == n + 2 && h[..n] == s.chatHistory
      && h[n] == ChatMessage(userId, User, message, Some(length))
      && h[n + 1].id == botId && h[n + 1].sender == Bot && h[n + 1].responseLength == Some(length)
    ensures t.state.chatHistory[|s.chatHistory| + 1].text in
      {NoProblemNotice, LoadingNotice, ChatError, UnexpectedFormat} ||
      (reply.Success? && t.state.chatHistory[|s.chatHistory| + 1].text == NormaliseAnswer(reply.value))
    ensures var text := t.state.chatHistory[|s.chatHistory| + 1].text;
      && (s.problem.None? || s.problem.value.problemStatement == "" ==> text == NoProblemNotice)
      && (s.problem.Some? && s.problem.value.problemStatement != "" && s.isGenerating ==> text == LoadingNotice)
      && (ChatReachesFlow(s) && reply.Failure? ==> text == ChatError)
      && (ChatReachesFlow(s) && reply.Success? ==> text == NormaliseAnswer(reply.value))
    ensures !t.state.isTyping
    ensures t.request.Some? <==> ChatReachesFlow(s)
    ensures t.request.Some? ==> t.request.value.history == s.chatHistory && t.request.value.question == message
    ensures t.request.Some? ==>
      && t.request.value.problemStatement == s.problem.value.problemStatement
      && t.request.value.code == s.code && t.request.value.language == s.language
      && t.request.value.responseLength == length
    ensures t.state == s.(chatHistory := t.state.chatHistory, isTyping := false)
  {
    var user := ChatMessage(userId, User, message, Some(length));
    var bot := ChatMessage(botId, Bot, BotReplyText(s, reply), Some(length));
    var request :=
      if ChatReachesFlow(s)
      then Some(AskRequest(message, s.problem.value.problemStatement, s.code, s.language, s.chatHistory, length))
      else None;
    ChatTurn(s.(chatHistory := s.chatHistory + [user, bot], isTyping := false), request)
  }

  /** A submission as a value, for replaying a conversation. */
  datatype Submission = Submission(message: string, length: ResponseLength, userId: string, botId: string,
                                   reply: Result<ChatReply, string>)

  function Converse(s: State, subs: seq<Submission>): State
    decreases |subs|
  {
    if subs == [] then s
    else
      var x := subs[0];
      Converse(ChatSubmit(s, x.message, x.length, x.userId, x.botId, x.reply).state, subs[1..])
  }

  /** From position `n` on, `h` holds one user message and one bot message per submission, in order. */
  predicate Alternating(h: seq<ChatMessage>, n: nat, subs: seq<Submission>) {
    && |h| == n + 2 * |subs|
    && forall k :: 0 <= k < |subs| ==>
         h[n + 2 * k].sender == User && h[n + 2 * k].text == subs[k].message && h[n + 2 * k + 1].sender == Bot
  }

  lemma AlternatingCons(h: seq<ChatMessage>, n: nat, subs: seq<Submission>)
    requires subs != [] && |h| >= n + 2
    requires h[n].sender == User && h[n].text == subs[0].message && h[n + 1].sender == Bot
    requires Alternating(h, n + 2, subs[1..])
    ensures Alternating(h, n, subs)
  {
    forall k | 0 <= k < |subs|
      ensures h[n + 2 * k].sender == User && h[n + 2 * k].text == subs[k].message && h[n + 2 * k + 1].sender == Bot
    {
      if k > 0 {
        assert subs[k] == subs[1..][k - 1];
        assert n + 2 * k == (n + 2) + 2 * (k - 1);
      }
    }
  }

  /** One submission as a step of a conversation: the user message and one bot message after the old history. */
  lemma SubmitStep(s: State, x: Submission)
    ensures var h := ChatSubmit(s, x.message, x.length, x.userId, x.botId, x.reply).state.chatHistory;
      var n := |s.chatHistory|;
      |h| == n + 2 && h[..n] == s.chatHistory && h[n].sender == User && h[n].text == x.message && h[n + 1].sender == Bot
    ensures !ChatSubmit(s, x.message, x.length, x.userId, x.botId, x.reply).state.isTyping
  {
  }

  /** After N submissions the history has grown by 2N messages, alternating user and bot. */
  lemma {:induction false} ConverseAlternates(s: State, subs: seq<Submission>)
    ensures var h := Converse(s, subs).chatHistory;
      Alternating(h, |s.chatHistory|, subs) && h[..|s.chatHistory|] == s.chatHistory
    ensures !Converse(s, subs).isTyping || subs == []
    decreases |subs|
  {
    if subs != [] {
      var x := subs[0];
      var s1 := ChatSubmit(s, x.message, x.length, x.userId, x.botId, x.reply).state;
      SubmitStep(s, x);
      ConverseAlternates(s1, subs[1..]);
      var h := Converse(s1, subs[1..]).chatHistory;
      var n := |s.chatHistory|;
      assert Converse(s, subs) == Converse(s1, subs[1..]);
      assert h[n] == s1.chatHistory[n] && h[n + 1] == s1.chatHistory[n + 1] by {
        assert h[..n + 2] == s1.chatHistory;
      }
      AlternatingCons(h, n, subs);
      assert h[..n] == s.chatHistory by {
        assert h[..n] == h[..n + 2][..n];
      }
      if subs[1..] == [] {
        assert Converse(s, subs) == s1;
      }
    }
  }

  // ------------------------------------------------------ bot sync / new chat

  /** A bot message from the widget is appended unless its id is already present. */
  function BotResponse(s: State, m: ChatMessage): (r: State)
    ensures r == s || (m.sender == Bot && r == s.(chatHistory := s.chatHistory + [m]))
    ensures HasId(r.chatHistory, m.id) || m.sender != Bot
    ensures m.sender != Bot || HasId(s.chatHistory, m.id) ==> r == s
    ensures m.sender == Bot && !HasId(s.chatHistory, m.id) ==> r.chatHistory == s.chatHistory + [m]
  {
    if m.sender == Bot && !HasId(s.chatHistory, m.id) then
      var r := s.(chatHistory := s.chatHistory + [m]);
      assert r.chatHistory[|s.chatHistory|] == m;
      r
    else s
  }

  /** Bot-sync never introduces a duplicate id, and repeating it changes nothing. */
  lemma BotResponseKeepsIdsDistinct(s: State, m: ChatMessage)
    requires DistinctIds(s.chatHistory)
    ensures DistinctIds(BotResponse(s, m).chatHistory)
    ensures BotResponse(BotResponse(s, m), m) == BotResponse(s, m)
  {
    var h := s.chatHistory;
    if m.sender == Bot && !HasId(h, m.id) {
      var h' := h + [m];
      forall i, j | 0 <= i < j < |h'| ensures h'[i].id != h'[j].id {
        if j == |h| {
          assert h'[i] == h[i];
        } else {
          assert h'[i] == h[i] && h'[j] == h[j];
        }
      }
    }
  }

  function NewChat(s: State): (r: State)
    ensures r.chatHistory == []
    ensures r == s.(chatHistory := [])
  {
    s.(chatHistory := [])
  }

  // ------------------------------------------------------------------- import

  /** The data the import dialog hands over. */
  datatype ImportData = ImportData(
    problemStatement: string,
    expectedOutput: string,
    language: Language,
    complexity: Complexity,
    topic: string)

  function ImportStart(s: State, d: ImportData): (r: Started<Schemas.EnhanceInput>)
    ensures r.state == s.(isGenerating := true)
    ensures r.request.Some?
    ensures r.request.value.problemStatement == d.problemStatement && r.request.value.topic == d.topic
    ensures r.request.value.language == d.language && r.request.value.complexity == d.complexity
    ensures r.request.value.expectedOutput == d.expectedOutput
  {
    Started(
      s.(isGenerating := true),
      Some(Schemas.EnhanceInput(d.topic, d.language, d.complexity, d.problemStatement, d.expectedOutput)))
  }

  /** The problem an import installs: the enhanced text, or the raw text with an empty skeleton. */
  function ImportedProblem(d: ImportData, outcome: Result<Problem, string>): Problem {
    match outcome
    case Success(p) => Problem(p.problemStatement, p.expectedOutput, Some(SkeletonOrEmpty(p)))
    case Failure(_) => Problem(d.problemStatement, d.expectedOutput, Some(""))
  }

  function ImportFinish(s: State, d: ImportData, outcome: Result<Problem, string>): (r: State)
    ensures r.problem == Some(ImportedProblem(d, outcome))
  {
    s.(problem := Some(ImportedProblem(d, outcome)),
       language := d.language, complexity := d.complexity, topic := d.topic,
       code := "", feedback := None, runResult := None, chatHistory := [],
       isGenerating := false)
  }

  /**
   * Both branches of an import adopt the dialog's language, complexity and
   * topic, empty the code and reset the session; a failed enhancement falls
   * back to the raw statement and expected output.
   */
  lemma ImportEffect(s: State, d: ImportData, outcome: Result<Problem, string>)
    ensures var r := ImportFinish(ImportStart(s, d).state, d, outcome);
      && r.language == d.language && r.complexity == d.complexity && r.topic == d.topic
      && r.code == "" && FreshSession(r) && !r.isGenerating
      && r.problem.value.codeSkeleton.Some?
      && (outcome.Failure? ==> r.problem == Some(Problem(d.problemStatement, d.expectedOutput, Some(""))))
      && (outcome.Success? ==>
            && r.problem.value.problemStatement == outcome.value.problemStatement
            && r.problem.value.expectedOutput == outcome.value.expectedOutput
            && r.problem.value.codeSkeleton == Some(SkeletonOrEmpty(outcome.value)))
      && r.isChecking == s.isChecking && r.isRunning == s.isRunning
  {
  }

  /** On first render the page starts a generation with its initial selection. */
  lemma MountGenerates()
    ensures GenerateStart(Initial, Initial.topic, Initial.language, Initial.complexity).request
      == Some(Schemas.GenerateInput("java", Easy, "Fibonacci Sequence"))
  {
  }
}
