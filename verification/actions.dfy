/**
 * The server actions: each forwards its input to a flow unchanged and
 * rethrows a failure under its own message. No action runs the request
 * schemas; the flow is a parameter.
 */
module Actions {
  import opened Wrappers
  import opened Domain
  import Schemas

  const ChatbotFailurePrefix := "Failed to get response from chatbot: "
  const UnknownError := "Unknown error"
  const EnhanceFailure := "Failed to enhance imported problem."
  const GenerateFailure := "Failed to generate problem."
  const CheckFailure := "Failed to check code."
  const RunFailure := "Failed to run code."

  /** Call `flow` on `input`; a rejection becomes `failure(error)`. */
  function Forward<I, O>(input: I, flow: I -> Result<O, Thrown>, failure: Thrown -> string): (r: Result<O, string>)
    ensures r.Success? <==> flow(input).Success?
    ensures r.Success? ==> r.value == flow(input).value
    ensures r.Failure? ==> r.error == failure(flow(input).error)
  {
    match flow(input)
    case Success(v) => Success(v)
    case Failure(e) => Failure(failure(e))
  }

  /** The chatbot action's message: the prefix, then the error's message or "Unknown error". */
  function ChatbotFailureMessage(e: Thrown): (m: string)
    ensures |m| >= |ChatbotFailurePrefix| && m[..|ChatbotFailurePrefix|] == ChatbotFailurePrefix
    ensures e.ErrorValue? ==> m[|ChatbotFailurePrefix|..] == e.message
    ensures e.OtherValue? ==> m[|ChatbotFailurePrefix|..] == UnknownError
  {
    ChatbotFailurePrefix + (match e case ErrorValue(msg) => msg case OtherValue => UnknownError)
  }

  function AskChatbotAction<I, O>(input: I, flow: I -> Result<O, Thrown>): Result<O, string> {
    Forward(input, flow, ChatbotFailureMessage)
  }

  function EnhanceImportedProblemAction<I, O>(input: I, flow: I -> Result<O, Thrown>): Result<O, string> {
    Forward(input, flow, _ => EnhanceFailure)
  }

  function GenerateProblemAction<I, O>(input: I, flow: I -> Result<O, Thrown>): Result<O, string> {
    Forward(input, flow, _ => GenerateFailure)
  }

  function CheckCodeAction<I, O>(input: I, flow: I -> Result<O, Thrown>): Result<O, string> {
    Forward(input, flow, _ => CheckFailure)
  }

  function RunCodeAction<I, O>(input: I, flow: I -> Result<O, Thrown>): Result<O, string> {
    Forward(input, flow, _ => RunFailure)
  }

  /**
   * The four fixed-message actions pass a fulfilled result through unchanged
   * and reject with their own message, one distinct message per action,
   * whatever the flow threw.
   */
  lemma FixedMessageActions<I, O>(input: I, flow: I -> Result<O, Thrown>)
    ensures flow(input).Success? ==>
      && EnhanceImportedProblemAction(input, flow) == Success(flow(input).value)
      && GenerateProblemAction(input, flow) == Success(flow(input).value)
      && CheckCodeAction(input, flow) == Success(flow(input).value)
      && RunCodeAction(input, flow) == Success(flow(input).value)
    ensures flow(input).Failure? ==>
      && EnhanceImportedProblemAction(input, flow) == Failure(EnhanceFailure)
      && GenerateProblemAction(input, flow) == Failure(GenerateFailure)
      && CheckCodeAction(input, flow) == Failure(CheckFailure)
      && RunCodeAction(input, flow) == Failure(RunFailure)
    ensures |{EnhanceFailure, GenerateFailure, CheckFailure, RunFailure}| == 4
  {
  }

  /** The chatbot action passes results through and reports the underlying message after its prefix. */
  lemma ChatbotActionOutcome<I, O>(input: I, flow: I -> Result<O, Thrown>)
    ensures flow(input).Success? ==> AskChatbotAction(input, flow) == Success(flow(input).value)
    ensures flow(input) == Failure(OtherValue) ==>
      AskChatbotAction(input, flow) == Failure("Failed to get response from chatbot: Unknown error")
    ensures forall msg :: flow(input) == Failure(ErrorValue(msg)) ==>
      AskChatbotAction(input, flow) == Failure(ChatbotFailurePrefix + msg)
  {
    assert ChatbotFailurePrefix + UnknownError == "Failed to get response from chatbot: Unknown error";
  }

  /**
   * No action validates: every generate request, including one the generate
   * schema refuses (an empty language or topic), reaches the flow, and its
   * result comes back unchanged.
   */
  lemma ActionsSkipValidation(x: Schemas.GenerateInput, flow: Schemas.GenerateInput -> Result<Problem, Thrown>)
    ensures Schemas.ParseGenerate(Schemas.EncodeGenerate(x)) == None <==> (x.language == "" || x.topic == "")
    ensures flow(x).Success? ==> GenerateProblemAction(x, flow) == Success(flow(x).value)
    ensures flow(x).Failure? ==> GenerateProblemAction(x, flow) == Failure(GenerateFailure)
  {
    Schemas.GenerateRoundTrip(x);
  }
}
