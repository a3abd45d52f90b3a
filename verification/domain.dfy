/** The entities the page, the widgets and the flows exchange. */
module Domain {
  import opened Wrappers

  datatype Language = Java | Python | C
  datatype Complexity = Easy | Medium | Hard
  /** The verbosity a chat message asks for. */
  datatype ResponseLength = Short | Medium | Full
  datatype Sender = User | Bot
  /** The verdict vocabulary of a run. */
  datatype RunStatus = Correct | Halfway | Moderate | Fail

  function LanguageName(l: Language): string {
    match l
    case Java => "java"
    case Python => "python"
    case C => "c"
  }

  function ComplexityName(c: Complexity): string {
    match c
    case Easy => "easy"
    case Medium => "medium"
    case Hard => "hard"
  }

  function ResponseLengthName(r: ResponseLength): string {
    match r
    case Short => "short"
    case Medium => "medium"
    case Full => "full"
  }

  function SenderName(s: Sender): string {
    match s
    case User => "user"
    case Bot => "bot"
  }

  function RunStatusName(s: RunStatus): string {
    match s
    case Correct => "correct"
    case Halfway => "halfway"
    case Moderate => "moderate"
    case Fail => "fail"
  }

  /** `z.enum(['java', 'python', 'c'])`. */
  function ParseLanguage(s: string): (r: Option<Language>)
    ensures r.Some? <==> s in {"java", "python", "c"}
    ensures r.Some? ==> LanguageName(r.value) == s
  {
    if s == "java" then Some(Java)
    else if s == "python" then Some(Python)
    else if s == "c" then Some(C)
    else None
  }

  /** `z.enum(['easy', 'medium', 'hard'])`. */
  function ParseComplexity(s: string): (r: Option<Complexity>)
    ensures r.Some? <==> s in {"easy", "medium", "hard"}
    ensures r.Some? ==> ComplexityName(r.value) == s
  {
    if s == "easy" then Some(Easy)
    else if s == "medium" then Some(Complexity.Medium)
    else if s == "hard" then Some(Hard)
    else None
  }

  /** `z.enum(['short', 'medium', 'full'])`. */
  function ParseResponseLength(s: string): (r: Option<ResponseLength>)
    ensures r.Some? <==> s in {"short", "medium", "full"}
    ensures r.Some? ==> ResponseLengthName(r.value) == s
  {
    if s == "short" then Some(Short)
    else if s == "medium" then Some(ResponseLength.Medium)
    else if s == "full" then Some(Full)
    else None
  }

  /** `z.enum(['user', 'bot'])`. */
  function ParseSender(s: string): (r: Option<Sender>)
    ensures r.Some? <==> s in {"user", "bot"}
    ensures r.Some? ==> SenderName(r.value) == s
  {
    if s == "user" then Some(User)
    else if s == "bot" then Some(Bot)
    else None
  }

  /** The `status` field of a run result: exactly four words are admitted. */
  function ParseRunStatus(s: string): (r: Option<RunStatus>)
    ensures r.Some? <==> s in {"correct", "halfway", "moderate", "fail"}
    ensures r.Some? ==> RunStatusName(r.value) == s
  {
    if s == "correct" then Some(Correct)
    else if s == "halfway" then Some(Halfway)
    else if s == "moderate" then Some(Moderate)
    else if s == "fail" then Some(Fail)
    else None
  }

  /** Every enum's name parses back to the same constructor. */
  lemma EnumNamesRoundTrip(l: Language, c: Complexity, r: ResponseLength, s: Sender, st: RunStatus)
    ensures ParseLanguage(LanguageName(l)) == Some(l)
    ensures ParseComplexity(ComplexityName(c)) == Some(c)
    ensures ParseResponseLength(ResponseLengthName(r)) == Some(r)
    ensures ParseSender(SenderName(s)) == Some(s)
    ensures ParseRunStatus(RunStatusName(st)) == Some(st)
  {
  }

  /** A chat message; the timestamp is left out and the id is supplied by the caller. */
  datatype ChatMessage = ChatMessage(id: string, sender: Sender, text: string, responseLength: Option<ResponseLength>)

  /** Some message of `h` carries `id`. */
  predicate HasId(h: seq<ChatMessage>, id: string) {
    exists i :: 0 <= i < |h| && h[i].id == id
  }

  /** No two messages of `h` share an id. */
  predicate DistinctIds(h: seq<ChatMessage>) {
    forall i, j :: 0 <= i < j < |h| ==> h[i].id != h[j].id
  }

  /** A problem produced by the generate or enhance flow, or imported. */
  datatype Problem = Problem(problemStatement: string, expectedOutput: string, codeSkeleton: Option<string>)

  /** The check flow's result. */
  datatype CheckOutput = CheckOutput(feedback: string, suggestions: string)

  /** The run flow's result. */
  datatype RunOutput = RunOutput(status: RunStatus, output: string)

  /** What a failing call throws: an `Error` with a message, or any other value. */
  datatype Thrown = ErrorValue(message: string) | OtherValue
}
