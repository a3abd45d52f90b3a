# CodeGym-AI, modelled in Dafny

CodeGym-AI is a browser-based coding-practice app. A page generates or
imports a problem, lets the learner edit, check and run code, and hosts a
chat assistant. Around the page sit a draggable panel layout and a
progress tracker. Every piece of real work (writing a problem, reviewing
code, answering a question) is a call to a hosted language model through
server actions and HTTP routes.

This project models the deterministic part of the app around those calls:

- the page's state and its handlers, as pure state transformers (`Page`);
- the chat widget: mode cycle, unread counter, local history mirrored
  in a key-value store, submit and sync (`ChatWidget`);
- the editor's button predicates, reset, download name and change
  normalisation (`Editor`);
- the problem panel's view selection, import dialog and preview
  truncation (`ProblemDisplay`);
- the panel layout geometry: clamped drag and resize, fullscreen toggle,
  reset, and a reachability invariant (`Layout`);
- the progress tracker's percentages, minute formatter, saved-data merge
  and achievement filter (`Progress`);
- the zod request schemas as parsers with encoders (`Schemas`);
- the server actions (`Actions`);
- the five POST route handlers (`Routes`);
- shared pieces: `Wrappers` (Option, Result), `Text` (JavaScript `trim`,
  number rendering), `Domain` (the enums and records), `Json` (request
  bodies, JavaScript truthiness, `||` defaults).

Each model flow is a parameter: a function from input to
`Success(value)` or `Failure(thrown)`, or the settled result handed to a
handler's finish step. An asynchronous page handler is split in two. A
start step holds the synchronous part and yields the request sent to the
action. A finish step consumes the settled result. Chat submission is a
single atomic step. A React effect is modelled as the transition that
follows the state change that triggers it. Timestamp-based ids are
parameters. Browser storage is a map. Layout coordinates and percentages
are `real`, and `Math.round(x)` is `floor(x + 0.5)`.

## Model

| member | source | states |
|---|---|---|
| Text.Trim | src/app/page.tsx:124 | `trim` removes a blank prefix and a blank suffix and leaves a result that starts and ends with a non-space character |
| Text.TrimEmptyIffBlank | src/components/chatbot.tsx:98 | the guard `!s.trim()` holds exactly when every character of `s` is white space |
| Text.TrimIdempotent | src/components/problem-display.tsx:71 | trimming an already trimmed string changes nothing |
| Text.NatToStringRoundTrip | src/components/progress-tracker.tsx:158 | reading the rendered decimal digits of a number gives the number back |
| Text.IntToString | src/components/progress-tracker.tsx:158 | the rendering of an integer starts with a minus sign exactly when the integer is negative |
| Domain.ParseLanguage | src/lib/types.ts:8 | the language enum admits exactly `java`, `python` and `c`, and the parsed value's name is the input |
| Domain.ParseComplexity | src/lib/types.ts:22 | the complexity enum admits exactly `easy`, `medium` and `hard` |
| Domain.ParseResponseLength | src/lib/types.ts:13 | the length enum admits exactly `short`, `medium` and `full` |
| Domain.ParseSender | src/lib/types.ts:10 | a history sender is exactly `user` or `bot` |
| Domain.ParseRunStatus | src/lib/types.ts:68-71 | a run status is exactly one of `correct`, `halfway`, `moderate`, `fail` |
| Domain.EnumNamesRoundTrip | src/lib/types.ts:8-13 | every enum value's name parses back to that value |
| Schemas.RequiredString | src/lib/types.ts:6 | a required string field is accepted exactly when present and a string |
| Schemas.NonEmptyString | src/lib/types.ts:5 | a `min(1)` field is accepted exactly when it is a present string of length at least one |
| Schemas.ParseHistory | src/lib/types.ts:9-12 | a history array is accepted exactly when every entry is, and the parse keeps length and order |
| Schemas.ParseAskChatbot | src/lib/types.ts:4-14 | an accepted chatbot request has a non-empty question; an absent `responseLength` becomes `medium`; absent `code` and `history` stay absent |
| Schemas.HistoryRoundTrip | src/lib/types.ts:9-12 | encoding a history and parsing it gives the same history |
| Schemas.AskChatbotRoundTrip | src/lib/types.ts:4-14 | an encoded chatbot request parses back to itself exactly when its question is non-empty |
| Schemas.AskChatbotAcceptance | src/lib/types.ts:4-14 | the chatbot schema accepts a body exactly when: question non-empty, statement a string, language in the enum, optional code a string, optional history entries valid, optional length in the enum |
| Schemas.ParseEnhance | src/lib/types.ts:19-25 | an accepted enhance request has a non-empty topic and statement, and its expected output is the body's string |
| Schemas.EnhanceRoundTrip | src/lib/types.ts:19-25 | an encoded enhance request is accepted exactly when topic and statement are non-empty; an empty expected output is fine |
| Schemas.EnhanceAcceptance | src/lib/types.ts:19-25 | the enhance schema accepts a body exactly when: topic and statement are non-empty strings, language and complexity are strings in their enums, and the expected output is a string |
| Schemas.ParseGenerate | src/lib/types.ts:30-34 | an accepted generate request has a non-empty language string and a non-empty topic |
| Schemas.GenerateRoundTrip | src/lib/types.ts:30-34 | an encoded generate request parses back to itself exactly when language and topic are non-empty, whatever the language string |
| Schemas.GenerateAcceptance | src/lib/types.ts:30-34 | the generate schema accepts a body exactly when: language and topic are non-empty strings and complexity is a string in its enum; the language is not checked against an enum |
| Schemas.ParseCodeRequest | src/lib/types.ts:39-52 | the check and run schemas accept exactly a body whose `code`, `language` and `problem` are non-empty strings |
| Schemas.CodeRequestRoundTrip | src/lib/types.ts:39-52 | an encoded check or run request parses back to itself exactly when code, language and problem are non-empty; white-space code therefore passes |
| Actions.Forward | src/app/actions.ts:40-48 | an action succeeds exactly when its flow does, returns the flow's value unchanged, and rejects with its own message for the thrown value |
| Actions.ChatbotFailureMessage | src/app/actions.ts:36 | the chatbot failure text is the fixed prefix followed by the error's message, or by `Unknown error` for a non-Error throw |
| Actions.FixedMessageActions | src/app/actions.ts:40-78 | the enhance, generate, check and run actions pass results through and reject with four distinct fixed messages |
| Actions.ChatbotActionOutcome | src/app/actions.ts:18-38 | the chatbot action passes results through and reports the underlying message after its prefix |
| Actions.ActionsSkipValidation | src/app/actions.ts:50-58 | every generate request reaches the flow, including those the schema refuses (exactly the ones with an empty language or topic); the flow's value comes back unchanged, and a throw gives the fixed message |
| Routes.ChatbotPost | src/app/api/genkit/flows/chatbot/route.ts:4-33 | the flow is called exactly when the body is readable and `question` truthy; a falsy question gives 400 `Question is required`; status 200 exactly when the flow settles with a non-null value; the 200 body is `{answer: result.answer}`, with the key dropped when the answer is undefined |
| Routes.ChatbotRouteDefaults | src/app/api/genkit/flows/chatbot/route.ts:7-23 | the flow input has the six keys; the length defaults to `medium` only when absent; falsy statement, code, language and history become `''`, `''`, `java` and `[]` |
| Routes.ChatbotRouteMeetsSchema | src/app/api/genkit/flows/chatbot/route.ts:16-23 | a body whose present fields are well typed yields a flow input the chatbot schema accepts |
| Routes.EnhancePost | src/app/api/genkit/flows/enhance-problem/route.ts:4-32 | the flow is called exactly when `rawProblem` is truthy, with the fixed input; a falsy one gives 400; the answer is `{response}` or 500 |
| Routes.EnhanceRouteIgnoresBody | src/app/api/genkit/flows/enhance-problem/route.ts:16-22 | two bodies with the same `rawProblem` are handled identically, and the forwarded input has an empty topic, which the enhance schema refuses |
| Routes.GeneratePost | src/app/api/genkit/flows/generate-problem/route.ts:4-30 | the flow is called exactly when language, complexity and topic are all truthy, with exactly those three values; otherwise 400 |
| Routes.GenerateRouteSkipsEnumCheck | src/app/api/genkit/flows/generate-problem/route.ts:9-20 | every body with truthy language, complexity and topic reaches the flow with its complexity as sent and no `hints` key; a string complexity outside the enum is among them, though the generate schema refuses it |
| Routes.RunPost | src/app/api/genkit/flows/run-code/route.ts:4-31 | the flow is called exactly when code, language and problem are truthy; `problem` is forwarded as `problemStatement` with an empty `expectedOutput` |
| Routes.RunRouteMeetsRunFlowSchema | src/app/api/genkit/flows/run-code/route.ts:16-21 | with string fields and an enum language, the run route's flow input meets the run flow's own schema |
| Routes.CheckPost | src/app/api/genkit/flows/check-code/route.ts:4-29 | the flow is called exactly when code, language and problem are truthy, with code and language only |
| Routes.CheckRouteDropsProblem | src/app/api/genkit/flows/check-code/route.ts:9-19 | bodies differing only in a truthy `problem` give the same flow call and response; `problem` is never forwarded |
| Routes.UnreadableBodyIsServerError | src/app/api/genkit/flows/check-code/route.ts:5-28 | a body that is not JSON, or is `null`, gives each route's 500 and no flow call |
| Page.GenerateStart | src/app/page.tsx:93-109 | the request carries the new topic, language and complexity, and the generating flag is raised |
| Page.GenerateFinish | src/app/page.tsx:103-120 | success installs the problem and its skeleton, or `''` without one; failure changes nothing but the flag; the generating flag ends lowered |
| Page.GenerateEffect | src/app/page.tsx:93-121 | a generation adopts its arguments, clears the problem, feedback, run result and chat, and keeps the code; success installs the problem and its skeleton or `''`; failure leaves no problem and the old code |
| Page.MountGenerates | src/app/page.tsx:384-387 | the first render requests a problem for the initial topic, `java` and `easy` |
| Page.CheckStart | src/app/page.tsx:123-148 | a check request is sent exactly when the gate accepts; it carries the code, the page language and the statement, and clears the old feedback; a refused check leaves the state unchanged |
| Page.CheckFinish | src/app/page.tsx:142-155 | success stores the feedback; failure leaves the cleared slot empty; the checking flag ends lowered |
| Page.CheckEffect | src/app/page.tsx:123-156 | a refused check changes nothing; an accepted one changes only the feedback slot, which holds the result on success and is empty on failure |
| Page.RunStart | src/app/page.tsx:158-184 | a run request is sent exactly when the gate accepts; it carries the code, the page language and the statement, and clears the old result; a refused run leaves the state unchanged |
| Page.RunFinish | src/app/page.tsx:177-194 | success stores the run result; failure leaves the cleared slot empty; the running flag ends lowered |
| Page.RunEffect | src/app/page.tsx:158-195 | a refused run changes nothing; an accepted one changes only the run slot, which holds the result on success and is empty on failure |
| Page.GateOrder | src/app/page.tsx:124-140 | blank code is reported before a missing problem; a problem with an empty statement can be run but not checked |
| Page.NormaliseAnswer | src/app/page.tsx:259-270 | the text shown is the reply string, one of the reply object's own field values, or the unexpected-format notice; nothing else |
| Page.PageRunRequestRefusedByRunFlow | src/app/page.tsx:180-184 | the page's run request lacks `problemStatement` and `expectedOutput`, so the run flow's schema refuses every one |
| Page.NormaliseAnswerPrecedence | src/app/page.tsx:260-270 | for every reply: a string is used as is; an `answer` field wins whatever else the object holds; without it a `response` field is used; an object with neither, or any other value, gives the unexpected-format text |
| Page.ChatSubmit | src/app/page.tsx:197-295 | a submission appends the user message and exactly one bot message; the bot text is the no-problem notice when no problem with a statement is loaded, else the loading notice while generating, else the error text on failure or the normalised answer on success; typing ends false; the flow is called exactly when a problem with a statement is loaded and no generation runs, with the question, statement, code, language, length and the history from before the user message; nothing else changes |
| Page.ConverseAlternates | src/app/page.tsx:206-295 | after N submissions the history has grown by 2N messages, user and bot alternating, each user message carrying its text |
| Page.BotResponse | src/app/page.tsx:297-302 | `handleBotResponse`, which nothing calls (see Left out): a bot message with a new id is appended; a user message or a known id leaves the state unchanged |
| Page.BotResponseKeepsIdsDistinct | src/app/page.tsx:297-302 | bot-sync keeps message ids distinct, and repeating it changes nothing |
| Page.NewChat | src/app/page.tsx:380-382 | new chat empties the history and touches nothing else |
| Page.ImportStart | src/app/page.tsx:312-320 | an import raises the generating flag and sends the dialog's statement, expected output, language, complexity and topic |
| Page.ImportFinish | src/app/page.tsx:322-376 | the installed problem is the enhanced one, or the raw text with an empty skeleton |
| Page.ImportEffect | src/app/page.tsx:304-378 | both branches adopt language, complexity and topic, empty the code and reset the session; failure falls back to the raw statement and expected output |
| ChatWidget.NextMode | src/components/chatbot.tsx:125-134 | a mode press always changes the mode |
| ChatWidget.CycleHasPeriodThree | src/components/chatbot.tsx:125-134 | three presses return to the start and two never do |
| ChatWidget.CycleMode | src/components/chatbot.tsx:125-134 | the mode advances and the local history is kept |
| ChatWidget.CloseInExpandedGoesFullscreen | src/components/chatbot.tsx:181-185 | in expanded mode the close button advances to fullscreen and clears the unread count |
| ChatWidget.CountUnread | src/components/chatbot.tsx:72-79 | in mini mode a history ending in a bot message raises the unread count by exactly one; otherwise the widget is unchanged |
| ChatWidget.AfterModeChange | src/components/chatbot.tsx:72-86 | after a mode change the counting effect runs, then outside mini mode the unread count is zero; mode and history are kept |
| ChatWidget.Save | src/components/chatbot.tsx:55-59 | the store is written only when the local history is non-empty |
| ChatWidget.Submit | src/components/chatbot.tsx:96-117 | a blank input does nothing; otherwise one user message with the trimmed text and chosen length is appended, the same text goes to the parent, and the input is cleared |
| ChatWidget.QuickPrompt | src/components/chatbot.tsx:200-205 | a quick prompt goes to the parent with the chosen length and the widget is unchanged |
| ChatWidget.SyncFromParent | src/components/chatbot.tsx:62-69 | the parent's last message is appended exactly when a callback exists, that message is a bot message and its id is not yet local; otherwise the local history is unchanged |
| ChatWidget.SyncKeepsIdsDistinct | src/components/chatbot.tsx:62-69 | bot-sync never introduces a duplicate id |
| ChatWidget.SyncCountsUnread | src/components/chatbot.tsx:62-79 | a synced bot reply raises the unread count by exactly one in mini mode and leaves it alone in the other modes, where the invariant keeps it at zero |
| ChatWidget.SubmitKeepsUnread | src/components/chatbot.tsx:72-79 | the learner's own submitted message never changes the unread count |
| ChatWidget.SendEnabledMatchesSubmit | src/components/chatbot.tsx:321 | with no reply pending, the send button is enabled exactly when pressing it sends a message |
| ChatWidget.NewChatLocal | src/components/chatbot.tsx:119-123 | the widget's own new chat (wired to no button as written) empties the history and removes the stored key |
| ChatWidget.HandleNewChat | src/components/chatbot.tsx:119-123 | `handleNewChat`, which no button calls as written: it empties both histories and drops the stored key, so the widget then shows an empty conversation; mode and input are kept |
| ChatWidget.HeaderNewChatKeepsLocal | src/components/chatbot.tsx:178 | the New Chat buttons as written (lines 178 and 345) empty only the page's history: the widget still displays its own history, a stored history stays in the store, and the next mount restores it |
| ChatWidget.DisplayMessages | src/components/chatbot.tsx:145 | the list shown is the local history when non-empty, the parent's messages otherwise |
| ChatWidget.MountConsistent | src/components/chatbot.tsx:41-52 | after mounting, the unread count is zero outside mini mode and a non-empty history is mirrored in the store |
| ChatWidget.ApplyPreservesConsistent | src/components/chatbot.tsx:55-134 | every widget event preserves that invariant |
| Editor.ButtonsAreIndependent | src/components/code-editor.tsx:177-185 | Run is disabled exactly when running or generating; when not generating, each button is disabled exactly by its own flag, and neither depends on the other's flag |
| Editor.DownloadName | src/components/code-editor.tsx:80 | the download name is `solution.java`, `solution.py` or `solution.c` by language |
| Editor.DownloadNameInjective | src/components/code-editor.tsx:22-50 | distinct languages download under distinct names |
| Editor.ResetCode | src/components/code-editor.tsx:87-90 | reset puts the language's starter program in the buffer and changes nothing else |
| Editor.ResetPassesEmptyCodeGuard | src/components/code-editor.tsx:22-50 | after a reset the page's blank-code guard lets check and run through |
| Editor.DefaultCodeNotBlank | src/components/code-editor.tsx:22-50 | no starter program is blank |
| Editor.OnChange | src/components/code-editor.tsx:133 | a change without a value becomes `''`; a value is taken as is |
| Editor.EmptyChangeIsRejected | src/components/code-editor.tsx:133 | a change without a value leaves code that check and run reject as empty |
| ProblemDisplay.SelectView | src/components/problem-display.tsx:84-123 | generating shows the skeleton; otherwise a missing problem shows the placeholder; otherwise the problem |
| ProblemDisplay.HandleImport | src/components/problem-display.tsx:70-82 | the form is emitted unchanged exactly when a callback exists and the statement is not blank, and then the dialog closes and the form resets; otherwise nothing changes |
| ProblemDisplay.ImportButtonMatchesHandler | src/components/problem-display.tsx:261 | with a callback, the Import button is enabled exactly when pressing it imports |
| ProblemDisplay.Preview | src/components/problem-display.tsx:235-238 | text up to 200 characters is shown as is; longer text becomes its first 200 characters and `...`; never more than 203 |
| ProblemDisplay.PreviewIsPrefix | src/components/problem-display.tsx:246-249 | the preview is a prefix of the text, optionally followed by the ellipsis |
| ProblemDisplay.BlankStatementPreviewedNotImported | src/components/problem-display.tsx:227-261 | any non-empty statement shows a preview, and it can be imported exactly when it is not all white space |
| Layout.Clamp | src/components/draggable-layout.tsx:89-90 | `max(lo, min(hi, v))` is at least `lo`, at most `hi` when `lo <= hi`, and `v` when in range |
| Layout.InitialPositions | src/components/draggable-layout.tsx:28-41 | the defaults are kept, every truthy child key gets a position, and a non-default key gets `{0,0,50,40}` |
| Layout.InitialValid | src/components/draggable-layout.tsx:20-41 | the initial positions satisfy the bounds invariant |
| Layout.Drag | src/components/draggable-layout.tsx:79-94 | a drag changes only `x` and `y` of that panel, clamped to `[0, 100-width]` and `[0, 70-height]` |
| Layout.Resize | src/components/draggable-layout.tsx:96-111 | a resize changes only width and height of that panel, clamped to `[20, 100-x]` and `[20, 70-y]` |
| Layout.DragResizeKeepBounds | src/components/draggable-layout.tsx:76-112 | drag and resize preserve the bounds invariant |
| Layout.ToggleFullscreen | src/components/draggable-layout.tsx:52-64 | a 100 by 70 panel returns to its default (a panel without one loses its position); any other panel becomes `{0,0,100,70}`; other panels are unchanged |
| Layout.ToggleTwiceRestoresDefault | src/components/draggable-layout.tsx:52-64 | toggling a default panel twice restores it |
| Layout.RenderedBox | src/components/draggable-layout.tsx:196-201 | a panel is drawn exactly when it has a position or a default |
| Layout.MouseMoveStep | src/components/draggable-layout.tsx:76-112 | a move while not dragging changes nothing, and a move never changes the dragging state |
| Layout.StepKeepsValid | src/components/draggable-layout.tsx:48-118 | every layout event preserves the bounds invariant |
| Layout.ReachableBoxesInBounds | src/components/draggable-layout.tsx:20-118 | after any event sequence every box satisfies `0 <= x`, `20 <= width`, `x + width <= 100`, `0 <= y`, `20 <= height`, `y + height <= 70`, and the defaults stay present |
| Layout.InitialReachableInBounds | src/components/draggable-layout.tsx:28-118 | every box reachable from the initial layout is in bounds |
| Layout.ResetDropsExtraPanels | src/components/draggable-layout.tsx:48-50 | reset yields exactly the defaults, and a non-default panel is then not drawn |
| Layout.MouseUpClears | src/components/draggable-layout.tsx:114-118 | mouse-up clears the dragging flag and both active panel ids and keeps the positions |
| Progress.Round | src/components/progress-tracker.tsx:153 | `Math.round` gives the integer `r` with `r <= x + 0.5 < r + 1` |
| Progress.RoundIsNearest | src/components/progress-tracker.tsx:153 | the rounded value is within one half of the input and fixes integers |
| Progress.Percent | src/components/progress-tracker.tsx:152-154 | the percentage is 0 without a positive total, otherwise within one half of `solved / total * 100` |
| Progress.PercentBounds | src/components/progress-tracker.tsx:152-154 | a tally that is not over-solved gives 0 to 100, and a fully solved one gives 100 |
| Progress.PercentMonotone | src/components/progress-tracker.tsx:152-154 | solving more of the same total never lowers the percentage |
| Progress.OverallProgress | src/components/progress-tracker.tsx:152-154 | the overall bar is `Math.round(solved / total * 100)` as `Percent` states it: 0 with no problems, within one half of the ratio otherwise, and within 0 to 100 when solved does not exceed total |
| Progress.LanguageProgress | src/components/progress-tracker.tsx:165-168 | a language's bar is `Percent` of that language's own tally, with the same bounds |
| Progress.ComplexityProgress | src/components/progress-tracker.tsx:170-173 | a difficulty's bar is `Percent` of that difficulty's own tally, with the same bounds |
| Progress.LanguageProgressIsolated | src/components/progress-tracker.tsx:165-168 | for every pair of distinct languages, replacing one language's tally leaves the other's bar unchanged; replacing a language's own tally sets its bar to `Percent` of the new tally |
| Progress.ComplexityProgressIsolated | src/components/progress-tracker.tsx:170-173 | the same isolation for every pair of difficulties |
| Progress.DefaultAchievementsWellFormed | src/components/progress-tracker.tsx:54-109 | the six default achievements are locked, at progress 0, with a goal of at least 1 and distinct ids |
| Progress.VisibleAchievements | src/components/progress-tracker.tsx:295-296 | an achievement is listed exactly when "show all" is on or it is unlocked |
| Progress.VisibleDistributes | src/components/progress-tracker.tsx:295-296 | the filter commutes with concatenation, so the stored order is kept |
| Progress.ShowAllListsEverything | src/components/progress-tracker.tsx:295-296 | with "show all" on, the list is shown unchanged |
| Progress.DefaultsHiddenUntilUnlocked | src/components/progress-tracker.tsx:295-296 | with "show all" off, the default achievements list nothing |
| Progress.MergeSaved | src/components/progress-tracker.tsx:140 | for each of the nine top-level keys, a key present in the saved record wins and an absent one keeps the current value |
| Progress.LoadProgress | src/components/progress-tracker.tsx:134-145 | a missing or unparseable record leaves the data unchanged |
| Progress.MergeNothingAndIdempotent | src/components/progress-tracker.tsx:140 | merging an empty record changes nothing, and merging twice equals merging once |
| Progress.LoadAfterSave | src/components/progress-tracker.tsx:134-150 | loading what the save effect wrote restores that data, whatever the tracker held before |
| Progress.Mod60 | src/components/progress-tracker.tsx:161 | the remainder of a non-negative number of minutes lies in `[0, 60)` and recombines with the whole hours to the input |
| Progress.FormatTimeAsWritten | src/components/progress-tracker.tsx:156-163 | under 60 minutes the text is the rounded minutes and `m`; otherwise whole hours (at least 1), `h `, the rounded remainder (0 to 60 inclusive) and `m` |
| Progress.FormatTime | src/components/progress-tracker.tsx:156-163 | the corrected formatter's text ends in `m`; its full meaning is the round trip below |
| Progress.FormatTimeRoundTrip | src/components/progress-tracker.tsx:156-163 | the corrected formatter's text reads back as a canonical duration (minutes below 60) equal to the rounded input |
| Progress.FormatTimeAgreesWithoutCarry | src/components/progress-tracker.tsx:156-163 | both formatters give the same text except when the rounded remainder reaches 60 |
| Progress.FormatTimeCarryCounterexample | src/components/progress-tracker.tsx:160-162 | as written, 119.6 minutes renders `1h 60m` (not canonical) and 59.6 renders `60m`; the corrected formatter renders `2h 0m` |

## Left out

- The language-model flows (`src/ai/flows/*.ts`, `src/ai/genkit.ts`) are not part of this model: each is an abstract parameter that returns a value or a thrown error. The run flow's input schema is restated as `Schemas.RunFlowAccepts` only so that the page-to-flow mismatch can be stated.
- React scheduling is not modelled. This covers transitions, effect ordering, the auto-regenerate effect racing the mount effect, and a stale result overwriting newer state. Each handler is an atomic step, or a start step then a finish step.
- The pending flags come from `useTransition`. They are modelled as plain booleans raised by a start step and lowered by a finish step.
- Toasts, `console` output, scrolling, focus, the clipboard and the Blob download are left out: they change no modelled state.
- `Date.now()` message ids and message timestamps are left out. Ids are parameters, and the timestamp field is dropped.
- The page's `startTime` state is left out, because nothing in the core reads it.
- The imported problem's `_importedData` field is left out, because nothing reads it.
- `JSON.parse` failures and storage errors are left out. A stored value is either present and already parsed or absent. `Progress.LoadProgress` takes `None` for a missing or unparseable record.
- A saved progress record with values of the wrong type is left out. So is a saved `languages` object missing one language, which would make the bars read `undefined`.
- JSON bodies: a number is a `real`, with no NaN and no negative zero. An object key that shadows a prototype property is not modelled.
- The chatbot route's `result.answer` is modelled as dropped from the JSON response when undefined, without modelling `toJSON`.
- IEEE floating point is left out. Layout deltas and percentages use exact `real` arithmetic.
- `Progress.FormatTimeAsWritten`: `minutes % 60` is modelled for the branch `minutes >= 60` only, where JavaScript's remainder equals the floored one. NaN and infinite inputs are not modelled.
- String lengths count Unicode scalar values, where JavaScript counts UTF-16 code units. The 200-character preview cut is therefore modelled on scalar values.
- Rendering is left out. This covers the markdown renderer, the feedback panel's status-to-percent lookup, the icons, the Monaco editor, and the sidebar, whose click feeds the arguments of `Page.GenerateStart`.
- `Layout.ToggleFullscreen`: on a full-size panel without a default position, the source stores `undefined` under that id. The model removes the id instead. Both lead to the same outcomes: the panel is not drawn, and a later toggle or drag of it throws (a `None` step).
- `Layout.Step` only admits a mouse-down on a panel that is drawn, because the handles exist only on drawn panels.
- `Page.ChatSubmit` models the `isChatbotTyping` flag only as it ends (false), not its value while the request is pending.
- `ChatWidget.QuickPrompt`, the quick-prompt buttons and the input box are disabled while a reply is pending. That rendering-only condition is not modelled.
- The widget's unread counter is only modelled through the effects that follow a history change or a mode change. Re-renders that re-run the effect without a change are not modelled.
- `Page.BotResponse` models `handleBotResponse` (src/app/page.tsx:297-302), which nothing calls. The page passes it as `onBotResponse` (src/app/page.tsx:495), but the widget only tests that the prop is set (src/components/chatbot.tsx:63) and never invokes it. No outcome changes: `Page.ChatSubmit` already appends every bot reply to the page's history.
- `ChatWidget.NewChatLocal` and `ChatWidget.HandleNewChat` model `handleNewChat` (src/components/chatbot.tsx:119-123), which no button calls as written (see Findings). The widget's `LocalNewChat` event stands for the New Chat press as evidently intended.

## Findings

| source | as written | input that shows it | evidently intended | confidence | as-written member | corrected member |
|---|---|---|---|---|---|---|
| src/components/progress-tracker.tsx:156-163 | the remainder is rounded after splitting off whole hours (and minutes under 60 are rounded without a carry), so the minutes part can be 60 | 119.6 minutes renders `1h 60m`; 59.6 minutes renders `60m` | round the total minutes first, then split, so the minutes part is always below 60 (`2h 0m`, `1h 0m`) | not executed | Progress.FormatTimeCarryCounterexample | Progress.FormatTimeRoundTrip |
| src/components/chatbot.tsx:178 | both New Chat buttons (lines 178 and 345) call the page's `onNewChat` directly, so the widget's own `handleNewChat` (lines 119-123) is never used: the widget's local history and its stored copy survive a New Chat | a widget holding one exchange; press New Chat: the page's history is empty, but the widget still displays the exchange from its local history, and the stored copy restores it on the next mount | the buttons call `handleNewChat`, which empties the local history, removes the stored copy and then calls `onNewChat`, so the widget shows an empty conversation | not executed | ChatWidget.HeaderNewChatKeepsLocal | ChatWidget.HandleNewChat |
