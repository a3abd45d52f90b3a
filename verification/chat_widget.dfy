/**
 * The chat widget's local state: its display mode, an unread counter, a
 * local copy of the history kept in a key-value store, and the input box.
 * React effects are modelled as the transitions that follow the state
 * change that triggers them.
 */
module ChatWidget {
  import opened Wrappers
  import opened Text
  import opened Domain
  import Page

  datatype Mode = Mini | Expanded | Fullscreen

  datatype Widget = Widget(
    input: string,
    responseLength: ResponseLength,
    mode: Mode,
    unread: nat,
    local: seq<ChatMessage>)

  /** The browser store, with values already deserialised. */
  type Store = map<string, seq<ChatMessage>>

  const HistoryKey := "chatbot-history"

  const Initial := Widget("", ResponseLength.Medium, Mini, 0, [])

  /** The fixed prompts offered while the conversation is empty. */
  const QuickPrompts: seq<string> := [
    "How do I approach this problem?",
    "What's the time complexity?",
    "Can you explain this algorithm?",
    "Show me an example",
    "What are the edge cases?"]

  // --------------------------------------------------------------- the mode

  /** One press of a mode button: mini, expanded, fullscreen, then mini again. */
  function NextMode(m: Mode): (r: Mode)
    ensures r != m
  {
    match m
    case Mini => Expanded
    case Expanded => Fullscreen
    case Fullscreen => Mini
  }

  /** Three presses return to the start. */
  lemma CycleHasPeriodThree(m: Mode)
    ensures NextMode(NextMode(NextMode(m))) == m
    ensures NextMode(NextMode(m)) != m
  {
  }

  // --------------------------------------------------------------- effects

  /** Whether the history ends in a bot message. */
  predicate EndsWithBot(local: seq<ChatMessage>) {
    |local| > 0 && local[|local| - 1].sender == Bot
  }

  /**
   * The unread effect, which follows every change of the local history or
   * the mode: in mini mode a history ending in a bot message bumps the count.
   */
  function CountUnread(w: Widget): (r: Widget)
    ensures w.mode == Mini && EndsWithBot(w.local) ==> r == w.(unread := w.unread + 1)
    ensures !(w.mode == Mini && EndsWithBot(w.local)) ==> r == w
  {
    if w.mode == Mini && |w.local| > 0 && w.local[|w.local| - 1].sender == Bot
    then w.(unread := w.unread + 1)
    else w
  }

  /** The effects that follow a change of mode: count, then clear the count outside mini mode. */
  function AfterModeChange(w: Widget): (r: Widget)
    ensures r.mode != Mini ==> r.unread == 0
    ensures r.mode == w.mode && r.local == w.local
  {
    var c := CountUnread(w);
    if c.mode != Mini then c.(unread := 0) else c
  }

  /** The save effect: write the history only when it is non-empty. */
  function Save(local: seq<ChatMessage>, store: Store): (r: Store)
    ensures |local| > 0 ==> r == store[HistoryKey := local]
    ensures |local| == 0 ==> r == store
  {
    if |local| > 0 then store[HistoryKey := local] else store
  }

  /** The mount effect: the stored history if there is one. */
  function Load(store: Store): seq<ChatMessage> {
    if HistoryKey in store then store[HistoryKey] else []
  }

  // ----------------------------------------------------------- transitions

  /** The widget and the store after a step, and what, if anything, went to the parent's send callback. */
  datatype Step = Step(widget: Widget, store: Store, sent: Option<(string, ResponseLength)>)

  /** A history change followed by its effects: unread counting, then the save. */
  function WithHistory(w: Widget, local: seq<ChatMessage>, store: Store): Step {
    var w' := CountUnread(w.(local := local));
    Step(w', Save(local, store), None)
  }

  /** Mounting: load the stored history (the initial render's effects are no-ops). */
  function Mount(store: Store): Step {
    var stored := Load(store);
    if HistoryKey in store then WithHistory(Initial, stored, store) else Step(Initial, store, None)
  }

  function CycleMode(w: Widget): (r: Widget)
    ensures r.mode == NextMode(w.mode) && r.local == w.local
  {
    AfterModeChange(w.(mode := NextMode(w.mode)))
  }

  /**
   * The form submit: a blank input does nothing; otherwise one user message
   * with the trimmed text and the chosen length is appended, the same
   * trimmed text goes to the parent, and the input is cleared.
   */
  function Submit(w: Widget, store: Store, id: string): (r: Step)
    ensures IsBlank(w.input) ==> r == Step(w, store, None)
    ensures !IsBlank(w.input) ==>
      && r.widget.local == w.local + [ChatMessage(id, User, Trim(w.input), Some(w.responseLength))]
      && r.sent == Some((Trim(w.input), w.responseLength))
      && r.widget.input == ""
      && r.widget.mode == w.mode && r.widget.responseLength == w.responseLength
  {
    TrimEmptyIffBlank(w.input);
    var text := Trim(w.input);
    if text == "" then Step(w, store, None)
    else
      var s := WithHistory(w.(input := ""), w.local + [ChatMessage(id, User, text, Some(w.responseLength))], store);
      s.(sent := Some((text, w.responseLength)))
  }

  /** A quick prompt goes to the parent as is; the local history is not touched. */
  function QuickPrompt(w: Widget, store: Store, prompt: string): (r: Step)
    ensures r.widget == w && r.store == store && r.sent == Some((prompt, w.responseLength))
  {
    Step(w, store, Some((prompt, w.responseLength)))
  }

  /**
   * The bot-sync effect: when the parent supplied a callback, its last
   * message is copied in if it is a bot message whose id is not yet local.
   */
  function SyncFromParent(w: Widget, store: Store, messages: seq<ChatMessage>, hasCallback: bool): (r: Step)
    ensures r.widget.local == w.local || (|messages| > 0 && r.widget.local == w.local + [messages[|messages| - 1]])
    ensures r.widget.local != w.local ==>
      && hasCallback && |messages| > 0
      && messages[|messages| - 1].sender == Bot
      && !HasId(w.local, messages[|messages| - 1].id)
    ensures (hasCallback && |messages| > 0 && messages[|messages| - 1].sender == Bot
             && !HasId(w.local, messages[|messages| - 1].id))
      ==> r.widget.local == w.local + [messages[|messages| - 1]]
  {
    if |messages| > 0 && hasCallback then
      var last := messages[|messages| - 1];
      if last.sender == Bot && !HasId(w.local, last.id) then
        WithHistory(w, w.local + [last], store)
      else Step(w, store, None)
    else Step(w, store, None)
  }

  /**
   * The widget's own New Chat: empty the history and drop the stored key.
   * No button calls it as written (see `HeaderNewChat`); it is the reset
   * the New Chat buttons evidently intend.
   */
  function NewChatLocal(w: Widget, store: Store): (r: Step)
    ensures r.widget.local == [] && HistoryKey !in r.store
  {
    WithHistory(w, [], store - {HistoryKey})
  }

  /** `handleNewChat` as a whole: the widget's own reset, then the parent's callback. */
  function HandleNewChat(p: Page.State, w: Widget, store: Store): (r: (Page.State, Step))
    ensures r.0.chatHistory == [] && r.1.widget.local == [] && HistoryKey !in r.1.store
    ensures r.1.widget.mode == w.mode && r.1.widget.input == w.input
    ensures DisplayMessages(r.1.widget, r.0.chatHistory) == []
  {
    (Page.NewChat(p), NewChatLocal(w, store))
  }

  /**
   * The New Chat buttons as written (the mini header and the full header)
   * call only the parent's callback: the widget keeps its history.
   */
  function HeaderNewChat(p: Page.State, w: Widget, store: Store): (Page.State, Step) {
    (Page.NewChat(p), Step(w, store, None))
  }

  /** The list shown: the local history when non-empty, the parent's messages otherwise. */
  function DisplayMessages(w: Widget, messages: seq<ChatMessage>): (r: seq<ChatMessage>)
    ensures r == w.local || (w.local == [] && r == messages)
  {
    if |w.local| > 0 then w.local else messages
  }

  /** The send button is enabled exactly when the input is not blank and no reply is pending. */
  predicate SendEnabled(w: Widget, isTyping: bool) {
    Trim(w.input) != "" && !isTyping
  }

  /** With no reply pending, the send button is enabled exactly when pressing it sends. */
  lemma SendEnabledMatchesSubmit(w: Widget, store: Store, id: string)
    ensures SendEnabled(w, false) <==> Submit(w, store, id).sent.Some?
  {
    TrimEmptyIffBlank(w.input);
  }

  // ------------------------------------------------------------ invariants

  /** The counter is zero outside mini mode, and a non-empty history is mirrored in the store. */
  predicate Consistent(w: Widget, store: Store) {
    && (w.mode != Mini ==> w.unread == 0)
    && (|w.local| > 0 ==> HistoryKey in store && store[HistoryKey] == w.local)
  }

  /** The events the widget reacts to. */
  datatype Event =
    | Type(text: string)
    | Choose(length: ResponseLength)
    | Press
    | SubmitForm(id: string)
    | Prompt(index: nat)
    | Sync(messages: seq<ChatMessage>, hasCallback: bool)
    | LocalNewChat  // the widget's own reset, which no button reaches as written

  function Apply(w: Widget, store: Store, e: Event): Step {
    match e
    case Type(text) => Step(w.(input := text), store, None)
    case Choose(length) => Step(w.(responseLength := length), store, None)
    case Press => Step(CycleMode(w), store, None)
    case SubmitForm(id) => Submit(w, store, id)
    case Prompt(i) => if i < |QuickPrompts| then QuickPrompt(w, store, QuickPrompts[i]) else Step(w, store, None)
    case Sync(messages, hasCallback) => SyncFromParent(w, store, messages, hasCallback)
    case LocalNewChat => NewChatLocal(w, store)
  }

  /** Mounting establishes the invariant and every event preserves it. */
  lemma MountConsistent(store: Store)
    ensures Consistent(Mount(store).widget, Mount(store).store)
  {
  }

  lemma ApplyPreservesConsistent(w: Widget, store: Store, e: Event)
    requires Consistent(w, store)
    ensures Consistent(Apply(w, store, e).widget, Apply(w, store, e).store)
  {
    match e
    case SubmitForm(id) => TrimEmptyIffBlank(w.input);
    case _ =>
  }

  /** Bot-sync never introduces a duplicate id. */
  lemma SyncKeepsIdsDistinct(w: Widget, store: Store, messages: seq<ChatMessage>, hasCallback: bool)
    requires DistinctIds(w.local)
    ensures DistinctIds(SyncFromParent(w, store, messages, hasCallback).widget.local)
  {
    var r := SyncFromParent(w, store, messages, hasCallback).widget.local;
    if r != w.local {
      var last := messages[|messages| - 1];
      forall i, j | 0 <= i < j < |r| ensures r[i].id != r[j].id {
        assert r[i] == w.local[i];
        if j < |w.local| { assert r[j] == w.local[j]; }
      }
    }
  }

  /**
   * The unread counter counts bot replies: a synced bot message bumps it by
   * exactly one in mini mode and leaves it alone otherwise, where the
   * invariant keeps it at zero.
   */
  lemma SyncCountsUnread(w: Widget, store: Store, messages: seq<ChatMessage>)
    requires |messages| > 0 && messages[|messages| - 1].sender == Bot
    requires !HasId(w.local, messages[|messages| - 1].id)
    ensures var r := Apply(w, store, Sync(messages, true)).widget;
      && r.local == w.local + [messages[|messages| - 1]]
      && (w.mode == Mini ==> r.unread == w.unread + 1)
      && (w.mode != Mini ==> r.unread == w.unread)
      && (w.mode != Mini && Consistent(w, store) ==> r.unread == 0)
  {
    var last := messages[|messages| - 1];
    var local := w.local + [last];
    assert EndsWithBot(local) by { assert local[|local| - 1] == last; }
    assert Apply(w, store, Sync(messages, true)).widget == CountUnread(w.(local := local));
  }

  /** The learner's own message never bumps the unread counter. */
  lemma SubmitKeepsUnread(w: Widget, store: Store, id: string)
    ensures Apply(w, store, SubmitForm(id)).widget.unread == w.unread
  {
    TrimEmptyIffBlank(w.input);
    if !IsBlank(w.input) {
      var local := w.local + [ChatMessage(id, User, Trim(w.input), Some(w.responseLength))];
      assert !EndsWithBot(local) by { assert local[|local| - 1].sender == User; }
    }
  }

  /** In expanded mode the close button is the maximise button: both advance to fullscreen. */
  lemma CloseInExpandedGoesFullscreen(w: Widget)
    requires w.mode == Expanded
    ensures CycleMode(w).mode == Fullscreen && CycleMode(w).unread == 0
  {
  }

  /**
   * The header New Chat empties the page's history but leaves the widget's
   * local history, and so what it displays, unchanged.
   */
  lemma HeaderNewChatKeepsLocal(p: Page.State, w: Widget, store: Store)
    ensures var (p', s) := HeaderNewChat(p, w, store);
      p'.chatHistory == [] && s.widget == w && s.store == store
      && DisplayMessages(s.widget, p'.chatHistory) == w.local
      && (Consistent(w, store) && w.local != [] ==>
            HistoryKey in s.store && s.store[HistoryKey] == w.local && Mount(s.store).widget.local == w.local)
  {
  }
}
