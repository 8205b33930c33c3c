/** The booking chat (components/ChatBooking.tsx).

    The component's three pieces of state are the fields of `ChatBookingView`.
    `handleSend` is split at its `await` into `HandleSend`, which runs up to
    the gateway call and returns what is passed to it, and `Complete`, which
    runs once the call has settled; the 600 ms display timer falls inside
    `Complete`. Each method is proved against a step function on `ChatState`,
    and the lemmas below are about those step functions. */
module ChatBooking {
  import opened Wrappers
  import opened Types
  import JsStrings
  import GeminiService

  const Greeting := ChatMessage(Model, "尊贵的车主您好，我是您的专属AI服务顾问。请问您需要预约保养、维修，还是有其他用车问题需要咨询？")
  const EmptyReplyFallback := "抱歉，我现在无法回答。"
  const ConnectionErrorFallback := "系统连接异常，请稍后再试。"

  datatype ChatState = ChatState(messages: seq<ChatMessage>, inputText: string, isLoading: bool)

  /** A freshly mounted chat: the greeting alone, an empty input, nothing pending. */
  const Initial := ChatState([Greeting], "", false)

  /** `messages.map(m => ({role: m.role, text: m.text}))` */
  function ToHistory(messages: seq<ChatMessage>): (history: seq<GeminiService.HistoryEntry>)
    ensures |history| == |messages|
  {
    if messages == [] then []
    else [GeminiService.HistoryEntry(RoleName(messages[0].role), messages[0].text)] + ToHistory(messages[1..])
  }

  /** Reads messages back from `{role, text}` entries; defined only when every
      role is one of the two wire names. */
  function MessagesOf(history: seq<GeminiService.HistoryEntry>): Option<seq<ChatMessage>> {
    if history == [] then Some([])
    else match (RoleFromName(history[0].role), MessagesOf(history[1..]))
      case (Some(role), Some(rest)) => Some([ChatMessage(role, history[0].text)] + rest)
      case _ => None
  }

  /** The history handed to the gateway determines the messages exactly:
      same length, same order, each role and text kept. */
  lemma {:induction false} ToHistoryRoundTrip(messages: seq<ChatMessage>)
    ensures MessagesOf(ToHistory(messages)) == Some(messages)
  {
    if messages != [] {
      ToHistoryRoundTrip(messages[1..]);
      RoleNameRoundTrip(messages[0].role);
      assert ToHistory(messages)[1..] == ToHistory(messages[1..]);
      assert [messages[0]] + messages[1..] == messages;
    }
  }

  /** What `handleSend` passes to `generateChatResponse`. */
  datatype PendingTurn = PendingTurn(history: seq<GeminiService.HistoryEntry>, utterance: string)

  /** The guard of `handleSend`, which is also the send button's `disabled`:
      the trimmed input is empty, or a reply is pending. */
  predicate SendDisabled(s: ChatState) {
    JsStrings.Trim(s.inputText) == [] || s.isLoading
  }

  /** `onChange`: the input box takes the typed text. */
  function SetInput(s: ChatState, text: string): ChatState {
    s.(inputText := text)
  }

  /** `handleSend` up to the `await`. */
  function Send(s: ChatState): (ChatState, Option<PendingTurn>) {
    if SendDisabled(s) then (s, None)
    else
      (ChatState(s.messages + [ChatMessage(User, s.inputText)], "", true),
       Some(PendingTurn(ToHistory(s.messages), s.inputText)))
  }

  /** The text of the model message appended when the gateway call settles:
      the reply if it has text, otherwise a fixed fallback; never empty. */
  function ReplyText(outcome: Result<Option<string>, string>): (text: string)
    ensures text != ""
    ensures outcome.Success? && JsStrings.Truthy(outcome.value) ==> text == outcome.value.value
    ensures outcome.Success? && !JsStrings.Truthy(outcome.value) ==> text == EmptyReplyFallback
    ensures outcome.Failure? ==> text == ConnectionErrorFallback
  {
    match outcome
    case Success(responseText) => if JsStrings.Truthy(responseText) then responseText.value else EmptyReplyFallback
    case Failure(_) => ConnectionErrorFallback
  }

  /** `handleSend` after the `await`: the `setTimeout` callback on success,
      the `catch` block on failure. */
  function Receive(s: ChatState, outcome: Result<Option<string>, string>): ChatState
    requires s.isLoading
  {
    ChatState(s.messages + [ChatMessage(Model, ReplyText(outcome))], s.inputText, false)
  }

  // ---------------------------------------------------------------- one step

  /** A send is rejected exactly when the guard holds, and a rejected send
      changes nothing. */
  lemma SendGuard(s: ChatState)
    ensures Send(s).1.None? <==> JsStrings.AllWhitespace(s.inputText) || s.isLoading
    ensures Send(s).1.None? ==> Send(s).0 == s
  {
    JsStrings.TrimEmptyIff(s.inputText);
  }

  /** An accepted send appends exactly one user message carrying the untrimmed
      input, clears the input, sets the pending flag, and hands the gateway the
      messages as they were before the append. */
  lemma SendAccepted(s: ChatState)
    requires !SendDisabled(s)
    ensures var (t, turn) := Send(s);
      && |t.messages| == |s.messages| + 1
      && t.messages[..|s.messages|] == s.messages
      && t.messages[|s.messages|] == ChatMessage(User, s.inputText)
      && t.inputText == "" && t.isLoading
      && turn.Some? && turn.value.utterance == s.inputText
      && MessagesOf(turn.value.history) == Some(s.messages)
  {
    ToHistoryRoundTrip(s.messages);
  }

  /** Settling appends exactly one model message, clears the pending flag and
      leaves the earlier messages and the input untouched. */
  lemma ReceiveAppendsReply(s: ChatState, outcome: Result<Option<string>, string>)
    requires s.isLoading
    ensures var t := Receive(s, outcome);
      && |t.messages| == |s.messages| + 1
      && t.messages[..|s.messages|] == s.messages
      && t.messages[|s.messages|].role == Model
      && t.messages[|s.messages|].text != ""
      && t.inputText == s.inputText
      && !t.isLoading
  {
    assert Receive(s, outcome).messages[..|s.messages|] == s.messages;
  }

  /** One accepted turn through the gateway: the history and utterance of the
      send reach the model unchanged; the transcript gains the user message
      and then the reply, or the empty-reply fallback, or the connection
      fallback when the key is missing or the call fails. */
  lemma TurnThroughGateway(s: ChatState, apiKey: Option<string>, send: GeminiService.ChatRequest -> GeminiService.SdkReply)
    requires !SendDisabled(s)
    ensures Send(s).1 == Some(PendingTurn(ToHistory(s.messages), s.inputText))
    ensures var request := GeminiService.ChatRequestFor(ToHistory(s.messages), s.inputText);
      var done := Receive(Send(s).0, GeminiService.GenerateChatResponse(apiKey, ToHistory(s.messages), s.inputText, send));
      && GeminiService.HistoryOf(request.history) == Some(ToHistory(s.messages))
      && request.message == s.inputText
      && done == ChatState(
           s.messages + [ChatMessage(User, s.inputText), ChatMessage(Model, GatewayReplyText(apiKey, send(request)))],
           "", false)
  {
    var history := ToHistory(s.messages);
    var sent := ChatState(s.messages + [ChatMessage(User, s.inputText)], "", true);
    assert Send(s).0 == sent;
    var outcome := GeminiService.GenerateChatResponse(apiKey, history, s.inputText, send);
    GatewayReply(apiKey, history, s.inputText, send);
    assert sent.messages + [ChatMessage(Model, ReplyText(outcome))]
      == s.messages + [ChatMessage(User, s.inputText), ChatMessage(Model, ReplyText(outcome))];
  }

  /** The chat text a settled gateway call leaves: the connection fallback
      when the key is missing or the SDK call fails, the reply when it has
      text, the empty-reply fallback otherwise. */
  function GatewayReplyText(apiKey: Option<string>, reply: GeminiService.SdkReply): string {
    if !GeminiService.HasApiKey(apiKey) || reply.Failed? then ConnectionErrorFallback
    else if JsStrings.Truthy(reply.text) then reply.text.value
    else EmptyReplyFallback
  }

  /** `ReplyText` of the gateway's outcome, stated by the SDK reply alone. */
  lemma GatewayReply(apiKey: Option<string>, history: seq<GeminiService.HistoryEntry>, utterance: string,
                     send: GeminiService.ChatRequest -> GeminiService.SdkReply)
    ensures ReplyText(GeminiService.GenerateChatResponse(apiKey, history, utterance, send))
      == GatewayReplyText(apiKey, send(GeminiService.ChatRequestFor(history, utterance)))
  {
  }

  // ---------------------------------------------------------------- turn discipline

  /** The greeting first, then user and model messages strictly alternating;
      a reply is pending exactly when the last message is the user's. */
  predicate Disciplined(s: ChatState) {
    && |s.messages| >= 1
    && s.messages[0] == Greeting
    && (forall i :: 0 <= i < |s.messages| ==> s.messages[i].role == (if i % 2 == 0 then Model else User))
    && (s.isLoading <==> |s.messages| % 2 == 0)
  }

  /** A fresh session holds exactly the greeting, from the model. */
  lemma InitialIsDisciplined()
    ensures Disciplined(Initial) && |Initial.messages| == 1 && Initial.messages[0].role == Model
  {
  }

  /** Every step keeps the discipline, so the guard is never left stuck and
      two replies never race. */
  lemma DisciplinePreserved(s: ChatState, text: string, outcome: Result<Option<string>, string>)
    requires Disciplined(s)
    ensures Disciplined(SetInput(s, text))
    ensures Disciplined(Send(s).0)
    ensures s.isLoading ==> Disciplined(Receive(s, outcome))
  {
    if !SendDisabled(s) {
      AppendKeepsDiscipline(s, ChatState(s.messages + [ChatMessage(User, s.inputText)], "", true));
    }
    if s.isLoading {
      AppendKeepsDiscipline(s, Receive(s, outcome));
    }
  }

  /** Appending one message of the role whose turn it is, and flipping the
      pending flag, keeps the discipline. */
  lemma AppendKeepsDiscipline(s: ChatState, t: ChatState)
    requires Disciplined(s)
    requires |t.messages| == |s.messages| + 1 && t.messages[..|s.messages|] == s.messages
    requires t.messages[|s.messages|].role == (if |s.messages| % 2 == 0 then Model else User)
    requires t.isLoading == !s.isLoading
    ensures Disciplined(t)
  {
    var n := |s.messages|;
    forall i | 0 <= i < |t.messages| ensures t.messages[i].role == (if i % 2 == 0 then Model else User) {
      if i < n { assert t.messages[i] == t.messages[..n][i]; }
    }
    assert t.messages[0] == t.messages[..n][0];
  }

  // ---------------------------------------------------------------- whole sessions

  /** One scripted turn: what the user types, and how the gateway call settles. */
  datatype ScriptedTurn = ScriptedTurn(utterance: string, outcome: Result<Option<string>, string>)

  /** Type the utterance, press send, and let the call settle. */
  function PlayTurn(s: ChatState, turn: ScriptedTurn): ChatState {
    var sent := Send(SetInput(s, turn.utterance)).0;
    if sent.isLoading then Receive(sent, turn.outcome) else sent
  }

  function Play(s: ChatState, script: seq<ScriptedTurn>): ChatState
    decreases |script|
  {
    if script == [] then s else PlayTurn(Play(s, script[..|script| - 1]), script[|script| - 1])
  }

  /** The messages a script should leave: the greeting, then each utterance
      followed by its reply. */
  function Transcript(script: seq<ScriptedTurn>): (messages: seq<ChatMessage>)
    ensures |messages| == 1 + 2 * |script|
    decreases |script|
  {
    if script == [] then [Greeting]
    else
      var last := script[|script| - 1];
      Transcript(script[..|script| - 1]) + [ChatMessage(User, last.utterance), ChatMessage(Model, ReplyText(last.outcome))]
  }

  /** The transcript of a prefix of the script is a prefix of the transcript. */
  lemma {:induction false} TranscriptPrefix(script: seq<ScriptedTurn>, k: nat)
    requires k <= |script|
    ensures Transcript(script[..k]) == Transcript(script)[..1 + 2 * k]
    decreases |script|
  {
    if k < |script| {
      var init := script[..|script| - 1];
      assert init[..k] == script[..k];
      TranscriptPrefix(init, k);
    } else {
      assert script[..k] == script;
    }
  }

  /** A script of non-blank utterances leaves the session idle with an empty
      input and exactly its transcript: one user and one model message per
      turn, in order, nothing lost or duplicated. */
  lemma {:induction false} PlayFollowsTranscript(script: seq<ScriptedTurn>)
    requires forall k :: 0 <= k < |script| ==> !JsStrings.AllWhitespace(script[k].utterance)
    ensures Play(Initial, script) == ChatState(Transcript(script), "", false)
    decreases |script|
  {
    if script != [] {
      var init := script[..|script| - 1];
      var last := script[|script| - 1];
      PlayFollowsTranscript(init);
      PlayTurnAppends(Transcript(init), last);
    }
  }

  /** From an idle state with an empty input, a non-blank turn appends the
      utterance and its reply and leaves the session idle again. */
  lemma PlayTurnAppends(messages: seq<ChatMessage>, turn: ScriptedTurn)
    requires !JsStrings.AllWhitespace(turn.utterance)
    ensures PlayTurn(ChatState(messages, "", false), turn)
      == ChatState(messages + [ChatMessage(User, turn.utterance), ChatMessage(Model, ReplyText(turn.outcome))], "", false)
  {
    JsStrings.TrimEmptyIff(turn.utterance);
    var sent := Send(ChatState(messages, turn.utterance, false)).0;
    assert sent == ChatState(messages + [ChatMessage(User, turn.utterance)], "", true);
  }

  /** The history handed to the gateway on turn k + 1 is exactly the 2k + 1
      messages committed before it (the greeting and k complete turns), in
      their original order. */
  lemma HistoryOnTurn(script: seq<ScriptedTurn>, k: nat)
    requires forall j :: 0 <= j < |script| ==> !JsStrings.AllWhitespace(script[j].utterance)
    requires k < |script|
    ensures var turn := Send(SetInput(Play(Initial, script[..k]), script[k].utterance)).1;
      && turn.Some?
      && turn.value.utterance == script[k].utterance
      && |Play(Initial, script).messages| == 1 + 2 * |script|
      && MessagesOf(turn.value.history) == Some(Play(Initial, script).messages[..2 * k + 1])
  {
    var prefix := script[..k];
    assert forall j :: 0 <= j < |prefix| ==> prefix[j] == script[j];
    PlayFollowsTranscript(prefix);
    PlayFollowsTranscript(script);
    TranscriptPrefix(script, k);
    JsStrings.TrimEmptyIff(script[k].utterance);
    ToHistoryRoundTrip(Transcript(prefix));
  }

  // ---------------------------------------------------------------- the component

  class ChatBookingView {
    var messages: seq<ChatMessage>
    var inputText: string
    var isLoading: bool

    function State(): ChatState
      reads this
    {
      ChatState(messages, inputText, isLoading)
    }

    constructor ()
      ensures State() == Initial
    {
      messages := [Greeting];
      inputText := "";
      isLoading := false;
    }

    method OnInputChange(text: string)
      modifies this
      ensures State() == SetInput(old(State()), text)
    {
      inputText := text;
    }

    /** Returns the arguments of the gateway call, or `None` when the guard
        returns early. */
    method HandleSend() returns (turn: Option<PendingTurn>)
      modifies this
      ensures (State(), turn) == Send(old(State()))
    {
      if JsStrings.Trim(inputText) == [] || isLoading {
        return None;
      }
      var userMsg := ChatMessage(User, inputText);
      var history := ToHistory(messages);
      messages := messages + [userMsg];
      inputText := "";
      isLoading := true;
      turn := Some(PendingTurn(history, userMsg.text));
    }

    /** Settles the pending turn with the outcome of `generateChatResponse`. */
    method Complete(outcome: Result<Option<string>, string>)
      requires isLoading
      modifies this
      ensures State() == Receive(old(State()), outcome)
    {
      var text := ReplyText(outcome);
      messages := messages + [ChatMessage(Model, text)];
      isLoading := false;
    }
  }
}
