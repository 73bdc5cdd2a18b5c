/** The app shell's conversation state (App.tsx:1155-1274) and the chat
    input box (App.tsx:1015-1038): one history per agent, the choice of
    service for a message, and the one reply every message gets. */
module Chat {

  import opened Types
  import opened Text
  import opened Gemini

  /** An attached file as the handlers see it: its MIME type, the object
      URL shown in the chat, and the data URL FileReader produced. */
  datatype Attachment = Attachment(mimeType: string, objectUrl: string, dataUrl: string)

  /** The four histories (App.tsx:1169-1172). */
  datatype Slot = ChatSlot | GenSlot | EditSlot | LocalSlot

  /** The switch shared by getCurrentMessages and addMessage
      (App.tsx:1181-1197): three agents have their own history, every other
      agent uses the chat history. */
  function SlotFor(a: AgentType): (s: Slot)
    ensures s == GenSlot <==> a == ImageGen
    ensures s == EditSlot <==> a == ImageEdit
    ensures s == LocalSlot <==> a == LocalLlm
    ensures s == ChatSlot <==> a in {Chat, FileSystem, Models, Integrations, Workflow}
  {
    match a
    case ImageGen => GenSlot
    case ImageEdit => EditSlot
    case LocalLlm => LocalSlot
    case _ => ChatSlot
  }

  datatype Histories = Histories(chat: seq<Message>, gen: seq<Message>, edit: seq<Message>, local: seq<Message>)

  /** getCurrentMessages for agent `a`. */
  function Select(h: Histories, a: AgentType): (r: seq<Message>)
    ensures a == ImageGen ==> r == h.gen
    ensures a == ImageEdit ==> r == h.edit
    ensures a == LocalLlm ==> r == h.local
    ensures a !in {ImageGen, ImageEdit, LocalLlm} ==> r == h.chat
  {
    match SlotFor(a)
    case ChatSlot => h.chat
    case GenSlot => h.gen
    case EditSlot => h.edit
    case LocalSlot => h.local
  }

  /** addMessage(m, a). */
  function Append(h: Histories, a: AgentType, m: Message): (r: Histories)
    ensures |r.chat| + |r.gen| + |r.edit| + |r.local| == |h.chat| + |h.gen| + |h.edit| + |h.local| + 1
    ensures h.chat <= r.chat && h.gen <= r.gen && h.edit <= r.edit && h.local <= r.local
  {
    match SlotFor(a)
    case ChatSlot => h.(chat := h.chat + [m])
    case GenSlot => h.(gen := h.gen + [m])
    case EditSlot => h.(edit := h.edit + [m])
    case LocalSlot => h.(local := h.local + [m])
  }

  /** addMessage appends to exactly the history getCurrentMessages shows for
      the same agent, and leaves the other three alone. */
  lemma AppendTouchesOneHistory(h: Histories, a: AgentType, m: Message, b: AgentType)
    ensures Select(Append(h, a, m), a) == Select(h, a) + [m]
    ensures SlotFor(b) != SlotFor(a) ==> Select(Append(h, a, m), b) == Select(h, b)
    ensures SlotFor(b) == SlotFor(a) ==> Select(Append(h, a, m), b) == Select(h, a) + [m]
  {
  }

  /** Which service a message goes to (App.tsx:1220-1254): image editing
      needs an attachment; without one, and for every agent other than
      chat and image generation, nothing is called. */
  datatype Route = GenerateImageRoute | EditImageRoute | TextRoute | NotConnected

  function RouteFor(a: AgentType, hasFile: bool): (r: Route)
    ensures r == GenerateImageRoute <==> a == ImageGen
    ensures r == EditImageRoute <==> a == ImageEdit && hasFile
    ensures r == TextRoute <==> a == Chat
    ensures r == NotConnected <==> a != ImageGen && a != Chat && !(a == ImageEdit && hasFile)
  {
    if a == ImageGen then GenerateImageRoute
    else if a == ImageEdit && hasFile then EditImageRoute
    else if a == Chat then TextRoute
    else NotConnected
  }

  /** The chat history as generateText's `history` argument
      (App.tsx:1235-1244): user turns keep the role "user", every other
      role is sent as "model", and only the text is sent. */
  function HistoryTurns(ms: seq<Message>): (r: seq<Content>)
    ensures |r| == |ms|
    ensures forall k :: 0 <= k < |ms| ==>
      r[k].role == (if ms[k].role == User then "user" else "model")
      && r[k].parts == [TextPart(ms[k].content)]
  {
    if ms == [] then [] else [TurnOf(ms[0])] + HistoryTurns(ms[1..])
  }

  function TurnOf(m: Message): Content {
    Content(if m.role == User then "user" else "model", [TextPart(m.content)])
  }

  /** Turns are mapped one message at a time, so the mapping distributes
      over concatenation. */
  lemma HistoryTurnsAppend(a: seq<Message>, b: seq<Message>)
    ensures HistoryTurns(a + b) == HistoryTurns(a) + HistoryTurns(b)
  {
    var whole, parts := HistoryTurns(a + b), HistoryTurns(a) + HistoryTurns(b);
    forall k | 0 <= k < |whole|
      ensures whole[k] == parts[k]
    {
      if k < |a| {
        assert (a + b)[k] == a[k];
      } else {
        assert (a + b)[k] == b[k - |a|];
      }
    }
  }

  /** The service call a message makes. */
  datatype ServiceCall =
    | GenerateImageCall(prompt: string, size: ImageSize, ratio: AspectRatio)
    | EditImageCall(prompt: string, base64Image: string, mimeType: string)
    | GenerateTextCall(prompt: string, image: Option<string>, history: seq<Content>)
    | NoCall

  function CallFor(route: Route, text: string, file: Option<Attachment>, size: ImageSize,
                   ratio: AspectRatio, chatHistory: seq<Message>): (c: ServiceCall)
    requires route == EditImageRoute ==> file.Some?
    ensures c.NoCall? <==> route == NotConnected
    ensures c.EditImageCall? ==> file.Some? && c == EditImageCall(text, file.value.dataUrl, file.value.mimeType)
    ensures c.GenerateTextCall? ==>
      route == TextRoute && c.prompt == text && c.history == HistoryTurns(chatHistory)
      && (c.image.Some? <==> file.Some?)
    ensures route == GenerateImageRoute ==> c == GenerateImageCall(text, size, ratio)
    ensures route == EditImageRoute ==> c == EditImageCall(text, file.value.dataUrl, file.value.mimeType)
    ensures route == TextRoute ==>
      c == GenerateTextCall(text, if file.Some? then Some(file.value.dataUrl) else None, HistoryTurns(chatHistory))
  {
    match route
    case GenerateImageRoute => GenerateImageCall(text, size, ratio)
    case EditImageRoute => EditImageCall(text, file.value.dataUrl, file.value.mimeType)
    case TextRoute =>
      GenerateTextCall(text, if file.Some? then Some(file.value.dataUrl) else None, HistoryTurns(chatHistory))
    case NotConnected => NoCall
  }

  const NotConnectedText := "This agent capability is not connected."

  /** The user's message (App.tsx:1209-1215). */
  function UserMessage(text: string, file: Option<Attachment>, now: int): (r: Message)
    ensures r.role == User && r.content == text && r.isError.None?
    ensures r.id == DecimalString(now) && r.timestamp == now
    ensures r.image.Some? <==> file.Some?
    ensures file.Some? ==> r.image == Some(file.value.objectUrl)
  {
    Message(DecimalString(now), User, text, now,
      if file.Some? then Some(file.value.objectUrl) else None, None)
  }

  /** The one reply a message gets (App.tsx:1253-1270). `outcome` is what
      the service returned or threw; a route with no service ignores it. */
  function Reply(route: Route, outcome: Result<string>, now: int): (r: Message)
    ensures r.role == Model && r.id == DecimalString(now + 1) && r.timestamp == now
    ensures r.isError == Some(true) <==> route != NotConnected && outcome.Err?
    ensures r.isError.None? <==> !(route != NotConnected && outcome.Err?)
    ensures r.isError.Some? ==> r.content == "Error: " + outcome.message && r.image.None?
    ensures r.image.Some? <==>
      (route == GenerateImageRoute || route == EditImageRoute) && outcome.Ok?
    ensures r.image.Some? ==> r.image.value == outcome.value
    ensures route == NotConnected ==> r.content == NotConnectedText
    ensures route == TextRoute && outcome.Ok? ==> r.content == outcome.value
    ensures route == GenerateImageRoute && outcome.Ok? ==> r.content == "Generated image based on prompt."
    ensures route == EditImageRoute && outcome.Ok? ==> r.content == "Edited image."
  {
    var id := DecimalString(now + 1);
    if route != NotConnected && outcome.Err? then
      Message(id, Model, "Error: " + outcome.message, now, None, Some(true))
    else
      match route
      case GenerateImageRoute => Message(id, Model, "Generated image based on prompt.", now, Some(outcome.value), None)
      case EditImageRoute => Message(id, Model, "Edited image.", now, Some(outcome.value), None)
      case TextRoute => Message(id, Model, outcome.value, now, None, None)
      case NotConnected => Message(id, Model, NotConnectedText, now, None, None)
  }

  /** Sending adds exactly the user's message and then the reply to the
      active agent's history and to no other. */
  lemma SendAddsTwo(h: Histories, a: AgentType, user: Message, reply: Message, b: AgentType)
    ensures Select(Append(Append(h, a, user), a, reply), a) == Select(h, a) + [user, reply]
    ensures SlotFor(b) != SlotFor(a) ==> Select(Append(Append(h, a, user), a, reply), b) == Select(h, b)
  {
    AppendTouchesOneHistory(h, a, user, a);
    AppendTouchesOneHistory(Append(h, a, user), a, reply, a);
    assert Select(h, a) + [user] + [reply] == Select(h, a) + [user, reply];
  }

  /** The history a chat message is sent with is the one from before the
      message: the stored chat history afterwards maps to those turns
      followed by the message's own turn and the reply's. */
  lemma SentHistoryOmitsMessage(h: Histories, user: Message, reply: Message)
    ensures HistoryTurns(Select(Append(Append(h, Chat, user), Chat, reply), Chat))
      == HistoryTurns(h.chat) + [TurnOf(user), TurnOf(reply)]
  {
    var after := Append(Append(h, Chat, user), Chat, reply);
    assert SlotFor(Chat) == ChatSlot;
    assert after.chat == h.chat + [user] + [reply] == h.chat + [user, reply];
    assert Select(after, Chat) == after.chat;
    HistoryTurnsAppend(h.chat, [user, reply]);
    var tail := HistoryTurns([user, reply]);
    assert tail[0] == TurnOf(user) && tail[1] == TurnOf(reply);
    assert tail == [TurnOf(user), TurnOf(reply)];
  }

  /** The app's state. */
  class Console {
    var activeAgent: AgentType
    var chatHistory: seq<Message>
    var genHistory: seq<Message>
    var editHistory: seq<Message>
    var localHistory: seq<Message>
    var isLoading: bool
    var imageSize: ImageSize
    var aspectRatio: AspectRatio

    function AllHistories(): Histories
      reads this
    {
      Histories(chatHistory, genHistory, editHistory, localHistory)
    }

    /** getCurrentMessages. */
    function CurrentMessages(): seq<Message>
      reads this
    {
      Select(AllHistories(), activeAgent)
    }

    constructor()
      ensures activeAgent == Chat && AllHistories() == Histories([], [], [], [])
      ensures !isLoading && imageSize == Size1K && aspectRatio == Square
    {
      activeAgent := Chat;
      chatHistory, genHistory, editHistory, localHistory := [], [], [], [];
      isLoading := false;
      imageSize := Size1K;
      aspectRatio := Square;
    }

    method SetActiveAgent(a: AgentType)
      modifies this
      ensures activeAgent == a && AllHistories() == old(AllHistories())
      ensures isLoading == old(isLoading)
      ensures imageSize == old(imageSize) && aspectRatio == old(aspectRatio)
    {
      activeAgent := a;
    }

    method SetImageConfig(size: ImageSize, ratio: AspectRatio)
      modifies this
      ensures imageSize == size && aspectRatio == ratio
      ensures activeAgent == old(activeAgent) && AllHistories() == old(AllHistories())
      ensures isLoading == old(isLoading)
    {
      imageSize := size;
      aspectRatio := ratio;
    }

    method AddMessage(msg: Message, a: AgentType)
      modifies this
      ensures AllHistories() == Append(old(AllHistories()), a, msg)
      ensures activeAgent == old(activeAgent) && isLoading == old(isLoading)
      ensures imageSize == old(imageSize) && aspectRatio == old(aspectRatio)
    {
      match SlotFor(a)
      case GenSlot => genHistory := genHistory + [msg];
      case EditSlot => editHistory := editHistory + [msg];
      case LocalSlot => localHistory := localHistory + [msg];
      case ChatSlot => chatHistory := chatHistory + [msg];
    }

    /** handleSendMessage (App.tsx:1208-1274). The history sent with a
        chat message is the chat history as it stood before the user's
        message was added. `userTime` and `replyTime` are the clock
        readings; `outcome` is the service's answer. */
    method HandleSendMessage(text: string, file: Option<Attachment>, outcome: Result<string>,
                             userTime: int, replyTime: int)
      returns (call: ServiceCall)
      modifies this
      ensures call == CallFor(RouteFor(old(activeAgent), file.Some?), text, file,
                              old(imageSize), old(aspectRatio), old(chatHistory))
      ensures AllHistories() == Append(Append(old(AllHistories()), old(activeAgent),
                                              UserMessage(text, file, userTime)),
                                       old(activeAgent),
                                       Reply(RouteFor(old(activeAgent), file.Some?), outcome, replyTime))
      ensures !isLoading && activeAgent == old(activeAgent)
      ensures imageSize == old(imageSize) && aspectRatio == old(aspectRatio)
    {
      var history := chatHistory;
      AddMessage(UserMessage(text, file, userTime), activeAgent);
      isLoading := true;
      var route := RouteFor(activeAgent, file.Some?);
      call := CallFor(route, text, file, imageSize, aspectRatio, history);
      AddMessage(Reply(route, outcome, replyTime), activeAgent);
      isLoading := false;
    }
  }

  /** What the input box hands to the app. */
  datatype Outgoing = Outgoing(text: string, file: Option<Attachment>)

  /** handleSend's guard (App.tsx:1026): send unless the input is blank
      and nothing is attached. */
  function ShouldSend(input: string, file: Option<Attachment>): bool {
    !(Trim(input) == "" && file.None?)
  }

  lemma ShouldSendIff(input: string, file: Option<Attachment>)
    ensures ShouldSend(input, file) <==> file.Some? || !AllWhitespace(input)
  {
    TrimEmptyIffBlank(input);
  }

  /** The input box's state (App.tsx:1016-1017). */
  class ChatInput {
    var input: string
    var selectedFile: Option<Attachment>

    constructor()
      ensures input == "" && selectedFile.None?
    {
      input := "";
      selectedFile := None;
    }

    method SetInput(text: string)
      modifies this
      ensures input == text && selectedFile == old(selectedFile)
    {
      input := text;
    }

    method SelectFile(file: Option<Attachment>)
      modifies this
      ensures selectedFile == file && input == old(input)
    {
      selectedFile := file;
    }

    /** handleSend (App.tsx:1026-1031): hands over the text and the
        attachment and clears both, or does nothing. */
    method HandleSend() returns (sent: Option<Outgoing>)
      modifies this
      ensures ShouldSend(old(input), old(selectedFile)) ==>
        sent == Some(Outgoing(old(input), old(selectedFile))) && input == "" && selectedFile.None?
      ensures !ShouldSend(old(input), old(selectedFile)) ==>
        sent.None? && input == old(input) && selectedFile == old(selectedFile)
    {
      if !ShouldSend(input, selectedFile) {
        return None;
      }
      sent := Some(Outgoing(input, selectedFile));
      input := "";
      selectedFile := None;
    }

    /** handleKeyDown (App.tsx:1033-1038): Enter without Shift sends. */
    method HandleKeyDown(key: string, shift: bool) returns (sent: Option<Outgoing>)
      modifies this
      ensures key == "Enter" && !shift && ShouldSend(old(input), old(selectedFile)) ==>
        sent == Some(Outgoing(old(input), old(selectedFile))) && input == "" && selectedFile.None?
      ensures !(key == "Enter" && !shift && ShouldSend(old(input), old(selectedFile))) ==>
        sent.None? && input == old(input) && selectedFile == old(selectedFile)
    {
      sent := None;
      if key == "Enter" && !shift {
        sent := HandleSend();
      }
    }
  }

  /** A message typed into the box reaches the active agent's history
      followed by its reply; a blank message with no attachment reaches
      nothing. */
  method TypeAndSend(box: ChatInput, app: Console, text: string, outcome: Result<string>,
                     userTime: int, replyTime: int)
    modifies box, app
    ensures ShouldSend(text, old(box.selectedFile)) ==>
      app.CurrentMessages() == old(app.CurrentMessages()) + [
        UserMessage(text, old(box.selectedFile), userTime),
        Reply(RouteFor(old(app.activeAgent), old(box.selectedFile).Some?), outcome, replyTime)]
    ensures !ShouldSend(text, old(box.selectedFile)) ==> app.AllHistories() == old(app.AllHistories())
  {
    box.SetInput(text);
    var sent := box.HandleKeyDown("Enter", false);
    if sent.Some? {
      var _ := app.HandleSendMessage(sent.value.text, sent.value.file, outcome, userTime, replyTime);
      SendAddsTwo(old(app.AllHistories()), old(app.activeAgent),
        UserMessage(text, old(box.selectedFile), userTime),
        Reply(RouteFor(old(app.activeAgent), old(box.selectedFile).Some?), outcome, replyTime),
        old(app.activeAgent));
    }
  }
}
