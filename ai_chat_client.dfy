/**
 * The chat page of the browser client: which chat is open, the one-request-
 * at-a-time guard on sending, the rendering of a loaded history, the active
 * entry of the chat list and the three-characters-per-tick streaming of a
 * reply.
 */
module AiChatClient {
  import opened Wrappers
  import opened Text
  import ChatStore

  const ChunkSize := 3

  // ---------------------------------------------------------------- streaming

  /** One interval tick while text remains: up to three more characters of the content. */
  function Tick(content: string, index: nat, text: string): (r: (nat, string))
    requires index < |content| && text == content[..index]
    ensures index < r.0 <= index + ChunkSize && r.0 <= |content|
    ensures r.1 == content[..r.0] && |r.1| - |text| <= ChunkSize
  {
    var end := if index + ChunkSize < |content| then index + ChunkSize else |content|;
    assert content[..end] == content[..index] + content[index..end];
    (end, text + content[index..end])
  }

  /**
   * appendStreamingMessage: the loop of interval ticks. Every tick that runs
   * while text remains appends one chunk; the tick that finds nothing left
   * stops. The shown text ends as the whole content after ceil(n/3) chunks.
   */
  method StreamReply(content: string) returns (shown: string, chunks: nat)
    ensures shown == content
    ensures chunks == (|content| + ChunkSize - 1) / ChunkSize
  {
    shown := "";
    var index: nat := 0;
    chunks := 0;
    while index < |content|
      invariant index <= |content| && shown == content[..index]
      invariant index == if ChunkSize * chunks < |content| then ChunkSize * chunks else |content|
      invariant chunks == 0 || ChunkSize * (chunks - 1) < |content|
      decreases |content| - index
    {
      var next := Tick(content, index, shown);
      index, shown := next.0, next.1;
      chunks := chunks + 1;
    }
  }

  // ---------------------------------------------------------------- rendering

  /** A message bubble on the page. */
  datatype Bubble = Bubble(content: string, isAi: bool)

  /** A loaded history is shown in stored order; assistant entries are AI bubbles. */
  function Render(history: seq<ChatStore.Entry>): (r: seq<Bubble>)
    ensures |r| == |history|
    ensures forall i :: 0 <= i < |history| ==>
      r[i].content == history[i].content && (r[i].isAi <==> history[i].role == ChatStore.Assistant)
  {
    seq(|history|, i requires 0 <= i < |history| => Bubble(history[i].content, history[i].role == ChatStore.Assistant))
  }

  /** One sidebar row: its title, with `New Chat` for an empty one, and whether it is marked active. */
  datatype Row = Row(chatId: string, title: string, active: bool)

  function ChatList(chats: seq<ChatStore.Summary>, current: Option<string>): (r: seq<Row>)
    ensures |r| == |chats|
    ensures forall i :: 0 <= i < |chats| ==> r[i].chatId == chats[i].chatId && (r[i].active <==> current == Some(chats[i].chatId))
  {
    seq(|chats|, i requires 0 <= i < |chats| =>
      Row(chats[i].chatId, if chats[i].meta.title == "" then "New Chat" else chats[i].meta.title, current == Some(chats[i].chatId)))
  }

  predicate DistinctChats(chats: seq<ChatStore.Summary>) {
    forall i, j :: 0 <= i < j < |chats| ==> chats[i].chatId != chats[j].chatId
  }

  /** With distinct ids, the open chat's row is the only active row, and no row is active when no chat is open. */
  lemma OneActiveRow(chats: seq<ChatStore.Summary>, current: Option<string>, j: nat)
    requires DistinctChats(chats) && j < |chats| && current == Some(chats[j].chatId)
    ensures ChatList(chats, current)[j].active
    ensures forall i :: 0 <= i < |chats| && i != j ==> !ChatList(chats, current)[i].active
    ensures forall i :: 0 <= i < |chats| ==> !ChatList(chats, None)[i].active
  {
    var rows := ChatList(chats, current);
    forall i | 0 <= i < |chats| && i != j ensures !rows[i].active {
      if i < j {
        assert chats[i].chatId != chats[j].chatId;
      } else {
        assert chats[j].chatId != chats[i].chatId;
      }
    }
  }

  // ---------------------------------------------------------------- page state

  /** The page's globals: the chat it sends to, the chat it shows as open, the guard, the bubbles and the text box. */
  datatype Client = Client(chatId: Option<string>, currentChatId: Option<string>, processing: bool,
                           bubbles: seq<Bubble>, draft: string)

  /** What a send attempt did. */
  datatype SendStep = Ignored | InitFailed | Requested(message: string, chatId: string)

  /** startNewChat, followed by initializeChat, whose new id (None when it failed) is an input. */
  function NewChat(c: Client, started: Option<string>): Client {
    c.(chatId := started, currentChatId := started, bubbles := [])
  }

  /** loadChat; `None` is a failed request, which leaves everything as it was. */
  function Load(c: Client, selected: string, history: Option<seq<ChatStore.Entry>>): Client {
    if history.None? then c
    else c.(chatId := Some(selected), currentChatId := Some(selected), bubbles := Render(history.value))
  }

  /**
   * The first half of sendMessage, up to the request: the guard, lazily
   * starting a chat (with the started id as input), then raising the guard,
   * clearing the text box and showing the user's bubble.
   */
  function BeginSend(c: Client, started: Option<string>): (Client, SendStep) {
    var message := Trim(c.draft);
    if c.processing || message == "" then (c, Ignored)
    else
      var c1 := if Truthy(c.chatId) then c
                else if started.Some? then c.(chatId := started, currentChatId := started)
                else c;
      if !Truthy(c1.chatId) then (c1, InitFailed)
      else (c1.(processing := true, draft := "", bubbles := c1.bubbles + [Bubble(message, false)]),
            Requested(message, c1.chatId.value))
  }

  /** The second half, when the request settles: the reply (None on any error) is shown and the guard dropped. */
  function FinishSend(c: Client, reply: Option<string>): Client {
    c.(processing := false, bubbles := c.bubbles + (if reply.Some? then [Bubble(reply.value, true)] else []))
  }

  /** While a request is pending, or with a blank text box, sending does nothing at all. */
  lemma SendGuard(c: Client, started: Option<string>)
    ensures c.processing || Trim(c.draft) == "" ==> BeginSend(c, started) == (c, Ignored)
    ensures BeginSend(c, started).1.Requested? ==>
      var c1 := BeginSend(c, started).0;
      !c.processing && c1.processing && c1.draft == "" && Truthy(c1.chatId)
      && BeginSend(c, started).1 == Requested(Trim(c.draft), c1.chatId.value)
      && c1.bubbles == c.bubbles + [Bubble(Trim(c.draft), false)]
  {
  }

  /** A full send leaves the guard down again, adding the user's bubble and the reply's bubble in that order. */
  lemma SendRoundTrip(c: Client, started: Option<string>, reply: Option<string>)
    requires BeginSend(c, started).1.Requested?
    ensures var c2 := FinishSend(BeginSend(c, started).0, reply);
      !c2.processing
      && c2.bubbles == c.bubbles + [Bubble(Trim(c.draft), false)] + (if reply.Some? then [Bubble(reply.value, true)] else [])
  {
  }

  /** A chat that is already open is kept; a missing one is started and becomes the open chat too. */
  lemma SendStartsChatOnce(c: Client, started: Option<string>)
    requires !c.processing && Trim(c.draft) != ""
    ensures Truthy(c.chatId) ==> BeginSend(c, started).1 == Requested(Trim(c.draft), c.chatId.value)
    ensures !Truthy(c.chatId) ==>
      (BeginSend(c, started).1.Requested? <==> Truthy(started))
      && (Truthy(started) ==> BeginSend(c, started).0.currentChatId == started)
  {
  }

  /** After a successful load the loaded chat is the open one and is the row marked active. */
  /**
   * A new chat empties the message area and points both ids at the started
   * chat (neither is set when the start failed); the send guard and the text
   * box are left as they were, and no sidebar row is active until a chat exists.
   */
  lemma NewChatResets(c: Client, started: Option<string>, chats: seq<ChatStore.Summary>)
    ensures var c1 := NewChat(c, started);
      c1.bubbles == [] && c1.chatId == started && c1.currentChatId == started
      && c1.processing == c.processing && c1.draft == c.draft
    ensures started.None? ==> forall i :: 0 <= i < |chats| ==> !ChatList(chats, NewChat(c, started).currentChatId)[i].active
  {
  }

  lemma LoadMarksActive(c: Client, selected: string, history: seq<ChatStore.Entry>, chats: seq<ChatStore.Summary>, j: nat)
    requires DistinctChats(chats) && j < |chats| && chats[j].chatId == selected
    ensures var c1 := Load(c, selected, Some(history));
      c1.chatId == c1.currentChatId == Some(selected) && c1.bubbles == Render(history)
      && ChatList(chats, c1.currentChatId)[j].active
      && forall i :: 0 <= i < |chats| && i != j ==> !ChatList(chats, c1.currentChatId)[i].active
  {
    OneActiveRow(chats, Some(selected), j);
  }

  /** The page's globals, updated by its handlers. */
  class ChatPage {
    var chatId: Option<string>
    var currentChatId: Option<string>
    var processing: bool
    var bubbles: seq<Bubble>
    var draft: string

    ghost function Snapshot(): Client
      reads this
    {
      Client(chatId, currentChatId, processing, bubbles, draft)
    }

    constructor ()
      ensures Snapshot() == Client(None, None, false, [], "")
    {
      chatId, currentChatId, processing, bubbles, draft := None, None, false, [], "";
    }

    method Type(text: string)
      modifies this
      ensures Snapshot() == old(Snapshot()).(draft := text)
    {
      draft := text;
    }

    method StartNewChat(started: Option<string>)
      modifies this
      ensures Snapshot() == NewChat(old(Snapshot()), started)
    {
      chatId := None;
      currentChatId := None;
      bubbles := [];
      if started.Some? {
        chatId := started;
        currentChatId := started;
      }
    }

    method LoadChat(selected: string, history: Option<seq<ChatStore.Entry>>)
      modifies this
      ensures Snapshot() == Load(old(Snapshot()), selected, history)
    {
      if history.None? {
        return;
      }
      bubbles := [];
      chatId := Some(selected);
      currentChatId := Some(selected);
      var i := 0;
      while i < |history.value|
        invariant 0 <= i <= |history.value| && bubbles == Render(history.value[..i])
        invariant Snapshot() == Load(old(Snapshot()), selected, history).(bubbles := bubbles)
      {
        var h := history.value;
        bubbles := bubbles + [Bubble(h[i].content, h[i].role == ChatStore.Assistant)];
        assert bubbles == Render(h[..i + 1]);
        i := i + 1;
      }
      assert history.value[..i] == history.value;
    }

    method Send(started: Option<string>) returns (step: SendStep)
      modifies this
      ensures (Snapshot(), step) == BeginSend(old(Snapshot()), started)
    {
      ghost var c := Snapshot();
      if processing {
        return Ignored;
      }
      var message := Trim(draft);
      if message == "" {
        return Ignored;
      }
      if !Truthy(chatId) {
        if started.Some? {
          chatId := started;
          currentChatId := started;
        }
        if !Truthy(chatId) {
          assert BeginSend(c, started) == (Snapshot(), InitFailed);
          return InitFailed;
        }
      }
      ghost var c1 := Snapshot();
      processing := true;
      draft := "";
      bubbles := bubbles + [Bubble(message, false)];
      step := Requested(message, chatId.value);
      assert BeginSend(c, started) == (c1.(processing := true, draft := "", bubbles := c1.bubbles + [Bubble(message, false)]), step);
    }

    /** The settled request: a reply is streamed into a new AI bubble, and the guard is always dropped. */
    method Settle(reply: Option<string>)
      modifies this
      ensures Snapshot() == FinishSend(old(Snapshot()), reply)
    {
      if reply.Some? {
        var shown, _ := StreamReply(reply.value);
        bubbles := bubbles + [Bubble(shown, true)];
      }
      processing := false;
    }
  }
}
