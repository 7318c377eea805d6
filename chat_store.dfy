/**
 * backend/routers/ai.routes.js: the in-memory chat store behind the
 * `/chat/...` routes. `chatHistory` and `chatMetadata` are Maps that the
 * handlers update in place; `order` is the insertion order of `chatMetadata`,
 * which `/chat/list` iterates. The Gemini call is an input `Outcome`; the
 * random chat id and the clock are parameters (times as milliseconds).
 */
module ChatStore {
  import opened Wrappers
  import opened Text
  import opened Sorting
  import opened Grouping

  datatype Role = User | Assistant

  datatype Entry = Entry(role: Role, content: string)

  datatype Metadata = Metadata(title: string, timestamp: int, messageCount: nat, lastUpdated: Option<int>)

  /** One element of the `/chat/list` reply: `{chatId, ...metadata}`. */
  datatype Summary = Summary(chatId: string, meta: Metadata)

  /** What `model.generateContent` came to. */
  datatype Outcome =
    | Threw(message: Option<string>)   // the call (or reading its response) threw; `apiError.message`
    | Answered(blockReason: Option<string>, text: Option<string>)
      // `promptFeedback.blockReason`, and the text from `response.text()` or,
      // when that threw, from the first candidate's first part (None if absent)

  datatype Payload =
    | NewChat(id: string)
    | Reply(response: string)
    | Transcript(history: seq<Entry>)
    | Chats(chats: seq<Summary>)
    | Deleted

  datatype Response =
    | Ok(payload: Payload)
    | Failure(status: nat, error: ErrorText, details: Option<string>)

  /** The fixed `error` texts of the failure replies, by name; Wording gives each one's text. */
  datatype ErrorText =
    | NotInitialised | NotInitialisedHint | MessageRequired | ChatIdRequired | BlockedMessage | EmptyMessage
    | DefaultApiError | EmptyApiError | KeyApiError | QuotaApiError | SafetyApiError | NotFoundApiError

  /** The two maps and the metadata insertion order, as one value. */
  datatype Store = Store(history: map<string, seq<Entry>>, metadata: map<string, Metadata>, order: seq<string>)

  const NewChatTitle: string := "New Chat"
  function Wording(e: ErrorText): string {
    match e
    case NotInitialised => "Gemini API not properly initialized"
    case NotInitialisedHint => "Gemini API not properly initialized. Please check your API key."
    case MessageRequired => "Message is required"
    case ChatIdRequired => "Chat ID is required"
    case BlockedMessage => "Your message was blocked by safety filters. Please try rephrasing."
    case EmptyMessage => "Received empty response from AI. Please try again with a different message."
    case DefaultApiError => "Error communicating with Gemini API"
    case EmptyApiError => "AI returned an empty response. Please try rephrasing your message."
    case KeyApiError => "Invalid API key. Please check your GEMINI_API_KEY in .env file."
    case QuotaApiError => "API quota exceeded. Please check your Google AI Studio quota."
    case SafetyApiError => "Response blocked by safety filters. Try rephrasing your question."
    case NotFoundApiError => "Model not found. The API may have been updated. Please contact support."
  }

  /**
   * The store's invariant: `order` lists the metadata keys once each, every
   * chat with metadata has a history, and its `messageCount` is that
   * history's length.
   */
  ghost predicate Valid(s: Store) {
    NoDuplicates(s.order)
    && (forall id :: id in s.metadata <==> id in s.order)
    && (forall id :: id in s.metadata ==> id in s.history && s.metadata[id].messageCount == |s.history[id]|)
  }

  /** `message.substring(0, 50) + (message.length > 50 ? '...' : '')`. */
  function Title(message: string): (t: string)
    ensures |t| == |Take(message, 50)| + (if |message| > 50 then 3 else 0)
    ensures IsPrefix(Take(message, 50), t)
    ensures |message| <= 50 ==> t == message
    ensures |message| > 50 ==> |t| == 53 && t[50..] == "..."
  {
    Take(message, 50) + (if |message| > 50 then "..." else "")
  }

  /** A title ends with "..." exactly when the message was cut. */
  lemma TitleMarksCut(message: string)
    ensures |message| > 50 <==> |Title(message)| > 50
    ensures |Title(message)| <= 53
    ensures |message| > 50 ==> Title(message) == message[..50] + "..."
  {
  }

  /**
   * The error text for an API failure: the first matching substring test in
   * a fixed order wins, and a missing message matches none.
   */
  function ClassifyError(message: Option<string>): ErrorText
  {
    if message.None? then DefaultApiError
    else
      var m := message.value;
      if Contains(m, "empty") then EmptyApiError
      else if Contains(m, "API key") || Contains(m, "API_KEY_INVALID") then KeyApiError
      else if Contains(m, "quota") || Contains(m, "RESOURCE_EXHAUSTED") then QuotaApiError
      else if Contains(m, "SAFETY") || Contains(m, "blocked") then SafetyApiError
      else if Contains(m, "404") || Contains(m, "Not Found") then NotFoundApiError
      else DefaultApiError
  }

  /**
   * A missing message gives the default text, "empty" wins over every other
   * test, a key problem comes next, and the text is always one of the six.
   */
  lemma ClassifyErrorCases(message: Option<string>)
    ensures message.None? ==> ClassifyError(message) == DefaultApiError
    ensures message.Some? && Contains(message.value, "empty") ==> ClassifyError(message) == EmptyApiError
    ensures (message.Some? && !Contains(message.value, "empty")
             && (Contains(message.value, "API key") || Contains(message.value, "API_KEY_INVALID")))
            ==> ClassifyError(message) == KeyApiError
    ensures ClassifyError(message) in {DefaultApiError, EmptyApiError, KeyApiError, QuotaApiError, SafetyApiError, NotFoundApiError}
  {
  }

  /** The default message is given exactly when no test matches. */
  lemma ClassifyDefault(message: string)
    ensures ClassifyError(Some(message)) == DefaultApiError <==>
              !Contains(message, "empty") && !Contains(message, "API key") && !Contains(message, "API_KEY_INVALID")
              && !Contains(message, "quota") && !Contains(message, "RESOURCE_EXHAUSTED")
              && !Contains(message, "SAFETY") && !Contains(message, "blocked")
              && !Contains(message, "404") && !Contains(message, "Not Found")
  {
  }

  /**
   * An earlier test shadows a later one: a message that matches a test is
   * never reported by a later one, so a quota or safety error that mentions
   * "empty" is reported as empty, and a 404 that mentions the key as a key problem.
   */
  lemma ClassifyFirstMatchWins(m: string)
    ensures Contains(m, "empty") ==> ClassifyError(Some(m)) == EmptyApiError
    ensures !Contains(m, "empty") && (Contains(m, "API key") || Contains(m, "API_KEY_INVALID")) ==>
      ClassifyError(Some(m)) == KeyApiError
    ensures ClassifyError(Some(m)) == QuotaApiError ==>
      !Contains(m, "empty") && !Contains(m, "API key") && !Contains(m, "API_KEY_INVALID")
    ensures ClassifyError(Some(m)) == SafetyApiError ==>
      !Contains(m, "quota") && !Contains(m, "RESOURCE_EXHAUSTED")
    ensures ClassifyError(Some(m)) == NotFoundApiError ==>
      !Contains(m, "SAFETY") && !Contains(m, "blocked") && !Contains(m, "quota")
  {
  }

  /** One concrete shadowed message: a quota error that mentions "empty". */
  lemma QuotaEmptyIsEmpty()
    ensures ClassifyError(Some("quota empty")) == EmptyApiError
  {
    assert IsPrefix("empty", "quota empty"[6..]);
    assert Contains("quota empty"[6..], "empty");
    assert "quota empty"[6..] == "quota empty"[1..][1..][1..][1..][1..][1..];
  }

  /** `Map.set` on a key: an existing key keeps its place, a new one goes last. */
  function AddKey(order: seq<string>, id: string): (o: seq<string>)
    ensures forall x :: x in o <==> x in order || x == id
    ensures NoDuplicates(order) ==> NoDuplicates(o)
  {
    if id in order then order else order + [id]
  }

  /** `Map.delete` on the insertion order. */
  function DropKey(order: seq<string>, id: string): (o: seq<string>)
    ensures forall x :: x in o <==> x in order && x != id
    ensures NoDuplicates(order) ==> NoDuplicates(o)
    decreases |order|
  {
    if order == [] then []
    else
      var rest := DropKey(order[..|order| - 1], id);
      var last := order[|order| - 1];
      assert forall x :: x in order <==> x in order[..|order| - 1] || x == last by {
        assert order == order[..|order| - 1] + [last];
      }
      assert NoDuplicates(order) ==> NoDuplicates(order[..|order| - 1]) && last !in order[..|order| - 1];
      rest + (if last == id then [] else [last])
  }

  /** `POST /chat/start`: a fresh empty chat titled 'New Chat'. */
  function StartChat(s: Store, modelReady: bool, id: string, now: int): (Store, Response) {
    if !modelReady then (s, Failure(500, NotInitialised, None))
    else
      (Store(s.history[id := []], s.metadata[id := Metadata(NewChatTitle, now, 0, None)], AddKey(s.order, id)),
       Ok(NewChat(id)))
  }

  /** The metadata after a successful exchange that left `count` history entries. */
  function Touch(meta: Metadata, message: string, count: nat, now: int): (m: Metadata)
    ensures m.messageCount == count && m.lastUpdated == Some(now) && m.timestamp == meta.timestamp
    ensures m.title == if meta.title == NewChatTitle then Title(message) else meta.title
  {
    meta.(title := if meta.title == NewChatTitle then Title(message) else meta.title,
          messageCount := count, lastUpdated := Some(now))
  }

  /**
   * `POST /chat/message`. The guards come first; a chat without a history
   * gets an empty one before the model is called, so it stays even when the
   * call fails. Only a usable answer appends entries and touches metadata.
   */
  function SendMessage(s: Store, modelReady: bool, message: Option<string>, chatId: Option<string>,
                       outcome: Outcome, now: int): (Store, Response)
  {
    if !modelReady then (s, Failure(500, NotInitialisedHint, None))
    else if !Truthy(message) then (s, Failure(400, MessageRequired, None))
    else if !Truthy(chatId) then (s, Failure(400, ChatIdRequired, None))
    else Exchange(s, chatId.value, message.value, outcome, now)
  }

  /** The part of `POST /chat/message` after the guards: the model call's outcome recorded in the chat. */
  function Exchange(s: Store, id: string, msg: string, outcome: Outcome, now: int): (Store, Response) {
    Answer(Pending(s, id), id, msg, outcome, now)
  }

  /** A chat without a history gets an empty one before the model is called. */
  function Pending(s: Store, id: string): (t: Store)
    ensures id in t.history
  {
    s.(history := s.history[id := if id in s.history then s.history[id] else []])
  }

  /** The outcome of the model call: only a usable answer appends entries and touches metadata. */
  function Answer(s: Store, id: string, msg: string, outcome: Outcome, now: int): (Store, Response)
    requires id in s.history
  {
    match outcome
    case Threw(e) => (s, Failure(500, ClassifyError(e), e))
    case Answered(blockReason, text) =>
      if Truthy(blockReason) then (s, Failure(400, BlockedMessage, blockReason))
      else if !Truthy(text) || Trim(text.value) == "" then (s, Failure(500, EmptyMessage, Some("Empty model output")))
      else
        var after := s.history[id] + [Entry(User, msg), Entry(Assistant, text.value)];
        var metadata := if id in s.metadata then s.metadata[id := Touch(s.metadata[id], msg, |after|, now)] else s.metadata;
        (Store(s.history[id := after], metadata, s.order), Ok(Reply(text.value)))
  }

  /** The exchange succeeds: guards pass, nothing blocks it, and the text is not blank. */
  predicate Usable(outcome: Outcome) {
    outcome.Answered? && !Truthy(outcome.blockReason) && Truthy(outcome.text) && Trim(outcome.text.value) != ""
  }

  /** `GET /chat/history/:chatId`: an unknown chat reads as an empty history. */
  function HistoryOf(s: Store, id: string): (h: seq<Entry>)
    ensures id !in s.history ==> h == []
    ensures id in s.history ==> h == s.history[id]
  {
    if id in s.history then s.history[id] else []
  }

  /** `lastUpdated || timestamp`: the sort key of the chat list. */
  function Recency(c: Summary): int {
    if c.meta.lastUpdated.Some? then c.meta.lastUpdated.value else c.meta.timestamp
  }

  /** The metadata entries in map order. */
  function Summaries(order: seq<string>, metadata: map<string, Metadata>): seq<Summary>
    requires forall id :: id in order ==> id in metadata
    decreases |order|
  {
    if order == [] then []
    else
      var n := |order| - 1;
      Summaries(order[..n], metadata) + [Summary(order[n], metadata[order[n]])]
  }

  /** `GET /chat/list`: most recently updated first. */
  function ListChats(s: Store): seq<Summary>
    requires Valid(s)
  {
    SortDesc(Summaries(s.order, s.metadata), Recency)
  }

  /** `DELETE /chat/:chatId`. */
  function DeleteChat(s: Store, id: string): Store {
    Store(s.history - {id}, s.metadata - {id}, DropKey(s.order, id))
  }

  // -------------------------------------------------------------- lemmas

  /** Start stores an empty history and 'New Chat' metadata with count 0, and keeps the invariant. */
  lemma StartCreates(s: Store, id: string, now: int)
    requires Valid(s)
    ensures var (t, r) := StartChat(s, true, id, now);
      r == Ok(NewChat(id)) && t.history[id] == [] && t.metadata[id] == Metadata(NewChatTitle, now, 0, None)
      && Valid(t)
  {
  }

  /** Without an initialised model, nothing is stored. */
  lemma StartNeedsModel(s: Store, id: string, now: int)
    ensures StartChat(s, false, id, now).0 == s && StartChat(s, false, id, now).1.status == 500
  {
  }

  /** A missing or empty message or chat id is a 400 that changes nothing. */
  lemma GuardsChangeNothing(s: Store, message: Option<string>, chatId: Option<string>, outcome: Outcome, now: int)
    requires !Truthy(message) || !Truthy(chatId)
    ensures var (t, r) := SendMessage(s, true, message, chatId, outcome, now);
      t == s && r.Failure? && r.status == 400
      && r.error == if !Truthy(message) then MessageRequired else ChatIdRequired
  {
  }

  /** A successful exchange appends exactly the user entry and then the assistant entry. */
  lemma SuccessAppendsTwo(s: Store, message: string, id: string, outcome: Outcome, now: int)
    requires message != "" && id != "" && Usable(outcome)
    ensures var (t, r) := SendMessage(s, true, Some(message), Some(id), outcome, now);
      r == Ok(Reply(outcome.text.value))
      && t.history == s.history[id := HistoryOf(s, id) + [Entry(User, message), Entry(Assistant, outcome.text.value)]]
      && t.order == s.order
  {
    var p := Pending(s, id);
    var after := HistoryOf(s, id) + [Entry(User, message), Entry(Assistant, outcome.text.value)];
    GuardsPassed(s, message, id, outcome, now);
    AnswerUsable(p, id, message, outcome, now);
    assert p.history[id] == HistoryOf(s, id);
    assert p.history[id := after] == s.history[id := after];
  }

  /** With the model ready and both fields given, the request is the exchange on the pending store. */
  lemma GuardsPassed(s: Store, message: string, id: string, outcome: Outcome, now: int)
    requires message != "" && id != ""
    ensures SendMessage(s, true, Some(message), Some(id), outcome, now) == Answer(Pending(s, id), id, message, outcome, now)
  {
  }

  /** A usable answer appends its two entries and replies with the text. */
  lemma AnswerUsable(s: Store, id: string, message: string, outcome: Outcome, now: int)
    requires id in s.history && Usable(outcome)
    ensures var (t, r) := Answer(s, id, message, outcome, now);
      r == Ok(Reply(outcome.text.value)) && t.order == s.order
      && t.history == s.history[id := s.history[id] + [Entry(User, message), Entry(Assistant, outcome.text.value)]]
  {
  }

  /**
   * A blocked, empty or failed answer appends nothing and leaves the metadata
   * alone; the only change is the empty history created for an unknown chat.
   */
  lemma FailureAppendsNothing(s: Store, message: string, id: string, outcome: Outcome, now: int)
    requires message != "" && id != "" && !Usable(outcome)
    ensures var (t, r) := SendMessage(s, true, Some(message), Some(id), outcome, now);
      r.Failure? && t.metadata == s.metadata && t.order == s.order
      && t.history == s.history[id := HistoryOf(s, id)]
      && (outcome.Answered? && Truthy(outcome.blockReason) ==> r.status == 400 && r.error == BlockedMessage)
      && (outcome.Threw? ==> r.status == 500 && r.error == ClassifyError(outcome.message))
  {
  }

  /**
   * After a success the metadata, if the chat has any, counts the history and
   * carries the new time; the title changes only from 'New Chat'. A chat whose
   * history was created implicitly still has no metadata.
   */
  lemma SuccessUpdatesMetadata(s: Store, message: string, id: string, outcome: Outcome, now: int)
    requires message != "" && id != "" && Usable(outcome)
    ensures var (t, r) := SendMessage(s, true, Some(message), Some(id), outcome, now);
      (id in t.metadata <==> id in s.metadata)
      && (id in s.metadata ==>
            t.metadata[id].messageCount == |t.history[id]|
            && t.metadata[id].lastUpdated == Some(now)
            && t.metadata[id].title == if s.metadata[id].title == NewChatTitle then Title(message) else s.metadata[id].title)
      && forall other :: other != id ==> (other in t.metadata <==> other in s.metadata)
                                         && (other in s.metadata ==> t.metadata[other] == s.metadata[other])
  {
  }

  /** Every message request keeps the invariant, in particular `messageCount == |history|`. */
  lemma SendKeepsValid(s: Store, modelReady: bool, message: Option<string>, chatId: Option<string>, outcome: Outcome, now: int)
    requires Valid(s)
    ensures Valid(SendMessage(s, modelReady, message, chatId, outcome, now).0)
  {
    if modelReady && Truthy(message) && Truthy(chatId) {
      var id := chatId.value;
      var pending := s.(history := s.history[id := HistoryOf(s, id)]);
      assert Valid(pending);
      if Usable(outcome) {
        SuccessAppendsTwo(s, message.value, id, outcome, now);
        SuccessUpdatesMetadata(s, message.value, id, outcome, now);
      } else {
        FailureAppendsNothing(s, message.value, id, outcome, now);
      }
    }
  }

  /** Delete removes the chat from both maps and keeps the invariant. */
  lemma DeleteRemoves(s: Store, id: string)
    requires Valid(s)
    ensures var t := DeleteChat(s, id);
      id !in t.history && id !in t.metadata && Valid(t)
      && forall other :: other != id && other in s.metadata ==> other in t.metadata && t.metadata[other] == s.metadata[other]
  {
  }

  /** Summaries lists each chat of `order` once, with its metadata. */
  lemma {:induction false} SummariesListChats(order: seq<string>, metadata: map<string, Metadata>)
    requires forall id :: id in order ==> id in metadata
    ensures |Summaries(order, metadata)| == |order|
    ensures forall i :: 0 <= i < |order| ==> Summaries(order, metadata)[i] == Summary(order[i], metadata[order[i]])
    decreases |order|
  {
    if order != [] {
      var n := |order| - 1;
      SummariesListChats(order[..n], metadata);
    }
  }

  /** The list is newest first and holds exactly the stored chats. */
  lemma ListOrdered(s: Store)
    requires Valid(s)
    ensures var l := ListChats(s);
      SortedDesc(l, Recency) && multiset(l) == multiset(Summaries(s.order, s.metadata)) && |l| == |s.order|
      && forall c :: c in l <==> c.chatId in s.metadata && c.meta == s.metadata[c.chatId]
  {
    var all := Summaries(s.order, s.metadata);
    SummariesListChats(s.order, s.metadata);
    var l := ListChats(s);
    forall c
      ensures c in l <==> c.chatId in s.metadata && c.meta == s.metadata[c.chatId]
    {
      assert c in l <==> c in multiset(all);
      if c.chatId in s.metadata && c.meta == s.metadata[c.chatId] {
        var i :| 0 <= i < |s.order| && s.order[i] == c.chatId;
        assert all[i] == c;
      }
    }
  }

  // ------------------------------------------------------ the live store

  /** The route module's state, updated in place. */
  class ChatServer {
    /** Whether the Gemini model was initialised at start-up. */
    const modelReady: bool
    var history: map<string, seq<Entry>>
    var metadata: map<string, Metadata>
    var order: seq<string>

    ghost function Snapshot(): Store
      reads this
    {
      Store(history, metadata, order)
    }

    constructor (ready: bool)
      ensures modelReady == ready && Snapshot() == Store(map[], map[], []) && Valid(Snapshot())
    {
      modelReady := ready;
      history, metadata, order := map[], map[], [];
    }

    method Start(id: string, now: int) returns (r: Response)
      requires Valid(Snapshot())
      modifies this
      ensures (Snapshot(), r) == StartChat(old(Snapshot()), modelReady, id, now)
      ensures Valid(Snapshot())
    {
      if !modelReady {
        return Failure(500, NotInitialised, None);
      }
      history := history[id := []];
      metadata := metadata[id := Metadata(NewChatTitle, now, 0, None)];
      order := AddKey(order, id);
      r := Ok(NewChat(id));
    }

    method Message(message: Option<string>, chatId: Option<string>, outcome: Outcome, now: int) returns (r: Response)
      requires Valid(Snapshot())
      modifies this
      ensures (Snapshot(), r) == SendMessage(old(Snapshot()), modelReady, message, chatId, outcome, now)
      ensures Valid(Snapshot())
    {
      if !modelReady {
        r := Failure(500, NotInitialisedHint, None);
      } else if !Truthy(message) {
        r := Failure(400, MessageRequired, None);
      } else if !Truthy(chatId) {
        r := Failure(400, ChatIdRequired, None);
      } else {
        r := Record(chatId.value, message.value, outcome, now);
      }
      SendKeepsValid(old(Snapshot()), modelReady, message, chatId, outcome, now);
    }

    /** The handler after its guards: the empty history for a new chat, then the model's outcome. */
    method Record(id: string, msg: string, outcome: Outcome, now: int) returns (r: Response)
      modifies this
      ensures (Snapshot(), r) == Exchange(old(Snapshot()), id, msg, outcome, now)
    {
      if id !in history {
        history := history[id := []];
      }
      assert Snapshot() == Pending(old(Snapshot()), id);
      r := Apply(id, msg, outcome, now);
    }

    /** The model's outcome applied to a chat that has a history. */
    method Apply(id: string, msg: string, outcome: Outcome, now: int) returns (r: Response)
      requires id in history
      modifies this
      ensures (Snapshot(), r) == Answer(old(Snapshot()), id, msg, outcome, now)
    {
      if outcome.Threw? {
        r := Failure(500, ClassifyError(outcome.message), outcome.message);
      } else if Truthy(outcome.blockReason) {
        r := Failure(400, BlockedMessage, outcome.blockReason);
      } else if !Truthy(outcome.text) || Trim(outcome.text.value) == "" {
        r := Failure(500, EmptyMessage, Some("Empty model output"));
      } else {
        var text := outcome.text.value;
        var entries := history[id] + [Entry(User, msg)];
        entries := entries + [Entry(Assistant, text)];
        assert entries == old(history)[id] + [Entry(User, msg), Entry(Assistant, text)];
        history := history[id := entries];
        if id in metadata {
          metadata := metadata[id := Touch(metadata[id], msg, |entries|, now)];
        }
        r := Ok(Reply(text));
      }
    }

    method History(id: string) returns (r: Response)
      ensures r == Ok(Transcript(HistoryOf(Snapshot(), id)))
    {
      var h := if id in history then history[id] else [];
      r := Ok(Transcript(h));
    }

    /** Collects `{chatId, ...metadata}` in map order, then sorts newest first. */
    method List() returns (r: Response)
      requires Valid(Snapshot())
      ensures r == Ok(Chats(ListChats(Snapshot())))
    {
      var chats: seq<Summary> := [];
      for i := 0 to |order|
        invariant chats == Summaries(order[..i], metadata)
      {
        assert order[..i + 1][..i] == order[..i];
        chats := chats + [Summary(order[i], metadata[order[i]])];
      }
      assert order[..|order|] == order;
      r := Ok(Chats(SortDesc(chats, Recency)));
    }

    method Delete(id: string) returns (r: Response)
      requires Valid(Snapshot())
      modifies this
      ensures Snapshot() == DeleteChat(old(Snapshot()), id) && r == Ok(Deleted)
      ensures Valid(Snapshot())
    {
      DeleteRemoves(Snapshot(), id);
      history := history - {id};
      metadata := metadata - {id};
      order := DropKey(order, id);
      r := Ok(Deleted);
    }
  }
}
