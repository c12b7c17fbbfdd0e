/** The chat window's state (frontend/src/components/ChatWindow.tsx): the message list, the
    input box, the loading flag and the conversation id. `handleSendMessage` runs in two steps,
    split at its `await`: `StartSend` appends the user message and a loading placeholder and
    issues the request; `FinishSend` takes the server's reply (or what the request threw) and
    settles the placeholder. `Date.now()` readings are parameters. */
module Chat {
  import opened Common
  import opened Text
  import opened Api
  import opened Lists

  datatype Role = User | Assistant

  /** A message's time: a reading of the local clock, or the server's timestamp text. */
  datatype Stamp = LocalClock(ms: nat) | ServerTime(text: string)

  datatype Message = Message(id: string, role: Role, content: string, sources: Option<seq<SourceDocument>>,
                             timestamp: Stamp, isLoading: bool)

  /** The continuation of a send waiting on the server: the placeholder's id and the
      conversation id the handler read when it started. */
  datatype PendingSend = PendingSend(loadingId: string, conversationId: Option<string>)

  function UserMessage(content: string, now: nat): Message {
    Message("user-" + Decimal(now), User, content, None, LocalClock(now), false)
  }

  function LoadingMessage(now: nat): Message {
    Message("loading-" + Decimal(now), Assistant, "", None, LocalClock(now), true)
  }

  function AssistantMessage(r: ChatResponse): Message {
    Message(r.messageId, Assistant, r.answer, Some(r.sources), ServerTime(r.timestamp), false)
  }

  function ErrorMessage(t: Thrown, now: nat): Message {
    Message("error-" + Decimal(now), Assistant, "Sorry, I encountered an error: " + ThrownText(t, "Unknown error"),
            None, LocalClock(now), false)
  }

  /** The guard at the top of `handleSendMessage`. */
  predicate SendBlocked(inputValue: string, isLoading: bool) {
    Trim(inputValue) == [] || isLoading
  }

  function HasId(id: string): Message -> bool {
    (m: Message) => m.id == id
  }

  function Always(m: Message): Message -> Message {
    (_: Message) => m
  }

  /** The list after a reply: every message with the placeholder's id becomes the answer. */
  function Answered(messages: seq<Message>, loadingId: string, r: ChatResponse): seq<Message> {
    ReplaceWhere(messages, HasId(loadingId), Always(AssistantMessage(r)))
  }

  /** The list after a failed request: the placeholder is dropped and an error message appended. */
  function Failed(messages: seq<Message>, loadingId: string, t: Thrown, now: nat): seq<Message> {
    RemoveWhere(messages, HasId(loadingId)) + [ErrorMessage(t, now)]
  }

  /** The conversation id after a reply: taken from the response only when the handler found
      none (undefined or "") when it started. */
  function ConversationAfter(current: Option<string>, captured: Option<string>, reply: Result<ChatResponse, Thrown>): Option<string> {
    if reply.Success? && !Truthy(captured) then Some(reply.value.conversationId) else current
  }

  class ChatWindow {
    var messages: seq<Message>
    var inputValue: string
    var isLoading: bool
    var conversationId: Option<string>
    var pending: Option<PendingSend>

    /** The window is loading exactly while a send waits on the server, and the conversation id
        differs from the one that send read only if a clear has reset it. */
    ghost predicate Valid()
      reads this
    {
      && (isLoading <==> pending.Some?)
      && (pending.Some? ==> conversationId == pending.value.conversationId || conversationId == None)
    }

    constructor ()
      ensures Valid()
      ensures messages == [] && inputValue == "" && !isLoading && conversationId == None && pending == None
    {
      messages := [];
      inputValue := "";
      isLoading := false;
      conversationId := None;
      pending := None;
    }

    /** The textarea's `onChange`. */
    method EditInput(value: string)
      requires Valid()
      modifies this
      ensures Valid()
      ensures inputValue == value
      ensures messages == old(messages) && isLoading == old(isLoading)
      ensures conversationId == old(conversationId) && pending == old(pending)
    {
      inputValue := value;
    }

    /** `handleSendMessage` up to the `await`: returns the request sent, or None when the guard
        stops it. `documentIds` is the prop's value at that moment; `userNow` and `loadingNow`
        are the two `Date.now()` readings. */
    method StartSend(documentIds: Option<seq<string>>, userNow: nat, loadingNow: nat) returns (request: Option<ChatRequest>)
      requires Valid()
      modifies this
      ensures Valid()
      ensures SendBlocked(old(inputValue), old(isLoading)) ==>
        request == None && messages == old(messages) && inputValue == old(inputValue) &&
        isLoading == old(isLoading) && conversationId == old(conversationId) && pending == old(pending)
      ensures !SendBlocked(old(inputValue), old(isLoading)) ==>
        && request == Some(ChatRequest(Trim(old(inputValue)), old(conversationId), documentIds))
        && messages == old(messages) + [UserMessage(Trim(old(inputValue)), userNow), LoadingMessage(loadingNow)]
        && inputValue == "" && isLoading && conversationId == old(conversationId)
        && pending == Some(PendingSend(LoadingMessage(loadingNow).id, old(conversationId)))
    {
      if SendBlocked(inputValue, isLoading) {
        return None;
      }
      var userMessage := UserMessage(Trim(inputValue), userNow);
      messages := messages + [userMessage];
      inputValue := "";
      isLoading := true;
      var loadingMessage := LoadingMessage(loadingNow);
      messages := messages + [loadingMessage];
      pending := Some(PendingSend(loadingMessage.id, conversationId));
      request := Some(ChatRequest(userMessage.content, conversationId, documentIds));
    }

    /** `handleSendMessage` after the `await`: the conversation id is adopted from a first
        reply, the placeholder is replaced by the answer or traded for an error message, and
        the window stops loading. `errorNow` is the clock reading for an error message. */
    method FinishSend(reply: Result<ChatResponse, Thrown>, errorNow: nat)
      requires Valid() && pending.Some?
      modifies this
      ensures Valid()
      ensures messages == match reply
        case Success(r) => Answered(old(messages), old(pending).value.loadingId, r)
        case Failure(t) => Failed(old(messages), old(pending).value.loadingId, t, errorNow)
      ensures conversationId == ConversationAfter(old(conversationId), old(pending).value.conversationId, reply)
      ensures Truthy(old(conversationId)) ==> conversationId == old(conversationId)
      ensures !isLoading && pending == None && inputValue == old(inputValue)
    {
      var loadingId := pending.value.loadingId;
      var captured := pending.value.conversationId;
      match reply {
        case Success(response) =>
          if !Truthy(captured) {
            conversationId := Some(response.conversationId);
          }
          messages := ReplaceWhere(messages, HasId(loadingId), Always(AssistantMessage(response)));
        case Failure(error) =>
          messages := RemoveWhere(messages, HasId(loadingId));
          messages := messages + [ErrorMessage(error, errorNow)];
      }
      isLoading := false;
      pending := None;
    }

    /** `handleClearChat`: asks the server to forget a known conversation (returning the id it
        sends, if any; a failure of that call is only logged), then always empties the list and
        forgets the id. */
    method ClearChat() returns (cleared: Option<string>)
      requires Valid()
      modifies this
      ensures Valid()
      ensures cleared == if Truthy(old(conversationId)) then old(conversationId) else None
      ensures messages == [] && conversationId == None
      ensures inputValue == old(inputValue) && isLoading == old(isLoading) && pending == old(pending)
    {
      cleared := if Truthy(conversationId) then conversationId else None;
      messages := [];
      conversationId := None;
    }
  }

  /** A send is refused exactly when a request is in flight or the input holds only whitespace. */
  lemma SendBlockedIff(inputValue: string, isLoading: bool)
    ensures SendBlocked(inputValue, isLoading) <==>
      isLoading || forall i :: 0 <= i < |inputValue| ==> IsJsWhitespace(inputValue[i])
  {
    TrimEmptyIff(inputValue);
  }

  /** The ids the component makes from clock readings never coincide across kinds. */
  lemma IdKindsDiffer(c: string, t: Thrown, a: nat, b: nat)
    ensures UserMessage(c, a).id != LoadingMessage(b).id
    ensures ErrorMessage(t, a).id != LoadingMessage(b).id
    ensures UserMessage(c, a).id != ErrorMessage(t, b).id
  {
    assert UserMessage(c, a).id[0] == 'u';
    assert LoadingMessage(b).id[0] == 'l';
    assert ErrorMessage(t, a).id[0] == 'e';
    assert ErrorMessage(t, b).id[0] == 'e';
  }

  /** A send answered by the server: when no earlier message has the placeholder's id, the list
      ends with the user message followed by the answer. */
  lemma {:induction false} SendCycleAnswered(prior: seq<Message>, content: string, userNow: nat, loadingNow: nat, r: ChatResponse)
    requires forall i :: 0 <= i < |prior| ==> prior[i].id != LoadingMessage(loadingNow).id
    ensures Answered(prior + [UserMessage(content, userNow), LoadingMessage(loadingNow)], LoadingMessage(loadingNow).id, r)
      == prior + [UserMessage(content, userNow), AssistantMessage(r)]
  {
    var id := LoadingMessage(loadingNow).id;
    var p := HasId(id);
    var f := Always(AssistantMessage(r));
    IdKindsDiffer(content, NonError, userNow, loadingNow);
    ReplaceWhereAppend(prior, [UserMessage(content, userNow), LoadingMessage(loadingNow)], p, f);
    ReplaceWhereNoMatch(prior, p, f);
  }

  /** A send whose request fails: when no earlier message has the placeholder's id, the list
      ends with the user message followed by the error message. */
  lemma {:induction false} SendCycleFailed(prior: seq<Message>, content: string, userNow: nat, loadingNow: nat, t: Thrown, errorNow: nat)
    requires forall i :: 0 <= i < |prior| ==> prior[i].id != LoadingMessage(loadingNow).id
    ensures Failed(prior + [UserMessage(content, userNow), LoadingMessage(loadingNow)], LoadingMessage(loadingNow).id, t, errorNow)
      == prior + [UserMessage(content, userNow), ErrorMessage(t, errorNow)]
  {
    var id := LoadingMessage(loadingNow).id;
    var p := HasId(id);
    var user := UserMessage(content, userNow);
    IdKindsDiffer(content, NonError, userNow, loadingNow);
    RemoveWhereAppend(prior, [user, LoadingMessage(loadingNow)], p);
    RemoveWhereNoMatch(prior, p);
    assert [user, LoadingMessage(loadingNow)] == [user] + [LoadingMessage(loadingNow)];
    RemoveWhereAppend([user], [LoadingMessage(loadingNow)], p);
    assert RemoveWhere([user], p) == [user] by {
      assert [user][1..] == [];
    }
    assert RemoveWhere([LoadingMessage(loadingNow)], p) == [] by {
      assert [LoadingMessage(loadingNow)][1..] == [];
    }
  }

  /** The answer takes the placeholder's place: when exactly one message has that id, the list
      is the old one with that position replaced, and nothing else moves. */
  lemma AnsweredInPlace(messages: seq<Message>, k: nat, loadingId: string, r: ChatResponse)
    requires k < |messages| && messages[k].id == loadingId
    requires forall i :: 0 <= i < |messages| && i != k ==> messages[i].id != loadingId
    ensures Answered(messages, loadingId, r) == messages[k := AssistantMessage(r)]
  {
  }

  /** On failure exactly the messages with the placeholder's id disappear, every other message
      keeps its multiplicity and order, and the error message comes last. */
  lemma FailedShape(messages: seq<Message>, loadingId: string, t: Thrown, now: nat, m: Message)
    ensures var r := Failed(messages, loadingId, t, now);
      && r[|r| - 1] == ErrorMessage(t, now)
      && Subsequence(r[..|r| - 1], messages)
      && (forall i :: 0 <= i < |r| - 1 ==> r[i].id != loadingId)
      && multiset(r[..|r| - 1])[m] == if m.id == loadingId then 0 else multiset(messages)[m]
  {
    var r := Failed(messages, loadingId, t, now);
    assert r[..|r| - 1] == RemoveWhere(messages, HasId(loadingId));
    RemoveWhereCounts(messages, HasId(loadingId), m);
  }

  /** One full send from an idle window: the request carries the trimmed input, and the list
      grows by the user message and then the answer or the error message. */
  method SendRoundTrip(w: ChatWindow, documentIds: Option<seq<string>>, userNow: nat, loadingNow: nat,
                       reply: Result<ChatResponse, Thrown>, errorNow: nat) returns (request: Option<ChatRequest>)
    requires w.Valid() && !w.isLoading && Trim(w.inputValue) != []
    requires forall i :: 0 <= i < |w.messages| ==> w.messages[i].id != LoadingMessage(loadingNow).id
    modifies w
    ensures w.Valid() && !w.isLoading && w.inputValue == ""
    ensures request == Some(ChatRequest(Trim(old(w.inputValue)), old(w.conversationId), documentIds))
    ensures w.messages == old(w.messages) + [UserMessage(Trim(old(w.inputValue)), userNow),
      match reply
      case Success(r) => AssistantMessage(r)
      case Failure(t) => ErrorMessage(t, errorNow)]
    ensures Truthy(old(w.conversationId)) ==> w.conversationId == old(w.conversationId)
  {
    ghost var prior := w.messages;
    ghost var content := Trim(w.inputValue);
    request := w.StartSend(documentIds, userNow, loadingNow);
    w.FinishSend(reply, errorNow);
    match reply {
      case Success(r) => SendCycleAnswered(prior, content, userNow, loadingNow, r);
      case Failure(t) => SendCycleFailed(prior, content, userNow, loadingNow, t, errorNow);
    }
  }
}
