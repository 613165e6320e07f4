/** The conversation state of the chat page (App.tsx): `handleSend`, split at its
    one `await` into BeginSend and FinishSend, `handleReset`, and the history the
    page hands to the completion service. */
module App {
  import opened Wrappers
  import opened Types
  import opened Text
  import opened GeminiService

  const ErrorPrefix: string := "Strategic Engine Error: "
  const DefaultErrorDetail: string := "Failed to process the request."

  /** `{ role: m.role as string, parts: [{ text: m.content }] }`. */
  function ToContent(m: Message): Content {
    Content(RoleValue(m.role), [Part(m.content)])
  }

  /** The outbound history: the messages in order, without system messages, each
      as a content entry. */
  function History(messages: seq<Message>): (r: seq<Content>)
    ensures |r| <= |messages|
    ensures forall i :: 0 <= i < |r| ==> r[i].role != RoleValue(System) && |r[i].parts| == 1
  {
    if messages == [] then []
    else (if messages[0].role == System then [] else [ToContent(messages[0])]) + History(messages[1..])
  }

  /** Building the history distributes over concatenation, so entries keep the
      order of their messages. */
  lemma {:induction false} HistoryAppend(a: seq<Message>, b: seq<Message>)
    ensures History(a + b) == History(a) + History(b)
  {
    if a == [] {
      assert a + b == b;
    } else {
      assert (a + b)[1..] == a[1..] + b;
      HistoryAppend(a[1..], b);
    }
  }

  /** A single message contributes its entry unless it is a system message. */
  lemma HistoryOne(m: Message)
    ensures History([m]) == if m.role == System then [] else [ToContent(m)]
  {
    assert [m][1..] == [];
  }

  predicate NoSystem(messages: seq<Message>) {
    forall i :: 0 <= i < |messages| ==> messages[i].role != System
  }

  /** Without system messages nothing is dropped: entry `i` is message `i`. */
  lemma {:induction false} HistoryKeepsAll(messages: seq<Message>)
    requires NoSystem(messages)
    ensures |History(messages)| == |messages|
    ensures forall i :: 0 <= i < |messages| ==> History(messages)[i] == ToContent(messages[i])
  {
    if messages != [] {
      HistoryKeepsAll(messages[1..]);
      var h := History(messages);
      assert h == [ToContent(messages[0])] + History(messages[1..]);
      forall i | 0 <= i < |messages| ensures h[i] == ToContent(messages[i]) {
        if i > 0 { assert h[i] == History(messages[1..])[i - 1]; }
      }
    }
  }

  /** System messages are exactly what is dropped: the history of messages is
      the history of the same messages without any of role system. */
  lemma {:induction false} HistoryIgnoresSystem(a: seq<Message>, m: Message, b: seq<Message>)
    requires m.role == System
    ensures History(a + [m] + b) == History(a + b)
  {
    HistoryAppend(a + [m], b);
    HistoryAppend(a, [m]);
    HistoryOne(m);
    HistoryAppend(a, b);
  }

  /** `` `Strategic Engine Error: ${err.message || "Failed to process the request."}` ``. */
  function ErrorText(e: Error): (r: string)
    ensures StartsWith(r, ErrorPrefix) && |r| > |ErrorPrefix|
    ensures r[|ErrorPrefix|..] == OrElse(e.message, DefaultErrorDetail)
  {
    ErrorPrefix + OrElse(e.message, DefaultErrorDetail)
  }

  /** Errors with different non-empty messages are shown differently. */
  lemma ErrorTextDistinguishes(e1: Error, e2: Error)
    requires Truthy(e1.message) && Truthy(e2.message)
    requires ErrorText(e1) == ErrorText(e2)
    ensures e1 == e2
  {
    assert e1.message.value == ErrorText(e1)[|ErrorPrefix|..];
    assert e2.message.value == ErrorText(e2)[|ErrorPrefix|..];
  }

  /** `!textToSend.trim()`: nothing but whitespace. */
  predicate IsBlank(text: string) {
    Trim(text) == ""
  }

  function UserMessage(id: string, text: string, timestamp: Timestamp): Message {
    Message(id, User, text, timestamp, None, None)
  }

  function ModelMessage(id: string, reply: Reply, timestamp: Timestamp): Message {
    Message(id, Model, reply.text, timestamp, Some(reply.sources), None)
  }

  /** The arguments of the `generateResponse` call a send makes. */
  datatype Outbound = Outbound(prompt: string, history: seq<Content>)

  /** The process environment and configuration the service reads:
      `process.env.API_KEY` and the system instruction. */
  datatype Environment = Environment(apiKey: Option<string>, systemInstruction: string)

  /** The page's state: the `ChatState` cell plus the `input` and `isStarted` cells. */
  class ChatApp {
    var messages: seq<Message>
    var isLoading: bool
    var error: Option<string>
    var input: string
    var isStarted: bool

    function State(): ChatState
      reads this
    {
      ChatState(messages, isLoading, error)
    }

    /** The page itself only ever adds user messages, which carry no sources, and
        model messages, which do. */
    ghost predicate Valid()
      reads this
    {
      forall i :: 0 <= i < |messages| ==>
        && messages[i].role != System
        && (messages[i].role == User <==> messages[i].sources.None?)
    }

    /** The initial state of the page. */
    constructor ()
      ensures Valid()
      ensures State() == ChatState([], false, None) && input == "" && !isStarted
    {
      messages, isLoading, error := [], false, None;
      input, isStarted := "", false;
    }

    /** The input field's `onChange`. */
    method SetInput(value: string)
      requires Valid()
      modifies this`input
      ensures Valid()
      ensures input == value
    {
      input := value;
    }

    /** `handleSend(overrideInput)` up to its `await`: the guard, the user message,
        and the call it makes. `None` means the guard returned early. */
    method BeginSend(overrideInput: Option<string>, id: string, timestamp: Timestamp)
      returns (call: Option<Outbound>)
      requires Valid()
      modifies this
      ensures Valid()
      ensures var text := OrElse(overrideInput, old(input));
        if IsBlank(text) || old(isLoading) then
          && call == None
          && messages == old(messages) && isLoading == old(isLoading) && error == old(error)
          && input == old(input) && isStarted == old(isStarted)
        else
          && call == Some(Outbound(text, History(old(messages))))
          && messages == old(messages) + [UserMessage(id, text, timestamp)]
          && isLoading && error == None && input == "" && isStarted
    {
      var text := OrElse(overrideInput, input);
      if IsBlank(text) || isLoading {
        return None;
      }
      if !isStarted {
        isStarted := true;
      }
      var history := History(messages);
      messages := messages + [UserMessage(id, text, timestamp)];
      isLoading := true;
      error := None;
      input := "";
      call := Some(Outbound(text, history));
    }

    /** `handleSend` after its `await`: the success or the failure transition. It
        acts on the state as it is when the call completes. */
    method FinishSend(outcome: Result<Reply, Error>, id: string, timestamp: Timestamp)
      requires Valid()
      modifies this`messages, this`isLoading, this`error
      ensures Valid()
      ensures !isLoading
      ensures outcome.Success? ==>
        messages == old(messages) + [ModelMessage(id, outcome.value, timestamp)] && error == old(error)
      ensures outcome.Failure? ==>
        messages == old(messages) && error == Some(ErrorText(outcome.error))
    {
      match outcome
      case Success(reply) =>
        messages := messages + [ModelMessage(id, reply, timestamp)];
        isLoading := false;
      case Failure(e) =>
        isLoading := false;
        error := Some(ErrorText(e));
    }

    /** The whole of `handleSend` with the service: guard, user message, service
        call, and the transition for its outcome. Returns the request that reached
        the backend, if any. */
    method HandleSend(overrideInput: Option<string>, env: Environment, backend: CallOutcome,
                      userId: string, userTime: Timestamp, modelId: string, modelTime: Timestamp)
      returns (request: Option<Request>)
      requires Valid()
      modifies this
      ensures Valid()
      ensures var text := OrElse(overrideInput, old(input));
        if IsBlank(text) || old(isLoading) then
          && request == None
          && messages == old(messages) && isLoading == old(isLoading) && error == old(error)
          && input == old(input) && isStarted == old(isStarted)
        else
          var exchange := GenerateResponse(env.apiKey, text, History(old(messages)), env.systemInstruction, backend);
          var sent := old(messages) + [UserMessage(userId, text, userTime)];
          && request == exchange.request
          && !isLoading && input == "" && isStarted
          && match exchange.result
             case Success(reply) =>
               messages == sent + [ModelMessage(modelId, reply, modelTime)] && error == None
             case Failure(e) =>
               messages == sent && error == Some(ErrorText(e))
    {
      var call := BeginSend(overrideInput, userId, userTime);
      if call == None {
        return None;
      }
      var exchange := GenerateResponse(env.apiKey, call.value.prompt, call.value.history,
                                       env.systemInstruction, backend);
      FinishSend(exchange.result, modelId, modelTime);
      request := exchange.request;
    }

    /** `handleReset`: back to the initial state, from any state. */
    method Reset()
      modifies this
      ensures Valid()
      ensures State() == ChatState([], false, None) && input == "" && !isStarted
    {
      isStarted := false;
      messages, isLoading, error := [], false, None;
      input := "";
    }
  }

  /** In every state the page reaches, building the history drops nothing. */
  lemma ValidHistoryKeepsAll(app: ChatApp)
    requires app.Valid()
    ensures |History(app.messages)| == |app.messages|
  {
    HistoryKeepsAll(app.messages);
  }

  /** After a failed send, sending the same text again is accepted and appends a
      fresh user message: the failure leaves no request marked as in flight. */
  method RetryAfterFailure(text: string, e: Error)
    requires !IsBlank(text)
  {
    var app := new ChatApp();
    var first := app.BeginSend(Some(text), "1", 1);
    app.FinishSend(Failure(e), "2", 2);
    assert !app.isLoading && app.error.Some?;
    var second := app.BeginSend(Some(text), "3", 3);
    assert second.Some?;
    assert app.messages == [UserMessage("1", text, 1), UserMessage("3", text, 3)];
  }

  /** A reply that arrives after a reset is still appended, to the fresh
      conversation, and ends the loading state. */
  method ReplyAfterReset(text: string, reply: Reply)
    requires !IsBlank(text)
  {
    var app := new ChatApp();
    var call := app.BeginSend(Some(text), "1", 1);
    assert call.Some? && app.isLoading;
    app.Reset();
    app.FinishSend(Success(reply), "2", 2);
    assert app.messages == [ModelMessage("2", reply, 2)] && !app.isLoading;
  }
}
