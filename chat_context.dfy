/**
 * The assistant's conversation store: `ChatProvider` in src/context/ChatContext.tsx.
 *
 * The provider keeps four pieces of React state (the two visibility flags, the
 * loading flag and the message list) and writes the message list through to
 * browser storage under `ironwall_chat_history` whenever it changes.
 * `sendMessage` is asynchronous; here it is split at `await fetch(...)` into
 * `BeginSend` (the optimistic append, returning the request body) and
 * `CompleteSend` (the one reply append, given how the request ended). The
 * later `await response.json()` is folded into `CompleteSend`: nothing changes
 * state between the two awaits, and a failure at either ends in the same
 * `catch`, so both are one `Outcome`.
 */
module ChatContext {
  import opened Optional

  /** An instant, in milliseconds since the epoch; the clock is a parameter. */
  type Stamp = int

  datatype Role = User | Model

  datatype Message = Message(role: Role, text: string, timestamp: Stamp)

  /** One entry of the `history` array sent to the reply service. */
  datatype Turn = Turn(role: Role, parts: string)

  /** The JSON body of `POST /api/chat/message`. */
  datatype ChatRequest = ChatRequest(message: string, history: seq<Turn>)

  /**
   * How the reply request ended: a 2xx response whose body carried `reply`,
   * or any failure (non-2xx status, a rejected fetch, an unreadable body).
   */
  datatype Outcome = Ok(reply: string) | Err

  /**
   * The value under the history key as the initializer reads it. JSON text is
   * not modelled; a value is described by what `JSON.parse(...).map(...)`
   * makes of it.
   */
  datatype Stored =
    | Valid(msgs: seq<Message>)  // parses to an array, mapped to messages in order
    | Corrupt                    // JSON.parse throws, the parsed value has no `map`, or an
                                 // element is null or undefined so `m.timestamp` throws
    | EmptyText                  // "", which `if (saved)` treats like a missing key

  const HistoryKey := "ironwall_chat_history"
  const GreetingText := "Hello! I'm the IronWall AI. How can I assist you with your vulnerability research today?"
  const ClearedText := "History cleared. How can I help?"
  const ApologyText := "I apologize, but I encountered an error communicating with the AI service. Please ensure the backend is running and try again."

  /** `localStorage.getItem(HistoryKey)`: None stands for `null`. */
  function Lookup(storage: map<string, Stored>): Option<Stored> {
    if HistoryKey in storage then Some(storage[HistoryKey]) else None
  }

  /** The write-through effect: `localStorage.setItem(HistoryKey, JSON.stringify(msgs))`. */
  function Persist(storage: map<string, Stored>, msgs: seq<Message>): (written: map<string, Stored>)
    ensures Lookup(written) == Some(Valid(msgs))
    ensures written.Keys == storage.Keys + {HistoryKey}
    ensures forall key :: key in storage && key != HistoryKey ==> written[key] == storage[key]
  {
    storage[HistoryKey := Valid(msgs)]
  }

  /** The lazy initializer of `messages`: the stored list, or a fresh greeting. */
  function InitialMessages(saved: Option<Stored>, now: Stamp): (msgs: seq<Message>)
    ensures saved.Some? && saved.value.Valid? ==> msgs == saved.value.msgs
    ensures !(saved.Some? && saved.value.Valid?) ==> msgs == [Message(Model, GreetingText, now)]
    ensures msgs == [] ==> saved == Some(Valid([]))
  {
    match saved
    case Some(Valid(msgs)) => msgs
    case _ => [Message(Model, GreetingText, now)]
  }

  function AsTurn(m: Message): Turn {
    Turn(m.role, m.text)
  }

  /** The `.map` step of getHistoryForApi. */
  function ToApi(msgs: seq<Message>): (turns: seq<Turn>)
    ensures |turns| == |msgs|
    ensures forall i :: 0 <= i < |msgs| ==> turns[i] == Turn(msgs[i].role, msgs[i].text)
  {
    if msgs == [] then [] else [AsTurn(msgs[0])] + ToApi(msgs[1..])
  }

  /**
   * getHistoryForApi: every message but the one at index 0 (meant to be the
   * greeting), in order, as `{role, parts}`.
   */
  function HistoryForApi(msgs: seq<Message>): (turns: seq<Turn>)
    ensures |turns| == if msgs == [] then 0 else |msgs| - 1
    ensures forall i :: 0 < i < |msgs| ==> turns[i - 1] == Turn(msgs[i].role, msgs[i].text)
  {
    if msgs == [] then [] else ToApi(msgs[1..])
  }

  /** The text of the one message a completed send appends. */
  function ReplyText(outcome: Outcome): string {
    match outcome
    case Ok(reply) => reply
    case Err => ApologyText
  }

  /** The provider's React state, as one value. */
  datatype ChatState = ChatState(isOpen: bool, isMinimized: bool, isLoading: bool, messages: seq<Message>)

  // One function per state update the provider performs.

  function Opened(s: ChatState): ChatState {
    s.(isOpen := true, isMinimized := false)
  }

  function Closed(s: ChatState): ChatState {
    s.(isOpen := false, isMinimized := false)
  }

  function Minimized(s: ChatState): ChatState {
    s.(isMinimized := true)
  }

  function Maximized(s: ChatState): ChatState {
    s.(isMinimized := false)
  }

  function SendBegun(s: ChatState, text: string, now: Stamp): ChatState {
    s.(messages := s.messages + [Message(User, text, now)], isLoading := true)
  }

  function SendCompleted(s: ChatState, outcome: Outcome, now: Stamp): ChatState {
    s.(messages := s.messages + [Message(Model, ReplyText(outcome), now)], isLoading := false)
  }

  function HistoryCleared(s: ChatState, now: Stamp): ChatState {
    s.(messages := [Message(Model, ClearedText, now)])
  }

  class ChatProvider {
    var isOpen: bool
    var isMinimized: bool
    var isLoading: bool
    var messages: seq<Message>
    /** The origin's browser storage; only HistoryKey is ever written here. */
    var storage: map<string, Stored>

    /** The write-through effect has run: storage holds the current list. */
    predicate WrittenThrough()
      reads this
    {
      HistoryKey in storage && storage[HistoryKey] == Valid(messages)
    }

    function State(): ChatState
      reads this
    {
      ChatState(isOpen, isMinimized, isLoading, messages)
    }

    /** Mounting the provider: initial state, then the effect's first write. */
    constructor (saved: map<string, Stored>, now: Stamp)
      ensures !isOpen && !isMinimized && !isLoading
      ensures messages == InitialMessages(Lookup(saved), now)
      ensures storage == Persist(saved, messages)
      ensures WrittenThrough()
    {
      isOpen, isMinimized, isLoading := false, false, false;
      var initial := InitialMessages(Lookup(saved), now);
      messages := initial;
      storage := Persist(saved, initial);
    }

    method OpenChat()
      requires WrittenThrough()
      modifies this
      ensures State() == Opened(old(State())) && storage == old(storage)
      ensures WrittenThrough()
    {
      isOpen := true;
      isMinimized := false;
    }

    method CloseChat()
      requires WrittenThrough()
      modifies this
      ensures State() == Closed(old(State())) && storage == old(storage)
      ensures WrittenThrough()
    {
      isOpen := false;
      isMinimized := false;
    }

    method MinimizeChat()
      requires WrittenThrough()
      modifies this
      ensures State() == Minimized(old(State())) && storage == old(storage)
      ensures WrittenThrough()
    {
      isMinimized := true;
    }

    method MaximizeChat()
      requires WrittenThrough()
      modifies this
      ensures State() == Maximized(old(State())) && storage == old(storage)
      ensures WrittenThrough()
    {
      isMinimized := false;
    }

    /**
     * The synchronous part of sendMessage: append the prompt, raise the loading
     * flag, and build the request body. The history comes from the list as it
     * stood before the append; the new text travels only in `message`.
     */
    method BeginSend(text: string, now: Stamp) returns (request: ChatRequest)
      requires WrittenThrough()
      modifies this
      ensures request == ChatRequest(text, HistoryForApi(old(messages)))
      ensures State() == SendBegun(old(State()), text, now)
      ensures storage == Persist(old(storage), messages)
      ensures WrittenThrough()
    {
      var before := messages;
      messages := messages + [Message(User, text, now)];
      storage := Persist(storage, messages);
      isLoading := true;
      request := ChatRequest(text, HistoryForApi(before));
    }

    /**
     * The rest of sendMessage once the request has ended: exactly one model
     * message (the reply or the apology), then the `finally` that lowers the
     * loading flag. Every outcome is absorbed; nothing is rethrown.
     */
    method CompleteSend(outcome: Outcome, now: Stamp)
      requires WrittenThrough()
      modifies this
      ensures State() == SendCompleted(old(State()), outcome, now)
      ensures storage == Persist(old(storage), messages)
      ensures WrittenThrough()
    {
      messages := messages + [Message(Model, ReplyText(outcome), now)];
      storage := Persist(storage, messages);
      isLoading := false;
    }

    method ClearHistory(now: Stamp)
      requires WrittenThrough()
      modifies this
      ensures State() == HistoryCleared(old(State()), now)
      ensures storage == Persist(old(storage), messages)
      ensures WrittenThrough()
    {
      messages := [Message(Model, ClearedText, now)];
      storage := Persist(storage, messages);
    }
  }

  // Properties of the store.

  /** Absent, empty, unparseable or unmappable history gives exactly the greeting. */
  lemma FallbackIsGreeting(saved: Option<Stored>, now: Stamp)
    requires saved.None? || !saved.value.Valid?
    ensures InitialMessages(saved, now) == [Message(Model, GreetingText, now)]
  {
  }

  /** Write-through then reload gives back the same messages, in order. */
  lemma ReloadRestoresMessages(storage: map<string, Stored>, msgs: seq<Message>, now: Stamp)
    ensures InitialMessages(Lookup(Persist(storage, msgs)), now) == msgs
    ensures Persist(storage, msgs) - {HistoryKey} == storage - {HistoryKey}
  {
  }

  /**
   * The request's history plus its `message` is the conversation after the
   * optimistic append, minus the message at index 0.
   */
  lemma {:induction false} RequestCarriesConversation(msgs: seq<Message>, text: string, now: Stamp)
    requires msgs != []
    ensures HistoryForApi(msgs) + [Turn(User, text)] == HistoryForApi(msgs + [Message(User, text, now)])
  {
    var grown := msgs + [Message(User, text, now)];
    var lhs := HistoryForApi(msgs) + [Turn(User, text)];
    var rhs := HistoryForApi(grown);
    assert |lhs| == |rhs|;
    forall i | 0 <= i < |lhs|
      ensures lhs[i] == rhs[i]
    {
      assert grown[i + 1] == if i + 1 < |msgs| then msgs[i + 1] else Message(User, text, now);
    }
  }

  /**
   * When the list is empty (a stored `[]`), the first prompt lands at index 0
   * and is dropped from every later request's history.
   */
  lemma EmptyHistoryDropsFirstPrompt(s: ChatState, a: string, reply: string, t1: Stamp, t2: Stamp)
    requires s.messages == []
    ensures var after := SendCompleted(SendBegun(s, a, t1), Ok(reply), t2);
      HistoryForApi(after.messages) == [Turn(Model, reply)]
  {
  }

  /** A completed send grows the list by exactly two and leaves a model message last. */
  lemma CompletedSendAppendsPair(s: ChatState, text: string, outcome: Outcome, t1: Stamp, t2: Stamp)
    ensures var r := SendCompleted(SendBegun(s, text, t1), outcome, t2);
      && r.messages == s.messages + [Message(User, text, t1), Message(Model, ReplyText(outcome), t2)]
      && |r.messages| == |s.messages| + 2
      && r.messages[|r.messages| - 1].role == Model
      && !r.isLoading
      && r.isOpen == s.isOpen && r.isMinimized == s.isMinimized
  {
  }

  /** A failed request is answered by the fixed apology. */
  lemma FailureAppendsApology(s: ChatState, now: Stamp)
    ensures SendCompleted(s, Err, now).messages == s.messages + [Message(Model, ApologyText, now)]
  {
  }

  /** clearHistory leaves one message and touches no flag. */
  lemma ClearKeepsFlags(s: ChatState, now: Stamp)
    ensures var r := HistoryCleared(s, now);
      r.messages == [Message(Model, ClearedText, now)]
      && r.isOpen == s.isOpen && r.isMinimized == s.isMinimized && r.isLoading == s.isLoading
  {
  }

  /** minimizeChat and maximizeChat touch only `isMinimized`, even on a closed chat. */
  lemma MinimizeMaximizeTouchOnlyMinimized(s: ChatState)
    ensures Minimized(s) == s.(isMinimized := true) && Minimized(s).isOpen == s.isOpen
    ensures Maximized(s) == s.(isMinimized := false) && Maximized(s).isOpen == s.isOpen
  {
  }

  /** One user-initiated send that runs to completion before the next begins. */
  datatype Exchange = Exchange(text: string, outcome: Outcome, sentAt: Stamp, repliedAt: Stamp)

  /** Sends completed one after another, as the disabled submit button enforces. */
  function RunSends(s: ChatState, xs: seq<Exchange>): ChatState
    decreases |xs|
  {
    if xs == [] then s
    else RunSends(SendCompleted(SendBegun(s, xs[0].text, xs[0].sentAt), xs[0].outcome, xs[0].repliedAt), xs[1..])
  }

  /** The messages a run of serialized sends appends: prompt, then its answer. */
  function Transcript(xs: seq<Exchange>): seq<Message>
    decreases |xs|
  {
    if xs == [] then []
    else [Message(User, xs[0].text, xs[0].sentAt), Message(Model, ReplyText(xs[0].outcome), xs[0].repliedAt)]
         + Transcript(xs[1..])
  }

  lemma {:induction false} RunSendsAppendsTranscript(s: ChatState, xs: seq<Exchange>)
    ensures RunSends(s, xs).messages == s.messages + Transcript(xs)
    ensures RunSends(s, xs).isOpen == s.isOpen && RunSends(s, xs).isMinimized == s.isMinimized
    ensures RunSends(s, xs).isLoading == (if xs == [] then s.isLoading else false)
    decreases |xs|
  {
    if xs != [] {
      var x := xs[0];
      var s1 := SendCompleted(SendBegun(s, x.text, x.sentAt), x.outcome, x.repliedAt);
      RunSendsAppendsTranscript(s1, xs[1..]);
      assert s1.messages == s.messages + [Message(User, x.text, x.sentAt), Message(Model, ReplyText(x.outcome), x.repliedAt)];
      assert Transcript(xs) == [Message(User, x.text, x.sentAt), Message(Model, ReplyText(x.outcome), x.repliedAt)] + Transcript(xs[1..]);
      if xs[1..] != [] {
        assert RunSends(s1, xs[1..]).isLoading == false;
      }
    }
  }

  lemma {:induction false} TranscriptPairs(xs: seq<Exchange>)
    ensures |Transcript(xs)| == 2 * |xs|
    ensures forall k :: 0 <= k < |xs| ==>
      Transcript(xs)[2 * k] == Message(User, xs[k].text, xs[k].sentAt)
      && Transcript(xs)[2 * k + 1] == Message(Model, ReplyText(xs[k].outcome), xs[k].repliedAt)
    decreases |xs|
  {
    if xs != [] {
      TranscriptPairs(xs[1..]);
      forall k | 1 <= k < |xs|
        ensures Transcript(xs)[2 * k] == Message(User, xs[k].text, xs[k].sentAt)
        ensures Transcript(xs)[2 * k + 1] == Message(Model, ReplyText(xs[k].outcome), xs[k].repliedAt)
      {
        assert xs[1..][k - 1] == xs[k];
        assert Transcript(xs)[2 * k] == Transcript(xs[1..])[2 * (k - 1)];
        assert Transcript(xs)[2 * k + 1] == Transcript(xs[1..])[2 * (k - 1) + 1];
      }
    }
  }

  /**
   * Serialized sends keep the conversation in order: the old list is a prefix,
   * and each prompt is followed directly by its own answer.
   */
  lemma SerializedSendsStayPaired(s: ChatState, xs: seq<Exchange>)
    ensures var r := RunSends(s, xs);
      && |r.messages| == |s.messages| + 2 * |xs|
      && r.messages[..|s.messages|] == s.messages
      && (forall k :: 0 <= k < |xs| ==>
            r.messages[|s.messages| + 2 * k] == Message(User, xs[k].text, xs[k].sentAt)
            && r.messages[|s.messages| + 2 * k + 1] == Message(Model, ReplyText(xs[k].outcome), xs[k].repliedAt))
  {
    RunSendsAppendsTranscript(s, xs);
    TranscriptPairs(xs);
  }

  /**
   * sendMessage has no guard of its own: two overlapping sends put both prompts
   * before either answer, answers land in completion order, and the first
   * completion lowers the loading flag while the other request is still out.
   */
  lemma OverlappingSendsInterleave(s: ChatState, a: string, b: string, ra: string, rb: string,
                                   t1: Stamp, t2: Stamp, t3: Stamp, t4: Stamp)
    ensures var first := SendCompleted(SendBegun(SendBegun(s, a, t1), b, t2), Ok(rb), t3);
      && !first.isLoading
      && SendCompleted(first, Ok(ra), t4).messages
         == s.messages + [Message(User, a, t1), Message(User, b, t2), Message(Model, rb, t3), Message(Model, ra, t4)]
  {
  }
}
