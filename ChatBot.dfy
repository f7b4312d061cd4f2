/** The send/reply exchange of the `ChatBot` widget in App.tsx: a transcript of messages,
    the text being typed and a flag that is set while a reply is awaited.

    The exchange is stated twice: once on values (`ChatState` and the step functions
    `SendStep`, `ResolveStep`, ..., about which the lemmas speak), and once as the
    `ChatSession` class whose methods update the three fields in place and are proved
    to follow the step functions. */
module ChatBot {
  import opened StringTrim

  /** The seed message of a fresh transcript. */
  const Greeting: string :=
    "Hello! I'm the Project Ascend AI assistant. How can I help you learn about our student-led movement today?"

  /** The reply shown when the generation service answers without text. */
  const InstagramFallback: string :=
    "I'm having trouble connecting. Feel free to message us on Instagram @theproject.ascend!"

  /** The reply shown when the call to the generation service throws. */
  const ErrorFallback: string :=
    "I encountered an error. Please try again or reach out to us directly!"

  datatype Role = User | Bot

  datatype Message = Message(role: Role, text: string)

  /** What the awaited generation call produced: a response whose `text` is a string,
      a response without text, or an exception. */
  datatype Outcome = Reply(text: string) | NoText | Failed

  /** The widget's state: `messages`, `input` and `isLoading`. */
  datatype ChatState = ChatState(messages: seq<Message>, input: string, isLoading: bool)

  // ---------------------------------------------------------------------------
  // The exchange on values

  /** The role the message at position `i` has in every reachable transcript:
      the greeting, then visitor and bot messages in turn. */
  function RoleAt(i: nat): Role {
    if i % 2 == 0 then Bot else User
  }

  /** The invariant every reachable state keeps. */
  predicate Inv(st: ChatState) {
    var ms := st.messages;
    |ms| >= 1 && ms[0] == Message(Bot, Greeting)
    && (forall i :: 0 <= i < |ms| ==> ms[i].role == RoleAt(i))
    && (st.isLoading <==> ms[|ms| - 1].role == User)
    && (forall i :: 0 <= i < |ms| && ms[i].role == User ==> !IsBlank(ms[i].text))
    && (forall i :: 0 <= i < |ms| && ms[i].role == Bot ==> ms[i].text != "")
  }

  /** The state the widget mounts with. */
  function Initial(): (r: ChatState)
    ensures Inv(r)
    ensures |r.messages| == 1 && r.input == "" && !r.isLoading
  {
    ChatState([Message(Bot, Greeting)], "", false)
  }

  /** The input field's change handler. */
  function SetInputStep(st: ChatState, s: string): ChatState {
    st.(input := s)
  }

  /** The synchronous half of `sendMessage`, up to the await: a visitor message with the
      text exactly as typed (not trimmed), the input cleared, the loading flag set;
      nothing at all when the trimmed input is empty or a reply is pending. */
  function SendStep(st: ChatState): ChatState {
    if Trim(st.input) == "" || st.isLoading then st
    else
      var userMessage := st.input;
      ChatState(st.messages + [Message(User, userMessage)], "", true)
  }

  /** The text of the bot message that closes an exchange: the response text or, when it
      is missing or empty, the Instagram fallback; the error message after an exception. */
  function BotText(o: Outcome): (r: string)
    ensures r != ""
    ensures o.Reply? && o.text != "" ==> r == o.text
    ensures o == NoText || o == Reply("") ==> r == InstagramFallback
    ensures o == Failed ==> r == ErrorFallback
  {
    match o
    case Reply(t) => if t != "" then t else InstagramFallback
    case NoText => InstagramFallback
    case Failed => ErrorFallback
  }

  /** The closing half of `sendMessage`, after the await: one bot message, then the
      loading flag cleared by the `finally` block. */
  function ResolveStep(st: ChatState, o: Outcome): ChatState
    requires st.isLoading
  {
    ChatState(st.messages + [Message(Bot, BotText(o))], st.input, false)
  }

  /** A send is ignored while the input is blank or a reply is pending. */
  lemma SendIgnored(st: ChatState)
    requires IsBlank(st.input) || st.isLoading
    ensures SendStep(st) == st
  {
  }

  /** An accepted send appends one visitor message carrying the untrimmed input, clears
      the input and sets the loading flag; earlier messages stay as they were. */
  lemma SendAccepted(st: ChatState)
    requires !IsBlank(st.input) && !st.isLoading
    ensures var r := SendStep(st);
      |r.messages| == |st.messages| + 1 && r.messages[..|st.messages|] == st.messages
      && r.messages[|st.messages|] == Message(User, st.input)
      && r.input == "" && r.isLoading
  {
  }

  /** Resolving a pending exchange appends exactly one bot message, chosen by the outcome,
      and clears the loading flag; the input and the earlier messages are untouched. */
  lemma ResolveAppendsReply(st: ChatState, o: Outcome)
    requires st.isLoading
    ensures var r := ResolveStep(st, o);
      |r.messages| == |st.messages| + 1 && r.messages[..|st.messages|] == st.messages
      && r.messages[|st.messages|].role == Bot
      && (o.Reply? && o.text != "" ==> r.messages[|st.messages|].text == o.text)
      && (o == NoText || o == Reply("") ==> r.messages[|st.messages|].text == InstagramFallback)
      && (o == Failed ==> r.messages[|st.messages|].text == ErrorFallback)
      && r.input == st.input && !r.isLoading
  {
  }

  lemma SetInputPreservesInv(st: ChatState, s: string)
    requires Inv(st)
    ensures Inv(SetInputStep(st, s)) && SetInputStep(st, s).messages == st.messages
  {
  }

  lemma SendPreservesInv(st: ChatState)
    requires Inv(st)
    ensures Inv(SendStep(st))
  {
  }

  lemma ResolvePreservesInv(st: ChatState, o: Outcome)
    requires Inv(st) && st.isLoading
    ensures Inv(ResolveStep(st, o))
  {
  }

  /** In every reachable state a reply is pending exactly when the transcript holds as
      many visitor messages as bot messages besides the greeting, i.e. has even length. */
  lemma PendingIffEvenLength(st: ChatState)
    requires Inv(st)
    ensures st.isLoading <==> |st.messages| % 2 == 0
  {
  }

  // ---------------------------------------------------------------------------
  // Runs of the widget: every sequence of events it can see

  /** Typing, pressing send, and the awaited call settling with an outcome. */
  datatype Event = Type(s: string) | Submit | Settle(outcome: Outcome)

  /** The awaited call can only settle while its exchange is pending. */
  predicate Enabled(st: ChatState, e: Event) {
    e.Settle? ==> st.isLoading
  }

  function Step(st: ChatState, e: Event): ChatState
    requires Enabled(st, e)
  {
    match e
    case Type(s) => SetInputStep(st, s)
    case Submit => SendStep(st)
    case Settle(o) => ResolveStep(st, o)
  }

  predicate PossibleRun(st: ChatState, es: seq<Event>)
    decreases |es|
  {
    es == [] || (Enabled(st, es[0]) && PossibleRun(Step(st, es[0]), es[1..]))
  }

  function Run(st: ChatState, es: seq<Event>): ChatState
    requires PossibleRun(st, es)
    decreases |es|
  {
    if es == [] then st else Run(Step(st, es[0]), es[1..])
  }

  lemma StepPreservesInv(st: ChatState, e: Event)
    requires Inv(st) && Enabled(st, e)
    ensures Inv(Step(st, e))
    ensures st.messages <= Step(st, e).messages
  {
    match e
    case Type(s) => SetInputPreservesInv(st, s);
    case Submit => SendPreservesInv(st);
    case Settle(o) => ResolvePreservesInv(st, o);
  }

  /** Every run keeps the invariant, and only ever appends to the transcript. */
  lemma {:induction false} RunPreservesInv(st: ChatState, es: seq<Event>)
    requires Inv(st) && PossibleRun(st, es)
    ensures Inv(Run(st, es))
    ensures st.messages <= Run(st, es).messages
    decreases |es|
  {
    if es != [] {
      StepPreservesInv(st, es[0]);
      RunPreservesInv(Step(st, es[0]), es[1..]);
    }
  }

  /** Every state reachable from mounting satisfies the invariant and still begins with
      the greeting. */
  lemma ReachableIsValid(es: seq<Event>)
    requires PossibleRun(Initial(), es)
    ensures Inv(Run(Initial(), es))
    ensures Run(Initial(), es).messages[0] == Message(Bot, Greeting)
  {
    RunPreservesInv(Initial(), es);
  }

  // ---------------------------------------------------------------------------
  // The widget's state, updated in place

  class ChatSession {
    var messages: seq<Message>
    var input: string
    var isLoading: bool

    ghost function State(): ChatState
      reads this
    {
      ChatState(messages, input, isLoading)
    }

    ghost predicate Valid()
      reads this
    {
      Inv(State())
    }

    /** The three `useState` hooks with their initial values. */
    constructor ()
      ensures Valid() && State() == Initial()
      ensures messages == [Message(Bot, Greeting)] && input == "" && !isLoading
    {
      messages := [Message(Bot, Greeting)];
      input := "";
      isLoading := false;
    }

    /** `onChange` of the input field. */
    method SetInput(s: string)
      requires Valid()
      modifies this
      ensures Valid() && State() == SetInputStep(old(State()), s)
      ensures input == s && messages == old(messages) && isLoading == old(isLoading)
    {
      SetInputPreservesInv(State(), s);
      input := s;
    }

    /** `sendMessage` up to the await. */
    method Send()
      requires Valid()
      modifies this
      ensures Valid() && State() == SendStep(old(State()))
      ensures IsBlank(old(input)) || old(isLoading) ==>
        messages == old(messages) && input == old(input) && isLoading == old(isLoading)
      ensures !IsBlank(old(input)) && !old(isLoading) ==>
        messages == old(messages) + [Message(User, old(input))] && input == "" && isLoading
    {
      SendPreservesInv(State());
      if Trim(input) == "" || isLoading {
        return;
      }
      var userMessage := input;
      input := "";
      messages := messages + [Message(User, userMessage)];
      isLoading := true;
    }

    /** `sendMessage` after the await: the `try`, `catch` and `finally` blocks. */
    method Resolve(o: Outcome)
      requires Valid() && isLoading
      modifies this
      ensures Valid() && State() == ResolveStep(old(State()), o)
      ensures messages == old(messages) + [Message(Bot, BotText(o))]
      ensures input == old(input) && !isLoading
    {
      ResolvePreservesInv(State(), o);
      match o {
        case Failed =>
          messages := messages + [Message(Bot, ErrorFallback)];
        case Reply(text) =>
          var botResponse := if text != "" then text else InstagramFallback;
          messages := messages + [Message(Bot, botResponse)];
        case NoText =>
          messages := messages + [Message(Bot, InstagramFallback)];
      }
      isLoading := false;
    }
  }

  // ---------------------------------------------------------------------------
  // Exchanges a visitor can have with a freshly mounted widget

  /** "Hello" is sent and answered with "Hi there!". */
  method HelloExchange() returns (transcript: seq<Message>, pending: bool)
    ensures transcript == [Message(Bot, Greeting), Message(User, "Hello"), Message(Bot, "Hi there!")]
    ensures !pending
  {
    var chat := new ChatSession();
    chat.SetInput("Hello");
    assert !IsWhitespace("Hello"[0]);
    chat.Send();
    assert chat.isLoading;
    chat.Resolve(Reply("Hi there!"));
    transcript, pending := chat.messages, chat.isLoading;
  }

  /** Sending two spaces changes nothing: the text stays in the input field. */
  method BlankSendIgnored() returns (transcript: seq<Message>, typed: string, pending: bool)
    ensures transcript == [Message(Bot, Greeting)] && typed == "  " && !pending
  {
    var chat := new ChatSession();
    chat.SetInput("  ");
    chat.Send();
    transcript, typed, pending := chat.messages, chat.input, chat.isLoading;
  }

  /** Text typed and sent while a reply is pending is neither sent nor cleared. */
  method SendWhilePending() returns (transcript: seq<Message>, typed: string, pending: bool)
    ensures transcript == [Message(Bot, Greeting), Message(User, " Hi ")]
    ensures typed == "Again" && pending
  {
    var chat := new ChatSession();
    chat.SetInput(" Hi ");
    assert !IsWhitespace(" Hi "[1]);
    chat.Send();
    chat.SetInput("Again");
    chat.Send();
    transcript, typed, pending := chat.messages, chat.input, chat.isLoading;
  }

  /** A failed call is answered with the error message, and the widget accepts the next
      send. */
  method FailedExchange() returns (transcript: seq<Message>, pending: bool)
    ensures transcript == [Message(Bot, Greeting), Message(User, "a"), Message(Bot, ErrorFallback),
                           Message(User, "b")]
    ensures pending
  {
    var chat := new ChatSession();
    chat.SetInput("a");
    assert !IsWhitespace("a"[0]);
    chat.Send();
    chat.Resolve(Failed);
    chat.SetInput("b");
    assert !IsWhitespace("b"[0]);
    chat.Send();
    transcript, pending := chat.messages, chat.isLoading;
  }

  /** A response without text, or with empty text, is shown as the Instagram fallback. */
  method EmptyReplyExchange() returns (first: Message, second: Message)
    ensures first == Message(Bot, InstagramFallback) && second == first
  {
    var chat := new ChatSession();
    chat.SetInput("?");
    assert !IsWhitespace("?"[0]);
    chat.Send();
    chat.Resolve(NoText);
    first := chat.messages[2];
    chat.SetInput("?");
    chat.Send();
    chat.Resolve(Reply(""));
    second := chat.messages[4];
  }
}
