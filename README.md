# Project Ascend chat widget, in Dafny

The site's `ChatBot` widget (App.tsx) holds a transcript of messages, each tagged
`user` or `bot`; the text the visitor is typing (`input`); and a flag `isLoading` that
is set while a reply from the text-generation service is awaited. `sendMessage`
ignores a blank input or a send while a reply is pending. Otherwise it appends the
visitor's message, clears the input and sets the flag. It then awaits the service and
appends one bot message: the reply text, a fallback pointing to Instagram when the
service returns no text, or an error message when the call throws. Finally it clears
the flag.

The model has two files:

- `StringTrim.dfy`: JavaScript's `String.prototype.trim`, which strips white space and
  line terminators as defined in sections 12.2 and 12.3 of ECMA-262. It also defines
  `IsBlank`, an independent definition of "empty after trimming".
- `ChatBot.dfy`: the widget on values. It has `ChatState`, the step functions
  `SetInputStep`, `SendStep` and `ResolveStep`, an invariant `Inv` and runs of arbitrary
  event sequences. It also has the class `ChatSession`, whose three fields are the
  widget's three `useState` hooks. The class methods update those fields in place and
  are proved to follow the step functions. Five client methods replay concrete exchanges
  against the class contracts.

`sendMessage` is split at its `await` into `Send` (the synchronous half) and
`Resolve(outcome)` (the `try`/`catch`/`finally` after it). The awaited
`generateContent` call becomes a parameter: `Outcome = Reply(text) | NoText | Failed`.
`Reply("")` behaves like `NoText` because the code uses `response.text || fallback`.

The visitor's message is stored exactly as typed. Trimming is used only in the
emptiness test (App.tsx:42, 44, 46). An informal description of the widget says the
trimmed text is appended. The model follows the code.

The invariant `Inv` holds in every reachable state. Its parts:

- The transcript starts with the greeting.
- Roles alternate bot, user, bot, …
- `isLoading` holds exactly when the last message is a user message.
- Every user message is non-blank.
- Every bot message is non-empty.

Together with prefix growth, this gives the one-outstanding-request discipline of the
widget.

## Model

| member | source | states |
|---|---|---|
| `StringTrim.TrimStart` | App.tsx:42 | the result is the suffix of the input starting at its first non-white-space character; everything dropped is white space |
| `StringTrim.TrimEnd` | App.tsx:42 | the result is the prefix of the input ending at its last non-white-space character; everything dropped is white space |
| `StringTrim.Trim` | App.tsx:42 | `trim()` gives "" exactly when the input is blank (both directions); a non-empty result starts and ends with non-white-space |
| `StringTrim.TrimIsInfix` | App.tsx:42 | the trimmed text is a contiguous slice of the input with only white space on either side |
| `ChatBot.Initial` | App.tsx:28-32 | the mounted state satisfies the invariant: one bot greeting, empty input, not loading |
| `ChatBot.BotText` | App.tsx:59-63 | the closing bot text is never empty; it is the reply text when that is non-empty, the Instagram fallback for a missing or empty reply, the error text for a thrown call |
| `ChatBot.SendIgnored` | App.tsx:42 | a send with blank input, or while a reply is pending, leaves transcript, input and flag unchanged |
| `ChatBot.SendAccepted` | App.tsx:44-47 | an accepted send appends exactly one user message carrying the untrimmed input, keeps earlier messages, clears the input and sets the flag |
| `ChatBot.ResolveAppendsReply` | App.tsx:59-65 | resolving appends exactly one bot message (reply text, Instagram fallback or error text by outcome), keeps earlier messages and the input, and clears the flag |
| `ChatBot.SetInputPreservesInv` | App.tsx:113 | typing keeps the invariant and the transcript |
| `ChatBot.SendPreservesInv` | App.tsx:41-47 | a send, accepted or not, keeps the invariant (alternating roles, flag iff last message is the user's, non-blank user texts) |
| `ChatBot.ResolvePreservesInv` | App.tsx:59-65 | resolving a pending exchange keeps the invariant |
| `ChatBot.PendingIffEvenLength` | App.tsx:42-47 | in a valid state a reply is pending exactly when the transcript has even length, i.e. every visitor message but the last is answered |
| `ChatBot.StepPreservesInv` | App.tsx:41-67 | each event keeps the invariant and only extends the transcript |
| `ChatBot.RunPreservesInv` | App.tsx:41-67 | every possible run keeps the invariant, and the old transcript is a prefix of the new one |
| `ChatBot.ReachableIsValid` | App.tsx:28-67 | every state reachable from mounting satisfies the invariant and still starts with the greeting |
| `ChatBot.ChatSession.constructor` | App.tsx:28-32 | the fields start as the mounted state: the greeting alone, empty input, not loading |
| `ChatBot.ChatSession.SetInput` | App.tsx:113 | replaces `input`, nothing else changes, the invariant is kept |
| `ChatBot.ChatSession.Send` | App.tsx:41-47 | no change when input is blank or a reply is pending; otherwise appends the untrimmed input as a user message, clears `input`, sets `isLoading`; follows `SendStep` |
| `ChatBot.ChatSession.Resolve` | App.tsx:59-65 | appends `BotText(outcome)` as a bot message and clears `isLoading`; follows `ResolveStep` |
| `ChatBot.HelloExchange` | App.tsx:41-65 | sending "Hello" answered by "Hi there!" yields greeting, user "Hello", bot "Hi there!", not loading |
| `ChatBot.BlankSendIgnored` | App.tsx:42 | sending "  " leaves the greeting alone in the transcript and the text in the input |
| `ChatBot.SendWhilePending` | App.tsx:42 | a second send while pending neither appends nor clears the typed text |
| `ChatBot.FailedExchange` | App.tsx:61-65 | a thrown call is answered by the error text and the next send is accepted |
| `ChatBot.EmptyReplyExchange` | App.tsx:59-60 | a missing reply and an empty reply are both shown as the Instagram fallback |

## Left out

- The `GoogleGenAI` client, the API key, the model name and the system instruction (App.tsx:50-57): a network call into a library outside the repository, abstracted as `Outcome`.
- `console.error` on failure (App.tsx:62): a diagnostic side effect with no effect on state.
- Stale React state: two `sendMessage` calls fired before a re-render both read the old `isLoading` (App.tsx:42). `Send` and `Resolve` are modelled as atomic steps on current state, so this interleaving is not captured.
- The auto-scroll effect (App.tsx:35-39), the open/close toggle `isOpen` and the Enter-key binding (App.tsx:27, 83, 114, 125): DOM and presentation.
- `Navbar`'s scroll listener and `scrollIntoView`, the `Contact` form's local fields, and all static sections (`Logo`, `Button`, `Hero`, `About`, `Programs`, `Impact`, `Team`, `InstagramPreview`, `Footer`, `App`): presentation with no logic of the exchange.
- Strings are sequences of Unicode scalar values, not UTF-16 code units. `trim` only strips characters inside the Basic Multilingual Plane, so this makes no difference.
