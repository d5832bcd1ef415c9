# Aurora chat endpoint — verified model

This project models the serverless chat endpoint of the Aurora mentor app
(`api/chat.js`). The endpoint accepts only POST. It reads `mode` (default `"chat"`) and
`messages` (default `[]`) from the body, and builds one system message from three parts:
a fixed persona, a `Mode:` line holding the upper-cased raw mode, and the instruction block
that the mode selects from a four-entry table (`chat` when the mode is not a key). It puts
that message in front of a copy of the history that keeps only `role` and `content`. It then
asks the primary model (`gpt-4o`, temperature 0.7) for a completion. Only if that call
throws does it ask the fallback model (`gpt-3.5-turbo`) once. It answers 200 with the first
text obtained, or 500 with a fixed apology when both calls fail.

The provider is not called. Each call's outcome is a parameter: a completion or an error.
The handler's result includes the trace of calls it made, so "the fallback is never called
after a primary success" can be stated.

Modules:

- `Wrappers` (`wrappers.dfy`): `Option` and `Result`.
- `Strings` (`strings.dfy`): ASCII upper-casing and substring containment.
- `Prompt` (`prompt.dfy`): the persona, the mode table, the system prompt and the composed
  message list.
- `Handler` (`handler.dfy`): reply extraction, a single model call, the two-tier
  generation, the whole handler as a function (`Respond`), and the handler as a method
  (`Handle`) that writes into a `Response` object the way `res.status(...).json(...)` does.

An unknown mode gets chat's instructions (`api/chat.js:72`), but the `Mode:` line
(`api/chat.js:69`) still carries the raw mode. Its whole prompt therefore differs from chat's
unless the mode upper-cases to `CHAT`. `Prompt.UnknownModePrompt` proves this as an
if-and-only-if. `Prompt.UnknownModeExamples` shows both cases: `"Chat"` gives chat's
prompt, and `"banana"` does not.

## Model

| member | source | states |
|---|---|---|
| `Strings.ToUpper` | api/chat.js:69 | the upper-cased mode has the same length as the mode, and each character is the ASCII upper-case of the one at the same position |
| `Prompt.LookupMode` | api/chat.js:17-42 | the table finds a key exactly when the mode equals one of the four names, case-sensitively, and the key found has that name |
| `Prompt.InstructionsFor` | api/chat.js:72 | the instruction block is the table entry when the mode is one of the four names, and chat's entry for every other string |
| `Prompt.SystemPrompt` | api/chat.js:66-73 | the system prompt contains the persona, the line `Mode: ` followed by the upper-cased raw mode, and the selected instructions |
| `Prompt.KnownModeUpper` | api/chat.js:69 | the four mode names upper-case to CHAT, STUDY, LEARN and MOTIVATION |
| `Prompt.SamePromptIff` | api/chat.js:66-73 | two modes that select the same instructions give the same system prompt if and only if their upper-cased names are equal |
| `Prompt.UnknownModePrompt` | api/chat.js:69-72 | a mode outside the table gets chat's instructions, and its prompt equals chat's if and only if it upper-cases to CHAT |
| `Prompt.UnknownModeExamples` | api/chat.js:69-72 | "Chat" is not a key but gives chat's whole prompt; "banana" gets chat's instructions under a different prompt |
| `Prompt.CopyHistory` | api/chat.js:77-80 | the copy has the history's length, and each element has the role and content of the entry at the same position |
| `Prompt.Compose` | api/chat.js:75-81 | the list has one more element than the history; element 0 is the system message with the system prompt; element i+1 has the role and content of history entry i |
| `Prompt.ComposeIgnoresOtherFields` | api/chat.js:77-80 | two histories that agree on roles and contents give the same list, whatever other fields their entries carry |
| `Prompt.ComposeLeadsWithMode` | api/chat.js:66-81 | the first message has role "system", and its content holds `Mode: ` followed by the upper-cased mode |
| `Handler.ReplyText` | api/chat.js:53 | the reply is non-empty exactly when the first choice has a message with non-empty content, and it is then that content; otherwise it is "" with no error |
| `Handler.CallModel` | api/chat.js:46-54 | the request records the model, temperature 0.7 and the messages; the call succeeds exactly when the provider does, with the extracted text, and otherwise it passes on the provider's error |
| `Handler.Generate` | api/chat.js:84-94 | the primary is called first; the fallback is called, on the same messages, only when the primary failed; the result is the first text obtained, or an error when both fail |
| `Handler.Respond` | api/chat.js:58-101 | non-POST gives 405 "Method not allowed" with no call; with POST, the status is 200 with the generated text when either model succeeds, and 500 with the fixed apology when both fail |
| `Handler.ModeOf` | api/chat.js:64 | the mode is the body's `mode` when present, and "chat" when the body or the field is missing |
| `Handler.HistoryOf` | api/chat.js:64 | the history is the body's `messages` when present, and empty when the body or the field is missing |
| `Handler.ChatMessages` | api/chat.js:64-81 | the list for a request has one more element than its history; element 0 is the system message for the request's mode and names that mode upper-cased; element i+1 has the role and content of history entry i |
| `Handler.DefaultMode` | api/chat.js:64-81 | a body without `mode` gets chat's system message, followed by the copy of its history |
| `Handler.DefaultsApplied` | api/chat.js:64 | a missing body, or one without mode and messages, gives exactly one message: chat's system message |
| `Handler.EmptyHistoryPrompt` | api/chat.js:64-81 | a missing or empty history gives exactly one message, the system message for the mode |
| `Handler.PrimarySuccess` | api/chat.js:86-96 | after a primary success only the primary is called, and the reply is 200 with its text, whatever the fallback would have done |
| `Handler.FallbackSuccess` | api/chat.js:87-96 | after a primary failure and a fallback success, the primary and then the fallback are called on the same messages, and the reply is 200 with the fallback's text |
| `Handler.NoErrorDetail` | api/chat.js:97-100 | when both calls fail, the reply is the same 500 apology whatever the errors were |
| `Handler.CallOrder` | api/chat.js:84-94 | at most two calls are made, the primary before the fallback, and a second call only after the primary failed |
| `Handler.Response.Status` | api/chat.js:96 | `res.status` sets the status code and sends nothing |
| `Handler.Response.Json` | api/chat.js:96 | `res.json` sends the body once and leaves the status code alone |
| `Handler.Handle` | api/chat.js:58-101 | the handler leaves in `res` the status and body that `Respond` gives, sends exactly one body, and returns the calls `Respond` lists |

## Left out

- The OpenAI client and its network call (`api/chat.js:4-6`, `api/chat.js:47-51`) are not modelled. Each call's outcome is a parameter. The model name and temperature appear only in the call trace.
- `async`/`await` is left out: with outcomes as inputs, the calls run in order.
- The `console.error` logging (`api/chat.js:90`, `api/chat.js:98`) is left out because it only writes to the server log.
- `Strings.ToUpper`: upper-cases only the ASCII letters `a`–`z`. JavaScript's `toUpperCase` also maps other Unicode letters, and some of those change length.
- A `mode` that is not a string is not modelled; at `api/chat.js:69` it would throw before the `try` block. A `messages` value that is not an array is not modelled either; `map` would throw there. History entries are assumed to carry string `role` and `content`.
- Keys inherited through JavaScript's prototype chain (such as `"constructor"`) are not modelled. The table is assumed to have exactly its four keys.
- `req.body` is either present or absent (`None`); the various falsy values that `req.body || {}` replaces are all modelled as absent.
- `src/App.jsx` (the React UI, theme, birthday banner and client-side fetch) is not part of this model. Neither is `public/service-worker.js`: its install and activate handlers only take control of the page (`skipWaiting`, `clients.claim`), and its fetch handler does nothing.
