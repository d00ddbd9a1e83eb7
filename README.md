# IronWall client session and assistant state, in Dafny

This project models the parts of the IronWall single-page application that
have behaviour worth stating, and proves properties of them. Everything else
in the app is presentational markup.

- **Conversation store** (`ChatContext`, chat_context.dfy). `ChatProvider` holds
  `isOpen`, `isMinimized`, `isLoading`, the append-only `messages` list and the
  browser storage. The list is written through to `ironwall_chat_history` after
  every change and reloaded on mount, with a greeting as the fallback.
  `sendMessage` is split at `await fetch(...)` (ChatContext.tsx:99) into
  `BeginSend`, which makes the optimistic user append and returns the request
  body, and `CompleteSend`, which appends exactly one model message: the reply
  or the fixed apology. The later `await response.json()` (:111) is folded into
  `CompleteSend`, because nothing changes state between the two awaits and a
  failure at either ends in the same `catch`.
  Each method ties the new state to a pure step function of the old state
  (`SendBegun`, `SendCompleted`, ...). The lemmas are about those functions.
- **Assistant widget** (`AIChatbot`, ai_chatbot.dfy). This covers JavaScript's
  `trim` (stated for any class of space characters, and applied to the
  ECMAScript WhiteSpace and LineTerminator characters), the closed / minimized / expanded view selection with the loading
  indicator and the disabled send button, and `handleSend`. `handleSend` is the
  only place where blank input is rejected.
- **Session entries** (`SessionStorage`, session_storage.dfy). `ironwall_token`
  and `ironwall_user` are modelled as a record of two optional entries. The
  user entry is described by what `JSON.parse` and the `.role` read that
  follows it make of the text.
- **Route guard** (`ProtectedRoute`, protected_route.dfy). A pure decision over
  the two entries, `requireAdmin` and the location. It returns `Render`, a
  redirect to `/login` carrying `from`, or a redirect to `/dashboard` without
  it. It only reads storage; its result type has no storage in it.
- **Sign-up page** (`Signup`, signup.dfy). This covers the ordered field
  checks, the request body, and the write of both session entries on an OK
  response. `handleSignup` is split at `await fetch(...)` (Signup.tsx:47) into
  `Submit` and `Finish`; the later `await response.json()` (:59) is folded
  into `Finish` for the same reason as in `sendMessage`.
- **Profile page** (`Profile`, profile.dfy). This covers per-field `onChange`,
  `handleSave`, and `handlePasswordChange`, whose only check is equality.

The network, the clock and the user's typing are parameters. Examples: the
`Outcome` of a chat request, the `RegisterReply` of a sign-up, the `now`
timestamp, the text passed to `EnterText`.

Points of the code's behaviour that the model makes explicit:

- `sendMessage` appends whatever text it is given. Only `handleSend` in
  AIChatbot.tsx:49-50 rejects blank input, after trimming it.
- `sendMessage` has no guard against a second send while one is pending. The
  only thing that serialises sends is the submit button, which is disabled
  while `isLoading` is true (AIChatbot.tsx:204).
  `OverlappingSendsInterleave` shows what happens when two sends overlap.
  `SerializedSendsStayPaired` shows that sends run one after another stay in
  prompt/answer pairs.
- Any message sitting at index 0 is dropped from the request history, not
  only the greeting. A stored `[]` restores an empty list. After that, the
  user's first prompt is the message at index 0 and it is never sent again
  (`EmptyHistoryDropsFirstPrompt`).

## Model

| member | source | states |
|---|---|---|
| `ChatContext.ToApi` | src/context/ChatContext.tsx:72-75 | maps each message to `{role, parts = text}`, same length, same order |
| `ChatContext.InitialMessages` | src/context/ChatContext.tsx:39-60 | a stored list that parsed is restored as is; a missing, empty or unparseable entry gives exactly the one greeting from the model; the list is empty only when an empty list was stored |
| `ChatContext.Persist` | src/context/ChatContext.tsx:63-65 | after the write the history key holds the current list; no key is removed and every other key keeps its value |
| `ChatContext.HistoryForApi` | src/context/ChatContext.tsx:68-76 | drops exactly index 0: length is `max(0, n-1)` and entry `i-1` is message `i` as `{role, parts}` |
| `ChatContext.ChatProvider.constructor` | src/context/ChatContext.tsx:34-65 | starts closed, not minimized, not loading; messages come from the initializer over the stored value; the first effect run writes them through; other storage keys are kept |
| `ChatContext.ChatProvider.OpenChat` | src/context/ChatContext.tsx:78-81 | sets open and not minimized; messages and storage unchanged |
| `ChatContext.ChatProvider.CloseChat` | src/context/ChatContext.tsx:83-86 | sets not open and not minimized; nothing else changes |
| `ChatContext.ChatProvider.MinimizeChat` | src/context/ChatContext.tsx:88 | sets only `isMinimized`, even on a closed chat |
| `ChatContext.ChatProvider.MaximizeChat` | src/context/ChatContext.tsx:89 | clears only `isMinimized` |
| `ChatContext.ChatProvider.BeginSend` | src/context/ChatContext.tsx:91-105 | appends one user message with the text, raises `isLoading`, writes through; the request's history is built from the list before the append and the text travels only in `message` |
| `ChatContext.ChatProvider.CompleteSend` | src/context/ChatContext.tsx:107-131 | appends exactly one model message (the reply, or the apology on any failure), lowers `isLoading`, writes through; total, so nothing escapes |
| `ChatContext.ChatProvider.ClearHistory` | src/context/ChatContext.tsx:134-142 | messages become the single "History cleared" model message; flags unchanged; written through |
| `ChatContext.FallbackIsGreeting` | src/context/ChatContext.tsx:39-60 | an absent, empty, unparseable or unmappable stored value gives exactly one model greeting |
| `ChatContext.ReloadRestoresMessages` | src/context/ChatContext.tsx:41-65 | what the write-through effect stores, the initializer restores unchanged and in order; other keys are untouched |
| `ChatContext.RequestCarriesConversation` | src/context/ChatContext.tsx:91-105 | for a non-empty list, the request's history followed by its message is the conversation after the append, minus index 0 |
| `ChatContext.EmptyHistoryDropsFirstPrompt` | src/context/ChatContext.tsx:41-76 | after restoring an empty list, the first prompt sits at index 0 and is missing from the next request's history |
| `ChatContext.CompletedSendAppendsPair` | src/context/ChatContext.tsx:91-131 | a completed send adds exactly the user message and one model message, so the list grows by 2 and ends with a model message; `isLoading` ends false; visibility unchanged |
| `ChatContext.FailureAppendsApology` | src/context/ChatContext.tsx:119-128 | a failed request appends the fixed apology text |
| `ChatContext.ClearKeepsFlags` | src/context/ChatContext.tsx:134-142 | clearing leaves one message and changes no flag |
| `ChatContext.MinimizeMaximizeTouchOnlyMinimized` | src/context/ChatContext.tsx:88-89 | minimize and maximize change `isMinimized` alone and never `isOpen` |
| `ChatContext.RunSendsAppendsTranscript` | src/context/ChatContext.tsx:91-131 | sends run to completion one after another append their prompt/answer pairs after the old list; visibility kept; `isLoading` ends false |
| `ChatContext.TranscriptPairs` | src/context/ChatContext.tsx:91-131 | the appended transcript has two entries per send: the prompt at `2k`, its own answer at `2k+1` |
| `ChatContext.SerializedSendsStayPaired` | src/components/AIChatbot.tsx:200-207 | with sends serialised by the disabled button, the old list is a prefix and every prompt is directly followed by its answer |
| `ChatContext.OverlappingSendsInterleave` | src/context/ChatContext.tsx:91-131 | sendMessage has no guard: two overlapping sends put both prompts before either answer, answers land in completion order, and the first completion lowers `isLoading` while a request is still out |
| `AIChatbot.TrimStart` | src/components/AIChatbot.tsx:49 | result is a suffix of the input, the removed prefix is all whitespace, and the result does not start with whitespace |
| `AIChatbot.Trim` | src/components/AIChatbot.tsx:49-50 | `String.prototype.trim` over JavaScript whitespace: never longer than the input, and empty exactly when the input is all whitespace, which is when `handleSend` returns early |
| `AIChatbot.TrimEnd` | src/components/AIChatbot.tsx:49 | result is a prefix of the input, the removed suffix is all whitespace, and the result does not end with whitespace |
| `AIChatbot.TrimIsSlice` | src/components/AIChatbot.tsx:49 | `trim` keeps one contiguous slice of the input |
| `AIChatbot.TrimRemovesOnlySpace` | src/components/AIChatbot.tsx:49 | what `trim` removes before and after that slice is whitespace only |
| `AIChatbot.TrimmedEndsAreNotSpace` | src/components/AIChatbot.tsx:49 | the trimmed text neither starts nor ends with whitespace |
| `AIChatbot.TrimEmptyIffBlank` | src/components/AIChatbot.tsx:49-50 | the trimmed text is empty exactly when the input is all whitespace, which is when `handleSend` returns early |
| `AIChatbot.ViewOf` | src/components/AIChatbot.tsx:56-207 | hidden exactly when closed, whatever `isMinimized` is; the bubble exactly when open and minimized; otherwise the expanded panel shows the messages, shows the loading indicator exactly when loading, and disables send exactly when the indicator shows |
| `AIChatbot.VisibilityOpsSelectView` | src/components/AIChatbot.tsx:56-78 | after open the panel is expanded; after close it is hidden; minimize gives the bubble only when open; clicking the bubble (maximize) expands the panel |
| `AIChatbot.ChatWidget.constructor` | src/components/AIChatbot.tsx:30 | the widget starts with an empty input, bound to its provider, and no text exists outside the expanded panel |
| `AIChatbot.ChatWidget.EnterText` | src/components/AIChatbot.tsx:193-198 | typing, possible only while the panel is expanded, sets the uncontrolled input's value |
| `AIChatbot.ChatWidget.Minimize` | src/components/AIChatbot.tsx:107-115 | the panel's minimize button: only `isMinimized` is set, storage is kept, and the unmounted input's text is lost |
| `AIChatbot.ChatWidget.Close` | src/components/AIChatbot.tsx:116-122 | the panel's close button: both visibility flags are cleared, storage is kept, and the input's text is lost |
| `AIChatbot.ChatWidget.Maximize` | src/components/AIChatbot.tsx:58-75 | the bubble's button: only `isMinimized` is cleared, and the panel comes back with an empty input |
| `AIChatbot.ChatWidget.HandleSend` | src/components/AIChatbot.tsx:47-54 | fires only from the expanded panel's form; blank input: no request, input kept, provider state and storage unchanged; otherwise exactly one send of the trimmed text, the other storage keys kept, then the input is cleared |
| `ProtectedRoute.Decide` | src/components/ProtectedRoute.tsx:9-36 | renders only with both entries present; a redirect is either to `/login` with `from` = location or, only under `requireAdmin`, to `/dashboard` without `from`; without `requireAdmin` it renders exactly when both entries are present; under `requireAdmin` it renders only for role `"admin"` |
| `ProtectedRoute.AdminCheck` | src/components/ProtectedRoute.tsx:24-32 | renders exactly for an object whose role is `"admin"`; goes to `/login` with `from` exactly when parsing or reading `.role` throws; any other redirect is to `/dashboard` without `from` |
| `ProtectedRoute.SignedOutGoesToLogin` | src/components/ProtectedRoute.tsx:15-21 | a missing or empty token or user text redirects to `/login` with `from` |
| `ProtectedRoute.PlainRouteIgnoresUserText` | src/components/ProtectedRoute.tsx:24-35 | with `requireAdmin` false and both entries present the children render, even when the user text would not parse |
| `ProtectedRoute.NonAdminGoesToDashboard` | src/components/ProtectedRoute.tsx:24-29 | under `requireAdmin`, user text that parses to an object with a role other than `"admin"` (or none), or to a number, string, boolean or array, redirects to `/dashboard` without `from`, never to `/login` |
| `ProtectedRoute.UnreadableUserGoesToLogin` | src/components/ProtectedRoute.tsx:24-32 | under `requireAdmin`, user text that throws when parsed or when `.role` is read redirects to `/login` with `from` |
| `ProtectedRoute.AdminRenders` | src/components/ProtectedRoute.tsx:24-35 | under `requireAdmin`, role `"admin"` renders |
| `Signup.WithField` | src/pages/Signup.tsx:118-168 | an `onChange` sets its own field and leaves the other three unchanged |
| `Signup.Validate` | src/pages/Signup.tsx:26-42 | passes exactly when username, email and password are non-empty and the password has at least 6 characters; "Missing fields" exactly when a required field is empty; "too short" only after that check passed |
| `Signup.FailureDescription` | src/pages/Signup.tsx:61-82 | the error shown is never empty: the server's or the thrown message when there is one, otherwise "Registration failed" for a refusal and "An error occurred. Please try again." for a thrown error |
| `Signup.SessionAfter` | src/pages/Signup.tsx:61-67 | an OK reply writes its token and the stringified user, leaving the two entries paired; a refusal or a thrown error leaves storage untouched |
| `Signup.SignupPage.constructor` | src/pages/Signup.tsx:15-21 | empty form, not loading, storage as found |
| `Signup.SignupPage.OnChange` | src/pages/Signup.tsx:118-168 | updates one form field; nothing else changes |
| `Signup.SignupPage.Submit` | src/pages/Signup.tsx:23-57 | a failed check shows its toast, makes no request, writes no storage and leaves `isLoading` as it was; a pass raises `isLoading` and returns the body with username, email and password only |
| `Signup.SignupPage.Finish` | src/pages/Signup.tsx:59-85 | an OK response writes both entries and schedules `/dashboard`; a refusal or thrown error writes nothing; `isLoading` ends false either way |
| `Signup.FullNameNotRequired` | src/pages/Signup.tsx:26 | the full name does not affect the checks |
| `Signup.MissingFieldsReportedFirst` | src/pages/Signup.tsx:26-42 | a short password is reported as "too short" only when every required field is filled, else as "Missing fields" |
| `Signup.SessionWrittenTogether` | src/pages/Signup.tsx:61-67 | the token and user entries are written together or not at all, so a paired session stays paired |
| `Signup.SignedUpUserPassesGuard` | src/pages/Signup.tsx:66-67 | after a successful sign-up with a non-empty token the guard renders plain protected routes; an admin route renders exactly for role `"admin"` and otherwise redirects to `/dashboard` |
| `Signup.EmptyTokenStaysSignedOut` | src/pages/Signup.tsx:66 | an empty token from the server leaves every protected route redirecting to `/login` |
| `Profile.WithField` | src/pages/Profile.tsx:70-134 | an `onChange` sets its own field and leaves the other four unchanged |
| `Profile.PasswordsCleared` | src/pages/Profile.tsx:41 | the three password fields become `""`; name and email are unchanged |
| `Profile.ProfilePage.constructor` | src/pages/Profile.tsx:13-19 | the form starts with the fixed name and email and empty passwords |
| `Profile.ProfilePage.OnChange` | src/pages/Profile.tsx:70-134 | updates one form field; the toast is unchanged |
| `Profile.ProfilePage.HandleSave` | src/pages/Profile.tsx:21-26 | shows the saved toast and never changes the form |
| `Profile.ProfilePage.HandlePasswordChange` | src/pages/Profile.tsx:28-42 | accepts exactly when new and confirm are equal; a mismatch leaves the form untouched; a match clears exactly the three password fields |
| `Profile.OnlyEqualityIsChecked` | src/pages/Profile.tsx:29 | the form left by an accepted change does not depend on the current or the new password values, and name and email are kept |
| `Profile.ClearedFormIsStable` | src/pages/Profile.tsx:41 | a cleared form has matching passwords, and clearing it again changes nothing |

## Left out

- Rendering, styling, scrolling, focus (`setTimeout` focus), refs other than the input's value, and the `useChat` provider check: these are presentation.
- The `typeof window === "undefined"` branch of the initializer, which returns `[]` during server rendering: this app renders only in the browser.
- JSON and `Date` serialisation: a stored history is `Valid(messages)`, `Corrupt` or `EmptyText`. The code does not shape-check restored entries: a stored `[1]` or `[{}]` restores a message with no role or text (ChatContext.tsx:45-48). `Valid` holds only well-formed messages, so such entries are not modelled. An array with a `null` element makes `m.timestamp` throw, which the model counts as `Corrupt`. Timestamps are opaque integers and are restored unchanged.
- React scheduling: each state update is applied at once, and the write-through effect is folded into the method that changes `messages`. No interleaving of renders is modelled.
- HTTP: each request ends in an abstract outcome. A non-2xx status, a rejected `fetch` and an unreadable body are all `Err` for chat. For sign-up they are `Refused(message)` or `Thrown(message)`. An OK sign-up body is assumed to carry `token` and `user`. An OK chat body is assumed to carry a string `reply`: a body without one would append a model message whose text is `undefined` (ChatContext.tsx:115), which the model does not represent.
- Signup.Validate: the 6-character minimum counts Unicode scalar values, while JavaScript's `length` counts UTF-16 code units. Passwords with characters outside the Basic Multilingual Plane are therefore measured differently.
- The toast timing and the one-second delay before `navigate("/dashboard")`: the model records the scheduled destination only.
- Signup.SessionWrittenTogether: assumes `localStorage.setItem` never throws. Signup.tsx:66-67 writes the two entries in two statements; if the second write threw (a quota error, say), the new token would sit beside the old user entry or none, and the `catch` would report "Registration failed". The model does not capture that half-written session.
- Signup.SessionAfter: the same assumption; both writes are applied as one step.
- ChatContext.Persist: assumes the write-through `setItem` of ChatContext.tsx:64 never throws; a failed write, which would leave the stored history stale, is not modelled.
- Storage is split per component. The chat store sees `map<string, Stored>`; the session code sees the record of its two entries. Cross-tab storage events, logout, profile refresh and OTP verification have no code in this app and are not modelled.
- Signup's and the chat widget's submit buttons are disabled while loading. The handlers themselves are modelled without that gate. Its effect on chat is stated by `ViewOf` and `SerializedSendsStayPaired`.
