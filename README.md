# connect-giggle client core, modelled in Dafny

This project models the client-side core of the connect-giggle anonymous chat web client. The core has five parts:

- **The session store** (`Session`). It holds the identity, the chat status, the partner, the message list and three poll cursors. It has eight actions, and only the identity is persisted across reloads.
- **The chat page's lifecycle driver** (`ChatPage`). It covers one poll tick, starting a chat together with its bounded partner search, sending a message, disconnecting and "next chat".
- **The landing page's username form** (`UsernameEntry`). It covers input sanitising, the availability check, registration and picking a suggested name.
- **The meme gallery's paging state** (`MemeGallery`).
- **The chat message box** (`ChatInput`). It covers trimming, the submit guard, Enter-to-send and the send button's disabled state.

The response shapes of the HTTP API are datatypes in `Wire`. A server call is never made. Each handler takes the call's result as a parameter of type `Remote<T>`, which is either `Done(value)` or `Failed(detail)`, where `detail` is the error's message. The partner search loop takes the sequence of answers its successive partner checks would receive.

The store is written twice:
- as a value, the datatype `Session.State`, with one member function per action stating everything the action leaves behind;
- as the mutable object `Session.SessionStore`, whose methods are proved to produce exactly that value.

The chat page follows the same pattern. A function describes each handler's effect on the store's value (`PollTick`, `StartChatTick`, `SendTick`, `DisconnectTick`, `NextChatTick`). The methods of class `ChatPage` call the store's actions in the order the page does, and are proved equal to those functions. The invariants and the lemmas are stated on the functions.

Some consequences of the code that a reader might not expect:

- **A connected chat and a recorded partner are not equivalent.**
  - A partner reported offline leaves the chat `disconnected` with the partner still recorded (`PartnerOutlivesConnection`).
  - The only direction every handler keeps is "connected implies a partner name and identifier are known" (`HandlersKeepPartnerKnown`).
  - While that invariant holds, the poll's "adopt the partner from `notifier_data`" branch can never fire. `PollTick` states that the partner is then unchanged.
- **A successful send does not always append one message.**
  - The page appends the own message through the store's duplicate filter, so nothing is appended when a held message has the same second and text (`ChatPage.SendTick`, `MessageMerge.MergeOne`).
- **Duplicates within one batch are kept.** The duplicate filter compares only against messages already held, never within a batch (`MessageMerge.BatchDuplicatesKept`).
- **Logout keeps the poll cursors.** `logout` clears identity, status, messages and partner, but not the poll cursors (`Session.State.Logout`).

## Model

| member | source | states |
|---|---|---|
| Session.State.SetUser | src/store/useStore.ts:55-59 | the identity becomes (user, token, authenticated); status, messages, partner and cursors are unchanged |
| Session.State.Logout | src/store/useStore.ts:61-69 | identity cleared, status idle, no messages, no partner; the poll cursors are kept as they were |
| Session.State.SetChatStatus | src/store/useStore.ts:71 | only the status changes, to the given one |
| Session.State.SetPartner | src/store/useStore.ts:73-77 | partner name and identifier recorded and status forced to connected; identity, messages and cursors unchanged |
| Session.State.AddMessages | src/store/useStore.ts:79-88 | the old list stays a prefix; every appended message comes from the batch and shares (time, text) with no held message; nothing else changes |
| Session.State.ClearMessages | src/store/useStore.ts:90 | the message list becomes empty; nothing else changes |
| Session.State.UpdatePollState | src/store/useStore.ts:92-96 | all three cursors are replaced, an omitted argument overwriting the old cursor with absent; nothing else changes |
| Session.State.ResetChat | src/store/useStore.ts:98-106 | status idle, no messages, no partner, no cursors; the identity is kept |
| Session.Rehydrate | src/store/useStore.ts:108-115 | a reloaded store has exactly the persisted identity and a cleared chat session |
| Session.ReloadKeepsOnlyIdentity | src/store/useStore.ts:110-114 | stores that agree on user, token and flag reload to the same state, and reloading reproduces the persisted projection |
| Session.SessionStore.constructor | src/store/useStore.ts:42-52 | the new store holds the initial state |
| Session.SessionStore.SetUser | src/store/useStore.ts:55-59 | the store afterwards is the old value after `SetUser` |
| Session.SessionStore.Logout | src/store/useStore.ts:61-69 | the store afterwards is the old value after `Logout` |
| Session.SessionStore.SetChatStatus | src/store/useStore.ts:71 | the store afterwards is the old value after `SetChatStatus` |
| Session.SessionStore.SetPartner | src/store/useStore.ts:73-77 | the store afterwards is the old value after `SetPartner` |
| Session.SessionStore.AddMessages | src/store/useStore.ts:79-88 | the store afterwards is the old value after `AddMessages` |
| Session.SessionStore.ClearMessages | src/store/useStore.ts:90 | the store afterwards is the old value after `ClearMessages` |
| Session.SessionStore.UpdatePollState | src/store/useStore.ts:92-96 | the store afterwards is the old value after `UpdatePollState` |
| Session.SessionStore.ResetChat | src/store/useStore.ts:98-106 | the store afterwards is the old value after `ResetChat` |
| MessageMerge.IntToDecimal | src/store/useStore.ts:82 | the rendering of an integer time is non-empty, all digits after an optional leading minus, and starts with a minus exactly for negative times |
| MessageMerge.KeyInjective | src/store/useStore.ts:81-86 | two messages have the same duplicate key `${time}-${message}` if and only if they have the same time and the same text |
| MessageMerge.Fresh | src/store/useStore.ts:84-86 | a message survives the filter if and only if it is in the batch and its key is not among the held keys |
| MessageMerge.FreshCounts | src/store/useStore.ts:84-86 | each surviving message keeps its multiplicity in the batch, and each filtered one occurs zero times |
| MessageMerge.FreshIsSubsequence | src/store/useStore.ts:84-86 | the survivors keep their batch order |
| MessageMerge.Merge | src/store/useStore.ts:79-88 | the result is the old list followed by at most the batch; appended messages come from the batch and clash with no held message's (time, text) |
| MessageMerge.MergeAppendsInOrder | src/store/useStore.ts:87 | the new list is the old list followed by a subsequence of the batch |
| MessageMerge.MergeOne | src/store/useStore.ts:79-88 | a single message is appended exactly when no held message has its (time, text); otherwise the list is unchanged |
| MessageMerge.BatchDuplicatesKept | src/store/useStore.ts:84-86 | two copies of a new message in one batch are both appended |
| MessageMerge.MergeKeys | src/store/useStore.ts:81-87 | the keys held afterwards are the old keys united with all keys of the batch |
| MessageMerge.MergeIdempotent | src/store/useStore.ts:79-88 | delivering the same batch twice has the effect of delivering it once |
| ChatPage.PollRequestFor | src/pages/Chat.tsx:49-59 | a request is sent if and only if signed in and connected; it echoes the partner identifier and the three cursors, sending an empty string or a zero timestamp as absent |
| ChatPage.PollTick | src/pages/Chat.tsx:48-87 | a failed poll or a failed guard changes nothing; a non-empty `messageshash` replaces all cursors; messages are merged; the partner is adopted only when none was named; offline with a named partner gives disconnected, and any other successful tick stays connected; the status only stays or drops to disconnected; identity is kept; connected-implies-partner-known is preserved |
| ChatPage.NextPollEchoesCursors | src/pages/Chat.tsx:52-68 | after a tick that received a cursor and stayed connected, the next request carries exactly the cursors received |
| ChatPage.FirstDecisive | src/pages/Chat.tsx:128-146 | the index of the first check that found a partner or threw, every earlier check having found nothing |
| ChatPage.ChecksUsed | src/pages/Chat.tsx:140-146 | a search performs between 1 and 31 checks, stops at the first decisive one, and performs all 31 when none is decisive |
| ChatPage.SearchEnd | src/pages/Chat.tsx:139-151 | after the loop the chat is connected to the partner the last check found, and otherwise idle with the partner untouched |
| ChatPage.StartChatTick | src/pages/Chat.tsx:117-160 | not signed in changes nothing; a failed start call ends idle; an unrecognised start status stays searching; otherwise the result is the search's end state: connected to (p, p) when the last check found p, idle when it threw, idle after thirty-one fruitless checks; the result is never disconnected; identity, messages and cursors are kept; the partner invariant is preserved |
| ChatPage.ChecksPerformed | src/pages/Chat.tsx:124-146 | partner checks are made if and only if signed in and the start call answered `searching` or `connected`, and then their number is exactly `ChecksUsed` (at most 31, all 31 when nobody is found) |
| ChatPage.SendTick | src/pages/Chat.tsx:162-182 | only a successful send with a partner identifier changes the store; the list grows by one exactly when no held message has the same second and text; the appended message is the user's own, timed in whole seconds, seen 0, random 1 |
| ChatPage.DisconnectTick | src/pages/Chat.tsx:184-195 | with a partner identifier the chat session is reset whether the call succeeded or failed, keeping the identity; without one nothing happens |
| ChatPage.NextChatTick | src/pages/Chat.tsx:197-202 | a chat with a partner identifier is reset and then searched for again; without one nothing is reset and the search starts from the store as it was; a fruitless search after a reset leaves it idle without a partner; identity is kept |
| ChatPage.HandlersKeepPartnerKnown | src/pages/Chat.tsx:48-202 | poll, start, send, disconnect, next chat, sign-in and logout all keep "connected implies partner name and identifier known" |
| ChatPage.PartnerOutlivesConnection | src/pages/Chat.tsx:81-84 | a partner reported offline drops the chat to disconnected but stays recorded |
| ChatPage.ChatPage.constructor | src/pages/Chat.tsx:38 | the page starts with no search under way |
| ChatPage.ChatPage.Poll | src/pages/Chat.tsx:48-87 | the request sent and the store afterwards are those of `PollRequestFor` and `PollTick` on the store as the tick began |
| ChatPage.ChatPage.CheckForPartner | src/pages/Chat.tsx:128-137 | reports the check's outcome and records a partner it found as name and identifier |
| ChatPage.ChatPage.StartChat | src/pages/Chat.tsx:117-160 | its retry loop ends with the store `StartChatTick` describes, having made `ChecksPerformed` checks; the starting flag is cleared |
| ChatPage.ChatPage.SendMessage | src/pages/Chat.tsx:162-182 | calls the server exactly when a partner identifier is known, and leaves the store `SendTick` describes |
| ChatPage.ChatPage.Disconnect | src/pages/Chat.tsx:184-195 | calls the server exactly when a partner identifier is known, and leaves the store `DisconnectTick` describes |
| ChatPage.ChatPage.NextChat | src/pages/Chat.tsx:197-202 | leaves the store `NextChatTick` describes, with the checks of a search started after the disconnect |
| UsernameEntry.Sanitize | src/components/landing/UsernameForm.tsx:46 | the result is no longer than the input and consists only of `[a-zA-Z0-9_]` |
| UsernameEntry.SanitizeCounts | src/components/landing/UsernameForm.tsx:46 | every allowed character survives as often as it occurs, and every other character is removed |
| UsernameEntry.SanitizeIsSubsequence | src/components/landing/UsernameForm.tsx:46 | the survivors keep their order |
| UsernameEntry.SanitizeFixedPoints | src/components/landing/UsernameForm.tsx:46 | a string is left unchanged if and only if it contains only allowed characters |
| UsernameEntry.SanitizeIdempotent | src/components/landing/UsernameForm.tsx:46 | sanitising twice is sanitising once |
| UsernameEntry.SuggestionBypassesSanitiser | src/components/landing/UsernameForm.tsx:58-85 | a chosen suggestion is taken verbatim: "ab-c", which typing could never produce, passes the submit guard |
| UsernameEntry.UsernameForm.constructor | src/components/landing/UsernameForm.tsx:12-17 | empty name, not checking, availability unknown, no suggestions, not submitting, no error |
| UsernameEntry.UsernameForm.HandleInputChange | src/components/landing/UsernameForm.tsx:45-54 | stores the sanitised value and clears the error; a value of three or more characters is scheduled for checking, a shorter one resets availability to unknown |
| UsernameEntry.UsernameForm.CheckAvailability | src/components/landing/UsernameForm.tsx:22-41 | a name under three characters resets availability and suggestions without a call; a result sets availability (absent read as false), suggestions (absent read as empty) and a truthy error; a failure sets the fixed message and unknown availability; the checking flag ends false |
| UsernameEntry.UsernameForm.HandleSubmit | src/components/landing/UsernameForm.tsx:56-79 | registers exactly when the name has three or more characters and is known available; success signs the store in with the returned user and secret; failure records the error's message and leaves the store alone; the submitting flag ends false |
| UsernameEntry.UsernameForm.SelectSuggestion | src/components/landing/UsernameForm.tsx:81-85 | takes the suggestion verbatim, marks it available and clears the suggestions |
| MemeGallery.Gallery.constructor | src/pages/Memes.tsx:99-102 | no memes, cursor "0", more available, not loading |
| MemeGallery.Gallery.LoadMemes | src/pages/Memes.tsx:113-129 | fetches exactly when signed in, not loading and more are available, sending the last meme id; a page is appended in order, `has_more` is adopted and the cursor moves to the page's last id when the page is not empty; a failure changes only the loading flag; the list only grows; once nothing more is available nothing changes |
| ChatInput.Trim | src/components/chat/ChatInput.tsx:18 | the result is the slice left after cutting all leading and trailing whitespace, and neither end of it is whitespace |
| ChatInput.TrimEmpty | src/components/chat/ChatInput.tsx:18-19 | trimming yields the empty string if and only if the text is all whitespace |
| ChatInput.TrimIdempotent | src/components/chat/ChatInput.tsx:18 | trimming twice is trimming once |
| ChatInput.Submission | src/components/chat/ChatInput.tsx:16-22 | nothing is sent if and only if the text is all whitespace or the box is disabled; otherwise the non-empty trimmed text is sent |
| ChatInput.ButtonDisabled | src/components/chat/ChatInput.tsx:65 | the send button is disabled if and only if submitting would send nothing |
| ChatInput.MessageBox.constructor | src/components/chat/ChatInput.tsx:13 | the box starts empty |
| ChatInput.MessageBox.Change | src/components/chat/ChatInput.tsx:53 | the box holds the new text |
| ChatInput.MessageBox.HandleSubmit | src/components/chat/ChatInput.tsx:16-23 | hands `Submission` of the text to the send callback and clears the box exactly when something was sent |
| ChatInput.MessageBox.HandleKeyDown | src/components/chat/ChatInput.tsx:25-30 | Enter without Shift submits; any other key sends nothing and leaves the text |
| Scenario.RegisterAlice | src/components/landing/UsernameForm.tsx:45-79 | typing an available name, checking it and submitting it signs a fresh store in with the returned user |

## Left out

- **The HTTP layer.** The request bodies, JSON decoding and the endpoints of `src/lib/api.ts` beyond the response shapes are not part of this model. Every call's result is a parameter. The request a poll tick would send is modelled (`ChatPage.PollRequestFor`); the other requests are not.
- **Timers and scheduling.** These are all scheduling:
  - the 2-second poll interval;
  - the 2-second pause between partner checks;
  - the 500 ms delay before "next chat" restarts the search;
  - the 400 ms debounce of the availability check.

  A poll tick and the "next chat" handler are each modelled as one atomic step.
- **Concurrency.** Overlapping ticks, responses arriving after the page changed state, and unmounting during a call are not modelled. Each handler runs to completion against the store it started with.
- **React closures.** Each handler reads the store values captured when it was rendered. The model takes the store as it was at the start of the handler. That is what the poll tick's partner guards read, even though the tick itself has changed the store by then.
- **Interface-only behaviour.** Toasts, navigation, the redirect of signed-out users, console logging, rendering and the meme viewer are not modelled. The same goes for the infinite-scroll observer and the initial-load effect of the gallery, and the textarea auto-resize and its 1000-character limit. The username input's 20-character limit (`src/components/landing/UsernameForm.tsx:109`) is not modelled either; it limits only typing, so a chosen suggestion is not bounded by it.
- **Browser storage.** The storage mechanism is not modelled. `Session.Rehydrate` assumes the persistence layer's default shallow merge of the persisted fields over the initial state.
- **Intermediate flags.** The `isStarting`, `isChecking`, `isSubmitting` and `isLoading` flags are modelled only by their value once the handler has finished. Their transient `true` is observable only while a call is pending.
- **Text encoding.** Strings are sequences of Unicode code points, whereas JavaScript strings are UTF-16. Lengths differ only for characters outside the Basic Multilingual Plane.
- **Times.** A message time is an integer. Its rendering in the duplicate key is plain decimal, which is how JavaScript prints integers below 10^21 in magnitude. Fractional times and exponent notation are not modelled.
- **Registration errors.** A failed registration always records the error's message, because every error raised by the API layer is an `Error`. The "Registration failed" fallback is not reachable and is not modelled.
- ChatPage.StartChatTick: together with ChatPage.ChatPage.StartChat, it requires at least 31 scripted check answers. That is the most one search can consume. The requirement describes the environment, not a demand of the page.
