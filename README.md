# Chat client: message cache and form validation

A model of the logic of a mobile group-chat client that is not view code:

- **Live-message merge.** A `new-message` push is merged into the cached, paged message history. The merge drops an id that is already cached, puts the new message at the front of the newest page, and keeps everything else.
- **Page fetching.** A server message is mapped to the cached shape. A list response becomes a cached page. The pagination cursor picks the next page to request.
- **Sign-up and sign-in forms.** Each form's submit handler gives either an alert text or the request payload. The error text shown when a request fails is modelled too.
- **Profile and password-change rules.** The zod schema rules become the list of issues a form produces.
- **Group create/join.** The guards come first. Then come the effects of a settled request. Last is the form state (`inviteCode`, `groupData`) with the two requests' pending flags, which together give `loading`.

Each module follows one source file:

- `ChatMessages` (hooks/useChatMessages.ts)
- `ChatSocket` (hooks/useChatSocket.ts)
- `RegisterForm` (app/register.tsx)
- `LoginForm` (app/login.tsx)
- `UserSchema` (schema/userSchema.ts)
- `ChatActions` (hooks/useChatActions.ts)

`ChatTypes` holds the data shapes of types/message.ts and types/api.ts. `Feedback` holds the shared `message || fallback` error-text rule. Everything is a pure function except `ChatActions.ChatActionsState`. That class holds the hook's state, and its methods are the state transitions. Network answers are inputs to those transitions. Alerts, navigation and cache refreshes are returned as values.

## Model

| member | source | states |
|---|---|---|
| ChatMessages.MapServerMessage | hooks/useChatMessages.ts:9-16 | the cached message copies id, content, senderId and createdAt, takes senderName and avatar from sender.username and sender.avatar, and is not marked optimistic |
| ChatMessages.MapMessages | hooks/useChatMessages.ts:30 | the page's messages are the element-wise mapping of the response data: same length, same order |
| ChatMessages.NextPage | hooks/useChatMessages.ts:31-34 | a next page exists exactly when page < totalPages; it is then page + 1, so it is above the current page and at most totalPages |
| ChatMessages.FetchPage | hooks/useChatMessages.ts:23-36 | a fetched page maps every message of the response in order and has a successor exactly when page < totalPages |
| ChatMessages.GetNextPageParam | hooks/useChatMessages.ts:37 | "no more pages" exactly when the last page's nextPage is null, otherwise that number |
| ChatMessages.CursorMovesForward | hooks/useChatMessages.ts:31-37 | the cursor only moves forward: the next page parameter is above the page just fetched |
| ChatMessages.RequestedPagesConsecutive | hooks/useChatMessages.ts:31-37 | following the cursor from page p with a fixed total requests p, p+1, … consecutively up to totalPages (just p when p >= totalPages) |
| ChatMessages.RequestedPagesFromFirst | hooks/useChatMessages.ts:22 | starting at the initial page 1, the pages requested are exactly 1 … max(1, totalPages) |
| ChatSocket.SomeMessageHasId | hooks/useChatSocket.ts:25 | the inner `.some` is true exactly when some message of the page has the id |
| ChatSocket.SomePageHasId | hooks/useChatSocket.ts:24-26 | the nested `.some` is true exactly when some message of some page has the id |
| ChatSocket.HandleNewMessage | hooks/useChatSocket.ts:21-49 | no cache stays no cache; a cached id leaves the cache unchanged; otherwise page 0 becomes the mapped message followed by the old page 0 messages, page 0's nextPage, the later pages, the page count and the page parameters are kept |
| ChatSocket.FlattenHasId | hooks/useChatSocket.ts:24-27 | an id occurs in some page exactly when it occurs in the flattened feed |
| ChatSocket.NewMessageFeed | hooks/useChatSocket.ts:29-48 | the feed after the update is the old feed, preceded by the mapped message exactly when its id was not cached |
| ChatSocket.NewMessageIsCached | hooks/useChatSocket.ts:24-44 | after the update the message's id is in the cache |
| ChatSocket.NewMessageIdempotent | hooks/useChatSocket.ts:24-36 | applying the update twice with the same message gives the same cache as applying it once |
| ChatSocket.NewMessageKeepsIdsUnique | hooks/useChatSocket.ts:24-44 | ids unique across all pages stay unique, and the number of cached messages grows by zero or one |
| RegisterForm.FirstFailure | app/register.tsx:40-53 | the text of the first failing check in order, and none exactly when no check fails |
| RegisterForm.HandleRegister | app/register.tsx:39-56 | submits exactly when all four fields are non-empty, the passwords match and the password has at least 6 characters; the payload is (username, email, password) without the confirmation; otherwise the emptiness, mismatch and length alerts in that priority |
| RegisterForm.HandleRegisterFollowsCheckOrder | app/register.tsx:40-55 | the handler's alert is the text of the first failing check, and it submits when none fails |
| RegisterForm.RegisterFailureText | app/register.tsx:34-36 | the error's message when non-empty, otherwise "Registration failed"; never empty |
| LoginForm.HandleLogin | app/login.tsx:31-37 | submits (email, password) exactly when both are non-empty; otherwise alerts "Please fill all fields" |
| LoginForm.BlankFieldsAreSubmitted | app/login.tsx:32 | for all non-empty fields made only of spaces, tabs and line breaks, the form submits them exactly as typed: nothing is trimmed |
| LoginForm.LoginFailureText | app/login.tsx:26-28 | the error's message when non-empty, otherwise "Login failed"; never empty |
| UserSchema.ProfileValid | schema/userSchema.ts:3-7 | a profile is valid exactly when displayName has at least 1 character, username at least 3 and a present bio at most 180; a valid profile has a non-empty display name, an over-long bio makes it invalid, and without a bio only the two name rules decide |
| UserSchema.ProfileIssues | schema/userSchema.ts:3-7 | no issue exactly when displayName has at least 1 character, username at least 3 and a present bio at most 180; each field's issue appears exactly when its rule fails |
| UserSchema.AbsentBioIsAccepted | schema/userSchema.ts:6 | an absent bio never blocks a profile |
| UserSchema.PasswordValid | schema/userSchema.ts:9-20 | a password form is valid exactly when all three passwords have at least 8 characters and the new password equals the confirmation; a mismatch or a short current or new password makes it invalid |
| UserSchema.PasswordIssues | schema/userSchema.ts:9-20 | no issue exactly when all three passwords have at least 8 characters and the new password equals the confirmation; "Passwords don't match" appears exactly on a mismatch and is reported on confirmPassword |
| ChatActions.CheckCreate | hooks/useChatActions.ts:41-47 | create is sent exactly when the title is non-empty (the description may be empty) and carries the current title and description; otherwise alerts "Please enter a group name" |
| ChatActions.CheckJoin | hooks/useChatActions.ts:49-54 | join is sent exactly when the invite code is non-empty and carries it; otherwise alerts "Please enter an invite code" |
| ChatActions.CreateEffects | hooks/useChatActions.ts:14-27 | only a "success" body refreshes the chat list and navigates home; any answer runs the caller's callback; a throw alerts the error's message or "Something went wrong" |
| ChatActions.JoinEffects | hooks/useChatActions.ts:29-39 | any answer refreshes, navigates and runs the callback; a throw alerts the error's message or "Could not join chat" |
| ChatActions.ChatActionsState.constructor | hooks/useChatActions.ts:11-12 | starts with an empty invite code, an empty group form and nothing pending |
| ChatActions.ChatActionsState.Loading | hooks/useChatActions.ts:57 | loading is true exactly when the create or the join request is pending |
| ChatActions.ChatActionsState.SetInviteCode | hooks/useChatActions.ts:59 | the invite code becomes the given text |
| ChatActions.ChatActionsState.SetGroupData | hooks/useChatActions.ts:61 | the group form becomes the given value |
| ChatActions.ChatActionsState.HandleCreate | hooks/useChatActions.ts:41-47 | the submission is the guard on the current form; the create becomes pending, and loading true, exactly when it is sent |
| ChatActions.ChatActionsState.CreateSettled | hooks/useChatActions.ts:16-23 | the form is reset to empty title and description exactly on a "success" body and otherwise unchanged; the invite code is untouched; create is no longer pending, so loading equals the join's pending flag |
| ChatActions.ChatActionsState.HandleJoin | hooks/useChatActions.ts:49-54 | the submission is the guard on the current invite code; the join becomes pending, and loading true, exactly when it is sent |
| ChatActions.ChatActionsState.JoinSettled | hooks/useChatActions.ts:31-35 | any answer resets the invite code to ""; a throw keeps it; the group form is untouched; join is no longer pending, so loading equals the create's pending flag |

## Left out

- The socket lifecycle is not modelled: connecting, the `join-chat` emit, subscribing and unsubscribing (hooks/useChatSocket.ts:15-16,53-58). It is network and event-driven code. Only the cache updater is modelled.
- ChatSocket.HandleNewMessage: requires at least one cached page when a cache exists. The source reads `old.pages[0].messages` without a check and would throw on an empty page list. The query library never stores an empty page list.
- The HTTP calls (`GetMessageGroup`, `signUp`, `signIn`, `createGroup`, `joinChatApi`) and token storage are not modelled. Their answers are inputs: a `ListResponse`, or a `Settled` value.
- ChatMessages.FetchPage: the query function never reads the response's `status`. The model reads it nowhere either. An error body without `data` would make the source throw, and that case is not modelled.
- ChatMessages.RequestedPagesConsecutive: assumes each response echoes the requested page and a fixed `totalPages`. The infinite-query machinery that calls the query function is not modelled.
- String lengths are the number of Dafny characters (Unicode scalar values) (`|s|`). JavaScript counts UTF-16 code units, so a character outside the Basic Multilingual Plane counts 2 in the source and 1 here. This affects RegisterForm.HandleRegister and UserSchema.ProfileIssues/PasswordIssues.
- UserSchema.PasswordIssues: lists the equality issue after the three length issues. Some zod versions skip the equality refinement when a length rule already failed. Validity is the same either way, but the issue list could then lack the mismatch issue.
- JavaScript numbers (`pagination.page`, `totalPages`, `nextPage`) are modelled as unbounded integers, and `page + 1` as exact addition. Floating-point semantics, non-integer values and the loss of precision past 2^53 are not modelled.
- Zod's issue codes, its own error objects and its type coercion are not modelled. The form fields are always strings.
- ChatActions.ChatActionsState: each pending flag tracks one request at a time. The query library's handling of overlapping `mutate` calls, cache invalidation and navigation are returned as `Effects` flags, not performed.
- Alerts, `router.replace`/`push`, clipboard use and all screen rendering are left out. Alerts and navigation appear as returned values.
