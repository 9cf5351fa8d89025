# Chat gateway and e-mail verification of the Physical AI textbook site

This project models, in Dafny, the small amount of decision logic in a documentation site
that adds an "Ask AI" chat assistant and an e-mail/password sign-up flow with a
six-digit verification code. There are five pieces:

- **Chat gateway** (`ChatGateway`, `app/api/agent/route.ts`). This is the `POST` handler as a
  total function from the request to a JSON response. It checks that `messages` is an array, then
  checks the provider. Each of `gemini`, `openrouter` and `groq` gets a fixed base URL, an API key
  that falls back to `dummy-key`, and a default model for a falsy `model`. The upstream transcript
  is the system prompt followed by the caller's turns. A reply or a thrown error becomes
  `{reply}`, `{error}` with status 400, or `{error}` with status 500. The completion call is an
  oracle, and `Prepare` and `Finish` split the handler around it.
- **Verification codes** (`VerificationCodes`, `lib/supabase.ts`). Code generation is
  `Decimal(100000 + k)` for a draw `k` in `[0, 900000)`. It is proved to be a six-digit string
  without a leading zero, and to map draws one-to-one onto all such strings. The
  `email_verification_codes` table is a class holding a sequence of rows. Issuing a code appends
  exactly one row that expires 900000 ms after the given clock value. `VerifyCode` fails closed
  on an RPC error.
- **Auth context** (`Auth`, `contexts/AuthContext.tsx`). The callbacks are functions over the
  outcomes the auth service reports. `signUp` and `sendCode` are methods that issue a code into
  the code table.
- **Code entry form** (`VerifyEmailForm`, `components/auth/VerifyEmailForm.tsx`). This is a class
  over an array of six cells, each holding at most one UTF-16 code unit, as JavaScript's
  `value.length` counts them. It has the change, key-down,
  submit and resend handlers.
- **Chat widget** (`ChatWidget`, `components/ai-agent/AiAgent.tsx`). This is a class holding the
  transcript, the input, the provider and model, and the like and dislike sets. The like and
  dislike toggles are specified by functions on the two sets. `sendMessage` posts a
  `ChatGateway.Request`, so lemmas connect what the widget sends with what the gateway does.

External calls are replaced by values passed in, as follows:

- The completion call is a function `(Client, Completion) -> UpstreamOutcome`.
- The `verify_email_code` RPC is a function `(email, code) -> RpcResult`.
- The form's `verifyEmail` and `sendCode` are function values, just as the form obtains them
  from `useAuth()`.
- The widget's `fetch` is a function `Request -> ServerAnswer`.
- Auth-service results are `AuthResult` values, and the insert's error is a boolean.
- `Math.random()` is the integer draw `Draw`, and `Date.now()` is an integer millisecond clock.

Two behaviours of the code are easy to expect otherwise, and the model follows the code:

- The gateway returns the thrown error's own `message` with status 500, which may carry provider
  detail. It is not replaced by a generic text. Only an empty message becomes
  `Internal Server Error`.
- Issuing a code does not invalidate earlier codes for the same e-mail. `RowsForAppend` states
  that earlier rows stay in place.

One observation needs no correction. The route's default model for `openrouter` appears in the
widget's `MODELS` table under `groq`, and the route's `groq` default is not in the table at all.
The widget always sends a non-empty model from its table (`WidgetRequestReachesUpstream`), so
these defaults never apply to the widget's requests.

## Model

| member | source | states |
|---|---|---|
| `ChatGateway.ParseProvider` | app/api/agent/route.ts:50-77 | only the exact strings `gemini`, `openrouter`, `groq` select a provider, and the selected provider's name is the string given |
| `ChatGateway.ApiKey` | app/api/agent/route.ts:52-54 | the key is the provider's environment variable when set and non-empty, otherwise `dummy-key`; never empty |
| `ChatGateway.ClientFor` | app/api/agent/route.ts:53-56 | the client uses the provider's fixed base URL and its resolved key |
| `ChatGateway.SelectModel` | app/api/agent/route.ts:45-73 | a truthy model passes through unchanged, a missing or empty one becomes the provider's default; the result is never empty |
| `ChatGateway.UpstreamMessages` | app/api/agent/route.ts:94-101 | the upstream list has length n+1, starts with the system turn, and holds the caller's turns unmodified and in order after it |
| `ChatGateway.ErrorResponse` | app/api/agent/route.ts:107-117 | a caught error gives status 500 with its message, or `Internal Server Error` when the message is empty |
| `ChatGateway.ApiKeyVariable` | app/api/agent/route.ts:52-70 | each provider's key comes from its own `<PROVIDER>_API_KEY` variable; distinct providers use distinct variables (`ProviderNamesRoundTrip`) |
| `ChatGateway.BaseUrl` | app/api/agent/route.ts:55-71 | each provider has a fixed `https://` endpoint; distinct providers have distinct endpoints (`ProviderNamesRoundTrip`) |
| `ChatGateway.DefaultModel` | app/api/agent/route.ts:57-73 | each provider has a fixed, non-empty default model |
| `ChatGateway.FirstContent` | app/api/agent/route.ts:103 | `choices[0]?.message?.content`: the first choice's content when there is one, and the empty string when there are no choices or the first has no content |
| `ChatGateway.Prepare` | app/api/agent/route.ts:36-101 | a parse failure gives 500; a body without a messages array gives 400 `Invalid messages format` before the provider is checked; an unknown provider gives 400 `Invalid provider selected`; only a request passing both checks produces an upstream call, with the provider's client, the resolved model, the system turn plus the caller's turns, and temperature 0.3 |
| `ChatGateway.Finish` | app/api/agent/route.ts:103-117 | a completed call gives 200 with the first choice's non-empty content or the fixed apology; a thrown error gives the 500 error response |
| `ChatGateway.Post` | app/api/agent/route.ts:36-119 | the status is 200, 400 or 500; 200 exactly for a reply body; replies and error messages are never empty; a request rejected locally is answered without consulting the upstream |
| `ChatGateway.MessagesCheckedFirst` | app/api/agent/route.ts:40-42 | a body without a messages array is answered 400 `Invalid messages format`, whatever the provider and upstream |
| `ChatGateway.UnknownProviderRejected` | app/api/agent/route.ts:75-76 | an array of messages with a provider outside the three is answered 400 `Invalid provider selected`, whatever the upstream |
| `ChatGateway.RejectionMakesNoCall` | app/api/agent/route.ts:40-77 | a locally rejected request gives the same response under any two upstreams, so no completion call is made |
| `ChatGateway.ProviderNamesRoundTrip` | app/api/agent/route.ts:50-74 | a provider's name parses back to it; distinct providers have distinct names, base URLs and key variables |
| `ChatGateway.ReplyOfUpstream` | app/api/agent/route.ts:94-105 | for an accepted request the response is computed from the one upstream outcome for the prepared client and arguments |
| `VerificationCodes.Decimal` | lib/supabase.ts:10 | the decimal rendering of a non-negative integer, which is `toString` on the code range [100000, 999999], is a non-empty string of decimal digits |
| `VerificationCodes.DecimalDenotes` | lib/supabase.ts:10 | the decimal rendering of an integer is a digit string with no leading zero (unless 0) whose value is that integer |
| `VerificationCodes.DecimalLength` | lib/supabase.ts:10 | an integer between 10^(k-1) and 10^k - 1 renders as exactly k decimal characters |
| `VerificationCodes.DecimalOfDigitsValue` | lib/supabase.ts:10 | rendering the value of a digit string with no leading zero gives the string back |
| `VerificationCodes.GenerateCode` | lib/supabase.ts:9-11 | for every draw the code is exactly six digits, does not start with 0, and denotes 100000 + k, which lies in [100000, 999999] |
| `VerificationCodes.CodeHasUniqueDraw` | lib/supabase.ts:9-11 | every six-digit code without a leading zero is produced by exactly one draw, so codes are as uniform as the draw |
| `VerificationCodes.RowsForExactly` | lib/supabase.ts:18-24 | a row is among an e-mail's stored codes exactly when it was stored with that e-mail |
| `VerificationCodes.RowsForAppend` | lib/supabase.ts:18-24 | appending a row adds it at the end of its own e-mail's rows and leaves every other e-mail's rows unchanged |
| `VerificationCodes.CodeTable.SendVerificationCode` | lib/supabase.ts:14-41 | on success exactly one row `{email, code, now + 900000}` is appended and the returned code is the one stored; on an insert error the table is unchanged and the call rejects with `Failed to send verification code` |
| `VerificationCodes.VerifyCode` | lib/supabase.ts:44-56 | the answer is true exactly when the RPC returns data true; an RPC error always gives false |
| `Auth.ThrowOnError` | contexts/AuthContext.tsx:54-71 | `if (error) throw error`: rejects exactly when the auth service reports an error, with that error's message |
| `Auth.SignIn` | contexts/AuthContext.tsx:60-67 | rejects exactly when the auth service reports an error, with that error's message |
| `Auth.SignOut` | contexts/AuthContext.tsx:69-72 | rejects exactly when the auth service reports an error, with that error's message |
| `Auth.VerifyEmail` | contexts/AuthContext.tsx:74-90 | an invalid code gives false and no metadata update; a valid code requests the `email_verified` update and gives true exactly when that update succeeds |
| `Auth.VerifiedNeedsValidCodeAndWrite` | contexts/AuthContext.tsx:74-90 | verification succeeds exactly when the RPC returns true and the update succeeds; an RPC error never requests the update |
| `Auth.SignUp` | contexts/AuthContext.tsx:41-58 | an auth error rejects with its message before any code is issued; otherwise exactly one code row is issued for the e-mail, and an insert failure rejects |
| `Auth.SendCode` | contexts/AuthContext.tsx:92-94 | issues exactly one code row for the e-mail, or rejects with the table unchanged |
| `Auth.UseAuth` | contexts/AuthContext.tsx:109-115 | without a provider the hook throws `useAuth must be used within an AuthProvider`; otherwise it returns the context |
| `VerifyEmailForm.Utf16Length` | components/auth/VerifyEmailForm.tsx:19-45 | JavaScript's `length`: between one and two code units per character; a single character counts two exactly when it lies outside the Basic Multilingual Plane, which with `Utf16LengthAppend` fixes every string's length |
| `VerifyEmailForm.Utf16LengthAppend` | components/auth/VerifyEmailForm.tsx:43-45 | the code-unit length of a concatenation is the sum of the lengths |
| `VerifyEmailForm.Join` | components/auth/VerifyEmailForm.tsx:43 | `join('')` of no cells is empty and of one cell is that cell |
| `VerifyEmailForm.JoinAppend` | components/auth/VerifyEmailForm.tsx:43 | joining two runs of cells is joining each and concatenating, which with `Join` determines the joined code |
| `VerifyEmailForm.JoinLength` | components/auth/VerifyEmailForm.tsx:43 | with at most one code unit per cell, the joined code is as long as the number of filled cells, in code units and in characters |
| `VerifyEmailForm.JoinedFullIffAllFilled` | components/auth/VerifyEmailForm.tsx:43-48 | with at most one code unit per cell, the joined code's `length` is 6 exactly when no cell is empty |
| `VerifyEmailForm.Form.constructor` | components/auth/VerifyEmailForm.tsx:8-11 | six empty cells, no error, not loading, not verified |
| `VerifyEmailForm.Form.HandleChange` | components/auth/VerifyEmailForm.tsx:18-30 | a value longer than one UTF-16 code unit (a character outside the Basic Multilingual Plane included) changes nothing; otherwise only cell `index` takes the value; focus moves to index+1 only for a non-empty value before the last cell; every cell keeps at most one code unit |
| `VerifyEmailForm.Form.HandleKeyDown` | components/auth/VerifyEmailForm.tsx:32-37 | focus moves to index-1 exactly on Backspace in an empty cell with index > 0 |
| `VerifyEmailForm.Form.HandleSubmit` | components/auth/VerifyEmailForm.tsx:39-74 | `verifyEmail` is called exactly when all six cells are filled and the e-mail is non-empty, with the six-character joined code; an empty cell sets the 6-digit error, then an empty e-mail sets `Email missing hai`; true sets success, false sets the invalid-code error, a throw sets its message or the fallback; loading ends false |
| `VerifyEmailForm.Form.HandleResend` | components/auth/VerifyEmailForm.tsx:76-90 | an empty e-mail changes nothing and sends nothing; otherwise `sendCode` is called once, a failure sets the resend error, success leaves the error cleared, and loading ends false |
| `ChatWidget.Models` | components/ai-agent/AiAgent.tsx:15-19 | every provider offers at least one model and no model name is empty |
| `ChatWidget.TrimStart` | components/ai-agent/AiAgent.tsx:95 | the result is a suffix of the input, everything dropped is white space, and the result does not start with white space |
| `ChatWidget.TrimEnd` | components/ai-agent/AiAgent.tsx:95 | the result is a prefix of the input, everything dropped is white space, and the result does not end with white space |
| `ChatWidget.Trim` | components/ai-agent/AiAgent.tsx:95 | `input.trim()` has white space at neither end, and is empty exactly when the input is all white space |
| `ChatWidget.TrimIsSlice` | components/ai-agent/AiAgent.tsx:95 | `input.trim()` is a contiguous slice of the input with only white space cut from each end |
| `ChatWidget.Like` | components/ai-agent/AiAgent.tsx:76-83 | only `idx` changes membership; it becomes liked exactly when it was not, and leaves the dislikes when it becomes liked; disjoint sets stay disjoint |
| `ChatWidget.Dislike` | components/ai-agent/AiAgent.tsx:85-92 | the mirror image of `Like` |
| `ChatWidget.LikeReactions` | components/ai-agent/AiAgent.tsx:76-83 | on disjoint sets, liking takes Liked to Neutral and Neutral or Disliked to Liked, and keeps every other reply's mark |
| `ChatWidget.DislikeReactions` | components/ai-agent/AiAgent.tsx:85-92 | on disjoint sets, disliking takes Disliked to Neutral and Neutral or Liked to Disliked, and keeps every other reply's mark |
| `ChatWidget.ChatRequest` | components/ai-agent/AiAgent.tsx:102-106 | the posted body carries the transcript as an array, the model, and a provider name that the gateway parses back to the widget's provider |
| `ChatWidget.AssistantText` | components/ai-agent/AiAgent.tsx:107-111 | a failed request gives `Sorry, something went wrong. Please try again.`; a reply body gives its reply; an error body with a message gives the apology |
| `ChatWidget.WidgetRequestReachesUpstream` | components/ai-agent/AiAgent.tsx:102-106 | every request the widget can post passes the gateway's checks and is forwarded with the widget's own model, never a provider default |
| `ChatWidget.AssistantTextFromGateway` | components/ai-agent/AiAgent.tsx:107-111 | against the gateway, the appended assistant text is never empty: the reply on success, the apology on any error response |
| `ChatWidget.Widget.constructor` | components/ai-agent/AiAgent.tsx:25-40 | empty transcript and input, Gemini with its first model, no marks, and the invariant holds |
| `ChatWidget.Widget.HandleProviderSelect` | components/ai-agent/AiAgent.tsx:67 | sets the provider and that provider's first model, closes the menu, changes nothing else, and keeps the model in the provider's list |
| `ChatWidget.Widget.HandleModelSelect` | components/ai-agent/AiAgent.tsx:68 | sets the model and closes the menu; the invariant holds exactly when the model is one the menu offers |
| `ChatWidget.Widget.SetInput` | components/ai-agent/AiAgent.tsx:217 | replaces the input and nothing else |
| `ChatWidget.Widget.HandleLike` | components/ai-agent/AiAgent.tsx:76-83 | the sets become `Like` of the old sets, nothing else changes, and likes and dislikes stay disjoint |
| `ChatWidget.Widget.HandleDislike` | components/ai-agent/AiAgent.tsx:85-92 | the sets become `Dislike` of the old sets, nothing else changes, and likes and dislikes stay disjoint |
| `ChatWidget.Widget.SendMessage` | components/ai-agent/AiAgent.tsx:94-115 | blank input changes nothing and posts nothing; otherwise it posts the earlier transcript plus the user turn with the current provider and model, appends the user turn and exactly one assistant turn (the reply for a reply body, the apology for a failed request), clears the input, and ends with loading false |

## Left out

- The completion call, the OpenAI SDK, the Supabase client, the insert and the `verify_email_code` stored procedure are foreign code. They appear only as outcomes passed in, so the procedure's matching, expiry and consumption rules are not modelled.
- VerificationCodes.Decimal: exact decimal rendering for every integer. JavaScript's `toString` uses exponent notation from 10^21 and loses exactness above 2^53; neither occurs for codes.
- `Math.random()` floating-point arithmetic is not modelled. The model starts from the integer part of the scaled draw.
- `Date.now()` and the ISO-8601 formatting of `expires_at` are not modelled. The expiry is kept as an integer in milliseconds.
- Reading `BOOK_CONTENT.md` when the module loads is file I/O. The system prompt built from it is a parameter `systemPrompt`.
- Logging (`console.log`, `console.error`), `alert`, and the redirect timer after a successful verification are not modelled.
- VerificationCodes.CodeTable.SendVerificationCode: the insert is taken to be all-or-nothing, so the table is unchanged when the insert reports an error.
- Auth.SignUp: the password and username go only to the auth service, so the model takes just the result that service reports.
- VerificationCodes.VerifyCode: the RPC's data is taken to be a boolean. A `null` data value, which the source would pass on unchanged, is not represented.
- ChatGateway.Prepare: `provider` and `model` values that are not strings are treated as missing. For `model`, a truthy non-string value would pass through in the source.
- ChatGateway.Prepare: the elements of `messages` are taken to be `{role, content}` turns. The source spreads any JSON array elements into the upstream list unchecked.
- ChatGateway.Prepare: `response.choices` is taken to be a list. A malformed upstream response object that throws on access is covered only as a thrown error of the completion call.
- ChatWidget.AssistantText: for an error body with an empty message, the source would append an undefined content. The model appends "". The gateway never sends such a body (`ChatWidget.AssistantTextFromGateway`).
- The request and response JSON serialisation between the widget and the gateway is not modelled. The widget's request value is the gateway's parsed request.
- React asynchrony and batching are not modelled, including the stale `input` read by the suggestion buttons and the stale `messages` closure. Each handler runs to completion in one step.
- `AuthProvider`'s session subscription, which sets `user` and `loading`, is not modelled. It is an event listener on the auth service.
- Dark-mode detection, scrolling, click-outside listeners, the menu toggle buttons, copy-to-clipboard and all rendering are browser plumbing and are not modelled.
- VerifyEmailForm.Form.HandleChange: JavaScript strings may hold unpaired surrogate code units, which Dafny strings cannot; such a one-unit value is not represented.
- DOM focus is not modelled as state. The form's key handlers return the index of the cell to focus instead.
- The keep-alive cron route, the layout, the theme configuration, the copy buttons, the login form and the user avatar are not part of this model.
