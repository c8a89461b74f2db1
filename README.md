# Chat backend store: a Dafny model

This project models the core of the ChatEch backend (`servidor.js`): an
in-memory account table (email to account) and chat-history table (email to
list of exchanges), the four request handlers that use them, and the
`authenticateToken` middleware that pulls a bearer token out of the
`Authorization` header.

- `Auth` (auth.dfy): the header is split on single spaces the way
  JavaScript's `split(' ')` splits it (`Split`, with `Join` as its inverse).
  The second field is the token (`BearerToken`). `Authenticate` answers 401
  when there is no token, 403 when the token does not verify, and otherwise
  the bound email. The JSON Web Token library is a `Signer`: two function
  values `sign` and `verify`. `sign` takes the email and the clock reading
  the token is issued at. The lemmas that need the library rely only on
  `Sound`: a token issued for an email, at any time, is nonempty, holds no
  space, and verifies to that email.
- `Store` (store.dfy): the entities (`User`, `Entry`, `Session`,
  `ChatAnswer`, `HistoryView`) and the two tables as a value `Db`. Each
  handler is a function from the tables and one request to the new tables
  and the reply (`Register`, `Login`, `ChatAs`/`HandleChat`,
  `History`/`HandleHistory`). Lemmas state what each call does and what it
  leaves alone. `Valid` is the invariant the handlers keep: every account is
  filed under its own email, and every account has a history.
- `Traces` (traces.dfy): sequences of requests. Chat calls append in call
  order. Accounts are never changed or removed. A registered account's
  history only grows at its end. Also an end-to-end register, chat and
  history scenario.
- `Server` (server.dfy): the class `ChatServer`.
  Its fields `users` and `chats` are the two maps. `Register` and `Chat`
  update them in place (`modifies this`): `Chat` first creates a missing
  history, then pushes onto it. `Login` and `History` only read the maps.
  Every method is proved to produce the reply and the new tables that the
  matching `Store` function describes.

Request fields are `Option<string>`: `None` means the field is absent. Like
JavaScript truthiness, the empty string counts as missing (`Present`). The
completion service's answer is an input of the chat call (`None` means the
call failed). The clock readings (the token's issue time, `id`,
`created_at`, the reply's `timestamp`) are inputs too.

Three behaviours of the code that a reader might not expect:
- The chat handler does not check that the verified email has an account.
  A chat call with a valid token for an unregistered email succeeds and
  creates a history for it (`Traces.ChatWithoutAccount`). So a chat entry
  need not belong to an account, and `Valid` only requires accounts to be
  a subset of histories.
- Registering an email that has such an orphan history replaces it with an
  empty one (`Traces.RegisterResetsOrphanHistory`), so histories are not
  append-only in general. For registered accounts they are
  (`Traces.RunPreserves`).
- The middleware takes the second space-separated word of the header and
  does not check that the first word is `Bearer` (`Auth.BearerTokenOf`).

## Model

| member | source | states |
|---|---|---|
| `Auth.Split` | servidor.js:26 | `split(' ')` yields at least one field. No field holds a space. Joining the fields with single spaces gives back the header. |
| `Auth.SplitJoin` | servidor.js:26 | Splitting undoes joining when no field holds a space, so the split is the unique space-free decomposition. |
| `Auth.BearerToken` | servidor.js:25-26 | A token is found only when a header is present. The token is nonempty and free of spaces. Which field it is is stated by `Auth.BearerTokenOf` and `Auth.BearerTokenShape`. |
| `Auth.BearerTokenOf` | servidor.js:26 | `<scheme> <token>`, optionally followed by more space-separated text, yields exactly `<token>`, whatever the scheme word is. |
| `Auth.BearerTokenShape` | servidor.js:26 | Conversely, whenever a token is found, the header is a scheme word, one space, that token, and then nothing or text starting with a space. With `Auth.BearerTokenOf`, this describes exactly which headers carry which token. |
| `Auth.NoBearerToken` | servidor.js:26-28 | A header with no space, one ending right after the scheme, and one with two spaces after the scheme (`Bearer  x`) all yield no token. That case is the 401 path. |
| `Auth.Authenticate` | servidor.js:24-35 | 401 "No token provided" exactly when there is no token. 403 "Invalid token" when the token does not verify. Otherwise success with exactly the email the token verifies to. |
| `Auth.AuthenticateSigned` | servidor.js:24-35 | A token the server issued for an email, sent after a scheme word, authenticates the caller as that email. |
| `Store.RegisterOutcome` | servidor.js:47-68 | A missing or empty field gives 400 "Email and password required" with nothing changed. A taken email gives 400 "User already exists" with nothing changed. Otherwise the call succeeds with a token signed for the email. It adds exactly the account (email, password) and an empty history under that email. Every other account and history keeps its value. |
| `Store.RegisterKeepsValid` | servidor.js:58-59 | Register keeps the store invariant: accounts are filed under their own email, and every account has a history. |
| `Store.RegisterTwice` | servidor.js:54-59 | Registering an email a second time fails with 400 whatever the password. The first account and its empty history are untouched. |
| `Store.LoginOutcome` | servidor.js:71-91 | Login succeeds iff both fields are present, the account exists and the stored password equals the given one. A missing field gives 400. An unknown email and a wrong password both give 401 "Invalid credentials". Success carries a token signed for the email. |
| `Store.LoginAfterRegister` | servidor.js:58-84 | After registering, login with the same password succeeds and login with any other password gets 401. The register token and the login token, whenever each is issued, both verify to the registered email. |
| `Store.ChatOutcome` | servidor.js:94-145 | A missing or empty message gives 400 and changes nothing. A failed completion gives 500 and changes nothing. A successful call answers the completion and the timestamp. It keeps the old history as a prefix and appends exactly one entry pairing the message with the completion. It creates the history if it was missing and leaves accounts and every other history alone. |
| `Store.ChatKeepsValid` | servidor.js:122-134 | A chat call keeps the store invariant. |
| `Store.HandleChatUnauthenticated` | servidor.js:24-35 | A chat request that fails authentication is answered 401 or 403 and leaves the store unchanged. |
| `Store.HistoryOutcome` | servidor.js:148-156 | The history call answers the stored history, or an empty one when there is none, with `total` equal to its length. |
| `Store.HistoryAfterRegister` | servidor.js:58-59 | A freshly registered account's history is empty with total 0. |
| `Traces.ChatsAppendInOrder` | servidor.js:122-134 | After any run of chat calls by one caller, the history is the old history followed by the entries of the successful calls, in call order. Failed calls add nothing. Accounts and other callers' histories are unchanged. |
| `Traces.NChatsFromEmpty` | servidor.js:134-154 | Starting from an empty history, N successful chat calls leave a history of exactly N entries with total N. Entry i pairs call i's message with its completion. |
| `Traces.ApplyPreserves` | servidor.js:47-156 | Any single request keeps the invariant. It never changes or removes an account. It only appends to a registered account's history. |
| `Traces.RunPreserves` | servidor.js:47-156 | Over any sequence of requests, the invariant holds. Accounts are never changed or deleted. A registered account's history at the start is a prefix of its history at the end. |
| `Traces.RegisterChatHistory` | servidor.js:47-156 | Register, then chat with the issued token as `Bearer <token>`, then read the history: the history is exactly that one exchange, with total 1. |
| `Traces.ChatWithoutAccount` | servidor.js:122-125 | A verified caller with no account can chat. The call creates a history under an email that has no account. |
| `Traces.RegisterResetsOrphanHistory` | servidor.js:54-59 | Registering an email that has a nonempty history but no account replaces that history with an empty one. |
| `Server.ChatServer.constructor` | servidor.js:20-21 | The process starts with both tables empty, which satisfies the invariant. |
| `Server.ChatServer.Register` | servidor.js:47-68 | The in-place register updates the fields and replies exactly as `Store.Register` describes, and keeps the invariant. |
| `Server.ChatServer.Login` | servidor.js:71-91 | The login handler reads the fields only. Its reply is the one `Store.Login` describes. |
| `Server.ChatServer.Chat` | servidor.js:94-145 | The middleware runs first, then the handler, which lazily creates the history and pushes onto it in place. The reply and the new fields are exactly what `Store.HandleChat` describes, and the invariant is kept. |
| `Server.ChatServer.History` | servidor.js:148-156 | The history handler reads the fields only. Its reply is the one `Store.HandleHistory` describes. |

## Left out

- JSON Web Token cryptography: the signing secret (`JWT_SECRET` and its default), the 7-day expiry and tamper detection are not modelled. The library is the `Signer` parameter, and the model assumes only `Sound` about it. Any property of `verify` on tokens the server did not issue is outside the model.
- Tokens from different calls are not distinguished beyond what `sign` makes of the email and the issue time. The model makes no claim that two tokens differ or coincide, only that each verifies to its email.
- Token expiry: `verify` takes no clock, so the model treats every issued token as valid forever. In the code a token expires 7 days after it is issued. `Auth.AuthenticateSigned`, `Store.LoginAfterRegister` and `Traces.RegisterChatHistory` therefore correspond to requests made within 7 days of the token's issue.
- The completion service call (model name, system prompt, `max_tokens`, `temperature`) is a network call. Its outcome is the `completion` input. A completion whose `content` is null is not distinguished from a text answer.
- Clock reads (`Date.now()`, `toISOString()`) are opaque inputs.
- Request fields that are not strings, such as numbers or a repeated query parameter arriving as an array, are not modelled. Every field is either absent or a string.
- JWT payload claims: `sign` takes the issue time, but `verify` neither reports it nor checks `exp`.
- Concurrent requests are not modelled. The handlers run one at a time, in the order given.
- Express routing, CORS, environment configuration, the health endpoint, the 404 catch-all, `app.listen` and error logging are process plumbing.
- The React frontend (src/App.js, src/pages/Chat.jsx, src/pages/Login.jsx) is UI state and `fetch` calls.
