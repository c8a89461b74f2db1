/** The backend's in-memory account and chat-history store, and its four
    handlers (register, login, chat, history), as functions from the store
    and one request to the new store and the reply. The class in
    `Server` runs the same handlers in place and is proved against these. */
module Store {
  import opened Wrappers
  import opened Http
  import opened Auth

  const CredentialsRequired := "Email and password required"
  const UserExists := "User already exists"
  const InvalidCredentials := "Invalid credentials"
  const MessageRequired := "Message required"
  const ProcessingFailed := "Failed to process message"
  const Registered := "User registered successfully"
  const LoggedIn := "Login successful"

  /** A registered account; the password is kept as given. */
  datatype User = User(email: string, password: string)

  /** One prompt/response exchange; `id` and `createdAt` are clock readings. */
  datatype Entry = Entry(id: int, userMessage: string, botResponse: string, createdAt: string)

  /** Body of a successful register or login: the token, the public user
      view (its email) and a message. */
  datatype Session = Session(token: string, email: string, message: string)

  /** Body of a successful chat call. */
  datatype ChatAnswer = ChatAnswer(botResponse: string, timestamp: string)

  /** Body of the history call. */
  datatype HistoryView = HistoryView(chats: seq<Entry>, total: nat)

  /** The inputs of one chat request besides the caller: the query's
      `message`, what the completion service answered (None when the call
      failed) and the clock readings taken while handling it. */
  datatype ChatCall = ChatCall(message: Option<string>, completion: Option<string>,
                               id: int, createdAt: string, timestamp: string)

  /** The two tables: email to account, email to chat history. */
  datatype Db = Db(users: map<string, User>, chats: map<string, seq<Entry>>)

  /** The store after a handler ran, and the handler's reply. */
  datatype Step<T> = Step(db: Db, reply: Reply<T>)

  const Empty := Db(map[], map[])

  /** What every handler keeps: an account is filed under its own email, and
      every account has a history. (A history need not have an account: a
      chat call for an unregistered but verified email creates one.) */
  ghost predicate Valid(db: Db) {
    && (forall e :: e in db.users ==> db.users[e].email == e)
    && db.users.Keys <= db.chats.Keys
  }

  /** The caller's history, empty when there is none. */
  function HistoryOf(chats: map<string, seq<Entry>>, email: string): seq<Entry> {
    if email in chats then chats[email] else []
  }

  /** The entry a successful chat call records. */
  function EntryOf(call: ChatCall): Entry
    requires Succeeds(call)
  {
    Entry(call.id, call.message.value, call.completion.value, call.createdAt)
  }

  predicate Succeeds(call: ChatCall) {
    Present(call.message) && call.completion.Some?
  }

  // ---------------------------------------------------------------- handlers

  function Register(db: Db, signer: Signer, email: Option<string>, password: Option<string>, now: int): Step<Session> {
    if !Present(email) || !Present(password) then Step(db, Fail(BadRequest, CredentialsRequired))
    else if email.value in db.users then Step(db, Fail(BadRequest, UserExists))
    else
      var e := email.value;
      Step(Db(db.users[e := User(e, password.value)], db.chats[e := []]),
           Ok(Session(signer.sign(e, now), e, Registered)))
  }

  function Login(db: Db, signer: Signer, email: Option<string>, password: Option<string>, now: int): Reply<Session> {
    if !Present(email) || !Present(password) then Fail(BadRequest, CredentialsRequired)
    else if email.value !in db.users || db.users[email.value].password != password.value then
      Fail(Unauthorized, InvalidCredentials)
    else Ok(Session(signer.sign(email.value, now), email.value, LoggedIn))
  }

  /** The chat handler once the middleware has verified the caller. */
  function ChatAs(db: Db, email: string, call: ChatCall): Step<ChatAnswer> {
    if !Present(call.message) then Step(db, Fail(BadRequest, MessageRequired))
    else if call.completion.None? then Step(db, Fail(InternalError, ProcessingFailed))
    else
      Step(Db(db.users, db.chats[email := HistoryOf(db.chats, email) + [EntryOf(call)]]),
           Ok(ChatAnswer(call.completion.value, call.timestamp)))
  }

  /** `GET /api/chat`: the middleware, then the handler. */
  function HandleChat(db: Db, signer: Signer, header: Option<string>, call: ChatCall): Step<ChatAnswer> {
    match Authenticate(signer, header)
    case Fail(status, error) => Step(db, Fail(status, error))
    case Ok(email) => ChatAs(db, email, call)
  }

  /** The history handler once the middleware has verified the caller. */
  function History(db: Db, email: string): HistoryView {
    var chats := HistoryOf(db.chats, email);
    HistoryView(chats, |chats|)
  }

  /** `GET /api/chats/history`: the middleware, then the handler. */
  function HandleHistory(db: Db, signer: Signer, header: Option<string>): Reply<HistoryView> {
    match Authenticate(signer, header)
    case Fail(status, error) => Fail(status, error)
    case Ok(email) => Ok(History(db, email))
  }

  // ------------------------------------------------- properties of one call

  /** Register fails, with 400, exactly when a field is missing or the email
      is taken, and then changes nothing; otherwise it files the account and
      an empty history under the email, touches no other key, and issues a
      token for the email. */
  lemma RegisterOutcome(db: Db, signer: Signer, email: Option<string>, password: Option<string>, now: int)
    ensures var s := Register(db, signer, email, password, now);
      && (!Present(email) || !Present(password) ==> s == Step(db, Fail(BadRequest, CredentialsRequired)))
      && (Present(email) && Present(password) && email.value in db.users ==>
            s == Step(db, Fail(BadRequest, UserExists)))
      && (s.reply.Ok? <==> Present(email) && Present(password) && email.value !in db.users)
      && (s.reply.Ok? ==>
            && s.reply.value == Session(signer.sign(email.value, now), email.value, Registered)
            && s.db.users.Keys == db.users.Keys + {email.value}
            && s.db.chats.Keys == db.chats.Keys + {email.value}
            && s.db.users[email.value] == User(email.value, password.value)
            && s.db.chats[email.value] == []
            && (forall k :: k in db.users ==> s.db.users[k] == db.users[k])
            && (forall k :: k in db.chats && k != email.value ==> s.db.chats[k] == db.chats[k]))
  {
  }

  lemma RegisterKeepsValid(db: Db, signer: Signer, email: Option<string>, password: Option<string>, now: int)
    requires Valid(db)
    ensures Valid(Register(db, signer, email, password, now).db)
  {
  }

  /** A second registration of an email fails with 400 whatever the
      password, and the first account and its history stay as they were. */
  lemma RegisterTwice(db: Db, signer: Signer, email: string, password: string, other: string, first: int, second: int)
    requires email != [] && password != [] && other != []
    requires Register(db, signer, Some(email), Some(password), first).reply.Ok?
    ensures var db1 := Register(db, signer, Some(email), Some(password), first).db;
      Register(db1, signer, Some(email), Some(other), second) == Step(db1, Fail(BadRequest, UserExists)) &&
      db1.users[email] == User(email, password) && db1.chats[email] == []
  {
  }

  /** Login succeeds exactly when both fields are there, the account exists
      and the password matches; it answers 400 for a missing field and 401
      for an unknown email or a wrong password (the same reply for both). */
  lemma LoginOutcome(db: Db, signer: Signer, email: Option<string>, password: Option<string>, now: int)
    ensures var r := Login(db, signer, email, password, now);
      && (r.Ok? <==> Present(email) && Present(password) && email.value in db.users &&
                     db.users[email.value].password == password.value)
      && (r.Ok? ==> r.value == Session(signer.sign(email.value, now), email.value, LoggedIn))
      && (!Present(email) || !Present(password) <==> r == Fail(BadRequest, CredentialsRequired))
      && (r.Fail? && Present(email) && Present(password) ==> r == Fail(Unauthorized, InvalidCredentials))
  {
  }

  /** Right after registering, logging in with the same password succeeds
      and with any other password fails with 401. The register token and
      the login token, issued at whatever times, both verify to the
      registered email. */
  lemma LoginAfterRegister(db: Db, signer: Signer, email: string, password: string, other: string,
                           registeredAt: int, loginAt: int)
    requires Sound(signer)
    requires email != [] && password != [] && other != [] && other != password
    requires Register(db, signer, Some(email), Some(password), registeredAt).reply.Ok?
    ensures var s := Register(db, signer, Some(email), Some(password), registeredAt);
      && signer.verify(s.reply.value.token) == Some(email)
      && Login(s.db, signer, Some(email), Some(password), loginAt).Ok?
      && signer.verify(Login(s.db, signer, Some(email), Some(password), loginAt).value.token) == Some(email)
      && Login(s.db, signer, Some(email), Some(other), loginAt) == Fail(Unauthorized, InvalidCredentials)
  {
  }

  /** A chat call without a message answers 400 and one whose completion
      failed answers 500, and neither records anything; a successful call
      appends exactly one entry, pairing the message with the completion, at
      the end of the caller's history (creating it if missing) and changes
      nothing else. */
  lemma ChatOutcome(db: Db, email: string, call: ChatCall)
    ensures var s := ChatAs(db, email, call);
      && (!Present(call.message) ==> s == Step(db, Fail(BadRequest, MessageRequired)))
      && (Present(call.message) && call.completion.None? ==>
            s == Step(db, Fail(InternalError, ProcessingFailed)))
      && (s.reply.Ok? <==> Succeeds(call))
      && (s.reply.Ok? ==>
            && s.reply.value == ChatAnswer(call.completion.value, call.timestamp)
            && s.db.users == db.users
            && s.db.chats.Keys == db.chats.Keys + {email}
            && |s.db.chats[email]| == |HistoryOf(db.chats, email)| + 1
            && s.db.chats[email][..|HistoryOf(db.chats, email)|] == HistoryOf(db.chats, email)
            && s.db.chats[email][|HistoryOf(db.chats, email)|] ==
                 Entry(call.id, call.message.value, call.completion.value, call.createdAt)
            && (forall k :: k in db.chats && k != email ==> s.db.chats[k] == db.chats[k]))
  {
  }

  lemma ChatKeepsValid(db: Db, email: string, call: ChatCall)
    requires Valid(db)
    ensures Valid(ChatAs(db, email, call).db)
  {
  }

  /** A chat request without a usable token is answered by the middleware
      (401 without a token, 403 with one that does not verify) and never
      reaches the store. */
  lemma HandleChatUnauthenticated(db: Db, signer: Signer, header: Option<string>, call: ChatCall)
    requires Authenticate(signer, header).Fail?
    ensures var s := HandleChat(db, signer, header, call);
      s.db == db &&
      (s.reply == Fail(Unauthorized, NoTokenProvided) || s.reply == Fail(Forbidden, InvalidToken))
  {
  }

  /** The history call answers the stored history (empty when there is
      none) and a total equal to its length. */
  lemma HistoryOutcome(db: Db, email: string)
    ensures History(db, email).total == |History(db, email).chats|
    ensures email in db.chats ==> History(db, email).chats == db.chats[email]
    ensures email !in db.chats ==> History(db, email) == HistoryView([], 0)
  {
  }

  /** A freshly registered account has an empty history. */
  lemma HistoryAfterRegister(db: Db, signer: Signer, email: string, password: string, now: int)
    requires Register(db, signer, Some(email), Some(password), now).reply.Ok?
    ensures History(Register(db, signer, Some(email), Some(password), now).db, email) == HistoryView([], 0)
  {
  }
}
