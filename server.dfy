/** The backend process: the two module-level tables as fields of one
    object, updated in place by the register and chat handlers and only
    read by the login and history handlers. Each handler is proved to do
    what the corresponding function of `Store` describes. */
module Server {
  import opened Wrappers
  import opened Http
  import opened Auth
  import opened Store

  class ChatServer {
    /** The token library the handlers sign and verify with. */
    const signer: Signer
    /** Email to account. */
    var users: map<string, User>
    /** Email to chat history, oldest entry first. */
    var chats: map<string, seq<Entry>>

    ghost function State(): Db
      reads this
    {
      Db(users, chats)
    }

    constructor (signer: Signer)
      ensures this.signer == signer
      ensures State() == Empty && Valid(State())
    {
      this.signer := signer;
      users := map[];
      chats := map[];
    }

    /** `POST /api/auth/register`; `now` is the clock reading the token
        is issued at. */
    method Register(email: Option<string>, password: Option<string>, now: int) returns (r: Reply<Session>)
      requires Valid(State())
      modifies this
      ensures Valid(State())
      ensures Step(State(), r) == Store.Register(old(State()), signer, email, password, now)
    {
      if !Present(email) || !Present(password) {
        return Fail(BadRequest, CredentialsRequired);
      }
      var e := email.value;
      if e in users {
        return Fail(BadRequest, UserExists);
      }
      users := users[e := User(e, password.value)];
      chats := chats[e := []];
      var token := signer.sign(e, now);
      r := Ok(Session(token, e, Registered));
    }

    /** `POST /api/auth/login`; reads the tables only. */
    method Login(email: Option<string>, password: Option<string>, now: int) returns (r: Reply<Session>)
      ensures r == Store.Login(State(), signer, email, password, now)
    {
      if !Present(email) || !Present(password) {
        return Fail(BadRequest, CredentialsRequired);
      }
      var e := email.value;
      if e !in users || users[e].password != password.value {
        return Fail(Unauthorized, InvalidCredentials);
      }
      var token := signer.sign(e, now);
      r := Ok(Session(token, e, LoggedIn));
    }

    /** `GET /api/chat`: the middleware, the message check, the completion
        (given as `call.completion`), then the lazily created history and
        the push onto it. */
    method Chat(header: Option<string>, call: ChatCall) returns (r: Reply<ChatAnswer>)
      requires Valid(State())
      modifies this
      ensures Valid(State())
      ensures Step(State(), r) == HandleChat(old(State()), signer, header, call)
    {
      var caller := Authenticate(signer, header);
      if caller.Fail? {
        return Fail(caller.status, caller.error);
      }
      var email := caller.value;
      if !Present(call.message) {
        return Fail(BadRequest, MessageRequired);
      }
      if call.completion.None? {
        return Fail(InternalError, ProcessingFailed);
      }
      var botResponse := call.completion.value;
      if email !in chats {
        chats := chats[email := []];
      }
      var entry := Entry(call.id, call.message.value, botResponse, call.createdAt);
      chats := chats[email := chats[email] + [entry]];
      r := Ok(ChatAnswer(botResponse, call.timestamp));
    }

    /** `GET /api/chats/history`; reads the tables only. */
    method History(header: Option<string>) returns (r: Reply<HistoryView>)
      ensures r == HandleHistory(State(), signer, header)
    {
      var caller := Authenticate(signer, header);
      if caller.Fail? {
        return Fail(caller.status, caller.error);
      }
      var userChats := if caller.value in chats then chats[caller.value] else [];
      r := Ok(HistoryView(userChats, |userChats|));
    }
  }
}
