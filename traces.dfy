/** Properties of sequences of requests against the store: histories grow
    in call order, accounts are never changed, and the store invariant
    holds throughout. */
module Traces {
  import opened Wrappers
  import opened Http
  import opened Auth
  import opened Store

  /** The store after `calls` were made, in order, by one verified caller. */
  function ChatsAs(db: Db, email: string, calls: seq<ChatCall>): Db
    decreases |calls|
  {
    if calls == [] then db
    else ChatsAs(ChatAs(db, email, calls[0]).db, email, calls[1..])
  }

  /** The entries the successful calls among `calls` record, in call order. */
  function Recorded(calls: seq<ChatCall>): seq<Entry> {
    if calls == [] then []
    else (if Succeeds(calls[0]) then [EntryOf(calls[0])] else []) + Recorded(calls[1..])
  }

  /** A caller's history after a run of chat calls is the history before it
      followed by the entries of the successful calls, in call order; failed
      calls add nothing and no other caller's history changes. */
  lemma {:induction false} ChatsAppendInOrder(db: Db, email: string, calls: seq<ChatCall>)
    ensures HistoryOf(ChatsAs(db, email, calls).chats, email) == HistoryOf(db.chats, email) + Recorded(calls)
    ensures ChatsAs(db, email, calls).users == db.users
    ensures forall k :: k != email ==> HistoryOf(ChatsAs(db, email, calls).chats, k) == HistoryOf(db.chats, k)
    decreases |calls|
  {
    if calls != [] {
      var db1 := ChatAs(db, email, calls[0]).db;
      ChatOutcome(db, email, calls[0]);
      ChatsAppendInOrder(db1, email, calls[1..]);
      if Succeeds(calls[0]) {
        assert HistoryOf(db1.chats, email) == HistoryOf(db.chats, email) + [EntryOf(calls[0])];
        assert HistoryOf(db.chats, email) + [EntryOf(calls[0])] + Recorded(calls[1..])
            == HistoryOf(db.chats, email) + ([EntryOf(calls[0])] + Recorded(calls[1..]));
      } else {
        assert Recorded(calls) == Recorded(calls[1..]);
      }
      forall k | k != email
        ensures HistoryOf(ChatsAs(db, email, calls).chats, k) == HistoryOf(db.chats, k)
      {
        assert HistoryOf(db1.chats, k) == HistoryOf(db.chats, k);
      }
    }
  }

  lemma {:induction false} RecordedAll(calls: seq<ChatCall>)
    requires forall i :: 0 <= i < |calls| ==> Succeeds(calls[i])
    ensures |Recorded(calls)| == |calls|
    ensures forall i :: 0 <= i < |calls| ==> Recorded(calls)[i] == EntryOf(calls[i])
    decreases |calls|
  {
    if calls != [] {
      RecordedAll(calls[1..]);
    }
  }

  /** After N successful chat calls by a caller whose history was empty,
      the history call answers exactly those N entries in call order, each
      pairing the call's message with its completion, and a total of N. */
  lemma NChatsFromEmpty(db: Db, email: string, calls: seq<ChatCall>)
    requires HistoryOf(db.chats, email) == []
    requires forall i :: 0 <= i < |calls| ==> Succeeds(calls[i])
    ensures var h := History(ChatsAs(db, email, calls), email);
      && h.total == |calls| == |h.chats|
      && forall i :: 0 <= i < |calls| ==>
           h.chats[i] == EntryOf(calls[i])
  {
    ChatsAppendInOrder(db, email, calls);
    RecordedAll(calls);
    assert HistoryOf(ChatsAs(db, email, calls).chats, email) == Recorded(calls);
  }

  // ------------------------------------------------------ mixed request runs

  datatype Request =
    | RegisterRequest(email: Option<string>, password: Option<string>, now: int)
    | LoginRequest(email: Option<string>, password: Option<string>, now: int)
    | ChatRequest(header: Option<string>, call: ChatCall)
    | HistoryRequest(header: Option<string>)

  /** The store after one request; login and history only read it. */
  function Apply(db: Db, signer: Signer, request: Request): Db {
    match request
    case RegisterRequest(email, password, now) => Register(db, signer, email, password, now).db
    case LoginRequest(_, _, _) => db
    case ChatRequest(header, call) => HandleChat(db, signer, header, call).db
    case HistoryRequest(_) => db
  }

  /** The store after the requests, handled one at a time in order. */
  function Run(db: Db, signer: Signer, requests: seq<Request>): Db
    decreases |requests|
  {
    if requests == [] then db
    else Run(Apply(db, signer, requests[0]), signer, requests[1..])
  }

  /** One request keeps the invariant, never changes or removes an account,
      and only appends to the history of a registered account. */
  lemma ApplyPreserves(db: Db, signer: Signer, request: Request)
    requires Valid(db)
    ensures var db1 := Apply(db, signer, request);
      && Valid(db1)
      && (forall e :: e in db.users ==> e in db1.users && db1.users[e] == db.users[e])
      && (forall e :: e in db.users ==> db.chats[e] <= db1.chats[e])
  {
  }

  /** Over any run of requests the invariant holds, accounts are never
      changed or deleted, and a registered account's history only grows at
      its end. */
  lemma {:induction false} RunPreserves(db: Db, signer: Signer, requests: seq<Request>)
    requires Valid(db)
    ensures var end := Run(db, signer, requests);
      && Valid(end)
      && (forall e :: e in db.users ==> e in end.users && end.users[e] == db.users[e])
      && (forall e :: e in db.users ==> db.chats[e] <= end.chats[e])
    decreases |requests|
  {
    if requests != [] {
      var db1 := Apply(db, signer, requests[0]);
      ApplyPreserves(db, signer, requests[0]);
      RunPreserves(db1, signer, requests[1..]);
      var end := Run(db, signer, requests);
      forall e | e in db.users
        ensures db.chats[e] <= end.chats[e]
      {
        assert db.chats[e] <= db1.chats[e] <= end.chats[e];
      }
    }
  }

  // ------------------------------------------------------------ scenarios

  /** Register, one chat with the token issued, then the history call:
      the history holds exactly that exchange. */
  lemma RegisterChatHistory(signer: Signer, email: string, password: string, now: int, call: ChatCall)
    requires Sound(signer)
    requires email != [] && password != [] && Succeeds(call)
    ensures var s := Register(Empty, signer, Some(email), Some(password), now);
      && s.reply.Ok?
      && var header := Some("Bearer" + [' '] + s.reply.value.token);
         var c := HandleChat(s.db, signer, header, call);
         && c.reply == Ok(ChatAnswer(call.completion.value, call.timestamp))
         && HandleHistory(c.db, signer, header) ==
              Ok(HistoryView([Entry(call.id, call.message.value, call.completion.value, call.createdAt)], 1))
  {
    var s := Register(Empty, signer, Some(email), Some(password), now);
    var header := Some("Bearer" + [' '] + s.reply.value.token);
    AuthenticateSigned(signer, "Bearer", email, now);
    assert Authenticate(signer, header) == Ok(email);
    var c := HandleChat(s.db, signer, header, call);
    assert c == ChatAs(s.db, email, call);
    assert c.db.chats[email] == [EntryOf(call)];
  }

  /** A chat call whose token verifies to an email with no account still
      succeeds and files a history under that email. */
  lemma ChatWithoutAccount(db: Db, email: string, call: ChatCall)
    requires email !in db.users && Succeeds(call)
    ensures var s := ChatAs(db, email, call);
      s.reply.Ok? && email !in s.db.users && email in s.db.chats
  {
  }

  /** Registering an email that has a history but no account replaces that
      history with an empty one. */
  lemma RegisterResetsOrphanHistory(db: Db, signer: Signer, email: string, password: string, now: int)
    requires email != [] && password != []
    requires email !in db.users && email in db.chats && db.chats[email] != []
    ensures var s := Register(db, signer, Some(email), Some(password), now);
      s.reply.Ok? && s.db.chats[email] == [] != db.chats[email]
  {
  }
}
