/** Bearer-token handling: extracting the token from the `Authorization`
    header and turning it into the caller's email. */
module Auth {
  import opened Wrappers
  import opened Http

  const NoTokenProvided := "No token provided"
  const InvalidToken := "Invalid token"

  /** The token library as the backend sees it: `sign` issues a token that
      binds an email and carries the clock reading it was issued at (its
      `iat`, from which the expiry follows), `verify` yields the bound email
      or fails. */
  datatype Signer = Signer(sign: (string, int) -> string, verify: string -> Option<string>)

  /** What the backend relies on from the token library: a token it issued
      is a nonempty run of non-space characters (so it survives the trip
      through a header) and verifies to the email it was issued for,
      whenever it was issued. */
  ghost predicate Sound(signer: Signer) {
    forall email: string, issuedAt: int ::
      signer.sign(email, issuedAt) != [] && ' ' !in signer.sign(email, issuedAt) &&
      signer.verify(signer.sign(email, issuedAt)) == Some(email)
  }

  /** Fields of `s` separated by single spaces, as JavaScript's
      `s.split(' ')` gives them: consecutive, leading or trailing spaces
      produce empty fields, and there is always at least one field. */
  function Split(s: string): (fields: seq<string>)
    ensures |fields| >= 1
    ensures forall i :: 0 <= i < |fields| ==> ' ' !in fields[i]
    ensures Join(fields) == s
  {
    if s == [] then [[]]
    else
      var rest := Split(s[1..]);
      if s[0] == ' ' then [[]] + rest
      else [[s[0]] + rest[0]] + rest[1..]
  }

  /** The fields glued back together with one space between neighbours. */
  function Join(fields: seq<string>): string {
    if |fields| == 0 then []
    else if |fields| == 1 then fields[0]
    else fields[0] + [' '] + Join(fields[1..])
  }

  lemma {:induction false} SplitWord(w: string)
    requires ' ' !in w
    ensures Split(w) == [w]
  {
    if w != [] {
      SplitWord(w[1..]);
    }
  }

  lemma {:induction false} SplitAfterWord(w: string, tail: string)
    requires ' ' !in w
    ensures Split(w + [' '] + tail) == [w] + Split(tail)
  {
    if w == [] {
      assert (w + [' '] + tail)[1..] == tail;
    } else {
      assert (w + [' '] + tail)[1..] == w[1..] + [' '] + tail;
      SplitAfterWord(w[1..], tail);
      assert [w[0]] + w[1..] == w;
    }
  }

  /** Splitting undoes joining whenever no field holds a space. */
  lemma {:induction false} SplitJoin(fields: seq<string>)
    requires |fields| >= 1
    requires forall i :: 0 <= i < |fields| ==> ' ' !in fields[i]
    ensures Split(Join(fields)) == fields
  {
    if |fields| == 1 {
      SplitWord(fields[0]);
    } else {
      SplitJoin(fields[1..]);
      SplitAfterWord(fields[0], Join(fields[1..]));
    }
  }

  /** The second space-separated field of the header, when the header is
      there and that field exists and is not empty. */
  function BearerToken(header: Option<string>): (token: Option<string>)
    ensures token.Some? ==> header.Some? && token.value != [] && ' ' !in token.value
  {
    if header.None? then None
    else
      var fields := Split(header.value);
      if |fields| < 2 || fields[1] == [] then None else Some(fields[1])
  }

  /** `header` is a scheme word, one space, a nonempty token without
      spaces, and then either nothing or more text that starts with a space. */
  predicate CarriesToken(header: string, scheme: string, token: string, tail: string) {
    && ' ' !in scheme && ' ' !in token && token != []
    && (tail == [] || tail[0] == ' ')
    && header == scheme + [' '] + token + tail
  }

  /** A header `<scheme> <token>`, possibly followed by more space-separated
      text, yields exactly the token; the scheme word itself is not checked. */
  lemma BearerTokenOf(scheme: string, token: string, tail: string)
    requires CarriesToken(scheme + [' '] + token + tail, scheme, token, tail)
    ensures BearerToken(Some(scheme + [' '] + token + tail)) == Some(token)
  {
    assert scheme + [' '] + token + tail == scheme + [' '] + (token + tail);
    SplitAfterWord(scheme, token + tail);
    if tail == [] {
      assert token + tail == token;
      SplitWord(token);
    } else {
      assert token + tail == token + [' '] + tail[1..];
      SplitAfterWord(token, tail[1..]);
    }
  }

  /** Conversely, every token found in a header is found that way: the
      header is a scheme word, a space, the token and a space-led tail. */
  lemma BearerTokenShape(header: string)
    requires BearerToken(Some(header)).Some?
    ensures exists scheme, tail :: CarriesToken(header, scheme, BearerToken(Some(header)).value, tail)
  {
    var fields := Split(header);
    var tail := if |fields| == 2 then [] else [' '] + Join(fields[2..]);
    assert fields[1..][1..] == fields[2..];
    assert Join(fields[1..]) == fields[1] + tail;
    assert header == fields[0] + [' '] + fields[1] + tail;
    assert CarriesToken(header, fields[0], fields[1], tail);
  }

  /** A header with no space in it (a bare scheme, or a bare token sent
      without one), one ending right after the scheme, and one whose scheme
      is followed by two spaces carry no token. */
  lemma NoBearerToken(scheme: string, rest: string)
    requires ' ' !in scheme
    ensures BearerToken(Some(scheme)) == None
    ensures BearerToken(Some(scheme + [' '])) == None
    ensures BearerToken(Some(scheme + [' '] + [' '] + rest)) == None
  {
    SplitWord(scheme);
    SplitAfterWord(scheme, []);
    assert scheme + [' '] + [] == scheme + [' '];
    SplitAfterWord(scheme, [' '] + rest);
    assert scheme + [' '] + [' '] + rest == scheme + [' '] + ([' '] + rest);
    assert ([' '] + rest)[1..] == rest;
  }

  /** The `authenticateToken` middleware: the caller's email, or 401 when no
      token was sent and 403 when the token does not verify. */
  function Authenticate(signer: Signer, header: Option<string>): (r: Reply<string>)
    ensures BearerToken(header).None? <==> r == Fail(Unauthorized, NoTokenProvided)
    ensures r.Ok? <==>
      BearerToken(header).Some? && signer.verify(BearerToken(header).value).Some?
    ensures r.Ok? ==> signer.verify(BearerToken(header).value) == Some(r.value)
    ensures r.Fail? ==> r == Fail(Unauthorized, NoTokenProvided) || r == Fail(Forbidden, InvalidToken)
  {
    match BearerToken(header)
    case None => Fail(Unauthorized, NoTokenProvided)
    case Some(token) =>
      match signer.verify(token)
      case None => Fail(Forbidden, InvalidToken)
      case Some(email) => Ok(email)
  }

  /** A token issued for `email`, sent after any scheme word, authenticates
      the caller as `email`. */
  lemma AuthenticateSigned(signer: Signer, scheme: string, email: string, issuedAt: int)
    requires Sound(signer)
    requires ' ' !in scheme
    ensures Authenticate(signer, Some(scheme + [' '] + signer.sign(email, issuedAt))) == Ok(email)
  {
    var token := signer.sign(email, issuedAt);
    assert scheme + [' '] + token + [] == scheme + [' '] + token;
    BearerTokenOf(scheme, token, []);
  }
}
