/**
 * The Basic-auth middleware in front of the merchant API
 * (pkg/api/middleware/basicauth.go): it reads the Authorization header,
 * takes the credentials out of it, asks the authentication service whether
 * they are valid and either stops the request or lets it through with the
 * user name stored under AuthUserKey.
 *
 * The base64 decoding of section 4 of RFC 4648 is a parameter: a total
 * function into Option, None where Go's decoder reports an error. The
 * authentication service is a parameter too: the reply it gives to a pair of
 * user name and password.
 */
module BasicAuth {
  import opened Wrappers
  import opened Text

  /** The context key under which the accepted user name is stored. */
  const AuthUserKey := "user"

  const BasicPrefix := "Basic "
  const AuthorizationRequired := "Basic realm=\"Authorization Required\""
  const TokenNotFound := "could not find BasicAuth Authorization token"
  const TokenUndecodable := "could not decode BasicAuth Authorization token"
  const InternalError := "internal error"
  const CredentialsNotValid := "provided credentials are not valid"

  const StatusUnauthorized := 401
  const StatusForbidden := 403
  const StatusInternalServerError := 500

  // ---------------------------------------------------------------------------
  // CheckCredentials: the reply of the authentication service turned into a
  // verdict. Building and sending the request is left to the reply.

  /** What reading and unmarshalling the reply body gives. */
  datatype Body = Unreadable | Malformed | Valid(valid: bool)

  /** The outcome of POSTing the credentials: no response at all, or a status and a body. */
  datatype AuthServiceReply = RequestFailed | Reply(statusCode: int, body: Body)

  /** Go's pair (valid, err): Failure is a non-nil error, with valid false. */
  function CheckCredentials(reply: AuthServiceReply): (r: Result<bool, string>)
    ensures r == Success(true) <==> reply == Reply(200, Valid(true))
    ensures reply.Reply? && reply.statusCode != 200 ==> r == Success(false)
    ensures r.Failure? <==> reply.RequestFailed? || (reply.statusCode == 200 && !reply.body.Valid?)
  {
    if reply.RequestFailed? then Failure("request to the authentication service failed")
    else if reply.statusCode != 200 then Success(false)
    else
      match reply.body
      case Unreadable => Failure("reading the response body failed")
      case Malformed => Failure("unmarshalling the response body failed")
      case Valid(valid) => if !valid then Success(false) else Success(true)
  }

  // ---------------------------------------------------------------------------
  // The header half of GinBasicAuth.

  /** How far the Authorization header gets before the service is asked. */
  datatype HeaderParse =
    | Missing
    | NoBasicToken
    | Undecodable
    | Credentials(user: string, password: string)

  /** The header with the "Basic " scheme trimmed as strings.TrimPrefix does. */
  function Token(header: string): string
  {
    TrimPrefix(header, BasicPrefix)
  }

  /**
   * The header checks in their order: present, carrying the "Basic " scheme
   * (case-sensitive), decodable, and splitting on ':' into exactly two parts.
   */
  function ParseHeader(header: string, decode: string -> Option<string>): (r: HeaderParse)
    ensures r == Missing <==> header == ""
    ensures r == NoBasicToken <==> header != "" && !HasPrefix(header, BasicPrefix)
    ensures r.Credentials? <==>
      HasPrefix(header, BasicPrefix) && decode(Token(header)).Some? && Count(decode(Token(header)).value, ':') == 1
    ensures r.Credentials? ==>
      decode(Token(header)) == Some(r.user + ":" + r.password) && ':' !in r.user && ':' !in r.password
  {
    if header == "" then Missing
    else
      var token := Token(header);
      TrimPrefixUnchanged(header, BasicPrefix);
      if token == header then NoBasicToken
      else
        var decoded := decode(token);
        if decoded.None? then Undecodable
        else
          var credentials := Split(decoded.value, ':');
          if |credentials| != 2 then Undecodable
          else
            SplitInTwo(decoded.value, ':');
            Credentials(credentials[0], credentials[1])
  }

  // ---------------------------------------------------------------------------
  // GinBasicAuth.

  /** What the middleware does with the request. */
  datatype Outcome =
    | Challenge(status: int, wwwAuthenticate: string)   // aborted with no body
    | Refuse(status: int, message: string)              // aborted with a JSON message
    | Accept(user: string)                              // user set under AuthUserKey, request goes on

  /** The middleware's decision for one request. */
  function GinBasicAuth(header: string, decode: string -> Option<string>,
                        authService: (string, string) -> AuthServiceReply): (r: Outcome)
    ensures r == Challenge(StatusUnauthorized, AuthorizationRequired) <==> header == ""
    ensures header != "" && !HasPrefix(header, BasicPrefix) ==> r == Refuse(StatusForbidden, TokenNotFound)
    ensures HasPrefix(header, BasicPrefix) && decode(Token(header)).None? ==> r == Refuse(StatusForbidden, TokenUndecodable)
    ensures HasPrefix(header, BasicPrefix) && decode(Token(header)).Some? && Count(decode(Token(header)).value, ':') != 1
            ==> r == Refuse(StatusForbidden, TokenUndecodable)
    ensures r.Accept? <==>
      var p := ParseHeader(header, decode);
      p.Credentials? && CheckCredentials(authService(p.user, p.password)) == Success(true)
    ensures r.Accept? ==>
      exists password :: decode(Token(header)) == Some(r.user + ":" + password) && ':' !in r.user && ':' !in password
    ensures var p := ParseHeader(header, decode);
      p.Credentials? && CheckCredentials(authService(p.user, p.password)) == Success(false)
      ==> r == Refuse(StatusForbidden, CredentialsNotValid)
    ensures r == Refuse(StatusInternalServerError, InternalError) <==>
      var p := ParseHeader(header, decode);
      p.Credentials? && CheckCredentials(authService(p.user, p.password)).Failure?
  {
    match ParseHeader(header, decode)
    case Missing => Challenge(StatusUnauthorized, AuthorizationRequired)
    case NoBasicToken => Refuse(StatusForbidden, TokenNotFound)
    case Undecodable => Refuse(StatusForbidden, TokenUndecodable)
    case Credentials(user, password) =>
      match CheckCredentials(authService(user, password))
      case Failure(_) => Refuse(StatusInternalServerError, InternalError)
      case Success(valid) =>
        if !valid then Refuse(StatusForbidden, CredentialsNotValid) else Accept(user)
  }

  /** The authentication service is consulted only once the header has yielded credentials. */
  lemma ServiceAskedOnlyWithCredentials(header: string, decode: string -> Option<string>,
                                        service1: (string, string) -> AuthServiceReply,
                                        service2: (string, string) -> AuthServiceReply)
    requires !ParseHeader(header, decode).Credentials?
    ensures GinBasicAuth(header, decode, service1) == GinBasicAuth(header, decode, service2)
    ensures GinBasicAuth(header, decode, service1).Challenge? || GinBasicAuth(header, decode, service1).Refuse?
  {
  }

  /** Credentials without ':' in either part, encoded in a Basic header, are read back as they were. */
  lemma CredentialsRoundTrip(user: string, password: string, token: string, decode: string -> Option<string>)
    requires ':' !in user && ':' !in password
    requires decode(token) == Some(user + ":" + password)
    ensures ParseHeader(BasicPrefix + token, decode) == Credentials(user, password)
  {
    var header := BasicPrefix + token;
    assert header[..|BasicPrefix|] == BasicPrefix;
    assert Token(header) == token;
    SplitAround(user, password, ':');
  }

  /** A password that contains ':' makes the decoded text split into three or more parts. */
  lemma ColonInPasswordRefused(user: string, password: string, token: string, decode: string -> Option<string>,
                               authService: (string, string) -> AuthServiceReply)
    requires ':' in password
    requires decode(token) == Some(user + ":" + password)
    ensures GinBasicAuth(BasicPrefix + token, decode, authService) == Refuse(StatusForbidden, TokenUndecodable)
  {
    var header := BasicPrefix + token;
    assert header[..|BasicPrefix|] == BasicPrefix;
    assert Token(header) == token;
    CountOfConcat(user + ":", password, ':');
    CountOfConcat(user, ":", ':');
    CountPresent(password, ':');
  }

  /** The scheme name is matched case-sensitively: "basic " is not "Basic ". */
  lemma LowercaseSchemeRefused(token: string, decode: string -> Option<string>,
                               authService: (string, string) -> AuthServiceReply)
    ensures GinBasicAuth("basic " + token, decode, authService) == Refuse(StatusForbidden, TokenNotFound)
  {
    var header := "basic " + token;
    assert header[0] == 'b';
  }

  /** An accepted request carries the user of the header's credentials, with whatever password the service accepted. */
  lemma AcceptedUserIsHeaderUser(user: string, password: string, token: string, decode: string -> Option<string>,
                                 authService: (string, string) -> AuthServiceReply)
    requires ':' !in user && ':' !in password
    requires decode(token) == Some(user + ":" + password)
    requires authService(user, password) == Reply(200, Valid(true))
    ensures GinBasicAuth(BasicPrefix + token, decode, authService) == Accept(user)
  {
    CredentialsRoundTrip(user, password, token, decode);
  }

  // ---------------------------------------------------------------------------
  // Facts about strings.Split and the occurrence count it rests on.

  lemma {:induction false} CountOfConcat(a: string, b: string, c: char)
    ensures Count(a + b, c) == Count(a, c) + Count(b, c)
  {
    if a == [] {
      assert a + b == b;
    } else {
      assert (a + b)[1..] == a[1..] + b;
      CountOfConcat(a[1..], b, c);
    }
  }

  lemma {:induction false} CountPresent(s: string, c: char)
    requires c in s
    ensures Count(s, c) >= 1
  {
    if s[0] != c {
      assert c in s[1..];
      CountPresent(s[1..], c);
    }
  }

  /** Two separator-free texts joined by one separator split back into the two. */
  lemma {:induction false} SplitAround(a: string, b: string, sep: char)
    requires sep !in a && sep !in b
    ensures Split(a + [sep] + b, sep) == [a, b]
  {
    if a == [] {
      assert a + [sep] + b == [sep] + b;
      assert ([sep] + b)[1..] == b;
      SplitNoSeparator(b, sep);
    } else {
      assert (a + [sep] + b)[1..] == a[1..] + [sep] + b;
      assert sep !in a[1..];
      SplitAround(a[1..], b, sep);
      assert [a[0]] + a[1..] == a;
    }
  }
}
