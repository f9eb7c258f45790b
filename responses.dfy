/**
 * The two authentication requests and the classification of the server's
 * reply that `signUp` and `signIn` share (AuthContext.tsx, lines 51-116).
 * The reply is an input record: the transport that produces it is not modelled.
 */
module Responses {
  import opened Wrappers
  import opened UserJson

  /** Which of the two authentication operations is running. */
  datatype Operation = SignUp | SignIn

  /** A POST request with a JSON body, as a list of field names and values. */
  datatype Request = Request(path: string, body: seq<(string, string)>)

  /**
   * What the session manager reads of the server's reply: the `Content-Type`
   * header (`None` when absent), `response.ok`, and the JSON body's fields.
   */
  datatype Response = Response(
    contentType: Option<string>,
    ok: bool,
    detail: Option<string>,
    userId: string,
    email: string,
    name: string,
    accessToken: string)

  /**
   * Why a sign-up or sign-in attempt was refused. The kind names the throw
   * site only: the source throws a plain `Error` on both paths, so its caller
   * sees the message alone.
   */
  datatype FailureKind =
    | NotJson   // the content-type guard (lines 60-64, 95-99)
    | Rejected  // the status check (lines 68-70, 103-105)

  /** The `Error` thrown to the caller: its kind and its `message`. */
  datatype Failure = Failure(kind: FailureKind, message: string)

  /** The verdict on a reply: a new session, or the error to throw. */
  datatype Verdict = Established(user: User, token: string) | Refused(failure: Failure)

  const JsonMediaType: string := "application/json"
  const NotJsonMessage: string := "Backend JSON response nahi de raha"
  const SignUpPath: string := "/api/auth/signup"
  const SignInPath: string := "/api/auth/login"

  /** The value of field `key` in a request body, if the body has one. */
  function Field(body: seq<(string, string)>, key: string): (r: Option<string>)
    ensures r.Some? ==> exists i :: 0 <= i < |body| && body[i] == (key, r.value)
    ensures r.None? ==> forall i :: 0 <= i < |body| ==> body[i].0 != key
  {
    if body == [] then None
    else if body[0].0 == key then Some(body[0].1)
    else
      var r := Field(body[1..], key);
      assert forall i :: 1 <= i < |body| ==> body[i] == body[1..][i - 1];
      r
  }

  /** The request `signUp` sends (lines 52-56): name, email and password, unchanged. */
  function SignUpRequest(name: string, email: string, password: string): (r: Request)
    ensures r.path == SignUpPath
    ensures Field(r.body, "name") == Some(name)
    ensures Field(r.body, "email") == Some(email)
    ensures Field(r.body, "password") == Some(password)
  {
    var body := [("name", name), ("email", email), ("password", password)];
    assert body[1..] == [("email", email), ("password", password)];
    assert body[1..][1..] == [("password", password)];
    assert "name" != "password" && "email" != "password" && "name" != "email";
    assert Field(body[1..][1..], "password") == Some(password);
    assert Field(body[1..], "password") == Some(password);
    Request(SignUpPath, body)
  }

  /** The request `signIn` sends (lines 87-91): email and password, unchanged, and no name. */
  function SignInRequest(email: string, password: string): (r: Request)
    ensures r.path == SignInPath
    ensures Field(r.body, "email") == Some(email)
    ensures Field(r.body, "password") == Some(password)
    ensures Field(r.body, "name") == None
  {
    var body := [("email", email), ("password", password)];
    assert body[1..] == [("password", password)];
    assert "email" != "password" && "name" != "email" && "name" != "password";
    Request(SignInPath, body)
  }

  /** The two operations post to different endpoints. */
  lemma EndpointsDiffer(name: string, email: string, password: string)
    ensures SignUpRequest(name, email, password).path != SignInRequest(email, password).path
  {
    assert SignUpPath[10] != SignInPath[10];
  }

  /** `sub` occurs in `s` at offset `i`. */
  ghost predicate OccursAt(s: string, sub: string, i: int)
  {
    0 <= i && i + |sub| <= |s| && s[i..i + |sub|] == sub
  }

  /** When `sub` is not a prefix of `s`, its occurrences in `s` are those in `s[1..]`, shifted by one. */
  lemma OccurrenceInTail(s: string, sub: string)
    requires |sub| <= |s| && !(sub <= s)
    ensures (exists i :: OccursAt(s, sub, i)) <==> (exists i :: OccursAt(s[1..], sub, i))
  {
    if exists i :: OccursAt(s[1..], sub, i) {
      var i :| OccursAt(s[1..], sub, i);
      assert s[i + 1..i + 1 + |sub|] == s[1..][i..i + |sub|];
      assert OccursAt(s, sub, i + 1);
    }
    if exists i :: OccursAt(s, sub, i) {
      var i :| OccursAt(s, sub, i);
      assert i != 0;
      assert s[1..][i - 1..i - 1 + |sub|] == s[i..i + |sub|];
      assert OccursAt(s[1..], sub, i - 1);
    }
  }

  /** `String.prototype.includes`: true exactly when `sub` occurs in `s` at some offset. */
  function Includes(s: string, sub: string): (b: bool)
    ensures b <==> exists i :: OccursAt(s, sub, i)
    decreases |s|
  {
    if |s| < |sub| then false
    else if sub <= s then
      assert OccursAt(s, sub, 0);
      true
    else
      OccurrenceInTail(s, sub);
      Includes(s[1..], sub)
  }

  /** `contentType?.includes('application/json')`: an absent header fails the guard. */
  predicate IsJsonContentType(contentType: Option<string>)
    ensures IsJsonContentType(contentType) <==>
      contentType.Some? && exists i :: OccursAt(contentType.value, JsonMediaType, i)
  {
    contentType.Some? && Includes(contentType.value, JsonMediaType)
  }

  /** JavaScript truthiness of an optional string: present and non-empty. */
  predicate Truthy(v: Option<string>)
  {
    v.Some? && v.value != ""
  }

  /** The generic message of a rejected reply without a usable `detail`. */
  function FallbackMessage(op: Operation): (m: string)
    ensures m != ""
  {
    match op
    case SignUp => "Signup failed"
    case SignIn => "Login failed"
  }

  /**
   * The content-type guard, then the status check, then the renaming
   * `user_id -> id` (lines 58-76 and 93-111).
   */
  function Classify(op: Operation, r: Response): (v: Verdict)
    ensures v.Refused? && v.failure.kind == NotJson <==> !IsJsonContentType(r.contentType)
    ensures v.Refused? && v.failure.kind == NotJson ==> v.failure.message == NotJsonMessage
    ensures v.Established? <==> IsJsonContentType(r.contentType) && r.ok
    ensures v.Refused? && v.failure.kind == Rejected ==>
      v.failure.message == (if Truthy(r.detail) then r.detail.value else FallbackMessage(op))
    ensures v.Established? ==> v.user == User(r.userId, r.email, r.name) && v.token == r.accessToken
  {
    if !IsJsonContentType(r.contentType) then Refused(Failure(NotJson, NotJsonMessage))
    else if !r.ok then Refused(Failure(Rejected, if Truthy(r.detail) then r.detail.value else FallbackMessage(op)))
    else Established(User(r.userId, r.email, r.name), r.accessToken)
  }

  /** Every thrown error has a non-empty message, so the forms never show their own fallback. */
  lemma FailureMessageNonEmpty(op: Operation, r: Response)
    requires Classify(op, r).Refused?
    ensures Classify(op, r).failure.message != ""
  {
  }

  /** A reply that fails the content-type guard fails it whatever its status and body. */
  lemma GuardIgnoresStatus(op: Operation, r: Response, r': Response)
    requires r.contentType == r'.contentType
    requires !IsJsonContentType(r.contentType)
    ensures Classify(op, r) == Classify(op, r') == Refused(Failure(NotJson, NotJsonMessage))
  {
  }

  /** A media type with parameters passes the guard; HTML, an absent header and other spellings do not. */
  lemma GuardExamples()
    ensures IsJsonContentType(Some("application/json"))
    ensures IsJsonContentType(Some("application/json; charset=utf-8"))
    ensures !IsJsonContentType(Some("text/html"))
    ensures !IsJsonContentType(Some("Application/JSON"))
    ensures !IsJsonContentType(None)
  {
    assert JsonMediaType <= "application/json; charset=utf-8";
    assert JsonMediaType[0] != "Application/JSON"[0];
  }

  /** The two operations read a reply alike; only the fallback message of a rejection depends on which one runs. */
  lemma OperationsAgree(r: Response)
    ensures Classify(SignUp, r).Established? <==> Classify(SignIn, r).Established?
    ensures Classify(SignUp, r).Established? ==> Classify(SignUp, r) == Classify(SignIn, r)
    ensures !Truthy(r.detail) && IsJsonContentType(r.contentType) && !r.ok ==>
      Classify(SignUp, r).failure.message != Classify(SignIn, r).failure.message
    ensures Truthy(r.detail) || !IsJsonContentType(r.contentType) ==> Classify(SignUp, r) == Classify(SignIn, r)
  {
    assert FallbackMessage(SignUp)[0] != FallbackMessage(SignIn)[0];
  }

  /** The user of a new session is built from the identity fields alone: the access token never enters it. */
  lemma UserExcludesToken(op: Operation, r: Response, token: string)
    requires Classify(op, r).Established?
    ensures Classify(op, r.(accessToken := token)).user == Classify(op, r).user
    ensures Classify(op, r.(accessToken := token)).token == token
  {
  }
}
