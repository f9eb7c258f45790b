/**
 * `AuthProvider`, the session manager (AuthContext.tsx, lines 34-122): the
 * in-memory `user` and `loading` state and the browser's `localStorage`,
 * a map from keys to strings of which the provider uses `user` and `token`.
 *
 * `Snapshot` and the functions over it specify each operation as a change
 * of the whole state; the class `AuthProvider` performs the same changes step
 * by step and is proved against them.
 */
module Session {
  import opened Wrappers
  import opened UserJson
  import opened Responses

  const UserKey: string := "user"
  const TokenKey: string := "token"

  /** The whole observable state of the provider and of the store. */
  datatype Snapshot = Snapshot(user: Option<User>, loading: bool, store: map<string, string>)

  /** `localStorage.getItem(key)`: `None` stands for `null`. */
  function GetItem(store: map<string, string>, key: string): Option<string>
  {
    if key in store then Some(store[key]) else None
  }

  /**
   * The Web Storage laws the provider relies on: a key reads back what was
   * last written to it, nothing after its removal, and is not affected by
   * writes to or removals of other keys.
   */
  lemma StorageLaws(store: map<string, string>, k: string, k': string, v: string)
    ensures GetItem(store[k := v], k) == Some(v)
    ensures GetItem(store - {k}, k) == None
    ensures k != k' ==> GetItem(store[k' := v], k) == GetItem(store, k)
    ensures k != k' ==> GetItem(store - {k'}, k) == GetItem(store, k)
  {
  }

  /** `storedUser && storedToken` (line 42): both keys are present and non-empty. */
  predicate RestoresUser(store: map<string, string>)
  {
    Truthy(GetItem(store, UserKey)) && Truthy(GetItem(store, TokenKey))
  }

  /** A signed-in user is always backed by both persisted keys. */
  predicate SessionInvariant(s: Snapshot)
  {
    s.user.Some? ==> UserKey in s.store && TokenKey in s.store
  }

  /** The state when the provider is created (lines 35-36): no user, still loading. */
  function Initial(store: map<string, string>): (s: Snapshot)
    ensures s.user.None? && s.loading && s.store == store
    ensures SessionInvariant(s)
  {
    Snapshot(None, true, store)
  }

  /**
   * The startup restore (lines 38-46). `None` when both keys are truthy and
   * the stored user is not the exact text `Encode` writes: the restore then
   * fails, and nothing has been written at that point.
   */
  function Restored(s: Snapshot): (r: Option<Snapshot>)
    ensures r.None? <==> RestoresUser(s.store) && Parse(s.store[UserKey]).None?
    ensures r.Some? ==> r.value.store == s.store && !r.value.loading
    ensures r.Some? && !RestoresUser(s.store) ==> r.value.user == s.user
    ensures r.Some? && RestoresUser(s.store) ==>
      r.value.user.Some? && s.store[UserKey] == Encode(r.value.user.value)
  {
    if RestoresUser(s.store) then
      match Parse(s.store[UserKey])
      case None => None
      case Some(u) =>
        EncodeParse(s.store[UserKey], u);
        Some(s.(user := Some(u), loading := false))
    else Some(s.(loading := false))
  }

  /** The success effect of `signUp` and `signIn` (lines 78-80, 113-115). */
  function Establish(s: Snapshot, u: User, token: string): (t: Snapshot)
    ensures t.user == Some(u) && t.loading == s.loading
    ensures t.store.Keys == s.store.Keys + {UserKey, TokenKey}
    ensures t.store[UserKey] == Encode(u) && t.store[TokenKey] == token
    ensures forall k :: k in s.store && k != UserKey && k != TokenKey ==> t.store[k] == s.store[k]
  {
    s.(user := Some(u), store := s.store[UserKey := Encode(u)][TokenKey := token])
  }

  /**
   * A whole `signUp` or `signIn` once the reply `r` has arrived: the new
   * state and the error thrown, if any (lines 58-80, 93-115).
   */
  function Attempt(s: Snapshot, op: Operation, r: Response): (out: (Snapshot, Option<Failure>))
    ensures out.1.Some? <==> Classify(op, r).Refused?
    ensures out.1.Some? ==> out.0 == s && out.1.value == Classify(op, r).failure
    ensures out.1.None? ==> out.0 == Establish(s, User(r.userId, r.email, r.name), r.accessToken)
  {
    match Classify(op, r)
    case Refused(f) => (s, Some(f))
    case Established(u, token) => (Establish(s, u, token), None)
  }

  /** `signOut` (lines 118-122). */
  function SignedOut(s: Snapshot): (t: Snapshot)
    ensures t.user.None? && t.loading == s.loading
    ensures UserKey !in t.store && TokenKey !in t.store
    ensures forall k :: k != UserKey && k != TokenKey ==>
      (k in t.store <==> k in s.store) && (k in t.store ==> t.store[k] == s.store[k])
  {
    s.(user := None, store := s.store - {UserKey, TokenKey})
  }

  /**
   * On a fresh provider, a completed restore adopts a user exactly when both
   * `user` and `token` are stored with non-empty values.
   */
  lemma RestoreAdoptsIff(store: map<string, string>)
    requires Restored(Initial(store)).Some?
    ensures Restored(Initial(store)).value.user.Some? <==>
      UserKey in store && TokenKey in store && store[UserKey] != "" && store[TokenKey] != ""
  {
  }

  /** Every failure leaves the user and the store exactly as they were. */
  lemma FailureChangesNothing(s: Snapshot, op: Operation, r: Response)
    requires !IsJsonContentType(r.contentType) || !r.ok
    ensures Attempt(s, op, r).0 == s
    ensures Attempt(s, op, r).1.Some?
  {
  }

  /** Given the same reply, `signUp` and `signIn` have the same success effect. */
  lemma SuccessIndependentOfOperation(s: Snapshot, r: Response)
    requires Attempt(s, SignUp, r).1.None?
    ensures Attempt(s, SignIn, r) == Attempt(s, SignUp, r)
  {
    OperationsAgree(r);
  }

  /** Signing out twice is signing out once; with no session and no keys it changes nothing. */
  lemma SignOutIdempotent(s: Snapshot)
    ensures SignedOut(SignedOut(s)) == SignedOut(s)
    ensures s.user.None? && UserKey !in s.store && TokenKey !in s.store ==> SignedOut(s) == s
  {
    if s.user.None? && UserKey !in s.store && TokenKey !in s.store {
      assert SignedOut(s).store == s.store;
    }
  }

  /** Every operation keeps a signed-in user backed by both persisted keys. */
  lemma InvariantPreserved(s: Snapshot, op: Operation, r: Response)
    requires SessionInvariant(s)
    ensures Restored(s).Some? ==> SessionInvariant(Restored(s).value)
    ensures SessionInvariant(Attempt(s, op, r).0)
    ensures SessionInvariant(SignedOut(s))
  {
  }

  /** Only the startup restore writes `loading`, and it only ever clears it. */
  lemma LoadingOnlyCleared(s: Snapshot, op: Operation, r: Response)
    ensures Attempt(s, op, r).0.loading == s.loading
    ensures SignedOut(s).loading == s.loading
    ensures Restored(s).Some? ==> !Restored(s).value.loading
    ensures Restored(s).None? ==> RestoresUser(s.store)
  {
  }

  /**
   * A session established with a non-empty token survives a reload: a fresh
   * provider over the same store restores the identical user. With an empty
   * token the session is in memory and in the store, but a reload drops it.
   */
  lemma {:induction false} ReloadRestoresSession(s: Snapshot, u: User, token: string)
    ensures var t := Establish(s, u, token);
      Restored(Initial(t.store)) == Some(Snapshot(if token != "" then Some(u) else None, false, t.store))
  {
    var t := Establish(s, u, token);
    ParseEncode(u);
    assert GetItem(t.store, UserKey) == Some(Encode(u));
    assert GetItem(t.store, TokenKey) == Some(token);
  }

  /** After a sign-out a reload restores no user, whatever else the store holds. */
  lemma ReloadAfterSignOut(s: Snapshot)
    ensures Restored(Initial(SignedOut(s).store)) == Some(Snapshot(None, false, SignedOut(s).store))
  {
  }

  /** Empty store, a successful sign-up of Ann, then a sign-out: the store ends empty again. */
  lemma SignUpThenSignOut()
    ensures var r := Response(Some("application/json"), true, None, "1", "ann@x.io", "Ann", "tok1");
      var (t, err) := Attempt(Initial(map[]), SignUp, r);
      && err.None?
      && t.user == Some(User("1", "ann@x.io", "Ann"))
      && t.store == map[UserKey := Encode(User("1", "ann@x.io", "Ann")), TokenKey := "tok1"]
      && SignedOut(t).store == map[]
      && SignedOut(t).user.None?
  {
    GuardExamples();
    var r := Response(Some("application/json"), true, None, "1", "ann@x.io", "Ann", "tok1");
    var t := Attempt(Initial(map[]), SignUp, r).0;
    assert SignedOut(t).store.Keys == {};
  }

  /**
   * The provider's state. `storage` is the part of `localStorage` this model
   * sees: the key-value map that the provider reads and writes.
   */
  class AuthProvider {
    var user: Option<User>
    var loading: bool
    var storage: map<string, string>

    function State(): Snapshot
      reads this
    {
      Snapshot(user, loading, storage)
    }

    ghost predicate Valid()
      reads this
    {
      SessionInvariant(State())
    }

    /** A provider mounted over the store as the browser holds it. */
    constructor (store: map<string, string>)
      ensures Valid()
      ensures State() == Initial(store)
    {
      user := None;
      loading := true;
      storage := store;
    }

    /**
     * The startup effect; `false` when both keys are truthy and the stored user
     * is not the exact text `Encode` writes: the restore then fails, leaving
     * everything as it was.
     */
    method RestoreSession() returns (ok: bool)
      requires Valid()
      modifies this
      ensures Valid()
      ensures ok == Restored(old(State())).Some?
      ensures State() == if ok then Restored(old(State())).value else old(State())
    {
      var storedUser := GetItem(storage, UserKey);
      var storedToken := GetItem(storage, TokenKey);
      if Truthy(storedUser) && Truthy(storedToken) {
        var parsed := Parse(storedUser.value);
        if parsed.None? {
          return false;
        }
        user := parsed;
      }
      loading := false;
      ok := true;
    }

    /** Classifies the reply and, on success, persists and adopts the new session. */
    method Complete(op: Operation, response: Response) returns (err: Option<Failure>)
      requires Valid()
      modifies this
      ensures Valid()
      ensures (State(), err) == Attempt(old(State()), op, response)
    {
      var verdict := Classify(op, response);
      if verdict.Refused? {
        return Some(verdict.failure);
      }
      var userData := verdict.user;
      storage := storage[UserKey := Encode(userData)];
      storage := storage[TokenKey := verdict.token];
      user := Some(userData);
      err := None;
    }

    /** `signUp`: `server` stands for the backend answering the request `fetch` sends. */
    method SignUp(name: string, email: string, password: string, server: Request -> Response)
      returns (err: Option<Failure>)
      requires Valid()
      modifies this
      ensures Valid()
      ensures (State(), err) == Attempt(old(State()), Responses.SignUp, server(SignUpRequest(name, email, password)))
    {
      var response := server(SignUpRequest(name, email, password));
      err := Complete(Responses.SignUp, response);
    }

    /** `signIn`: as `SignUp`, against the login endpoint. */
    method SignIn(email: string, password: string, server: Request -> Response)
      returns (err: Option<Failure>)
      requires Valid()
      modifies this
      ensures Valid()
      ensures (State(), err) == Attempt(old(State()), Responses.SignIn, server(SignInRequest(email, password)))
    {
      var response := server(SignInRequest(email, password));
      err := Complete(Responses.SignIn, response);
    }

    /** `signOut`: removes both keys, then forgets the user. */
    method SignOut()
      requires Valid()
      modifies this
      ensures Valid()
      ensures State() == SignedOut(old(State()))
    {
      storage := storage - {UserKey};
      storage := storage - {TokenKey};
      user := None;
    }
  }
}
