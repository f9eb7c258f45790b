# Session manager of the Todo app's web client, in Dafny

This project models `AuthProvider`, the client-side session manager of the
Todo app's Next.js front end (`frontend/src/contexts/AuthContext.tsx`). The
provider keeps three things: an optional in-memory `user` record
`{id, email, name}`, a `loading` flag, and the browser's `localStorage`. It
uses two keys of that store, `user` (the record serialised as JSON) and `token`
(the access token). It has four operations:

- the startup restore, which adopts the stored user when both keys hold non-empty strings and then clears `loading`;
- `signUp` and `signIn`, which POST credentials and classify the server's reply;
- `signOut`, which removes both keys and forgets the user.

A reply is classified in three steps. First, the content-type guard refuses a
reply whose `Content-Type` header is absent or does not contain the substring
`application/json` (the media type of RFC 8259, section 11). Second, the status
check refuses a JSON reply whose status is not ok. It throws the body's `detail`
when that is a non-empty string, and `Signup failed` or `Login failed`
otherwise. Third, on success the fields are renamed (`user_id` becomes `id`),
both keys are written, and the user is adopted.

Files:

- `wrappers.dfy`: `Option`.
- `user_json.dfy`: the `User` record and a JSON encoding and decoding of it, with the round trip proved in both directions.
- `responses.dfy`: the requests, the reply record, the content-type guard (`Includes`, proved equal to an offset-based definition), and `Classify`.
- `session.dfy`: `Snapshot`, which is the whole state, and one function per operation. The lemmas about them are here too: failure changes nothing, sign-out is idempotent, the session invariant, and a reload after sign-in. The class `AuthProvider` performs each operation step by step on its fields. Each of its methods is proved to produce the state its function specifies.

The network is a parameter. `SignUp` and `SignIn` take `server: Request -> Response`, which stands for the backend answering the request that `fetch` sends.

In three places the code behaves differently from what a reader might expect; the model follows the code:

- The restore tests JavaScript truthiness, not presence, so an empty stored `user` or `token` restores nothing.
- A stored `user` that `JSON.parse` rejects makes the restore throw before `loading` is cleared. The model does not treat that as "no session".
- Only one direction of "a user is present iff a token is known" holds: a user implies both keys. A token can sit in the store with no user, for example before the restore has run.

The `Content-Type` guard is a case-sensitive substring test. `Application/JSON` fails it, although media types are case-insensitive (RFC 9110, section 8.3.1). `GuardExamples` records this.

## Model

| member | source | states |
|---|---|---|
| UserJson.Encode | frontend/src/contexts/AuthContext.tsx:78 | the stored form of a user is non-empty and starts with `{`, so it is truthy on restore |
| UserJson.Parse | frontend/src/contexts/AuthContext.tsx:43 | whatever the reader accepts as a user is exactly that user's stored form |
| UserJson.ParseEncode | frontend/src/contexts/AuthContext.tsx:43 | parsing the stored form of a user gives back that very user |
| UserJson.EncodeParse | frontend/src/contexts/AuthContext.tsx:43 | a string parses to user `u` if and only if it is `u`'s stored form |
| UserJson.UnescapeEscape | frontend/src/contexts/AuthContext.tsx:78 | a string literal written by the encoder reads back as the same characters, ending at its closing quote |
| UserJson.EscapeUnescape | frontend/src/contexts/AuthContext.tsx:43 | every literal body the decoder accepts is exactly what the encoder writes for the decoded characters |
| Responses.SignUpRequest | frontend/src/contexts/AuthContext.tsx:52-56 | the sign-up request posts to `/api/auth/signup` and carries name, email and password unchanged |
| Responses.SignInRequest | frontend/src/contexts/AuthContext.tsx:87-91 | the login request posts to `/api/auth/login`, carries email and password unchanged, and has no name field |
| Responses.EndpointsDiffer | frontend/src/contexts/AuthContext.tsx:52-87 | the two operations post to different endpoints |
| Responses.Includes | frontend/src/contexts/AuthContext.tsx:60 | `includes` holds exactly when the searched text occurs at some offset of the string |
| Responses.IsJsonContentType | frontend/src/contexts/AuthContext.tsx:60 | the guard passes exactly when the header is present and `application/json` occurs somewhere in its value |
| Responses.GuardExamples | frontend/src/contexts/AuthContext.tsx:60 | `application/json; charset=utf-8` passes the guard; `text/html`, `Application/JSON` and an absent header fail it |
| Responses.FallbackMessage | frontend/src/contexts/AuthContext.tsx:69 | each operation's generic rejection message is non-empty |
| Responses.Classify | frontend/src/contexts/AuthContext.tsx:58-76 | a reply is refused as not-JSON exactly when the guard fails, whatever its status, with the fixed message; it is accepted exactly when the guard passes and the status is ok; a rejection carries the non-empty `detail` or else the fallback; an accepted reply yields `{id: user_id, email, name}` and the access token |
| Responses.FailureMessageNonEmpty | frontend/src/contexts/AuthContext.tsx:63-69 | every error thrown to the caller has a non-empty message |
| Responses.GuardIgnoresStatus | frontend/src/contexts/AuthContext.tsx:58-64 | two replies with the same failing content type are refused identically, whatever their status and body |
| Responses.OperationsAgree | frontend/src/contexts/AuthContext.tsx:51-116 | sign-up and sign-in accept the same replies with the same result; they differ only in the fallback message when `detail` is missing |
| Responses.UserExcludesToken | frontend/src/contexts/AuthContext.tsx:107-111 | the adopted user does not depend on the access token; the token is kept apart |
| Session.StorageLaws | frontend/src/contexts/AuthContext.tsx:39-40 | a key reads back the value last written to it and `null` after its removal; writes and removals of other keys do not affect it |
| Session.RestoreAdoptsIff | frontend/src/contexts/AuthContext.tsx:42-43 | on a fresh provider, a completed restore adopts a user exactly when both `user` and `token` are present with non-empty values |
| Session.Initial | frontend/src/contexts/AuthContext.tsx:35-36 | a new provider has no user and is loading, over the store as it is |
| Session.Restored | frontend/src/contexts/AuthContext.tsx:38-46 | the restore fails only when both keys are truthy and the stored user does not parse; otherwise it leaves the store alone, clears `loading`, keeps the old user unless both keys are truthy, and then adopts the user whose stored form is under `user` |
| Session.Establish | frontend/src/contexts/AuthContext.tsx:78-80 | a success maps `user` to the encoded user and `token` to the token, adopts the user, and leaves every other key and `loading` unchanged |
| Session.Attempt | frontend/src/contexts/AuthContext.tsx:58-80 | an attempt throws exactly when the reply is refused, and then changes nothing; otherwise it establishes the session built from the reply |
| Session.SignedOut | frontend/src/contexts/AuthContext.tsx:118-122 | sign-out removes `user` and `token`, clears the user, and leaves every other key and `loading` unchanged |
| Session.FailureChangesNothing | frontend/src/contexts/AuthContext.tsx:60-70 | a reply failing the guard or the status check throws and leaves the user and the store exactly as they were |
| Session.SuccessIndependentOfOperation | frontend/src/contexts/AuthContext.tsx:72-115 | given the same reply, a successful `signUp` and `signIn` leave the same state |
| Session.SignOutIdempotent | frontend/src/contexts/AuthContext.tsx:118-122 | signing out twice equals signing out once; with no session and no keys it changes nothing |
| Session.InvariantPreserved | frontend/src/contexts/AuthContext.tsx:42-121 | restore, both attempts and sign-out preserve "a user implies both keys are stored" |
| Session.LoadingOnlyCleared | frontend/src/contexts/AuthContext.tsx:36-45 | attempts and sign-out never touch `loading`; a completed restore clears it; a restore fails only when both keys are truthy |
| Session.ReloadRestoresSession | frontend/src/contexts/AuthContext.tsx:39-43 | after a success, a reload restores the identical user when the token is non-empty, and no user when it is empty |
| Session.ReloadAfterSignOut | frontend/src/contexts/AuthContext.tsx:118-120 | after a sign-out, a reload restores no user |
| Session.SignUpThenSignOut | frontend/src/contexts/AuthContext.tsx:51-122 | from an empty store, signing up Ann adopts `{1, ann@x.io, Ann}` and writes both keys; signing out empties the store again |
| Session.AuthProvider.constructor | frontend/src/contexts/AuthContext.tsx:35-36 | the provider starts with no user, loading, and the invariant holds |
| Session.AuthProvider.RestoreSession | frontend/src/contexts/AuthContext.tsx:38-46 | the restore's steps produce `Restored`; when parsing throws, nothing changes |
| Session.AuthProvider.Complete | frontend/src/contexts/AuthContext.tsx:58-80 | the classification and the two writes produce `Attempt`'s state and error |
| Session.AuthProvider.SignUp | frontend/src/contexts/AuthContext.tsx:51-81 | `signUp` sends the sign-up request and then behaves as `Attempt` on the reply, keeping the invariant |
| Session.AuthProvider.SignIn | frontend/src/contexts/AuthContext.tsx:86-116 | `signIn` sends the login request and then behaves as `Attempt` on the reply, keeping the invariant |
| Session.AuthProvider.SignOut | frontend/src/contexts/AuthContext.tsx:118-122 | the two removals and `setUser(null)` produce `SignedOut`, keeping the invariant |

## Left out

- `fetch`, the transport and its errors, and the `API_URL` lookup (lines 31-32): these are I/O. The reply is an input record, and the backend is the parameter `server`.
- Reading the raw text of a non-JSON reply and `console.error` (lines 61-62): these are logging side effects.
- UserJson.Parse: accepts only the exact text `Encode` writes. `JSON.parse` also accepts whitespace, other key orders and other escapes. It also accepts any other JSON value, which the source would adopt as `user` without checking its shape. The model treats all such stored values as a restore failure. In the other direction, `Parse` accepts raw control characters inside a string literal, which `JSON.parse` rejects. On such a stored value the model restores a user where the source's restore throws.
- UserJson.Encode: escapes only `"` and `\`. `JSON.stringify` also escapes control characters, and that is not modelled, so for a string holding a control character the stored text is not valid JSON.
- Responses.Classify: `response.json()` (lines 66, 101) throws when a reply declared as JSON has a body that is not JSON, and `data.detail` throws when the body is `null`. These errors are not modelled: every reply that passes the guard is either rejected or accepted.
- Session.Establish and Session.Attempt: a `localStorage.setItem` that throws (storage full or blocked) is not modelled. In the source, a throw on the second write (lines 79, 114) leaves the new `user` beside the old `token` and never sets the user. The model's store accepts every write, which is why success always writes both keys together.
- The reply's body fields are strings. A non-string `detail` is not modelled; FastAPI's validation errors send a list. Missing fields on a success reply are not modelled either; for example, JavaScript would store the string `undefined` for a missing `access_token`.
- What React does after the restore effect throws is not modelled. The model only returns `false` and changes nothing.
- Overlapping asynchronous `signUp`/`signIn` calls are not modelled; in the source the last reply to complete wins. React's context, `useAuth` and the default context value (lines 19-25, 124-131) are framework plumbing and are left out too.
- Changes to `localStorage` made outside the provider, for example by another tab, are not modelled.
- The sign-up and login pages and the backend's application wiring are not part of this model.
