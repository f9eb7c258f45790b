/**
 * The `User` record of the session manager and its serialised form in the
 * browser store. `Encode` writes what `JSON.stringify` writes for a record
 * `{id, email, name}` whose strings hold no control characters; `Parse` reads
 * that form back. Only the escapes `\"` and `\\` are produced and accepted.
 */
module UserJson {
  import opened Wrappers

  /** The public identity of a signed-in user (AuthContext.tsx, lines 5-9). */
  datatype User = User(id: string, email: string, name: string)

  /** The characters of a JSON string literal's body, with `"` and `\` escaped. */
  function Escape(s: string): (r: string)
    ensures |r| >= |s|
    ensures '"' !in s && '\\' !in s ==> r == s
  {
    if s == [] then []
    else (if s[0] == '"' || s[0] == '\\' then ['\\', s[0]] else [s[0]]) + Escape(s[1..])
  }

  /** A JSON string literal. */
  function Quote(s: string): string
  {
    "\"" + Escape(s) + "\""
  }

  /**
   * Reads the body of a string literal up to its unescaped closing quote,
   * returning the decoded characters and what follows the quote; `None`
   * when the literal is unterminated or holds an escape not produced by `Escape`.
   */
  function Unescape(s: string): (r: Option<(string, string)>)
    ensures r.Some? ==> |r.value.1| < |s|
  {
    if s == [] then None
    else if s[0] == '"' then Some(([], s[1..]))
    else if s[0] == '\\' then
      if |s| < 2 || (s[1] != '"' && s[1] != '\\') then None
      else match Unescape(s[2..])
        case None => None
        case Some(p) => Some(([s[1]] + p.0, p.1))
    else match Unescape(s[1..])
      case None => None
      case Some(p) => Some(([s[0]] + p.0, p.1))
  }

  /** Reads a string literal at the head of `s`. */
  function ParseString(s: string): Option<(string, string)>
  {
    if |s| > 0 && s[0] == '"' then Unescape(s[1..]) else None
  }

  /** Strips `p` from the head of `s`, when `s` starts with it. */
  function Expect(p: string, s: string): (r: Option<string>)
    ensures r.Some? <==> p <= s
    ensures r.Some? ==> s == p + r.value
  {
    if p <= s then Some(s[|p|..]) else None
  }

  const IdKey: string := "{\"id\":"
  const EmailKey: string := ",\"email\":"
  const NameKey: string := ",\"name\":"
  const Close: string := "}"

  /** A key text followed by a string literal. */
  function Member(key: string, v: string): string
  {
    key + Quote(v)
  }

  /** The stored form of a user: `JSON.stringify(userData)` (lines 78 and 113). */
  function Encode(u: User): (r: string)
    ensures |r| > 0 && r[0] == '{'
  {
    Member(IdKey, u.id) + (Member(EmailKey, u.email) + (Member(NameKey, u.name) + Close))
  }

  /** Reads `key` followed by a string literal at the head of `s`. */
  function ParseField(key: string, s: string): Option<(string, string)>
  {
    match Expect(key, s)
    case None => None
    case Some(t) => ParseString(t)
  }

  /**
   * `JSON.parse(storedUser)` (line 43), read as a `User`: `Some` exactly on
   * the texts `Encode` writes (see `EncodeParse`).
   */
  function Parse(s: string): (r: Option<User>)
    ensures r.Some? ==> s == Encode(r.value)
  {
    match ParseField(IdKey, s)
    case None => None
    case Some(f1) =>
      match ParseField(EmailKey, f1.1)
      case None => None
      case Some(f2) =>
        match ParseField(NameKey, f2.1)
        case None => None
        case Some(f3) =>
          if f3.1 == Close then
            QuoteParseField(IdKey, s);
            QuoteParseField(EmailKey, f1.1);
            QuoteParseField(NameKey, f2.1);
            Some(User(f1.0, f2.0, f3.0))
          else None
  }

  /** Unescaping reads back exactly what escaping wrote, and stops at the closing quote. */
  lemma {:induction false} UnescapeEscape(s: string, rest: string)
    ensures Unescape(Escape(s) + "\"" + rest) == Some((s, rest))
  {
    if s == [] {
      assert Escape(s) + "\"" + rest == "\"" + rest;
    } else {
      UnescapeEscape(s[1..], rest);
      var head := if s[0] == '"' || s[0] == '\\' then ['\\', s[0]] else [s[0]];
      var tail := Escape(s[1..]) + "\"" + rest;
      assert Escape(s) + "\"" + rest == head + tail;
      if s[0] == '"' || s[0] == '\\' {
        assert (head + tail)[2..] == tail;
      } else {
        assert (head + tail)[1..] == tail;
      }
      assert [s[0]] + s[1..] == s;
    }
  }

  /** Conversely, whatever `Unescape` accepts is an escaped body followed by a closing quote. */
  lemma {:induction false} EscapeUnescape(s: string)
    requires Unescape(s).Some?
    ensures s == Escape(Unescape(s).value.0) + "\"" + Unescape(s).value.1
  {
    if s[0] == '"' {
      assert s == "\"" + s[1..];
    } else if s[0] == '\\' {
      EscapeUnescape(s[2..]);
      var p := Unescape(s[2..]).value;
      assert Unescape(s).value.0 == [s[1]] + p.0;
      assert ([s[1]] + p.0)[1..] == p.0;
      assert s == [s[0], s[1]] + s[2..];
    } else {
      EscapeUnescape(s[1..]);
      var p := Unescape(s[1..]).value;
      assert Unescape(s).value.0 == [s[0]] + p.0;
      assert ([s[0]] + p.0)[1..] == p.0;
      assert s == [s[0]] + s[1..];
    }
  }

  lemma ParseFieldQuote(key: string, v: string, rest: string)
    ensures ParseField(key, Member(key, v) + rest) == Some((v, rest))
  {
    var t := Quote(v) + rest;
    assert Member(key, v) + rest == key + t;
    assert Expect(key, key + t) == Some(t);
    assert t[1..] == Escape(v) + "\"" + rest;
    UnescapeEscape(v, rest);
  }

  lemma QuoteParseField(key: string, s: string)
    requires ParseField(key, s).Some?
    ensures s == Member(key, ParseField(key, s).value.0) + ParseField(key, s).value.1
  {
    var t := Expect(key, s).value;
    EscapeUnescape(t[1..]);
    assert t == "\"" + t[1..];
    assert s == key + t;
  }

  /** Restoring a stored user gives back the very record that was stored. */
  lemma ParseEncode(u: User)
    ensures Parse(Encode(u)) == Some(u)
  {
    var r2 := Member(NameKey, u.name) + Close;
    var r1 := Member(EmailKey, u.email) + r2;
    ParseFieldQuote(IdKey, u.id, r1);
    ParseFieldQuote(EmailKey, u.email, r2);
    ParseFieldQuote(NameKey, u.name, Close);
  }

  /** `Parse` and `Encode` are inverse: the stored form is the only string that parses to a given user. */
  lemma EncodeParse(s: string, u: User)
    ensures Parse(s) == Some(u) <==> s == Encode(u)
  {
    if s == Encode(u) {
      ParseEncode(u);
    }
  }
}
