/** The stored form of the signed-in user (`JSON.stringify` / `JSON.parse`
    of `{id, email, name}` under `user_data`), restricted to the one object
    shape the auth context writes: three string fields in a fixed order,
    with `"` and `\` escaped inside the strings. */
module UserJson {
  import opened Common

  datatype User = User(id: string, email: string, name: string)

  /** The characters a JSON string must escape that the model handles. */
  predicate NeedsEscape(c: char) {
    c == '"' || c == '\\'
  }

  function Escape(s: string): string {
    if s == [] then ""
    else (if NeedsEscape(s[0]) then ['\\', s[0]] else [s[0]]) + Escape(s[1..])
  }

  /** Reads a string body up to its closing quote and returns the unescaped
      contents with what follows the quote; fails on a missing quote or an
      escape the model does not handle. */
  function ReadString(s: string): Option<(string, string)>
    decreases |s|
  {
    if s == [] then None
    else if s[0] == '"' then Some(("", s[1..]))
    else if s[0] == '\\' then
      if |s| >= 2 && NeedsEscape(s[1]) then
        match ReadString(s[2..])
        case Some((body, rest)) => Some(([s[1]] + body, rest))
        case None => None
      else None
    else
      match ReadString(s[1..])
      case Some((body, rest)) => Some(([s[0]] + body, rest))
      case None => None
  }

  /** Strips a literal prefix. */
  function Expect(lit: string, s: string): Option<string> {
    if |lit| <= |s| && s[..|lit|] == lit then Some(s[|lit|..]) else None
  }

  const OpenId := "{\"id\":\""
  const ThenEmail := ",\"email\":\""
  const ThenName := ",\"name\":\""
  const Close := "}"

  /** `JSON.stringify(user)`. */
  function Encode(u: User): string {
    OpenId + (Escape(u.id) + ("\"" + (ThenEmail + (Escape(u.email) + ("\"" + (ThenName + (Escape(u.name) + ("\"" + Close))))))))
  }

  /** `JSON.parse(text)` restricted to the user shape: `None` for any text
      that is not exactly what `Encode` writes, which covers every text the
      parser rejects and also valid JSON of any other form (`null`, extra
      whitespace or fields, another field order). */
  function Decode(text: string): Option<User> {
    match Expect(OpenId, text)
    case None => None
    case Some(r0) =>
      match ReadString(r0)
      case None => None
      case Some((id, r1)) =>
        match Expect(ThenEmail, r1)
        case None => None
        case Some(r2) =>
          match ReadString(r2)
          case None => None
          case Some((email, r3)) =>
            match Expect(ThenName, r3)
            case None => None
            case Some(r4) =>
              match ReadString(r4)
              case None => None
              case Some((name, r5)) =>
                if r5 == Close then Some(User(id, email, name)) else None
  }

  lemma ExpectPrefix(lit: string, rest: string)
    ensures Expect(lit, lit + rest) == Some(rest)
  {
    assert (lit + rest)[..|lit|] == lit;
    assert (lit + rest)[|lit|..] == rest;
  }

  /** An escaped string followed by its closing quote reads back as the
      original string, leaving exactly what followed. */
  lemma {:induction false} ReadEscaped(s: string, rest: string)
    ensures ReadString(Escape(s) + ("\"" + rest)) == Some((s, rest))
    decreases |s|
  {
    if s == [] {
      assert Escape(s) + ("\"" + rest) == "\"" + rest;
      assert ("\"" + rest)[1..] == rest;
    } else {
      var tail := Escape(s[1..]) + ("\"" + rest);
      ReadEscaped(s[1..], rest);
      assert [s[0]] + s[1..] == s;
      if NeedsEscape(s[0]) {
        assert Escape(s) + ("\"" + rest) == ['\\', s[0]] + tail;
        assert (['\\', s[0]] + tail)[2..] == tail;
      } else {
        assert Escape(s) + ("\"" + rest) == [s[0]] + tail;
        assert ([s[0]] + tail)[1..] == tail;
      }
    }
  }

  /** `JSON.parse(JSON.stringify(user))` gives the user back, whatever its
      fields hold. */
  lemma {:induction false} DecodeEncode(u: User)
    ensures Decode(Encode(u)) == Some(u)
  {
    var r4 := Escape(u.name) + ("\"" + Close);
    var r3 := ThenName + r4;
    var r2 := Escape(u.email) + ("\"" + r3);
    var r1 := ThenEmail + r2;
    var r0 := Escape(u.id) + ("\"" + r1);
    assert Encode(u) == OpenId + r0;
    ExpectPrefix(OpenId, r0);
    ReadEscaped(u.id, r1);
    ExpectPrefix(ThenEmail, r2);
    ReadEscaped(u.email, r3);
    ExpectPrefix(ThenName, r4);
    ReadEscaped(u.name, Close);
  }

  /** The encoding of a user is never the empty string, so `if (userData)`
      holds for anything the auth context stored. */
  lemma EncodeNonEmpty(u: User)
    ensures Encode(u) != ""
  {
    assert |Encode(u)| >= |OpenId|;
  }
}
