/**
 * `JSON.stringify` / `JSON.parse` restricted to what the session store keeps under `userInfo`:
 * a flat object of six string members. Strings are quoted with `\"` and `\\` escapes; the model
 * needs only that parsing a stringified user gives that user back, which is proved below.
 */
module UserJson {
  import opened Wrappers
  import opened Users

  /** What `JSON.parse` throws on text it cannot read. */
  datatype SyntaxError = SyntaxError

  function EscapeChar(c: char): string
  {
    if c == '"' || c == '\\' then ['\\', c] else [c]
  }

  function Escape(s: string): string
  {
    if s == [] then [] else EscapeChar(s[0]) + Escape(s[1..])
  }

  /** A JSON string literal. */
  function Quote(s: string): string
  {
    "\"" + Escape(s) + "\""
  }

  /**
   * Reads the body of a string literal whose opening quote is already consumed: the unescaped
   * text and whatever follows the closing quote, or None when the literal is not closed.
   */
  function ReadChars(t: string): (r: Option<(string, string)>)
    ensures r.Some? ==> |r.value.1| < |t|
    decreases |t|
  {
    if t == [] then None
    else if t[0] == '"' then Some(([], t[1..]))
    else if t[0] == '\\' then
      if |t| >= 2 && (t[1] == '"' || t[1] == '\\') then
        match ReadChars(t[2..])
        case None => None
        case Some(p) => Some(([t[1]] + p.0, p.1))
      else None
    else
      match ReadChars(t[1..])
      case None => None
      case Some(p) => Some(([t[0]] + p.0, p.1))
  }

  /** Consumes the literal text `lit` at the front of `t`. */
  function Expect(lit: string, t: string): (r: Option<string>)
    ensures r.Some? <==> lit <= t
    ensures r.Some? ==> t == lit + r.value
  {
    if lit <= t then Some(t[|lit|..]) else None
  }

  /** Reads one string literal at the front of `t`. */
  function ReadString(t: string): Option<(string, string)>
  {
    var body :- Expect("\"", t);
    ReadChars(body)
  }

  /** The text before each member's value, in the order the user object is written. */
  const Keys: seq<string> :=
    ["{\"_id\":", ",\"name\":", ",\"email\":", ",\"role\":", ",\"status\":", ",\"token\":"]

  /** The members' values, in the order of `Keys`. */
  function Fields(u: User): seq<string>
  {
    [u.id, u.name, u.email, RoleName(u.role), StatusName(u.status), u.token]
  }

  /** Each key followed by its quoted value, then `tail`. */
  function EncodeMembers(keys: seq<string>, values: seq<string>, tail: string): string
    requires |keys| == |values|
  {
    if keys == [] then tail
    else keys[0] + (Quote(values[0]) + EncodeMembers(keys[1..], values[1..], tail))
  }

  function Encode(u: User): string
  {
    EncodeMembers(Keys, Fields(u), "}")
  }

  /** Reads the member whose text before the value is `key`, and its string value. */
  function ReadMember(key: string, t: string): Option<(string, string)>
  {
    var body :- Expect(key, t);
    ReadString(body)
  }

  /** Reads one member per key, in order: their values and the text after the last one. */
  function ReadMembers(keys: seq<string>, t: string): (r: Option<(seq<string>, string)>)
    ensures r.Some? ==> |r.value.0| == |keys|
  {
    if keys == [] then Some(([], t))
    else
      var m :- ReadMember(keys[0], t);
      var more :- ReadMembers(keys[1..], m.1);
      Some(([m.0] + more.0, more.1))
  }

  function DecodeUser(t: string): Option<User>
  {
    var members :- ReadMembers(Keys, t);
    var v := members.0;
    var r :- RoleFromName(v[3]);
    var s :- StatusFromName(v[4]);
    if members.1 == "}" then Some(User(v[0], v[1], v[2], r, s, v[5])) else None
  }

  /** `JSON.parse` of a stored session: the text `null` is the null user; anything unreadable throws. */
  function Parse(text: string): (r: Result<Option<User>, SyntaxError>)
    ensures r == Ok(None) <==> text == "null"
  {
    if text == "null" then Ok(None)
    else match DecodeUser(text)
      case Some(u) => Ok(Some(u))
      case None => Err(SyntaxError)
  }

  lemma {:induction false} ReadCharsEscape(s: string, rest: string)
    ensures ReadChars(Escape(s) + "\"" + rest) == Some((s, rest))
  {
    if s == [] {
      assert Escape(s) + "\"" + rest == "\"" + rest;
    } else {
      var t := Escape(s) + "\"" + rest;
      var tail := Escape(s[1..]) + "\"" + rest;
      ReadCharsEscape(s[1..], rest);
      assert t == EscapeChar(s[0]) + tail;
      assert s == [s[0]] + s[1..];
      if s[0] == '"' || s[0] == '\\' {
        assert t[2..] == tail;
      } else {
        assert t[1..] == tail;
      }
    }
  }

  lemma ExpectLiteral(lit: string, rest: string)
    ensures Expect(lit, lit + rest) == Some(rest)
  {
    assert (lit + rest)[|lit|..] == rest;
  }

  lemma ReadStringQuote(s: string, rest: string)
    ensures ReadString(Quote(s) + rest) == Some((s, rest))
  {
    assert Quote(s) + rest == "\"" + (Escape(s) + "\"" + rest);
    ExpectLiteral("\"", Escape(s) + "\"" + rest);
    ReadCharsEscape(s, rest);
  }

  lemma MemberRoundTrip(key: string, v: string, rest: string)
    ensures ReadMember(key, key + (Quote(v) + rest)) == Some((v, rest))
  {
    ExpectLiteral(key, Quote(v) + rest);
    ReadStringQuote(v, rest);
  }

  /** Reading the encoded members back gives their values and the tail after them. */
  lemma {:induction false} ReadEncodeMembers(keys: seq<string>, values: seq<string>, tail: string)
    requires |keys| == |values|
    ensures ReadMembers(keys, EncodeMembers(keys, values, tail)) == Some((values, tail))
  {
    if keys != [] {
      var rest := EncodeMembers(keys[1..], values[1..], tail);
      MemberRoundTrip(keys[0], values[0], rest);
      ReadEncodeMembers(keys[1..], values[1..], tail);
      assert values == [values[0]] + values[1..];
    }
  }

  /** Reading back the stringified object yields every member of the user. */
  lemma DecodeEncode(u: User)
    ensures DecodeUser(Encode(u)) == Some(u)
  {
    ReadEncodeMembers(Keys, Fields(u), "}");
  }

  /** Stringify then parse gives back the very same user. */
  lemma ParseEncode(u: User)
    ensures Parse(Encode(u)) == Ok(Some(u))
  {
    DecodeEncode(u);
    assert Encode(u)[0] == '{';
  }
}
