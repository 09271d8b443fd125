/**
 * The user record the forms hand to the session, `{ username }`, and the
 * text it is kept as in local storage: `JSON.stringify` of the record and
 * the `JSON.parse` that reads it back.
 */
module UserRecord {
  import opened Base

  datatype User = User(username: string)

  const Open := "{\"username\":\""
  const Close := "\"}"

  function HexDigit(d: nat): (c: char)
    requires d < 16
    ensures HexValue(c) == Some(d)
  {
    if d < 10 then ('0' as int + d) as char else ('a' as int + d - 10) as char
  }

  function HexValue(c: char): Option<nat>
  {
    if '0' <= c <= '9' then Some(c as int - '0' as int)
    else if 'a' <= c <= 'f' then Some(c as int - 'a' as int + 10)
    else if 'A' <= c <= 'F' then Some(c as int - 'A' as int + 10)
    else None
  }

  /** How `JSON.stringify` writes one character inside a string literal. */
  function EscapeChar(c: char): (r: string)
    ensures c != '"' && c != '\\' && (c as int) >= 0x20 ==> r == [c]
    ensures !(c != '"' && c != '\\' && (c as int) >= 0x20) ==> 2 <= |r| <= 6 && r[0] == '\\'
  {
    var n := c as int;
    if c == '"' then "\\\""
    else if c == '\\' then "\\\\"
    else if n == 0x08 then "\\b"
    else if n == 0x09 then "\\t"
    else if n == 0x0A then "\\n"
    else if n == 0x0C then "\\f"
    else if n == 0x0D then "\\r"
    else if n < 0x20 then "\\u00" + [HexDigit(n / 16), HexDigit(n % 16)]
    else [c]
  }

  function Escape(s: string): string
  {
    if s == [] then [] else EscapeChar(s[0]) + Escape(s[1..])
  }

  function Prepend(c: char, rest: Option<string>): Option<string>
  {
    if rest.Some? then Some([c] + rest.value) else None
  }

  /** The code unit of four hex digits. */
  function Hex4(s: string): Option<nat>
    requires |s| == 4
  {
    var a, b, c, d := HexValue(s[0]), HexValue(s[1]), HexValue(s[2]), HexValue(s[3]);
    if a.Some? && b.Some? && c.Some? && d.Some?
    then Some(((a.value * 16 + b.value) * 16 + c.value) * 16 + d.value)
    else None
  }

  /** The body of a JSON string literal read back; a raw quote or control character is an error. */
  function Unescape(s: string): Option<string>
    decreases |s|
  {
    if s == [] then Some([])
    else if s[0] == '\\' then
      if |s| < 2 then None
      else if s[1] == '"' then Prepend('"', Unescape(s[2..]))
      else if s[1] == '\\' then Prepend('\\', Unescape(s[2..]))
      else if s[1] == '/' then Prepend('/', Unescape(s[2..]))
      else if s[1] == 'b' then Prepend(0x08 as char, Unescape(s[2..]))
      else if s[1] == 't' then Prepend(0x09 as char, Unescape(s[2..]))
      else if s[1] == 'n' then Prepend(0x0A as char, Unescape(s[2..]))
      else if s[1] == 'f' then Prepend(0x0C as char, Unescape(s[2..]))
      else if s[1] == 'r' then Prepend(0x0D as char, Unescape(s[2..]))
      else if s[1] == 'u' && |s| >= 6 then
        var v := Hex4(s[2..6]);
        if v.Some? && (v.value < 0xD800 || 0xE000 <= v.value)
        then Prepend(v.value as char, Unescape(s[6..]))
        else None
      else None
    else if s[0] == '"' || (s[0] as int) < 0x20 then None
    else Prepend(s[0], Unescape(s[1..]))
  }

  /** `JSON.stringify({ username })`. */
  function Encode(u: User): (r: string)
    ensures |r| >= |Open| + |Close| && r[..|Open|] == Open && r[|r| - |Close|..] == Close
    ensures r[|Open|..|r| - |Close|] == Escape(u.username)
  {
    Open + Escape(u.username) + Close
  }

  /** `JSON.parse` of a stored user record; anything else fails to parse (`None`). */
  function Decode(s: string): (r: Option<User>)
    ensures r.Some? ==> |s| >= |Open| + |Close| && s[..|Open|] == Open && s[|s| - |Close|..] == Close
    ensures r.Some? ==> Unescape(s[|Open|..|s| - |Close|]) == Some(r.value.username)
  {
    if |s| >= |Open| + |Close| && s[..|Open|] == Open && s[|s| - |Close|..] == Close then
      var name := Unescape(s[|Open|..|s| - |Close|]);
      if name.Some? then Some(User(name.value)) else None
    else None
  }

  /** Characters with a two-character escape. */
  predicate HasShortEscape(c: char)
  {
    var n := c as int;
    c == '"' || c == '\\' || n == 0x08 || n == 0x09 || n == 0x0A || n == 0x0C || n == 0x0D
  }

  lemma UnescapeShortEscape(c: char, rest: string)
    requires HasShortEscape(c)
    ensures Unescape(EscapeChar(c) + rest) == Prepend(c, Unescape(rest))
  {
    var s := EscapeChar(c) + rest;
    assert s[0] == '\\' && s[1] == EscapeChar(c)[1];
    assert s[2..] == rest;
  }

  lemma UnescapeHexEscape(c: char, rest: string)
    requires !HasShortEscape(c) && (c as int) < 0x20
    ensures Unescape(EscapeChar(c) + rest) == Prepend(c, Unescape(rest))
  {
    var n := c as int;
    var s := EscapeChar(c) + rest;
    assert s[0] == '\\' && s[1] == 'u';
    assert s[2..6] == "00" + [HexDigit(n / 16), HexDigit(n % 16)];
    assert s[6..] == rest;
    assert Hex4(s[2..6]) == Some(n);
  }

  lemma UnescapePlain(c: char, rest: string)
    requires !HasShortEscape(c) && (c as int) >= 0x20
    ensures Unescape(EscapeChar(c) + rest) == Prepend(c, Unescape(rest))
  {
    var s := EscapeChar(c) + rest;
    assert s[0] == c && s[1..] == rest;
  }

  lemma UnescapeEscapeChar(c: char, rest: string)
    ensures Unescape(EscapeChar(c) + rest) == Prepend(c, Unescape(rest))
  {
    if HasShortEscape(c) {
      UnescapeShortEscape(c, rest);
    } else if (c as int) < 0x20 {
      UnescapeHexEscape(c, rest);
    } else {
      UnescapePlain(c, rest);
    }
  }

  lemma {:induction false} UnescapeEscape(s: string)
    ensures Unescape(Escape(s)) == Some(s)
  {
    if s != [] {
      UnescapeEscapeChar(s[0], Escape(s[1..]));
      UnescapeEscape(s[1..]);
      assert [s[0]] + s[1..] == s;
    }
  }

  /** What `login` stores, the load effect reads back as the same record. */
  lemma DecodeEncode(u: User)
    ensures Decode(Encode(u)) == Some(u)
  {
    var s := Encode(u);
    assert s[..|Open|] == Open;
    assert s[|s| - |Close|..] == Close;
    assert s[|Open|..|s| - |Close|] == Escape(u.username);
    UnescapeEscape(u.username);
  }
}
