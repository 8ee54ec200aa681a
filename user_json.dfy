/**
 * `JSON.stringify` and `JSON.parse` for the signed-in user the auth slice
 * keeps in local storage: `null`, or an object with a `name` and an `email`
 * that are each `null` or a string.
 */
module UserJson {
  import opened Wrappers

  /** The user record passed to `setCredentials` (`displayName` and `email` may be null). */
  datatype User = User(name: Option<string>, email: Option<string>)

  function HexDigit(d: int): char
    requires 0 <= d < 16
  {
    "0123456789abcdef"[d]
  }

  function HexValue(h: char): Option<int> {
    if '0' <= h <= '9' then Some(h as int - '0' as int)
    else if 'a' <= h <= 'f' then Some(h as int - 'a' as int + 10)
    else if 'A' <= h <= 'F' then Some(h as int - 'A' as int + 10)
    else None
  }

  lemma HexRoundTrip(d: int)
    requires 0 <= d < 16
    ensures HexValue(HexDigit(d)) == Some(d)
  {
  }

  /** How `JSON.stringify` writes one character inside a string literal. */
  function EscapeChar(c: char): (e: string)
    ensures |e| >= 1 && e[0] != '"'
  {
    if c == '"' then "\\\""
    else if c == '\\' then "\\\\"
    else if c == '\U{0008}' then "\\b"
    else if c == '\U{000C}' then "\\f"
    else if c == '\n' then "\\n"
    else if c == '\r' then "\\r"
    else if c == '\t' then "\\t"
    else if c < ' ' then "\\u00" + [HexDigit(c as int / 16), HexDigit(c as int % 16)]
    else [c]
  }

  function Escape(s: string): string {
    if s == [] then [] else EscapeChar(s[0]) + Escape(s[1..])
  }

  /** A JSON string literal for `s`. */
  function Quote(s: string): string {
    "\"" + Escape(s) + "\""
  }

  function FieldText(v: Option<string>): string {
    match v
    case None => "null"
    case Some(s) => Quote(s)
  }

  /** `JSON.stringify(user)`. */
  function Stringify(u: Option<User>): (text: string)
    ensures text != ""
  {
    match u
    case None => "null"
    case Some(User(name, email)) =>
      "{\"name\":" + (FieldText(name) + (",\"email\":" + (FieldText(email) + "}")))
  }

  /** Reads one character of a string literal body: a plain character or an escape sequence. */
  function ParseChar(s: string): (r: Option<(char, nat)>)
    requires s != [] && s[0] != '"'
    ensures r.Some? ==> 1 <= r.value.1 <= |s|
  {
    if s[0] == '\\' then
      if |s| < 2 then None
      else if s[1] == '"' then Some(('"', 2))
      else if s[1] == '\\' then Some(('\\', 2))
      else if s[1] == '/' then Some(('/', 2))
      else if s[1] == 'b' then Some(('\U{0008}', 2))
      else if s[1] == 'f' then Some(('\U{000C}', 2))
      else if s[1] == 'n' then Some(('\n', 2))
      else if s[1] == 'r' then Some(('\r', 2))
      else if s[1] == 't' then Some(('\t', 2))
      else if s[1] == 'u' && |s| >= 6 then
        match (HexValue(s[2]), HexValue(s[3]), HexValue(s[4]), HexValue(s[5]))
        case (Some(a), Some(b), Some(c), Some(d)) =>
          var code := 4096 * a + 256 * b + 16 * c + d;
          if 0 <= code < 0xD800 || 0xE000 <= code < 0x11_0000 then Some((code as char, 6)) else None
        case _ => None
      else None
    else if s[0] < ' ' then None
    else Some((s[0], 1))
  }

  /** Reads a string literal body up to its closing quote: the text and what follows the quote. */
  function ParseString(s: string): Option<(string, string)>
    decreases |s|
  {
    if s == [] then None
    else if s[0] == '"' then Some(("", s[1..]))
    else
      match ParseChar(s)
      case None => None
      case Some((c, n)) =>
        match ParseString(s[n..])
        case None => None
        case Some((text, rest)) => Some(([c] + text, rest))
  }

  function ParseField(s: string): Option<(Option<string>, string)> {
    if |s| >= 4 && s[..4] == "null" then Some((None, s[4..]))
    else if s != [] && s[0] == '"' then
      match ParseString(s[1..])
      case None => None
      case Some((text, rest)) => Some((Some(text), rest))
    else None
  }

  function StripPrefix(s: string, prefix: string): Option<string> {
    if |prefix| <= |s| && s[..|prefix|] == prefix then Some(s[|prefix|..]) else None
  }

  /** `JSON.parse` of a stored user; `None` where `JSON.parse` would throw. */
  function ParseUser(s: string): Option<Option<User>> {
    if s == "null" then Some(None)
    else
      match StripPrefix(s, "{\"name\":")
      case None => None
      case Some(members) => ParseMembers(members)
  }

  /** The members of the user object after its opening `{"name":`. */
  function ParseMembers(s: string): Option<Option<User>> {
    match ParseField(s)
    case None => None
    case Some((name, rest)) =>
      match StripPrefix(rest, ",\"email\":")
      case None => None
      case Some(tail) => ParseEmail(name, tail)
  }

  /** The `email` member's value and the closing brace. */
  function ParseEmail(name: Option<string>, s: string): Option<Option<User>> {
    match ParseField(s)
    case None => None
    case Some((email, rest)) => if rest == "}" then Some(Some(User(name, email))) else None
  }

  lemma ParseEscapedChar(c: char, t: string)
    ensures ParseChar(EscapeChar(c) + t) == Some((c, |EscapeChar(c)|))
  {
    var e := EscapeChar(c);
    if c < ' ' && c != '\U{0008}' && c != '\U{000C}' && c != '\n' && c != '\r' && c != '\t' {
      var hi, lo := c as int / 16, c as int % 16;
      HexRoundTrip(hi);
      HexRoundTrip(lo);
      assert HexValue('0') == Some(0);
      var s := e + t;
      assert s[2] == '0' && s[3] == '0' && s[4] == HexDigit(hi) && s[5] == HexDigit(lo);
      assert 4096 * 0 + 256 * 0 + 16 * hi + lo == c as int;
    }
  }

  /** One character read off the front of a string literal body. */
  lemma ParseStringStep(e: string, t: string, c: char)
    requires e != [] && e[0] != '"' && ParseChar(e + t) == Some((c, |e|))
    ensures ParseString(t).Some? ==> ParseString(e + t) == Some(([c] + ParseString(t).value.0, ParseString(t).value.1))
  {
    assert (e + t)[0] == e[0];
    assert (e + t)[|e|..] == t;
  }

  /** Parsing an escaped string body followed by the closing quote gives the string back. */
  lemma {:induction false} ParseEscaped(x: string, rest: string)
    ensures ParseString(Escape(x) + "\"" + rest) == Some((x, rest))
  {
    if x == [] {
      assert Escape(x) + "\"" + rest == "\"" + rest;
    } else {
      var t := Escape(x[1..]) + "\"" + rest;
      EscapeFront(x, rest);
      ParseEscapedChar(x[0], t);
      ParseEscaped(x[1..], rest);
      ParseStringStep(EscapeChar(x[0]), t, x[0]);
      assert [x[0]] + x[1..] == x;
    }
  }

  lemma EscapeFront(x: string, rest: string)
    requires x != []
    ensures Escape(x) + "\"" + rest == EscapeChar(x[0]) + (Escape(x[1..]) + "\"" + rest)
  {
  }

  lemma ParseFieldText(v: Option<string>, rest: string)
    ensures ParseField(FieldText(v) + rest) == Some((v, rest))
  {
    var s := FieldText(v) + rest;
    match v
    case None =>
      assert s[..4] == "null" && s[4..] == rest;
    case Some(x) =>
      assert s == "\"" + (Escape(x) + "\"" + rest);
      assert s[0] == '"';
      assert !(|s| >= 4 && s[..4] == "null") by {
        if |s| >= 4 {
          assert s[..4][0] == '"';
        }
      }
      assert s[1..] == Escape(x) + "\"" + rest;
      ParseEscaped(x, rest);
  }

  lemma StripKnownPrefix(prefix: string, rest: string)
    ensures StripPrefix(prefix + rest, prefix) == Some(rest)
  {
    assert (prefix + rest)[..|prefix|] == prefix && (prefix + rest)[|prefix|..] == rest;
  }

  /** What the auth slice stores as the user is read back as the same user. */
  lemma ParseStringify(u: Option<User>)
    ensures ParseUser(Stringify(u)) == Some(u)
  {
    match u
    case None =>
    case Some(User(name, email)) =>
      var p1, p2 := "{\"name\":", ",\"email\":";
      var s3 := FieldText(email) + "}";
      var s1 := FieldText(name) + (p2 + s3);
      assert ParseEmail(name, s3) == Some(u) by {
        ParseFieldText(email, "}");
      }
      assert ParseMembers(s1) == Some(u) by {
        ParseFieldText(name, p2 + s3);
        StripKnownPrefix(p2, s3);
      }
      var s := Stringify(u);
      assert s == p1 + s1;
      assert |s| > |"null"|;
      StripKnownPrefix(p1, s1);
  }
}
