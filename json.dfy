/** The part of JSON that the session store carries: the serialised user record
    (`JSON.stringify(data.user)`) read back with `JSON.parse`. A stored user is either
    `null` or an object whose members are strings. */
module Json {
  import opened Wrappers

  datatype Json = JNull | JObject(members: seq<(string, string)>)

  /** `obj[key]` on a parsed object: with duplicate keys `JSON.parse` keeps the last one. */
  function Member(j: Json, key: string): (r: Option<string>)
    ensures r.Some? ==> j.JObject? && (key, r.value) in j.members
    ensures j.JObject? && (forall m :: m in j.members ==> m.0 != key) ==> r == None
    ensures j.JObject? && (exists m :: m in j.members && m.0 == key) ==> r.Some?
    ensures r.Some? ==> exists i :: 0 <= i < |j.members| && j.members[i] == (key, r.value)
                                   && forall k :: i < k < |j.members| ==> j.members[k].0 != key
  {
    if j.JNull? then None else Lookup(j.members, key)
  }

  function Lookup(ms: seq<(string, string)>, key: string): (r: Option<string>)
    ensures r.Some? ==> (key, r.value) in ms
    ensures (forall m :: m in ms ==> m.0 != key) ==> r == None
    ensures (exists m :: m in ms && m.0 == key) ==> r.Some?
    ensures r.Some? ==> exists i :: 0 <= i < |ms| && ms[i] == (key, r.value)
                                   && forall k :: i < k < |ms| ==> ms[k].0 != key
  {
    if ms == [] then None
    else if ms[|ms| - 1].0 == key then Some(ms[|ms| - 1].1)
    else Lookup(ms[..|ms| - 1], key)
  }

  function HexDigit(d: nat): char
    requires d < 16
  {
    if d < 10 then ('0' as int + d) as char else ('a' as int + d - 10) as char
  }

  function HexValue(c: char): (r: Option<nat>)
    ensures r.Some? ==> r.value < 16
  {
    if '0' <= c <= '9' then Some(c as int - '0' as int)
    else if 'a' <= c <= 'f' then Some(c as int - 'a' as int + 10)
    else if 'A' <= c <= 'F' then Some(c as int - 'A' as int + 10)
    else None
  }

  /** The value of four hexadecimal digits. */
  function HexQuad(t: string): (r: Option<nat>)
    requires |t| == 4
    ensures r.Some? ==> r.value < 0x10000
  {
    match (HexValue(t[0]), HexValue(t[1]), HexValue(t[2]), HexValue(t[3]))
    case (Some(a), Some(b), Some(c), Some(d)) => Some(((a * 16 + b) * 16 + c) * 16 + d)
    case _ => None
  }

  /** How `JSON.stringify` writes one character inside a string literal: the quote, the
      backslash and the control characters are escaped, everything else is written as is. */
  function EscapeChar(c: char): string
  {
    if c == '"' then ['\\', '"']
    else if c == '\\' then ['\\', '\\']
    else if c == '\U{8}' then ['\\', 'b']
    else if c == '\U{C}' then ['\\', 'f']
    else if c == '\n' then ['\\', 'n']
    else if c == '\r' then ['\\', 'r']
    else if c == '\t' then ['\\', 't']
    else if c < ' ' then ['\\', 'u', '0', '0', HexDigit(c as int / 16), HexDigit(c as int % 16)]
    else [c]
  }

  function EscapeString(s: string): string
  {
    if s == [] then [] else EscapeChar(s[0]) + EscapeString(s[1..])
  }

  /** A string literal. */
  function Quote(s: string): string
  {
    "\"" + EscapeString(s) + "\""
  }

  /** The character an escape sequence stands for, given the text after the backslash,
      and how many characters of that text the sequence uses. */
  function Unescape(t: string): (r: Option<(char, nat)>)
    ensures r.Some? ==> 1 <= r.value.1 <= |t|
  {
    if t == [] then None
    else if t[0] == '"' || t[0] == '\\' || t[0] == '/' then Some((t[0], 1))
    else if t[0] == 'b' then Some(('\U{8}', 1))
    else if t[0] == 'f' then Some(('\U{C}', 1))
    else if t[0] == 'n' then Some(('\n', 1))
    else if t[0] == 'r' then Some(('\r', 1))
    else if t[0] == 't' then Some(('\t', 1))
    else if t[0] == 'u' && |t| >= 5 then
      match HexQuad(t[1..5])
      case Some(code) =>
        if 0xD800 <= code < 0xE000 then None else Some((code as char, 5))
      case None => None
    else None
  }

  /** Puts a decoded character in front of the rest of a decoded literal. */
  function Prepend(c: char, r: Option<(string, string)>): Option<(string, string)>
  {
    match r
    case None => None
    case Some((s, rest)) => Some(([c] + s, rest))
  }

  /** Reads the body of a string literal up to and including its closing quote; returns the
      string and the text after the quote. */
  function DecodeString(t: string): (r: Option<(string, string)>)
    ensures r.Some? ==> |r.value.1| < |t|
    decreases |t|
  {
    if t == [] then None
    else if t[0] == '"' then Some(("", t[1..]))
    else if t[0] == '\\' then
      match Unescape(t[1..])
      case None => None
      case Some((c, n)) => Prepend(c, DecodeString(t[1 + n..]))
    else if t[0] < ' ' then None
    else Prepend(t[0], DecodeString(t[1..]))
  }

  function EncodeMember(m: (string, string)): string
  {
    Quote(m.0) + ":" + Quote(m.1)
  }

  function EncodeMembers(ms: seq<(string, string)>): string
  {
    if ms == [] then ""
    else if |ms| == 1 then EncodeMember(ms[0])
    else EncodeMember(ms[0]) + "," + EncodeMembers(ms[1..])
  }

  /** `JSON.stringify` of a stored user. */
  function Encode(j: Json): string
  {
    match j
    case JNull => "null"
    case JObject(ms) => "{" + EncodeMembers(ms) + "}"
  }

  /** Reads `"key":"value"` and returns the member and the text after it. */
  function DecodeMember(t: string): (r: Option<((string, string), string)>)
    ensures r.Some? ==> |r.value.1| < |t|
  {
    if t == [] || t[0] != '"' then None
    else
      match DecodeString(t[1..])
      case None => None
      case Some((k, r1)) => DecodeValue(k, r1)
  }

  /** Reads the `:"value"` part of a member whose key `k` has been read. */
  function DecodeValue(k: string, t: string): (r: Option<((string, string), string)>)
    ensures r.Some? ==> |r.value.1| < |t|
  {
    if |t| < 2 || t[0] != ':' || t[1] != '"' then None
    else
      match DecodeString(t[2..])
      case None => None
      case Some((v, r2)) => Some(((k, v), r2))
  }

  /** Reads one or more members separated by commas, through the closing brace. */
  function DecodeMembers(t: string): (r: Option<(seq<(string, string)>, string)>)
    ensures r.Some? ==> |r.value.1| < |t|
    decreases |t|
  {
    match DecodeMember(t)
    case None => None
    case Some((m, r)) =>
      if r == [] then None
      else if r[0] == '}' then Some(([m], r[1..]))
      else if r[0] == ',' then
        match DecodeMembers(r[1..])
        case None => None
        case Some((ms, r2)) => Some(([m] + ms, r2))
      else None
  }

  /** `JSON.parse` on stored text; `None` is the SyntaxError it throws on anything else. */
  function Decode(t: string): Option<Json>
  {
    if t == "null" then Some(JNull)
    else if |t| >= 2 && t[0] == '{' then
      if t[1] == '}' then (if |t| == 2 then Some(JObject([])) else None)
      else
        match DecodeMembers(t[1..])
        case Some((ms, rest)) => if rest == [] then Some(JObject(ms)) else None
        case None => None
    else None
  }

  lemma HexRoundTrip(d: nat)
    requires d < 16
    ensures HexValue(HexDigit(d)) == Some(d)
  {
  }

  /** An escaped character reads back as itself, and it never ends a literal early. */
  lemma UnescapeEscape(c: char, tail: string)
    ensures EscapeChar(c) == [c] ==> c != '"' && c != '\\' && c >= ' '
    ensures EscapeChar(c) != [c] ==>
              |EscapeChar(c)| >= 2 && EscapeChar(c)[0] == '\\'
              && Unescape(EscapeChar(c)[1..] + tail) == Some((c, |EscapeChar(c)| - 1))
  {
    var e := EscapeChar(c);
    if c < ' ' && c != '\U{8}' && c != '\U{C}' && c != '\n' && c != '\r' && c != '\t' {
      var hi, lo := c as int / 16, c as int % 16;
      HexRoundTrip(hi);
      HexRoundTrip(lo);
      var t := e[1..] + tail;
      assert t[1..5] == ['0', '0', HexDigit(hi), HexDigit(lo)];
      assert HexQuad(t[1..5]) == Some(c as int);
    }
  }

  /** One escaped character in front of `tail` decodes to that character in front of
      whatever `tail` decodes to. */
  lemma DecodeStep(c: char, tail: string)
    ensures DecodeString(EscapeChar(c) + tail) == Prepend(c, DecodeString(tail))
  {
    var e := EscapeChar(c);
    var t := e + tail;
    UnescapeEscape(c, tail);
    if e == [c] {
      assert t[0] == c && t[1..] == tail;
    } else {
      assert t[0] == '\\';
      assert t[1..] == e[1..] + tail;
      assert t[1 + (|e| - 1)..] == tail;
    }
  }

  /** Reading back an escaped string gives the string and leaves what follows the closing quote. */
  lemma {:induction false} DecodeStringRoundTrip(s: string, rest: string)
    ensures DecodeString(EscapeString(s) + "\"" + rest) == Some((s, rest))
  {
    if s == [] {
      assert EscapeString(s) + "\"" + rest == "\"" + rest;
    } else {
      var tail := EscapeString(s[1..]) + "\"" + rest;
      DecodeStringRoundTrip(s[1..], rest);
      assert EscapeString(s) + "\"" + rest == EscapeChar(s[0]) + tail;
      DecodeStep(s[0], tail);
      assert [s[0]] + s[1..] == s;
    }
  }

  /** A quoted string followed by `tail`, split after the opening quote. */
  lemma QuoteThen(s: string, tail: string)
    ensures Quote(s) + tail == "\"" + (EscapeString(s) + "\"" + tail)
    ensures (Quote(s) + tail)[0] == '"'
    ensures (Quote(s) + tail)[1..] == EscapeString(s) + "\"" + tail
  {
  }

  lemma DecodeValueRoundTrip(k: string, v: string, rest: string)
    ensures DecodeValue(k, ":" + Quote(v) + rest) == Some(((k, v), rest))
  {
    var t := ":" + Quote(v) + rest;
    assert t[2..] == EscapeString(v) + "\"" + rest;
    DecodeStringRoundTrip(v, rest);
  }

  lemma DecodeMemberRoundTrip(m: (string, string), rest: string)
    ensures DecodeMember(EncodeMember(m) + rest) == Some((m, rest))
  {
    var r1 := ":" + Quote(m.1) + rest;
    assert EncodeMember(m) + rest == Quote(m.0) + r1;
    QuoteThen(m.0, r1);
    DecodeStringRoundTrip(m.0, r1);
    DecodeValueRoundTrip(m.0, m.1, rest);
  }

  lemma DecodeLastMember(m: (string, string), rest: string)
    ensures DecodeMembers(EncodeMember(m) + "}" + rest) == Some(([m], rest))
  {
    var t := EncodeMember(m) + "}" + rest;
    assert t == EncodeMember(m) + ("}" + rest);
    DecodeMemberRoundTrip(m, "}" + rest);
  }

  lemma DecodeNextMember(m: (string, string), more: string)
    ensures DecodeMembers(EncodeMember(m) + "," + more)
            == match DecodeMembers(more)
               case None => None
               case Some((ms, r2)) => Some(([m] + ms, r2))
  {
    var t := EncodeMember(m) + "," + more;
    assert t == EncodeMember(m) + ("," + more);
    DecodeMemberRoundTrip(m, "," + more);
    assert ("," + more)[1..] == more;
  }

  lemma {:induction false} DecodeMembersRoundTrip(ms: seq<(string, string)>, rest: string)
    requires ms != []
    ensures DecodeMembers(EncodeMembers(ms) + "}" + rest) == Some((ms, rest))
    decreases |ms|
  {
    if |ms| == 1 {
      assert EncodeMembers(ms) == EncodeMember(ms[0]);
      DecodeLastMember(ms[0], rest);
      assert [ms[0]] == ms;
    } else {
      var more := EncodeMembers(ms[1..]) + "}" + rest;
      assert EncodeMembers(ms) + "}" + rest == EncodeMember(ms[0]) + "," + more;
      DecodeNextMember(ms[0], more);
      DecodeMembersRoundTrip(ms[1..], rest);
      assert [ms[0]] + ms[1..] == ms;
    }
  }

  /** What `JSON.stringify` writes, `JSON.parse` reads back unchanged. */
  lemma DecodeEncode(j: Json)
    ensures Decode(Encode(j)) == Some(j)
  {
    if j.JObject? && j.members != [] {
      var t := Encode(j);
      assert EncodeMembers(j.members)[0] == '"';
      assert t[1..] == EncodeMembers(j.members) + "}" + "";
      DecodeMembersRoundTrip(j.members, "");
    }
  }

  /** `JSON.stringify(undefined)` stored by `setItem` becomes the text "undefined", which
      `JSON.parse` rejects, and so does the empty text. */
  lemma DecodeRejects()
    ensures Decode("undefined") == None
    ensures Decode("") == None
  {
  }
}
