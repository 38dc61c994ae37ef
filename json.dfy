/**
 * The JSON text of the OAuth `state` payload `{ prevPath: <path> }`: how
 * `JSON.stringify` writes it, and a decoder for that shape standing in for
 * `JSON.parse(...).prevPath`.
 */
module Json {
  import opened Wrappers

  /** A lower-case hexadecimal digit, as JSON.stringify writes them. */
  function HexDigit(v: int): (c: char)
    requires 0 <= v < 16
    ensures HexValue(c) == Some(v)
  {
    if v < 10 then (v + '0' as int) as char else (v - 10 + 'a' as int) as char
  }

  /** The value of a hexadecimal digit of either case. */
  function HexValue(c: char): (r: Option<int>)
    ensures r.Some? ==> 0 <= r.value < 16
  {
    if '0' <= c <= '9' then Some(c as int - '0' as int)
    else if 'a' <= c <= 'f' then Some(c as int - 'a' as int + 10)
    else if 'A' <= c <= 'F' then Some(c as int - 'A' as int + 10)
    else None
  }

  /** The value of four hexadecimal digits (the XXXX of a \uXXXX escape). */
  function Hex4(h: string): (r: Option<int>)
    requires |h| == 4
    ensures r.Some? ==> 0 <= r.value < 0x1_0000
  {
    match (HexValue(h[0]), HexValue(h[1]), HexValue(h[2]), HexValue(h[3]))
    case (Some(a), Some(b), Some(c), Some(d)) => Some(((a * 16 + b) * 16 + c) * 16 + d)
    case _ => None
  }

  /**
   * How JSON.stringify writes one character inside a string literal: the
   * quote and backslash are escaped, the five control characters that have
   * a short escape use it, the other control characters below U+0020 become
   * \u00xx, and every other character stands for itself.
   */
  function EscapeChar(c: char): (e: string)
    ensures forall i :: 0 <= i < |e| ==> e[i] as int >= 0x20
    ensures e == [c] <==> !(c == '"' || c == '\\' || c as int < 0x20)
    ensures e != [c] ==> |e| >= 2 && e[0] == '\\'
  {
    if c == '"' then "\\\""
    else if c == '\\' then "\\\\"
    else if c as int == 0x08 then "\\b"
    else if c as int == 0x09 then "\\t"
    else if c as int == 0x0A then "\\n"
    else if c as int == 0x0C then "\\f"
    else if c as int == 0x0D then "\\r"
    else if c as int < 0x20 then "\\u00" + [HexDigit(c as int / 16), HexDigit(c as int % 16)]
    else [c]
  }

  /** The body of the JSON string literal for `s` (without the surrounding quotes). */
  function Escape(s: string): (e: string)
    ensures forall i :: 0 <= i < |e| ==> e[i] as int >= 0x20
    ensures |e| >= |s|
  {
    if s == [] then "" else EscapeChar(s[0]) + Escape(s[1..])
  }

  /** The character a two-character escape \e stands for. */
  function ShortUnescape(e: char): Option<char>
  {
    if e == '"' || e == '\\' || e == '/' then Some(e)
    else if e == 'b' then Some(0x08 as char)
    else if e == 't' then Some(0x09 as char)
    else if e == 'n' then Some(0x0A as char)
    else if e == 'f' then Some(0x0C as char)
    else if e == 'r' then Some(0x0D as char)
    else None
  }

  function Prepend(c: char, rest: Option<string>): Option<string>
  {
    match rest
    case Some(t) => Some([c] + t)
    case None => None
  }

  /**
   * Decodes the body of a JSON string literal; absent when the body holds a
   * bare quote or control character, an unknown escape, or a \u escape of a
   * UTF-16 surrogate.
   */
  function Unescape(s: string): (r: Option<string>)
    ensures r.Some? ==> |r.value| <= |s|
    decreases |s|
  {
    if s == [] then Some("")
    else if s[0] == '\\' then
      if |s| < 2 then None
      else if s[1] == 'u' then
        if |s| < 6 then None
        else match Hex4(s[2..6])
          case Some(v) =>
            if v < 0xD800 || 0xE000 <= v then Prepend(v as char, Unescape(s[6..])) else None
          case None => None
      else match ShortUnescape(s[1])
        case Some(c) => Prepend(c, Unescape(s[2..]))
        case None => None
    else if s[0] == '"' || s[0] as int < 0x20 then None
    else Prepend(s[0], Unescape(s[1..]))
  }

  /** Decoding the escape of one character yields that character first. */
  lemma UnescapeChar(c: char, rest: string)
    ensures Unescape(EscapeChar(c) + rest) == Prepend(c, Unescape(rest))
  {
    var s := EscapeChar(c) + rest;
    if c == '"' || c == '\\' || c as int in {0x08, 0x09, 0x0A, 0x0C, 0x0D} {
      assert s[0] == '\\' && s[2..] == rest;
    } else if c as int < 0x20 {
      var v := c as int;
      assert s[0] == '\\' && s[1] == 'u' && s[6..] == rest;
      assert s[2..6] == ['0', '0', HexDigit(v / 16), HexDigit(v % 16)];
      assert Hex4(s[2..6]) == Some(v);
      assert v as char == c;
    } else {
      assert s[0] == c && s[1..] == rest;
    }
  }

  /** Escaping and then unescaping gives back the original string. */
  lemma {:induction false} EscapeRoundTrip(s: string)
    ensures Unescape(Escape(s)) == Some(s)
  {
    if s != [] {
      UnescapeChar(s[0], Escape(s[1..]));
      EscapeRoundTrip(s[1..]);
      assert [s[0]] + s[1..] == s;
    }
  }

  /** The text `{"prevPath":"` that opens the state payload. */
  const StateOpening: string := "{\"prevPath\":\""

  /** The text `"}` that closes the state payload. */
  const StateClosing: string := "\"}"

  /** `JSON.stringify({ prevPath: path })`. */
  function StateJson(path: string): (t: string)
    ensures |t| >= |StateOpening| + |StateClosing|
    ensures t[..|StateOpening|] == StateOpening && t[|t| - |StateClosing|..] == StateClosing
    ensures forall i :: 0 <= i < |t| ==> t[i] as int >= 0x20
  {
    StateOpening + Escape(path) + StateClosing
  }

  /**
   * The `prevPath` of a state payload of exactly the shape StateJson writes;
   * absent for any other text.
   */
  function DecodeState(text: string): (r: Option<string>)
    ensures r.Some? ==> |text| >= |StateOpening| + |StateClosing| + |r.value|
    ensures r.Some? ==> text[..|StateOpening|] == StateOpening
                        && text[|text| - |StateClosing|..] == StateClosing
  {
    var n := |StateOpening|;
    if |text| >= n + 2 && text[..n] == StateOpening && text[|text| - 2..] == StateClosing
    then Unescape(text[n..|text| - 2])
    else None
  }

  /** Decoding the payload written for a path gives back that path. */
  lemma StateRoundTrip(path: string)
    ensures DecodeState(StateJson(path)) == Some(path)
  {
    var t := StateJson(path);
    var n := |StateOpening|;
    assert t[..n] == StateOpening;
    assert t[|t| - 2..] == StateClosing;
    assert t[n..|t| - 2] == Escape(path);
    EscapeRoundTrip(path);
  }
}
