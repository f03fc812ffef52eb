/**
 * The wire form of the editor's tag list: JSON.stringify of an array of strings, and a
 * reference reader for exactly that text, so that the encoding can be shown lossless.
 */
module JsonTags {
  import opened Wrappers
  import opened Seqs

  function Hex(d: nat): (c: char)
    requires d < 16
  {
    "0123456789abcdef"[d]
  }

  /** How JSON.stringify writes one code point inside a string literal. */
  function EscapeChar(c: char): string {
    if c == '"' then "\\\""
    else if c == '\\' then "\\\\"
    else if c == '\U{8}' then "\\b"
    else if c == '\t' then "\\t"
    else if c == '\n' then "\\n"
    else if c == '\U{C}' then "\\f"
    else if c == '\r' then "\\r"
    else if (c as int) < 0x20 then "\\u00" + [Hex(c as int / 16), Hex(c as int % 16)]
    else [c]
  }

  function EscapeString(s: string): string {
    if s == [] then [] else EscapeChar(s[0]) + EscapeString(s[1..])
  }

  /** A JSON string literal. */
  function Quote(s: string): string {
    "\"" + EscapeString(s) + "\""
  }

  /** The comma-separated string literals of an array. */
  function Elements(tags: seq<string>): string {
    if |tags| == 0 then ""
    else if |tags| == 1 then Quote(tags[0])
    else Quote(tags[0]) + "," + Elements(tags[1..])
  }

  /** JSON.stringify(tags) for an array of strings: no white space between the elements. */
  function EncodeTags(tags: seq<string>): (r: string)
    ensures |r| >= 2 && r[0] == '[' && r[|r| - 1] == ']'
  {
    "[" + Elements(tags) + "]"
  }

  // ---------------------------------------------------------------- reading back

  function HexValue(c: char): (r: Option<nat>)
    ensures r.Some? ==> r.value < 16
  {
    if '0' <= c <= '9' then Some(c as int - '0' as int)
    else if 'a' <= c <= 'f' then Some(c as int - 'a' as int + 10)
    else if 'A' <= c <= 'F' then Some(c as int - 'A' as int + 10)
    else None
  }

  /** Reads one escape sequence; `s` is the text after the backslash. */
  function Unescape(s: string): (r: Option<(char, string)>)
    ensures r.Some? ==> |r.value.1| < |s|
  {
    if |s| == 0 then None
    else if s[0] == '"' then Some(('"', s[1..]))
    else if s[0] == '\\' then Some(('\\', s[1..]))
    else if s[0] == '/' then Some(('/', s[1..]))
    else if s[0] == 'b' then Some(('\U{8}', s[1..]))
    else if s[0] == 't' then Some(('\t', s[1..]))
    else if s[0] == 'n' then Some(('\n', s[1..]))
    else if s[0] == 'f' then Some(('\U{C}', s[1..]))
    else if s[0] == 'r' then Some(('\r', s[1..]))
    else if s[0] == 'u' && |s| >= 5 then
      match (HexValue(s[1]), HexValue(s[2]), HexValue(s[3]), HexValue(s[4]))
      case (Some(a), Some(b), Some(c), Some(d)) =>
        var v := ((a * 16 + b) * 16 + c) * 16 + d;
        if v < 0xD800 || 0xE000 <= v then Some((v as char, s[5..])) else None
      case _ => None
    else None
  }

  /** Puts `c` in front of the text of a successful read. */
  function Prepend(c: char, r: Option<(string, string)>): Option<(string, string)> {
    match r
    case None => None
    case Some((t, after)) => Some(([c] + t, after))
  }

  /**
   * Reads the inside of a string literal up to its closing quote; `s` is the text after
   * the opening quote. Gives the decoded text and what follows the closing quote.
   */
  function ParseStringBody(s: string): (r: Option<(string, string)>)
    ensures r.Some? ==> |r.value.1| < |s|
    decreases |s|
  {
    if |s| == 0 then None
    else if s[0] == '"' then Some(("", s[1..]))
    else if s[0] == '\\' then
      match Unescape(s[1..])
      case None => None
      case Some((c, rest)) => Prepend(c, ParseStringBody(rest))
    else if (s[0] as int) < 0x20 then None
    else Prepend(s[0], ParseStringBody(s[1..]))
  }

  /** Reads `"…","…",…]`: one or more string literals and the closing bracket. */
  function ParseElements(s: string): (r: Option<seq<string>>)
    decreases |s|
  {
    if |s| == 0 || s[0] != '"' then None
    else
      match ParseStringBody(s[1..])
      case None => None
      case Some((t, rest)) =>
        if rest == "]" then Some([t])
        else if |rest| > 0 && rest[0] == ',' then
          match ParseElements(rest[1..])
          case None => None
          case Some(ts) => Some([t] + ts)
        else None
  }

  /** Reads a JSON array of strings written without white space. */
  function DecodeTags(s: string): Option<seq<string>> {
    if s == "[]" then Some([])
    else if |s| > 0 && s[0] == '[' then ParseElements(s[1..])
    else None
  }

  lemma HexRoundTrip(d: nat)
    requires d < 16
    ensures HexValue(Hex(d)) == Some(d)
  {
  }

  /** The `\\u00xx` escape of a control character reads back as that character. */
  lemma ControlEscapeRead(c: char, rest: string)
    requires (c as int) < 0x20
    requires c != '\U{8}' && c != '\t' && c != '\n' && c != '\U{C}' && c != '\r'
    ensures (EscapeChar(c) + rest)[0] == '\\'
    ensures Unescape((EscapeChar(c) + rest)[1..]) == Some((c, rest))
  {
    var n := c as int;
    var u := (EscapeChar(c) + rest)[1..];
    HexRoundTrip(n / 16);
    HexRoundTrip(n % 16);
    assert u[0] == 'u' && u[1] == '0' && u[2] == '0';
    assert u[5..] == rest;
  }

  /** Reading the escape of one code point gives that code point back. */
  lemma {:induction false} EscapeCharRead(c: char, rest: string)
    ensures ParseStringBody(EscapeChar(c) + rest) == Prepend(c, ParseStringBody(rest))
  {
    var s := EscapeChar(c) + rest;
    if c == '"' || c == '\\' || c == '\U{8}' || c == '\t' || c == '\n' || c == '\U{C}' || c == '\r' {
      assert |EscapeChar(c)| == 2 && s[0] == '\\';
      assert s[1..][1..] == rest;
      assert Unescape(s[1..]) == Some((c, rest));
    } else if (c as int) < 0x20 {
      ControlEscapeRead(c, rest);
    } else {
      assert s[0] == c && s[1..] == rest;
    }
  }

  /** The escaped text followed by a closing quote reads back as the text. */
  lemma {:induction false} EscapeStringRead(t: string, rest: string)
    ensures ParseStringBody(EscapeString(t) + "\"" + rest) == Some((t, rest))
    decreases |t|
  {
    if t == [] {
      assert EscapeString(t) + "\"" + rest == "\"" + rest;
    } else {
      var tail := EscapeString(t[1..]) + "\"" + rest;
      assert EscapeString(t) + "\"" + rest == EscapeChar(t[0]) + tail;
      EscapeCharRead(t[0], tail);
      EscapeStringRead(t[1..], rest);
      assert [t[0]] + t[1..] == t;
    }
  }

  /** A string literal read by ParseStringBody, with what follows it left over. */
  lemma QuoteRead(t: string, more: string)
    ensures (Quote(t) + more)[0] == '"'
    ensures ParseStringBody((Quote(t) + more)[1..]) == Some((t, more))
  {
    var s := Quote(t) + more;
    assert s[1..] == EscapeString(t) + "\"" + more;
    EscapeStringRead(t, more);
  }

  /** The last string literal of an array, before the closing bracket. */
  lemma LastElementRead(t: string)
    ensures ParseElements(Quote(t) + "]") == Some([t])
  {
    QuoteRead(t, "]");
  }

  /** A string literal followed by a comma and the rest of the array. */
  lemma {:induction false} NextElementRead(t: string, tail: string, ts: seq<string>)
    requires ParseElements(tail) == Some(ts)
    ensures ParseElements(Quote(t) + ("," + tail)) == Some([t] + ts)
  {
    var more := "," + tail;
    QuoteRead(t, more);
    assert more[0] == ',' && more != "]";
    assert more[1..] == tail;
  }

  lemma {:induction false} ElementsRead(tags: seq<string>)
    requires |tags| > 0
    ensures ParseElements(Elements(tags) + "]") == Some(tags)
  {
    if |tags| == 1 {
      assert Elements(tags) == Quote(tags[0]);
      LastElementRead(tags[0]);
      assert [tags[0]] == tags;
    } else {
      var q, e := Quote(tags[0]), Elements(tags[1..]);
      assert Elements(tags) == q + "," + e;
      AppendAssoc(q, ",", e);
      AppendAssoc(q, "," + e, "]");
      AppendAssoc(",", e, "]");
      assert Elements(tags) + "]" == q + ("," + (e + "]"));
      ElementsRead(tags[1..]);
      NextElementRead(tags[0], e + "]", tags[1..]);
      assert [tags[0]] + tags[1..] == tags;
    }
  }

  /** A non-empty element list starts with the quote of its first literal. */
  lemma ElementsStart(tags: seq<string>)
    requires |tags| > 0
    ensures |Elements(tags)| > 0 && Elements(tags)[0] == '"'
  {
    assert Quote(tags[0])[0] == '"';
  }

  /** The tag list survives its JSON encoding: reading the text back gives the same list. */
  lemma {:induction false} TagsRoundTrip(tags: seq<string>)
    ensures DecodeTags(EncodeTags(tags)) == Some(tags)
  {
    var s := EncodeTags(tags);
    if tags == [] {
      assert s == "[]";
    } else {
      var e := Elements(tags);
      ElementsStart(tags);
      AppendAssoc("[", e, "]");
      assert s == "[" + (e + "]");
      assert s[1] == '"' && s != "[]";
      assert s[1..] == e + "]";
      ElementsRead(tags);
    }
  }
}
