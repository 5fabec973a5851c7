/**
 * JSON arrays of strings (RFC 8259, sections 5 and 7), the storage format
 * of a CHOICE question's options: the writer Jackson uses by default and
 * the reader `readValue(json, Array<String>)` applies.
 *
 * The writer emits `["a","b"]` with no spaces; inside a string it escapes
 * the quotation mark, the backslash and the control characters (the five
 * with a short form as `\b \t \n \f \r`, the rest as `\u00XX` with
 * upper-case hex digits) and writes every other character as itself.
 *
 * The reader skips JSON whitespace, reads one array of strings and, as
 * Jackson does unless told to fail on trailing tokens, ignores whatever
 * follows the closing bracket.
 */
module JsonStrings {
  import opened Common

  const HEX: string := "0123456789ABCDEF"

  predicate IsJsonWhitespace(c: char)
  {
    c == ' ' || c == '\t' || c == '\n' || c == '\r'
  }

  // ---------------------------------------------------------------------
  // Writer
  // ---------------------------------------------------------------------

  /** The escaped form of one character inside a JSON string. */
  function EscapeChar(c: char): (e: string)
    ensures 1 <= |e| <= 6
    ensures |e| == 1 <==> (c != '"' && c != '\\' && c >= ' ')
    ensures |e| == 1 ==> e == [c]
    ensures |e| > 1 ==> e[0] == '\\'
  {
    if c == '"' then "\\\""
    else if c == '\\' then "\\\\"
    else if c == '\U{0008}' then "\\b"
    else if c == '\t' then "\\t"
    else if c == '\n' then "\\n"
    else if c == '\U{000C}' then "\\f"
    else if c == '\r' then "\\r"
    else if c < ' ' then "\\u00" + [HEX[c as int / 16], HEX[c as int % 16]]
    else [c]
  }

  function Escape(s: string): string
  {
    if s == [] then [] else EscapeChar(s[0]) + Escape(s[1..])
  }

  function EncodeItems(items: seq<string>): string
  {
    if items == [] then []
    else "\"" + Escape(items[0]) + "\"" + (if |items| == 1 then [] else "," + EncodeItems(items[1..]))
  }

  /** writeValueAsString of a list of strings. */
  function EncodeArray(items: seq<string>): (json: string)
    ensures |json| >= 2 && json[0] == '[' && json[|json| - 1] == ']'
  {
    "[" + EncodeItems(items) + "]"
  }

  // ---------------------------------------------------------------------
  // Reader
  // ---------------------------------------------------------------------

  function SkipWs(t: string): (r: string)
    ensures |r| <= |t|
    ensures r == [] || !IsJsonWhitespace(r[0])
  {
    if t != [] && IsJsonWhitespace(t[0]) then SkipWs(t[1..]) else t
  }

  function HexValue(c: char): (v: Option<nat>)
    ensures v.Some? ==> v.value < 16
  {
    if '0' <= c <= '9' then Some(c as int - '0' as int)
    else if 'A' <= c <= 'F' then Some(c as int - 'A' as int + 10)
    else if 'a' <= c <= 'f' then Some(c as int - 'a' as int + 10)
    else None
  }

  /**
   * The escape sequence at the head of `t` (which starts with a
   * backslash): the character it stands for and its length. A `\u`
   * escape of a surrogate half is refused, since a lone surrogate is not
   * a character here.
   */
  function Unescape(t: string): (r: Option<(char, nat)>)
    requires t != [] && t[0] == '\\'
    ensures r.Some? ==> 2 <= r.value.1 <= |t|
  {
    if |t| < 2 then None
    else if t[1] == '"' then Some(('"', 2))
    else if t[1] == '\\' then Some(('\\', 2))
    else if t[1] == '/' then Some(('/', 2))
    else if t[1] == 'b' then Some(('\U{0008}', 2))
    else if t[1] == 'f' then Some(('\U{000C}', 2))
    else if t[1] == 'n' then Some(('\n', 2))
    else if t[1] == 'r' then Some(('\r', 2))
    else if t[1] == 't' then Some(('\t', 2))
    else if t[1] == 'u' && |t| >= 6 then
      var h := [HexValue(t[2]), HexValue(t[3]), HexValue(t[4]), HexValue(t[5])];
      if h[0].None? || h[1].None? || h[2].None? || h[3].None? then None
      else
        var v := h[0].value * 4096 + h[1].value * 256 + h[2].value * 16 + h[3].value;
        if 0xD800 <= v < 0xE000 then None else Some((v as char, 6))
    else None
  }

  /**
   * The body of a string literal, after its opening quotation mark: the
   * decoded characters and what follows the closing quotation mark. An
   * unescaped control character, a bad escape or a missing closing mark
   * is an error.
   */
  function ParseChars(t: string): (r: Option<(string, string)>)
    ensures r.Some? ==> |r.value.1| < |t|
    decreases |t|
  {
    if t == [] then None
    else if t[0] == '"' then Some(([], t[1..]))
    else if t[0] == '\\' then
      match Unescape(t)
      case None => None
      case Some((c, n)) =>
        match ParseChars(t[n..])
        case None => None
        case Some((body, rest)) => Some(([c] + body, rest))
    else if t[0] < ' ' then None
    else
      match ParseChars(t[1..])
      case None => None
      case Some((body, rest)) => Some(([t[0]] + body, rest))
  }

  /** One or more string elements and the closing bracket. */
  function ParseElements(u: string): (r: Option<seq<string>>)
    decreases |u|
  {
    if u == [] || u[0] != '"' then None
    else
      match ParseChars(u[1..])
      case None => None
      case Some((item, rest)) =>
        var v := SkipWs(rest);
        if v == [] then None
        else if v[0] == ']' then Some([item])
        else if v[0] == ',' then
          match ParseElements(SkipWs(v[1..]))
          case None => None
          case Some(items) => Some([item] + items)
        else None
  }

  /** readValue(json, Array<String>) for arrays whose elements are strings. */
  function ParseArray(s: string): (r: Option<seq<string>>)
  {
    var t := SkipWs(s);
    if t == [] || t[0] != '[' then None
    else
      var u := SkipWs(t[1..]);
      if u != [] && u[0] == ']' then Some([])
      else ParseElements(u)
  }

  // ---------------------------------------------------------------------
  // Round trip
  // ---------------------------------------------------------------------

  lemma {:induction false} HexDigitValue(d: nat)
    requires d < 16
    ensures HexValue(HEX[d]) == Some(d)
  {
  }

  /** Reading back one escaped character gives the character. */
  lemma {:induction false} UnescapeEscape(c: char, rest: string)
    requires |EscapeChar(c)| > 1
    ensures Unescape(EscapeChar(c) + rest) == Some((c, |EscapeChar(c)|))
  {
    var t := EscapeChar(c) + rest;
    if c < ' ' && c != '\U{0008}' && c != '\t' && c != '\n' && c != '\U{000C}' && c != '\r' {
      var hi, lo := c as int / 16, c as int % 16;
      HexDigitValue(hi);
      HexDigitValue(lo);
      assert t[2] == '0' && t[3] == '0' && t[4] == HEX[hi] && t[5] == HEX[lo];
      assert 0 * 4096 + 0 * 256 + hi * 16 + lo == c as int;
    }
  }

  /** The body of an escaped string reads back as the string, up to its closing mark. */
  lemma {:induction false} ParseCharsEscape(s: string, rest: string)
    ensures ParseChars(Escape(s) + "\"" + rest) == Some((s, rest))
    decreases |s|
  {
    if s == [] {
      assert Escape(s) + "\"" + rest == "\"" + rest;
    } else {
      var e := EscapeChar(s[0]);
      var tail := Escape(s[1..]) + "\"" + rest;
      var t := Escape(s) + "\"" + rest;
      assert t == e + tail;
      ParseCharsEscape(s[1..], rest);
      if |e| == 1 {
        assert t[1..] == tail;
      } else {
        UnescapeEscape(s[0], tail);
        assert t[|e|..] == tail;
      }
      assert [s[0]] + s[1..] == s;
    }
  }

  /** One string element followed by a closing bracket or a comma. */
  lemma {:induction false} ParseElementsStep(item: string, tail: string)
    requires tail != [] && (tail[0] == ']' || tail[0] == ',')
    ensures tail[0] == ']' ==> ParseElements(['"'] + Escape(item) + ['"'] + tail) == Some([item])
    ensures tail[0] == ',' ==>
              ParseElements(['"'] + Escape(item) + ['"'] + tail)
              == match ParseElements(SkipWs(tail[1..]))
                 case None => None
                 case Some(items) => Some([item] + items)
  {
    var u := ['"'] + Escape(item) + ['"'] + tail;
    assert u[1..] == Escape(item) + "\"" + tail;
    ParseCharsEscape(item, tail);
    assert SkipWs(tail) == tail;
  }

  /** The first element of an encoded list, and what follows it. */
  lemma {:induction false} EncodeItemsHead(items: seq<string>, rest: string)
    requires items != []
    ensures EncodeItems(items) + "]" + rest
            == ['"'] + Escape(items[0]) + ['"']
               + (if |items| == 1 then "]" + rest else [','] + (EncodeItems(items[1..]) + "]" + rest))
  {
    var quoted := ['"'] + Escape(items[0]) + ['"'];
    if |items| == 1 {
      assert EncodeItems(items) == quoted + [];
      Append3(quoted, "]", rest);
    } else {
      var tail := EncodeItems(items[1..]);
      assert EncodeItems(items) == quoted + ([','] + tail);
      Append4(quoted, [','] + tail, "]", rest);
      Append4([','], tail, "]", rest);
    }
  }

  lemma {:induction false} Append3(a: string, b: string, c: string)
    ensures a + b + c == a + (b + c)
  {
  }

  lemma {:induction false} Append4(a: string, b: string, c: string, d: string)
    ensures a + b + c + d == a + (b + c + d)
  {
    assert a + b + c == a + (b + c);
  }

  /** A one-element list reads back. */
  lemma {:induction false} ParseElementsLast(items: seq<string>, rest: string)
    requires |items| == 1
    ensures ParseElements(EncodeItems(items) + "]" + rest) == Some(items)
  {
    EncodeItemsHead(items, rest);
    ParseElementsStep(items[0], "]" + rest);
    assert items == [items[0]];
  }

  /** A longer list reads back if its tail does. */
  lemma {:induction false} ParseElementsCons(items: seq<string>, rest: string)
    requires |items| > 1
    requires ParseElements(EncodeItems(items[1..]) + "]" + rest) == Some(items[1..])
    ensures ParseElements(EncodeItems(items) + "]" + rest) == Some(items)
  {
    EncodeItemsHead(items, rest);
    var next := EncodeItems(items[1..]) + "]" + rest;
    ParseElementsStep(items[0], [','] + next);
    assert ([','] + next)[1..] == next;
    assert SkipWs(next) == next by {
      EncodeItemsHead(items[1..], rest);
    }
    assert [items[0]] + items[1..] == items;
  }

  lemma {:induction false} ParseElementsEncode(items: seq<string>, rest: string)
    requires items != []
    ensures ParseElements(EncodeItems(items) + "]" + rest) == Some(items)
    decreases |items|
  {
    if |items| == 1 {
      ParseElementsLast(items, rest);
    } else {
      ParseElementsEncode(items[1..], rest);
      ParseElementsCons(items, rest);
    }
  }

  /** An encoded array: no whitespace to skip, so reading starts right after the bracket. */
  lemma {:induction false} ParseArrayEncoded(items: seq<string>)
    ensures ParseArray(EncodeArray(items))
            == (if items == [] then Some([]) else ParseElements(EncodeItems(items) + "]" + []))
  {
    var json := EncodeArray(items);
    var body := EncodeItems(items) + "]" + [];
    assert json == ['['] + body;
    assert SkipWs(json) == json;
    assert json[1..] == body;
    if items != [] {
      EncodeItemsHead(items, []);
    }
    assert SkipWs(body) == body;
  }

  /** Whatever list the writer encodes, the reader returns unchanged. */
  lemma {:induction false} ParseEncode(items: seq<string>)
    ensures ParseArray(EncodeArray(items)) == Some(items)
  {
    ParseArrayEncoded(items);
    if items != [] {
      ParseElementsEncode(items, []);
    }
  }
}
