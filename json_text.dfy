/**
 * The hand-rolled JSON text of the API base classes (`ApiServlet` in the
 * servlet tree, `ApiHandler` in the embedded-server tree, which carry the same
 * helpers): `escapeJson`, `toJson`, `successResponse` and `errorResponse`.
 *
 * `escapeJson` is modelled as written, a chain of five `String.replace` calls,
 * and proved equal to a per-character escape. That reference definition is
 * then checked against a reader of JSON string bodies: the escaped text never
 * ends the string early, and reading its escapes back gives the original.
 */
module JsonText {
  import opened JavaText

  // ---------------------------------------------------------------------
  // escapeJson
  // ---------------------------------------------------------------------

  /** The replace chain of `escapeJson`: backslash first, then quote, LF, CR and TAB. */
  function ReplaceChain(s: string): string
  {
    Replace(Replace(Replace(Replace(Replace(s, '\\', "\\\\"), '"', "\\\""), '\n', "\\n"), '\r', "\\r"), '\t', "\\t")
  }

  /** `escapeJson(str)`: null gives the empty text; otherwise the replace chain. The
      result never holds a raw line feed, carriage return or tab. */
  function EscapeJson(str: Option<string>): (r: string)
    ensures str.None? ==> r == ""
    ensures '\n' !in r && '\r' !in r && '\t' !in r
  {
    if str.None? then "" else ReplaceChain(str.value)
  }

  /** The reference escape of one character. */
  function EscapeChar(c: char): (r: string)
    ensures 1 <= |r| <= 2
  {
    if c == '\\' then "\\\\"
    else if c == '"' then "\\\""
    else if c == '\n' then "\\n"
    else if c == '\r' then "\\r"
    else if c == '\t' then "\\t"
    else [c]
  }

  /** The reference escape of a text: each character escaped on its own. */
  function EscapeEach(s: string): string
  {
    if s == [] then [] else EscapeChar(s[0]) + EscapeEach(s[1..])
  }

  lemma {:induction false} ReplaceAppend(a: string, b: string, c: char, rep: string)
    ensures Replace(a + b, c, rep) == Replace(a, c, rep) + Replace(b, c, rep)
  {
    if a == [] {
      assert a + b == b;
    } else {
      assert (a + b)[0] == a[0];
      assert (a + b)[1..] == a[1..] + b;
      ReplaceAppend(a[1..], b, c, rep);
    }
  }

  lemma ReplaceOne(d: char, c: char, rep: string)
    ensures Replace([d], c, rep) == if d == c then rep else [d]
  {
    assert [d][1..] == [];
  }

  lemma ChainAppend(a: string, b: string)
    ensures ReplaceChain(a + b) == ReplaceChain(a) + ReplaceChain(b)
  {
    var a1, b1 := Replace(a, '\\', "\\\\"), Replace(b, '\\', "\\\\");
    ReplaceAppend(a, b, '\\', "\\\\");
    var a2, b2 := Replace(a1, '"', "\\\""), Replace(b1, '"', "\\\"");
    ReplaceAppend(a1, b1, '"', "\\\"");
    var a3, b3 := Replace(a2, '\n', "\\n"), Replace(b2, '\n', "\\n");
    ReplaceAppend(a2, b2, '\n', "\\n");
    var a4, b4 := Replace(a3, '\r', "\\r"), Replace(b3, '\r', "\\r");
    ReplaceAppend(a3, b3, '\r', "\\r");
    ReplaceAppend(a4, b4, '\t', "\\t");
  }

  /** Every character leaves the chain as its own escape: a backslash produced by an
      earlier replace is never escaped again by a later one. */
  lemma ChainOfChar(c: char)
    ensures ReplaceChain([c]) == EscapeChar(c)
  {
    ReplaceOne(c, '\\', "\\\\");
    if c == '\\' {
      ReplaceAbsent("\\\\", '"', "\\\"");
      ReplaceAbsent("\\\\", '\n', "\\n");
      ReplaceAbsent("\\\\", '\r', "\\r");
      ReplaceAbsent("\\\\", '\t', "\\t");
    } else {
      ReplaceOne(c, '"', "\\\"");
      if c == '"' {
        ReplaceAbsent("\\\"", '\n', "\\n");
        ReplaceAbsent("\\\"", '\r', "\\r");
        ReplaceAbsent("\\\"", '\t', "\\t");
      } else {
        ReplaceOne(c, '\n', "\\n");
        if c == '\n' {
          ReplaceAbsent("\\n", '\r', "\\r");
          ReplaceAbsent("\\n", '\t', "\\t");
        } else {
          ReplaceOne(c, '\r', "\\r");
          if c == '\r' {
            ReplaceAbsent("\\r", '\t', "\\t");
          } else {
            ReplaceOne(c, '\t', "\\t");
          }
        }
      }
    }
  }

  /** `escapeJson` escapes character by character: each '\' becomes exactly `\\`,
      each '"' exactly `\"`, LF, CR and TAB become `\n`, `\r`, `\t`, and every other
      character is kept. */
  lemma {:induction false} EscapeJsonIsPerCharacter(s: string)
    ensures EscapeJson(Some(s)) == EscapeEach(s)
  {
    if s != [] {
      assert s == [s[0]] + s[1..];
      ChainAppend([s[0]], s[1..]);
      ChainOfChar(s[0]);
      EscapeJsonIsPerCharacter(s[1..]);
    }
  }

  // ---------------------------------------------------------------------
  // Reading a JSON string body back
  // ---------------------------------------------------------------------

  /** The character a two-character escape `\x` stands for. */
  function EscapedChar(x: char): char
  {
    if x == 'n' then '\n' else if x == 'r' then '\r' else if x == 't' then '\t' else x
  }

  /** A JSON reader's view of a string body: `\x` stands for one character, every other
      character for itself. */
  function Unescape(t: string): string
  {
    if t == [] then []
    else if t[0] == '\\' && |t| >= 2 then [EscapedChar(t[1])] + Unescape(t[2..])
    else [t[0]] + Unescape(t[1..])
  }

  /** Where a JSON reader finds the quote that closes a string body: the first '"' not
      consumed by an escape. */
  function ClosingQuote(t: string): (r: Option<nat>)
    ensures r.Some? ==> r.value < |t| && t[r.value] == '"'
  {
    if t == [] then None
    else if t[0] == '"' then Some(0)
    else if t[0] == '\\' && |t| >= 2 then
      (match ClosingQuote(t[2..]) case None => None case Some(k) => Some(k + 2))
    else
      (match ClosingQuote(t[1..]) case None => None case Some(k) => Some(k + 1))
  }

  /** An escape is either the character itself, which is then neither '\\' nor '"',
      or a backslash and one more character. */
  lemma EscapeCharShape(c: char)
    ensures |EscapeChar(c)| == 1 ==> EscapeChar(c) == [c] && c != '\\' && c != '"'
    ensures |EscapeChar(c)| == 2 ==> EscapeChar(c)[0] == '\\' && EscapedChar(EscapeChar(c)[1]) == c
  {
  }

  /** Reading the escaped text back gives the original text. */
  lemma {:induction false} UnescapeEscapeEach(s: string)
    ensures Unescape(EscapeEach(s)) == s
  {
    if s != [] {
      var c, e, rest := s[0], EscapeChar(s[0]), EscapeEach(s[1..]);
      assert EscapeEach(s) == e + rest;
      UnescapeEscapeEach(s[1..]);
      EscapeCharShape(c);
      if |e| == 2 {
        assert (e + rest)[0] == '\\' && (e + rest)[1] == e[1];
        assert (e + rest)[2..] == rest;
      } else {
        assert e == [c] && c != '\\';
        assert (e + rest)[1..] == rest;
      }
      assert s == [c] + s[1..];
    }
  }

  /** A reader scanning the escaped text followed by a quote stops at that quote and
      not earlier: no input closes the JSON string early. */
  lemma {:induction false} ClosingQuoteAfterEscape(s: string, rest: string)
    ensures ClosingQuote(EscapeEach(s) + "\"" + rest) == Some(|EscapeEach(s)|)
  {
    var t := EscapeEach(s) + "\"" + rest;
    if s == [] {
      assert t[0] == '"';
    } else {
      var e, tail := EscapeChar(s[0]), EscapeEach(s[1..]);
      assert EscapeEach(s) == e + tail;
      ClosingQuoteAfterEscape(s[1..], rest);
      EscapeCharShape(s[0]);
      assert t == e + (tail + "\"" + rest);
      if |e| == 2 {
        assert t[0] == '\\' && t[2..] == tail + "\"" + rest;
      } else {
        assert t[0] == s[0];
        assert t[1..] == tail + "\"" + rest;
      }
    }
  }

  /** Round trip of `escapeJson` for every text. */
  lemma EscapeJsonRoundTrip(s: string)
    ensures Unescape(EscapeJson(Some(s))) == s
  {
    EscapeJsonIsPerCharacter(s);
    UnescapeEscapeEach(s);
  }

  /** Control characters other than LF, CR and TAB are copied raw, although section 7 of
      RFC 8259 requires every character below U+0020 to be escaped in a JSON string:
      a backspace (U+0008) comes out unchanged. */
  lemma OtherControlCharactersPassThrough()
    ensures EscapeJson(Some([8 as char])) == [8 as char]
    ensures (8 as char) < ' '
  {
    EscapeJsonIsPerCharacter([8 as char]);
    assert EscapeEach([8 as char]) == EscapeChar(8 as char) + EscapeEach([]);
  }

  // ---------------------------------------------------------------------
  // Responses
  // ---------------------------------------------------------------------

  /** The text both responses open with. */
  const SuccessKey: string := "{\"success\": "
  const SuccessPrefix: string := SuccessKey + "true, \"data\": "
  const ErrorPrefix: string := SuccessKey + "false, \"error\": \""
  const ErrorSuffix: string := "\"}"

  /** `successResponse(data)`: the data is embedded verbatim, without escaping. */
  function SuccessResponse(data: string): (r: string)
    ensures |r| == |SuccessPrefix| + |data| + 1
    ensures r[..|SuccessPrefix|] == SuccessPrefix && r[|SuccessPrefix|..|r| - 1] == data
  {
    SuccessPrefix + data + "}"
  }

  /** `errorResponse(message)`: the message escaped into the "error" string. */
  function ErrorResponse(message: Option<string>): (r: string)
    ensures |r| >= |ErrorPrefix| + |ErrorSuffix| && r[..|ErrorPrefix|] == ErrorPrefix
    ensures r[|r| - 1] == '}'
  {
    ErrorPrefix + EscapeJson(message) + ErrorSuffix
  }

  /** A client reading the "error" string of an error response gets back exactly the
      message (and the empty text for a null message). */
  lemma ErrorResponseCarriesMessage(message: Option<string>)
    ensures var body := ErrorResponse(message)[|ErrorPrefix|..];
            var m := if message.Some? then message.value else "";
            && ClosingQuote(body).Some?
            && Unescape(body[..ClosingQuote(body).value]) == m
  {
    var m := if message.Some? then message.value else "";
    var e := EscapeJson(message);
    assert e == EscapeJson(Some(m));
    EscapeJsonIsPerCharacter(m);
    var body := ErrorResponse(message)[|ErrorPrefix|..];
    assert body == e + "\"" + "}";
    ClosingQuoteAfterEscape(m, "}");
    assert body[..|e|] == e;
    EscapeJsonRoundTrip(m);
  }

  /** The "success" flag tells the two kinds of response apart, whatever their contents. */
  lemma ResponsesDistinguishable(data: string, message: Option<string>)
    ensures SuccessResponse(data) != ErrorResponse(message)
  {
    assert SuccessResponse(data)[12] == SuccessPrefix[12] == 't';
    assert ErrorResponse(message)[12] == ErrorPrefix[12] == 'f';
  }

  // ---------------------------------------------------------------------
  // toJson
  // ---------------------------------------------------------------------

  /** The objects `toJson` distinguishes: null, a String, an integral Number, a Boolean,
      a List, and anything else, rendered by its own `toString()`. */
  datatype JsonValue =
    | Null
    | Str(s: string)
    | Num(n: int)
    | Bool(b: bool)
    | List(items: seq<JsonValue>)
    | Other(text: string)

  /** The JSON text `toJson` produces for a value. */
  function Json(v: JsonValue): string
    decreases v, 0
  {
    match v
    case Null => "null"
    case Str(s) => "\"" + EscapeJson(Some(s)) + "\""
    case Num(n) => IntToString(n)
    case Bool(b) => if b then "true" else "false"
    case List(items) => "[" + JoinWith(Rendered(items), ',') + "]"
    case Other(text) => text
  }

  /** The texts of a list's elements. */
  function Rendered(items: seq<JsonValue>): (r: seq<string>)
    ensures |r| == |items|
    decreases items
  {
    seq(|items|, i requires 0 <= i < |items| => Json(items[i]))
  }

  /** `toJson(obj)`: a list is built in a `StringBuilder`, element by element, with a
      comma before every element but the first. */
  method ToJson(v: JsonValue) returns (text: string)
    ensures text == Json(v)
    decreases v
  {
    match v {
      case Null =>
        text := "null";
      case Str(s) =>
        text := "\"" + EscapeJson(Some(s)) + "\"";
      case Num(n) =>
        text := IntToString(n);
      case Bool(b) =>
        text := if b then "true" else "false";
      case List(items) =>
        var sb := "[";
        var i := 0;
        while i < |items|
          invariant 0 <= i <= |items|
          invariant sb == "[" + JoinWith(Rendered(items)[..i], ',')
        {
          var parts := Rendered(items)[..i + 1];
          assert parts == Rendered(items)[..i] + [Json(items[i])];
          if i > 0 {
            JoinWithSnoc(Rendered(items)[..i], Json(items[i]), ',');
            sb := sb + ",";
          }
          var element := ToJson(items[i]);
          sb := sb + element;
          i := i + 1;
        }
        assert Rendered(items)[..i] == Rendered(items);
        text := sb + "]";
      case Other(t) =>
        text := t;
    }
  }

  /** A string value is a quoted JSON string that reads back as the original text. */
  lemma StringValueRoundTrip(s: string)
    ensures var t := Json(Str(s));
            && t[0] == '"' && ClosingQuote(t[1..]) == Some(|t| - 2)
            && Unescape(t[1..|t| - 1]) == s
  {
    var e := EscapeJson(Some(s));
    var t := Json(Str(s));
    EscapeJsonIsPerCharacter(s);
    assert t[1..] == e + "\"" + [];
    ClosingQuoteAfterEscape(s, []);
    assert t[1..|t| - 1] == e;
    EscapeJsonRoundTrip(s);
  }

  /** The empty list is "[]", and a one-element list is its element in brackets. */
  lemma ShortLists(v: JsonValue)
    ensures Json(List([])) == "[]"
    ensures Json(List([v])) == "[" + Json(v) + "]"
  {
    assert Rendered([v]) == [Json(v)];
  }

  /** Appending an element appends a comma and its text inside the brackets. */
  lemma ListSnoc(items: seq<JsonValue>, v: JsonValue)
    requires items != []
    ensures Json(List(items + [v])) == Json(List(items))[..|Json(List(items))| - 1] + "," + Json(v) + "]"
  {
    var r := Rendered(items + [v]);
    assert r[..|items|] == Rendered(items);
    assert r[|items|] == Json(v);
    assert r == Rendered(items) + [Json(v)];
    JoinWithSnoc(Rendered(items), Json(v), ',');
    var old_text := "[" + JoinWith(Rendered(items), ',') + "]";
    assert old_text[..|old_text| - 1] == "[" + JoinWith(Rendered(items), ',');
  }
}
