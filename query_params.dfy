/**
 * `parseQueryParams` of the API base classes: a query string such as
 * `page=2&sortBy=price` becomes a map from key to decoded value.
 *
 * The query is cut with Java's `String.split("&")`, which drops trailing empty
 * fields (but keeps leading and inner ones); each field is cut once at its
 * first '=' with `split("=", 2)`. Only the value passes through
 * `URLDecoder.decode`, which is a parameter here: it either yields the decoded
 * text or fails (`None`), as the Java decoder throws on a malformed escape,
 * and the failure then propagates out of the parse.
 */
module QueryParams {
  import opened JavaText

  // ---------------------------------------------------------------------
  // Java's split
  // ---------------------------------------------------------------------

  /** The fields without their trailing empty ones. */
  function DropTrailingEmpty(parts: seq<string>): (r: seq<string>)
    ensures |r| <= |parts| && r == parts[..|r|]
    ensures r != [] ==> r[|r| - 1] != ""
    ensures forall i :: |r| <= i < |parts| ==> parts[i] == ""
  {
    if parts != [] && parts[|parts| - 1] == "" then DropTrailingEmpty(parts[..|parts| - 1]) else parts
  }

  /** `s.split(String.valueOf(sep))`: a text without the separator is returned whole;
      otherwise all fields, less the trailing empty ones. */
  function JavaSplit(s: string, sep: char): (r: seq<string>)
    ensures forall i :: 0 <= i < |r| ==> sep !in r[i]
    ensures sep in s ==> r == DropTrailingEmpty(SplitAll(s, sep))
    ensures sep !in s ==> r == [s]
  {
    if sep !in s then [s] else DropTrailingEmpty(SplitAll(s, sep))
  }

  /** The position of the first `c` in `s`. */
  function IndexOf(s: string, c: char): (k: nat)
    requires c in s
    ensures k < |s| && s[k] == c && c !in s[..k]
  {
    if s[0] == c then 0
    else
      var k := IndexOf(s[1..], c);
      assert s[1..][..k] == s[1..k + 1];
      k + 1
  }

  /** `pair.split("=", 2)`: a field without '=' is one piece; otherwise the text before
      the first '=' and everything after it. */
  function SplitFirst(pair: string): (r: (string, Option<string>))
    ensures '=' !in r.0
    ensures r.1.None? <==> '=' !in pair
    ensures r.1.None? ==> r.0 == pair
    ensures r.1.Some? ==> pair == r.0 + "=" + r.1.value
  {
    if '=' !in pair then (pair, None)
    else
      var k := IndexOf(pair, '=');
      assert pair == pair[..k] + "=" + pair[k + 1..];
      (pair[..k], Some(pair[k + 1..]))
  }

  // ---------------------------------------------------------------------
  // The parse
  // ---------------------------------------------------------------------

  /** The key a field contributes: the text before its first '=', never decoded. */
  function Key(pair: string): string
  {
    SplitFirst(pair).0
  }

  /** The entry a field contributes: a bare key maps to the empty text; otherwise the
      decoded value, or a failure when the decoder rejects it. */
  function Entry(pair: string, decode: string -> Option<string>): (r: Option<(string, string)>)
    ensures r.Some? ==> r.value.0 == Key(pair)
    ensures '=' !in pair ==> r == Some((pair, ""))
    ensures r.None? <==> '=' in pair && decode(SplitFirst(pair).1.value).None?
  {
    var (key, value) := SplitFirst(pair);
    if value.None? then Some((key, ""))
    else
      match decode(value.value)
      case None => None
      case Some(decoded) => Some((key, decoded))
  }

  /** The map after putting the fields' entries in order, so a later key overwrites an
      earlier one; `None` when one of them fails to decode. */
  function Collect(pairs: seq<string>, decode: string -> Option<string>): Option<map<string, string>>
  {
    if pairs == [] then Some(map[])
    else
      match Collect(pairs[..|pairs| - 1], decode)
      case None => None
      case Some(m) =>
        match Entry(pairs[|pairs| - 1], decode)
        case None => None
        case Some(e) => Some(m[e.0 := e.1])
  }

  /** `parseQueryParams(query)`: a null or empty query gives the empty map. */
  function Parse(query: Option<string>, decode: string -> Option<string>): Option<map<string, string>>
  {
    if query.None? || query.value == "" then Some(map[]) else Collect(JavaSplit(query.value, '&'), decode)
  }

  /** The loop of `parseQueryParams`, putting each field's entry into a fresh map; a
      decoder failure ends it with `None`. */
  method ParseQueryParams(query: Option<string>, decode: string -> Option<string>)
    returns (params: Option<map<string, string>>)
    ensures params == Parse(query, decode)
  {
    if query.None? || query.value == "" {
      return Some(map[]);
    }
    var pairs := JavaSplit(query.value, '&');
    var m: map<string, string> := map[];
    var i := 0;
    while i < |pairs|
      invariant 0 <= i <= |pairs|
      invariant Collect(pairs[..i], decode) == Some(m)
    {
      assert pairs[..i + 1][..i] == pairs[..i];
      var (key, value) := SplitFirst(pairs[i]);
      if value.Some? {
        var decoded := decode(value.value);
        if decoded.None? {
          FailureIsFinal(pairs, i, decode);
          return None;
        }
        m := m[key := decoded.value];
      } else {
        m := m[key := ""];
      }
      i := i + 1;
    }
    assert pairs[..i] == pairs;
    params := Some(m);
  }

  // ---------------------------------------------------------------------
  // Properties of the parse
  // ---------------------------------------------------------------------

  /** The parse fails exactly when some field's value fails to decode. */
  lemma {:induction false} CollectFails(pairs: seq<string>, decode: string -> Option<string>)
    ensures Collect(pairs, decode).None? <==> exists i :: 0 <= i < |pairs| && Entry(pairs[i], decode).None?
  {
    if pairs != [] {
      var init := pairs[..|pairs| - 1];
      CollectFails(init, decode);
      assert forall i :: 0 <= i < |init| ==> init[i] == pairs[i];
    }
  }

  /** A field that fails to decode makes the whole parse fail. */
  lemma FailureIsFinal(pairs: seq<string>, i: int, decode: string -> Option<string>)
    requires 0 <= i < |pairs| && Entry(pairs[i], decode).None?
    ensures Collect(pairs, decode).None?
  {
    CollectFails(pairs, decode);
  }

  /** The keys of the result are exactly the keys of the fields. */
  lemma {:induction false} CollectKeys(pairs: seq<string>, decode: string -> Option<string>, key: string)
    requires Collect(pairs, decode).Some?
    ensures key in Collect(pairs, decode).value <==> exists i :: 0 <= i < |pairs| && Key(pairs[i]) == key
  {
    if pairs != [] {
      var init := pairs[..|pairs| - 1];
      CollectKeys(init, decode, key);
      assert forall i :: 0 <= i < |init| ==> init[i] == pairs[i];
    }
  }

  /** A key is bound to the value of its last field: a later duplicate overwrites. */
  lemma {:induction false} LastDuplicateWins(pairs: seq<string>, decode: string -> Option<string>, j: int)
    requires Collect(pairs, decode).Some?
    requires 0 <= j < |pairs|
    requires forall i :: j < i < |pairs| ==> Key(pairs[i]) != Key(pairs[j])
    ensures Entry(pairs[j], decode).Some?
    ensures Key(pairs[j]) in Collect(pairs, decode).value
    ensures Collect(pairs, decode).value[Key(pairs[j])] == Entry(pairs[j], decode).value.1
  {
    var init := pairs[..|pairs| - 1];
    if j < |pairs| - 1 {
      assert init[j] == pairs[j];
      assert forall i :: j < i < |init| ==> init[i] == pairs[i];
      LastDuplicateWins(init, decode, j);
    }
  }

  /** The keys never depend on the decoder: whenever two decoders both succeed, they
      yield the same keys. */
  lemma KeysIgnoreDecoder(pairs: seq<string>, d1: string -> Option<string>, d2: string -> Option<string>, key: string)
    requires Collect(pairs, d1).Some? && Collect(pairs, d2).Some?
    ensures key in Collect(pairs, d1).value <==> key in Collect(pairs, d2).value
  {
    CollectKeys(pairs, d1, key);
    CollectKeys(pairs, d2, key);
  }

  /** A null or empty query gives the empty map, whatever the decoder. */
  lemma EmptyQuery(decode: string -> Option<string>)
    ensures Parse(None, decode) == Some(map[])
    ensures Parse(Some(""), decode) == Some(map[])
  {
  }

  /** Trailing separators are dropped: "a&&" holds the single field "a". */
  lemma TrailingSeparatorsDropped()
    ensures JavaSplit("a&&", '&') == ["a"]
  {
    assert "&&"[1..] == "&" && "&"[1..] == "";
    assert SplitAll("&&", '&') == ["", "", ""];
    assert "a&&"[0] == 'a' && "a&&"[1..] == "&&" && "a&&"[1] == '&';
    var parts := SplitAll("a&&", '&');
    assert ['a'] + "" == "a";
    assert parts == ["a", "", ""];
    var two: seq<string> := ["a", ""];
    var one: seq<string> := ["a"];
    assert parts[..2] == two && two[..1] == one;
    assert "a" != "";
    assert DropTrailingEmpty(one) == one;
    assert DropTrailingEmpty(two) == one;
  }

  /** A leading separator keeps its empty field: "&a" holds "" and "a". */
  lemma LeadingSeparatorKept()
    ensures JavaSplit("&a", '&') == ["", "a"]
  {
    assert "a"[1..] == "" && "a"[0] == 'a';
    assert ['a'] + "" == "a";
    assert SplitAll("a", '&') == ["a"];
    assert "&a"[0] == '&' && "&a"[1..] == "a";
    assert SplitAll("&a", '&') == ["", "a"];
    assert "a" != "";
  }

  /** A field is cut at its first '=' only. */
  lemma CutAtFirstEquals()
    ensures SplitFirst("x=a=b") == ("x", Some("a=b"))
    ensures SplitFirst("flag") == ("flag", None)
  {
    assert "x=a=b"[0] != '=' && "x=a=b"[1] == '=';
    assert IndexOf("x=a=b"[1..], '=') == 0;
    assert "x=a=b"[..1] == "x";
    assert "x=a=b"[2..] == "a=b";
  }
}
