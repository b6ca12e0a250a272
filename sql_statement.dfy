/**
 * Parameterised SQL as the DAOs hand it to JDBC: a text with `?` placeholders
 * and the values bound to positions 1, 2, ... through `setObject`/`setInt`.
 * The database itself is not modelled; a statement is only its text and its
 * table of bound positions.
 */
module SqlStatement {

  /** A value bound to a placeholder: the DAOs bind strings and integers. */
  datatype Param = PStr(text: string) | PInt(number: int)

  /** A prepared statement after binding: its text and the value at each position (1-based). */
  datatype Statement = Statement(sql: string, slots: map<int, Param>)

  /** The placeholder marker. */
  const Placeholder: string := "?"

  /** Fixed SQL text: it holds no placeholder. */
  type PlainSql = s: string | '?' !in s witness ""

  /** The number of `?` placeholders in a SQL text. */
  function CountQ(s: string): nat
  {
    if s == [] then 0 else (if s[0] == '?' then 1 else 0) + CountQ(s[1..])
  }

  lemma {:induction false} CountQAppend(a: string, b: string)
    ensures CountQ(a + b) == CountQ(a) + CountQ(b)
  {
    if a == [] {
      assert a + b == b;
    } else {
      assert (a + b)[1..] == a[1..] + b;
      CountQAppend(a[1..], b);
    }
  }

  /** A text without `?` holds no placeholder. */
  lemma {:induction false} CountQNone(s: string)
    requires '?' !in s
    ensures CountQ(s) == 0
  {
    if s != [] {
      assert s[0] != '?';
      CountQNone(s[1..]);
    }
  }

  /** A text followed by one placeholder, with none before it, holds exactly one. */
  lemma OnePlaceholderAtEnd(text: string)
    requires '?' !in text
    ensures CountQ(text + Placeholder) == 1
  {
    CountQNone(text);
    CountQAppend(text, Placeholder);
    PlaceholderCountsOne();
  }

  /** The marker on its own is one placeholder. */
  lemma PlaceholderCountsOne()
    ensures CountQ(Placeholder) == 1
  {
    assert CountQ(Placeholder) == 1 + CountQ(Placeholder[1..]);
  }

  /** The positions 1..n, each bound to the n values in list order. */
  function Slots(params: seq<Param>): (slots: map<int, Param>)
    ensures forall i :: i in slots <==> 1 <= i <= |params|
    ensures forall i :: i in slots ==> slots[i] == params[i - 1]
  {
    if params == [] then map[]
    else Slots(params[..|params| - 1])[|params| := params[|params| - 1]]
  }

  /** Every placeholder has a value and no value is bound to a position without a placeholder. */
  ghost predicate FullyBound(st: Statement)
  {
    forall i :: i in st.slots <==> 1 <= i <= CountQ(st.sql)
  }

  /** Binding one value per placeholder, in order, binds the statement fully. */
  lemma SlotsBindFully(sql: string, params: seq<Param>)
    requires CountQ(sql) == |params|
    ensures FullyBound(Statement(sql, Slots(params)))
  {
  }

  /** The DAOs' binding loop, `for (i = 0; i < params.size(); i++) pstmt.setObject(i + 1, params.get(i))`:
      position i + 1 receives the i-th value. */
  method BindParams(params: seq<Param>) returns (slots: map<int, Param>)
    ensures slots == Slots(params)
  {
    slots := map[];
    var i := 0;
    while i < |params|
      invariant 0 <= i <= |params|
      invariant slots == Slots(params[..i])
    {
      assert params[..i + 1][..i] == params[..i];
      slots := slots[i + 1 := params[i]];
      i := i + 1;
    }
    assert params[..i] == params;
  }
}
