/**
 * The predicate builder shared by the book and customer listings. Each
 * optional filter, in a fixed order, either contributes nothing or appends
 * " WHERE" (for the first included condition) or " AND" (for every later
 * one), then its condition text with one `?`, and adds its value to the
 * positional parameter list. Text filters that are null or blank are left
 * out; the others bind "%" + trimmed text + "%".
 *
 * The reference definition is `Clause`/`Values` over the list of included
 * conditions (`Select` of the filters); the builders below are the DAOs'
 * straight-line code, proved equal to it.
 */
module PredicateBuilder {
  import opened JavaText
  import opened SqlStatement

  // ---------------------------------------------------------------------
  // Conditions and their SQL text
  // ---------------------------------------------------------------------

  /** The condition texts the two builders can append. */
  datatype Condition =
    | TitleLike | PublisherLike | MinPrice | MaxPrice   // BookDAO
    | NameLike | PhoneLike | AddressLike                // CustomerDAO

  /** The column test of each condition, the text before its placeholder. */
  const TitleTest: PlainSql := " bookname LIKE "
  const PublisherTest: PlainSql := " publisher LIKE "
  const MinPriceTest: PlainSql := " price >= "
  const MaxPriceTest: PlainSql := " price <= "
  const NameTest: PlainSql := " name LIKE "
  const PhoneTest: PlainSql := " phone LIKE "
  const AddressTest: PlainSql := " address LIKE "

  function ColumnTest(c: Condition): PlainSql
  {
    match c
    case TitleLike => TitleTest
    case PublisherLike => PublisherTest
    case MinPrice => MinPriceTest
    case MaxPrice => MaxPriceTest
    case NameLike => NameTest
    case PhoneLike => PhoneTest
    case AddressLike => AddressTest
  }

  /** The text each condition appends after " WHERE" or " AND": its column test and one `?`. */
  function ConditionText(c: Condition): string
  {
    ColumnTest(c) + Placeholder
  }

  /** A condition renderer whose every text holds exactly one placeholder. */
  ghost predicate OnePlaceholderEach(text: Condition -> string)
  {
    forall c :: CountQ(text(c)) == 1
  }

  /** Every condition text holds exactly one placeholder. */
  lemma ConditionTextsHaveOnePlaceholder()
    ensures OnePlaceholderEach(ConditionText)
  {
    forall c: Condition ensures CountQ(ConditionText(c)) == 1 {
      OnePlaceholderAtEnd(ColumnTest(c));
    }
  }

  // ---------------------------------------------------------------------
  // Filters and included conditions
  // ---------------------------------------------------------------------

  /** One optional filter: its condition and, if the filter is in effect, the value it binds. */
  datatype Filter = Filter(condition: Condition, value: Option<Param>)

  /** An included condition with its bound value. */
  datatype Term = Term(condition: Condition, value: Param)

  /** The condition a filter contributes: none, or one. */
  function Pick(f: Filter): (terms: seq<Term>)
    ensures |terms| <= 1
    ensures f.value.Some? ==> terms == [Term(f.condition, f.value.value)]
    ensures f.value.None? <==> terms == []
  {
    if f.value.Some? then [Term(f.condition, f.value.value)] else []
  }

  /** The filters in effect, in their fixed order. */
  function Select(filters: seq<Filter>): (terms: seq<Term>)
    ensures |terms| <= |filters|
  {
    if filters == [] then [] else Select(filters[..|filters| - 1]) + Pick(filters[|filters| - 1])
  }

  /** `"%" + text.trim() + "%"`. */
  function LikePattern(text: string): (r: string)
    ensures |r| >= 2 && r[0] == '%' && r[|r| - 1] == '%'
    ensures r[1..|r| - 1] == Trim(text)
  {
    "%" + Trim(text) + "%"
  }

  /** A text filter is in effect when it is neither null nor blank, and binds its LIKE pattern. */
  function TextFilter(text: Option<string>): (r: Option<Param>)
    ensures r.Some? <==> Present(text)
    ensures r.Some? ==> r.value == PStr(LikePattern(text.value))
  {
    if Present(text) then Some(PStr(LikePattern(text.value))) else None
  }

  /** A numeric filter is in effect when it is not null, and binds the number itself. */
  function IntFilter(bound: Option<int>): (r: Option<Param>)
    ensures r.Some? <==> bound.Some?
    ensures bound.Some? ==> r.value == PInt(bound.value)
  {
    if bound.Some? then Some(PInt(bound.value)) else None
  }

  // ---------------------------------------------------------------------
  // The reference definition of the fragment and the parameter list
  // ---------------------------------------------------------------------

  /** `hasCondition ? " AND" : " WHERE"`. */
  function Connective(hasCondition: bool): string
  {
    if hasCondition then " AND" else " WHERE"
  }

  lemma ConnectiveHasNoPlaceholder(hasCondition: bool)
    ensures CountQ(Connective(hasCondition)) == 0
  {
    if hasCondition {
      assert '?' !in " AND";
      CountQNone(" AND");
    } else {
      assert '?' !in " WHERE";
      CountQNone(" WHERE");
    }
  }

  /** The WHERE fragment for the included conditions: " WHERE" before the first, " AND" before each later one. */
  function Clause(terms: seq<Term>, text: Condition -> string): string
  {
    if terms == [] then ""
    else Clause(terms[..|terms| - 1], text) + Connective(|terms| > 1) + text(terms[|terms| - 1].condition)
  }

  /** The last condition's text closes the fragment. */
  lemma ClauseLast(terms: seq<Term>, text: Condition -> string)
    requires terms != []
    ensures Clause(terms, text) == Clause(terms[..|terms| - 1], text) + Connective(|terms| > 1) + text(terms[|terms| - 1].condition)
  {
  }

  /** The bound values, one per included condition, in the same order. */
  function Values(terms: seq<Term>): (params: seq<Param>)
    ensures |params| == |terms|
    ensures forall i :: 0 <= i < |terms| ==> params[i] == terms[i].value
  {
    seq(|terms|, i requires 0 <= i < |terms| => terms[i].value)
  }

  lemma PrefixOfAppend(a: string, b: string, c: string)
    requires a <= b
    ensures a <= b + c
  {
    assert (b + c)[..|a|] == b[..|a|];
  }

  /** Each shorter list of conditions yields a prefix of the fragment. */
  lemma {:induction false} ClausePrefix(terms: seq<Term>, k: nat, text: Condition -> string)
    requires k <= |terms|
    ensures Clause(terms[..k], text) <= Clause(terms, text)
  {
    if k < |terms| {
      var init := terms[..|terms| - 1];
      assert init[..k] == terms[..k];
      ClausePrefix(init, k, text);
      var step := Connective(|terms| > 1) + text(terms[|terms| - 1].condition);
      PrefixOfAppend(Clause(terms[..k], text), Clause(init, text), step);
      assert Clause(terms, text) == Clause(init, text) + step;
    } else {
      assert terms[..k] == terms;
    }
  }

  /** The placeholder count of the fragment is the number of bound values. */
  lemma {:induction false} PlaceholdersMatchValues(terms: seq<Term>, text: Condition -> string)
    requires OnePlaceholderEach(text)
    ensures CountQ(Clause(terms, text)) == |Values(terms)|
  {
    if terms != [] {
      var init := terms[..|terms| - 1];
      PlaceholdersMatchValues(init, text);
      var connective, last := Connective(|terms| > 1), text(terms[|terms| - 1].condition);
      assert Clause(terms, text) == Clause(init, text) + connective + last;
      ConnectiveHasNoPlaceholder(|terms| > 1);
      CountQAppend(Clause(init, text), connective);
      CountQAppend(Clause(init, text) + connective, last);
    }
  }

  /** The fragment begins with the first k conditions followed by the k-th condition's text. */
  lemma ConditionFollowsPredecessors(terms: seq<Term>, k: nat, text: Condition -> string)
    requires k < |terms|
    ensures Clause(terms[..k], text) + Connective(k > 0) + text(terms[k].condition) <= Clause(terms, text)
  {
    var upTo := terms[..k + 1];
    ClauseLast(upTo, text);
    assert upTo[..k] == terms[..k] && upTo[k] == terms[k];
    ClausePrefix(terms, k + 1, text);
  }

  /** The k-th condition's placeholder is the (k+1)-th of the fragment: the fragment opens with the
      first k conditions, which hold k placeholders, then the k-th condition's text, which holds one;
      and the value bound at position k + 1 is that condition's value. */
  lemma PlaceholderAlignment(terms: seq<Term>, k: nat, text: Condition -> string)
    requires k < |terms|
    requires OnePlaceholderEach(text)
    ensures Clause(terms[..k], text) + Connective(k > 0) + text(terms[k].condition) <= Clause(terms, text)
    ensures CountQ(Clause(terms[..k], text)) == k
    ensures Slots(Values(terms))[k + 1] == terms[k].value
  {
    ConditionFollowsPredecessors(terms, k, text);
    PlaceholdersMatchValues(terms[..k], text);
  }

  /** With no condition there is no WHERE at all; with some, the fragment opens with " WHERE". */
  lemma WhereOnlyWithConditions(terms: seq<Term>, text: Condition -> string)
    ensures Clause(terms, text) == "" <==> terms == []
    ensures terms != [] ==> |Clause(terms, text)| >= 6 && Clause(terms, text)[..6] == " WHERE"
  {
    if terms != [] {
      ClausePrefix(terms, 1, text);
      assert terms[..1][..0] == [];
      assert Clause(terms[..1], text) == " WHERE" + text(terms[0].condition);
    }
  }

  /** The fragment's text depends only on which conditions are included, never on their values. */
  lemma {:induction false} ClauseIgnoresValues(a: seq<Term>, b: seq<Term>, text: Condition -> string)
    requires |a| == |b|
    requires forall i :: 0 <= i < |a| ==> a[i].condition == b[i].condition
    ensures Clause(a, text) == Clause(b, text)
  {
    if a != [] {
      ClauseIgnoresValues(a[..|a| - 1], b[..|b| - 1], text);
    }
  }

  /** Two filter lists with the same conditions in effect select the same conditions. */
  lemma {:induction false} SelectSameShape(a: seq<Filter>, b: seq<Filter>)
    requires |a| == |b|
    requires forall i :: 0 <= i < |a| ==> a[i].condition == b[i].condition && a[i].value.Some? == b[i].value.Some?
    ensures |Select(a)| == |Select(b)|
    ensures forall i :: 0 <= i < |Select(a)| ==> Select(a)[i].condition == Select(b)[i].condition
  {
    if a != [] {
      SelectSameShape(a[..|a| - 1], b[..|b| - 1]);
    }
  }

  /** The fragment's text is fixed by which filters are in effect: filter values reach only the parameter list. */
  lemma SameShapeSameClause(a: seq<Filter>, b: seq<Filter>, text: Condition -> string)
    requires |a| == |b|
    requires forall i :: 0 <= i < |a| ==> a[i].condition == b[i].condition && a[i].value.Some? == b[i].value.Some?
    ensures Clause(Select(a), text) == Clause(Select(b), text)
  {
    SelectSameShape(a, b);
    ClauseIgnoresValues(Select(a), Select(b), text);
  }

  /** Extending two condition lists of equal length and equal fragment by filters with the same
      condition, both in effect or both not, keeps the lengths and the fragments equal. */
  lemma StepSameShape(a: seq<Term>, b: seq<Term>, f: Filter, g: Filter, text: Condition -> string)
    requires |a| == |b| && Clause(a, text) == Clause(b, text)
    requires f.condition == g.condition && f.value.Some? == g.value.Some?
    ensures |a + Pick(f)| == |b + Pick(g)| && Clause(a + Pick(f), text) == Clause(b + Pick(g), text)
  {
    if f.value.Some? {
      assert (a + Pick(f))[..|a|] == a;
      assert (b + Pick(g))[..|b|] == b;
    } else {
      assert a + Pick(f) == a && b + Pick(g) == b;
    }
  }

  lemma SelectSnoc(filters: seq<Filter>, f: Filter)
    ensures Select(filters + [f]) == Select(filters) + Pick(f)
  {
    assert (filters + [f])[..|filters|] == filters;
  }

  /** The included conditions of three filters, in order. */
  lemma SelectThree(f0: Filter, f1: Filter, f2: Filter)
    ensures Select([f0, f1, f2]) == Pick(f0) + Pick(f1) + Pick(f2)
  {
    SelectSnoc([], f0);
    SelectSnoc([f0], f1);
    assert [f0] + [f1] == [f0, f1];
    SelectSnoc([f0, f1], f2);
    assert [f0, f1] + [f2] == [f0, f1, f2];
  }

  /** The included conditions of four filters, in order. */
  lemma SelectFour(f0: Filter, f1: Filter, f2: Filter, f3: Filter)
    ensures Select([f0, f1, f2, f3]) == Pick(f0) + Pick(f1) + Pick(f2) + Pick(f3)
  {
    SelectThree(f0, f1, f2);
    SelectSnoc([f0, f1, f2], f3);
    assert [f0, f1, f2] + [f3] == [f0, f1, f2, f3];
  }

  /** Three filters with the same conditions in effect as three others give the same fragment. */
  lemma SameShapeThree(f0: Filter, f1: Filter, f2: Filter, g0: Filter, g1: Filter, g2: Filter, text: Condition -> string)
    requires f0.condition == g0.condition && f0.value.Some? == g0.value.Some?
    requires f1.condition == g1.condition && f1.value.Some? == g1.value.Some?
    requires f2.condition == g2.condition && f2.value.Some? == g2.value.Some?
    ensures |Select([f0, f1, f2])| == |Select([g0, g1, g2])|
    ensures Clause(Select([f0, f1, f2]), text) == Clause(Select([g0, g1, g2]), text)
  {
    assert [] + Pick(f0) == Pick(f0) && [] + Pick(g0) == Pick(g0);
    StepSameShape([], [], f0, g0, text);
    StepSameShape(Pick(f0), Pick(g0), f1, g1, text);
    StepSameShape(Pick(f0) + Pick(f1), Pick(g0) + Pick(g1), f2, g2, text);
    SelectThree(f0, f1, f2);
    SelectThree(g0, g1, g2);
  }

  /** Four filters with the same conditions in effect as four others give the same fragment. */
  lemma SameShapeFour(f0: Filter, f1: Filter, f2: Filter, f3: Filter, g0: Filter, g1: Filter, g2: Filter, g3: Filter,
                      text: Condition -> string)
    requires f0.condition == g0.condition && f0.value.Some? == g0.value.Some?
    requires f1.condition == g1.condition && f1.value.Some? == g1.value.Some?
    requires f2.condition == g2.condition && f2.value.Some? == g2.value.Some?
    requires f3.condition == g3.condition && f3.value.Some? == g3.value.Some?
    ensures Clause(Select([f0, f1, f2, f3]), text) == Clause(Select([g0, g1, g2, g3]), text)
  {
    SameShapeThree(f0, f1, f2, g0, g1, g2, text);
    SelectThree(f0, f1, f2);
    SelectThree(g0, g1, g2);
    StepSameShape(Select([f0, f1, f2]), Select([g0, g1, g2]), f3, g3, text);
    SelectFour(f0, f1, f2, f3);
    SelectFour(g0, g1, g2, g3);
  }

  /** The builders' state agrees with a list of included conditions: the fragment and the values are
      theirs, and `hasCondition` says whether there is any. */
  ghost predicate Agrees(terms: seq<Term>, where: string, params: seq<Param>, hasCondition: bool)
  {
    where == Clause(terms, ConditionText) && params == Values(terms) && hasCondition == (terms != [])
  }

  /** One step of the builders: appending the connective and a filter's text (and its value) when the
      filter is in effect, and nothing otherwise, keeps the state agreeing with the conditions so far. */
  lemma AppendStep(terms: seq<Term>, where: string, params: seq<Param>, hasCondition: bool, f: Filter)
    requires Agrees(terms, where, params, hasCondition)
    ensures f.value.Some? ==>
      Agrees(terms + Pick(f), where + Connective(hasCondition) + ConditionText(f.condition), params + [f.value.value], true)
    ensures f.value.None? ==> Agrees(terms + Pick(f), where, params, hasCondition)
  {
    if f.value.Some? {
      var t := Term(f.condition, f.value.value);
      assert (terms + [t])[..|terms|] == terms;
    } else {
      assert terms + Pick(f) == terms;
    }
  }

  // ---------------------------------------------------------------------
  // Book listings: title, publisher, minPrice, maxPrice
  // ---------------------------------------------------------------------

  /** The book filters in their fixed order. */
  function BookFilters(title: Option<string>, publisher: Option<string>, minPrice: Option<int>, maxPrice: Option<int>): seq<Filter>
  {
    [Filter(TitleLike, TextFilter(title)), Filter(PublisherLike, TextFilter(publisher)),
     Filter(MinPrice, IntFilter(minPrice)), Filter(MaxPrice, IntFilter(maxPrice))]
  }

  /** The book predicate: the conditions in effect, in the order title, publisher, minPrice, maxPrice. */
  function BookTerms(title: Option<string>, publisher: Option<string>, minPrice: Option<int>, maxPrice: Option<int>): seq<Term>
  {
    Select(BookFilters(title, publisher, minPrice, maxPrice))
  }

  /** The book WHERE fragment. */
  function BookWhere(title: Option<string>, publisher: Option<string>, minPrice: Option<int>, maxPrice: Option<int>): string
  {
    Clause(BookTerms(title, publisher, minPrice, maxPrice), ConditionText)
  }

  /** Each filter in effect contributes its condition, in the fixed order, and the others nothing. */
  lemma BookTermsInOrder(title: Option<string>, publisher: Option<string>, minPrice: Option<int>, maxPrice: Option<int>)
    ensures BookTerms(title, publisher, minPrice, maxPrice)
         == (if Present(title) then [Term(TitleLike, PStr(LikePattern(title.value)))] else [])
          + (if Present(publisher) then [Term(PublisherLike, PStr(LikePattern(publisher.value)))] else [])
          + (if minPrice.Some? then [Term(MinPrice, PInt(minPrice.value))] else [])
          + (if maxPrice.Some? then [Term(MaxPrice, PInt(maxPrice.value))] else [])
  {
    SelectFour(Filter(TitleLike, TextFilter(title)), Filter(PublisherLike, TextFilter(publisher)),
               Filter(MinPrice, IntFilter(minPrice)), Filter(MaxPrice, IntFilter(maxPrice)));
  }

  /** The book fragment's text depends only on which filters are in effect, never on their contents. */
  lemma BookClauseDependsOnlyOnPresence(
    title: Option<string>, publisher: Option<string>, minPrice: Option<int>, maxPrice: Option<int>,
    title': Option<string>, publisher': Option<string>, minPrice': Option<int>, maxPrice': Option<int>)
    requires Present(title) == Present(title') && Present(publisher) == Present(publisher')
    requires minPrice.Some? == minPrice'.Some? && maxPrice.Some? == maxPrice'.Some?
    ensures BookWhere(title, publisher, minPrice, maxPrice) == BookWhere(title', publisher', minPrice', maxPrice')
  {
    SameShapeFour(Filter(TitleLike, TextFilter(title)), Filter(PublisherLike, TextFilter(publisher)),
                  Filter(MinPrice, IntFilter(minPrice)), Filter(MaxPrice, IntFilter(maxPrice)),
                  Filter(TitleLike, TextFilter(title')), Filter(PublisherLike, TextFilter(publisher')),
                  Filter(MinPrice, IntFilter(minPrice')), Filter(MaxPrice, IntFilter(maxPrice')),
                  ConditionText);
  }

  /** A blank title or publisher is the same as none. */
  lemma BlankBookTextIsAbsent(blank: string, title: Option<string>, publisher: Option<string>, minPrice: Option<int>, maxPrice: Option<int>)
    requires IsBlank(blank)
    ensures BookTerms(Some(blank), publisher, minPrice, maxPrice) == BookTerms(None, publisher, minPrice, maxPrice)
    ensures BookTerms(title, Some(blank), minPrice, maxPrice) == BookTerms(title, None, minPrice, maxPrice)
  {
  }

  /** A builder state that agrees with the four book filters' picks, in order, is the book
      fragment and parameter list. */
  lemma BookStateIsBookWhere(title: Option<string>, publisher: Option<string>, minPrice: Option<int>, maxPrice: Option<int>,
                             terms: seq<Term>, where: string, params: seq<Param>)
    requires terms == Pick(Filter(TitleLike, TextFilter(title))) + Pick(Filter(PublisherLike, TextFilter(publisher)))
                    + Pick(Filter(MinPrice, IntFilter(minPrice))) + Pick(Filter(MaxPrice, IntFilter(maxPrice)))
    requires where == Clause(terms, ConditionText) && params == Values(terms)
    ensures where == BookWhere(title, publisher, minPrice, maxPrice)
    ensures params == Values(BookTerms(title, publisher, minPrice, maxPrice))
  {
    SelectFour(Filter(TitleLike, TextFilter(title)), Filter(PublisherLike, TextFilter(publisher)),
               Filter(MinPrice, IntFilter(minPrice)), Filter(MaxPrice, IntFilter(maxPrice)));
  }

  /** The book predicate builder (`getBooks` and `getBooksPaged`): the WHERE fragment and the
      parameter list, built step by step with the `hasCondition` flag. */
  method BuildBookWhere(title: Option<string>, publisher: Option<string>, minPrice: Option<int>, maxPrice: Option<int>)
    returns (where: string, params: seq<Param>)
    ensures where == BookWhere(title, publisher, minPrice, maxPrice)
    ensures params == Values(BookTerms(title, publisher, minPrice, maxPrice))
  {
    ghost var f0, f1, f2, f3 := Filter(TitleLike, TextFilter(title)), Filter(PublisherLike, TextFilter(publisher)),
      Filter(MinPrice, IntFilter(minPrice)), Filter(MaxPrice, IntFilter(maxPrice));
    ghost var terms: seq<Term> := [];
    where, params := "", [];
    var hasCondition := false;

    AppendStep(terms, where, params, hasCondition, f0);
    if title.Some? && !IsBlank(title.value) {
      where := where + Connective(hasCondition);
      where := where + ConditionText(TitleLike);
      params := params + [PStr(LikePattern(title.value))];
      hasCondition := true;
    }
    assert terms + Pick(f0) == Pick(f0);
    terms := Pick(f0);
    assert Agrees(terms, where, params, hasCondition);

    AppendStep(terms, where, params, hasCondition, f1);
    if publisher.Some? && !IsBlank(publisher.value) {
      where := where + Connective(hasCondition);
      where := where + ConditionText(PublisherLike);
      params := params + [PStr(LikePattern(publisher.value))];
      hasCondition := true;
    }
    terms := terms + Pick(f1);
    assert Agrees(terms, where, params, hasCondition);

    AppendStep(terms, where, params, hasCondition, f2);
    if minPrice.Some? {
      where := where + Connective(hasCondition);
      where := where + ConditionText(MinPrice);
      params := params + [PInt(minPrice.value)];
      hasCondition := true;
    }
    terms := terms + Pick(f2);
    assert Agrees(terms, where, params, hasCondition);

    AppendStep(terms, where, params, hasCondition, f3);
    if maxPrice.Some? {
      where := where + Connective(hasCondition);
      where := where + ConditionText(MaxPrice);
      params := params + [PInt(maxPrice.value)];
    }
    terms := terms + Pick(f3);

    BookStateIsBookWhere(title, publisher, minPrice, maxPrice, terms, where, params);
  }

  // ---------------------------------------------------------------------
  // Customer listings: name, phone, address
  // ---------------------------------------------------------------------

  /** The customer filters in their fixed order. */
  function CustomerFilters(name: Option<string>, phone: Option<string>, address: Option<string>): seq<Filter>
  {
    [Filter(NameLike, TextFilter(name)), Filter(PhoneLike, TextFilter(phone)), Filter(AddressLike, TextFilter(address))]
  }

  /** The customer predicate: the conditions in effect, in the order name, phone, address. */
  function CustomerTerms(name: Option<string>, phone: Option<string>, address: Option<string>): seq<Term>
  {
    Select(CustomerFilters(name, phone, address))
  }

  /** The customer WHERE fragment. */
  function CustomerWhere(name: Option<string>, phone: Option<string>, address: Option<string>): string
  {
    Clause(CustomerTerms(name, phone, address), ConditionText)
  }

  /** Each filter in effect contributes its condition, in the fixed order, and the others nothing. */
  lemma CustomerTermsInOrder(name: Option<string>, phone: Option<string>, address: Option<string>)
    ensures CustomerTerms(name, phone, address)
         == (if Present(name) then [Term(NameLike, PStr(LikePattern(name.value)))] else [])
          + (if Present(phone) then [Term(PhoneLike, PStr(LikePattern(phone.value)))] else [])
          + (if Present(address) then [Term(AddressLike, PStr(LikePattern(address.value)))] else [])
  {
    SelectThree(Filter(NameLike, TextFilter(name)), Filter(PhoneLike, TextFilter(phone)), Filter(AddressLike, TextFilter(address)));
  }

  /** The customer fragment's text depends only on which filters are in effect. */
  lemma CustomerClauseDependsOnlyOnPresence(
    name: Option<string>, phone: Option<string>, address: Option<string>,
    name': Option<string>, phone': Option<string>, address': Option<string>)
    requires Present(name) == Present(name') && Present(phone) == Present(phone') && Present(address) == Present(address')
    ensures CustomerWhere(name, phone, address) == CustomerWhere(name', phone', address')
  {
    SameShapeThree(Filter(NameLike, TextFilter(name)), Filter(PhoneLike, TextFilter(phone)), Filter(AddressLike, TextFilter(address)),
                   Filter(NameLike, TextFilter(name')), Filter(PhoneLike, TextFilter(phone')), Filter(AddressLike, TextFilter(address')),
                   ConditionText);
  }

  /** A builder state that agrees with the three customer filters' picks, in order, is the customer
      fragment and parameter list. */
  lemma CustomerStateIsCustomerWhere(name: Option<string>, phone: Option<string>, address: Option<string>,
                                     terms: seq<Term>, where: string, params: seq<Param>)
    requires terms == Pick(Filter(NameLike, TextFilter(name))) + Pick(Filter(PhoneLike, TextFilter(phone)))
                    + Pick(Filter(AddressLike, TextFilter(address)))
    requires where == Clause(terms, ConditionText) && params == Values(terms)
    ensures where == CustomerWhere(name, phone, address)
    ensures params == Values(CustomerTerms(name, phone, address))
  {
    SelectThree(Filter(NameLike, TextFilter(name)), Filter(PhoneLike, TextFilter(phone)), Filter(AddressLike, TextFilter(address)));
  }

  /** The customer predicate builder (`getCustomers` and `getCustomersPaged`). */
  method BuildCustomerWhere(name: Option<string>, phone: Option<string>, address: Option<string>)
    returns (where: string, params: seq<Param>)
    ensures where == CustomerWhere(name, phone, address)
    ensures params == Values(CustomerTerms(name, phone, address))
  {
    ghost var f0, f1, f2 := Filter(NameLike, TextFilter(name)), Filter(PhoneLike, TextFilter(phone)),
      Filter(AddressLike, TextFilter(address));
    ghost var terms: seq<Term> := [];
    where, params := "", [];
    var hasCondition := false;

    AppendStep(terms, where, params, hasCondition, f0);
    if name.Some? && !IsBlank(name.value) {
      where := where + Connective(hasCondition);
      where := where + ConditionText(NameLike);
      params := params + [PStr(LikePattern(name.value))];
      hasCondition := true;
    }
    assert terms + Pick(f0) == Pick(f0);
    terms := Pick(f0);
    assert Agrees(terms, where, params, hasCondition);

    AppendStep(terms, where, params, hasCondition, f1);
    if phone.Some? && !IsBlank(phone.value) {
      where := where + Connective(hasCondition);
      where := where + ConditionText(PhoneLike);
      params := params + [PStr(LikePattern(phone.value))];
      hasCondition := true;
    }
    terms := terms + Pick(f1);
    assert Agrees(terms, where, params, hasCondition);

    AppendStep(terms, where, params, hasCondition, f2);
    if address.Some? && !IsBlank(address.value) {
      where := where + Connective(hasCondition);
      where := where + ConditionText(AddressLike);
      params := params + [PStr(LikePattern(address.value))];
    }
    terms := terms + Pick(f2);

    CustomerStateIsCustomerWhere(name, phone, address, terms, where, params);
  }
}
