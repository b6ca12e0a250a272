/**
 * The statements the DAOs prepare: their SQL text and the values bound to
 * each position. Book and customer listings put the predicate builder's
 * fragment after a fixed SELECT, then an ORDER BY made only of a whitelisted
 * column and a direction token; the paged forms run a count query over the
 * same fragment and parameters and append LIMIT/OFFSET, bound after the
 * predicate's values. The order queries bind only integers at fixed
 * positions. Executing a statement is not modelled, except for an abstract
 * row model of the order count/history pair.
 *
 * The fixed SQL texts are written in short pieces so that each piece can be
 * checked for placeholders on its own; the concatenation is the source's
 * text.
 */
module DaoQueries {
  import opened JavaText
  import opened SqlStatement
  import opened PredicateBuilder
  import opened SortWhitelist
  import opened PageRequestModel

  // ---------------------------------------------------------------------
  // Fixed SQL texts
  // ---------------------------------------------------------------------

  const CountTotal: PlainSql := "SELECT COUNT(*) as total"
  const BookSelect: PlainSql := "SELECT bookid, bookname, " + "publisher, price FROM Book"
  const BookCountSelect: PlainSql := CountTotal + " FROM Book"
  const CustomerSelect: PlainSql := "SELECT custid, name, address, " + "phone, role FROM Customer"
  const CustomerCountSelect: PlainSql := CountTotal + " FROM Customer"

  const OrderBy: PlainSql := " ORDER BY "
  const Space: PlainSql := " "
  const LimitWord: PlainSql := " LIMIT "
  const OffsetWord: PlainSql := " OFFSET "
  /** `" LIMIT ? OFFSET ?"`. */
  const LimitOffset: string := LimitWord + Placeholder + OffsetWord + Placeholder
  /** `" LIMIT ?"`. */
  const Limit: string := LimitWord + Placeholder

  const OrderIdColumns: PlainSql := "SELECT o.orderid, o.custid, "
  const OrderColumns: PlainSql := OrderIdColumns + "o.bookid, o.saleprice, " + "o.orderdate, "
  const OrderBookColumns: PlainSql := "b.bookname, b.publisher, " + "b.price AS listPrice "
  const FromOrders: PlainSql := "FROM Orders o "
  const JoinBook: PlainSql := "JOIN Book b ON " + "o.bookid = b.bookid"
  const JoinCustomer: PlainSql := "JOIN Customer c ON " + "o.custid = c.custid "
  const CustomerNameColumn: PlainSql := "c.name as customerName, "
  const RecentColumns: PlainSql := "SELECT o.orderdate, " + CustomerNameColumn + "b.bookname, o.saleprice "

  /** The order history up to its one placeholder: `... WHERE o.custid = `. */
  const OrderHistoryHead: PlainSql := OrderColumns + OrderBookColumns + FromOrders + JoinBook + " WHERE o.custid = "
  /** `SELECT COUNT(*) as total FROM Orders WHERE custid = `. */
  const OrderCountHead: PlainSql := CountTotal + " FROM Orders " + "WHERE custid = "
  /** The recent-orders feed: orders joined with their customer and their book. */
  const RecentOrdersSelect: PlainSql := RecentColumns + FromOrders + JoinCustomer + JoinBook

  lemma LimitOffsetPlaceholders()
    ensures CountQ(LimitOffset) == 2
  {
    OnePlaceholderAtEnd(LimitWord);
    OnePlaceholderAtEnd(OffsetWord);
    CountQAppend(LimitWord + Placeholder, OffsetWord + Placeholder);
    assert LimitOffset == (LimitWord + Placeholder) + (OffsetWord + Placeholder);
  }

  lemma LimitPlaceholders()
    ensures CountQ(Limit) == 1
  {
    OnePlaceholderAtEnd(LimitWord);
  }

  // ---------------------------------------------------------------------
  // ORDER BY
  // ---------------------------------------------------------------------

  /** `" ORDER BY " + column + " " + direction`. */
  function OrderClause(column: string, direction: string): string
  {
    OrderBy + column + Space + direction
  }

  /** A query made of fixed text, then `middle`, then an ORDER BY of placeholder-free tokens holds
      exactly the placeholders of `middle`. */
  lemma OrderedQueryPlaceholders(head: PlainSql, middle: string, column: string, direction: string)
    requires '?' !in column && '?' !in direction
    ensures CountQ(head + middle + OrderClause(column, direction)) == CountQ(middle)
  {
    CountQNone(head);
    CountQNone(OrderClause(column, direction));
    CountQAppend(head, middle);
    CountQAppend(head + middle, OrderClause(column, direction));
  }

  /** A count query, fixed text followed by `where`, holds exactly the placeholders of `where`. */
  lemma CountQueryPlaceholders(head: PlainSql, where: string)
    ensures CountQ(head + where) == CountQ(where)
  {
    CountQNone(head);
    CountQAppend(head, where);
  }

  lemma NoPlaceholderInBookColumn(sortBy: Option<string>)
    ensures '?' !in BookSortColumn(sortBy)
  {
  }

  lemma NoPlaceholderInCustomerColumn(sortBy: Option<string>)
    ensures '?' !in CustomerSortColumn(sortBy)
  {
  }

  lemma NoPlaceholderInOrderColumn(sortBy: Option<string>)
    ensures '?' !in OrderSortColumn(sortBy)
  {
  }

  lemma NoPlaceholderInRecentColumn(sortBy: Option<string>)
    ensures '?' !in RecentSortColumn(sortBy)
  {
  }

  lemma NoPlaceholderInDirection(direction: string)
    requires direction == "ASC" || direction == "DESC"
    ensures '?' !in direction
  {
  }

  // ---------------------------------------------------------------------
  // Book listings
  // ---------------------------------------------------------------------

  /** The SQL text of `getBooks`. */
  function BookListSql(title: Option<string>, publisher: Option<string>, minPrice: Option<int>, maxPrice: Option<int>,
                       sortBy: Option<string>, direction: Option<string>): string
  {
    BookSelect + BookWhere(title, publisher, minPrice, maxPrice)
      + OrderClause(BookSortColumn(sortBy), ListingDirection(direction))
  }

  /** The SQL text of `countBooks` for the fragment `getBooksPaged` passes it. */
  function BookCountSql(title: Option<string>, publisher: Option<string>, minPrice: Option<int>, maxPrice: Option<int>): string
  {
    BookCountSelect + BookWhere(title, publisher, minPrice, maxPrice)
  }

  /** The SQL text of `getBooksPaged`'s data query: the direction is the request's, already normalised. */
  function BookPageSql(title: Option<string>, publisher: Option<string>, minPrice: Option<int>, maxPrice: Option<int>,
                       sortBy: Option<string>, direction: string): string
  {
    BookSelect + BookWhere(title, publisher, minPrice, maxPrice)
      + OrderClause(BookSortColumn(sortBy), direction) + LimitOffset
  }

  /** The book fragment holds one placeholder per bound value. */
  lemma BookWherePlaceholders(title: Option<string>, publisher: Option<string>, minPrice: Option<int>, maxPrice: Option<int>)
    ensures CountQ(BookWhere(title, publisher, minPrice, maxPrice)) == |Values(BookTerms(title, publisher, minPrice, maxPrice))|
  {
    ConditionTextsHaveOnePlaceholder();
    PlaceholdersMatchValues(BookTerms(title, publisher, minPrice, maxPrice), ConditionText);
  }

  /** The listing's placeholders are exactly the fragment's: one per bound value. */
  lemma BookListPlaceholders(title: Option<string>, publisher: Option<string>, minPrice: Option<int>, maxPrice: Option<int>,
                             sortBy: Option<string>, direction: Option<string>)
    ensures CountQ(BookListSql(title, publisher, minPrice, maxPrice, sortBy, direction))
         == |Values(BookTerms(title, publisher, minPrice, maxPrice))|
  {
    BookWherePlaceholders(title, publisher, minPrice, maxPrice);
    NoPlaceholderInBookColumn(sortBy);
    NoPlaceholderInDirection(ListingDirection(direction));
    OrderedQueryPlaceholders(BookSelect, BookWhere(title, publisher, minPrice, maxPrice),
                             BookSortColumn(sortBy), ListingDirection(direction));
  }

  /** The count query's placeholders are the fragment's. */
  lemma BookCountPlaceholders(title: Option<string>, publisher: Option<string>, minPrice: Option<int>, maxPrice: Option<int>)
    ensures CountQ(BookCountSql(title, publisher, minPrice, maxPrice)) == |Values(BookTerms(title, publisher, minPrice, maxPrice))|
  {
    BookWherePlaceholders(title, publisher, minPrice, maxPrice);
    CountQueryPlaceholders(BookCountSelect, BookWhere(title, publisher, minPrice, maxPrice));
  }

  /** The page query holds the fragment's placeholders and then two more, LIMIT's and OFFSET's. */
  lemma BookPagePlaceholders(title: Option<string>, publisher: Option<string>, minPrice: Option<int>, maxPrice: Option<int>,
                             sortBy: Option<string>, direction: string)
    requires direction == "ASC" || direction == "DESC"
    ensures CountQ(BookPageSql(title, publisher, minPrice, maxPrice, sortBy, direction))
         == |Values(BookTerms(title, publisher, minPrice, maxPrice))| + 2
  {
    var where := BookWhere(title, publisher, minPrice, maxPrice);
    BookWherePlaceholders(title, publisher, minPrice, maxPrice);
    NoPlaceholderInBookColumn(sortBy);
    NoPlaceholderInDirection(direction);
    OrderedQueryPlaceholders(BookSelect, where, BookSortColumn(sortBy), direction);
    LimitOffsetPlaceholders();
    CountQAppend(BookSelect + where + OrderClause(BookSortColumn(sortBy), direction), LimitOffset);
  }

  /** The listing's SQL text is fixed by which filters are present and by the resolved sort: the filter
      contents reach only the parameters. */
  lemma BookListSqlDependsOnlyOnPresence(
    title: Option<string>, publisher: Option<string>, minPrice: Option<int>, maxPrice: Option<int>,
    title': Option<string>, publisher': Option<string>, minPrice': Option<int>, maxPrice': Option<int>,
    sortBy: Option<string>, direction: Option<string>)
    requires Present(title) == Present(title') && Present(publisher) == Present(publisher')
    requires minPrice.Some? == minPrice'.Some? && maxPrice.Some? == maxPrice'.Some?
    ensures BookListSql(title, publisher, minPrice, maxPrice, sortBy, direction)
         == BookListSql(title', publisher', minPrice', maxPrice', sortBy, direction)
  {
    BookClauseDependsOnlyOnPresence(title, publisher, minPrice, maxPrice, title', publisher', minPrice', maxPrice');
  }

  /** `getBooks` (both source trees): the predicate builder appends to the SELECT, the ORDER BY follows,
      and the binding loop puts the i-th value at position i + 1. */
  method GetBooksStatement(title: Option<string>, publisher: Option<string>, minPrice: Option<int>, maxPrice: Option<int>,
                           sortBy: Option<string>, direction: Option<string>)
    returns (st: Statement)
    ensures st.sql == BookListSql(title, publisher, minPrice, maxPrice, sortBy, direction)
    ensures st.slots == Slots(Values(BookTerms(title, publisher, minPrice, maxPrice)))
    ensures FullyBound(st)
  {
    var where, params := BuildBookWhere(title, publisher, minPrice, maxPrice);
    var sql := BookSelect + where;
    sql := sql + OrderClause(BookSortColumn(sortBy), ListingDirection(direction));
    var slots := BindParams(params);
    st := Statement(sql, slots);
    BookListPlaceholders(title, publisher, minPrice, maxPrice, sortBy, direction);
  }

  /** `getBooksPaged` with `countBooks`: the count query and the data query share the fragment and the
      parameter list; LIMIT takes position n + 1 (the page size) and OFFSET position n + 2 (the offset),
      n being the number of predicate values. */
  method GetBooksPagedStatements(request: PageRequest,
                                 title: Option<string>, publisher: Option<string>, minPrice: Option<int>, maxPrice: Option<int>)
    returns (count: Statement, data: Statement)
    requires request.Valid()
    ensures count.sql == BookCountSql(title, publisher, minPrice, maxPrice)
    ensures data.sql == BookPageSql(title, publisher, minPrice, maxPrice, request.sortBy, request.direction)
    ensures count.slots == Slots(Values(BookTerms(title, publisher, minPrice, maxPrice)))
    ensures data.slots == Slots(Values(BookTerms(title, publisher, minPrice, maxPrice))
                                + [PInt(request.pageSize), PInt(request.Offset())])
    ensures FullyBound(count) && FullyBound(data)
  {
    var where, params := BuildBookWhere(title, publisher, minPrice, maxPrice);
    var countSlots := BindParams(params);
    count := Statement(BookCountSelect + where, countSlots);

    var sql := BookSelect + where;
    sql := sql + OrderClause(BookSortColumn(request.sortBy), request.direction);
    sql := sql + LimitOffset;
    var slots := BindParams(params);
    slots := slots[|params| + 1 := PInt(request.pageSize)];
    slots := slots[|params| + 2 := PInt(request.Offset())];
    data := Statement(sql, slots);

    BookCountPlaceholders(title, publisher, minPrice, maxPrice);
    BookPagePlaceholders(title, publisher, minPrice, maxPrice, request.sortBy, request.direction);
    PagingSlots(params, request.pageSize, request.Offset());
  }

  /** Binding the page size and the offset after n values is binding the n + 2 values in order. */
  lemma PagingSlots(params: seq<Param>, pageSize: int, offset: int)
    ensures Slots(params)[|params| + 1 := PInt(pageSize)][|params| + 2 := PInt(offset)]
         == Slots(params + [PInt(pageSize), PInt(offset)])
  {
    var withSize := params + [PInt(pageSize)];
    assert withSize[..|params|] == params;
    assert (withSize + [PInt(offset)])[..|withSize|] == withSize;
    assert withSize + [PInt(offset)] == params + [PInt(pageSize), PInt(offset)];
  }

  // ---------------------------------------------------------------------
  // Customer listings
  // ---------------------------------------------------------------------

  /** The SQL text of `getCustomers`. */
  function CustomerListSql(name: Option<string>, phone: Option<string>, address: Option<string>,
                           sortBy: Option<string>, direction: Option<string>): string
  {
    CustomerSelect + CustomerWhere(name, phone, address)
      + OrderClause(CustomerSortColumn(sortBy), ListingDirection(direction))
  }

  /** The SQL text of `countCustomers` for the fragment `getCustomersPaged` passes it. */
  function CustomerCountSql(name: Option<string>, phone: Option<string>, address: Option<string>): string
  {
    CustomerCountSelect + CustomerWhere(name, phone, address)
  }

  /** The SQL text of `getCustomersPaged`'s data query: the request's direction goes through
      `resolveSortDirection` once more. */
  function CustomerPageSql(name: Option<string>, phone: Option<string>, address: Option<string>,
                           sortBy: Option<string>, direction: string): string
  {
    CustomerSelect + CustomerWhere(name, phone, address)
      + OrderClause(CustomerSortColumn(sortBy), ListingDirection(Some(direction))) + LimitOffset
  }

  lemma CustomerWherePlaceholders(name: Option<string>, phone: Option<string>, address: Option<string>)
    ensures CountQ(CustomerWhere(name, phone, address)) == |Values(CustomerTerms(name, phone, address))|
  {
    ConditionTextsHaveOnePlaceholder();
    PlaceholdersMatchValues(CustomerTerms(name, phone, address), ConditionText);
  }

  /** The listing's placeholders are exactly the fragment's: one per bound value. */
  lemma CustomerListPlaceholders(name: Option<string>, phone: Option<string>, address: Option<string>,
                                 sortBy: Option<string>, direction: Option<string>)
    ensures CountQ(CustomerListSql(name, phone, address, sortBy, direction)) == |Values(CustomerTerms(name, phone, address))|
  {
    CustomerWherePlaceholders(name, phone, address);
    NoPlaceholderInCustomerColumn(sortBy);
    NoPlaceholderInDirection(ListingDirection(direction));
    OrderedQueryPlaceholders(CustomerSelect, CustomerWhere(name, phone, address),
                             CustomerSortColumn(sortBy), ListingDirection(direction));
  }

  lemma CustomerCountPlaceholders(name: Option<string>, phone: Option<string>, address: Option<string>)
    ensures CountQ(CustomerCountSql(name, phone, address)) == |Values(CustomerTerms(name, phone, address))|
  {
    CustomerWherePlaceholders(name, phone, address);
    CountQueryPlaceholders(CustomerCountSelect, CustomerWhere(name, phone, address));
  }

  lemma CustomerPagePlaceholders(name: Option<string>, phone: Option<string>, address: Option<string>,
                                 sortBy: Option<string>, direction: string)
    ensures CountQ(CustomerPageSql(name, phone, address, sortBy, direction)) == |Values(CustomerTerms(name, phone, address))| + 2
  {
    var where := CustomerWhere(name, phone, address);
    var order := OrderClause(CustomerSortColumn(sortBy), ListingDirection(Some(direction)));
    CustomerWherePlaceholders(name, phone, address);
    NoPlaceholderInCustomerColumn(sortBy);
    NoPlaceholderInDirection(ListingDirection(Some(direction)));
    OrderedQueryPlaceholders(CustomerSelect, where, CustomerSortColumn(sortBy), ListingDirection(Some(direction)));
    LimitOffsetPlaceholders();
    CountQAppend(CustomerSelect + where + order, LimitOffset);
  }

  /** The customer listing's SQL text is fixed by which filters are present and by the resolved sort. */
  lemma CustomerListSqlDependsOnlyOnPresence(
    name: Option<string>, phone: Option<string>, address: Option<string>,
    name': Option<string>, phone': Option<string>, address': Option<string>,
    sortBy: Option<string>, direction: Option<string>)
    requires Present(name) == Present(name') && Present(phone) == Present(phone') && Present(address) == Present(address')
    ensures CustomerListSql(name, phone, address, sortBy, direction) == CustomerListSql(name', phone', address', sortBy, direction)
  {
    CustomerClauseDependsOnlyOnPresence(name, phone, address, name', phone', address');
  }

  /** Re-resolving a normalised direction keeps it: the paged customer listing sorts exactly as the
      request says, like the paged book listing, which uses the request's direction as it is. */
  lemma ListingDirectionKeepsNormalized(direction: Option<string>)
    ensures ListingDirection(Some(NormalizeDirection(direction))) == NormalizeDirection(direction)
  {
    assert ToLower("ASC") == "asc";
    assert ToLower("DESC") == "desc";
  }

  /** `getCustomers`. */
  method GetCustomersStatement(name: Option<string>, phone: Option<string>, address: Option<string>,
                               sortBy: Option<string>, direction: Option<string>)
    returns (st: Statement)
    ensures st.sql == CustomerListSql(name, phone, address, sortBy, direction)
    ensures st.slots == Slots(Values(CustomerTerms(name, phone, address)))
    ensures FullyBound(st)
  {
    var where, params := BuildCustomerWhere(name, phone, address);
    var sql := CustomerSelect + where;
    sql := sql + OrderClause(CustomerSortColumn(sortBy), ListingDirection(direction));
    var slots := BindParams(params);
    st := Statement(sql, slots);
    CustomerListPlaceholders(name, phone, address, sortBy, direction);
  }

  /** `getCustomersPaged` with `countCustomers`: the same fragment and parameters for both queries,
      LIMIT/OFFSET bound at n + 1 and n + 2. */
  method GetCustomersPagedStatements(request: PageRequest, name: Option<string>, phone: Option<string>, address: Option<string>)
    returns (count: Statement, data: Statement)
    requires request.Valid()
    ensures count.sql == CustomerCountSql(name, phone, address)
    ensures data.sql == CustomerPageSql(name, phone, address, request.sortBy, request.direction)
    ensures count.slots == Slots(Values(CustomerTerms(name, phone, address)))
    ensures data.slots == Slots(Values(CustomerTerms(name, phone, address)) + [PInt(request.pageSize), PInt(request.Offset())])
    ensures FullyBound(count) && FullyBound(data)
  {
    var where, params := BuildCustomerWhere(name, phone, address);
    var countSlots := BindParams(params);
    count := Statement(CustomerCountSelect + where, countSlots);

    var sql := CustomerSelect + where;
    sql := sql + OrderClause(CustomerSortColumn(request.sortBy), ListingDirection(Some(request.direction)));
    sql := sql + LimitOffset;
    var slots := BindParams(params);
    slots := slots[|params| + 1 := PInt(request.pageSize)];
    slots := slots[|params| + 2 := PInt(request.Offset())];
    data := Statement(sql, slots);

    CustomerCountPlaceholders(name, phone, address);
    CustomerPagePlaceholders(name, phone, address, request.sortBy, request.direction);
    PagingSlots(params, request.pageSize, request.Offset());
  }

  // ---------------------------------------------------------------------
  // Order queries
  // ---------------------------------------------------------------------

  /** The SQL text of `getOrdersByCustomer`. */
  function OrderHistorySql(sortBy: Option<string>, direction: Option<string>): string
  {
    OrderHistoryHead + Placeholder + OrderClause(OrderSortColumn(sortBy), ReportDirection(direction))
  }

  /** The SQL text of `getOrdersByCustomerPaged`: the request's direction goes through `resolveDirection`. */
  function OrderHistoryPageSql(sortBy: Option<string>, direction: string): string
  {
    OrderHistoryHead + Placeholder + OrderClause(OrderSortColumn(sortBy), ReportDirection(Some(direction))) + LimitOffset
  }

  /** The SQL text of `countOrdersByCustomer`. */
  function OrderCountSql(): string
  {
    OrderCountHead + Placeholder
  }

  /** The SQL text of `getRecentOrders`. */
  function RecentOrdersSql(sortBy: Option<string>, direction: Option<string>): string
  {
    RecentOrdersSelect + OrderClause(RecentSortColumn(sortBy), ReportDirection(direction)) + Limit
  }

  lemma OrderHistoryPlaceholders(sortBy: Option<string>, direction: Option<string>)
    ensures CountQ(OrderHistorySql(sortBy, direction)) == 1
  {
    NoPlaceholderInOrderColumn(sortBy);
    NoPlaceholderInDirection(ReportDirection(direction));
    PlaceholderCountsOne();
    OrderedQueryPlaceholders(OrderHistoryHead, Placeholder, OrderSortColumn(sortBy), ReportDirection(direction));
  }

  lemma OrderHistoryPagePlaceholders(sortBy: Option<string>, direction: string)
    ensures CountQ(OrderHistoryPageSql(sortBy, direction)) == 3
  {
    var order := OrderClause(OrderSortColumn(sortBy), ReportDirection(Some(direction)));
    NoPlaceholderInOrderColumn(sortBy);
    NoPlaceholderInDirection(ReportDirection(Some(direction)));
    PlaceholderCountsOne();
    OrderedQueryPlaceholders(OrderHistoryHead, Placeholder, OrderSortColumn(sortBy), ReportDirection(Some(direction)));
    LimitOffsetPlaceholders();
    CountQAppend(OrderHistoryHead + Placeholder + order, LimitOffset);
  }

  lemma OrderCountPlaceholders()
    ensures CountQ(OrderCountSql()) == 1
  {
    OnePlaceholderAtEnd(OrderCountHead);
  }

  lemma RecentOrdersPlaceholders(sortBy: Option<string>, direction: Option<string>)
    ensures CountQ(RecentOrdersSql(sortBy, direction)) == 1
  {
    var order := OrderClause(RecentSortColumn(sortBy), ReportDirection(direction));
    NoPlaceholderInRecentColumn(sortBy);
    NoPlaceholderInDirection(ReportDirection(direction));
    CountQNone(RecentOrdersSelect + order);
    LimitPlaceholders();
    CountQAppend(RecentOrdersSelect + order, Limit);
  }

  /** `setInt(1, a)` alone binds the one value. */
  lemma SetIntSingle(a: Param)
    ensures map[1 := a] == Slots([a])
  {
  }

  /** `setInt(1, a)`, `setInt(2, b)`, `setInt(3, c)` bind the three values in order. */
  lemma SetIntInOrder(a: Param, b: Param, c: Param)
    ensures map[1 := a][2 := b][3 := c] == Slots([a, b, c])
  {
    assert [a, b][..1] == [a];
    assert [a, b, c][..2] == [a, b];
  }

  /** `getOrdersByCustomer`: the customer id is the only value, at position 1. */
  method OrderHistoryStatement(custId: int, sortBy: Option<string>, direction: Option<string>) returns (st: Statement)
    ensures st.sql == OrderHistorySql(sortBy, direction)
    ensures st.slots == Slots([PInt(custId)])
    ensures FullyBound(st)
  {
    var sql := OrderHistoryHead + Placeholder + OrderClause(OrderSortColumn(sortBy), ReportDirection(direction));
    var slots := map[];
    slots := slots[1 := PInt(custId)];
    st := Statement(sql, slots);
    SetIntSingle(PInt(custId));
    OrderHistoryPlaceholders(sortBy, direction);
    SlotsBindFully(sql, [PInt(custId)]);
  }

  /** `getOrdersByCustomerPaged` with `countOrdersByCustomer`: the count binds the customer id at 1; the
      page query binds the customer id, the page size and the offset at 1, 2 and 3. */
  method OrderHistoryPagedStatements(request: PageRequest, custId: int) returns (count: Statement, data: Statement)
    requires request.Valid()
    ensures count.sql == OrderCountSql() && count.slots == Slots([PInt(custId)])
    ensures data.sql == OrderHistoryPageSql(request.sortBy, request.direction)
    ensures data.slots == Slots([PInt(custId), PInt(request.pageSize), PInt(request.Offset())])
    ensures FullyBound(count) && FullyBound(data)
  {
    var countSlots := map[];
    countSlots := countSlots[1 := PInt(custId)];
    count := Statement(OrderCountHead + Placeholder, countSlots);

    var sql := OrderHistoryHead + Placeholder + OrderClause(OrderSortColumn(request.sortBy), ReportDirection(Some(request.direction)));
    sql := sql + LimitOffset;
    var slots := map[];
    slots := slots[1 := PInt(custId)];
    slots := slots[2 := PInt(request.pageSize)];
    slots := slots[3 := PInt(request.Offset())];
    data := Statement(sql, slots);

    SetIntInOrder(PInt(custId), PInt(request.pageSize), PInt(request.Offset()));
    OrderCountPlaceholders();
    SlotsBindFully(count.sql, [PInt(custId)]);
    OrderHistoryPagePlaceholders(request.sortBy, request.direction);
    SlotsBindFully(sql, [PInt(custId), PInt(request.pageSize), PInt(request.Offset())]);
  }

  /** `getRecentOrders`: `limit` is the only value, at position 1. */
  method RecentOrdersStatement(limit: int, sortBy: Option<string>, direction: Option<string>) returns (st: Statement)
    ensures st.sql == RecentOrdersSql(sortBy, direction)
    ensures st.slots == Slots([PInt(limit)])
    ensures FullyBound(st)
  {
    var sql := RecentOrdersSelect + OrderClause(RecentSortColumn(sortBy), ReportDirection(direction)) + Limit;
    var slots := map[];
    slots := slots[1 := PInt(limit)];
    st := Statement(sql, slots);
    SetIntSingle(PInt(limit));
    RecentOrdersPlaceholders(sortBy, direction);
    SlotsBindFully(sql, [PInt(limit)]);
  }

  /** The unpaged order history sorts descending unless asked for "asc"; the paged one passes the
      request's direction, which the request has already normalised to "ASC" unless it was "desc" in
      some case, so an absent or unknown direction sorts the paged history ascending. */
  lemma OrderHistoryDirections(direction: Option<string>)
    ensures ReportDirection(direction) == (if LiteralEqualsIgnoreCase("asc", direction) then "ASC" else "DESC")
    ensures ReportDirection(Some(NormalizeDirection(direction)))
         == (if LiteralEqualsIgnoreCase("DESC", direction) then "DESC" else "ASC")
  {
    assert ToLower("ASC") == "asc";
    assert ToLower("DESC") == "desc";
  }

  /** With no direction at all, the two forms of the same history sort in opposite orders. */
  lemma OrderHistoryDefaultsDisagree()
    ensures ReportDirection(None) == "DESC"
    ensures ReportDirection(Some(NormalizeDirection(None))) == "ASC"
  {
    OrderHistoryDirections(None);
  }

  // ---------------------------------------------------------------------
  // The order count and the order history over an abstract table
  // ---------------------------------------------------------------------

  /** The columns of an `Orders` row the two queries look at. */
  datatype OrderRow = OrderRow(orderid: int, custid: int, bookid: int)

  /** The rows `countOrdersByCustomer` counts: `WHERE custid = ?`. */
  function CustomerOrders(orders: seq<OrderRow>, custId: int): (rows: seq<OrderRow>)
    ensures forall r :: r in rows <==> r in orders && r.custid == custId
  {
    if orders == [] then []
    else (if orders[0].custid == custId then [orders[0]] else []) + CustomerOrders(orders[1..], custId)
  }

  /** The rows `getOrdersByCustomer` returns: the same filter, through the inner join with `Book`. */
  function HistoryRows(orders: seq<OrderRow>, bookIds: set<int>, custId: int): (rows: seq<OrderRow>)
    ensures forall r :: r in rows <==> r in orders && r.custid == custId && r.bookid in bookIds
  {
    if orders == [] then []
    else (if orders[0].custid == custId && orders[0].bookid in bookIds then [orders[0]] else [])
         + HistoryRows(orders[1..], bookIds, custId)
  }

  /** The history never has more rows than the count reports, and exactly as many iff every order of the
      customer still has its book. */
  lemma {:induction false} HistoryRowsAtMostCount(orders: seq<OrderRow>, bookIds: set<int>, custId: int)
    ensures |HistoryRows(orders, bookIds, custId)| <= |CustomerOrders(orders, custId)|
    ensures |HistoryRows(orders, bookIds, custId)| == |CustomerOrders(orders, custId)|
        <==> forall r :: r in CustomerOrders(orders, custId) ==> r.bookid in bookIds
  {
    if orders != [] {
      HistoryRowsAtMostCount(orders[1..], bookIds, custId);
    }
  }

  /** An order whose book row is gone is counted but not listed. */
  lemma CountMayExceedRows()
    ensures |CustomerOrders([OrderRow(1, 7, 42)], 7)| == 1
    ensures HistoryRows([OrderRow(1, 7, 42)], {}, 7) == []
  {
  }

  // ---------------------------------------------------------------------
  // Customer segments
  // ---------------------------------------------------------------------

  /** The four segments of `getCustomerSegments`. */
  datatype Segment = Vip | Excellent | Regular | Newcomer

  /** The label the query reports for each segment. */
  function SegmentLabel(s: Segment): string
  {
    match s
    case Vip => "VIP"
    case Excellent => "우수"
    case Regular => "일반"
    case Newcomer => "신규"
  }

  /** The `CASE` over a customer's `SUM(o.saleprice)`: thresholds tried from the top; a customer without
      orders has a NULL sum, which no `WHEN` matches. */
  function SegmentOf(totalAmount: Option<int>): Segment
  {
    if totalAmount.Some? && totalAmount.value >= 100000 then Vip
    else if totalAmount.Some? && totalAmount.value >= 50000 then Excellent
    else if totalAmount.Some? && totalAmount.value >= 10000 then Regular
    else Newcomer
  }

  /** The position of a segment in `ORDER BY FIELD(segment, 'VIP', '우수', '일반', '신규')`. */
  function SegmentPosition(s: Segment): (p: int)
    ensures 1 <= p <= 4
  {
    match s
    case Vip => 1
    case Excellent => 2
    case Regular => 3
    case Newcomer => 4
  }

  /** Each amount falls in exactly one band: [100000, ∞) VIP, [50000, 100000) 우수, [10000, 50000) 일반,
      below 10000 (or no orders) 신규. */
  lemma SegmentBands(total: int)
    ensures SegmentOf(Some(total)) == Vip <==> total >= 100000
    ensures SegmentOf(Some(total)) == Excellent <==> 50000 <= total < 100000
    ensures SegmentOf(Some(total)) == Regular <==> 10000 <= total < 50000
    ensures SegmentOf(Some(total)) == Newcomer <==> total < 10000
    ensures SegmentOf(None) == Newcomer
  {
  }

  /** Spending more never moves a customer to a lower segment, and the report lists higher segments first. */
  lemma SegmentMonotone(a: int, b: int)
    requires a <= b
    ensures SegmentPosition(SegmentOf(Some(b))) <= SegmentPosition(SegmentOf(Some(a)))
  {
  }

  /** Distinct segments are reported under distinct labels. */
  lemma SegmentLabelsDistinct(s: Segment, t: Segment)
    requires s != t
    ensures SegmentLabel(s) != SegmentLabel(t)
  {
  }
}
