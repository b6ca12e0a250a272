# Madang bookstore API — a verified model of its core

The Madang bookstore is a Java web service over a MySQL database of books, customers and
orders. This project models the parts of it that decide what a request turns into, and
proves what they promise:

- **Paging** (`PageRequestModel`, `PageResponseModel`). `PageRequest` clamps the page
  number and page size and normalises the sort direction. It computes the row offset of a
  page. `PageResponse` derives the page count and the next/previous flags from the row
  count.
- **Sort whitelists and direction policies** (`SortWhitelist`). Every user-supplied sort
  key is looked up, case-insensitively, in a fixed table of columns, with a default for
  anything else. The direction rule has two variants:
  - the book and customer listings default to `ASC`;
  - the order reports default to `DESC`.
- **Query composition and binding** (`SqlStatement`, `PredicateBuilder`, `DaoQueries`).
  - The book and customer searches build their `WHERE` clause one condition at a time,
    each with one `?` placeholder and one parameter.
  - The order queries bind a customer id or a row limit.
  - The paged variants append `LIMIT ? OFFSET ?`.
  - The proofs show that every placeholder gets exactly one parameter, in order.
  - The customer-segment rule buckets a customer's total spend.
- **Servlet helpers** (`JsonText`, `QueryParams`, `ApiPolicy`).
  - JSON escaping, the success and error envelopes, and the small `toJson` renderer.
  - The query-string parser.
  - The three permission checks.
  - The way a request's outcome becomes an HTTP status. The servlet and the older
    `ApiHandler` map outcomes differently.
- **Sessions** (`Sessions`). An in-memory store with a two-hour expiry. Expired entries
  are evicted on lookup and by a sweep.
- **Configuration** (`Config`). Lookups read, in order, an environment variable derived
  from the key, the properties file, then a default. There are typed readers for int,
  long and boolean values.
- **Health uptime** (`Uptime`). The uptime in whole seconds and its `"Xd Yh Zm Ws"`
  rendering. The proofs show that the rendering reads back as the number it came from.

`JavaText` models the Java library behaviour the code depends on:
- truncating division and remainder;
- 32-bit wrap-around;
- `String.trim` and `replace`, and a split that keeps every field (`SplitAll`); Java's `split` with its trailing empty fields dropped is `QueryParams.JavaSplit`;
- ASCII case mapping;
- `Integer.parseInt` / `Long.parseLong`, on ASCII digits.

Classes stand for the Java objects whose fields change: `PageRequest`, `PageResponse`,
the session store and the configuration store. Their methods state their whole new
state against specification functions. The statement builders (`BuildBookWhere`,
`BuildCustomerWhere`, `BindParams`, `ToJson`, `RequireRole`, `ParseQueryParams`) keep the
source's loops and step-by-step appends. They are proved equal to functional definitions,
and those definitions carry the lemmas.

Things that cannot be modelled directly become parameters:
- the clock;
- the generated session id;
- the URL decoder;
- the environment;
- the contents of the properties file;
- the handler a servlet dispatches to.

## Model

| member | source | states |
|---|---|---|
| PageRequestModel.ClampPage | src/main/java/com/madang/model/PageRequest.java:30 | the stored page is at least 1; a page of 1 or more is kept, anything lower becomes 1 |
| PageRequestModel.ClampPageSize | src/main/java/com/madang/model/PageRequest.java:31 | the stored size lies in 1..100; an in-range size is kept, below 1 becomes 1, above 100 becomes 100 |
| PageRequestModel.NormalizeDirection | src/main/java/com/madang/model/PageRequest.java:33 | the direction is always "ASC" or "DESC", and it is "DESC" exactly when the input equals "DESC" ignoring case (null gives "ASC") |
| PageRequestModel.OffsetOf | src/main/java/com/madang/model/PageRequest.java:39-41 | the offset of a valid page is non-negative, zero exactly on page 1, and at least page-1 |
| PageRequestModel.OffsetOfNextPage | src/main/java/com/madang/model/PageRequest.java:39-41 | consecutive pages start exactly one page size apart |
| PageRequestModel.JavaOffset | src/main/java/com/madang/model/PageRequest.java:40 | the as-written int product is a 32-bit value and equals the true offset whenever that fits in an int |
| PageRequestModel.JavaOffsetExactWhileInRange | src/main/java/com/madang/model/PageRequest.java:40 | for every page up to 21474837 and every allowed size the int product is the true offset |
| PageRequestModel.JavaOffsetOverflows | src/main/java/com/madang/model/PageRequest.java:40 | page 21474838 at size 100 has true offset 2147483700 but the int product wraps to -2147483596 |
| PageRequestModel.OffsetFitsInLong | src/main/java/com/madang/model/PageRequest.java:39-41 | for every int page and allowed size the offset fits in a Java long |
| PageRequestModel.PageRequest.Default | src/main/java/com/madang/model/PageRequest.java:15-17 | the no-argument request is page 1, size 20, sorted by the default key, ascending, and valid |
| PageRequestModel.PageRequest.OfPage | src/main/java/com/madang/model/PageRequest.java:22-24 | the two-argument request stores the clamped page and size, the default sort key and "ASC" |
| PageRequestModel.PageRequest.constructor | src/main/java/com/madang/model/PageRequest.java:29-34 | the four-argument request stores the clamped page and size, the sort key or the default when null, and the normalised direction |
| PageRequestModel.PageRequest.Offset | src/main/java/com/madang/model/PageRequest.java:39-41 | the corrected offset (see Findings): (page-1)·pageSize computed without overflow, and it fits in a long |
| PageRequestModel.PageRequest.SetPage | src/main/java/com/madang/model/PageRequest.java:48-50 | stores the clamped page and leaves the other fields unchanged |
| PageRequestModel.PageRequest.SetPageSize | src/main/java/com/madang/model/PageRequest.java:56-58 | stores the clamped size and leaves the other fields unchanged |
| PageRequestModel.PageRequest.SetSortBy | src/main/java/com/madang/model/PageRequest.java:64-66 | stores the key as given (null included) and leaves the other fields unchanged |
| PageRequestModel.PageRequest.SetDirection | src/main/java/com/madang/model/PageRequest.java:72-74 | stores the normalised direction and leaves the other fields unchanged |
| PageResponseModel.CeilDiv | src/main/java/com/madang/model/PageResponse.java:47 | the quotient q is the ceiling: (q-1)·b < a ≤ q·b |
| PageResponseModel.SaturateToInt32 | src/main/java/com/madang/model/PageResponse.java:47 | the narrowing cast of the double saturates: in-range values are kept, larger ones become Integer.MAX_VALUE, smaller ones Integer.MIN_VALUE |
| PageResponseModel.TotalPages | src/main/java/com/madang/model/PageResponse.java:45-48 | the page count is an int and is 0 for a non-positive page size |
| PageResponseModel.HasNext | src/main/java/com/madang/model/PageResponse.java:38 | definition of `hasNext`: the page is before the last; characterised by NoRowsNoNextPage and HundredAndOneRowsAtTwenty |
| PageResponseModel.HasPrevious | src/main/java/com/madang/model/PageResponse.java:39 | definition of `hasPrevious`: the page is after the first; established by PageResponse.constructor |
| PageResponseModel.PageResponse.Consistent | src/main/java/com/madang/model/PageResponse.java:32-40 | definition: the derived fields agree with the stored ones as the constructor sets them; characterised by PageResponse.constructor and StaleHasNextAfterSetTotalItems |
| PageResponseModel.TotalPagesIsCeiling | src/main/java/com/madang/model/PageResponse.java:45-48 | for rows up to Integer.MAX_VALUE and a positive size, the pages hold every row and the last page is not empty |
| PageResponseModel.NoRowsNoPages | src/main/java/com/madang/model/PageResponse.java:45-48 | no rows means no pages, whatever the page size |
| PageResponseModel.NoRowsNoNextPage | src/main/java/com/madang/model/PageResponse.java:38 | with no rows no page has a next page |
| PageResponseModel.HundredAndOneRowsAtTwenty | src/main/java/com/madang/model/PageResponse.java:37-38 | 101 rows at 20 per page make 6 pages, and pages 1..5 (not 6) have a next page |
| PageResponseModel.PageResponse.constructor | src/main/java/com/madang/model/PageResponse.java:32-40 | stores the inputs and derives totalPages, hasNext and hasPrevious from them |
| PageResponseModel.PageResponse.SetTotalItems | src/main/java/com/madang/model/PageResponse.java:79-82 | stores the count and recomputes totalPages from the current size, leaving hasNext and hasPrevious as they were |
| PageResponseModel.PageResponse.SetPageSize | src/main/java/com/madang/model/PageResponse.java:71-73 | stores the size and recomputes nothing |
| PageResponseModel.StaleHasNextAfterSetTotalItems | src/main/java/com/madang/model/PageResponse.java:79-82 | after setTotalItems a response can report a page before the last page with hasNext false |
| SortWhitelist.Resolve | src/main/java/com/madang/dao/BookDAO.java:420-429 | definition: the lower-cased key's whitelisted column, else the default; characterised by ResolveStaysInWhitelist and ResolveIgnoresCase |
| SortWhitelist.ResolveStaysInWhitelist | src/main/java/com/madang/dao/BookDAO.java:420-429 | whatever key arrives, the resolved column is a whitelisted column or the default, so no user text reaches ORDER BY |
| SortWhitelist.ResolveIgnoresCase | src/main/java/com/madang/dao/BookDAO.java:422 | keys equal after lower-casing resolve to the same column |
| SortWhitelist.BookSortColumn | src/main/java/com/madang/dao/BookDAO.java:420-429 | the book sort column is the whitelist lookup with default "bookid", and is one of bookname, publisher, price, bookid |
| SortWhitelist.CustomerSortColumn | src/com/madang/dao/CustomerDAO.java:338-347 | the customer sort column is the whitelist lookup with default "custid", and is one of name, address, phone, custid |
| SortWhitelist.OrderSortColumn | src/main/java/com/madang/dao/OrderDAO.java:579-589 | the order sort column is the whitelist lookup with default "o.orderdate", and is one of the five order columns |
| SortWhitelist.RecentSortColumn | src/main/java/com/madang/dao/OrderDAO.java:591-600 | the recent-orders column is the whitelist lookup with default "o.orderdate", and is one of its four columns |
| SortWhitelist.CustomerStatsSort | src/main/java/com/madang/dao/OrderDAO.java:602-611 | the customer-statistics column is the whitelist lookup with default "totalAmount", and is one of its four columns |
| SortWhitelist.PublisherStatsSort | src/main/java/com/madang/dao/OrderDAO.java:613-622 | the publisher-statistics column is the whitelist lookup with default "totalRevenue", and is one of its four columns |
| SortWhitelist.BookStatsSort | src/main/java/com/madang/dao/OrderDAO.java:624-634 | the book-statistics column is the whitelist lookup with default "salesCount", and is one of its five columns |
| SortWhitelist.ListingDirection | src/main/java/com/madang/dao/BookDAO.java:431-434 | the listing direction is ASC or DESC, and is DESC exactly when the input equals "desc" ignoring case |
| SortWhitelist.ReportDirection | src/main/java/com/madang/dao/OrderDAO.java:636-639 | the report direction is ASC or DESC, and is ASC exactly when the input equals "asc" ignoring case |
| SortWhitelist.DirectionPoliciesDiffer | src/main/java/com/madang/dao/OrderDAO.java:636-639 | the two policies agree on every input that names a direction and disagree on every other input (null included) |
| SortWhitelist.MixedCaseKeyMatches | src/main/java/com/madang/dao/OrderDAO.java:581 | "SalePrice" selects o.saleprice |
| SortWhitelist.InjectedKeyFallsBack | src/main/java/com/madang/dao/BookDAO.java:420-429 | a key carrying SQL text falls back to the default column |
| SqlStatement.CountQ | src/main/java/com/madang/dao/BookDAO.java:29-62 | definition: the number of '?' placeholders; characterised by CountQAppend and CountQNone |
| SqlStatement.CountQAppend | src/main/java/com/madang/dao/BookDAO.java:29-62 | placeholders of concatenated SQL add up |
| SqlStatement.CountQNone | src/main/java/com/madang/dao/BookDAO.java:59-62 | text without '?' contributes no placeholder |
| SqlStatement.OnePlaceholderAtEnd | src/main/java/com/madang/dao/BookDAO.java:34 | a condition text ending in one '?' holds exactly one placeholder |
| SqlStatement.PlaceholderCountsOne | src/main/java/com/madang/dao/BookDAO.java:34 | the "?" literal is one placeholder |
| SqlStatement.Slots | src/main/java/com/madang/dao/BookDAO.java:72-74 | slot i (1-based) exists exactly for i in 1..n and holds parameter i-1 |
| SqlStatement.SlotsBindFully | src/main/java/com/madang/dao/BookDAO.java:72-74 | when the SQL has as many placeholders as parameters, binding them in order fills every placeholder |
| SqlStatement.BindParams | src/main/java/com/madang/dao/BookDAO.java:72-74 | the setObject loop binds exactly the slots Slots describes |
| PredicateBuilder.ConditionTextsHaveOnePlaceholder | src/main/java/com/madang/dao/BookDAO.java:34-55 | every condition text appended to the WHERE clause holds exactly one placeholder |
| PredicateBuilder.Pick | src/main/java/com/madang/dao/BookDAO.java:32-57 | a filter adds one condition with its value when its value is present and nothing otherwise |
| PredicateBuilder.Select | src/main/java/com/madang/dao/BookDAO.java:31-57 | the applied conditions never outnumber the filters |
| PredicateBuilder.LikePattern | src/main/java/com/madang/dao/BookDAO.java:35 | the LIKE parameter is the trimmed text wrapped in '%' on both sides |
| PredicateBuilder.TextFilter | src/main/java/com/madang/dao/BookDAO.java:32-35 | a text filter is applied exactly when the text is non-null and not blank, with the LIKE pattern as its value |
| PredicateBuilder.IntFilter | src/main/java/com/madang/dao/BookDAO.java:46-56 | a price bound is applied exactly when it is non-null, with the bound as its value |
| PredicateBuilder.ConnectiveHasNoPlaceholder | src/main/java/com/madang/dao/BookDAO.java:33 | " WHERE"/" AND" add no placeholder |
| PredicateBuilder.Clause | src/main/java/com/madang/dao/BookDAO.java:33-55 | definition: " WHERE" before the first condition, " AND" before each later one; characterised by ClauseLast, ClausePrefix and PlaceholdersMatchValues |
| PredicateBuilder.ClauseLast | src/main/java/com/madang/dao/BookDAO.java:33-34 | the clause is the clause of all but the last condition, then its connective, then its text |
| PredicateBuilder.Values | src/main/java/com/madang/dao/BookDAO.java:35-56 | the parameter list has one value per applied condition, in order |
| PredicateBuilder.ClausePrefix | src/main/java/com/madang/dao/BookDAO.java:31-57 | the clause built from the first k conditions is a prefix of the whole clause |
| PredicateBuilder.PlaceholdersMatchValues | src/main/java/com/madang/dao/BookDAO.java:31-57 | the built clause has exactly as many placeholders as parameters |
| PredicateBuilder.ConditionFollowsPredecessors | src/main/java/com/madang/dao/BookDAO.java:31-57 | condition k appears right after the clause of the conditions before it |
| PredicateBuilder.PlaceholderAlignment | src/main/java/com/madang/dao/BookDAO.java:31-74 | condition k's placeholder is the (k+1)-th, and slot k+1 holds condition k's value |
| PredicateBuilder.WhereOnlyWithConditions | src/main/java/com/madang/dao/BookDAO.java:33 | the clause is empty exactly when no filter applies, and otherwise starts with " WHERE" |
| PredicateBuilder.ClauseIgnoresValues | src/main/java/com/madang/dao/BookDAO.java:31-57 | the clause text depends only on which conditions apply, not on their values |
| PredicateBuilder.SelectSameShape | src/main/java/com/madang/dao/BookDAO.java:31-57 | filters with the same conditions and the same presence select the same conditions |
| PredicateBuilder.SameShapeSameClause | src/main/java/com/madang/dao/BookDAO.java:31-57 | filter lists of the same shape produce the same clause |
| PredicateBuilder.StepSameShape | src/main/java/com/madang/dao/BookDAO.java:31-57 | one more filter of the same shape keeps two clauses equal |
| PredicateBuilder.SelectSnoc | src/main/java/com/madang/dao/BookDAO.java:31-57 | selecting one more filter appends its pick |
| PredicateBuilder.SelectThree | src/com/madang/dao/CustomerDAO.java:32-56 | three filters select their picks in order |
| PredicateBuilder.SelectFour | src/main/java/com/madang/dao/BookDAO.java:31-57 | four filters select their picks in order |
| PredicateBuilder.SameShapeThree | src/com/madang/dao/CustomerDAO.java:32-56 | three filters of the same shape give the same clause |
| PredicateBuilder.SameShapeFour | src/main/java/com/madang/dao/BookDAO.java:31-57 | four filters of the same shape give the same clause |
| PredicateBuilder.AppendStep | src/main/java/com/madang/dao/BookDAO.java:32-37 | one if-block of the builder keeps (clause, parameters, hasCondition) in step with the conditions applied so far |
| PredicateBuilder.BookTerms | src/main/java/com/madang/dao/BookDAO.java:31-57 | definition: the four book filters in source order; characterised by BookTermsInOrder |
| PredicateBuilder.BookWhere | src/main/java/com/madang/dao/BookDAO.java:31-57 | definition: the WHERE clause of the book filters; characterised by BookStateIsBookWhere and BookWherePlaceholders |
| PredicateBuilder.BookTermsInOrder | src/main/java/com/madang/dao/BookDAO.java:31-57 | the book conditions are title, publisher, minimum price, maximum price, each present exactly when its filter applies |
| PredicateBuilder.BookClauseDependsOnlyOnPresence | src/main/java/com/madang/dao/BookDAO.java:31-57 | two book searches with the same filters present get the same WHERE clause |
| PredicateBuilder.BlankBookTextIsAbsent | src/main/java/com/madang/dao/BookDAO.java:32 | a blank title or publisher filter is treated as absent |
| PredicateBuilder.BookStateIsBookWhere | src/main/java/com/madang/dao/BookDAO.java:31-57 | the state after the four blocks is the specification's clause and parameters |
| PredicateBuilder.BuildBookWhere | src/main/java/com/madang/dao/BookDAO.java:31-57 | the imperative builder produces BookWhere and its parameter list |
| PredicateBuilder.CustomerTerms | src/com/madang/dao/CustomerDAO.java:32-56 | definition: the three customer filters in source order; characterised by CustomerTermsInOrder |
| PredicateBuilder.CustomerWhere | src/com/madang/dao/CustomerDAO.java:32-56 | definition: the WHERE clause of the customer filters; characterised by CustomerStateIsCustomerWhere and CustomerWherePlaceholders |
| PredicateBuilder.CustomerTermsInOrder | src/com/madang/dao/CustomerDAO.java:32-56 | the customer conditions are name, phone, address, each present exactly when its text is not blank |
| PredicateBuilder.CustomerClauseDependsOnlyOnPresence | src/com/madang/dao/CustomerDAO.java:32-56 | two customer searches with the same filters present get the same WHERE clause |
| PredicateBuilder.CustomerStateIsCustomerWhere | src/com/madang/dao/CustomerDAO.java:32-56 | the state after the three blocks is the specification's clause and parameters |
| PredicateBuilder.BuildCustomerWhere | src/com/madang/dao/CustomerDAO.java:32-56 | the imperative builder produces CustomerWhere and its parameter list |
| DaoQueries.LimitOffsetPlaceholders | src/main/java/com/madang/dao/BookDAO.java:144-150 | the paging suffix holds two placeholders |
| DaoQueries.LimitPlaceholders | src/main/java/com/madang/dao/OrderDAO.java:429-434 | the recent-orders limit holds one placeholder |
| DaoQueries.OrderedQueryPlaceholders | src/main/java/com/madang/dao/BookDAO.java:59-62 | a whitelisted ORDER BY adds no placeholder |
| DaoQueries.CountQueryPlaceholders | src/main/java/com/madang/dao/BookDAO.java:196-197 | the count query's placeholders are its WHERE clause's |
| DaoQueries.NoPlaceholderInBookColumn | src/main/java/com/madang/dao/BookDAO.java:420-429 | no resolved book column holds a '?' |
| DaoQueries.NoPlaceholderInCustomerColumn | src/com/madang/dao/CustomerDAO.java:338-347 | no resolved customer column holds a '?' |
| DaoQueries.NoPlaceholderInOrderColumn | src/main/java/com/madang/dao/OrderDAO.java:579-589 | no resolved order column holds a '?' |
| DaoQueries.NoPlaceholderInRecentColumn | src/main/java/com/madang/dao/OrderDAO.java:591-600 | no resolved recent-orders column holds a '?' |
| DaoQueries.NoPlaceholderInDirection | src/main/java/com/madang/dao/BookDAO.java:431-434 | ASC and DESC hold no '?' |
| DaoQueries.BookWherePlaceholders | src/main/java/com/madang/dao/BookDAO.java:31-57 | the book WHERE clause has one placeholder per parameter |
| DaoQueries.BookListSql | src/main/java/com/madang/dao/BookDAO.java:29-62 | definition: getBooks' SQL text; characterised by BookListPlaceholders and BookListSqlDependsOnlyOnPresence |
| DaoQueries.BookListPlaceholders | src/main/java/com/madang/dao/BookDAO.java:25-74 | the full book listing query has one placeholder per parameter |
| DaoQueries.BookCountSql | src/main/java/com/madang/dao/BookDAO.java:196-197 | definition: the book count query; characterised by BookCountPlaceholders |
| DaoQueries.BookCountPlaceholders | src/main/java/com/madang/dao/BookDAO.java:195-209 | the book count query has one placeholder per parameter |
| DaoQueries.BookPageSql | src/main/java/com/madang/dao/BookDAO.java:144-150 | definition: the paged book query; characterised by BookPagePlaceholders |
| DaoQueries.BookPagePlaceholders | src/main/java/com/madang/dao/BookDAO.java:144-167 | the paged book query has the filter placeholders plus two |
| DaoQueries.BookListSqlDependsOnlyOnPresence | src/main/java/com/madang/dao/BookDAO.java:25-62 | the listing SQL depends on which filters are present, the sort key and the direction, never on filter values |
| DaoQueries.GetBooksStatement | src/main/java/com/madang/dao/BookDAO.java:25-74 | getBooks prepares the listing SQL and binds its parameters in order, filling every placeholder |
| DaoQueries.GetBooksPagedStatements | src/main/java/com/madang/dao/BookDAO.java:104-186 | the paged search prepares the count and page queries; the page query binds the filter values, then pageSize, then the corrected offset; both are fully bound |
| DaoQueries.PagingSlots | src/main/java/com/madang/dao/BookDAO.java:161-167 | binding pageSize and offset after the n filter values fills slots n+1 and n+2 |
| DaoQueries.CustomerWherePlaceholders | src/com/madang/dao/CustomerDAO.java:32-56 | the customer WHERE clause has one placeholder per parameter |
| DaoQueries.CustomerListSql | src/com/madang/dao/CustomerDAO.java:23-67 | definition: getCustomers' SQL text; characterised by CustomerListPlaceholders and CustomerListSqlDependsOnlyOnPresence |
| DaoQueries.CustomerListPlaceholders | src/com/madang/dao/CustomerDAO.java:23-67 | the customer listing query has one placeholder per parameter |
| DaoQueries.CustomerCountSql | src/com/madang/dao/CustomerDAO.java:178-190 | definition: the customer count query; characterised by CustomerCountPlaceholders |
| DaoQueries.CustomerCountPlaceholders | src/com/madang/dao/CustomerDAO.java:178-190 | the customer count query has one placeholder per parameter |
| DaoQueries.CustomerPageSql | src/com/madang/dao/CustomerDAO.java:125-148 | definition: the paged customer query; characterised by CustomerPagePlaceholders |
| DaoQueries.CustomerPagePlaceholders | src/com/madang/dao/CustomerDAO.java:125-148 | the paged customer query has the filter placeholders plus two |
| DaoQueries.CustomerListSqlDependsOnlyOnPresence | src/com/madang/dao/CustomerDAO.java:23-56 | the customer SQL depends only on which filters are present |
| DaoQueries.ListingDirectionKeepsNormalized | src/com/madang/dao/CustomerDAO.java:349-352 | re-resolving a PageRequest's normalised direction in a listing keeps it |
| DaoQueries.GetCustomersStatement | src/com/madang/dao/CustomerDAO.java:23-90 | getCustomers prepares the listing SQL and binds its parameters in order, filling every placeholder |
| DaoQueries.GetCustomersPagedStatements | src/com/madang/dao/CustomerDAO.java:92-148 | the paged customer search binds the filter values, then pageSize, then the corrected offset; both queries are fully bound |
| DaoQueries.OrderHistorySql | src/main/java/com/madang/dao/OrderDAO.java:30-35 | definition: the order history query; characterised by OrderHistoryPlaceholders |
| DaoQueries.OrderHistoryPlaceholders | src/main/java/com/madang/dao/OrderDAO.java:30-35 | the order history query holds one placeholder |
| DaoQueries.OrderHistoryPageSql | src/main/java/com/madang/dao/OrderDAO.java:77-84 | definition: the paged order history query; characterised by OrderHistoryPagePlaceholders |
| DaoQueries.OrderHistoryPagePlaceholders | src/main/java/com/madang/dao/OrderDAO.java:77-84 | the paged order history query holds three placeholders |
| DaoQueries.OrderCountSql | src/main/java/com/madang/dao/OrderDAO.java:129 | definition: the order count query; characterised by OrderCountPlaceholders |
| DaoQueries.OrderCountPlaceholders | src/main/java/com/madang/dao/OrderDAO.java:129 | the order count query holds one placeholder |
| DaoQueries.RecentOrdersSql | src/main/java/com/madang/dao/OrderDAO.java:429-434 | definition: the recent-orders query; characterised by RecentOrdersPlaceholders |
| DaoQueries.RecentOrdersPlaceholders | src/main/java/com/madang/dao/OrderDAO.java:429-434 | the recent-orders query holds one placeholder |
| DaoQueries.SetIntSingle | src/main/java/com/madang/dao/OrderDAO.java:44 | one setInt at position 1 binds the same slot as binding the one-value list |
| DaoQueries.SetIntInOrder | src/main/java/com/madang/dao/OrderDAO.java:93-95 | the successive setInt calls bind the same slots as binding the list in order |
| DaoQueries.OrderHistoryStatement | src/main/java/com/madang/dao/OrderDAO.java:28-44 | the history query binds the customer id to its one placeholder |
| DaoQueries.OrderHistoryPagedStatements | src/main/java/com/madang/dao/OrderDAO.java:70-95 | the count query binds the customer id; the page query binds customer id, pageSize and the corrected offset, in that order |
| DaoQueries.RecentOrdersStatement | src/main/java/com/madang/dao/OrderDAO.java:427-443 | the recent-orders query binds the limit to its one placeholder |
| DaoQueries.OrderHistoryDirections | src/main/java/com/madang/dao/OrderDAO.java:636-639 | the order history direction is ASC only for "asc" in any case; a PageRequest's normalised direction is kept |
| DaoQueries.OrderHistoryDefaultsDisagree | src/main/java/com/madang/dao/OrderDAO.java:636-639 | with no direction the unpaged history sorts DESC while the paged one, through PageRequest, sorts ASC |
| DaoQueries.CustomerOrders | src/main/java/com/madang/dao/OrderDAO.java:128-138 | the counted rows are exactly the customer's orders |
| DaoQueries.HistoryRows | src/main/java/com/madang/dao/OrderDAO.java:30-35 | the listed rows are exactly the customer's orders whose book exists (the inner JOIN) |
| DaoQueries.HistoryRowsAtMostCount | src/main/java/com/madang/dao/OrderDAO.java:70-151 | the history never lists more rows than the count reports, and exactly as many when every ordered book exists |
| DaoQueries.CountMayExceedRows | src/main/java/com/madang/dao/OrderDAO.java:129 | an order for a missing book is counted but not listed |
| DaoQueries.SegmentOf | src/main/java/com/madang/dao/OrderDAO.java:692-698 | definition: the CASE over total spending; characterised by SegmentBands and SegmentMonotone |
| DaoQueries.SegmentPosition | src/main/java/com/madang/dao/OrderDAO.java:708 | each segment has a position 1..4 in the ORDER BY FIELD list |
| DaoQueries.SegmentBands | src/main/java/com/madang/dao/OrderDAO.java:692-698 | VIP from 100000, 우수 from 50000, 일반 from 10000, 신규 below; a customer with no orders (NULL sum) is 신규 |
| DaoQueries.SegmentMonotone | src/main/java/com/madang/dao/OrderDAO.java:692-708 | spending more never moves a customer to a later segment |
| DaoQueries.SegmentLabelsDistinct | src/main/java/com/madang/dao/OrderDAO.java:694-697 | the four segment labels are distinct |
| JsonText.EscapeJson | src/main/java/com/madang/servlet/ApiServlet.java:197-204 | null escapes to ""; the result holds no raw newline, carriage return or tab |
| JsonText.EscapeChar | src/main/java/com/madang/servlet/ApiServlet.java:199-203 | each character escapes to one or two characters |
| JsonText.ReplaceAppend | src/main/java/com/madang/servlet/ApiServlet.java:199 | replacing a character distributes over concatenation |
| JsonText.ReplaceOne | src/main/java/com/madang/servlet/ApiServlet.java:199 | on a single character, replace substitutes or keeps it |
| JsonText.ChainAppend | src/main/java/com/madang/servlet/ApiServlet.java:199-203 | the five-replace chain distributes over concatenation |
| JsonText.ChainOfChar | src/main/java/com/madang/servlet/ApiServlet.java:199-203 | on one character the chain yields that character's escape (the backslash pass first, so nothing is escaped twice) |
| JsonText.EscapeJsonIsPerCharacter | src/main/java/com/madang/servlet/ApiServlet.java:197-204 | the chain of replaces equals escaping each character on its own |
| JsonText.ClosingQuote | src/main/java/com/madang/servlet/ApiServlet.java:191 | a found closing quote is an unescaped '"' inside the text |
| JsonText.EscapeCharShape | src/main/java/com/madang/servlet/ApiServlet.java:199-203 | an escape is the character itself (never a backslash or quote) or a backslash and a code that reads back as it |
| JsonText.UnescapeEscapeEach | src/main/java/com/madang/servlet/ApiServlet.java:197-204 | unescaping the escaped text gives the text back |
| JsonText.ClosingQuoteAfterEscape | src/main/java/com/madang/servlet/ApiServlet.java:191 | in escaped text followed by '"', the first unescaped quote is that one |
| JsonText.EscapeJsonRoundTrip | src/main/java/com/madang/servlet/ApiServlet.java:197-204 | escaping is reversible: unescape(escapeJson(s)) == s |
| JsonText.OtherControlCharactersPassThrough | src/main/java/com/madang/servlet/ApiServlet.java:197-204 | a control character other than \n, \r, \t (here U+0008) is left raw |
| JsonText.SuccessResponse | src/main/java/com/madang/servlet/ApiServlet.java:183-185 | the success envelope is the fixed prefix, the data unchanged, then '}' |
| JsonText.ErrorResponse | src/main/java/com/madang/servlet/ApiServlet.java:190-192 | the error envelope starts with the fixed prefix and ends with '}' |
| JsonText.ErrorResponseCarriesMessage | src/main/java/com/madang/servlet/ApiServlet.java:190-192 | the "error" string of an error envelope reads back as the message ("" for null) |
| JsonText.ResponsesDistinguishable | src/main/java/com/madang/servlet/ApiServlet.java:183-192 | no success envelope equals an error envelope |
| JsonText.Json | src/main/java/com/madang/servlet/ApiServlet.java:209-224 | definition: the JSON text of a value; characterised by ToJson, StringValueRoundTrip and ListSnoc |
| JsonText.Rendered | src/main/java/com/madang/servlet/ApiServlet.java:216-219 | each list element is rendered once, in order |
| JsonText.ToJson | src/main/java/com/madang/servlet/ApiServlet.java:209-224 | the StringBuilder loop renders exactly Json(v) |
| JsonText.StringValueRoundTrip | src/main/java/com/madang/servlet/ApiServlet.java:211 | a string value is quoted, its first unescaped quote is the closing one, and it reads back as the string |
| JsonText.ShortLists | src/main/java/com/madang/servlet/ApiServlet.java:213-221 | the empty list renders "[]" and a one-element list "[" + element + "]" |
| JsonText.ListSnoc | src/main/java/com/madang/servlet/ApiServlet.java:216-218 | appending an element adds "," and its rendering before the ']' |
| QueryParams.DropTrailingEmpty | src/main/java/com/madang/servlet/ApiServlet.java:129 | split's result is a prefix of the raw fields whose dropped tail is all empty and whose last field is non-empty |
| QueryParams.JavaSplit | src/main/java/com/madang/servlet/ApiServlet.java:129 | no piece holds the separator; without a separator the text is its own single piece |
| QueryParams.IndexOf | src/main/java/com/madang/servlet/ApiServlet.java:131 | the first occurrence of the character |
| QueryParams.SplitFirst | src/main/java/com/madang/servlet/ApiServlet.java:131-135 | split("=", 2) cuts at the first '=': the key holds no '=', and key + "=" + value rebuilds the pair |
| QueryParams.Entry | src/main/java/com/madang/servlet/ApiServlet.java:131-136 | a pair without '=' maps its text to ""; a pair fails only when its value fails to decode |
| QueryParams.Collect | src/main/java/com/madang/servlet/ApiServlet.java:130-137 | definition: the pairs folded into a map; characterised by CollectFails, CollectKeys and LastDuplicateWins |
| QueryParams.Parse | src/main/java/com/madang/servlet/ApiServlet.java:121-139 | definition: the whole parse of a query; characterised by ParseQueryParams and EmptyQuery |
| QueryParams.ParseQueryParams | src/main/java/com/madang/servlet/ApiServlet.java:121-139 | the loop over the pairs computes Parse |
| QueryParams.CollectFails | src/main/java/com/madang/servlet/ApiServlet.java:130-137 | parsing fails exactly when some pair fails to decode |
| QueryParams.FailureIsFinal | src/main/java/com/madang/servlet/ApiServlet.java:133 | one bad pair fails the whole parse |
| QueryParams.CollectKeys | src/main/java/com/madang/servlet/ApiServlet.java:130-137 | the parsed keys are exactly the keys of the pairs |
| QueryParams.LastDuplicateWins | src/main/java/com/madang/servlet/ApiServlet.java:133-135 | a repeated key keeps the value of its last pair |
| QueryParams.KeysIgnoreDecoder | src/main/java/com/madang/servlet/ApiServlet.java:130-137 | the decoder affects values, not which keys appear |
| QueryParams.EmptyQuery | src/main/java/com/madang/servlet/ApiServlet.java:125-127 | a null or empty query gives an empty map |
| QueryParams.TrailingSeparatorsDropped | src/main/java/com/madang/servlet/ApiServlet.java:129 | "a&&" splits to ["a"] |
| QueryParams.LeadingSeparatorKept | src/main/java/com/madang/servlet/ApiServlet.java:129 | "&a" splits to ["", "a"], so the empty key "" is stored |
| QueryParams.CutAtFirstEquals | src/main/java/com/madang/servlet/ApiServlet.java:131 | "x=a=b" gives key x and value "a=b"; "flag" has no value |
| Sessions.Expired | src/main/java/com/madang/util/SessionManager.java:34-36 | definition of `isExpired`; characterised by ExpiryIsStrict and ExpiryIsPermanent |
| Sessions.ExpiryIsStrict | src/main/java/com/madang/util/SessionManager.java:34-36 | the timeout is 7200000 ms; a session is still live at exactly the timeout and expired one ms later |
| Sessions.ExpiryIsPermanent | src/main/java/com/madang/util/SessionManager.java:34-36 | once expired a session stays expired |
| Sessions.Lookup | src/main/java/com/madang/util/SessionManager.java:57-74 | a session is found exactly when the id is non-null, non-empty, stored and not expired, and it is the stored one |
| Sessions.AfterLookup | src/main/java/com/madang/util/SessionManager.java:67-71 | a lookup removes the entry exactly when it finds it expired, and otherwise changes nothing |
| Sessions.Removed | src/main/java/com/madang/util/SessionManager.java:79-83 | null removes nothing; otherwise the id is gone and every other entry stays |
| Sessions.Cleaned | src/main/java/com/madang/util/SessionManager.java:88-92 | the sweep keeps exactly the unexpired entries, unchanged |
| Sessions.CreatedSessionIsFound | src/main/java/com/madang/util/SessionManager.java:48-74 | a created session is found under its id until the timeout |
| Sessions.FreshIdAddsOne | src/main/java/com/madang/util/SessionManager.java:50 | a fresh id adds one session |
| Sessions.MissingIdFindsNothing | src/main/java/com/madang/util/SessionManager.java:58-60 | a null or empty id finds nothing and changes nothing |
| Sessions.ExpiredLookupEvicts | src/main/java/com/madang/util/SessionManager.java:67-71 | looking up an expired id returns nothing and removes just that id |
| Sessions.CleanupPreservesLookups | src/main/java/com/madang/util/SessionManager.java:88-92 | sweeping changes no lookup's answer |
| Sessions.CleanupIdempotent | src/main/java/com/madang/util/SessionManager.java:88-92 | sweeping twice is sweeping once |
| Sessions.CleanedStoreEvictsNothing | src/main/java/com/madang/util/SessionManager.java:67-92 | after a sweep, a lookup at the same time removes nothing |
| Sessions.SessionStore.constructor | src/main/java/com/madang/util/SessionManager.java:40 | the store starts empty |
| Sessions.SessionStore.CreateSession | src/main/java/com/madang/util/SessionManager.java:48-52 | stores the new session under the given id and returns that id |
| Sessions.SessionStore.GetSession | src/main/java/com/madang/util/SessionManager.java:57-74 | returns Lookup and leaves the store as AfterLookup |
| Sessions.SessionStore.RemoveSession | src/main/java/com/madang/util/SessionManager.java:79-83 | the store becomes Removed |
| Sessions.SessionStore.CleanupExpiredSessions | src/main/java/com/madang/util/SessionManager.java:88-92 | the store becomes Cleaned |
| Sessions.SessionStore.GetSessionCount | src/main/java/com/madang/util/SessionManager.java:97-99 | returns the number of stored sessions |
| Sessions.LoginLookupLogout | src/main/java/com/madang/util/SessionManager.java:48-83 | login, lookup and logout leave the store as it was, minus the id |
| Config.EnvKey | src/main/java/com/madang/util/ConfigManager.java:60 | the environment name has the key's length, no '.', and no lower-case letter |
| Config.EnvKeyIdempotent | src/main/java/com/madang/util/ConfigManager.java:60 | deriving the name twice changes nothing |
| Config.EnvKeyExample | src/main/java/com/madang/util/ConfigManager.java:60 | "db.url" reads DB_URL |
| Config.GetString | src/main/java/com/madang/util/ConfigManager.java:58-74 | a non-empty environment value wins, then a non-empty property, then the default |
| Config.EmptyOnlyFromDefault | src/main/java/com/madang/util/ConfigManager.java:62-73 | "" is returned only when it is the default |
| Config.EmptyEnvIsUnset | src/main/java/com/madang/util/ConfigManager.java:62 | an empty environment variable counts as unset |
| Config.GetStringOrNull | src/main/java/com/madang/util/ConfigManager.java:79-81 | the one-argument form is the lookup with a null default and never returns "" |
| Config.GetInt | src/main/java/com/madang/util/ConfigManager.java:86-98 | an int default gives an int; a missing value gives the default |
| Config.GetLong | src/main/java/com/madang/util/ConfigManager.java:103-115 | a long default gives a long; a missing value gives the default |
| Config.GetBoolean | src/main/java/com/madang/util/ConfigManager.java:120-127 | a missing value gives the default; a present one is true exactly when its trimmed text is "true" ignoring case |
| Config.TrimIntToString | src/main/java/com/madang/util/ConfigManager.java:93 | trimming a number's text changes nothing |
| Config.GetIntReadsStoredNumber | src/main/java/com/madang/util/ConfigManager.java:86-98 | an environment value holding an int's text reads back as that int |
| Config.GetIntFallsBack | src/main/java/com/madang/util/ConfigManager.java:94-96 | a value that does not parse as an int gives the default |
| Config.GetLongReadsStoredNumber | src/main/java/com/madang/util/ConfigManager.java:103-115 | an environment value holding a long's text reads back as that long |
| Config.GetBooleanIgnoresDefaultWhenSet | src/main/java/com/madang/util/ConfigManager.java:120-127 | when a value is present the default does not matter |
| Config.ConfigStore.constructor | src/main/java/com/madang/util/ConfigManager.java:28-30 | class initialisation loads the file when it can be read and otherwise starts empty and uninitialised |
| Config.ConfigStore.LoadConfig | src/main/java/com/madang/util/ConfigManager.java:35-49 | does nothing once initialised; otherwise adds the file's properties and marks initialised, or changes nothing when the file cannot be read |
| Config.ConfigStore.Reload | src/main/java/com/madang/util/ConfigManager.java:159-163 | clears the properties and loads afresh: the file's contents when readable, otherwise empty and uninitialised |
| Config.NoPropertiesFallsBack | src/main/java/com/madang/util/ConfigManager.java:58-74 | with no properties loaded a lookup reads the environment variable or else the default |
| Config.ReloadThenGet | src/main/java/com/madang/util/ConfigManager.java:159-163 | after reload a lookup sees exactly the file's properties, and after a failed reload every key falls back to the environment or the default |
| Uptime.UptimeSeconds | src/main/java/com/madang/servlet/HealthServlet.java:34 | the whole seconds elapsed, truncated toward zero in both directions |
| Uptime.ClockBackTruncatesTowardZero | src/main/java/com/madang/servlet/HealthServlet.java:34 | a clock 1.5 s behind the start gives -1, not -2 |
| Uptime.SpanOf | src/main/java/com/madang/servlet/HealthServlet.java:78-81 | definition: the four divisions; characterised by SpanOfDecomposes and ClockBackFormatLosesTime |
| Uptime.SpanOfDecomposes | src/main/java/com/madang/servlet/HealthServlet.java:78-81 | for a non-negative total, hours < 24, minutes < 60, seconds < 60, and the parts sum back to the total |
| Uptime.Decompose | src/main/java/com/madang/servlet/HealthServlet.java:78-81 | the four divisions are a mixed-radix decomposition of the total |
| Uptime.DivModUnique | src/main/java/com/madang/servlet/HealthServlet.java:78-81 | quotient and remainder are determined by t = q·m + r with 0 ≤ r < m |
| Uptime.Component | src/main/java/com/madang/servlet/HealthServlet.java:84-87 | a component is at least two characters, starts with a printing character and ends in its unit |
| Uptime.Layout | src/main/java/com/madang/servlet/HealthServlet.java:83-87 | the built text is non-empty, starts with a printing character and ends in 's' |
| Uptime.FirstOfLead | src/main/java/com/madang/servlet/HealthServlet.java:84-86 | an optional leading component keeps the first character printing and the last 's' |
| Uptime.TrimKeepsLayout | src/main/java/com/madang/servlet/HealthServlet.java:89 | the final trim removes nothing |
| Uptime.FormatUptime | src/main/java/com/madang/servlet/HealthServlet.java:77-90 | definition of `formatUptime`; characterised by ParseFormatUptime and FormatExamples |
| Uptime.FormatSpan | src/main/java/com/madang/servlet/HealthServlet.java:77-90 | the formatted text is non-empty with no leading or trailing blank |
| Uptime.ComponentsAreFields | src/main/java/com/madang/servlet/HealthServlet.java:83-87 | the components are at least one and none holds a space |
| Uptime.NoSpaceInComponent | src/main/java/com/madang/servlet/HealthServlet.java:84-87 | a number followed by its unit holds no space |
| Uptime.JoinLead | src/main/java/com/madang/servlet/HealthServlet.java:84-86 | appending "Nd " before the rest is joining one more field with ' ' |
| Uptime.LayoutJoinsComponents | src/main/java/com/madang/servlet/HealthServlet.java:83-87 | the built text is the shown components joined by single spaces |
| Uptime.ComponentValueOf | src/main/java/com/madang/servlet/HealthServlet.java:84-87 | a component reads back as its value times its unit's seconds |
| Uptime.TotalLead | src/main/java/com/madang/servlet/HealthServlet.java:84-86 | a shown component adds its seconds to the total of the rest; a hidden one adds nothing |
| Uptime.TotalOfShown | src/main/java/com/madang/servlet/HealthServlet.java:83-87 | the shown components sum to the seconds of the shown parts plus the seconds part |
| Uptime.TotalOfComponents | src/main/java/com/madang/servlet/HealthServlet.java:83-87 | the components of a span sum back to its seconds |
| Uptime.ParseFormatSpan | src/main/java/com/madang/servlet/HealthServlet.java:83-89 | the formatted text of a normalised span reads back as its seconds |
| Uptime.ParseFormatUptime | src/main/java/com/madang/servlet/HealthServlet.java:77-90 | for every non-negative uptime up to Long.MAX_VALUE, parsing the formatted uptime gives the uptime back, so zero parts are left out without losing information |
| Uptime.ClockBackFormatLosesTime | src/main/java/com/madang/servlet/HealthServlet.java:77-90 | with the clock set back, -3661 seconds splits into (0, -1, -1, -1), prints as "-1s" because only positive parts are shown, and reads back as -1 |
| Uptime.FormatExamples | src/main/java/com/madang/servlet/HealthServlet.java:77-90 | 0 s formats as "0s" and 3600 s as "1h 0s" |
| ApiPolicy.RequireAdmin | src/main/java/com/madang/servlet/ApiServlet.java:279-289 | allowed exactly for a present session whose role is admin or manager; "로그인이 필요합니다." without a session, "관리자 권한이 필요합니다." otherwise |
| ApiPolicy.RoleCheck | src/main/java/com/madang/servlet/ApiServlet.java:295-309 | definition: the role list check; characterised by RequireRole and RoleCheckMonotone |
| ApiPolicy.RequireRole | src/main/java/com/madang/servlet/ApiServlet.java:295-309 | the loop over the allowed roles decides as RoleCheck: login required without a session, allowed when the role is listed, "권한이 부족합니다." otherwise |
| ApiPolicy.RequireSelfOrAdmin | src/main/java/com/madang/servlet/ApiServlet.java:315-330 | allowed exactly for a present session that is admin, manager or the target customer; refusals carry the login or insufficient-role message |
| ApiPolicy.RequireAdminIsRoleCheck | src/main/java/com/madang/servlet/ApiServlet.java:279-309 | requireAdmin allows exactly whom requireRole("admin", "manager") allows |
| ApiPolicy.NoRoleAllowsNobody | src/main/java/com/madang/servlet/ApiServlet.java:302-308 | an empty role list refuses everybody |
| ApiPolicy.NullRoleIsRefused | src/main/java/com/madang/servlet/ApiServlet.java:286-303 | a session without a role passes neither requireRole nor requireAdmin |
| ApiPolicy.AdminMayActOnAnyone | src/main/java/com/madang/servlet/ApiServlet.java:325 | an admin passes the self-or-admin check for any customer, and every session passes it for itself |
| ApiPolicy.RoleCheckMonotone | src/main/java/com/madang/servlet/ApiServlet.java:302-306 | allowing more roles never refuses a session that was allowed |
| ApiPolicy.ExpiredSessionMustLogIn | src/main/java/com/madang/servlet/ApiServlet.java:270-283 | a request carrying an expired session id is told to log in |
| ApiPolicy.Dispatch | src/main/java/com/madang/servlet/ApiServlet.java:51-73 | definition: the `try` block up to the response text; characterised by StatusTellsOutcome, BodyReadFailureIsServerError and UnsupportedMethodIsOk |
| ApiPolicy.ServletService | src/main/java/com/madang/servlet/ApiServlet.java:39-88 | exactly a preflight gets status 204 with no body; otherwise a failed query parse or body read, which happen before the method is looked at, gives 500 whatever the method |
| ApiPolicy.HandlerHandle | src/com/madang/server/ApiHandler.java:24-65 | exactly a preflight gets status 204 with no body; otherwise a failed query parse or body read (ApiHandler.java:36-37) gives 500 whatever the method |
| ApiPolicy.BodyReadFailureIsServerError | src/com/madang/server/ApiHandler.java:36-37 | a body that cannot be read gives the same 500 with the exception's message at both entry points, for every method including those without a handler |
| ApiPolicy.StatusTellsOutcome | src/main/java/com/madang/servlet/ApiServlet.java:75-86 | past the preflight, 200 exactly when a text was produced (sent unchanged), 403 in the servlet exactly for a permission failure, 500 in the handler exactly for any exception |
| ApiPolicy.StatusesSent | src/main/java/com/madang/servlet/ApiServlet.java:46-86 | the servlet sends 200, 204, 403 or 500 and the handler 200, 204 or 500; only 204 has no body |
| ApiPolicy.EntryPointsDifferOnlyOnPermission | src/com/madang/server/ApiHandler.java:58-64 | the servlet and the handler answer differently exactly when a permission failure is thrown |
| ApiPolicy.UnsupportedMethodIsOk | src/main/java/com/madang/servlet/ApiServlet.java:71-75 | an unsupported method whose body was read is answered 200 with the error envelope, not a success |
| ApiPolicy.MalformedQueryIsServerError | src/main/java/com/madang/servlet/ApiServlet.java:53-86 | a query that fails to decode gives 500 with the decoder's message |
| ApiPolicy.RefusalIsForbidden | src/main/java/com/madang/servlet/ApiServlet.java:77-81 | a refused permission check is a 403 whose "error" string reads back as the check's message |
| ApiPolicy.NullMessageDefaultsOnlyOn500 | src/main/java/com/madang/servlet/ApiServlet.java:77-86 | a 403 with a null message has an empty "error" string; a 500 with a null message gets "알 수 없는 오류가 발생했습니다." |
| JavaText.Wrap32 | src/main/java/com/madang/model/PageRequest.java:40 | an int result is the exact value reduced mod 2^32 into the int range, and equals it when in range |
| JavaText.JavaDiv | src/main/java/com/madang/servlet/HealthServlet.java:34 | Java's `/` truncates toward zero |
| JavaText.MulAtLeast | src/main/java/com/madang/servlet/HealthServlet.java:78-81 | a non-negative number times a positive one is at least the first |
| JavaText.JavaRem | src/main/java/com/madang/servlet/HealthServlet.java:79-81 | Java's `%` takes the dividend's sign and satisfies a = (a/b)·b + a%b |
| JavaText.ToLower | src/main/java/com/madang/dao/OrderDAO.java:581 | lower-casing keeps the length |
| JavaText.ToUpper | src/main/java/com/madang/util/ConfigManager.java:60 | upper-casing keeps the length |
| JavaText.TrimmedAway | src/main/java/com/madang/util/ConfigManager.java:93 | definition: the characters `trim` removes, those ≤ U+0020; characterised by LeadingTrim, TrailingTrim and Trim |
| JavaText.IsWhitespace | src/main/java/com/madang/dao/BookDAO.java:31 | definition: `Character.isWhitespace`; characterised by BlankBookTextIsAbsent |
| JavaText.IsBlank | src/main/java/com/madang/dao/BookDAO.java:31 | definition of `isBlank`: every character is whitespace; characterised by BlankBookTextIsAbsent and TextFilter |
| JavaText.Present | src/main/java/com/madang/dao/BookDAO.java:31 | definition: non-null and not blank; characterised by TextFilter |
| JavaText.LeadingTrim | src/main/java/com/madang/util/ConfigManager.java:93 | trim removes exactly the leading run of characters ≤ ' ' |
| JavaText.TrailingTrim | src/main/java/com/madang/util/ConfigManager.java:93 | trim removes exactly the trailing run of characters ≤ ' ' |
| JavaText.Trim | src/main/java/com/madang/dao/BookDAO.java:35 | the trimmed text is no longer, starts and ends with a character above ' ', and a text already so is unchanged |
| JavaText.Replace | src/main/java/com/madang/servlet/ApiServlet.java:199-203 | replacing c by a text without c leaves no c, and every character of the result comes from the text or the replacement |
| JavaText.ReplaceAbsent | src/main/java/com/madang/servlet/ApiServlet.java:199-203 | replacing an absent character changes nothing |
| JavaText.ReplaceCharLength | src/main/java/com/madang/util/ConfigManager.java:60 | replacing one character by another keeps the length and changes exactly the matching positions |
| JavaText.SplitAll | src/main/java/com/madang/servlet/ApiServlet.java:129 | the raw fields are at least one and hold no separator |
| JavaText.JoinSplitAll | src/main/java/com/madang/servlet/ApiServlet.java:129 | joining the raw fields with the separator rebuilds the text |
| JavaText.SplitAllWithoutSep | src/main/java/com/madang/servlet/ApiServlet.java:129 | a text without the separator is one field |
| JavaText.SplitAllAfterField | src/main/java/com/madang/servlet/ApiServlet.java:129 | a first field followed by the separator splits off |
| JavaText.JoinWithSnoc | src/main/java/com/madang/servlet/ApiServlet.java:216-218 | joining one more field appends the separator and the field |
| JavaText.SplitAllJoinWith | src/main/java/com/madang/servlet/HealthServlet.java:83-87 | splitting fields joined by a separator they lack gives the fields back |
| JavaText.DigitChar | src/main/java/com/madang/servlet/HealthServlet.java:84-87 | a digit value is a decimal digit character |
| JavaText.NatToString | src/main/java/com/madang/servlet/HealthServlet.java:84-87 | the decimal text of a natural is digits without a leading zero |
| JavaText.IntToString | src/main/java/com/madang/servlet/HealthServlet.java:84-87 | the decimal text of an integer starts with a digit exactly when it is non-negative and is otherwise digits |
| JavaText.DigitsValueOfNatToString | src/main/java/com/madang/servlet/HealthServlet.java:84-87 | the digits of a natural read back as that natural |
| JavaText.IsDigit | src/main/java/com/madang/util/ConfigManager.java:93 | definition: an ASCII decimal digit; characterised by ParseInteger and ParseIntegerSyntaxExamples |
| JavaText.DigitsValue | src/main/java/com/madang/util/ConfigManager.java:93 | definition: the value of a digit string; characterised by DigitsValueOfNatToString |
| JavaText.ParseInteger | src/main/java/com/madang/util/ConfigManager.java:93 | a parsed number lies in the type's range and comes from an optional sign followed by at least one digit; "" does not parse |
| JavaText.ParseIntegerSyntaxExamples | src/main/java/com/madang/util/ConfigManager.java:93 | "+42" parses to 42, while a lone "-" and "4 2" do not parse |
| JavaText.ParseIntegerOfIntToString | src/main/java/com/madang/util/ConfigManager.java:93 | the decimal text of an in-range number parses back to it |

## Left out

- Database execution is not modelled: connections, `ResultSet` reading and row mapping. The DAOs are modelled up to the SQL text and the bound parameters. The exception is order history, whose rows are modelled as a filter over order rows.
- The statistics and dashboard queries (GROUP BY, SUM, AVG) are modelled only through their sort resolvers and the segment rule. Their bodies are fixed SQL.
- The MAX+1 id lookups in the insert paths and the insert, update and delete statements are not modelled; they are plain JDBC calls.
- `toLowerCase`, `toUpperCase` and `equalsIgnoreCase` are modelled on ASCII letters only. Locale-sensitive and non-ASCII case mapping is not modelled.
- PageRequestModel.PageRequest.Offset: returns the corrected offset of the Findings row, computed without 32-bit wrap-around. `getOffset` as written is `PageRequestModel.JavaOffset`.
- DaoQueries.GetBooksPagedStatements: binds the corrected offset of the Findings row. `BookDAO.java:167` binds the wrapping `int`, which for page 21474838 at size 100 is -2147483596.
- DaoQueries.GetCustomersPagedStatements: binds the corrected offset of the Findings row. `CustomerDAO.java:148` binds the wrapping `int`.
- DaoQueries.OrderHistoryPagedStatements: binds the corrected offset of the Findings row. `OrderDAO.java:95` binds the wrapping `int`.
- JavaText.ParseInteger: accepts only the ASCII digits '0'..'9'. `Integer.parseInt` and `Long.parseLong` read digits with `Character.digit`, so they also accept other Unicode decimal digits (fullwidth "４２" reads as 42).
- Config.GetInt: through `JavaText.ParseInteger`, a value written in non-ASCII decimal digits gives the default, where `Integer.parseInt` reads the number.
- Config.GetLong: through `JavaText.ParseInteger`, a value written in non-ASCII decimal digits gives the default, where `Long.parseLong` reads the number.
- `isBlank` is modelled on the full `Character.isWhitespace` set: U+0009–U+000D, U+001C–U+001F, the space, U+1680, U+2000–U+2006, U+2008–U+200A, U+2028, U+2029, U+205F and U+3000, without the no-break spaces. `trim` removes characters up to U+0020, as Java's does.
- Concurrency is not modelled. This covers the `ConcurrentHashMap` session store and the race between the count query and the page query; operations are sequential.
- `URLDecoder.decode` is a parameter of the query parser. A failed decode is the only error path, and its exception message is a parameter.
- The two entry points feed the parser different text, and the model does not capture the difference. The servlet passes the raw `getQueryString()`. `ApiHandler.handle` passes `getRequestURI().getQuery()`, which `java.net.URI` has already percent-decoded. In the handler, an encoded `%26` or `%3D` therefore splits fields, and values are decoded twice: `%25zz` reaches the decoder as `%zz` and fails with a 500 where the servlet answers 200. The model parses whatever text it is given, so `MalformedQueryIsServerError` and `EntryPointsDifferOnlyOnPermission` compare the entry points on the same parse.
- The session id (`UUID.randomUUID`) and the clock (`System.currentTimeMillis`) are parameters.
- `JsonText.ToJson`: numbers are integers, rendered in decimal. Java's rendering of `Double` values is not modelled. Any other object's `toString()` is passed in as text.
- `Uptime.ParseFormatUptime` holds for every non-negative total up to Long.MAX_VALUE. A negative total, which the clock going back produces, loses its negative days, hours and minutes in the text (`Uptime.ClockBackFormatLosesTime`). Java `long` overflow in `currentTimeMillis() - START_TIME` and in the session age is not modelled, because millisecond clocks stay far from it.
- `PageResponseModel.TotalPagesIsCeiling` is stated for row counts up to Integer.MAX_VALUE. Above that the `(int)` cast saturates, and that case is modelled by `SaturateToInt32` but not characterised as a ceiling. `Math.ceil` over doubles is modelled as exact ceiling division. Doubles lose precision above 2^53 rows, which the model ignores.
- `escapeJson` has copies in other classes. The handler's copy (`src/com/madang/server/ApiHandler.java:170-177`) is textually the same as the servlet's, which is the one modelled. The model classes' copies (`Order.java`, `Book.java`, `Customer.java`) replace only backslash, quote, newline and carriage return, so a TAB goes out raw from their `toJson`. Those copies are not modelled.
- Reading `config/application.properties` is not modelled. The file's parsed contents are a parameter, `None` standing for an unreadable file. Properties-file syntax is not modelled.
- `printConfig`, `SqlLogger` and all console logging are left out, because they only print.
- CORS headers, `sendJsonResponse` and `printStackTrace` are left out, because they produce output only.
- `readRequestBody`'s reading is left out: its result is a parameter, the body text or an `IOException` with its message. The dispatcher checks it after the query parse and before the method switch, and passes the text to the handler.
- `PageResponse`'s plain setters (`setItems`, `setPage`, `setTotalPages`, `setHasNext`, `setHasPrevious`) are left out. Each only assigns one field and recomputes nothing.
- `ApiPolicy.RequireAdmin`: the session is a parameter. The eviction that `getSession` performs while `requireAdmin`, `requireRole` and `requireSelfOrAdmin` look it up is modelled separately by `Sessions.SessionStore.GetSession`.
- `ApiPolicy.ServletService` and `ApiPolicy.HandlerHandle` are functions from the query parse, the body read and the handler's outcome to a status and body. The handlers' own work (`handleGet` and so on) is a parameter.

## Findings

| source | as written | input that shows it | evidently intended | confidence | as-written member | corrected member |
|---|---|---|---|---|---|---|
| src/main/java/com/madang/model/PageRequest.java:39-41 | `getOffset` computes `(page - 1) * pageSize` in 32-bit `int` arithmetic, which wraps for large pages | page 21474838, pageSize 100 gives -2147483596 instead of 2147483700 | a non-negative offset for every accepted page (computed in `long`) | not executed | PageRequestModel.JavaOffsetOverflows | PageRequestModel.OffsetFitsInLong |
