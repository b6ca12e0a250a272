/**
 * The sort whitelists. Every listing and report lets the client name a sort
 * key, and every DAO maps that key, case-insensitively, through a fixed
 * `switch` to a trusted column expression, falling back to a per-endpoint
 * default. Only the resolved column and one of the two direction tokens ever
 * reach the SQL text, which is what keeps the client's "sortBy" out of it.
 *
 * Each `switch` is modelled as written (a `match` on the lower-cased key) and
 * proved equal to a lookup in a table, `Resolve`, whose general properties are
 * proved once.
 */
module SortWhitelist {
  import opened JavaText

  // ---------------------------------------------------------------------
  // The reference definition: table lookup with a default
  // ---------------------------------------------------------------------

  /** Look the lower-cased key up in `table`; a null or unknown key gives `default`. */
  function Resolve(table: map<string, string>, default: string, key: Option<string>): string
  {
    if key.Some? && ToLower(key.value) in table then table[ToLower(key.value)] else default
  }

  /** Whatever the key, the column is one of the table's columns or the default. */
  lemma ResolveStaysInWhitelist(table: map<string, string>, default: string, key: Option<string>)
    ensures Resolve(table, default, key) in table.Values + {default}
  {
  }

  /** Keys that differ only in ASCII case resolve to the same column. */
  lemma ResolveIgnoresCase(table: map<string, string>, default: string, a: string, b: string)
    requires ToLower(a) == ToLower(b)
    ensures Resolve(table, default, Some(a)) == Resolve(table, default, Some(b))
  {
  }

  // ---------------------------------------------------------------------
  // Book listings (both source trees)
  // ---------------------------------------------------------------------

  const BookDefaultColumn: string := "bookid"
  const BookColumns: map<string, string> :=
    map["bookname" := "bookname", "publisher" := "publisher", "price" := "price", "bookid" := "bookid"]

  /** `BookDAO.resolveSortColumn`. */
  function BookSortColumn(sortBy: Option<string>): (r: string)
    ensures r == Resolve(BookColumns, BookDefaultColumn, sortBy)
    ensures r in {"bookname", "publisher", "price", "bookid"}
  {
    if sortBy.None? then BookDefaultColumn
    else
      match ToLower(sortBy.value)
      case "bookname" => "bookname"
      case "publisher" => "publisher"
      case "price" => "price"
      case "bookid" => "bookid"
      case _ => BookDefaultColumn
  }

  // ---------------------------------------------------------------------
  // Customer listings
  // ---------------------------------------------------------------------

  const CustomerDefaultColumn: string := "custid"
  const CustomerColumns: map<string, string> :=
    map["name" := "name", "address" := "address", "phone" := "phone", "custid" := "custid"]

  /** `CustomerDAO.resolveSortColumn`. */
  function CustomerSortColumn(sortBy: Option<string>): (r: string)
    ensures r == Resolve(CustomerColumns, CustomerDefaultColumn, sortBy)
    ensures r in {"name", "address", "phone", "custid"}
  {
    if sortBy.None? then CustomerDefaultColumn
    else
      match ToLower(sortBy.value)
      case "name" => "name"
      case "address" => "address"
      case "phone" => "phone"
      case "custid" => "custid"
      case _ => CustomerDefaultColumn
  }

  // ---------------------------------------------------------------------
  // Order listings and reports
  // ---------------------------------------------------------------------

  const OrderDefaultColumn: string := "o.orderdate"
  const OrderColumns: map<string, string> :=
    map["orderid" := "o.orderid", "orderdate" := "o.orderdate", "bookname" := "b.bookname",
        "publisher" := "b.publisher", "saleprice" := "o.saleprice"]

  /** `OrderDAO.resolveOrderSortColumn`: the customer's order history. */
  function OrderSortColumn(sortBy: Option<string>): (r: string)
    ensures r == Resolve(OrderColumns, OrderDefaultColumn, sortBy)
    ensures r in {"o.orderid", "o.orderdate", "b.bookname", "b.publisher", "o.saleprice"}
  {
    if sortBy.None? then OrderDefaultColumn
    else
      match ToLower(sortBy.value)
      case "orderid" => "o.orderid"
      case "orderdate" => "o.orderdate"
      case "bookname" => "b.bookname"
      case "publisher" => "b.publisher"
      case "saleprice" => "o.saleprice"
      case _ => OrderDefaultColumn
  }

  const RecentDefaultColumn: string := "o.orderdate"
  const RecentColumns: map<string, string> :=
    map["orderdate" := "o.orderdate", "customername" := "c.name", "bookname" := "b.bookname",
        "saleprice" := "o.saleprice"]

  /** `OrderDAO.resolveRecentSortColumn`: the recent-orders feed. */
  function RecentSortColumn(sortBy: Option<string>): (r: string)
    ensures r == Resolve(RecentColumns, RecentDefaultColumn, sortBy)
    ensures r in {"o.orderdate", "c.name", "b.bookname", "o.saleprice"}
  {
    if sortBy.None? then RecentDefaultColumn
    else
      match ToLower(sortBy.value)
      case "orderdate" => "o.orderdate"
      case "customername" => "c.name"
      case "bookname" => "b.bookname"
      case "saleprice" => "o.saleprice"
      case _ => RecentDefaultColumn
  }

  const CustomerStatsDefaultColumn: string := "totalAmount"
  const CustomerStatsColumns: map<string, string> :=
    map["name" := "c.name", "ordercount" := "orderCount", "totalamount" := "totalAmount",
        "avgamount" := "avgAmount"]

  /** `OrderDAO.resolveCustomerStatsSort`: the per-customer report. */
  function CustomerStatsSort(sortBy: Option<string>): (r: string)
    ensures r == Resolve(CustomerStatsColumns, CustomerStatsDefaultColumn, sortBy)
    ensures r in {"c.name", "orderCount", "totalAmount", "avgAmount"}
  {
    if sortBy.None? then CustomerStatsDefaultColumn
    else
      match ToLower(sortBy.value)
      case "name" => "c.name"
      case "ordercount" => "orderCount"
      case "totalamount" => "totalAmount"
      case "avgamount" => "avgAmount"
      case _ => CustomerStatsDefaultColumn
  }

  const PublisherStatsDefaultColumn: string := "totalRevenue"
  const PublisherStatsColumns: map<string, string> :=
    map["publisher" := "b.publisher", "bookcount" := "bookCount", "salescount" := "salesCount",
        "totalrevenue" := "totalRevenue"]

  /** `OrderDAO.resolvePublisherStatsSort`: the per-publisher report. */
  function PublisherStatsSort(sortBy: Option<string>): (r: string)
    ensures r == Resolve(PublisherStatsColumns, PublisherStatsDefaultColumn, sortBy)
    ensures r in {"b.publisher", "bookCount", "salesCount", "totalRevenue"}
  {
    if sortBy.None? then PublisherStatsDefaultColumn
    else
      match ToLower(sortBy.value)
      case "publisher" => "b.publisher"
      case "bookcount" => "bookCount"
      case "salescount" => "salesCount"
      case "totalrevenue" => "totalRevenue"
      case _ => PublisherStatsDefaultColumn
  }

  const BookStatsDefaultColumn: string := "salesCount"
  const BookStatsColumns: map<string, string> :=
    map["bookname" := "b.bookname", "publisher" := "b.publisher", "price" := "b.price",
        "salescount" := "salesCount", "avgsaleprice" := "avgSalePrice"]

  /** `OrderDAO.resolveBookStatsSort`: the per-book report. */
  function BookStatsSort(sortBy: Option<string>): (r: string)
    ensures r == Resolve(BookStatsColumns, BookStatsDefaultColumn, sortBy)
    ensures r in {"b.bookname", "b.publisher", "b.price", "salesCount", "avgSalePrice"}
  {
    if sortBy.None? then BookStatsDefaultColumn
    else
      match ToLower(sortBy.value)
      case "bookname" => "b.bookname"
      case "publisher" => "b.publisher"
      case "price" => "b.price"
      case "salescount" => "salesCount"
      case "avgsaleprice" => "avgSalePrice"
      case _ => BookStatsDefaultColumn
  }

  // ---------------------------------------------------------------------
  // Directions
  // ---------------------------------------------------------------------

  /** `BookDAO.resolveSortDirection` / `CustomerDAO.resolveSortDirection`: listings default to ascending. */
  function ListingDirection(direction: Option<string>): (r: string)
    ensures r == "ASC" || r == "DESC"
    ensures r == "DESC" <==> LiteralEqualsIgnoreCase("desc", direction)
  {
    if direction.None? then "ASC"
    else if EqualsIgnoreCase("desc", direction.value) then "DESC" else "ASC"
  }

  /** `OrderDAO.resolveDirection`: order listings and reports default to descending. */
  function ReportDirection(direction: Option<string>): (r: string)
    ensures r == "ASC" || r == "DESC"
    ensures r == "ASC" <==> LiteralEqualsIgnoreCase("asc", direction)
  {
    if direction.None? then "DESC"
    else if EqualsIgnoreCase("asc", direction.value) then "ASC" else "DESC"
  }

  /** The two policies agree on every explicit "asc"/"desc" in any case, and differ exactly on
      the other inputs: there a listing sorts ascending and a report descending. */
  lemma DirectionPoliciesDiffer(direction: Option<string>)
    ensures (LiteralEqualsIgnoreCase("asc", direction) || LiteralEqualsIgnoreCase("desc", direction))
            <==> ListingDirection(direction) == ReportDirection(direction)
  {
    if direction.Some? && LiteralEqualsIgnoreCase("asc", direction) {
      assert ToLower("asc") != ToLower("desc");
    }
  }

  // ---------------------------------------------------------------------
  // Examples
  // ---------------------------------------------------------------------

  /** A mixed-case key still matches: "SalePrice" sorts the order history by sale price. */
  lemma MixedCaseKeyMatches()
    ensures OrderSortColumn(Some("SalePrice")) == "o.saleprice"
  {
    assert ToLower("SalePrice") == "saleprice";
  }

  /** SQL text in the sort key never reaches the query: it resolves to the default column. */
  lemma InjectedKeyFallsBack()
    ensures BookSortColumn(Some("id; DROP TABLE x")) == "bookid"
    ensures OrderSortColumn(Some("id; DROP TABLE x")) == "o.orderdate"
  {
    assert ToLower("id; DROP TABLE x") == "id; drop table x";
  }
}
