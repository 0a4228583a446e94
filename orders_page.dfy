/** The account's order list: a search on the order code (case-insensitive,
    ignored when blank) followed by a status filter (ignored for "all"),
    and the message shown when nothing is left. */
module OrdersPage {
  import opened Common
  import opened Text

  datatype OrderLine = OrderLine(id: int, name: string, quantity: int, price: int)

  /** One order as the list endpoint returns it. */
  datatype Order = Order(
    id: int,
    code: string,
    status: string,
    statusLabel: string,
    total: int,
    createdAt: string,
    items: seq<OrderLine>)

  /** `search.toLowerCase().trim()`. */
  function SearchTerm(search: string): string {
    Trim(ToLower(search))
  }

  /** The code search is applied when `search.trim()` is non-empty. */
  predicate SearchActive(search: string) {
    Trim(search) != []
  }

  predicate CodeMatches(o: Order, search: string) {
    Includes(ToLower(o.code), SearchTerm(search))
  }

  /** The status filter is applied for anything but "all". */
  predicate StatusActive(statusFilter: string) {
    statusFilter != "all"
  }

  function BySearch(orders: seq<Order>, search: string): seq<Order> {
    if SearchActive(search) then Filter(orders, (o: Order) => CodeMatches(o, search)) else orders
  }

  function ByStatus(orders: seq<Order>, statusFilter: string): seq<Order> {
    if StatusActive(statusFilter) then Filter(orders, (o: Order) => o.status == statusFilter) else orders
  }

  /** `filteredOrders`. */
  function FilterOrders(orders: seq<Order>, search: string, statusFilter: string): seq<Order> {
    ByStatus(BySearch(orders, search), statusFilter)
  }

  /** Both filters at rest: a blank search and "all" list every order unchanged. */
  lemma NoFilterIsIdentity(orders: seq<Order>, search: string)
    requires AllSpaces(search)
    ensures FilterOrders(orders, search, "all") == orders
  {
    BlankIffAllSpaces(search);
  }

  /** An order is listed exactly when it is one of the orders, its
      lower-cased code contains the term (if the search is not blank), and
      its status is the chosen one (if it is not "all"). */
  lemma FilterMembershipIff(orders: seq<Order>, search: string, statusFilter: string, o: Order)
    ensures o in FilterOrders(orders, search, statusFilter) <==>
      && o in orders
      && (SearchActive(search) ==> Includes(ToLower(o.code), SearchTerm(search)))
      && (StatusActive(statusFilter) ==> o.status == statusFilter)
  {
    var bySearch := BySearch(orders, search);
    if SearchActive(search) {
      FilterMembership(orders, (x: Order) => CodeMatches(x, search), o);
    }
    if StatusActive(statusFilter) {
      FilterMembership(bySearch, (x: Order) => x.status == statusFilter, o);
    }
  }

  /** The list keeps the relative order of the orders. */
  lemma FilterKeepsOrder(orders: seq<Order>, search: string, statusFilter: string)
    ensures IsSubsequence(FilterOrders(orders, search, statusFilter), orders)
  {
    var bySearch := BySearch(orders, search);
    if SearchActive(search) {
      FilterIsSubsequence(orders, (x: Order) => CodeMatches(x, search));
    } else {
      SubsequenceReflexive(orders);
    }
    if StatusActive(statusFilter) {
      FilterIsSubsequence(bySearch, (x: Order) => x.status == statusFilter);
      SubsequenceTransitive(FilterOrders(orders, search, statusFilter), bySearch, orders);
    }
  }

  /** Filtering the list again with the same search and status changes nothing. */
  lemma FilterIdempotent(orders: seq<Order>, search: string, statusFilter: string)
    ensures FilterOrders(FilterOrders(orders, search, statusFilter), search, statusFilter) ==
      FilterOrders(orders, search, statusFilter)
  {
    var r := FilterOrders(orders, search, statusFilter);
    forall k | 0 <= k < |r|
      ensures (SearchActive(search) ==> CodeMatches(r[k], search))
      ensures (StatusActive(statusFilter) ==> r[k].status == statusFilter)
    {
      FilterMembershipIff(orders, search, statusFilter, r[k]);
    }
    if SearchActive(search) {
      FilterAllKept(r, (x: Order) => CodeMatches(x, search));
    }
    assert BySearch(r, search) == r;
    if StatusActive(statusFilter) {
      FilterAllKept(r, (x: Order) => x.status == statusFilter);
    }
  }

  /** What the page shows below the list once loading is over. */
  datatype EmptyState =
    | NotEmpty         // the list has orders
    | NoOrdersYet      // "No tienes órdenes aún", with the shop button
    | NoMatches        // "No se encontraron órdenes con los filtros aplicados"

  function EmptyStateFor(orders: seq<Order>, filtered: seq<Order>): (e: EmptyState)
    ensures e.NotEmpty? <==> filtered != []
    ensures e.NoOrdersYet? <==> filtered == [] && orders == []
    ensures e.NoMatches? <==> filtered == [] && orders != []
  {
    if filtered != [] then NotEmpty
    else if orders == [] then NoOrdersYet
    else NoMatches
  }

  /** With no orders at all the message is always "no orders yet", whatever
      the filters; with orders, an empty list always means "no matches". */
  lemma EmptyStateOfPage(orders: seq<Order>, search: string, statusFilter: string)
    ensures var f := FilterOrders(orders, search, statusFilter);
      (orders == [] ==> EmptyStateFor(orders, f) == NoOrdersYet)
      && (orders != [] && f == [] ==> EmptyStateFor(orders, f) == NoMatches)
  {
    if orders == [] {
      FilterKeepsOrder(orders, search, statusFilter);
      var f := FilterOrders(orders, search, statusFilter);
      var idx :| EmbeddedVia(f, orders, idx);
    }
  }
}
