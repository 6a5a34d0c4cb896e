/**
 * The purchase-order list (src/pages/PurchaseOrdersPage.jsx): the orders a
 * user may see, the id search and status filter over them, the status badge
 * colours, and who is offered the link to create an order.
 */
module OrderList {
  import opened Common
  import opened Session
  import opened OrderDetail

  /**
   * The orders visible to `user`: a user whose role is "supplier" sees the
   * orders whose `supplierId` is strictly equal to theirs (an absent id on
   * both sides is `undefined === undefined`); any other role sees them all.
   * With nobody logged in `user` is null, and reading `user.supplierId` while
   * rendering throws a TypeError: that is `None`.
   */
  function ScopedOrders(orders: seq<Order>, user: Option<User>): Option<seq<Order>> {
    match user
    case None => None
    case Some(u) =>
      Some(if u.role == Some("supplier") then Filter(orders, (o: Order) => o.supplierId == u.supplierId)
           else orders)
  }

  /**
   * The page throws exactly when nobody is logged in; otherwise the scoping
   * keeps exactly the supplier's own orders, in order, or all of them.
   */
  lemma ScopedOrdersExactly(orders: seq<Order>, user: Option<User>, o: Order)
    ensures ScopedOrders(orders, user).None? <==> user.None?
    ensures user.Some? && user.value.role == Some("supplier") ==>
              (o in ScopedOrders(orders, user).value <==> o in orders && o.supplierId == user.value.supplierId)
    ensures user.Some? && user.value.role == Some("supplier") ==>
              multiset(ScopedOrders(orders, user).value)[o] ==
              if o.supplierId == user.value.supplierId then multiset(orders)[o] else 0
    ensures user.Some? && user.value.role != Some("supplier") ==> ScopedOrders(orders, user) == Some(orders)
    ensures user.Some? ==> IsSubsequence(ScopedOrders(orders, user).value, orders)
  {
    if user.Some? {
      var p := (x: Order) => x.supplierId == user.value.supplierId;
      FilterMembers(orders, p, o);
      FilterCounts(orders, p, o);
      FilterIsSubsequence(orders, p);
      SubsequenceOfItself(orders);
    }
  }

  /** Every sequence is a subsequence of itself. */
  lemma {:induction false} SubsequenceOfItself(s: seq<Order>)
    ensures IsSubsequence(s, s)
  {
    if s != [] {
      SubsequenceOfItself(s[1..]);
    }
  }

  /** The user `UserProvider` stores is not a supplier, so it sees every order. */
  lemma ProviderUserSeesAll(orders: seq<Order>)
    ensures ScopedOrders(orders, Some(Admin)) == Some(orders)
  {
  }

  /**
   * Under `UserProvider`, after a series of calls the page renders exactly
   * when the last call was `login`, and throws after a `logout`.
   */
  lemma {:induction false} PageRendersOnlyAfterLogin(orders: seq<Order>, user: Option<User>, calls: seq<Call>)
    requires calls != []
    ensures ScopedOrders(orders, Run(user, calls)).Some? <==> calls[|calls| - 1] == Login
    ensures calls[|calls| - 1] == Login ==> ScopedOrders(orders, Run(user, calls)) == Some(orders)
  {
    RunDeterminedByLast(user, calls);
  }

  /** `String(order.id).toLowerCase().includes(searchTerm.toLowerCase())` */
  predicate MatchesSearch(o: Order, searchTerm: string) {
    Contains(Lower(IdString(o.id)), Lower(searchTerm))
  }

  /** `filterStatus === "" || order.status.toLowerCase() === filterStatus.toLowerCase()` */
  predicate MatchesStatus(o: Order, filterStatus: string) {
    filterStatus == "" || Lower(o.status) == Lower(filterStatus)
  }

  predicate Keeps(o: Order, searchTerm: string, filterStatus: string) {
    MatchesSearch(o, searchTerm) && MatchesStatus(o, filterStatus)
  }

  /** `filteredOrders`, over the orders the user may see. */
  function FilteredOrders(scoped: seq<Order>, searchTerm: string, filterStatus: string): seq<Order> {
    Filter(scoped, (o: Order) => Keeps(o, searchTerm, filterStatus))
  }

  /**
   * The filtered list is an order-preserving subsequence of the visible
   * orders, keeping an order, with its multiplicity, exactly when search and
   * status both match.
   */
  lemma FilteredOrdersExactly(scoped: seq<Order>, searchTerm: string, filterStatus: string, o: Order)
    ensures o in FilteredOrders(scoped, searchTerm, filterStatus) <==>
            o in scoped && MatchesSearch(o, searchTerm) && MatchesStatus(o, filterStatus)
    ensures multiset(FilteredOrders(scoped, searchTerm, filterStatus))[o] ==
            if Keeps(o, searchTerm, filterStatus) then multiset(scoped)[o] else 0
    ensures IsSubsequence(FilteredOrders(scoped, searchTerm, filterStatus), scoped)
  {
    var p := (x: Order) => Keeps(x, searchTerm, filterStatus);
    FilterMembers(scoped, p, o);
    FilterCounts(scoped, p, o);
    FilterIsSubsequence(scoped, p);
  }

  /** An empty search and an empty status filter keep every visible order. */
  lemma EmptyFiltersKeepAll(scoped: seq<Order>)
    ensures FilteredOrders(scoped, "", "") == scoped
  {
    var p := (x: Order) => Keeps(x, "", "");
    forall i | 0 <= i < |scoped| ensures p(scoped[i]) {
      ContainsEmpty(Lower(IdString(scoped[i].id)));
    }
    FilterKeepsAll(scoped, p);
  }

  /** An empty status filter leaves the search alone to decide. */
  lemma EmptyStatusDefersToSearch(scoped: seq<Order>, searchTerm: string)
    ensures FilteredOrders(scoped, searchTerm, "") == Filter(scoped, (o: Order) => MatchesSearch(o, searchTerm))
  {
    FilterSamePredicate(scoped, (o: Order) => Keeps(o, searchTerm, ""), (o: Order) => MatchesSearch(o, searchTerm));
  }

  /** Search and status filter both ignore ASCII case in what the user enters. */
  lemma FiltersIgnoreCase(o: Order, searchTerm: string, filterStatus: string)
    ensures MatchesSearch(o, Lower(searchTerm)) <==> MatchesSearch(o, searchTerm)
    ensures MatchesStatus(o, Lower(filterStatus)) <==> MatchesStatus(o, filterStatus)
  {
    LowerIsLower(searchTerm);
    LowerIsLower(filterStatus);
  }

  /** Searching for an order's id, in any case, finds that order. */
  lemma SearchFindsOwnId(o: Order)
    ensures MatchesSearch(o, IdString(o.id))
  {
  }

  /** The lower-case option "pending" selects an order whose status is "Pending". */
  lemma StatusFilterExample(o: Order)
    requires o.status == "Pending"
    ensures MatchesStatus(o, "pending")
    ensures !MatchesStatus(o, "approved")
  {
    LowerSame("Pending", "pending");
    assert Lower("Pending")[0] == 'p' && Lower("approved")[0] == 'a';
  }

  /** The values the status filter offers, the empty one first. */
  const StatusOptions := ["", "pending", "approved", "ordered", "delivered"]

  /**
   * No offered filter value selects an order in transit or cancelled: the
   * options name "ordered" instead, which no badge colour covers.
   */
  lemma TransitAndCancelledNotOffered(o: Order, f: string)
    requires o.status == "Transit" || o.status == "Cancelled"
    requires f in StatusOptions && f != ""
    ensures !MatchesStatus(o, f)
    ensures BadgeColor("Ordered") == "bg-gray-600"
  {
    // The lower-cased statuses begin with 't' or 'c', no offered value does.
    assert f[0] in {'p', 'a', 'o', 'd'};
    assert Lower(o.status)[0] == LowerChar(o.status[0]) && Lower(f)[0] == LowerChar(f[0]);
  }

  /** The classes every badge carries. */
  const BadgeBase := "px-3 py-1 text-xs font-semibold rounded-lg text-white"

  /** `colors[status] || "bg-gray-600"`: five statuses, exact case, then the default. */
  function BadgeColor(status: string): (r: string)
    ensures status == "Pending" ==> r == "bg-yellow-500"
    ensures status == "Approved" ==> r == "bg-blue-500"
    ensures status == "Transit" ==> r == "bg-aqua-500"
    ensures status == "Delivered" ==> r == "bg-green-500"
    ensures status == "Cancelled" ==> r == "bg-red-500"
    ensures r == "bg-gray-600" <==> status !in {"Pending", "Approved", "Transit", "Delivered", "Cancelled"}
  {
    if status == "Pending" then "bg-yellow-500"
    else if status == "Approved" then "bg-blue-500"
    else if status == "Transit" then "bg-aqua-500"
    else if status == "Delivered" then "bg-green-500"
    else if status == "Cancelled" then "bg-red-500"
    else "bg-gray-600"
  }

  /** `${base} ${colors[status] || "bg-gray-600"}` */
  function BadgeClass(status: string): (r: string)
    ensures |r| == |BadgeBase| + 1 + |BadgeColor(status)|
    ensures r[..|BadgeBase| + 1] == BadgeBase + " "
    ensures r[|BadgeBase| + 1..] == BadgeColor(status)
  {
    BadgeBase + " " + BadgeColor(status)
  }

  /** The five badge colours are distinct: a colour other than the default names its status. */
  lemma BadgeColorNamesStatus(s: string, t: string)
    requires BadgeColor(s) == BadgeColor(t) && BadgeColor(s) != "bg-gray-600"
    ensures s == t
  {
  }

  /**
   * Distinct known statuses get distinct badge classes: a class string other
   * than the default's names its status.
   */
  lemma BadgeClassNamesStatus(s: string, t: string)
    requires BadgeClass(s) == BadgeClass(t) && BadgeColor(s) != "bg-gray-600"
    ensures s == t
  {
    assert BadgeColor(s) == BadgeClass(s)[|BadgeBase| + 1..];
    assert BadgeColor(t) == BadgeClass(t)[|BadgeBase| + 1..];
    BadgeColorNamesStatus(s, t);
  }

  /**
   * `user?.role != "supplier" && user?.role != "picker"`: the create link is
   * shown unless the role is one of those two; no role shows it. The
   * expression itself also shows it for no user, but the page has thrown
   * before reaching it then (see `ScopedOrders`).
   */
  function ShowCreateLink(user: Option<User>): (r: bool)
    ensures !r <==> user.Some? && user.value.role in {Some("supplier"), Some("picker")}
  {
    !(user.Some? && (user.value.role == Some("supplier") || user.value.role == Some("picker")))
  }

  /** The user the provider logs in is offered the link. */
  lemma ProviderUserMayCreate()
    ensures ShowCreateLink(Some(Admin))
  {
  }

  /**
   * The page's `orders` and `supplierOrders` state. The scoping effect runs
   * after every load, so `supplierOrders` is the scoping of `orders`.
   */
  class OrderListView {
    var orders: seq<Order>
    var supplierOrders: seq<Order>

    constructor ()
      ensures orders == [] && supplierOrders == []
    {
      orders := [];
      supplierOrders := [];
    }

    /**
     * The load effect followed by the scoping effect it triggers. With nobody
     * logged in the render throws before any effect runs: `threw` is set and
     * nothing changes.
     */
    method Loaded(response: Option<seq<Order>>, user: Option<User>) returns (threw: bool)
      modifies this
      ensures threw <==> user.None?
      ensures threw ==> orders == old(orders) && supplierOrders == old(supplierOrders)
      ensures !threw ==> orders == (if response.Some? then response.value else old(orders))
      ensures !threw ==> Some(supplierOrders) == ScopedOrders(orders, user)
    {
      var scoped := ScopedOrders(if response.Some? then response.value else orders, user);
      match scoped
      case None =>
        threw := true;
      case Some(visible) =>
        threw := false;
        if response.Some? {
          orders := response.value;
        }
        supplierOrders := visible;
    }

    /** What the table shows. */
    function Shown(searchTerm: string, filterStatus: string): (r: seq<Order>)
      reads this
      ensures IsSubsequence(r, supplierOrders)
    {
      FilteredOrdersExactlyAll(supplierOrders, searchTerm, filterStatus);
      FilteredOrders(supplierOrders, searchTerm, filterStatus)
    }
  }

  /** The subsequence part of `FilteredOrdersExactly`, for any search. */
  lemma FilteredOrdersExactlyAll(scoped: seq<Order>, searchTerm: string, filterStatus: string)
    ensures IsSubsequence(FilteredOrders(scoped, searchTerm, filterStatus), scoped)
  {
    FilterIsSubsequence(scoped, (x: Order) => Keeps(x, searchTerm, filterStatus));
  }
}
