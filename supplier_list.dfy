/**
 * The suppliers page (src/pages/SuppliersPage.jsx): the text and
 * availability filter, deleting a supplier from the held list, and the
 * availability colour table.
 */
module SupplierList {
  import opened Common

  /**
   * A supplier as the backend returns it. `name`, `email`, `role` and `status`
   * may be absent; the other keys play no part in the page's logic.
   */
  datatype Supplier = Supplier(
    id: Id,
    name: Option<string>,
    email: Option<string>,
    role: Option<string>,
    status: Option<string>)

  /** `field?.toLowerCase().includes(term)`: an absent field never matches. */
  predicate FieldMatches(field: Option<string>, term: string) {
    field.Some? && Contains(Lower(field.value), term)
  }

  /** The text search over name, email and role, all lower-cased. */
  predicate MatchesText(s: Supplier, searchTerm: string) {
    var term := Lower(searchTerm);
    FieldMatches(s.name, term) || FieldMatches(s.email, term) || FieldMatches(s.role, term)
  }

  /** `(sup.status || "").toLowerCase()` */
  function StatusKey(status: Option<string>): string {
    if status.Some? then Lower(status.value) else ""
  }

  /**
   * An empty filter keeps everything; otherwise the lower-cased status must
   * equal the filter exactly (the filter itself is not lower-cased).
   */
  predicate MatchesStatus(s: Supplier, statusFilter: string) {
    statusFilter == "" || StatusKey(s.status) == statusFilter
  }

  predicate Keeps(s: Supplier, searchTerm: string, statusFilter: string) {
    MatchesText(s, searchTerm) && MatchesStatus(s, statusFilter)
  }

  /** `filteredSuppliers` */
  function FilteredSuppliers(suppliers: seq<Supplier>, searchTerm: string, statusFilter: string): seq<Supplier> {
    Filter(suppliers, (s: Supplier) => Keeps(s, searchTerm, statusFilter))
  }

  /**
   * The filtered list is an order-preserving subsequence that keeps a
   * supplier, with its multiplicity, exactly when text and status both match.
   */
  lemma FilteredSuppliersExactly(suppliers: seq<Supplier>, searchTerm: string, statusFilter: string, s: Supplier)
    ensures s in FilteredSuppliers(suppliers, searchTerm, statusFilter) <==>
            s in suppliers && MatchesText(s, searchTerm) && MatchesStatus(s, statusFilter)
    ensures multiset(FilteredSuppliers(suppliers, searchTerm, statusFilter))[s] ==
            if Keeps(s, searchTerm, statusFilter) then multiset(suppliers)[s] else 0
    ensures IsSubsequence(FilteredSuppliers(suppliers, searchTerm, statusFilter), suppliers)
  {
    var p := (x: Supplier) => Keeps(x, searchTerm, statusFilter);
    FilterMembers(suppliers, p, s);
    FilterCounts(suppliers, p, s);
    FilterIsSubsequence(suppliers, p);
  }

  /**
   * With an empty search a supplier still needs one of name, email or role
   * present: `undefined` does not match even the empty term.
   */
  lemma EmptySearchNeedsAField(s: Supplier)
    ensures MatchesText(s, "") <==> s.name.Some? || s.email.Some? || s.role.Some?
  {
    assert Lower("") == "";
    if s.name.Some? { ContainsEmpty(Lower(s.name.value)); }
    if s.email.Some? { ContainsEmpty(Lower(s.email.value)); }
    if s.role.Some? { ContainsEmpty(Lower(s.role.value)); }
  }

  /** Search ignores ASCII case on either side. */
  lemma SearchIgnoresCase(s: Supplier, searchTerm: string)
    ensures MatchesText(s, Lower(searchTerm)) <==> MatchesText(s, searchTerm)
  {
    LowerIsLower(searchTerm);
  }

  /** A status filter holding an upper-case letter keeps no supplier. */
  lemma UpperCaseFilterKeepsNothing(suppliers: seq<Supplier>, searchTerm: string, statusFilter: string)
    requires !HasNoUpper(statusFilter)
    ensures FilteredSuppliers(suppliers, searchTerm, statusFilter) == []
  {
    var r := FilteredSuppliers(suppliers, searchTerm, statusFilter);
    if r != [] {
      assert r[0] in r;
      FilteredSuppliersExactly(suppliers, searchTerm, statusFilter, r[0]);
      if r[0].status.Some? {
        UpperNeverLowered(r[0].status.value, statusFilter);
      }
      assert false;
    }
  }

  /** An empty status filter keeps every supplier the search keeps. */
  lemma EmptyStatusFilterKeepsAll(suppliers: seq<Supplier>, searchTerm: string)
    ensures FilteredSuppliers(suppliers, searchTerm, "") == Filter(suppliers, (s: Supplier) => MatchesText(s, searchTerm))
  {
    var p := (s: Supplier) => Keeps(s, searchTerm, "");
    var q := (s: Supplier) => MatchesText(s, searchTerm);
    FilterSamePredicate(suppliers, p, q);
  }

  /** `prev.filter(s => s.id !== id)` */
  function WithoutId(suppliers: seq<Supplier>, id: Id): seq<Supplier> {
    Filter(suppliers, (s: Supplier) => s.id != id)
  }

  /** Deleting drops exactly the suppliers with that id and keeps the rest in order. */
  lemma WithoutIdExactly(suppliers: seq<Supplier>, id: Id, s: Supplier)
    ensures s in WithoutId(suppliers, id) <==> s in suppliers && s.id != id
    ensures multiset(WithoutId(suppliers, id))[s] == if s.id != id then multiset(suppliers)[s] else 0
    ensures IsSubsequence(WithoutId(suppliers, id), suppliers)
  {
    var p := (x: Supplier) => x.id != id;
    FilterMembers(suppliers, p, s);
    FilterCounts(suppliers, p, s);
    FilterIsSubsequence(suppliers, p);
  }

  /** `renderStatus`: case-sensitive; anything else, absent included, gets "". */
  function StatusClass(status: Option<string>): (r: string)
    ensures r == "bg-green-600 text-white" <==> status == Some("OK")
    ensures r == "bg-yellow-500 text-black" <==> status == Some("ALERT")
    ensures r == "bg-red-600 text-white" <==> status == Some("CRITICAL")
    ensures r == "" <==> status !in {Some("OK"), Some("ALERT"), Some("CRITICAL")}
  {
    if status == Some("OK") then "bg-green-600 text-white"
    else if status == Some("ALERT") then "bg-yellow-500 text-black"
    else if status == Some("CRITICAL") then "bg-red-600 text-white"
    else ""
  }

  /** What the `DELETE` request came to. */
  datatype DeleteResponse = Ok | NotOk | Threw

  /** The page's `suppliers` state. */
  class SuppliersPage {
    var suppliers: seq<Supplier>

    /** `useState([])` */
    constructor ()
      ensures suppliers == []
    {
      suppliers := [];
    }

    /** The fetch on mount: a list that arrived replaces the state; a failure leaves it. */
    method Loaded(response: Option<seq<Supplier>>)
      modifies this
      ensures suppliers == (if response.Some? then response.value else old(suppliers))
    {
      if response.Some? {
        suppliers := response.value;
      }
    }

    /**
     * `handleDeleteSupplier`: on a confirmed, successful delete the suppliers
     * with that id leave the list; a declined confirm changes nothing; a
     * non-ok response or a thrown error changes nothing and raises the alert.
     */
    method HandleDeleteSupplier(id: Id, confirmed: bool, response: DeleteResponse) returns (alerted: bool)
      modifies this
      ensures suppliers == (if confirmed && response == Ok then WithoutId(old(suppliers), id) else old(suppliers))
      ensures alerted <==> confirmed && response != Ok
    {
      alerted := false;
      if !confirmed {
        return;
      }
      if response == Ok {
        suppliers := WithoutId(suppliers, id);
      } else {
        alerted := true;
      }
    }
  }
}
