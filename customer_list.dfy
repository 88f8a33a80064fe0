/**
 * The customer table page: a search term and a status filter select rows from the page's own
 * customer list, a 0-based page of `rowsPerPage` rows is shown, and delete or status change
 * go through a confirmation that names the selected customer by number.
 */
module CustomerList {
  import opened Common
  import opened Seqs
  import opened Text
  import opened Paging

  datatype ListCustomer = ListCustomer(
    id: string, name: string, email: string, companyName: string, phoneNo: string,
    profileImage: Option<string>, status: string, createdAt: string)

  function ListKey(c: ListCustomer): string { c.id }

  /** The five customers the page loads. */
  function PageCustomers(): seq<ListCustomer> {
    [ ListCustomer("1", "John Doe", "john@example.com", "ABC Company", "+1234567890", None, "active", "2023-01-15"),
      ListCustomer("2", "Jane Smith", "jane@example.com", "XYZ Corp", "+0987654321", None, "inactive", "2023-02-20"),
      ListCustomer("3", "Robert Johnson", "robert@example.com", "Tech Solutions", "+1122334455", None, "active", "2023-03-10"),
      ListCustomer("4", "Emily Davis", "emily@example.com", "Global Services", "+5566778899", None, "active", "2023-04-05"),
      ListCustomer("5", "Michael Wilson", "michael@example.com", "Innovate Inc", "+9988776655", None, "inactive", "2023-05-12") ]
  }

  /** The search rule: name, email or company name contains the term, ignoring case. */
  predicate MatchesSearch(c: ListCustomer, term: string) {
    IncludesIgnoringCase(c.name, term) || IncludesIgnoringCase(c.email, term)
    || IncludesIgnoringCase(c.companyName, term)
  }

  /** `'all'` lets every status through; any other value must equal the status exactly. */
  predicate MatchesStatus(c: ListCustomer, statusFilter: string) {
    statusFilter == "all" || c.status == statusFilter
  }

  predicate Shown(c: ListCustomer, term: string, statusFilter: string) {
    MatchesSearch(c, term) && MatchesStatus(c, statusFilter)
  }

  /** The filter effect's result: the customers that pass both rules, in list order. */
  function FilterCustomers(cs: seq<ListCustomer>, term: string, statusFilter: string): (r: seq<ListCustomer>)
    ensures forall c :: c in r <==> c in cs && Shown(c, term, statusFilter)
    ensures IsSubsequence(r, cs)
    ensures forall c {:trigger multiset(r)[c]} :: multiset(r)[c] == if Shown(c, term, statusFilter) then multiset(cs)[c] else 0
  {
    Filter(cs, c => Shown(c, term, statusFilter))
  }

  /** An empty term with the 'all' filter shows the whole list. */
  lemma NoFilterShowsAll(cs: seq<ListCustomer>)
    ensures FilterCustomers(cs, "", "all") == cs
  {
    forall i | 0 <= i < |cs|
      ensures Shown(cs[i], "", "all")
    {
      EmptyTermMatches(cs[i].name);
    }
  }

  /** The status button's target: 'inactive' for an active customer, 'active' otherwise. */
  function ToggleTarget(status: string): (r: string)
    ensures r == "inactive" <==> status == "active"
    ensures r == "active" <==> status != "active"
  {
    if status == "active" then "inactive" else "active"
  }

  /** `parseInt(customer._id.slice(-6))`: the number the row's buttons pass on. */
  function ButtonNumber(c: ListCustomer): Num {
    ParseInt(Slice(c.id, -6, |c.id|))
  }

  /** The table page's state. */
  class CustomerListPage {
    var customers: seq<ListCustomer>
    var filtered: seq<ListCustomer>
    var searchTerm: string
    var statusFilter: string
    var page: nat
    var rowsPerPage: nat
    var selectedCustomerId: Option<Num>
    var newStatus: string
    var deleteModalOpen: bool
    var statusModalOpen: bool

    /** The page's invariant: the shown rows are always the filter of the list. */
    predicate Valid()
      reads this
    {
      filtered == FilterCustomers(customers, searchTerm, statusFilter)
    }

    /** The rows on screen. */
    function Visible(): (r: seq<ListCustomer>)
      reads this
      ensures |r| <= rowsPerPage
      ensures r == [] || page * rowsPerPage + |r| <= |filtered|
      ensures forall k :: 0 <= k < |r| ==> r[k] == filtered[page * rowsPerPage + k]
      ensures |r| == if |filtered| <= page * rowsPerPage then 0
                     else if |filtered| - page * rowsPerPage < rowsPerPage then |filtered| - page * rowsPerPage
                     else rowsPerPage
      ensures r == Rows(filtered, page, rowsPerPage)
    {
      Rows(filtered, page, rowsPerPage)
    }

    /** The page at its first render: nothing loaded yet. */
    constructor()
      ensures Valid() && customers == [] && filtered == [] && page == 0 && rowsPerPage == 10
      ensures searchTerm == "" && statusFilter == "all" && selectedCustomerId.None?
      ensures newStatus == "active" && !deleteModalOpen && !statusModalOpen
    {
      customers := [];
      filtered := [];
      searchTerm := "";
      statusFilter := "all";
      page := 0;
      rowsPerPage := 10;
      selectedCustomerId := None;
      newStatus := "active";
      deleteModalOpen := false;
      statusModalOpen := false;
    }

    /** `fetchCustomers`: load the five customers; the filter effect follows. */
    method FetchCustomers()
      modifies this
      ensures Valid() && customers == PageCustomers() && page == 0
      ensures searchTerm == old(searchTerm) && statusFilter == old(statusFilter)
      ensures rowsPerPage == old(rowsPerPage) && selectedCustomerId == old(selectedCustomerId)
      ensures newStatus == old(newStatus)
      ensures deleteModalOpen == old(deleteModalOpen) && statusModalOpen == old(statusModalOpen)
    {
      customers := PageCustomers();
      FilterEffect();
    }

    /** The effect that runs whenever the list, the term or the status filter changes. */
    method FilterEffect()
      modifies this
      ensures Valid() && page == 0
      ensures customers == old(customers) && searchTerm == old(searchTerm) && statusFilter == old(statusFilter)
      ensures rowsPerPage == old(rowsPerPage) && selectedCustomerId == old(selectedCustomerId)
      ensures newStatus == old(newStatus)
      ensures deleteModalOpen == old(deleteModalOpen) && statusModalOpen == old(statusModalOpen)
    {
      filtered := FilterCustomers(customers, searchTerm, statusFilter);
      page := 0;
    }

    method SetSearchTerm(term: string)
      modifies this
      ensures Valid() && searchTerm == term && page == 0
      ensures customers == old(customers) && statusFilter == old(statusFilter)
      ensures rowsPerPage == old(rowsPerPage) && selectedCustomerId == old(selectedCustomerId)
      ensures newStatus == old(newStatus)
      ensures deleteModalOpen == old(deleteModalOpen) && statusModalOpen == old(statusModalOpen)
    {
      searchTerm := term;
      FilterEffect();
    }

    method SetStatusFilter(f: string)
      modifies this
      ensures Valid() && statusFilter == f && page == 0
      ensures customers == old(customers) && searchTerm == old(searchTerm)
      ensures rowsPerPage == old(rowsPerPage) && selectedCustomerId == old(selectedCustomerId)
      ensures newStatus == old(newStatus)
      ensures deleteModalOpen == old(deleteModalOpen) && statusModalOpen == old(statusModalOpen)
    {
      statusFilter := f;
      FilterEffect();
    }

    /** The delete button: remember the customer and open the confirmation. */
    method HandleDelete(id: Num)
      modifies this
      ensures selectedCustomerId == Some(id) && deleteModalOpen
      ensures customers == old(customers) && filtered == old(filtered) && page == old(page)
      ensures searchTerm == old(searchTerm) && statusFilter == old(statusFilter)
      ensures rowsPerPage == old(rowsPerPage)
      ensures newStatus == old(newStatus) && statusModalOpen == old(statusModalOpen)
    {
      selectedCustomerId := Some(id);
      deleteModalOpen := true;
    }

    /** The status button: remember the customer and the target status and open the confirmation. */
    method HandleStatusChange(id: Num, status: string)
      modifies this
      ensures selectedCustomerId == Some(id) && newStatus == status && statusModalOpen
      ensures customers == old(customers) && filtered == old(filtered) && page == old(page)
      ensures searchTerm == old(searchTerm) && statusFilter == old(statusFilter)
      ensures rowsPerPage == old(rowsPerPage) && deleteModalOpen == old(deleteModalOpen)
    {
      selectedCustomerId := Some(id);
      newStatus := status;
      statusModalOpen := true;
    }

    /** `confirmDelete`: drop every customer whose `_id` is the selected number's text. */
    method ConfirmDelete()
      requires Valid()
      modifies this
      ensures Valid()
      ensures old(selectedCustomerId).None? ==> unchanged(this)
      ensures old(selectedCustomerId).Some? ==>
        customers == RemoveKey(old(customers), ListKey, NumText(old(selectedCustomerId).value))
        && selectedCustomerId.None? && !deleteModalOpen && page == 0
      ensures searchTerm == old(searchTerm) && statusFilter == old(statusFilter)
      ensures rowsPerPage == old(rowsPerPage)
      ensures newStatus == old(newStatus) && statusModalOpen == old(statusModalOpen)
    {
      if selectedCustomerId.Some? {
        customers := RemoveKey(customers, ListKey, NumText(selectedCustomerId.value));
        deleteModalOpen := false;
        selectedCustomerId := None;
        FilterEffect();
      }
    }

    /** `confirmStatusChange`: set the chosen status on every customer whose `_id` is the selected number's text. */
    method ConfirmStatusChange()
      requires Valid()
      modifies this
      ensures Valid()
      ensures old(selectedCustomerId).None? ==> unchanged(this)
      ensures old(selectedCustomerId).Some? ==>
        customers == WithStatus(old(customers), NumText(old(selectedCustomerId).value), old(newStatus))
        && selectedCustomerId.None? && !statusModalOpen && page == 0
      ensures searchTerm == old(searchTerm) && statusFilter == old(statusFilter)
      ensures rowsPerPage == old(rowsPerPage)
      ensures newStatus == old(newStatus) && deleteModalOpen == old(deleteModalOpen)
    {
      if selectedCustomerId.Some? {
        customers := WithStatus(customers, NumText(selectedCustomerId.value), newStatus);
        statusModalOpen := false;
        selectedCustomerId := None;
        FilterEffect();
      }
    }

    method HandleChangePage(newPage: nat)
      modifies this
      ensures page == newPage && filtered == old(filtered) && rowsPerPage == old(rowsPerPage)
      ensures customers == old(customers) && searchTerm == old(searchTerm) && statusFilter == old(statusFilter)
      ensures selectedCustomerId == old(selectedCustomerId) && newStatus == old(newStatus)
      ensures deleteModalOpen == old(deleteModalOpen) && statusModalOpen == old(statusModalOpen)
    {
      page := newPage;
    }

    method HandleChangeRowsPerPage(rows: nat)
      modifies this
      ensures rowsPerPage == rows && page == 0 && filtered == old(filtered)
      ensures customers == old(customers) && searchTerm == old(searchTerm) && statusFilter == old(statusFilter)
      ensures selectedCustomerId == old(selectedCustomerId) && newStatus == old(newStatus)
      ensures deleteModalOpen == old(deleteModalOpen) && statusModalOpen == old(statusModalOpen)
    {
      rowsPerPage := rows;
      page := 0;
    }
  }

  /** `customers.map(c => c._id === id ? { ...c, status } : c)`. */
  function WithStatus(cs: seq<ListCustomer>, id: string, status: string): (r: seq<ListCustomer>)
    ensures |r| == |cs|
    ensures forall i :: 0 <= i < |cs| ==> r[i] == if cs[i].id == id then cs[i].(status := status) else cs[i]
  {
    Map(cs, (c: ListCustomer) => if c.id == id then c.(status := status) else c)
  }

  /** A status change alters no field but the status, and no customer with another id. */
  lemma StatusChangeOnlyStatus(cs: seq<ListCustomer>, id: string, status: string)
    ensures |WithStatus(cs, id, status)| == |cs|
    ensures forall i :: 0 <= i < |cs| ==>
      WithStatus(cs, id, status)[i].(status := cs[i].status) == cs[i]
      && (cs[i].id != id ==> WithStatus(cs, id, status)[i] == cs[i])
  {
  }

  /** For a short decimal `_id`, the number the buttons pass reads back as the same `_id`. */
  lemma ShortIdRoundTrip(c: ListCustomer, n: nat)
    requires c.id == IntText(n) && n < 1000000
    ensures ButtonNumber(c) == Int(n) && NumText(ButtonNumber(c)) == c.id
  {
    ShortNatText(n);
    assert Slice(c.id, -6, |c.id|) == c.id;
    ParseIntOfIntText(n);
  }

  /** A number below a million has at most six digits. */
  lemma {:induction false} ShortNatText(n: nat)
    requires n < 1000000
    ensures |IntText(n)| <= 6
  {
    NatTextLength(n, 1000000, 6);
  }

  lemma {:induction false} NatTextLength(n: nat, bound: nat, digits: nat)
    requires n < bound && bound == Power10(digits) && digits >= 1
    ensures |NatText(n)| <= digits
    decreases digits
  {
    if n >= 10 {
      var lower := Power10(digits - 1);
      assert bound == 10 * lower;
      assert (n / 10) * 10 <= n;
      NatTextLength(n / 10, lower, digits - 1);
      assert NatText(n) == NatText(n / 10) + [DigitChar(n % 10)];
    }
  }

  function Power10(k: nat): nat {
    if k == 0 then 1 else 10 * Power10(k - 1)
  }

  /** Deleting by the button's number removes exactly the row of a short decimal `_id` and every row sharing it. */
  lemma DeleteByButtonRemovesRow(cs: seq<ListCustomer>, c: ListCustomer, n: nat)
    requires c in cs && c.id == IntText(n) && n < 1000000
    ensures var r := RemoveKey(cs, ListKey, NumText(ButtonNumber(c)));
      c !in r && forall d :: d in cs && d.id != c.id ==> d in r
  {
    ShortIdRoundTrip(c, n);
  }

  /** A 24-character database id whose last six characters start with a letter. */
  function LongIdCustomer(): ListCustomer {
    ListCustomer("690b1a2b4e7e8d1234abcde1", "", "", "", "", None, "active", "")
  }

  /** Its buttons pass `parseInt("abcde1")`, which is NaN. */
  lemma LongIdButtonIsNaN()
    ensures ButtonNumber(LongIdCustomer()) == NaN
  {
    var tail := Slice(LongIdCustomer().id, -6, |LongIdCustomer().id|);
    assert tail == "abcde1";
    assert TrimStart(tail) == tail by {
      assert !IsWhitespace(tail[0]);
    }
  }

  /** So deleting that row removes nothing: no `_id` reads "NaN". */
  lemma LongIdCannotBeDeleted(cs: seq<ListCustomer>)
    requires forall i :: 0 <= i < |cs| ==> cs[i].id != "NaN"
    ensures ButtonNumber(LongIdCustomer()) == NaN
    ensures RemoveKey(cs, ListKey, NumText(ButtonNumber(LongIdCustomer()))) == cs
  {
    LongIdButtonIsNaN();
  }
}
