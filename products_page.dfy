/**
 * The products page. Its filter effect always starts again from the page's own eight
 * products, narrows them step by step (owner, search, category, trader) and goes back to
 * page 1; deleting removes a product from the full and from the shown list.
 */
module ProductsPage {
  import opened Common
  import opened Seqs
  import opened Text
  import opened Paging
  import opened Entities

  /** The page's own eight products: the backend's five records followed by three more. */
  function PageProducts(): seq<Product> {
    [ Product("p1", "PRD001", "Wireless Headphones", "John Smith",
              "High-quality wireless headphones with noise cancellation", "Electronics",
              199.99, 159.99, 50, "2023-10-15"),
      Product("p2", "PRD002", "Smart Watch", "Sarah Johnson",
              "Feature-rich smartwatch with health tracking", "Electronics",
              299.99, 249.99, 30, "2023-09-20"),
      Product("p3", "PRD003", "Coffee Maker", "Michael Brown",
              "Programmable coffee maker with thermal carafe", "Home Appliances",
              89.99, 69.99, 25, "2023-08-05"),
      Product("p4", "PRD004", "Yoga Mat", "Emily Davis",
              "Non-slip eco-friendly yoga mat", "Fitness",
              29.99, 24.99, 100, "2023-11-01"),
      Product("p5", "PRD005", "Bluetooth Speaker", "Robert Wilson",
              "Portable waterproof Bluetooth speaker", "Electronics",
              79.99, 64.99, 40, "2023-07-12"),
      Product("p6", "PRD006", "Desk Lamp", "John Smith", "Adjustable LED desk lamp with touch controls",
              "Home & Office", 45.99, 35.99, 60, "2023-10-22"),
      Product("p7", "PRD007", "Water Bottle", "Sarah Johnson", "Insulated stainless steel water bottle",
              "Lifestyle", 24.99, 19.99, 200, "2023-09-30"),
      Product("p8", "PRD008", "Backpack", "Emily Davis", "Water-resistant backpack with laptop compartment",
              "Fashion", 59.99, 49.99, 75, "2023-11-05") ]
  }

  /** `user?.role === 'trader'`. */
  predicate IsTraderUser(user: Option<User>) {
    user.Some? && user.value.role == RoleText("trader")
  }

  /** The search rule: name, product id, description or category contains the term, ignoring case. */
  predicate ProductMatches(p: Product, term: string) {
    IncludesIgnoringCase(p.productName, term) || IncludesIgnoringCase(p.productId, term)
    || IncludesIgnoringCase(p.description, term) || IncludesIgnoringCase(p.category, term)
  }

  function ByOwner(ps: seq<Product>, name: string): seq<Product> { Filter(ps, (p: Product) => p.traderName == name) }
  function BySearch(ps: seq<Product>, term: string): seq<Product> { Filter(ps, (p: Product) => ProductMatches(p, term)) }
  function ByCategory(ps: seq<Product>, c: string): seq<Product> { Filter(ps, (p: Product) => p.category == c) }
  function ByTrader(ps: seq<Product>, t: string): seq<Product> { Filter(ps, (p: Product) => p.traderName == t) }

  /** Everything a product must satisfy to be shown. */
  predicate Passes(p: Product, user: Option<User>, term: string, category: string, trader: string) {
    (IsTraderUser(user) ==> p.traderName == user.value.name)
    && (term != "" ==> ProductMatches(p, term))
    && (category != "all" ==> p.category == category)
    && (trader != "all" ==> p.traderName == trader)
  }

  /** The filter effect's steps applied to a list of products, in the page's order. */
  function Narrow(ps: seq<Product>, user: Option<User>, term: string, category: string, trader: string): (r: seq<Product>)
    ensures forall p :: p in r <==> p in ps && Passes(p, user, term, category, trader)
    ensures IsSubsequence(r, ps)
    ensures forall p {:trigger multiset(r)[p]} :: multiset(r)[p] == if Passes(p, user, term, category, trader) then multiset(ps)[p] else 0
  {
    var r1 := if IsTraderUser(user) then ByOwner(ps, user.value.name) else ps;
    var r2 := if term != "" then BySearch(r1, term) else r1;
    var r3 := if category != "all" then ByCategory(r2, category) else r2;
    var r4 := if trader != "all" then ByTrader(r3, trader) else r3;
    SubsequenceReflexive(ps);
    SubsequenceReflexive(r1);
    SubsequenceReflexive(r2);
    SubsequenceReflexive(r3);
    SubsequenceTransitive(r2, r1, ps);
    SubsequenceTransitive(r3, r2, ps);
    SubsequenceTransitive(r4, r3, ps);
    NarrowCounts(ps, user, term, category, trader, r1, r2, r3, r4);
    r4
  }

  /** Each step keeps every copy of a product that passes it, so the steps together keep every copy that passes all. */
  lemma NarrowCounts(ps: seq<Product>, user: Option<User>, term: string, category: string, trader: string,
                     r1: seq<Product>, r2: seq<Product>, r3: seq<Product>, r4: seq<Product>)
    requires r1 == (if IsTraderUser(user) then ByOwner(ps, user.value.name) else ps)
    requires r2 == (if term != "" then BySearch(r1, term) else r1)
    requires r3 == (if category != "all" then ByCategory(r2, category) else r2)
    requires r4 == (if trader != "all" then ByTrader(r3, trader) else r3)
    ensures forall p {:trigger multiset(r4)[p]} :: multiset(r4)[p] == if Passes(p, user, term, category, trader) then multiset(ps)[p] else 0
    ensures forall p :: p in r4 <==> p in ps && Passes(p, user, term, category, trader)
  {
    forall p
      ensures multiset(r4)[p] == if Passes(p, user, term, category, trader) then multiset(ps)[p] else 0
      ensures p in r4 <==> p in ps && Passes(p, user, term, category, trader)
    {
      var owned := IsTraderUser(user) ==> p.traderName == user.value.name;
      assert multiset(r1)[p] == if owned then multiset(ps)[p] else 0;
      assert multiset(r2)[p] == if owned && (term != "" ==> ProductMatches(p, term)) then multiset(ps)[p] else 0;
      assert multiset(r3)[p] == if owned && (term != "" ==> ProductMatches(p, term)) && (category != "all" ==> p.category == category)
                                then multiset(ps)[p] else 0;
    }
  }

  /** The filter effect's result: it always starts again from the page's own list. */
  function FilterProducts(user: Option<User>, term: string, category: string, trader: string): (r: seq<Product>)
    ensures forall p :: p in r <==> p in PageProducts() && Passes(p, user, term, category, trader)
    ensures IsSubsequence(r, PageProducts())
  {
    Narrow(PageProducts(), user, term, category, trader)
  }

  function CategoryOf(x: Product): string { x.category }

  /** `Array.from(new Set(mockProducts.map(p => p.category)))`. */
  function CategoryOptions(): (r: seq<string>)
    ensures forall c :: c in r <==> exists i :: 0 <= i < |PageProducts()| && PageProducts()[i].category == c
    ensures NoDuplicates(r)
    ensures forall i, j :: 0 <= i < j < |r| ==> IndexOf(Map(PageProducts(), CategoryOf), r[i]) < IndexOf(Map(PageProducts(), CategoryOf), r[j])
  {
    DistinctFirstOccurrenceOrder(Map(PageProducts(), CategoryOf));
    Distinct(Map(PageProducts(), CategoryOf))
  }

  function TraderNameOf(x: Product): string { x.traderName }

  /** `Array.from(new Set(mockProducts.map(p => p.traderName)))`. */
  function TraderOptions(): (r: seq<string>)
    ensures forall t :: t in r <==> exists i :: 0 <= i < |PageProducts()| && PageProducts()[i].traderName == t
    ensures NoDuplicates(r)
    ensures forall i, j :: 0 <= i < j < |r| ==> IndexOf(Map(PageProducts(), TraderNameOf), r[i]) < IndexOf(Map(PageProducts(), TraderNameOf), r[j])
  {
    DistinctFirstOccurrenceOrder(Map(PageProducts(), TraderNameOf));
    Distinct(Map(PageProducts(), TraderNameOf))
  }

  /** The effect's body: reassign `result` once per active filter. */
  method NarrowStepwise(ps: seq<Product>, user: Option<User>, term: string, category: string, trader: string)
    returns (result: seq<Product>)
    ensures result == Narrow(ps, user, term, category, trader)
  {
    result := ps;
    if IsTraderUser(user) {
      result := ByOwner(result, user.value.name);
    }
    if term != "" {
      result := BySearch(result, term);
    }
    if category != "all" {
      result := ByCategory(result, category);
    }
    if trader != "all" {
      result := ByTrader(result, trader);
    }
  }

  class ProductsManagementPage {
    const user: Option<User>
    var products: seq<Product>
    var filteredProducts: seq<Product>
    var searchTerm: string
    var selectedCategory: string
    var selectedTrader: string
    var currentPage: int

    /** Both lists only ever hold products of the page's own list, in its order. */
    predicate Valid()
      reads this
    {
      IsSubsequence(products, PageProducts()) && IsSubsequence(filteredProducts, PageProducts())
      && currentPage >= 1
    }

    /** `filteredProducts.slice((currentPage - 1) * 10, currentPage * 10)`. */
    function CurrentProducts(): (r: seq<Product>)
      reads this
      requires Valid()
      ensures r == Page(filteredProducts, currentPage)
      ensures |r| <= PageSize
      ensures r != [] <==> currentPage <= TotalPages(|filteredProducts|)
      ensures forall k :: 0 <= k < |r| ==> r[k] == filteredProducts[(currentPage - 1) * PageSize + k]
      ensures |r| == if |filteredProducts| <= (currentPage - 1) * PageSize then 0
                     else if |filteredProducts| - (currentPage - 1) * PageSize < PageSize then |filteredProducts| - (currentPage - 1) * PageSize
                     else PageSize
    {
      Page(filteredProducts, currentPage)
    }

    /** The first render, followed by the filter effect with nothing selected. */
    constructor(user: Option<User>)
      ensures Valid() && this.user == user && products == PageProducts()
      ensures searchTerm == "" && selectedCategory == "all" && selectedTrader == "all"
      ensures filteredProducts == FilterProducts(user, "", "all", "all") && currentPage == 1
    {
      this.user := user;
      products := PageProducts();
      searchTerm := "";
      selectedCategory := "all";
      selectedTrader := "all";
      filteredProducts := FilterProducts(user, "", "all", "all");
      currentPage := 1;
      SubsequenceReflexive(PageProducts());
    }

    /** The filter effect: start from the page's own list, narrow it, go back to page 1. */
    method FilterEffect()
      requires Valid()
      modifies this
      ensures Valid()
      ensures filteredProducts == FilterProducts(user, searchTerm, selectedCategory, selectedTrader)
      ensures currentPage == 1 && products == old(products)
      ensures searchTerm == old(searchTerm) && selectedCategory == old(selectedCategory)
      ensures selectedTrader == old(selectedTrader)
    {
      var result := NarrowStepwise(PageProducts(), user, searchTerm, selectedCategory, selectedTrader);
      assert result == FilterProducts(user, searchTerm, selectedCategory, selectedTrader);
      filteredProducts := result;
      currentPage := 1;
    }

    method SetSearchTerm(term: string)
      requires Valid()
      modifies this
      ensures Valid() && searchTerm == term && currentPage == 1 && products == old(products)
      ensures filteredProducts == FilterProducts(user, term, selectedCategory, selectedTrader)
      ensures selectedCategory == old(selectedCategory) && selectedTrader == old(selectedTrader)
    {
      searchTerm := term;
      FilterEffect();
    }

    method SetCategory(category: string)
      requires Valid()
      modifies this
      ensures Valid() && selectedCategory == category && currentPage == 1 && products == old(products)
      ensures filteredProducts == FilterProducts(user, searchTerm, category, selectedTrader)
      ensures searchTerm == old(searchTerm) && selectedTrader == old(selectedTrader)
    {
      selectedCategory := category;
      FilterEffect();
    }

    method SetTrader(trader: string)
      requires Valid()
      modifies this
      ensures Valid() && selectedTrader == trader && currentPage == 1 && products == old(products)
      ensures filteredProducts == FilterProducts(user, searchTerm, selectedCategory, trader)
      ensures searchTerm == old(searchTerm) && selectedCategory == old(selectedCategory)
    {
      selectedTrader := trader;
      FilterEffect();
    }

    method HandlePageChange(p: int)
      requires Valid() && p >= 1
      modifies this
      ensures Valid() && currentPage == p
      ensures products == old(products) && filteredProducts == old(filteredProducts)
      ensures searchTerm == old(searchTerm) && selectedCategory == old(selectedCategory)
      ensures selectedTrader == old(selectedTrader)
    {
      currentPage := p;
    }

    /** `handleDeleteProduct`; `confirmed` is the answer to the confirmation dialog. */
    method HandleDeleteProduct(id: string, confirmed: bool)
      requires Valid()
      modifies this
      ensures Valid()
      ensures !confirmed ==> products == old(products) && filteredProducts == old(filteredProducts)
      ensures confirmed ==> products == RemoveKey(old(products), ProductKey, id)
                            && filteredProducts == RemoveKey(old(filteredProducts), ProductKey, id)
      ensures currentPage == old(currentPage) && searchTerm == old(searchTerm)
      ensures selectedCategory == old(selectedCategory) && selectedTrader == old(selectedTrader)
    {
      if confirmed {
        var remaining := RemoveKey(products, ProductKey, id);
        var shown := RemoveKey(filteredProducts, ProductKey, id);
        SubsequenceTransitive(remaining, products, PageProducts());
        SubsequenceTransitive(shown, filteredProducts, PageProducts());
        products := remaining;
        filteredProducts := shown;
      }
    }
  }

  /** With no role restriction, no term and 'all' filters, the whole list is shown. */
  lemma NoFiltersShowAll(user: Option<User>)
    requires !IsTraderUser(user)
    ensures FilterProducts(user, "", "all", "all") == PageProducts()
  {
  }

  /**
   * The effect ignores `products`, so a product deleted earlier is shown again by the next
   * filter change whenever it passes the filters.
   */
  lemma FilterChangeRestoresDeleted(p: Product, user: Option<User>, term: string, category: string, trader: string)
    requires p in PageProducts() && Passes(p, user, term, category, trader)
    ensures p !in RemoveKey(PageProducts(), ProductKey, p.id)
    ensures p in FilterProducts(user, term, category, trader)
  {
  }

  /** A trader sees only their own products, whatever else is selected. */
  lemma TraderSeesOwnProducts(user: Option<User>, term: string, category: string, trader: string)
    requires IsTraderUser(user)
    ensures forall p :: p in FilterProducts(user, term, category, trader) ==> p.traderName == user.value.name
  {
  }

  /** The option lists keep first-occurrence order: the backend's five products' values come first. */
  lemma CategoryOptionsStartWithSeed()
    ensures var seed := Distinct(Map(SeedProducts(), CategoryOf));
      |seed| <= |CategoryOptions()| && CategoryOptions()[..|seed|] == seed
  {
    var f := CategoryOf;
    var extra := PageProducts()[5..];
    assert PageProducts() == SeedProducts() + extra;
    assert Map(PageProducts(), f) == Map(SeedProducts(), f) + Map(extra, f);
    DistinctPrefix(Map(SeedProducts(), f), Map(extra, f));
  }
}
