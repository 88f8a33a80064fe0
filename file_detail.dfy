/**
 * The file detail page: the products extracted from one file, a search box over them, a
 * delete button per product and a preview of the first five matches.
 */
module FileDetail {
  import opened Seqs
  import opened Text

  /** A product as listed on the file page (it carries no trader and no date). */
  datatype ExtractedProduct = ExtractedProduct(
    id: string, productId: string, productName: string, description: string, category: string,
    retailPrice: real, netPrice: real, quantity: int)

  function ExtractedKey(p: ExtractedProduct): string { p.id }

  /** The five products the page shows for every file. */
  function FileProducts(): seq<ExtractedProduct> {
    [ ExtractedProduct("p1", "PRD001", "Wireless Headphones", "High-quality wireless headphones with noise cancellation",
                       "Electronics", 199.99, 159.99, 50),
      ExtractedProduct("p2", "PRD002", "Smart Watch", "Feature-rich smartwatch with health tracking",
                       "Electronics", 299.99, 249.99, 30),
      ExtractedProduct("p3", "PRD003", "Coffee Maker", "Programmable coffee maker with thermal carafe",
                       "Home Appliances", 89.99, 69.99, 25),
      ExtractedProduct("p4", "PRD004", "Yoga Mat", "Non-slip eco-friendly yoga mat",
                       "Fitness", 29.99, 24.99, 100),
      ExtractedProduct("p5", "PRD005", "Bluetooth Speaker", "Portable waterproof Bluetooth speaker",
                       "Electronics", 79.99, 64.99, 40) ]
  }

  /** The search rule: name, product id, category or description contains the term, ignoring case. */
  predicate ProductMatches(p: ExtractedProduct, term: string) {
    IncludesIgnoringCase(p.productName, term) || IncludesIgnoringCase(p.productId, term)
    || IncludesIgnoringCase(p.category, term) || IncludesIgnoringCase(p.description, term)
  }

  function Matching(term: string): ExtractedProduct -> bool {
    p => ProductMatches(p, term)
  }

  /** The search effect's result: the current products, narrowed only when there is a term. */
  function Search(products: seq<ExtractedProduct>, term: string): (r: seq<ExtractedProduct>)
    ensures term == "" ==> r == products
    ensures term != "" ==> forall p :: p in r <==> p in products && ProductMatches(p, term)
    ensures IsSubsequence(r, products)
    ensures term != "" ==> forall p {:trigger multiset(r)[p]} :: multiset(r)[p] == if ProductMatches(p, term) then multiset(products)[p] else 0
  {
    if term != "" then Filter(products, Matching(term))
    else
      SubsequenceReflexive(products);
      products
  }

  /** `filteredProducts.slice(0, 5)`: the rows of the preview table. */
  function Preview(filtered: seq<ExtractedProduct>): (r: seq<ExtractedProduct>)
    ensures |r| == if |filtered| < 5 then |filtered| else 5
    ensures r == filtered[..|r|]
  {
    Slice(filtered, 0, 5)
  }

  /** The 'View All' button appears when there are more than five matches. */
  predicate ShowsViewAll(filtered: seq<ExtractedProduct>) {
    |filtered| > 5
  }

  /** 'View All' appears exactly when the preview hides some of the matches. */
  lemma ViewAllIffHidden(filtered: seq<ExtractedProduct>)
    ensures ShowsViewAll(filtered) <==> |Preview(filtered)| < |filtered|
    ensures !ShowsViewAll(filtered) ==> Preview(filtered) == filtered
  {
  }

  class FileDetailPage {
    var products: seq<ExtractedProduct>
    var filteredProducts: seq<ExtractedProduct>
    var searchTerm: string

    /** After every effect has run, the shown list is the search over the current products. */
    predicate Valid()
      reads this
    {
      filteredProducts == Search(products, searchTerm)
    }

    /** The mount effect: the file's products, all shown, empty search. */
    constructor()
      ensures Valid() && products == FileProducts() && filteredProducts == FileProducts()
      ensures searchTerm == ""
    {
      products := FileProducts();
      filteredProducts := FileProducts();
      searchTerm := "";
    }

    /** The search effect, run whenever the term or the product list changes. */
    method SearchEffect()
      modifies this
      ensures Valid()
      ensures filteredProducts == Search(products, searchTerm)
      ensures products == old(products) && searchTerm == old(searchTerm)
    {
      if searchTerm != "" {
        var result := Filter(products, Matching(searchTerm));
        filteredProducts := result;
      } else {
        filteredProducts := products;
      }
    }

    method SetSearchTerm(term: string)
      modifies this
      ensures Valid() && searchTerm == term && products == old(products)
      ensures filteredProducts == Search(products, term)
    {
      searchTerm := term;
      SearchEffect();
    }

    /**
     * `handleProductDelete` followed by the search effect it triggers: both lists lose the
     * product, and re-running the search over the shorter list agrees with the direct removal.
     */
    method HandleProductDelete(id: string, confirmed: bool)
      requires Valid()
      modifies this
      ensures Valid() && searchTerm == old(searchTerm)
      ensures !confirmed ==> products == old(products) && filteredProducts == old(filteredProducts)
      ensures confirmed ==> products == RemoveKey(old(products), ExtractedKey, id)
                            && filteredProducts == RemoveKey(old(filteredProducts), ExtractedKey, id)
    {
      if confirmed {
        var shown := RemoveKey(filteredProducts, ExtractedKey, id);
        products := RemoveKey(products, ExtractedKey, id);
        filteredProducts := shown;
        if searchTerm != "" {
          RemoveKeyCommutes(old(products), ExtractedKey, id, Matching(searchTerm));
        }
        SearchEffect();
      }
    }
  }

  /**
   * The search starts from the current products, so a deleted product stays deleted whatever
   * is typed afterwards.
   */
  lemma DeletedStaysDeleted(products: seq<ExtractedProduct>, id: string, term: string)
    ensures forall p :: p in Search(RemoveKey(products, ExtractedKey, id), term) ==> p.id != id
  {
  }

  /** An empty search shows every product, and the preview then holds the first five. */
  lemma EmptySearchPreview(products: seq<ExtractedProduct>)
    requires |products| >= 5
    ensures Preview(Search(products, "")) == products[..5]
  {
  }
}
