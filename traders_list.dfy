/**
 * The traders list page. Its filter effect starts again from the five seed traders,
 * narrows them (search, tier, region; there is no role filter) and goes back to page 1.
 */
module TradersList {
  import opened Common
  import opened Seqs
  import opened Text
  import opened Paging
  import opened Entities

  /** The search rule: name, email, trader id or region contains the term, ignoring case. */
  predicate TraderMatches(t: Trader, term: string) {
    IncludesIgnoringCase(t.name, term) || IncludesIgnoringCase(t.email, term)
    || IncludesIgnoringCase(t.traderId, term) || IncludesIgnoringCase(t.region, term)
  }

  function BySearch(ts: seq<Trader>, term: string): seq<Trader> { Filter(ts, (t: Trader) => TraderMatches(t, term)) }
  function ByTier(ts: seq<Trader>, tier: string): seq<Trader> { Filter(ts, (t: Trader) => t.tradingTier == tier) }
  function ByRegion(ts: seq<Trader>, region: string): seq<Trader> { Filter(ts, (t: Trader) => t.region == region) }

  /** Everything a trader must satisfy to be shown. */
  predicate Passes(t: Trader, term: string, tier: string, region: string) {
    (term != "" ==> TraderMatches(t, term))
    && (tier != "all" ==> t.tradingTier == tier)
    && (region != "all" ==> t.region == region)
  }

  /** The filter effect's steps applied to a list of traders, in the page's order. */
  function Narrow(ts: seq<Trader>, term: string, tier: string, region: string): (r: seq<Trader>)
    ensures forall t :: t in r <==> t in ts && Passes(t, term, tier, region)
    ensures IsSubsequence(r, ts)
    ensures forall t {:trigger multiset(r)[t]} :: multiset(r)[t] == if Passes(t, term, tier, region) then multiset(ts)[t] else 0
  {
    var r1 := if term != "" then BySearch(ts, term) else ts;
    var r2 := if tier != "all" then ByTier(r1, tier) else r1;
    var r3 := if region != "all" then ByRegion(r2, region) else r2;
    SubsequenceReflexive(ts);
    SubsequenceReflexive(r1);
    SubsequenceReflexive(r2);
    SubsequenceTransitive(r2, r1, ts);
    SubsequenceTransitive(r3, r2, ts);
    NarrowCounts(ts, term, tier, region, r1, r2, r3);
    r3
  }

  /** Each step keeps every copy of a trader that passes it, so the steps together keep every copy that passes all. */
  lemma NarrowCounts(ts: seq<Trader>, term: string, tier: string, region: string, r1: seq<Trader>, r2: seq<Trader>, r3: seq<Trader>)
    requires r1 == (if term != "" then BySearch(ts, term) else ts)
    requires r2 == (if tier != "all" then ByTier(r1, tier) else r1)
    requires r3 == (if region != "all" then ByRegion(r2, region) else r2)
    ensures forall t {:trigger multiset(r3)[t]} :: multiset(r3)[t] == if Passes(t, term, tier, region) then multiset(ts)[t] else 0
    ensures forall t :: t in r3 <==> t in ts && Passes(t, term, tier, region)
  {
    forall t
      ensures multiset(r3)[t] == if Passes(t, term, tier, region) then multiset(ts)[t] else 0
      ensures t in r3 <==> t in ts && Passes(t, term, tier, region)
    {
      assert multiset(r1)[t] == if term != "" ==> TraderMatches(t, term) then multiset(ts)[t] else 0;
      assert multiset(r2)[t] == if (term != "" ==> TraderMatches(t, term)) && (tier != "all" ==> t.tradingTier == tier)
                                then multiset(ts)[t] else 0;
    }
  }

  /** The filter effect's result: it always starts again from the seed traders. */
  function FilterTraders(term: string, tier: string, region: string): (r: seq<Trader>)
    ensures forall t :: t in r <==> t in SeedTraders() && Passes(t, term, tier, region)
    ensures IsSubsequence(r, SeedTraders())
  {
    Narrow(SeedTraders(), term, tier, region)
  }

  function TierOf(x: Trader): string { x.tradingTier }

  /** `Array.from(new Set(mockTraders.map(trader => trader.tradingTier)))`. */
  function TierOptions(): (r: seq<string>)
    ensures forall s :: s in r <==> exists i :: 0 <= i < |SeedTraders()| && SeedTraders()[i].tradingTier == s
    ensures NoDuplicates(r)
    ensures forall i, j :: 0 <= i < j < |r| ==> IndexOf(Map(SeedTraders(), TierOf), r[i]) < IndexOf(Map(SeedTraders(), TierOf), r[j])
  {
    DistinctFirstOccurrenceOrder(Map(SeedTraders(), TierOf));
    Distinct(Map(SeedTraders(), TierOf))
  }

  function RegionOf(x: Trader): string { x.region }

  /** `Array.from(new Set(mockTraders.map(trader => trader.region)))`. */
  function RegionOptions(): (r: seq<string>)
    ensures forall s :: s in r <==> exists i :: 0 <= i < |SeedTraders()| && SeedTraders()[i].region == s
    ensures NoDuplicates(r)
    ensures forall i, j :: 0 <= i < j < |r| ==> IndexOf(Map(SeedTraders(), RegionOf), r[i]) < IndexOf(Map(SeedTraders(), RegionOf), r[j])
  {
    DistinctFirstOccurrenceOrder(Map(SeedTraders(), RegionOf));
    Distinct(Map(SeedTraders(), RegionOf))
  }

  /** The effect's body: reassign `result` once per active filter. */
  method NarrowStepwise(ts: seq<Trader>, term: string, tier: string, region: string)
    returns (result: seq<Trader>)
    ensures result == Narrow(ts, term, tier, region)
  {
    result := ts;
    if term != "" {
      result := BySearch(result, term);
    }
    if tier != "all" {
      result := ByTier(result, tier);
    }
    if region != "all" {
      result := ByRegion(result, region);
    }
  }

  class TradersListPage {
    var traders: seq<Trader>
    var filteredTraders: seq<Trader>
    var searchTerm: string
    var selectedTier: string
    var selectedRegion: string
    var currentPage: int

    /** Both lists only ever hold seed traders, in seed order. */
    predicate Valid()
      reads this
    {
      IsSubsequence(traders, SeedTraders()) && IsSubsequence(filteredTraders, SeedTraders()) && currentPage >= 1
    }

    /** `filteredTraders.slice((currentPage - 1) * 10, currentPage * 10)`. */
    function CurrentTraders(): (r: seq<Trader>)
      reads this
      requires Valid()
      ensures r == Page(filteredTraders, currentPage)
      ensures |r| <= PageSize
      ensures r != [] <==> currentPage <= TotalPages(|filteredTraders|)
      ensures forall k :: 0 <= k < |r| ==> r[k] == filteredTraders[(currentPage - 1) * PageSize + k]
      ensures |r| == if |filteredTraders| <= (currentPage - 1) * PageSize then 0
                     else if |filteredTraders| - (currentPage - 1) * PageSize < PageSize then |filteredTraders| - (currentPage - 1) * PageSize
                     else PageSize
    {
      Page(filteredTraders, currentPage)
    }

    /** The first render, followed by the filter effect with nothing selected. */
    constructor()
      ensures Valid() && traders == SeedTraders()
      ensures searchTerm == "" && selectedTier == "all" && selectedRegion == "all"
      ensures filteredTraders == FilterTraders("", "all", "all") && currentPage == 1
    {
      traders := SeedTraders();
      searchTerm := "";
      selectedTier := "all";
      selectedRegion := "all";
      filteredTraders := FilterTraders("", "all", "all");
      currentPage := 1;
      SubsequenceReflexive(SeedTraders());
    }

    /** The filter effect: start from the seed traders, narrow them, go back to page 1. */
    method FilterEffect()
      requires Valid()
      modifies this
      ensures Valid()
      ensures filteredTraders == FilterTraders(searchTerm, selectedTier, selectedRegion)
      ensures currentPage == 1 && traders == old(traders)
      ensures searchTerm == old(searchTerm) && selectedTier == old(selectedTier)
      ensures selectedRegion == old(selectedRegion)
    {
      var result := NarrowStepwise(SeedTraders(), searchTerm, selectedTier, selectedRegion);
      assert result == FilterTraders(searchTerm, selectedTier, selectedRegion);
      filteredTraders := result;
      currentPage := 1;
    }

    method SetSearchTerm(term: string)
      requires Valid()
      modifies this
      ensures Valid() && searchTerm == term && currentPage == 1 && traders == old(traders)
      ensures filteredTraders == FilterTraders(term, selectedTier, selectedRegion)
      ensures selectedTier == old(selectedTier) && selectedRegion == old(selectedRegion)
    {
      searchTerm := term;
      FilterEffect();
    }

    method SetTier(tier: string)
      requires Valid()
      modifies this
      ensures Valid() && selectedTier == tier && currentPage == 1 && traders == old(traders)
      ensures filteredTraders == FilterTraders(searchTerm, tier, selectedRegion)
      ensures searchTerm == old(searchTerm) && selectedRegion == old(selectedRegion)
    {
      selectedTier := tier;
      FilterEffect();
    }

    method SetRegion(region: string)
      requires Valid()
      modifies this
      ensures Valid() && selectedRegion == region && currentPage == 1 && traders == old(traders)
      ensures filteredTraders == FilterTraders(searchTerm, selectedTier, region)
      ensures searchTerm == old(searchTerm) && selectedTier == old(selectedTier)
    {
      selectedRegion := region;
      FilterEffect();
    }

    method HandlePageChange(p: int)
      requires Valid() && p >= 1
      modifies this
      ensures Valid() && currentPage == p
      ensures traders == old(traders) && filteredTraders == old(filteredTraders)
      ensures searchTerm == old(searchTerm) && selectedTier == old(selectedTier)
      ensures selectedRegion == old(selectedRegion)
    {
      currentPage := p;
    }

    /** `handleDeleteTrader`; `confirmed` is the answer to the confirmation dialog. */
    method HandleDeleteTrader(id: string, confirmed: bool)
      requires Valid()
      modifies this
      ensures Valid()
      ensures !confirmed ==> traders == old(traders) && filteredTraders == old(filteredTraders)
      ensures confirmed ==> traders == RemoveKey(old(traders), TraderKey, id)
                            && filteredTraders == RemoveKey(old(filteredTraders), TraderKey, id)
      ensures currentPage == old(currentPage) && searchTerm == old(searchTerm)
      ensures selectedTier == old(selectedTier) && selectedRegion == old(selectedRegion)
    {
      if confirmed {
        var remaining := RemoveKey(traders, TraderKey, id);
        var shown := RemoveKey(filteredTraders, TraderKey, id);
        SubsequenceTransitive(remaining, traders, SeedTraders());
        SubsequenceTransitive(shown, filteredTraders, SeedTraders());
        traders := remaining;
        filteredTraders := shown;
      }
    }
  }

  /** `getStatusColor` of the traders pages: total over every string. */
  function StatusColor(status: string): (r: string)
    ensures r == "success" <==> status == "Active"
    ensures r == "error" <==> status == "Inactive"
    ensures r == "success" || r == "error" || r == "default"
  {
    match status
    case "Active" => "success"
    case "Inactive" => "error"
    case _ => "default"
  }

  /** `getTierColor`: total over every string; Platinum and unknown tiers share the neutral colour. */
  function TierColor(tier: string): (r: string)
    ensures r == "warning" <==> tier == "Gold"
    ensures r == "info" <==> tier == "Silver"
    ensures r == "secondary" <==> tier == "Basic"
    ensures r == "default" <==> tier !in {"Gold", "Silver", "Basic"}
  {
    match tier
    case "Platinum" => "default"
    case "Gold" => "warning"
    case "Silver" => "info"
    case "Basic" => "secondary"
    case _ => "default"
  }

  /** The tier filter offers Gold, Silver, Basic and Platinum, in the seed's order. */
  lemma TierOptionsList()
    ensures TierOptions() == ["Gold", "Silver", "Basic", "Platinum"]
  {
    var f := TierOf;
    var m := Map(SeedTraders(), f);
    assert m == ["Gold", "Silver", "Basic", "Platinum", "Gold"];
    assert Distinct(m[..1]) == ["Gold"];
    assert m[..2][..1] == m[..1];
    assert Distinct(m[..2]) == ["Gold", "Silver"];
    assert m[..3][..2] == m[..2];
    assert Distinct(m[..3]) == ["Gold", "Silver", "Basic"];
    assert m[..4][..3] == m[..3];
    assert Distinct(m[..4]) == ["Gold", "Silver", "Basic", "Platinum"];
    assert m[..5] == m;
    assert m[..4] == m[..|m| - 1];
  }

  /** Every tier offered by the tier filter has its own colour except Platinum. */
  lemma TierOptionsColours()
    ensures TierOptions() == ["Gold", "Silver", "Basic", "Platinum"]
    ensures forall i, j :: 0 <= i < j < 3 ==> TierColor(TierOptions()[i]) != TierColor(TierOptions()[j])
  {
    TierOptionsList();
  }

  /** With no term and 'all' filters, every seed trader is shown. */
  lemma NoFiltersShowAll()
    ensures FilterTraders("", "all", "all") == SeedTraders()
  {
  }

  /** The tier and region filters together keep only traders with both values. */
  lemma TierAndRegion(term: string, tier: string, region: string)
    requires tier != "all" && region != "all"
    ensures forall t :: t in FilterTraders(term, tier, region) ==> t.tradingTier == tier && t.region == region
  {
  }
}
