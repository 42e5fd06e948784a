/** The listing browser page: the loaded listings, the filter criteria, the
    price bounds of the slider and the list currently shown. */
module ListingBrowser {
  import opened Listings
  import opened Sequences

  /** The four filter inputs; the price range is the slider's `[low, high]` pair. */
  datatype Criteria = Criteria(
    MinBedrooms: int,
    MinBathrooms: int,
    MinParking: int,
    PriceLow: int,
    PriceHigh: int)

  /** The test `applyFilters` hands to `filter`. */
  predicate Matches(c: Criteria, l: Listing) {
    l.Bedrooms >= c.MinBedrooms &&
    l.Bathrooms >= c.MinBathrooms &&
    l.Parking >= c.MinParking &&
    l.SalePrice >= c.PriceLow &&
    l.SalePrice <= c.PriceHigh
  }

  /** The list `applyFilters` computes. Every kept listing meets all criteria. */
  function FilterListings(listings: seq<Listing>, c: Criteria): (r: seq<Listing>)
    ensures |r| <= |listings|
    ensures forall k :: 0 <= k < |r| ==>
      r[k].Bedrooms >= c.MinBedrooms && r[k].Bathrooms >= c.MinBathrooms &&
      r[k].Parking >= c.MinParking && c.PriceLow <= r[k].SalePrice <= c.PriceHigh
  {
    Filter(listings, l => Matches(c, l))
  }

  /** Every listing that meets all criteria is kept (completeness). */
  lemma FilterListingsComplete(listings: seq<Listing>, c: Criteria)
    ensures forall k :: (0 <= k < |listings| &&
                         listings[k].Bedrooms >= c.MinBedrooms && listings[k].Bathrooms >= c.MinBathrooms &&
                         listings[k].Parking >= c.MinParking && c.PriceLow <= listings[k].SalePrice <= c.PriceHigh)
                        ==> listings[k] in FilterListings(listings, c)
    ensures forall l :: multiset(FilterListings(listings, c))[l] == if Matches(c, l) then multiset(listings)[l] else 0
  {
    FilterComplete(listings, l => Matches(c, l));
    FilterCount(listings, l => Matches(c, l));
  }

  /** The result lists the kept listings in their original order. */
  lemma FilterListingsIsSubsequence(listings: seq<Listing>, c: Criteria)
    ensures IsSubsequenceOf(FilterListings(listings, c), listings)
  {
    FilterIsSubsequence(listings, l => Matches(c, l));
  }

  /** Filtering the filtered list with the same criteria changes nothing. */
  lemma FilterListingsIdempotent(listings: seq<Listing>, c: Criteria)
    ensures FilterListings(FilterListings(listings, c), c) == FilterListings(listings, c)
  {
    FilterIdempotent(listings, l => Matches(c, l));
  }

  /** `Math.min(...prices)` for non-empty data. */
  function MinPrice(listings: seq<Listing>): (m: int)
    requires |listings| > 0
    ensures exists k :: 0 <= k < |listings| && listings[k].SalePrice == m
    ensures forall k :: 0 <= k < |listings| ==> m <= listings[k].SalePrice
  {
    if |listings| == 1 then listings[0].SalePrice
    else
      var rest := MinPrice(listings[1..]);
      if listings[0].SalePrice <= rest then listings[0].SalePrice else rest
  }

  /** `Math.max(...prices)` for non-empty data. */
  function MaxPrice(listings: seq<Listing>): (m: int)
    requires |listings| > 0
    ensures exists k :: 0 <= k < |listings| && listings[k].SalePrice == m
    ensures forall k :: 0 <= k < |listings| ==> listings[k].SalePrice <= m
  {
    if |listings| == 1 then listings[0].SalePrice
    else
      var rest := MaxPrice(listings[1..]);
      if listings[0].SalePrice >= rest then listings[0].SalePrice else rest
  }

  /** The criteria `resetFilters` restores. */
  function ResetCriteria(priceMin: int, priceMax: int): (c: Criteria)
    ensures c.MinBedrooms == 1 && c.MinBathrooms == 1 && c.MinParking == 1
    ensures c.PriceLow == priceMin && c.PriceHigh == priceMax
  {
    Criteria(1, 1, 1, priceMin, priceMax)
  }

  /** `resetFilters` shows the full list without filtering. Re-running the
      filter with the reset criteria on freshly loaded data would give the same
      list exactly when no listing has a zero bedroom, bathroom or parking count. */
  lemma ResetAgreesWithRefilter(data: seq<Listing>)
    requires |data| > 0
    ensures FilterListings(data, ResetCriteria(MinPrice(data), MaxPrice(data))) == data
        <==> forall k :: 0 <= k < |data| ==>
               data[k].Bedrooms >= 1 && data[k].Bathrooms >= 1 && data[k].Parking >= 1
  {
    var low, high := MinPrice(data), MaxPrice(data);
    var c := ResetCriteria(low, high);
    assert forall k :: 0 <= k < |data| ==> low <= data[k].SalePrice <= high;
    assert forall k :: 0 <= k < |data| ==>
      (Matches(c, data[k]) <==> data[k].Bedrooms >= 1 && data[k].Bathrooms >= 1 && data[k].Parking >= 1);
    FilterKeepsAll(data, l => Matches(c, l));
  }

  /** A concrete listing set on which reset and re-filtering differ. */
  lemma ResetDiffersOnZeroParking()
    ensures
      var studio := Listing(7, 1, 1, 0, 250000, "Studio", "Downtown");
      FilterListings([studio], ResetCriteria(250000, 250000)) == []
  {
  }

  /** The page component's state. */
  class HomePage {
    var listings: seq<Listing>
    var filteredListings: seq<Listing>
    var loading: bool
    var bedrooms: int
    var bathrooms: int
    var parking: int
    var priceRange: (int, int)
    var priceMin: int
    var priceMax: int

    /** The criteria the filter inputs currently show. */
    function CurrentCriteria(): (c: Criteria)
      reads this
      ensures c.MinBedrooms == bedrooms && c.MinBathrooms == bathrooms && c.MinParking == parking
      ensures c.PriceLow == priceRange.0 && c.PriceHigh == priceRange.1
    {
      Criteria(bedrooms, bathrooms, parking, priceRange.0, priceRange.1)
    }

    /** The initial `useState` values. */
    constructor ()
      ensures listings == [] && filteredListings == [] && loading
      ensures bedrooms == 1 && bathrooms == 1 && parking == 1
      ensures priceRange == (100000, 800000) && priceMin == 0 && priceMax == 1000000
    {
      listings, filteredListings, loading := [], [], true;
      bedrooms, bathrooms, parking := 1, 1, 1;
      priceRange := (100000, 800000);
      priceMin, priceMax := 0, 1000000;
    }

    /** The success path of `fetchListings`, given the data the fetch returned. */
    method FetchSucceeded(data: seq<Listing>)
      requires |data| > 0
      modifies this
      ensures listings == data && filteredListings == data && !loading
      ensures priceMin == MinPrice(data) && priceMax == MaxPrice(data)
      ensures priceRange == (priceMin, priceMax)
      ensures forall k :: 0 <= k < |data| ==> priceMin <= data[k].SalePrice <= priceMax
      ensures bedrooms == old(bedrooms) && bathrooms == old(bathrooms) && parking == old(parking)
    {
      var prices := (MinPrice(data), MaxPrice(data));
      listings := data;
      filteredListings := data;
      priceMin, priceMax := prices.0, prices.1;
      priceRange := prices;
      loading := false;
    }

    /** The bedrooms select. */
    method SetBedrooms(n: int)
      modifies this`bedrooms
      ensures bedrooms == n
    {
      bedrooms := n;
    }

    /** The bathrooms select. */
    method SetBathrooms(n: int)
      modifies this`bathrooms
      ensures bathrooms == n
    {
      bathrooms := n;
    }

    /** The parking select. */
    method SetParking(n: int)
      modifies this`parking
      ensures parking == n
    {
      parking := n;
    }

    /** `handlePriceChange`: the slider's new pair. */
    method HandlePriceChange(low: int, high: int)
      modifies this`priceRange
      ensures priceRange == (low, high)
    {
      priceRange := (low, high);
    }

    /** `applyFilters`: show the listings meeting the current criteria. */
    method ApplyFilters()
      modifies this`filteredListings
      ensures filteredListings == FilterListings(listings, CurrentCriteria())
      ensures IsSubsequenceOf(filteredListings, listings)
    {
      filteredListings := FilterListings(listings, CurrentCriteria());
      FilterListingsIsSubsequence(listings, CurrentCriteria());
    }

    /** `resetFilters`: restore the criteria and show the full list, without filtering. */
    method ResetFilters()
      modifies this`bedrooms, this`bathrooms, this`parking, this`priceRange, this`filteredListings
      ensures CurrentCriteria() == ResetCriteria(priceMin, priceMax)
      ensures filteredListings == listings
    {
      bedrooms := 1;
      bathrooms := 1;
      parking := 1;
      priceRange := (priceMin, priceMax);
      filteredListings := listings;
    }
  }
}
