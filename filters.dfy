/**
 * The product-filter panel: the filter state is read from the URL query once,
 * when the panel mounts; each committed change replaces one field of the state
 * and rewrites the query, leaving the parameters the panel does not manage alone.
 */
module Filters {
  import opened Strings

  /** A URL query, one value per parameter name. */
  type Params = map<string, string>

  /** The two ends of the price slider. */
  datatype PriceRange = PriceRange(lo: int, hi: int)

  /** The committed filter state: a category ("all" for none), a price range and a sort key. */
  datatype FilterState = FilterState(category: string, priceRange: PriceRange, sort: string)

  /** The parameter names the panel manages. */
  const Managed: set<string> := {"category", "minPrice", "maxPrice", "sort"}

  /** `params.get(key) || fallback`: an absent or empty value gives the fallback. */
  function TextParam(params: Params, key: string, fallback: string): (r: string)
    ensures key !in params ==> r == fallback
    ensures key in params && params[key] == "" ==> r == fallback
    ensures key in params && params[key] != "" ==> r == params[key]
  {
    if key in params && params[key] != "" then params[key] else fallback
  }

  /**
   * `Number(params.get(key)) || fallback`. `toNumber` stands for `Number` with a
   * non-numeric string read as 0 (both are falsy); an absent parameter reads as 0.
   */
  function PriceParam(params: Params, key: string, toNumber: string -> int, fallback: int): (r: int)
    ensures key !in params ==> r == fallback
    ensures key in params && toNumber(params[key]) == 0 ==> r == fallback
    ensures key in params && toNumber(params[key]) != 0 ==> r == toNumber(params[key])
  {
    var n := if key in params then toNumber(params[key]) else 0;
    if n != 0 then n else fallback
  }

  /** The filter state the panel starts from, read from the query with its defaults. */
  function ParseFilters(params: Params, minPrice: int, maxPrice: int, toNumber: string -> int): (f: FilterState)
    ensures "category" !in params ==> f.category == "all"
    ensures "sort" !in params ==> f.sort == "default"
    ensures "minPrice" !in params ==> f.priceRange.lo == minPrice
    ensures "maxPrice" !in params ==> f.priceRange.hi == maxPrice
    ensures f.category != "" && f.sort != ""
  {
    FilterState(
      TextParam(params, "category", "all"),
      PriceRange(PriceParam(params, "minPrice", toNumber, minPrice),
                 PriceParam(params, "maxPrice", toNumber, maxPrice)),
      TextParam(params, "sort", "default"))
  }

  /**
   * What the query looks like after updateURL(f) has run on `current`: each managed
   * parameter is set exactly when its field differs from its default and deleted
   * otherwise, and every other parameter is kept as it was.
   */
  predicate Encodes(current: Params, f: FilterState, minPrice: int, maxPrice: int, params: Params) {
    && (if f.category != "" && f.category != "all"
        then "category" in params && params["category"] == f.category
        else "category" !in params)
    && (if f.priceRange.lo != minPrice
        then "minPrice" in params && params["minPrice"] == IntToString(f.priceRange.lo)
        else "minPrice" !in params)
    && (if f.priceRange.hi != maxPrice
        then "maxPrice" in params && params["maxPrice"] == IntToString(f.priceRange.hi)
        else "maxPrice" !in params)
    && (if f.sort != "default"
        then "sort" in params && params["sort"] == f.sort
        else "sort" !in params)
    && (forall k | k in current && k !in Managed :: k in params)
    && (forall k | k in params && k !in Managed :: k in current && params[k] == current[k])
  }

  /** The four managed parameter names are distinct. */
  lemma ManagedKeysDistinct()
    ensures "category" != "minPrice" && "category" != "maxPrice" && "category" != "sort"
    ensures "minPrice" != "maxPrice" && "minPrice" != "sort" && "maxPrice" != "sort"
  {
    assert "minPrice"[1] != "maxPrice"[1];
  }

  /** Every parameter the panel does not manage is present and valued as in `current`. */
  ghost predicate Untouched(current: Params, params: Params) {
    forall k | k !in Managed :: (k in params <==> k in current) && (k in params ==> params[k] == current[k])
  }

  /** updateURL: set or delete each managed parameter, one after the other, on a copy of the query. */
  method UpdateURL(current: Params, f: FilterState, minPrice: int, maxPrice: int) returns (params: Params)
    ensures Encodes(current, f, minPrice, maxPrice, params)
  {
    ManagedKeysDistinct();
    params := current;
    if f.category != "" && f.category != "all" {
      params := params["category" := f.category];
    } else {
      params := params - {"category"};
    }
    assert Untouched(current, params);
    if f.priceRange.lo != minPrice {
      params := params["minPrice" := IntToString(f.priceRange.lo)];
    } else {
      params := params - {"minPrice"};
    }
    assert Untouched(current, params);
    if f.priceRange.hi != maxPrice {
      params := params["maxPrice" := IntToString(f.priceRange.hi)];
    } else {
      params := params - {"maxPrice"};
    }
    assert Untouched(current, params);
    if f.sort != "default" {
      params := params["sort" := f.sort];
    } else {
      params := params - {"sort"};
    }
    assert Untouched(current, params);
  }

  /** The query updateURL produces is determined by the query it starts from and the state. */
  lemma EncodingIsUnique(current: Params, f: FilterState, minPrice: int, maxPrice: int, p1: Params, p2: Params)
    requires Encodes(current, f, minPrice, maxPrice, p1) && Encodes(current, f, minPrice, maxPrice, p2)
    ensures p1 == p2
  {
    forall k ensures (k in p1 <==> k in p2) && (k in p1 ==> p1[k] == p2[k]) {
      if k == "category" {
      } else if k == "minPrice" {
      } else if k == "maxPrice" {
      } else if k == "sort" {
      } else {
        assert k !in Managed;
      }
    }
  }

  /** Running updateURL again with the same state changes nothing. */
  lemma EncodingIsIdempotent(current: Params, f: FilterState, minPrice: int, maxPrice: int, p1: Params, p2: Params)
    requires Encodes(current, f, minPrice, maxPrice, p1) && Encodes(p1, f, minPrice, maxPrice, p2)
    ensures p2 == p1
  {
    assert Encodes(p1, f, minPrice, maxPrice, p1);
    EncodingIsUnique(p1, f, minPrice, maxPrice, p1, p2);
  }

  /**
   * Reading back what updateURL wrote gives the same category and sort when they
   * are non-empty, and the same price ends when each either equals its bound or is
   * non-zero, for any `toNumber` that reads a decimal string as the integer it
   * denotes, as `Number` does.
   */
  lemma {:induction false} RoundTrip(
    current: Params, f: FilterState, minPrice: int, maxPrice: int, params: Params, toNumber: string -> int)
    requires Encodes(current, f, minPrice, maxPrice, params)
    requires forall s | IsDecimal(s) :: toNumber(s) == DecimalValue(s)
    ensures f.category != "" ==> ParseFilters(params, minPrice, maxPrice, toNumber).category == f.category
    ensures f.sort != "" ==> ParseFilters(params, minPrice, maxPrice, toNumber).sort == f.sort
    ensures f.priceRange.lo == minPrice || f.priceRange.lo != 0
         ==> ParseFilters(params, minPrice, maxPrice, toNumber).priceRange.lo == f.priceRange.lo
    ensures f.priceRange.hi == maxPrice || f.priceRange.hi != 0
         ==> ParseFilters(params, minPrice, maxPrice, toNumber).priceRange.hi == f.priceRange.hi
  {
    assert toNumber(IntToString(f.priceRange.lo)) == f.priceRange.lo;
    assert toNumber(IntToString(f.priceRange.hi)) == f.priceRange.hi;
  }

  /** A price end of 0 away from its bound is written as "0" but read back as the bound. */
  lemma ZeroPriceReadsAsBound(
    current: Params, f: FilterState, minPrice: int, maxPrice: int, params: Params, toNumber: string -> int)
    requires Encodes(current, f, minPrice, maxPrice, params)
    requires toNumber("0") == 0
    ensures f.priceRange.lo == 0 && minPrice != 0 ==>
      && "minPrice" in params && params["minPrice"] == "0"
      && ParseFilters(params, minPrice, maxPrice, toNumber).priceRange.lo == minPrice
    ensures f.priceRange.hi == 0 && maxPrice != 0 ==>
      && "maxPrice" in params && params["maxPrice"] == "0"
      && ParseFilters(params, minPrice, maxPrice, toNumber).priceRange.hi == maxPrice
  {
    assert IntToString(0) == "0";
  }

  /**
   * The mounted panel: the committed filters, the slider's live value and the
   * current URL query (which updateURL replaces through navigation).
   */
  class FilterPanel {
    const minPrice: int
    const maxPrice: int
    var filters: FilterState
    var sliderValue: PriceRange
    var search: Params

    /** Mounting reads the filters from the query; the slider starts at the parsed range. */
    constructor (query: Params, minPrice: int, maxPrice: int, toNumber: string -> int)
      ensures this.minPrice == minPrice && this.maxPrice == maxPrice
      ensures filters == ParseFilters(query, minPrice, maxPrice, toNumber)
      ensures sliderValue == filters.priceRange && search == query
    {
      this.minPrice := minPrice;
      this.maxPrice := maxPrice;
      var parsed := ParseFilters(query, minPrice, maxPrice, toNumber);
      filters := parsed;
      sliderValue := parsed.priceRange;
      search := query;
    }

    method HandleCategoryChange(value: string)
      modifies this
      ensures filters == old(filters).(category := value)
      ensures sliderValue == old(sliderValue)
      ensures Encodes(old(search), filters, minPrice, maxPrice, search)
    {
      filters := filters.(category := value);
      search := UpdateURL(search, filters, minPrice, maxPrice);
    }

    /** Dragging the slider moves only the slider; the filters and the URL stay. */
    method HandlePriceChange(value: PriceRange)
      modifies this
      ensures sliderValue == value
      ensures filters == old(filters) && search == old(search)
    {
      sliderValue := value;
    }

    /** Releasing the slider commits the range; the effect on `filters.priceRange` then resyncs the slider. */
    method HandlePriceChangeCommitted(value: PriceRange)
      modifies this
      ensures filters == old(filters).(priceRange := value)
      ensures sliderValue == value
      ensures Encodes(old(search), filters, minPrice, maxPrice, search)
    {
      filters := filters.(priceRange := value);
      search := UpdateURL(search, filters, minPrice, maxPrice);
      sliderValue := filters.priceRange;
    }

    method HandleSortChange(value: string)
      modifies this
      ensures filters == old(filters).(sort := value)
      ensures sliderValue == old(sliderValue)
      ensures Encodes(old(search), filters, minPrice, maxPrice, search)
    {
      filters := filters.(sort := value);
      search := UpdateURL(search, filters, minPrice, maxPrice);
    }
  }
}
