/**
  The provider search on the "browse services" page: a text query, a
  category picker with an "all" entry, and a price-range picker with the
  entries "all", "low", "medium" and "high", combined into one filter over
  the provider list.
 */
module ProviderSearch {
  import opened Seqs
  import opened Text

  /** A provider card as the page lists it; prices are JavaScript numbers. */
  datatype Provider = Provider(
    id: int,
    name: string,
    service: string,
    category: string,
    rating: real,
    reviews: int,
    price: real,
    location: string,
    image: string,
    verified: bool,
    description: string)

  /** The price bucket a price falls in. */
  datatype PriceBucket = Low | Medium | High

  /** Classifies a price: under 30 is low, 30 up to but not including 50 is
      medium, and 50 or more is high. */
  function BucketOf(price: real): (b: PriceBucket)
    ensures b == Low <==> price < 30.0
    ensures b == Medium <==> 30.0 <= price < 50.0
    ensures b == High <==> 50.0 <= price
  {
    if price < 30.0 then Low else if price < 50.0 then Medium else High
  }

  /** The name or the service contains the query, ignoring ASCII case; a
      query longer than both never matches. */
  predicate MatchesSearch(p: Provider, query: string)
    ensures MatchesSearch(p, query) ==> |query| <= |p.name| || |query| <= |p.service|
  {
    Contains(Lower(p.name), Lower(query)) || Contains(Lower(p.service), Lower(query))
  }

  /** "all" accepts every provider; any other value only its own category. */
  predicate MatchesCategory(p: Provider, selected: string)
    ensures MatchesCategory(p, selected) <==> selected in {"all", p.category}
  {
    selected == "all" || p.category == selected
  }

  /** The name of a bucket as the price-range picker writes it. */
  function BucketName(b: PriceBucket): string {
    match b
    case Low => "low"
    case Medium => "medium"
    case High => "high"
  }

  /** The price-range picker, tested as the page writes it: "all" accepts
      every price, a bucket's name exactly the prices in that bucket, and any
      other value none. */
  predicate MatchesPrice(p: Provider, range: string)
    ensures range == "all" ==> MatchesPrice(p, range)
    ensures range != "all" ==> (MatchesPrice(p, range) <==> range == BucketName(BucketOf(p.price)))
  {
    range == "all" ||
    (range == "low" && p.price < 30.0) ||
    (range == "medium" && p.price >= 30.0 && p.price < 50.0) ||
    (range == "high" && p.price >= 50.0)
  }

  predicate Matches(p: Provider, query: string, selected: string, range: string) {
    MatchesSearch(p, query) && MatchesCategory(p, selected) && MatchesPrice(p, range)
  }

  /** The filter's predicate as a value, so every use refers to the same one. */
  function MatchesFn(query: string, selected: string, range: string): Provider -> bool {
    p => Matches(p, query, selected, range)
  }

  /** `filteredProviders`: only matching providers, and every matching one. */
  function FilteredProviders(providers: seq<Provider>, query: string, selected: string, range: string): (r: seq<Provider>)
    ensures |r| <= |providers|
    ensures forall i :: 0 <= i < |r| ==> r[i] in providers && Matches(r[i], query, selected, range)
    ensures forall i :: 0 <= i < |providers| && Matches(providers[i], query, selected, range) ==> providers[i] in r
  {
    Filter(providers, MatchesFn(query, selected, range))
  }

  /** A provider is listed exactly when it is one of the providers and it
      matches the search, the category and the price range; the listing keeps
      the page's order and lists each matching provider as often as it occurs. */
  lemma FilteredProvidersSpec(providers: seq<Provider>, query: string, selected: string, range: string)
    ensures var r := FilteredProviders(providers, query, selected, range);
      (forall p :: p in r <==> p in providers && Matches(p, query, selected, range)) &&
      IsSubsequence(r, providers) &&
      (forall p :: multiset(r)[p] == if Matches(p, query, selected, range) then multiset(providers)[p] else 0)
  {
    var f := MatchesFn(query, selected, range);
    FilterExactly(providers, f);
    var r := Filter(providers, f);
    forall p ensures p in r <==> p in providers && Matches(p, query, selected, range) {
      assert p in r <==> multiset(r)[p] > 0;
      assert p in providers <==> multiset(providers)[p] > 0;
    }
  }

  /** An empty query matches every provider, so it filters out nothing. */
  lemma EmptyQueryMatchesAll(providers: seq<Provider>)
    ensures FilteredProviders(providers, "", "all", "all") == providers
  {
    forall p | p in providers ensures MatchesFn("", "all", "all")(p) {
      ContainsEmpty(Lower(p.name));
    }
    FilterAll(providers, MatchesFn("", "all", "all"));
  }

  /** Exactly one of the three named ranges accepts a given price, and a
      value the picker does not offer accepts none. */
  lemma PriceRangePartition(p: Provider, range: string)
    ensures range !in {"all", "low", "medium", "high"} ==> !MatchesPrice(p, range)
    ensures (if MatchesPrice(p, "low") then 1 else 0) + (if MatchesPrice(p, "medium") then 1 else 0)
      + (if MatchesPrice(p, "high") then 1 else 0) == 1
  {
  }

  /** The search part alone: an empty query matches every provider, whatever
      the pickers say. */
  lemma EmptyQueryMatchesSearch(p: Provider)
    ensures MatchesSearch(p, "")
  {
    ContainsEmpty(Lower(p.name));
  }

  /** The category and price pickers without the search. */
  predicate MatchesPickers(p: Provider, selected: string, range: string) {
    MatchesCategory(p, selected) && MatchesPrice(p, range)
  }

  function PickersFn(selected: string, range: string): Provider -> bool {
    p => MatchesPickers(p, selected, range)
  }

  /** With an empty query the listing is the providers that match the
      pickers, whatever the pickers are set to. */
  lemma EmptyQueryFiltersByPickers(providers: seq<Provider>, selected: string, range: string)
    ensures FilteredProviders(providers, "", selected, range) == Filter(providers, PickersFn(selected, range))
  {
    forall p | p in providers ensures MatchesFn("", selected, range)(p) == PickersFn(selected, range)(p) {
      EmptyQueryMatchesSearch(p);
    }
    FilterSamePredicate(providers, MatchesFn("", selected, range), PickersFn(selected, range));
  }

  /** Typing more: when the new query contains the old one, every provider
      the new query lists was listed by the old one, in the same order. */
  lemma NarrowingQueryNarrowsResult(providers: seq<Provider>, oldQuery: string, newQuery: string,
                                    selected: string, range: string)
    requires Contains(newQuery, oldQuery)
    ensures IsSubsequence(FilteredProviders(providers, newQuery, selected, range),
                          FilteredProviders(providers, oldQuery, selected, range))
  {
    var pNew, pOld := MatchesFn(newQuery, selected, range), MatchesFn(oldQuery, selected, range);
    LowerKeepsContains(newQuery, oldQuery);
    forall p | p in providers && pNew(p) ensures pOld(p) {
      if Contains(Lower(p.name), Lower(newQuery)) {
        ContainsTransitive(Lower(p.name), Lower(newQuery), Lower(oldQuery));
      } else {
        ContainsTransitive(Lower(p.service), Lower(newQuery), Lower(oldQuery));
      }
    }
    FilterMonotone(providers, pNew, pOld);
  }

  /** Choosing a category or a price range other than "all" only removes
      providers from the "all" listing. */
  lemma NarrowingPickersNarrowsResult(providers: seq<Provider>, query: string, selected: string, range: string)
    ensures IsSubsequence(FilteredProviders(providers, query, selected, range),
                          FilteredProviders(providers, query, "all", "all"))
  {
    FilterMonotone(providers, MatchesFn(query, selected, range), MatchesFn(query, "all", "all"));
  }
}
