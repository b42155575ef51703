/**
 * The storefront's home page (src/pages/HomePage.tsx): the catalog filter by category and
 * search text, and the page state holding the selected service and the two filters.
 */
module Home {
  import opened Wrappers
  import opened Types
  import opened Text
  import Catalog

  /** `!selectedCategory || service.category === selectedCategory`. */
  predicate MatchesCategory(service: Service, category: string) {
    category == "" || service.category == category
  }

  /** `!searchQuery` or the lowered name or description includes the lowered query. */
  predicate MatchesSearch(service: Service, query: string) {
    || query == ""
    || Contains(ToLower(service.name), ToLower(query))
    || Contains(ToLower(service.description), ToLower(query))
  }

  predicate Matches(service: Service, category: string, query: string) {
    MatchesCategory(service, category) && MatchesSearch(service, query)
  }

  /** `xs` is `ys` with some entries left out, the rest in their original order. */
  ghost predicate IsSubsequence(xs: seq<Service>, ys: seq<Service>)
    decreases |ys|
  {
    if xs == [] then true
    else if ys == [] then false
    else (xs[0] == ys[0] && IsSubsequence(xs[1..], ys[1..])) || IsSubsequence(xs, ys[1..])
  }

  /**
   * `services.filter(...)`: the services that match both filters, in catalog order: an order-
   * preserving subsequence holding exactly the matching services.
   */
  function FilterServices(services: seq<Service>, category: string, query: string): (r: seq<Service>)
    ensures |r| <= |services|
    ensures IsSubsequence(r, services)
    ensures forall i :: 0 <= i < |r| ==> Matches(r[i], category, query)
    ensures forall s :: s in services && Matches(s, category, query) ==> s in r
    ensures forall s :: s in r ==> s in services
  {
    if services == [] then []
    else
      var rest := FilterServices(services[1..], category, query);
      if Matches(services[0], category, query) then [services[0]] + rest
      else rest
  }

  /** The filter keeps each matching service as often as the list holds it, and no other service. */
  lemma {:induction false} FilterServicesMultiplicity(services: seq<Service>, category: string, query: string)
    ensures forall s :: multiset(FilterServices(services, category, query))[s]
                     == if Matches(s, category, query) then multiset(services)[s] else 0
  {
    if services != [] {
      FilterServicesMultiplicity(services[1..], category, query);
      assert services == [services[0]] + services[1..];
    }
  }

  /** With no category and no search text, every service is shown. */
  lemma {:induction false} NoFiltersKeepEverything(services: seq<Service>)
    ensures FilterServices(services, "", "") == services
  {
    if services != [] {
      NoFiltersKeepEverything(services[1..]);
    }
  }

  /** With a category selected, every service shown is in that category. */
  lemma ShownInSelectedCategory(services: seq<Service>, category: string, query: string, i: int)
    requires category != "" && 0 <= i < |FilterServices(services, category, query)|
    ensures FilterServices(services, category, query)[i].category == category
  {
  }

  lemma OccursInNameOrDescription(s: Service, q: string)
    requires Contains(ToLower(s.name), q) || Contains(ToLower(s.description), q)
    ensures (exists k :: OccursAt(q, ToLower(s.name), k)) || (exists k :: OccursAt(q, ToLower(s.description), k))
  {
    ContainsIffOccurs(ToLower(s.name), q);
    ContainsIffOccurs(ToLower(s.description), q);
  }

  /** With search text, passing the search means the lowered text occurs in the lowered name or description. */
  lemma SearchOccurs(s: Service, query: string)
    requires query != "" && MatchesSearch(s, query)
    ensures (exists k :: OccursAt(ToLower(query), ToLower(s.name), k))
         || (exists k :: OccursAt(ToLower(query), ToLower(s.description), k))
  {
    assert Contains(ToLower(s.name), ToLower(query)) || Contains(ToLower(s.description), ToLower(query));
    OccursInNameOrDescription(s, ToLower(query));
  }

  /** With search text, every service shown has the lowered text somewhere in its lowered name or description. */
  lemma ShownMatchesQuery(services: seq<Service>, category: string, query: string, s: Service)
    requires query != "" && s in FilterServices(services, category, query)
    ensures (exists k :: OccursAt(ToLower(query), ToLower(s.name), k))
         || (exists k :: OccursAt(ToLower(query), ToLower(s.description), k))
  {
    var shown := FilterServices(services, category, query);
    var i :| 0 <= i < |shown| && shown[i] == s;
    SearchOccurs(s, query);
  }

  /** A service whose lowered name holds the lowered search text at some position passes the search. */
  lemma NameOccurrenceMatches(service: Service, query: string, k: int)
    requires OccursAt(ToLower(query), ToLower(service.name), k)
    ensures MatchesSearch(service, query)
  {
    ContainsIffOccurs(ToLower(service.name), ToLower(query));
  }

  /** Filtering two lists one after the other is filtering their concatenation. */
  lemma {:induction false} FilterAppend(xs: seq<Service>, ys: seq<Service>, category: string, query: string)
    ensures FilterServices(xs + ys, category, query)
         == FilterServices(xs, category, query) + FilterServices(ys, category, query)
  {
    if xs != [] {
      assert (xs + ys)[0] == xs[0] && (xs + ys)[1..] == xs[1..] + ys;
      FilterAppend(xs[1..], ys, category, query);
    } else {
      assert xs + ys == ys;
    }
  }

  /** A group wholly in another category contributes nothing to a category filter, whatever the search text. */
  lemma {:induction false} FilterOtherGroup(xs: seq<Service>, c: string, category: string, query: string)
    requires Catalog.InCategory(xs, c) && category != "" && category != c
    ensures FilterServices(xs, category, query) == []
  {
    if xs != [] {
      assert Catalog.InCategory(xs[1..], c);
      FilterOtherGroup(xs[1..], c, category, query);
    }
  }

  /** For a group wholly in the selected category, the category filter drops nothing: only the search text decides. */
  lemma {:induction false} FilterOwnGroup(xs: seq<Service>, category: string, query: string)
    requires Catalog.InCategory(xs, category)
    ensures FilterServices(xs, category, query) == FilterServices(xs, "", query)
  {
    if xs != [] {
      assert Catalog.InCategory(xs[1..], category);
      FilterOwnGroup(xs[1..], category, query);
    }
  }

  lemma GroupFilter(xs: seq<Service>, c: string, category: string, query: string)
    requires Catalog.InCategory(xs, c) && category != ""
    ensures FilterServices(xs, category, query) == if category == c then FilterServices(xs, "", query) else []
  {
    if category == c {
      FilterOwnGroup(xs, category, query);
    } else {
      FilterOtherGroup(xs, c, category, query);
    }
  }

  /** The catalog group a category button selects; no group for any other string. */
  function CategoryGroup(category: string): seq<Service> {
    if category == Catalog.SmallPacks then Catalog.SmallPackEntries
    else if category == Catalog.NormalPacks then Catalog.NormalPackEntries
    else if category == Catalog.BigPacks then Catalog.BigPackEntries
    else if category == Catalog.PassesCategory then Catalog.PassEntries
    else []
  }

  /**
   * Four groups of four different categories, filtered by one category and any search text:
   * that category's group, filtered by the search text alone.
   */
  lemma FilterGroups(a: seq<Service>, b: seq<Service>, c: seq<Service>, d: seq<Service>,
                     ca: string, cb: string, cc: string, cd: string, category: string, query: string)
    requires Catalog.InCategory(a, ca) && Catalog.InCategory(b, cb)
    requires Catalog.InCategory(c, cc) && Catalog.InCategory(d, cd)
    requires ca != cb && ca != cc && ca != cd && cb != cc && cb != cd && cc != cd
    requires category != ""
    ensures FilterServices(a + b + c + d, category, query)
         == FilterServices(if category == ca then a else if category == cb then b else if category == cc then c
                           else if category == cd then d else [], "", query)
  {
    FilterAppend(a + b + c, d, category, query);
    FilterAppend(a + b, c, category, query);
    FilterAppend(a, b, category, query);
    if category == ca {
      FilterOwnGroup(a, category, query);
      FilterOtherGroup(b, cb, category, query);
      FilterOtherGroup(c, cc, category, query);
      FilterOtherGroup(d, cd, category, query);
    } else if category == cb {
      FilterOtherGroup(a, ca, category, query);
      FilterOwnGroup(b, category, query);
      FilterOtherGroup(c, cc, category, query);
      FilterOtherGroup(d, cd, category, query);
    } else if category == cc {
      FilterOtherGroup(a, ca, category, query);
      FilterOtherGroup(b, cb, category, query);
      FilterOwnGroup(c, category, query);
      FilterOtherGroup(d, cd, category, query);
    } else if category == cd {
      FilterOtherGroup(a, ca, category, query);
      FilterOtherGroup(b, cb, category, query);
      FilterOtherGroup(c, cc, category, query);
      FilterOwnGroup(d, category, query);
    } else {
      FilterOtherGroup(a, ca, category, query);
      FilterOtherGroup(b, cb, category, query);
      FilterOtherGroup(c, cc, category, query);
      FilterOtherGroup(d, cd, category, query);
    }
  }

  /**
   * Choosing a category shows that category's catalog group, in listing order, narrowed by the
   * search text alone; with an empty search box, the whole group. An unknown category shows nothing.
   */
  lemma CatalogCategoryFilter(category: string, query: string)
    requires category != ""
    ensures FilterServices(Catalog.Services, category, query) == FilterServices(CategoryGroup(category), "", query)
    ensures query == "" ==> FilterServices(Catalog.Services, category, query) == CategoryGroup(category)
  {
    Catalog.GroupCategories();
    FilterGroups(Catalog.SmallPackEntries, Catalog.NormalPackEntries, Catalog.BigPackEntries, Catalog.PassEntries,
                 Catalog.SmallPacks, Catalog.NormalPacks, Catalog.BigPacks, Catalog.PassesCategory, category, query);
    NoFiltersKeepEverything(CategoryGroup(category));
  }

  /** The home page's state: the selected service and the two filters. */
  class HomePage {
    var selectedService: Option<Service>
    var selectedCategory: string
    var searchQuery: string

    constructor()
      ensures selectedService.None? && selectedCategory == "" && searchQuery == ""
    {
      selectedService := None;
      selectedCategory := "";
      searchQuery := "";
    }

    /** The services the grid shows. */
    function FilteredServices(): (r: seq<Service>)
      reads this
      ensures IsSubsequence(r, Catalog.Services)
      ensures forall s :: s in r <==> s in Catalog.Services && Matches(s, selectedCategory, searchQuery)
    {
      FilterServices(Catalog.Services, selectedCategory, searchQuery)
    }

    /** `handleServiceSelect(service)`: the service becomes the selected one. */
    method HandleServiceSelect(service: Service)
      modifies this`selectedService
      ensures selectedService == Some(service)
    {
      selectedService := Some(service);
    }

    /** The "All Services" button (an empty category) or one of the category buttons. */
    method SelectCategory(category: string)
      modifies this`selectedCategory
      ensures selectedCategory == category
    {
      selectedCategory := category;
    }

    method SetSearchQuery(query: string)
      modifies this`searchQuery
      ensures searchQuery == query
    {
      searchQuery := query;
    }

    /**
     * `handleProceedToPayment`: returns at once when no service is selected; otherwise it goes
     * on to the simulated payment, which changes no state modelled here.
     */
    method HandleProceedToPayment(customer: CustomerDetails, couponCode: Option<string>) returns (proceeded: bool)
      ensures proceeded <==> selectedService.Some?
    {
      if selectedService.None? {
        return false;
      }
      proceeded := true;
    }
  }
}
