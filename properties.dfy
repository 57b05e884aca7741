/** The properties screen: a list of listings narrowed by a free-text search
    over title and location and by one of four filter tags. */
module Properties {
  import opened Arrays
  import opened Strings

  /** One listing. `kind` is the listing's `type` field, a string such as
      "Sale" or "Rent", compared with the selected filter tag as a string. */
  datatype Property = Property(
    id: nat,
    title: string,
    price: string,
    location: string,
    beds: nat,
    baths: nat,
    sqft: string,
    kind: string,
    featured: bool)

  /** The filter tags offered as buttons, in the order they are shown. */
  const Filters: seq<string> := ["All", "Sale", "Rent", "Featured"]

  /** The title or the location contains the query, ignoring letter case. */
  predicate MatchesSearch(p: Property, query: string)
  {
    Includes(Lower(p.title), Lower(query)) || Includes(Lower(p.location), Lower(query))
  }

  /** The listing passes the selected filter tag. */
  predicate MatchesFilter(p: Property, filter: string)
  {
    filter == "All" || p.kind == filter || (filter == "Featured" && p.featured)
  }

  predicate Matches(p: Property, query: string, filter: string)
  {
    MatchesSearch(p, query) && MatchesFilter(p, filter)
  }

  /** The listings shown for a query and a filter tag: exactly those that
      match both, in their original order. */
  function FilteredProperties(properties: seq<Property>, query: string, filter: string): (r: seq<Property>)
    ensures IsSublist(r, properties)
    ensures |r| <= |properties|
    ensures forall p :: p in r <==> p in properties && MatchesSearch(p, query) && MatchesFilter(p, filter)
    ensures forall p :: multiset(r)[p] == if Matches(p, query, filter) then multiset(properties)[p] else 0
  {
    var keep := (p: Property) => Matches(p, query, filter);
    FilterIsSublist(keep, properties);
    Filter(keep, properties)
  }

  /** The listing types that occur in the data: none is named like a tag
      other than "Sale" or "Rent". */
  ghost predicate WellTyped(properties: seq<Property>)
  {
    forall p :: p in properties ==> p.kind == "Sale" || p.kind == "Rent"
  }

  /** With the empty query the search matches everything, so only the tag
      decides what is shown. */
  lemma EmptyQueryIgnoresSearch(properties: seq<Property>, filter: string)
    ensures FilteredProperties(properties, "", filter)
         == Filter((p: Property) => MatchesFilter(p, filter), properties)
  {
    forall p | p in properties
      ensures MatchesSearch(p, "")
    {
      IncludesEmpty(Lower(p.title));
    }
    FilterCongruent((p: Property) => Matches(p, "", filter),
                    (p: Property) => MatchesFilter(p, filter), properties);
  }

  /** After "Clear Filters" (empty query, tag "All") every listing is shown. */
  lemma ClearedShowsAll(properties: seq<Property>)
    ensures FilteredProperties(properties, "", "All") == properties
  {
    EmptyQueryIgnoresSearch(properties, "All");
    FilterKeepsAll((p: Property) => MatchesFilter(p, "All"), properties);
  }

  /** With tag "Sale" or "Rent" every listing shown has that type. */
  lemma TypeFilterSound(properties: seq<Property>, query: string, filter: string)
    requires filter == "Sale" || filter == "Rent"
    ensures forall p :: p in FilteredProperties(properties, query, filter) ==> p.kind == filter
  {
  }

  /** With tag "Featured" every listing shown is featured, as long as no
      listing has the type "Featured" itself. */
  lemma FeaturedFilterSound(properties: seq<Property>, query: string)
    requires WellTyped(properties)
    ensures forall p :: p in FilteredProperties(properties, query, "Featured") ==> p.featured
  {
  }

  /** Whatever the tag, the listings shown are a sublist of those shown
      under "All" for the same query. */
  lemma TagNarrowsAll(properties: seq<Property>, query: string, filter: string)
    ensures IsSublist(FilteredProperties(properties, query, filter),
                      FilteredProperties(properties, query, "All"))
  {
    FilterMonotone((p: Property) => Matches(p, query, filter),
                   (p: Property) => Matches(p, query, "All"), properties);
  }

  /** The search ignores letter case: queries that lower to the same text
      show the same listings. */
  lemma SearchIgnoresCase(properties: seq<Property>, q1: string, q2: string, filter: string)
    requires Lower(q1) == Lower(q2)
    ensures FilteredProperties(properties, q1, filter) == FilteredProperties(properties, q2, filter)
  {
    FilterCongruent((p: Property) => Matches(p, q1, filter),
                    (p: Property) => Matches(p, q2, filter), properties);
  }

  /** In particular, typing the query in lower case changes nothing. */
  lemma LoweredQuerySame(properties: seq<Property>, query: string, filter: string)
    ensures FilteredProperties(properties, Lower(query), filter) == FilteredProperties(properties, query, filter)
  {
    LowerIdempotent(query);
    SearchIgnoresCase(properties, Lower(query), query, filter);
  }

  /** A listing that matches a query matches every part of it. */
  lemma SearchNarrows(p: Property, query: string, longer: string)
    requires Includes(longer, query)
    requires MatchesSearch(p, longer)
    ensures MatchesSearch(p, query)
  {
    IncludesLower(longer, query);
    if Includes(Lower(p.title), Lower(longer)) {
      IncludesTransitive(Lower(p.title), Lower(longer), Lower(query));
    } else {
      IncludesTransitive(Lower(p.location), Lower(longer), Lower(query));
    }
  }

  /** Typing more narrows the list: what a longer query shows is a sublist
      of what any part of it shows. */
  lemma LongerQueryNarrows(properties: seq<Property>, query: string, longer: string, filter: string)
    requires Includes(longer, query)
    ensures IsSublist(FilteredProperties(properties, longer, filter),
                      FilteredProperties(properties, query, filter))
  {
    forall p | p in properties && Matches(p, longer, filter)
      ensures Matches(p, query, filter)
    {
      SearchNarrows(p, query, longer);
    }
    FilterMonotone((p: Property) => Matches(p, longer, filter),
                   (p: Property) => Matches(p, query, filter), properties);
  }

  /** The six listings the screen ships with. */
  const SampleProperties: seq<Property> := [
    Property(1, "Modern Luxury Villa", "$850,000", "Beverly Hills, CA", 4, 3, "2,500", "Sale", true),
    Property(2, "Downtown Penthouse", "$1,200,000", "Manhattan, NY", 3, 2, "1,800", "Sale", false),
    Property(3, "Coastal Retreat", "$3,200/month", "Malibu, CA", 3, 2, "2,100", "Rent", true),
    Property(4, "City Apartment", "$2,800/month", "San Francisco, CA", 2, 1, "1,200", "Rent", false),
    Property(5, "Suburban Family Home", "$650,000", "Austin, TX", 4, 3, "2,800", "Sale", false),
    Property(6, "Luxury Condo", "$4,500/month", "Miami, FL", 2, 2, "1,600", "Rent", true)
  ]

  /** The sample listings are all for sale or for rent, so on them the
      "Featured" tag shows only featured listings. */
  lemma SampleFeaturedSound(query: string)
    ensures WellTyped(SampleProperties)
    ensures forall p :: p in FilteredProperties(SampleProperties, query, "Featured") ==> p.featured
  {
    FeaturedFilterSound(SampleProperties, query);
  }

  /** The screen's state: the search text and the selected tag, over a fixed
      list of listings. */
  class PropertiesScreen {
    const properties: seq<Property>
    var searchQuery: string
    var selectedFilter: string

    /** The selected tag is always one of the tag buttons. */
    ghost predicate Valid()
      reads this
    {
      selectedFilter in Filters
    }

    /** The listings currently shown. */
    function Shown(): seq<Property>
      reads this
    {
      FilteredProperties(properties, searchQuery, selectedFilter)
    }

    /** The count in the header, "N properties available". */
    function AvailableCount(): (n: nat)
      reads this
      ensures n <= |properties|
    {
      |Shown()|
    }

    /** A tag button is drawn as active exactly when it is the selected tag. */
    function IsActive(filter: string): bool
      reads this
    {
      selectedFilter == filter
    }

    /** The screen opens with an empty query and the tag "All", showing
        every listing. */
    constructor (properties: seq<Property>)
      ensures Valid()
      ensures this.properties == properties
      ensures searchQuery == "" && selectedFilter == "All"
      ensures Shown() == properties
    {
      this.properties := properties;
      searchQuery := "";
      selectedFilter := "All";
      new;
      ClearedShowsAll(properties);
    }

    /** The search bar's text changed. */
    method SetSearchQuery(query: string)
      requires Valid()
      modifies this
      ensures Valid()
      ensures searchQuery == query && selectedFilter == old(selectedFilter)
    {
      searchQuery := query;
    }

    /** A tag button was pressed; only the tags on the buttons can arrive. */
    method SelectFilter(filter: string)
      requires Valid()
      requires filter in Filters
      modifies this
      ensures Valid()
      ensures selectedFilter == filter && searchQuery == old(searchQuery)
      ensures forall f :: f in Filters ==> (IsActive(f) <==> f == filter)
    {
      selectedFilter := filter;
    }

    /** "Clear Filters", offered only while nothing is shown: back to the
        empty query and the tag "All", which shows every listing again. */
    method ClearFilters()
      requires Valid()
      requires Shown() == []
      modifies this
      ensures Valid()
      ensures searchQuery == "" && selectedFilter == "All"
      ensures Shown() == properties
    {
      searchQuery := "";
      selectedFilter := "All";
      ClearedShowsAll(properties);
    }
  }
}
