/** The property catalogue: a search box, a type filter and a status filter
    over the loaded listings, and a card per listing kept. */
module PropertiesView {
  import opened Common

  const AllFilter := "all"
  const Placeholder := "https://via.placeholder.com/400x300?text=No+Image"

  /** A listing as the view reads it. Root fields and `attributes` entries
      that are missing are `""`; `typeId` is `type?.id`. */
  datatype Listing = Listing(
    id: int,
    status: string,
    title: string,
    city: string,
    address: string,
    price: Value,
    attrTitle: string,
    attrCity: string,
    attrAddress: string,
    attrPrice: Value,
    typeId: Option<int>,
    imageUrls: seq<string>)

  // ---------------------------------------------------------------------
  // The filter predicate
  // ---------------------------------------------------------------------

  /** The text the search runs over besides the title: address, a space,
      city, lower-cased. */
  function SearchLocation(p: Listing): (r: string)
    ensures r == Lower(p.attrAddress) + " " + Lower(p.attrCity)
  {
    LowerConcat(p.attrAddress, " " + p.attrCity);
    LowerConcat(" ", p.attrCity);
    assert Lower(" ") == " ";
    Lower(p.attrAddress + " " + p.attrCity)
  }

  /** Case-insensitive substring search on the attribute title (the status
      when there is none) or on the location. */
  predicate MatchesSearch(p: Listing, term: string) {
    Includes(Lower(if p.attrTitle != "" then p.attrTitle else p.status), Lower(term))
    || Includes(SearchLocation(p), Lower(term))
  }

  /** 'all', or a type id that is present, non-zero, and prints as the
      filter value. */
  predicate MatchesType(p: Listing, typeFilter: string) {
    typeFilter == AllFilter
    || (p.typeId.Some? && p.typeId.value != 0 && IntToString(p.typeId.value) == typeFilter)
  }

  predicate MatchesStatus(p: Listing, statusFilter: string) {
    statusFilter == AllFilter || p.status == statusFilter
  }

  /** The predicate of `filteredProperties`. */
  function Keep(term: string, typeFilter: string, statusFilter: string): Listing -> bool {
    (p: Listing) => MatchesSearch(p, term) && MatchesType(p, typeFilter) && MatchesStatus(p, statusFilter)
  }

  function FilteredListings(ps: seq<Listing>, term: string, typeFilter: string, statusFilter: string)
    : (r: seq<Listing>)
    ensures |r| <= |ps|
  {
    Filter(ps, Keep(term, typeFilter, statusFilter))
  }

  /** A listing is kept exactly when all three tests pass, and keeps its
      position relative to the other kept ones. */
  lemma KeptIffAllMatch(ps: seq<Listing>, term: string, typeFilter: string, statusFilter: string, p: Listing)
    ensures p in FilteredListings(ps, term, typeFilter, statusFilter) <==>
      p in ps && MatchesSearch(p, term) && MatchesType(p, typeFilter) && MatchesStatus(p, statusFilter)
  {
    FilterMembership(ps, Keep(term, typeFilter, statusFilter), p);
  }

  lemma FilterKeepsOrder(front: seq<Listing>, back: seq<Listing>, term: string, typeFilter: string, statusFilter: string)
    ensures FilteredListings(front + back, term, typeFilter, statusFilter) ==
      FilteredListings(front, term, typeFilter, statusFilter) + FilteredListings(back, term, typeFilter, statusFilter)
  {
    FilterConcat(front, back, Keep(term, typeFilter, statusFilter));
  }

  /** An empty search matches every listing. */
  lemma EmptySearchMatchesAll(p: Listing)
    ensures MatchesSearch(p, "")
  {
    IncludesEmpty(Lower(if p.attrTitle != "" then p.attrTitle else p.status));
  }

  /** With the initial filters (empty search, 'all', 'all') every listing is
      shown, in order. */
  lemma InitialFiltersShowEverything(ps: seq<Listing>)
    ensures FilteredListings(ps, "", AllFilter, AllFilter) == ps
  {
    forall i | 0 <= i < |ps| ensures Keep("", AllFilter, AllFilter)(ps[i]) {
      EmptySearchMatchesAll(ps[i]);
    }
    FilterKeepsAll(ps, Keep("", AllFilter, AllFilter));
  }

  /** The search ignores the case of the term. */
  lemma SearchIgnoresTermCase(p: Listing, term: string)
    ensures MatchesSearch(p, Lower(term)) <==> MatchesSearch(p, term)
  {
    LowerIdempotent(term);
  }

  /** Choosing type `k` from the menu (whose values are the printed type
      ids) keeps exactly the listings of type `k`; a type with id 0 is never
      kept. */
  lemma TypeFilterSelectsType(p: Listing, k: int)
    ensures k != 0 ==> (MatchesType(p, IntToString(k)) <==> p.typeId == Some(k))
    ensures k == 0 ==> !MatchesType(p, IntToString(k))
  {
    var f := IntToString(k);
    assert f != AllFilter by {
      assert f[0] == '-' || '0' <= f[0] <= '9';
    }
    if p.typeId.Some? && p.typeId.value != 0 && IntToString(p.typeId.value) == f {
      IntToStringInjective(p.typeId.value, k);
    }
  }

  /** The root title plays no part in the search: changing it never
      changes whether a listing matches. Without an `attributes` title the
      search runs over the status and the location only. */
  lemma RootTitleNotSearched(p: Listing, rootTitle: string, term: string)
    ensures MatchesSearch(p.(title := rootTitle), term) <==> MatchesSearch(p, term)
    ensures p.attrTitle == "" ==>
      (MatchesSearch(p, term) <==>
         Includes(Lower(p.status), Lower(term)) || Includes(SearchLocation(p), Lower(term)))
  {
  }

  /** The search looks at the `attributes` title, not at the root title the
      card displays: a sold listing titled "Villa" at the root only is not
      found by searching "villa". */
  lemma SearchSkipsRootTitle()
    ensures var p := Listing(1, "sold", "Villa", "", "", Null, "", "", "", Null, None, []);
      TitleText(p) == "Villa" && !MatchesSearch(p, "villa")
  {
    var p := Listing(1, "sold", "Villa", "", "", Null, "", "", "", Null, None, []);
    assert |Lower("sold")| == 4 && |SearchLocation(p)| == 1 && |Lower("villa")| == 5;
  }

  // ---------------------------------------------------------------------
  // The card
  // ---------------------------------------------------------------------

  /** The status badge: the four known statuses in French, any other shown
      as it is. */
  function StatusLabel(status: string): (r: string)
    ensures status == "for_sale" ==> r == "À Vendre"
    ensures status == "for_rent" ==> r == "À Louer"
    ensures status == "sold" ==> r == "Vendu"
    ensures status == "rented" ==> r == "Loué"
    ensures status !in {"for_sale", "for_rent", "sold", "rented"} ==> r == status
  {
    if status == "for_sale" then "À Vendre"
    else if status == "for_rent" then "À Louer"
    else if status == "sold" then "Vendu"
    else if status == "rented" then "Loué"
    else status
  }

  /** The four known statuses get four different labels. */
  lemma KnownStatusLabelsDistinct(a: string, b: string)
    requires a in {"for_sale", "for_rent", "sold", "rented"} && b in {"for_sale", "for_rent", "sold", "rented"}
    requires a != b
    ensures StatusLabel(a) != StatusLabel(b)
  {
  }

  /** Title: root, then attributes, then a fixed text. */
  function TitleText(p: Listing): (r: string)
    ensures r != ""
    ensures p.title != "" ==> r == p.title
    ensures p.title == "" && p.attrTitle != "" ==> r == p.attrTitle
    ensures p.title == "" && p.attrTitle == "" ==> r == "Bien sans titre"
  {
    if p.title != "" then p.title else if p.attrTitle != "" then p.attrTitle else "Bien sans titre"
  }

  /** Location: root city, attribute city, root address, then a fixed
      text. */
  function LocationText(p: Listing): (r: string)
    ensures r != ""
    ensures p.city != "" ==> r == p.city
    ensures p.city == "" && p.attrCity != "" ==> r == p.attrCity
    ensures p.city == "" && p.attrCity == "" && p.address != "" ==> r == p.address
    ensures p.city == "" && p.attrCity == "" && p.address == "" ==> r == "Localisation inconnue"
  {
    if p.city != "" then p.city
    else if p.attrCity != "" then p.attrCity
    else if p.address != "" then p.address
    else "Localisation inconnue"
  }

  /** The card image: the first URL, or the placeholder. */
  function ImageUrl(p: Listing): (r: string)
    ensures |p.imageUrls| > 0 ==> r == p.imageUrls[0]
    ensures |p.imageUrls| == 0 ==> r == Placeholder
  {
    if |p.imageUrls| > 0 then p.imageUrls[0] else Placeholder
  }

  /** The price line: root price, else the attribute price, 'N/A' when
      both are falsy. */
  function PriceOf(p: Listing): (r: PriceText)
    ensures r.NotAvailable? <==> !Truthy(p.price) && !Truthy(p.attrPrice)
    ensures Truthy(p.price) ==> r == Formatted(p.price)
    ensures !Truthy(p.price) && Truthy(p.attrPrice) ==> r == Formatted(p.attrPrice)
  {
    FormatPrice(Or(p.price, p.attrPrice))
  }
}
