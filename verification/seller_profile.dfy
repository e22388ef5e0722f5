/**
 * The seller profile page: loading a seller's listings and the signed-in renter's trips with
 * that seller, choosing a listing to show and centring the map on it.
 */
module SellerProfile {
  import opened Wrappers
  import opened Geo
  import opened Records

  /** Where the map starts before any listing is selected. */
  const DEFAULT_MAP_CENTRE := LatLng(20.0, 73.78)

  /** Seller ids with this prefix belong to the built-in demo listings and are never looked up. */
  const DEMO_PREFIX := "demo-owner-"

  const DEMO_PRODUCT := ProductRow(
    "999", None, "Demo Tractor", "Tractor", None, 1200.0,
    "https://images.unsplash.com/photo-1592878931055-63657cd30089?auto=format&fit=crop&q=80&w=1000",
    None, Some(4.8), 20.0, 73.78, None)

  /** The seller card. */
  datatype Seller = Seller(id: string, fullName: Option<string>, imageUrl: Option<string>, email: Option<string>)

  function DemoSeller(sellerId: string): Seller {
    Seller(sellerId, Some("Review Owner (Demo)"), Some("https://i.pravatar.cc/150?img=12"),
           Some("demo.owner@agroshare.com"))
  }

  /** A query sent to the remote store. */
  datatype StoreQuery = ProductsOfOwner(ownerId: string) | RequestsOfRequester(requesterId: string)

  /** The store's answer to a query: it threw, or it returned `data` (absent when `null`). */
  datatype QueryResult<T> = Threw | Returned(data: Option<T>)

  /** The part of the page state that loading writes. */
  datatype PageData = PageData(seller: Option<Seller>, products: seq<ProductRow>,
                               clientTrips: seq<RentalRequest>, loading: bool)

  /** The state after a load and the store queries it issued, in order. */
  datatype Load = Load(page: PageData, queries: seq<StoreQuery>)

  // ---------------------------------------------------------------------------------------
  // Trip correlation

  /** `r.products && r.products.owner_id === sellerId`. */
  predicate BelongsToSeller(r: RentalRequest, sellerId: string)
    ensures r.products.None? ==> !BelongsToSeller(r, sellerId)
    ensures r.products.Some? && r.products.value.ownerId.None? ==> !BelongsToSeller(r, sellerId)
    ensures r.products.Some? && r.products.value.ownerId.Some? ==>
      (BelongsToSeller(r, sellerId) <==> r.products.value.ownerId.value == sellerId)
  {
    r.products.Some? && r.products.value.ownerId == Some(sellerId)
  }

  /** `a` can be obtained from `b` by deleting elements. */
  predicate IsSubsequence<T(==)>(a: seq<T>, b: seq<T>)
    decreases |b|
  {
    |a| == 0 ||
    (|b| > 0 && if a[0] == b[0] then IsSubsequence(a[1..], b[1..]) else IsSubsequence(a, b[1..]))
  }

  /**
   * `myRequests.filter(r => r.products && r.products.owner_id === sellerId)`: the requests
   * whose joined product belongs to the seller, all of them and nothing else, in their
   * original order. A request whose join missed is dropped.
   */
  function TripsWithSeller(requests: seq<RentalRequest>, sellerId: string): (r: seq<RentalRequest>)
    ensures forall i :: 0 <= i < |r| ==> BelongsToSeller(r[i], sellerId)
    ensures forall x :: x in r <==> x in requests && BelongsToSeller(x, sellerId)
    ensures IsSubsequence(r, requests)
    ensures |r| <= |requests|
    decreases |requests|
  {
    if |requests| == 0 then []
    else
      var rest := TripsWithSeller(requests[1..], sellerId);
      assert requests == [requests[0]] + requests[1..];
      if BelongsToSeller(requests[0], sellerId) then [requests[0]] + rest else rest
  }

  /** The filter works element by element: filtering a concatenation concatenates the results. */
  lemma {:induction false} TripsOfConcatenation(a: seq<RentalRequest>, b: seq<RentalRequest>, sellerId: string)
    ensures TripsWithSeller(a + b, sellerId) == TripsWithSeller(a, sellerId) + TripsWithSeller(b, sellerId)
    decreases |a|
  {
    if |a| == 0 {
      assert a + b == b;
    } else {
      assert (a + b)[0] == a[0] && (a + b)[1..] == a[1..] + b;
      TripsOfConcatenation(a[1..], b, sellerId);
    }
  }

  /** Filtering an already filtered list changes nothing. */
  lemma {:induction false} TripsIdempotent(requests: seq<RentalRequest>, sellerId: string)
    ensures TripsWithSeller(TripsWithSeller(requests, sellerId), sellerId) == TripsWithSeller(requests, sellerId)
    decreases |requests|
  {
    if |requests| > 0 {
      TripsIdempotent(requests[1..], sellerId);
      var rest := TripsWithSeller(requests[1..], sellerId);
      if BelongsToSeller(requests[0], sellerId) {
        assert ([requests[0]] + rest)[1..] == rest;
      }
    }
  }

  // ---------------------------------------------------------------------------------------
  // Loading

  /** The seller card built from the `users` join of the first listing. */
  function SellerFromRow(sellerId: string, u: UserRow): Seller {
    Seller(sellerId, u.fullName, u.avatarUrl, u.email)
  }

  /** The page after the listings query returned `rows`: listings and seller are only ever replaced by real data. */
  function WithProducts(page: PageData, sellerId: string, rows: Option<seq<ProductRow>>): (r: PageData)
    ensures rows.None? || |rows.value| == 0 ==> r == page
    ensures rows.Some? && |rows.value| > 0 ==>
      r.products == rows.value && r.clientTrips == page.clientTrips && r.loading == page.loading &&
      r.seller == (if rows.value[0].users.Some? then Some(SellerFromRow(sellerId, rows.value[0].users.value))
                   else page.seller)
  {
    if rows.None? || |rows.value| == 0 then page
    else
      var first := rows.value[0];
      page.(products := rows.value,
            seller := if first.users.Some? then Some(SellerFromRow(sellerId, first.users.value)) else page.seller)
  }

  /** `loadSellerData` for the seller in the route and the signed-in user, given the store's answers. */
  function AfterLoad(page: PageData, sellerId: Option<string>, user: Option<string>,
                     productsAnswer: QueryResult<seq<ProductRow>>,
                     requestsAnswer: QueryResult<seq<RentalRequest>>): (r: Load)
    ensures sellerId.None? || sellerId.value == "" ==> r == Load(page, [])
    ensures sellerId.Some? && sellerId.value != "" ==> !r.page.loading
    ensures r.queries == [] <==> sellerId.None? || sellerId.value == "" || DEMO_PREFIX <= sellerId.value
    ensures r.queries != [] ==> r.queries[0] == ProductsOfOwner(sellerId.value)
    ensures |r.queries| <= 2
    ensures |r.queries| == 2 <==>
      r.queries != [] && productsAnswer.Returned? && user.Some?
    ensures |r.queries| == 2 ==> r.queries[1] == RequestsOfRequester(user.value)
    ensures (sellerId.Some? && !(DEMO_PREFIX <= sellerId.value) &&
             (productsAnswer.Threw? || productsAnswer.data.None? || |productsAnswer.data.value| == 0)) ==>
      r.page.products == page.products
  {
    if sellerId.None? || sellerId.value == "" then Load(page, [])
    else
      var id := sellerId.value;
      if DEMO_PREFIX <= id then
        Load(page.(seller := Some(DemoSeller(id)), products := [DEMO_PRODUCT], loading := false), [])
      else
        match productsAnswer
        case Threw => Load(page.(loading := false), [ProductsOfOwner(id)])
        case Returned(rows) =>
          var withProducts := WithProducts(page, id, rows);
          if user.None? then Load(withProducts.(loading := false), [ProductsOfOwner(id)])
          else
            var queries := [ProductsOfOwner(id), RequestsOfRequester(user.value)];
            match requestsAnswer
            case Returned(Some(requests)) =>
              Load(withProducts.(clientTrips := TripsWithSeller(requests, id), loading := false), queries)
            case _ => Load(withProducts.(loading := false), queries)
  }

  /** A demo seller gets the fixed card and one demo listing, loading ends, and the store is never asked. */
  lemma DemoSellerSkipsStore(page: PageData, sellerId: string, user: Option<string>,
                             productsAnswer: QueryResult<seq<ProductRow>>,
                             requestsAnswer: QueryResult<seq<RentalRequest>>)
    requires DEMO_PREFIX <= sellerId
    ensures var r := AfterLoad(page, Some(sellerId), user, productsAnswer, requestsAnswer);
      r.queries == [] && r.page.seller == Some(DemoSeller(sellerId)) &&
      r.page.products == [DEMO_PRODUCT] && r.page.clientTrips == page.clientTrips && !r.page.loading
  {
    assert sellerId != "" by { assert |DEMO_PREFIX| <= |sellerId|; }
  }

  /** Without a signed-in user the requests are never queried and the trip list is left as it was. */
  lemma NoUserNoRequestQuery(page: PageData, sellerId: Option<string>,
                             productsAnswer: QueryResult<seq<ProductRow>>,
                             requestsAnswer: QueryResult<seq<RentalRequest>>)
    ensures var r := AfterLoad(page, sellerId, None, productsAnswer, requestsAnswer);
      (forall q :: q in r.queries ==> q.ProductsOfOwner?) && r.page.clientTrips == page.clientTrips
  {
  }

  /**
   * Whatever the store answers, the trips shown are either the old ones or trips of this
   * renter's requests whose listing belongs to the seller being viewed.
   */
  lemma TripsAreTheSellers(page: PageData, sellerId: Option<string>, user: Option<string>,
                           productsAnswer: QueryResult<seq<ProductRow>>,
                           requestsAnswer: QueryResult<seq<RentalRequest>>)
    ensures var r := AfterLoad(page, sellerId, user, productsAnswer, requestsAnswer);
      r.page.clientTrips == page.clientTrips ||
      (sellerId.Some? && user.Some? && requestsAnswer.Returned? && requestsAnswer.data.Some? &&
       RequestsOfRequester(user.value) in r.queries &&
       forall t :: t in r.page.clientTrips <==>
         t in requestsAnswer.data.value && BelongsToSeller(t, sellerId.value))
  {
  }

  /**
   * The seller card changes only to the demo card or to the card read from the first listing's
   * `users` join, and then the listings are non-empty and that join is present.
   */
  lemma SellerFromFirstListing(page: PageData, sellerId: Option<string>, user: Option<string>,
                               productsAnswer: QueryResult<seq<ProductRow>>,
                               requestsAnswer: QueryResult<seq<RentalRequest>>)
    ensures var r := AfterLoad(page, sellerId, user, productsAnswer, requestsAnswer);
      r.page.seller == page.seller ||
      (sellerId.Some? && DEMO_PREFIX <= sellerId.value && r.page.seller == Some(DemoSeller(sellerId.value))) ||
      (sellerId.Some? && productsAnswer.Returned? && productsAnswer.data.Some? &&
       var rows := productsAnswer.data.value;
       |rows| > 0 && rows[0].users.Some? && r.page.products == rows &&
       r.page.seller == Some(SellerFromRow(sellerId.value, rows[0].users.value)))
  {
  }

  /**
   * A non-demo load whose listings query answered and whose requests query returned a list
   * always replaces the trips with that list filtered to the seller.
   */
  lemma ReturnedRequestsBecomeTrips(page: PageData, id: string, user: string,
                                    rows: Option<seq<ProductRow>>, requests: seq<RentalRequest>)
    requires id != "" && !(DEMO_PREFIX <= id)
    ensures AfterLoad(page, Some(id), Some(user), Returned(rows), Returned(Some(requests))).page.clientTrips ==
      TripsWithSeller(requests, id)
  {
  }

  /**
   * A non-demo load whose listings query returned rows always shows those rows, and the card
   * read from the first row's `users` join when it is present.
   */
  lemma FirstListingSetsSeller(page: PageData, id: string, user: Option<string>,
                               rows: seq<ProductRow>, requestsAnswer: QueryResult<seq<RentalRequest>>)
    requires id != "" && !(DEMO_PREFIX <= id)
    requires |rows| > 0
    ensures var r := AfterLoad(page, Some(id), user, Returned(Some(rows)), requestsAnswer).page;
      r.products == rows &&
      (rows[0].users.Some? ==> r.seller == Some(SellerFromRow(id, rows[0].users.value))) &&
      (rows[0].users.None? ==> r.seller == page.seller)
  {
  }

  /**
   * A non-demo load whose listings query threw, returned `null` or returned no rows leaves the
   * listings as they were.
   */
  lemma FailedListingsKeepProducts(page: PageData, id: string, user: Option<string>,
                                   productsAnswer: QueryResult<seq<ProductRow>>,
                                   requestsAnswer: QueryResult<seq<RentalRequest>>)
    requires id != "" && !(DEMO_PREFIX <= id)
    requires productsAnswer.Threw? || productsAnswer.data.None? || |productsAnswer.data.value| == 0
    ensures AfterLoad(page, Some(id), user, productsAnswer, requestsAnswer).page.products == page.products
  {
  }

  /** Once a load has started (the route has a seller id) it always ends with `loading` cleared. */
  lemma LoadingEnds(page: PageData, sellerId: string, user: Option<string>,
                    productsAnswer: QueryResult<seq<ProductRow>>,
                    requestsAnswer: QueryResult<seq<RentalRequest>>)
    requires sellerId != ""
    ensures !AfterLoad(page, Some(sellerId), user, productsAnswer, requestsAnswer).page.loading
  {
  }

  // ---------------------------------------------------------------------------------------
  // Effects on the selection and the map

  /**
   * The default-selection effect: the first listing becomes selected when there is one and
   * nothing is selected yet; an existing selection is never replaced.
   */
  function DefaultSelection(products: seq<ProductRow>, selected: Option<ProductRow>): (r: Option<ProductRow>)
    ensures selected.Some? ==> r == selected
    ensures selected.None? && |products| > 0 ==> r == Some(products[0])
    ensures selected.None? && |products| == 0 ==> r.None?
  {
    if |products| > 0 && selected.None? then Some(products[0]) else selected
  }

  /** JavaScript truthiness of a coordinate: `0` counts as missing. */
  predicate Truthy(x: real) {
    x != 0.0
  }

  /**
   * The map-centre effect: the centre moves to the selected listing exactly when a listing is
   * selected and both its coordinates are truthy; otherwise it stays where it was.
   */
  function CentreFor(selected: Option<ProductRow>, centre: LatLng): (r: LatLng)
    ensures selected.Some? && Truthy(selected.value.lat) && Truthy(selected.value.lng) ==>
      r == LatLng(selected.value.lat, selected.value.lng)
    ensures selected.None? || !Truthy(selected.value.lat) || !Truthy(selected.value.lng) ==> r == centre
  {
    if selected.Some? && Truthy(selected.value.lat) && Truthy(selected.value.lng) then
      LatLng(selected.value.lat, selected.value.lng)
    else centre
  }

  // ---------------------------------------------------------------------------------------
  // The page's state

  class SellerProfileView {
    const sellerId: Option<string>
    /** The signed-in user's id, if any. */
    const user: Option<string>
    var seller: Option<Seller>
    var products: seq<ProductRow>
    var clientTrips: seq<RentalRequest>
    var selectedProduct: Option<ProductRow>
    var loading: bool
    var mapCenter: LatLng
    /** The store queries issued so far, oldest first. */
    var queries: seq<StoreQuery>

    function Data(): PageData
      reads this
    {
      PageData(seller, products, clientTrips, loading)
    }

    constructor (sellerId: Option<string>, user: Option<string>)
      ensures this.sellerId == sellerId && this.user == user
      ensures Data() == PageData(None, [], [], true)
      ensures selectedProduct == None && mapCenter == DEFAULT_MAP_CENTRE && queries == []
    {
      this.sellerId := sellerId;
      this.user := user;
      seller := None;
      products := [];
      clientTrips := [];
      selectedProduct := None;
      loading := true;
      mapCenter := DEFAULT_MAP_CENTRE;
      queries := [];
    }

    /** `loadSellerData`, given what the store answers to its two queries. */
    method LoadSellerData(productsAnswer: QueryResult<seq<ProductRow>>,
                          requestsAnswer: QueryResult<seq<RentalRequest>>)
      modifies this`seller, this`products, this`clientTrips, this`loading, this`queries
      ensures var r := AfterLoad(old(Data()), sellerId, user, productsAnswer, requestsAnswer);
        Data() == r.page && queries == old(queries) + r.queries
    {
      ghost var start := queries;
      if sellerId.None? || sellerId.value == "" {
        return;
      }
      var id := sellerId.value;
      loading := true;
      if DEMO_PREFIX <= id {
        seller := Some(DemoSeller(id));
        products := [DEMO_PRODUCT];
        loading := false;
        return;
      }
      queries := queries + [ProductsOfOwner(id)];
      if productsAnswer.Threw? {
        loading := false;  // the catch logs, the finally clears loading
        return;
      }
      var rows := productsAnswer.data;
      if rows.Some? && |rows.value| > 0 {
        products := rows.value;
        var first := rows.value[0];
        if first.users.Some? {
          seller := Some(SellerFromRow(id, first.users.value));
        }
      }
      if user.Some? {
        queries := queries + [RequestsOfRequester(user.value)];
        assert queries == start + [ProductsOfOwner(id), RequestsOfRequester(user.value)];
        if requestsAnswer.Returned? && requestsAnswer.data.Some? {
          clientTrips := TripsWithSeller(requestsAnswer.data.value, id);
        }
      }
      loading := false;
    }

    /** The effect that selects the first listing by default. */
    method SelectDefaultProduct()
      modifies this`selectedProduct
      ensures selectedProduct == DefaultSelection(products, old(selectedProduct))
    {
      if |products| > 0 && selectedProduct.None? {
        selectedProduct := Some(products[0]);
      }
    }

    /** The effect that centres the map on the selected listing. */
    method CentreMap()
      modifies this`mapCenter
      ensures mapCenter == CentreFor(selectedProduct, old(mapCenter))
    {
      if selectedProduct.Some? && Truthy(selectedProduct.value.lat) && Truthy(selectedProduct.value.lng) {
        mapCenter := LatLng(selectedProduct.value.lat, selectedProduct.value.lng);
      }
    }
  }
}
