/**
 * The listing detail view: the rotating image gallery, the listing's fixed location, and the
 * route effect that asks OpenRouteService for a driving route from the renter's position,
 * converts it for the map and frames the map around it.
 */
module MachineryDetail {
  import opened Wrappers
  import opened Geo
  import opened Records
  import opened OpenRouteService

  /** Where a listing without a `location` is placed. */
  const DEFAULT_MACHINERY_LOCATION := LatLng(20.0470, 73.8520)

  /** The padding, in pixels, on each side of the framed route. */
  const FIT_PADDING := 50

  /** The `{top, right, bottom, left}` padding handed to `fitBounds`. */
  datatype Padding = Padding(top: int, right: int, bottom: int, left: int)

  /** One `fitBounds(box, padding)` instruction received by the map widget. */
  datatype FitCall = FitCall(box: Box, padding: Padding)

  // ---------------------------------------------------------------------------------------
  // Gallery

  /** `machine.gallery || [machine.image, machine.image, machine.image]`. */
  function InitialGallery(gallery: Option<seq<string>>, image: string): (r: seq<string>)
    ensures gallery.Some? ==> r == gallery.value
    ensures gallery.None? ==> |r| == 3 && forall i :: 0 <= i < 3 ==> r[i] == image
  {
    gallery.GetOr([image, image, image])
  }

  /**
   * `handleNextImage` as written: `const [first, ...rest] = prev; return [...rest, first]`.
   * Images are `Some`; destructuring an empty array binds `first` to `undefined` (`None`).
   */
  function RotatedAsWritten<T>(prev: seq<Option<T>>): (r: seq<Option<T>>)
    ensures |prev| > 0 ==> |r| == |prev| && r[|r| - 1] == prev[0]
    ensures |prev| == 0 ==> r == [None]
  {
    if |prev| == 0 then [None] else prev[1..] + [prev[0]]
  }

  /** On an empty gallery the written rotation produces a gallery of one `undefined` image. */
  lemma EmptyGalleryGainsUndefined()
    ensures var r := RotatedAsWritten<string>([]); |r| == 1 && r[0].None?
  {
  }

  /** The rotation the handler evidently intends: the first image moves to the back. */
  function Rotated<T>(prev: seq<T>): (r: seq<T>)
    ensures |r| == |prev|
    ensures forall i :: 0 <= i < |prev| - 1 ==> r[i] == prev[i + 1]
    ensures |prev| > 0 ==> r[|prev| - 1] == prev[0]
  {
    if |prev| == 0 then [] else prev[1..] + [prev[0]]
  }

  /** A rotation neither loses nor duplicates an image. */
  lemma RotationKeepsImages<T>(prev: seq<T>)
    ensures multiset(Rotated(prev)) == multiset(prev)
  {
    if |prev| > 0 {
      assert prev == [prev[0]] + prev[1..];
    }
  }

  function Lift<T>(s: seq<T>): (r: seq<Option<T>>)
    ensures |r| == |s| && forall i :: 0 <= i < |s| ==> r[i] == Some(s[i])
  {
    seq(|s|, i requires 0 <= i < |s| => Some(s[i]))
  }

  /** On every non-empty gallery the written and the intended rotation agree. */
  lemma RotationsAgreeWhenNonEmpty<T>(g: seq<T>)
    requires |g| > 0
    ensures RotatedAsWritten(Lift(g)) == Lift(Rotated(g))
  {
    var a, b := RotatedAsWritten(Lift(g)), Lift(Rotated(g));
    assert |a| == |b|;
    forall i | 0 <= i < |a| ensures a[i] == b[i] {
      if i < |g| - 1 { assert a[i] == Lift(g)[i + 1]; }
    }
  }

  /** The gallery after `n` presses of the next-image button. */
  function RotatedTimes<T>(g: seq<T>, n: nat): seq<T>
    decreases n
  {
    if n == 0 then g else Rotated(RotatedTimes(g, n - 1))
  }

  /** After `n` presses the gallery starts at image `n`, with the first `n` images moved behind. */
  lemma {:induction false} RotatedTimesSplits<T>(g: seq<T>, n: nat)
    requires n <= |g|
    ensures RotatedTimes(g, n) == g[n..] + g[..n]
    decreases n
  {
    if n > 0 {
      RotatedTimesSplits(g, n - 1);
      var h := g[n - 1..] + g[..n - 1];
      assert RotatedTimes(g, n) == Rotated(h);
      assert h[0] == g[n - 1];
      assert h[1..] == g[n..] + g[..n - 1];
      assert Rotated(h) == h[1..] + [h[0]];
      calc {
        h[1..] + [h[0]];
        (g[n..] + g[..n - 1]) + [g[n - 1]];
        g[n..] + (g[..n - 1] + [g[n - 1]]);
        { assert g[..n - 1] + [g[n - 1]] == g[..n]; }
        g[n..] + g[..n];
      }
    }
  }

  /** Pressing next as many times as there are images restores the original order. */
  lemma FullCycleRestoresGallery<T>(g: seq<T>)
    ensures RotatedTimes(g, |g|) == g
  {
    RotatedTimesSplits(g, |g|);
  }

  // ---------------------------------------------------------------------------------------
  // Locations and the route

  /** `machine.location ? {lat: location[0], lng: location[1]} : {lat: 20.0470, lng: 73.8520}`. */
  function MachineryLocation(location: Option<Pair<real>>): (r: LatLng)
    ensures location.Some? ==> ToLatFirst(r) == location.value
    ensures location.None? ==> r == DEFAULT_MACHINERY_LOCATION
  {
    match location
    case Some(c) => FromLatFirst(c)
    case None => DEFAULT_MACHINERY_LOCATION
  }

  /** A route feature of the provider's answer; `geometry` absent makes the handler throw. */
  datatype Feature = Feature(geometry: Option<seq<Pair<real>>>)

  /** The parsed provider answer; `features` absent when the body has none. */
  datatype Directions = Directions(features: Option<seq<Feature>>)

  /** What the route handler makes of an answer. */
  datatype RouteOutcome =
    | NoRoute                       // null answer or no features: a warning is logged
    | Failed                        // reading the first feature threw; the error is logged
    | Found(path: seq<LatLng>)      // the converted path of the first feature

  /** `coords.map(c => ({lat: c[1], lng: c[0]}))`. */
  function PathOf(coords: seq<Pair<real>>): (path: seq<LatLng>)
    ensures |path| == |coords|
    ensures forall i :: 0 <= i < |coords| ==> path[i] == FromLngFirst(coords[i])
  {
    seq(|coords|, i requires 0 <= i < |coords| => FromLngFirst(coords[i]))
  }

  /** Writing the path back longitude-first gives the provider's coordinates exactly. */
  lemma PathRoundTrip(coords: seq<Pair<real>>)
    ensures var path := PathOf(coords);
      forall i :: 0 <= i < |coords| ==> Swap(ToLatFirst(path[i])) == coords[i]
  {
  }

  /**
   * The handler's reading of `data`: a path is found exactly when the answer is present, has
   * at least one feature and that feature has a geometry, and it is the first feature's
   * coordinates converted point by point, in order.
   */
  function RouteFrom(data: Option<Directions>): (r: RouteOutcome)
    ensures r.Found? <==>
      data.Some? && data.value.features.Some? && |data.value.features.value| > 0 &&
      data.value.features.value[0].geometry.Some?
    ensures r.Found? ==> r.path == PathOf(data.value.features.value[0].geometry.value)
    ensures r == NoRoute <==>
      data.None? || data.value.features.None? || |data.value.features.value| == 0
  {
    if data.None? || data.value.features.None? || |data.value.features.value| == 0 then NoRoute
    else
      match data.value.features.value[0].geometry
      case None => Failed
      case Some(coords) => Found(PathOf(coords))
  }

  /**
   * The route state after an answer: the path and the `fitBounds` calls made so far. Only a
   * found route changes anything; it replaces the path and, when the map is attached and the
   * path is not empty, frames the path and both endpoints with 50px padding.
   */
  function AfterRoute(routePath: Option<seq<LatLng>>, fitCalls: seq<FitCall>, mapAttached: bool,
                      origin: LatLng, destination: LatLng, data: Option<Directions>)
    : (r: (Option<seq<LatLng>>, seq<FitCall>))
    ensures !RouteFrom(data).Found? ==> r == (routePath, fitCalls)
    ensures RouteFrom(data).Found? ==> r.0 == Some(RouteFrom(data).path)
    ensures |r.1| == |fitCalls| + (if RouteFrom(data).Found? && mapAttached && |RouteFrom(data).path| > 0 then 1 else 0)
    ensures r.1[..|fitCalls|] == fitCalls
  {
    match RouteFrom(data)
    case Found(path) =>
      if mapAttached && |path| > 0 then
        (Some(path), fitCalls + [FitCall(BoxOf(path + [origin, destination]).value,
                                         Padding(FIT_PADDING, FIT_PADDING, FIT_PADDING, FIT_PADDING))])
      else (Some(path), fitCalls)
    case _ => (routePath, fitCalls)
  }

  /**
   * A new framing holds every point of the route, the renter and the listing, with 50px on
   * each side, and is the smallest box that does.
   */
  lemma FramingCoversRoute(routePath: Option<seq<LatLng>>, fitCalls: seq<FitCall>, mapAttached: bool,
                           origin: LatLng, destination: LatLng, data: Option<Directions>, c: Box)
    requires |AfterRoute(routePath, fitCalls, mapAttached, origin, destination, data).1| > |fitCalls|
    ensures var r := AfterRoute(routePath, fitCalls, mapAttached, origin, destination, data);
      var fit := r.1[|fitCalls|];
      var path := r.0.value;
      fit.padding == Padding(50, 50, 50, 50) &&
      (forall i :: 0 <= i < |path| ==> Contains(fit.box, path[i])) &&
      Contains(fit.box, origin) && Contains(fit.box, destination) &&
      (((forall i :: 0 <= i < |path| ==> Contains(c, path[i])) &&
        Contains(c, origin) && Contains(c, destination)) ==> Encloses(c, fit.box))
  {
    var path := RouteFrom(data).path;
    var pts := path + [origin, destination];
    assert pts[|path|] == origin && pts[|path| + 1] == destination;
    assert forall i :: 0 <= i < |path| ==> pts[i] == path[i];
    if (forall i :: 0 <= i < |path| ==> Contains(c, path[i])) && Contains(c, origin) && Contains(c, destination) {
      BoxOfIsSmallest(pts, c);
    }
  }

  /**
   * The `forEach` over the path followed by the two `extend` calls: the box accumulated over
   * the path, the renter and the listing, in that order.
   */
  method FramingBox(path: seq<LatLng>, origin: LatLng, destination: LatLng) returns (box: Box)
    ensures BoxOf(path + [origin, destination]) == Some(box)
    ensures forall i :: 0 <= i < |path| ==> Contains(box, path[i])
    ensures Contains(box, origin) && Contains(box, destination)
  {
    var acc: Option<Box> := None;
    var i := 0;
    while i < |path|
      invariant 0 <= i <= |path|
      invariant acc == BoxOf(path[..i])
    {
      assert path[..i + 1][..i] == path[..i];
      acc := Some(Extend(acc, path[i]));
      i := i + 1;
    }
    assert path[..i] == path;
    var pts := path + [origin, destination];
    assert pts[..|path| + 1] == path + [origin];
    assert pts[..|path| + 1][..|path|] == path;
    assert pts[..|pts| - 1] == path + [origin];
    box := Extend(Some(Extend(acc, origin)), destination);
    assert pts[|path|] == origin && pts[|path| + 1] == destination;
    assert forall j :: 0 <= j < |path| ==> pts[j] == path[j];
  }

  // ---------------------------------------------------------------------------------------
  // The view's state

  /** The state of one mounted detail view. */
  class DetailView {
    var gallery: seq<string>
    const machineryLocation: LatLng
    var userLocation: Option<LatLng>
    var routePath: Option<seq<LatLng>>
    var scriptLoaded: bool
    var mapAttached: bool
    /** The `fitBounds` instructions the map widget has received, oldest first. */
    var fitCalls: seq<FitCall>

    constructor (machine: Machine)
      ensures gallery == InitialGallery(machine.gallery, machine.image)
      ensures machineryLocation == MachineryLocation(machine.location)
      ensures userLocation == None && routePath == None
      ensures !scriptLoaded && !mapAttached && fitCalls == []
    {
      gallery := InitialGallery(machine.gallery, machine.image);
      machineryLocation := MachineryLocation(machine.location);
      userLocation := None;
      routePath := None;
      scriptLoaded := false;
      mapAttached := false;
      fitCalls := [];
    }

    /** `handleNextImage`, with the intended rotation. */
    method NextImage()
      modifies this
      ensures gallery == Rotated(old(gallery))
      ensures userLocation == old(userLocation) && routePath == old(routePath)
      ensures scriptLoaded == old(scriptLoaded) && mapAttached == old(mapAttached) && fitCalls == old(fitCalls)
    {
      if |gallery| > 0 {
        gallery := gallery[1..] + [gallery[0]];
      }
    }

    /** The map script finished loading (`isLoaded`). */
    method ScriptLoaded()
      modifies this`scriptLoaded
      ensures scriptLoaded
    {
      scriptLoaded := true;
    }

    /** `onLoad`: `mapRef.current = map`. */
    method MapLoaded()
      modifies this`mapAttached
      ensures mapAttached
    {
      mapAttached := true;
    }

    /** `onUnmount`: `mapRef.current = null`. */
    method MapUnmounted()
      modifies this`mapAttached
      ensures !mapAttached
    {
      mapAttached := false;
    }

    /** The geolocation success callback; a failure only logs and calls nothing here. */
    method PositionReceived(position: LatLng)
      modifies this`userLocation
      ensures userLocation == Some(position)
    {
      userLocation := Some(position);
    }

    /** The part of `getRoute` after the answer arrives, for the renter at `origin`. */
    method ApplyRoute(origin: LatLng, data: Option<Directions>)
      modifies this`routePath, this`fitCalls
      ensures (routePath, fitCalls) ==
        AfterRoute(old(routePath), old(fitCalls), mapAttached, origin, machineryLocation, data)
    {
      if data.None? || data.value.features.None? || |data.value.features.value| == 0 {
        return;  // "No route found or invalid response"
      }
      var feature := data.value.features.value[0];
      if feature.geometry.None? {
        return;  // reading `feature.geometry.coordinates` threw and was caught
      }
      var path := PathOf(feature.geometry.value);
      routePath := Some(path);
      if mapAttached && |path| > 0 {
        var box := FramingBox(path, origin, machineryLocation);
        fitCalls := fitCalls + [FitCall(box, Padding(FIT_PADDING, FIT_PADDING, FIT_PADDING, FIT_PADDING))];
      }
    }

    /**
     * The route effect: once the renter's position is known and the map script is loaded,
     * request the route from the renter to the listing and apply the answer; before that,
     * nothing happens.
     */
    method RouteEffect(apiKey: Option<string>, fetch: DirectionsQuery -> Transport<Directions>)
      modifies this`routePath, this`fitCalls
      ensures userLocation.None? || !scriptLoaded ==>
        routePath == old(routePath) && fitCalls == old(fitCalls)
      ensures userLocation.Some? && scriptLoaded ==>
        (routePath, fitCalls) ==
          AfterRoute(old(routePath), old(fitCalls), mapAttached, userLocation.value, machineryLocation,
                     FetchRoute(apiKey, ToLatFirst(userLocation.value), ToLatFirst(machineryLocation), fetch))
    {
      if userLocation.Some? && scriptLoaded {
        var origin := userLocation.value;
        var data := FetchRoute(apiKey, ToLatFirst(origin), ToLatFirst(machineryLocation), fetch);
        ApplyRoute(origin, data);
      }
    }
  }
}
