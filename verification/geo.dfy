/**
 * Coordinates as the views pass them around: the map widget's `{lat, lng}` literal,
 * two-element arrays whose component order depends on who wrote them, and the
 * bounding box that the map's `LatLngBounds` accumulates.
 */
module Geo {
  import opened Wrappers

  /** The map widget's `LatLngLiteral`. */
  datatype LatLng = LatLng(lat: real, lng: real)

  /** A two-element coordinate array `[a, b]`. */
  type Pair<T> = (T, T)

  /**
   * `[a, b]` written as `b,a`: the swapped array, read in one convention, is the point the
   * original denotes in the other.
   */
  function Swap(p: Pair<real>): (r: Pair<real>)
    ensures FromLngFirst(r) == FromLatFirst(p)
    ensures FromLatFirst(r) == FromLngFirst(p)
  {
    (p.1, p.0)
  }

  lemma SwapInvolutive(p: Pair<real>)
    ensures Swap(Swap(p)) == p
  {
  }

  /** `[point.lat, point.lng]`: the latitude-first array the views hand to the route service. */
  function ToLatFirst(point: LatLng): Pair<real> {
    (point.lat, point.lng)
  }

  /** `{lat: c[0], lng: c[1]}`: reading a latitude-first array. */
  function FromLatFirst(c: Pair<real>): LatLng {
    LatLng(c.0, c.1)
  }

  /** `{lat: c[1], lng: c[0]}`: reading a longitude-first array as the routing provider writes it. */
  function FromLngFirst(c: Pair<real>): LatLng {
    LatLng(c.1, c.0)
  }

  /** Swapping a latitude-first array gives the longitude-first array of the same point. */
  lemma SwapChangesConvention(point: LatLng)
    ensures FromLngFirst(Swap(ToLatFirst(point))) == point
    ensures FromLatFirst(ToLatFirst(point)) == point
  {
  }

  /** An axis-aligned box: the minimal/maximal latitude and longitude seen so far. */
  datatype Box = Box(south: real, west: real, north: real, east: real)

  predicate Contains(b: Box, p: LatLng) {
    b.south <= p.lat <= b.north && b.west <= p.lng <= b.east
  }

  /** Every point of `inner` is also in `outer`. */
  predicate Encloses(outer: Box, inner: Box) {
    outer.south <= inner.south && inner.north <= outer.north &&
    outer.west <= inner.west && inner.east <= outer.east
  }

  function Min(a: real, b: real): real { if a <= b then a else b }
  function Max(a: real, b: real): real { if a <= b then b else a }

  /**
   * `bounds.extend(p)`: an empty accumulator becomes the single point `p`; a box grows
   * just enough to take in `p`.
   */
  function Extend(acc: Option<Box>, p: LatLng): (r: Box)
    ensures Contains(r, p)
    ensures acc.Some? ==> Encloses(r, acc.value)
    ensures acc.None? ==> r.south == r.north == p.lat && r.west == r.east == p.lng
  {
    match acc
    case None => Box(p.lat, p.lng, p.lat, p.lng)
    case Some(b) => Box(Min(b.south, p.lat), Min(b.west, p.lng), Max(b.north, p.lat), Max(b.east, p.lng))
  }

  /**
   * The box accumulated by extending an empty `LatLngBounds` with each point in turn:
   * absent exactly when there are no points, and otherwise containing all of them.
   */
  function BoxOf(points: seq<LatLng>): (r: Option<Box>)
    ensures r.Some? <==> |points| > 0
    ensures r.Some? ==> forall i :: 0 <= i < |points| ==> Contains(r.value, points[i])
    decreases |points|
  {
    if |points| == 0 then None
    else Some(Extend(BoxOf(points[..|points| - 1]), points[|points| - 1]))
  }

  /** Each side of the accumulated box is attained by one of the points: the box is not padded. */
  lemma {:induction false} BoxOfIsTight(points: seq<LatLng>)
    requires |points| > 0
    ensures var b := BoxOf(points).value;
      (exists i :: 0 <= i < |points| && points[i].lat == b.south) &&
      (exists i :: 0 <= i < |points| && points[i].lat == b.north) &&
      (exists i :: 0 <= i < |points| && points[i].lng == b.west) &&
      (exists i :: 0 <= i < |points| && points[i].lng == b.east)
    decreases |points|
  {
    var n := |points| - 1;
    var last := points[n];
    if n == 0 {
      assert points[0] == last;
    } else {
      var init := points[..n];
      assert forall i :: 0 <= i < n ==> init[i] == points[i];
      assert init + [last] == points;
      BoxOfIsTight(init);
      var prev := BoxOf(init).value;
      var s :| 0 <= s < n && init[s].lat == prev.south;
      var t :| 0 <= t < n && init[t].lat == prev.north;
      var w :| 0 <= w < n && init[w].lng == prev.west;
      var e :| 0 <= e < n && init[e].lng == prev.east;
      var b := BoxOf(points).value;
      assert b == Extend(Some(prev), last);
      assert points[s].lat == b.south || last.lat == b.south;
      assert points[t].lat == b.north || last.lat == b.north;
      assert points[w].lng == b.west || last.lng == b.west;
      assert points[e].lng == b.east || last.lng == b.east;
    }
  }

  /** Any box holding all the points encloses the accumulated one: it is the smallest such box. */
  lemma {:induction false} BoxOfIsSmallest(points: seq<LatLng>, c: Box)
    requires |points| > 0
    requires forall i :: 0 <= i < |points| ==> Contains(c, points[i])
    ensures Encloses(c, BoxOf(points).value)
    decreases |points|
  {
    var n := |points| - 1;
    if n > 0 {
      var init := points[..n];
      assert forall i :: 0 <= i < n ==> init[i] == points[i];
      BoxOfIsSmallest(init, c);
    }
    assert Contains(c, points[n]);
  }
}
