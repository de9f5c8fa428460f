/**
  The picture `plot_path` draws, as a value: waypoint and path markers, the
  dashed route between waypoints, the visible window, the projected
  detection markers and whether the picture was saved to disk.
*/
module Scene {
  import opened Python

  /** A geographic position in degrees. */
  datatype Point = Point(lat: real, lon: real)

  /** A straight dashed line from one waypoint to the next. */
  datatype Segment = Segment(origin: Point, target: Point)

  /** The axis limits: longitude on the x axis, latitude on the y axis. */
  datatype Viewport = Viewport(lonMin: real, lonMax: real, latMin: real, latMax: real)

  /** Degrees added around the waypoints' bounding box. */
  const Margin: real := 0.001

  /** Degrees per unit of detection distance. */
  const Scale: real := 0.00001

  datatype Scene = Scene(
    waypointMarkers: seq<Point>,  // red dots
    pathMarkers: seq<Point>,      // blue dots
    view: Viewport,
    cone: Option<Point>,          // red cross
    marker: Option<Point>,        // green cross
    segments: seq<Segment>,       // red dashes
    savedTo: Option<string>)      // legend added and image written to this path

  /** `[coord[0] for coord in ps]`. */
  function Lats(ps: seq<Point>): seq<real>
  {
    seq(|ps|, i requires 0 <= i < |ps| => ps[i].lat)
  }

  /** `[coord[1] for coord in ps]`. */
  function Lons(ps: seq<Point>): seq<real>
  {
    seq(|ps|, i requires 0 <= i < |ps| => ps[i].lon)
  }

  /** The dots `plt.plot(lons, lats, ...)` draws, one per index. */
  function Markers(lats: seq<real>, lons: seq<real>): seq<Point>
    requires |lats| == |lons|
  {
    seq(|lats|, i requires 0 <= i < |lats| => Point(lats[i], lons[i]))
  }

  /** Drawing the waypoints from their two coordinate lists puts one marker on each waypoint, in order. */
  lemma MarkersOfWaypoints(ps: seq<Point>)
    ensures Markers(Lats(ps), Lons(ps)) == ps
  {
  }

  /** `min(xs)` of a non-empty list. */
  function MinOf(xs: seq<real>): (m: real)
    requires |xs| > 0
    ensures m in xs
    ensures forall k :: 0 <= k < |xs| ==> m <= xs[k]
  {
    if |xs| == 1 then xs[0]
    else
      var rest := MinOf(xs[1..]);
      if xs[0] <= rest then xs[0] else rest
  }

  /** `max(xs)` of a non-empty list. */
  function MaxOf(xs: seq<real>): (m: real)
    requires |xs| > 0
    ensures m in xs
    ensures forall k :: 0 <= k < |xs| ==> xs[k] <= m
  {
    if |xs| == 1 then xs[0]
    else
      var rest := MaxOf(xs[1..]);
      if xs[0] >= rest then xs[0] else rest
  }

  /** The axis limits set from the waypoints; `min()` of no waypoints raises ValueError. */
  function ViewOf(wps: seq<Point>): (r: Result<Viewport>)
    ensures r.Err? <==> |wps| == 0
    ensures r.Err? ==> r.error == ValueError
  {
    if |wps| == 0 then Err(ValueError)
    else
      var lats, lons := Lats(wps), Lons(wps);
      Ok(Viewport(MinOf(lons) - Margin, MaxOf(lons) + Margin, MinOf(lats) - Margin, MaxOf(lats) + Margin))
  }

  predicate StrictlyInside(p: Point, v: Viewport)
  {
    v.lonMin < p.lon < v.lonMax && v.latMin < p.lat < v.latMax
  }

  /**
    The window is the waypoints' bounding box widened by the margin on every
    side: every waypoint lies within the box shrunk back by the margin (so
    strictly inside the window), and each limit is exactly one waypoint
    coordinate moved out by the margin.
  */
  lemma ViewBoundsWaypoints(wps: seq<Point>)
    requires |wps| > 0
    ensures ViewOf(wps).Ok?
    ensures forall i :: 0 <= i < |wps| ==> StrictlyInside(wps[i], ViewOf(wps).value)
    ensures forall i :: 0 <= i < |wps| ==>
      ViewOf(wps).value.lonMin + Margin <= wps[i].lon <= ViewOf(wps).value.lonMax - Margin
    ensures forall i :: 0 <= i < |wps| ==>
      ViewOf(wps).value.latMin + Margin <= wps[i].lat <= ViewOf(wps).value.latMax - Margin
    ensures exists i :: 0 <= i < |wps| && wps[i].lon == ViewOf(wps).value.lonMin + Margin
    ensures exists i :: 0 <= i < |wps| && wps[i].lon == ViewOf(wps).value.lonMax - Margin
    ensures exists i :: 0 <= i < |wps| && wps[i].lat == ViewOf(wps).value.latMin + Margin
    ensures exists i :: 0 <= i < |wps| && wps[i].lat == ViewOf(wps).value.latMax - Margin
  {
    var lats, lons := Lats(wps), Lons(wps);
    var v := ViewOf(wps).value;
    forall i | 0 <= i < |wps|
      ensures StrictlyInside(wps[i], v)
      ensures v.lonMin + Margin <= wps[i].lon <= v.lonMax - Margin
      ensures v.latMin + Margin <= wps[i].lat <= v.latMax - Margin
    {
      assert lons[i] == wps[i].lon && lats[i] == wps[i].lat;
    }
    var a :| 0 <= a < |lons| && lons[a] == MinOf(lons);
    var b :| 0 <= b < |lons| && lons[b] == MaxOf(lons);
    var c :| 0 <= c < |lats| && lats[c] == MinOf(lats);
    var d :| 0 <= d < |lats| && lats[d] == MaxOf(lats);
    assert wps[a].lon == v.lonMin + Margin;
    assert wps[b].lon == v.lonMax - Margin;
    assert wps[c].lat == v.latMin + Margin;
    assert wps[d].lat == v.latMax - Margin;
  }

  /** Waypoints spanning longitudes 2.0 to 4.0 and latitudes 1.0 to 3.0 are shown in [1.999, 4.001] by [0.999, 3.001]. */
  lemma ViewExample()
    ensures ViewOf([Point(1.0, 2.0), Point(3.0, 4.0)]) == Ok(Viewport(1.999, 4.001, 0.999, 3.001))
  {
    var wps := [Point(1.0, 2.0), Point(3.0, 4.0)];
    assert Lons(wps) == [2.0, 4.0];
    assert Lats(wps) == [1.0, 3.0];
    assert MinOf([2.0, 4.0]) == 2.0 by { assert MinOf([2.0, 4.0][1..]) == 4.0; }
    assert MaxOf([2.0, 4.0]) == 4.0 by { assert MaxOf([2.0, 4.0][1..]) == 4.0; }
    assert MinOf([1.0, 3.0]) == 1.0 by { assert MinOf([1.0, 3.0][1..]) == 3.0; }
    assert MaxOf([1.0, 3.0]) == 3.0 by { assert MaxOf([1.0, 3.0][1..]) == 3.0; }
  }

  /** The dashed lines: one from each waypoint to the next, none back to the first. */
  function Segments(wps: seq<Point>): (r: seq<Segment>)
    ensures |r| == if |wps| < 2 then 0 else |wps| - 1
  {
    seq(if |wps| == 0 then 0 else |wps| - 1, i requires 0 <= i < |wps| - 1 => Segment(wps[i], wps[i + 1]))
  }

  /**
    The segments form one open chain through the waypoints in order: there
    are one fewer segments than waypoints (none for fewer than two), each
    ends where the next starts, the chain starts at the first waypoint and
    ends at the last.
  */
  lemma SegmentsChain(wps: seq<Point>)
    ensures |Segments(wps)| == if |wps| < 2 then 0 else |wps| - 1
    ensures forall i :: 0 <= i < |Segments(wps)| ==>
      Segments(wps)[i].origin == wps[i] && Segments(wps)[i].target == wps[i + 1]
    ensures forall i :: 0 <= i < |Segments(wps)| - 1 ==> Segments(wps)[i].target == Segments(wps)[i + 1].origin
    ensures |wps| >= 2 ==> Segments(wps)[0].origin == wps[0] && Segments(wps)[|wps| - 2].target == wps[|wps| - 1]
  {
  }

  /**
    Where a detection `dis` units ahead of `anchor` is drawn: north by
    `dis * cos(heading)` and east by `dis * sin(heading)`, scaled to degrees.
  */
  function Project(anchor: Point, dis: real, heading: real, py: Builtins): (p: Point)
    ensures dis == 0.0 ==> p == anchor
    ensures py.cos(heading) == 1.0 && py.sin(heading) == 0.0 ==> p == Point(anchor.lat + dis * Scale, anchor.lon)
  {
    Point(anchor.lat + dis * py.cos(heading) * Scale, anchor.lon + dis * py.sin(heading) * Scale)
  }

  /** Facing north (cos 0 = 1, sin 0 = 0), an object 10 units ahead of (1.0, 2.0) is drawn at (1.0001, 2.0). */
  lemma ProjectNorthExample(py: Builtins)
    requires py.cos(0.0) == 1.0 && py.sin(0.0) == 0.0
    ensures Project(Point(1.0, 2.0), 10.0, 0.0, py) == Point(1.0001, 2.0)
  {
  }
}
