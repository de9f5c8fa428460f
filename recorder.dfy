/**
  The recorder node: it keeps the vehicle's recorded positions, its heading
  and the latest cone/marker detection, and attempts to re-draw the route
  map after every position, detection or state message (a malformed
  record, or an empty route, raises instead). Its mutable fields are
  modelled twice: as the value `NodeState` with one transition function per
  callback (the specification), and as the class `RecorderNode` whose
  methods update the fields step by step and are proved to follow those
  functions.
*/
module Recorder {
  import opened Python
  import opened PyText
  import opened Scene
  import opened Waypoints

  /** The node's mutable fields at one moment. */
  datatype NodeState = NodeState(
    lat: seq<real>,        // recorded latitudes, in arrival order
    lon: seq<real>,        // recorded longitudes, in arrival order
    heading: real,         // radians
    coneFlg: PyValue,
    markerFlg: PyValue,
    coneDis: real,
    markerDis: real)

  /** What the node is started with and never changes. */
  datatype Config = Config(waypoints: seq<Point>, mapPath: string, py: Builtins)

  /** Latitudes and longitudes are recorded in pairs. */
  predicate Wf(s: NodeState)
  {
    |s.lat| == |s.lon|
  }

  /** The fields as the constructor sets them; the initial `cone_dis = False` counts as 0 in arithmetic. */
  function Initial(): (s: NodeState)
    ensures Wf(s) && s.lat == [] && s.lon == []
    ensures !Truthy(s.coneFlg) && !Truthy(s.markerFlg)
  {
    NodeState([], [], 0.0, PyBool(false), PyInt(0), 0.0, 0.0)
  }

  /** The state a render is asked for when the caller gives none. */
  const DefaultState: string := "run"

  /** The state message that makes a render save the map. */
  const StopState: string := "stop"

  /** A handler's effect: the node's new state, and the frame it published or the exception it raised. */
  datatype Step = Step(state: NodeState, out: Result<Scene>)

  /** The most recently recorded position, `(lat[-1], lon[-1])`. */
  function LastPosition(s: NodeState): Point
    requires Wf(s) && |s.lat| > 0
  {
    Point(s.lat[|s.lat| - 1], s.lon[|s.lon| - 1])
  }

  /** The detection marker a flag asks for: drawn only when the flag is truthy and a position is known. */
  function DetectionMarker(flag: PyValue, dis: real, s: NodeState, py: Builtins): Option<Point>
    requires Wf(s)
  {
    if Truthy(flag) && |s.lat| > 0 then Some(Project(LastPosition(s), dis, s.heading, py)) else None
  }

  /** A flag after its marker was considered: set to `False` once the marker is drawn. */
  function Consume(flag: PyValue, drawn: Option<Point>): PyValue
  {
    if drawn.Some? then PyBool(false) else flag
  }

  /**
    One `plot_path(state)`: the scene drawn from the waypoints and the
    current fields, the detection flags consumed, and the map saved when
    the state is exactly "stop". Without waypoints `min()` raises before
    anything changes. Only the two flags can change.
  */
  function Render(cfg: Config, s: NodeState, state: string): (r: Step)
    requires Wf(s)
    ensures Wf(r.state)
    ensures r.state == s.(coneFlg := r.state.coneFlg, markerFlg := r.state.markerFlg)
  {
    match ViewOf(cfg.waypoints)
    case Err(e) => Step(s, Err(e))
    case Ok(view) =>
      var cone := DetectionMarker(s.coneFlg, s.coneDis, s, cfg.py);
      var marker := DetectionMarker(s.markerFlg, s.markerDis, s, cfg.py);
      var scene := Scene(
        Markers(Lats(cfg.waypoints), Lons(cfg.waypoints)),
        Markers(s.lat, s.lon),
        view,
        cone,
        marker,
        Segments(cfg.waypoints),
        if state == StopState then Some(cfg.mapPath) else None);
      Step(s.(coneFlg := Consume(s.coneFlg, cone), markerFlg := Consume(s.markerFlg, marker)), Ok(scene))
  }

  /** A position fix appended to the recorded path. */
  function Fixed(s: NodeState, latitude: real, longitude: real): (t: NodeState)
    ensures Wf(s) ==> Wf(t)
    ensures |t.lat| == |s.lat| + 1 && t.lat[..|s.lat|] == s.lat && t.lat[|s.lat|] == latitude
    ensures |t.lon| == |s.lon| + 1 && t.lon[..|s.lon|] == s.lon && t.lon[|s.lon|] == longitude
    ensures t.(lat := s.lat, lon := s.lon) == s
  {
    s.(lat := s.lat + [latitude], lon := s.lon + [longitude])
  }

  /** A compass reading in degrees, stored in radians. */
  function Turned(s: NodeState, degrees: real, py: Builtins): (t: NodeState)
    ensures t.heading == py.radians(degrees)
    ensures t.(heading := s.heading) == s
  {
    s.(heading := py.radians(degrees))
  }

  /** The flag value the detection handler stores: the string 'True' or 'False'. */
  function AsWrittenFlag(field: string): (v: PyValue)
    ensures Truthy(v)
    ensures v.PyStr? && (v.s == "True" <==> field == "1")
    ensures field != "1" ==> v == PyStr("False")
  {
    PyStr(if field == "1" then "True" else "False")
  }

  /**
    The flag the `== '1'` test evidently computes: a boolean, true exactly
    for the field "1". The handler instead stores that outcome as one of two
    non-empty strings.
  */
  function IntendedFlag(field: string): PyValue
  {
    PyBool(field == "1")
  }

  /** The fields after a detection record has been applied, and the exception that stopped it, if any. */
  datatype Applied = Applied(state: NodeState, error: Option<PyError>)

  /**
    Applying a `cone_flg,marker_flg,cone_dis,marker_dis` record: a record
    that does not split into four fields raises before any change; otherwise
    both flags are overwritten, then each distance in turn, and a distance
    that `float()` rejects raises with the earlier fields already changed.
  */
  function Detected(s: NodeState, data: string, py: Builtins): (a: Applied)
    ensures a.state.lat == s.lat && a.state.lon == s.lon && a.state.heading == s.heading
  {
    var fields := SplitOn(data, ',');
    if |fields| != 4 then Applied(s, Some(ValueError))
    else
      var flagged := s.(coneFlg := AsWrittenFlag(fields[0]), markerFlg := AsWrittenFlag(fields[1]));
      match py.float(fields[2])
      case None => Applied(flagged, Some(ValueError))
      case Some(coneDis) =>
        var coneSet := flagged.(coneDis := coneDis);
        match py.float(fields[3])
        case None => Applied(coneSet, Some(ValueError))
        case Some(markerDis) => Applied(coneSet.(markerDis := markerDis), None)
  }

  /** `gps_callback`: record the fix, then render with the default state. */
  function OnFix(cfg: Config, s: NodeState, latitude: real, longitude: real): (r: Step)
    requires Wf(s)
    ensures Wf(r.state)
  {
    Render(cfg, Fixed(s, latitude, longitude), DefaultState)
  }

  /** `detection_callback`: apply the record, then render with the default state unless it raised. */
  function OnDetection(cfg: Config, s: NodeState, data: string): (r: Step)
    requires Wf(s)
    ensures Wf(r.state)
  {
    var a := Detected(s, data, cfg.py);
    match a.error
    case Some(e) => Step(a.state, Err(e))
    case None => Render(cfg, a.state, DefaultState)
  }

  /** `state_callback`: render with the state the message carries. */
  function OnState(cfg: Config, s: NodeState, data: string): (r: Step)
    requires Wf(s)
    ensures Wf(r.state)
  {
    Render(cfg, s, data)
  }

  /** The loop of `plot_path` that draws a dashed line between each pair of consecutive waypoints. */
  method DashedRoute(waypoints: seq<Point>) returns (segments: seq<Segment>)
    ensures segments == Segments(waypoints)
  {
    segments := [];
    var i := 0;
    while i < |waypoints| - 1
      invariant 0 <= i <= if |waypoints| == 0 then 0 else |waypoints| - 1
      invariant |segments| == i
      invariant forall k :: 0 <= k < i ==> segments[k] == Segment(waypoints[k], waypoints[k + 1])
    {
      segments := segments + [Segment(waypoints[i], waypoints[i + 1])];
      i := i + 1;
    }
  }

  // -----------------------------------------------------------------------
  // The node object
  // -----------------------------------------------------------------------

  class RecorderNode {
    const waypoints: seq<Point>
    const mapPath: string
    const py: Builtins
    var lat: seq<real>
    var lon: seq<real>
    var heading: real
    var coneFlg: PyValue
    var markerFlg: PyValue
    var coneDis: real
    var markerDis: real

    ghost predicate Valid()
      reads this
    {
      |lat| == |lon|
    }

    function State(): NodeState
      reads this
    {
      NodeState(lat, lon, heading, coneFlg, markerFlg, coneDis, markerDis)
    }

    function Cfg(): Config
    {
      Config(waypoints, mapPath, py)
    }

    constructor (waypoints: seq<Point>, mapPath: string, py: Builtins)
      ensures Valid()
      ensures State() == Initial()
      ensures Cfg() == Config(waypoints, mapPath, py)
    {
      this.waypoints := waypoints;
      this.mapPath := mapPath;
      this.py := py;
      lat, lon, heading := [], [], 0.0;
      coneFlg, markerFlg, coneDis, markerDis := PyBool(false), PyInt(0), 0.0, 0.0;
    }

    /** `plot_path(state)`. */
    method PlotPath(state: string) returns (r: Result<Scene>)
      requires Valid()
      modifies this`coneFlg, this`markerFlg
      ensures Valid()
      ensures Step(State(), r) == Render(Cfg(), old(State()), state)
    {
      ghost var s0 := State();
      var wpLatitudes := Lats(waypoints);
      var wpLongitudes := Lons(waypoints);
      if |waypoints| == 0 {
        // min() of an empty list
        return Err(ValueError);
      }
      var view := Viewport(
        MinOf(wpLongitudes) - Margin, MaxOf(wpLongitudes) + Margin,
        MinOf(wpLatitudes) - Margin, MaxOf(wpLatitudes) + Margin);
      assert ViewOf(waypoints) == Ok(view);

      var cone: Option<Point> := None;
      if Truthy(coneFlg) && |lat| > 0 {
        cone := Some(Project(Point(lat[|lat| - 1], lon[|lon| - 1]), coneDis, heading, py));
        coneFlg := PyBool(false);
      }
      var marker: Option<Point> := None;
      if Truthy(markerFlg) && |lat| > 0 {
        marker := Some(Project(Point(lat[|lat| - 1], lon[|lon| - 1]), markerDis, heading, py));
        markerFlg := PyBool(false);
      }
      assert cone == DetectionMarker(s0.coneFlg, s0.coneDis, s0, py);
      assert marker == DetectionMarker(s0.markerFlg, s0.markerDis, s0, py);

      var segments := DashedRoute(waypoints);

      var savedTo: Option<string> := None;
      if state == StopState {
        savedTo := Some(mapPath);
      }
      r := Ok(Scene(Markers(wpLatitudes, wpLongitudes), Markers(lat, lon), view, cone, marker, segments, savedTo));
    }

    /** `imu_callback`: overwrite the heading; no render. */
    method ImuCallback(degrees: real)
      modifies this`heading
      ensures State() == Turned(old(State()), degrees, py)
    {
      heading := py.radians(degrees);
    }

    /** `state_callback`: render with the received state. */
    method StateCallback(data: string) returns (r: Result<Scene>)
      requires Valid()
      modifies this`coneFlg, this`markerFlg
      ensures Valid()
      ensures Step(State(), r) == OnState(Cfg(), old(State()), data)
    {
      r := PlotPath(data);
    }

    /** `gps_callback`: append the fix, then render. */
    method GpsCallback(latitude: real, longitude: real) returns (r: Result<Scene>)
      requires Valid()
      modifies this`lat, this`lon, this`coneFlg, this`markerFlg
      ensures Valid()
      ensures Step(State(), r) == OnFix(Cfg(), old(State()), latitude, longitude)
    {
      lat := lat + [latitude];
      lon := lon + [longitude];
      r := PlotPath(DefaultState);
    }

    /** `detection_callback`: unpack the record, overwrite the fields one by one, then render. */
    method DetectionCallback(data: string) returns (r: Result<Scene>)
      requires Valid()
      modifies this`coneFlg, this`markerFlg, this`coneDis, this`markerDis
      ensures Valid()
      ensures Step(State(), r) == OnDetection(Cfg(), old(State()), data)
    {
      var fields := SplitOn(data, ',');
      if |fields| != 4 {
        // unpacking into four names
        return Err(ValueError);
      }
      coneFlg := if fields[0] == "1" then PyStr("True") else PyStr("False");
      markerFlg := if fields[1] == "1" then PyStr("True") else PyStr("False");
      var c := py.float(fields[2]);
      if c.None? {
        return Err(ValueError);
      }
      coneDis := c.value;
      var m := py.float(fields[3]);
      if m.None? {
        return Err(ValueError);
      }
      markerDis := m.value;
      r := PlotPath(DefaultState);
    }
  }

  /** Start-up: load the waypoints from the `<coordinates>` texts, then build the node; a loading failure aborts start-up. */
  method Launch(texts: seq<Option<string>>, mapPath: string, py: Builtins) returns (r: Result<RecorderNode>)
    ensures r.Err? <==> Coordinates(texts, py).Err?
    ensures r.Err? ==> r.error == Coordinates(texts, py).error
    ensures r.Ok? ==> fresh(r.value) && r.value.Valid() && r.value.State() == Initial()
    ensures r.Ok? ==> r.value.Cfg() == Config(Coordinates(texts, py).value, mapPath, py)
  {
    var loaded := ExtractCoordinates(texts, py);
    match loaded
    case Err(e) =>
      r := Err(e);
    case Ok(waypoints) =>
      var node := new RecorderNode(waypoints, mapPath, py);
      r := Ok(node);
  }

  // -----------------------------------------------------------------------
  // Properties of one handler call
  // -----------------------------------------------------------------------

  /** Without waypoints every render raises ValueError at `min()` and changes nothing. */
  lemma RenderWithoutWaypoints(cfg: Config, s: NodeState, state: string)
    requires Wf(s) && |cfg.waypoints| == 0
    ensures Render(cfg, s, state) == Step(s, Err(ValueError))
  {
  }

  /**
    What a render draws: one marker per waypoint and one per recorded
    position, both in order; the chain of dashed segments; the window
    around the waypoints; and a save to the configured path exactly when
    the state is "stop".
  */
  lemma RenderScene(cfg: Config, s: NodeState, state: string)
    requires Wf(s) && |cfg.waypoints| > 0
    ensures Render(cfg, s, state).out.Ok?
    ensures var scene := Render(cfg, s, state).out.value;
      && scene.waypointMarkers == cfg.waypoints
      && |scene.pathMarkers| == |s.lat|
      && (forall i :: 0 <= i < |s.lat| ==> scene.pathMarkers[i] == Point(s.lat[i], s.lon[i]))
      && scene.segments == Segments(cfg.waypoints)
      && Ok(scene.view) == ViewOf(cfg.waypoints)
      && (scene.savedTo.Some? <==> state == StopState)
      && (scene.savedTo.Some? ==> scene.savedTo.value == cfg.mapPath)
  {
    MarkersOfWaypoints(cfg.waypoints);
  }

  /**
    The detection markers: each is drawn exactly when its flag is truthy and
    a position has been recorded, at the projection of its distance from
    the last position along the heading; a drawn marker's flag becomes
    `False`, an undrawn one keeps its value.
  */
  lemma RenderDetections(cfg: Config, s: NodeState, state: string)
    requires Wf(s) && |cfg.waypoints| > 0
    ensures Render(cfg, s, state).out.Ok?
    ensures var r := Render(cfg, s, state);
      && (r.out.value.cone.Some? <==> Truthy(s.coneFlg) && |s.lat| > 0)
      && (r.out.value.marker.Some? <==> Truthy(s.markerFlg) && |s.lat| > 0)
      && (r.out.value.cone.Some? ==>
            r.out.value.cone.value == Project(LastPosition(s), s.coneDis, s.heading, cfg.py) &&
            r.state.coneFlg == PyBool(false))
      && (r.out.value.marker.Some? ==>
            r.out.value.marker.value == Project(LastPosition(s), s.markerDis, s.heading, cfg.py) &&
            r.state.markerFlg == PyBool(false))
      && (r.out.value.cone.None? ==> r.state.coneFlg == s.coneFlg)
      && (r.out.value.marker.None? ==> r.state.markerFlg == s.markerFlg)
  {
  }

  /**
    Markers are consumed: once a render has run with a recorded position,
    neither flag is truthy, so the next render draws no detection marker.
  */
  lemma RenderConsumesOnce(cfg: Config, s: NodeState, first: string, second: string)
    requires Wf(s) && |cfg.waypoints| > 0 && |s.lat| > 0
    ensures !Truthy(Render(cfg, s, first).state.coneFlg) && !Truthy(Render(cfg, s, first).state.markerFlg)
    ensures var again := Render(cfg, Render(cfg, s, first).state, second);
      again.out.Ok? && again.out.value.cone.None? && again.out.value.marker.None?
  {
    RenderDetections(cfg, s, first);
    RenderDetections(cfg, Render(cfg, s, first).state, second);
  }

  /** Before any position is recorded a render draws no detection marker and leaves the flags as they are. */
  lemma RenderWithoutPosition(cfg: Config, s: NodeState, state: string)
    requires Wf(s) && |s.lat| == 0
    ensures Render(cfg, s, state).state == s
    ensures Render(cfg, s, state).out.Ok? ==>
      Render(cfg, s, state).out.value.cone.None? && Render(cfg, s, state).out.value.marker.None?
  {
  }

  /** The window depends on the waypoints alone: neither the path, the heading, the flags nor the state move it. */
  lemma ViewIgnoresPath(cfg: Config, s: NodeState, t: NodeState, state: string, other: string)
    requires Wf(s) && Wf(t) && |cfg.waypoints| > 0
    ensures Render(cfg, s, state).out.Ok? && Render(cfg, t, other).out.Ok?
    ensures Render(cfg, s, state).out.value.view == Render(cfg, t, other).out.value.view
  {
  }

  /** A position fix appends exactly one latitude and one longitude, even a repeat of the last one, and changes nothing else but the flags. */
  lemma FixAppends(cfg: Config, s: NodeState, latitude: real, longitude: real)
    requires Wf(s)
    ensures var t := OnFix(cfg, s, latitude, longitude).state;
      && t.lat == s.lat + [latitude] && t.lon == s.lon + [longitude]
      && t.heading == s.heading && t.coneDis == s.coneDis && t.markerDis == s.markerDis
  {
  }

  /** A compass reading replaces the heading by its value in radians, whatever came before; nothing else changes. */
  lemma HeadingLastWriteWins(s: NodeState, earlier: real, degrees: real, py: Builtins)
    ensures Turned(Turned(s, earlier, py), degrees, py) == Turned(s, degrees, py)
    ensures Turned(s, degrees, py).heading == py.radians(degrees)
    ensures Turned(s, degrees, py).(heading := s.heading) == s
  {
  }

  /** A record is well formed exactly when it holds three commas; otherwise it raises ValueError before any field changes. */
  lemma DetectionArity(s: NodeState, data: string, py: Builtins)
    ensures |SplitOn(data, ',')| == 4 <==> Count(data, ',') == 3
    ensures Count(data, ',') != 3 ==> Detected(s, data, py) == Applied(s, Some(ValueError))
  {
    SplitOnLength(data, ',');
  }

  /**
    A four-field record overwrites both flags first, then the cone
    distance, then the marker distance; a distance `float()` rejects raises
    ValueError and leaves that distance and the ones after it unchanged.
  */
  lemma DetectionPartialUpdates(s: NodeState, data: string, py: Builtins)
    requires |SplitOn(data, ',')| == 4
    ensures var f, a := SplitOn(data, ','), Detected(s, data, py);
      && a.state.coneFlg == AsWrittenFlag(f[0]) && a.state.markerFlg == AsWrittenFlag(f[1])
      && (py.float(f[2]).None? ==>
            a.error == Some(ValueError) && a.state.coneDis == s.coneDis && a.state.markerDis == s.markerDis)
      && (py.float(f[2]).Some? ==> a.state.coneDis == py.float(f[2]).value)
      && (py.float(f[2]).Some? && py.float(f[3]).None? ==>
            a.error == Some(ValueError) && a.state.markerDis == s.markerDis)
      && (py.float(f[2]).Some? && py.float(f[3]).Some? ==>
            a.error.None? && a.state.markerDis == py.float(f[3]).value)
  {
  }

  /** The stored flags are the non-empty strings 'True' and 'False', so both are truthy after any four-field record. */
  lemma WellFormedRecordArmsBoth(s: NodeState, data: string, py: Builtins)
    requires |SplitOn(data, ',')| == 4
    ensures Truthy(Detected(s, data, py).state.coneFlg)
    ensures Truthy(Detected(s, data, py).state.markerFlg)
  {
  }

  /** As written, every flag field arms its marker; read as the boolean its `== '1'` test computes, only "1" does; the two differ exactly on the other fields. */
  lemma FlagSemantics(field: string)
    ensures Truthy(AsWrittenFlag(field))
    ensures Truthy(IntendedFlag(field)) <==> field == "1"
    ensures Truthy(AsWrittenFlag(field)) != Truthy(IntendedFlag(field)) <==> field != "1"
  {
  }

  /**
    A four-field record followed by a position fix, when the detection
    handler drew nothing itself (the record raised at a distance, or no
    position was recorded yet): the fix's frame draws both a cone and a
    marker, whatever the flag fields said.
  */
  lemma RecordThenFixDrawsBoth(cfg: Config, s: NodeState, data: string, latitude: real, longitude: real)
    requires Wf(s) && |cfg.waypoints| > 0 && |SplitOn(data, ',')| == 4
    requires OnDetection(cfg, s, data).out.Err? || |s.lat| == 0
    ensures var frame := OnFix(cfg, OnDetection(cfg, s, data).state, latitude, longitude).out;
      frame.Ok? && frame.value.cone.Some? && frame.value.marker.Some?
  {
    var a := Detected(s, data, cfg.py);
    if a.error.None? {
      RenderWithoutPosition(cfg, a.state, DefaultState);
    }
    var t := Fixed(OnDetection(cfg, s, data).state, latitude, longitude);
    RenderDetections(cfg, t, DefaultState);
  }

  /**
    Once a position is recorded, the detection handler's own frame draws
    both a cone and a marker for every record that parses, "0,0,…"
    included, and consumes both flags.
  */
  lemma ParsedRecordDrawsBoth(cfg: Config, s: NodeState, data: string)
    requires Wf(s) && |cfg.waypoints| > 0 && |s.lat| > 0
    requires Detected(s, data, cfg.py).error.None?
    ensures var r := OnDetection(cfg, s, data);
      && r.out.Ok? && r.out.value.cone.Some? && r.out.value.marker.Some?
      && !Truthy(r.state.coneFlg) && !Truthy(r.state.markerFlg)
  {
    var a := Detected(s, data, cfg.py);
    assert |SplitOn(data, ',')| == 4;
    WellFormedRecordArmsBoth(s, data, cfg.py);
    RenderDetections(cfg, a.state, DefaultState);
  }

  /** After a record that parses, with a position recorded, the next fix draws no detection marker: the handler's own render consumed both flags. */
  lemma ParsedRecordThenFixDrawsNone(cfg: Config, s: NodeState, data: string, latitude: real, longitude: real)
    requires Wf(s) && |cfg.waypoints| > 0 && |s.lat| > 0
    requires Detected(s, data, cfg.py).error.None?
    ensures var frame := OnFix(cfg, OnDetection(cfg, s, data).state, latitude, longitude).out;
      frame.Ok? && frame.value.cone.None? && frame.value.marker.None?
  {
    ParsedRecordDrawsBoth(cfg, s, data);
    var t := Fixed(OnDetection(cfg, s, data).state, latitude, longitude);
    RenderDetections(cfg, t, DefaultState);
  }

  /**
    The record "1,0,abc,3" with Python's `float`: both flags are set (to
    'True' and 'False'), the cone distance raises ValueError, and both
    distances keep their earlier values.
  */
  lemma MalformedDistanceExample(s: NodeState, py: Builtins)
    requires py.float("abc") == None
    ensures Detected(s, "1,0,abc,3", py) ==
      Applied(s.(coneFlg := PyStr("True"), markerFlg := PyStr("False")), Some(ValueError))
  {
    ExampleFields();
  }

  /** The record "1,0,abc,3" splits into its four comma-separated fields. */
  lemma ExampleFields()
    ensures SplitOn("1,0,abc,3", ',') == ["1", "0", "abc", "3"]
  {
    var fields := ["1", "0", "abc", "3"];
    assert Join(fields, ',') == "1,0,abc,3";
    SplitOnJoin(fields, ',');
  }
}
