/**
  A run of the node: the messages its four subscriptions deliver, handled
  one at a time in arrival order, and the frames it publishes on
  `map_image`. A callback that raises publishes nothing; its exception is
  recorded in place of the frame so that the trace still shows it.
*/
module Session {
  import opened Python
  import opened Scene
  import opened Recorder

  /** One delivered message: a `/fix` NavSatFix, a `/compass/heading` reading, a `/detection_msg` record or a `/state` string. */
  datatype Event =
    | Fix(latitude: real, longitude: real)
    | Compass(degrees: real)
    | Detection(data: string)
    | StateMsg(data: string)

  /** The node's state after some messages, and one frame or exception per non-compass message. */
  datatype Trace = Trace(state: NodeState, frames: seq<Result<Scene>>)

  /**
    The callback a message is dispatched to. Every message but a compass
    reading yields one entry: the frame rendered, or the exception the
    callback raised (a detection record that does not unpack, or whose
    distance does not parse, raises before any render; with an empty route
    the render itself raises).
  */
  function Handle(cfg: Config, s: NodeState, e: Event): (t: Trace)
    requires Wf(s)
    ensures Wf(t.state)
    ensures |t.frames| == if e.Compass? then 0 else 1
  {
    match e
    case Fix(latitude, longitude) =>
      var r := OnFix(cfg, s, latitude, longitude);
      Trace(r.state, [r.out])
    case Compass(degrees) => Trace(Turned(s, degrees, cfg.py), [])
    case Detection(data) =>
      var r := OnDetection(cfg, s, data);
      Trace(r.state, [r.out])
    case StateMsg(data) =>
      var r := OnState(cfg, s, data);
      Trace(r.state, [r.out])
  }

  /** The messages handled in order, from state `s`. */
  function Run(cfg: Config, s: NodeState, events: seq<Event>): (t: Trace)
    requires Wf(s)
    ensures Wf(t.state)
    decreases |events|
  {
    if |events| == 0 then Trace(s, [])
    else
      var first := Handle(cfg, s, events[0]);
      var rest := Run(cfg, first.state, events[1..]);
      Trace(rest.state, first.frames + rest.frames)
  }

  /** The latitudes of the position fixes among the messages, in order. */
  function FixLats(events: seq<Event>): seq<real>
  {
    if |events| == 0 then []
    else (if events[0].Fix? then [events[0].latitude] else []) + FixLats(events[1..])
  }

  /** The longitudes of the position fixes among the messages, in order. */
  function FixLons(events: seq<Event>): seq<real>
  {
    if |events| == 0 then []
    else (if events[0].Fix? then [events[0].longitude] else []) + FixLons(events[1..])
  }

  /** How many messages yield a frame or an exception: all but the compass readings. */
  function Renders(events: seq<Event>): nat
  {
    if |events| == 0 then 0
    else (if events[0].Compass? then 0 else 1) + Renders(events[1..])
  }

  /** How many state messages say exactly "stop". */
  function Stops(events: seq<Event>): nat
  {
    if |events| == 0 then 0
    else (if events[0] == StateMsg(StopState) then 1 else 0) + Stops(events[1..])
  }

  /** How many frames saved the map to disk. */
  function Saves(frames: seq<Result<Scene>>): nat
  {
    if |frames| == 0 then 0
    else (if frames[0].Ok? && frames[0].value.savedTo.Some? then 1 else 0) + Saves(frames[1..])
  }

  lemma {:induction false} SavesAppend(a: seq<Result<Scene>>, b: seq<Result<Scene>>)
    ensures Saves(a + b) == Saves(a) + Saves(b)
    decreases |a|
  {
    if |a| == 0 {
      assert a + b == b;
    } else {
      assert (a + b)[1..] == a[1..] + b;
      SavesAppend(a[1..], b);
    }
  }

  /** One message extends the recorded path by its own fix, if it is one. */
  lemma HandleRecordsFix(cfg: Config, s: NodeState, e: Event)
    requires Wf(s)
    ensures Handle(cfg, s, e).state.lat == s.lat + (if e.Fix? then [e.latitude] else [])
    ensures Handle(cfg, s, e).state.lon == s.lon + (if e.Fix? then [e.longitude] else [])
  {
    if e.Fix? {
      FixAppends(cfg, s, e.latitude, e.longitude);
    }
  }

  /**
    The recorded path is exactly the fixes received, in arrival order and
    with repeats kept, appended to what was recorded before: no other
    message touches it.
  */
  lemma {:induction false} RunRecordsFixes(cfg: Config, s: NodeState, events: seq<Event>)
    requires Wf(s)
    ensures Run(cfg, s, events).state.lat == s.lat + FixLats(events)
    ensures Run(cfg, s, events).state.lon == s.lon + FixLons(events)
    decreases |events|
  {
    if |events| > 0 {
      var e := events[0];
      var first := Handle(cfg, s, e);
      HandleRecordsFix(cfg, s, e);
      RunRecordsFixes(cfg, first.state, events[1..]);
      var lats := if e.Fix? then [e.latitude] else [];
      var lons := if e.Fix? then [e.longitude] else [];
      assert FixLats(events) == lats + FixLats(events[1..]);
      assert FixLons(events) == lons + FixLons(events[1..]);
      assert s.lat + lats + FixLats(events[1..]) == s.lat + (lats + FixLats(events[1..]));
      assert s.lon + lons + FixLons(events[1..]) == s.lon + (lons + FixLons(events[1..]));
    }
  }

  /** Every position, detection and state message produces one frame (or its exception); compass readings produce none. */
  lemma {:induction false} RunFramesPerEvent(cfg: Config, s: NodeState, events: seq<Event>)
    requires Wf(s)
    ensures |Run(cfg, s, events).frames| == Renders(events)
    decreases |events|
  {
    if |events| > 0 {
      RunFramesPerEvent(cfg, Handle(cfg, s, events[0]).state, events[1..]);
    }
  }

  /** With waypoints loaded, the map is saved once per "stop" message and at no other time. */
  lemma {:induction false} RunSavesOncePerStop(cfg: Config, s: NodeState, events: seq<Event>)
    requires Wf(s) && |cfg.waypoints| > 0
    ensures Saves(Run(cfg, s, events).frames) == Stops(events)
    decreases |events|
  {
    if |events| > 0 {
      var first := Handle(cfg, s, events[0]);
      RunSavesOncePerStop(cfg, first.state, events[1..]);
      SavesAppend(first.frames, Run(cfg, first.state, events[1..]).frames);
      assert Saves(first.frames) == (if events[0] == StateMsg(StopState) then 1 else 0) by {
        match events[0]
        case Fix(latitude, longitude) =>
          RenderScene(cfg, Fixed(s, latitude, longitude), DefaultState);
        case Compass(degrees) =>
        case Detection(data) =>
          var a := Detected(s, data, cfg.py);
          if a.error.None? {
            RenderScene(cfg, a.state, DefaultState);
          }
        case StateMsg(data) =>
          RenderScene(cfg, s, data);
      }
    }
  }

  /** Neither detection flag is truthy: no detection marker is pending. */
  predicate Disarmed(s: NodeState)
  {
    !Truthy(s.coneFlg) && !Truthy(s.markerFlg)
  }

  /**
    Without a detection message nothing arms a flag: from a disarmed state
    every frame is drawn without cone and marker, and the state stays
    disarmed.
  */
  lemma {:induction false} NoMarkerWithoutDetection(cfg: Config, s: NodeState, events: seq<Event>)
    requires Wf(s) && Disarmed(s)
    requires forall k :: 0 <= k < |events| ==> !events[k].Detection?
    ensures Disarmed(Run(cfg, s, events).state)
    ensures forall k :: 0 <= k < |Run(cfg, s, events).frames| && Run(cfg, s, events).frames[k].Ok? ==>
      Run(cfg, s, events).frames[k].value.cone.None? && Run(cfg, s, events).frames[k].value.marker.None?
    decreases |events|
  {
    if |events| > 0 {
      var first := Handle(cfg, s, events[0]);
      assert Disarmed(first.state) && forall k :: 0 <= k < |first.frames| && first.frames[k].Ok? ==>
        first.frames[k].value.cone.None? && first.frames[k].value.marker.None?;
      NoMarkerWithoutDetection(cfg, first.state, events[1..]);
    }
  }

  /** The node starts disarmed, so until the first detection message no frame shows a cone or a marker. */
  lemma FreshNodeDrawsNoMarkers(cfg: Config, events: seq<Event>)
    requires forall k :: 0 <= k < |events| ==> !events[k].Detection?
    ensures forall k :: 0 <= k < |Run(cfg, Initial(), events).frames| && Run(cfg, Initial(), events).frames[k].Ok? ==>
      Run(cfg, Initial(), events).frames[k].value.cone.None? && Run(cfg, Initial(), events).frames[k].value.marker.None?
  {
    NoMarkerWithoutDetection(cfg, Initial(), events);
  }
}
