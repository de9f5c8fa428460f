# Route recorder and map display

A model of the `recorderNode` ROS node in
`src/record_display/src/record_display.py`. At start-up the node loads a
route of waypoints from the `<coordinates>` elements of a KML document.
From then on it does four things:

- it records every GPS fix it receives;
- it stores the latest compass heading;
- it stores the latest cone/marker detection record;
- after every fix, detection or state message it attempts to redraw a
  map and publish it as an image (a malformed detection record, or an
  empty route, raises instead).

The map shows:

- the waypoints, joined by dashed lines;
- the recorded path;
- a window around the waypoints;
- a cross for a detected cone and one for a detected marker. Each cross is
  projected from the last recorded position along the heading and is drawn
  once per detection.

On the state message "stop" the map is also saved to disk.

The project has six modules:

- `Python` (`python.dfy`): the Python values and exceptions the node
  depends on. This covers `Option`, `Result`, the exceptions `ValueError`,
  `IndexError` and `AttributeError`, and the truthiness of the loosely typed
  flag values. The numeric builtins `float`, `math.radians`, `math.cos` and
  `math.sin` are passed in as parameters (`Builtins`).
- `PyText` (`pytext.dfy`): the string builtins the node calls.
  `str.split(',')`, `str.split()` and `str.strip()` are modelled on Python's
  whitespace set. `ParseFloat` is a reference reading of `float()` for
  decimal literals.
- `Scene` (`scene.dfy`): the picture one `plot_path` call draws, as a value.
- `Waypoints` (`waypoints.dfy`): the KML loader
  (`extract_coordinates_from_kml`). It has a specification by prefix
  recursion and the nested loop proved against it.
- `Recorder` (`recorder.dfy`): the node, modelled twice:
  - `NodeState` with one transition function per callback. Together these
    are the specification.
  - The class `RecorderNode`, whose fields the methods update in place. Each
    method is proved to follow its transition function.
- `Session` (`session.dfy`): runs of the node over a sequence of delivered
  messages, with properties of whole runs.

Where the code's evident intent and what it does differ, the model follows
what the code does:

- The detection handler computes each flag with a `== '1'` test, which is
  evidently meant as a boolean. It stores the outcome as the string
  `'True'` or `'False'` instead. Both strings are truthy, so every
  well-formed detection record arms both markers. `FlagSemantics` compares
  the two readings.
- A KML document without `<coordinates>` elements loads as an empty route.
  It is not an error.
- A detection record whose distance does not parse raises after the flags,
  and possibly the cone distance, have already been overwritten. It does
  not leave the state unchanged.

## Model

| member | source | states |
|---|---|---|
| PyText.SplitOn | src/record_display/src/record_display.py:48 | `str.split(',')` yields at least one part, and no part contains the separator |
| PyText.JoinSplitOn | src/record_display/src/record_display.py:48 | joining the parts of `str.split(sep)` with `sep` gives back the original string |
| PyText.SplitOnJoin | src/record_display/src/record_display.py:124 | splitting parts joined by a separator they do not contain gives back exactly those parts |
| PyText.SplitOnLength | src/record_display/src/record_display.py:124 | `str.split(sep)` yields one more part than there are separators |
| PyText.SplitWhitespace | src/record_display/src/record_display.py:43 | `str.split()` yields only non-empty words free of whitespace |
| PyText.SplitWhitespaceKeepsChars | src/record_display/src/record_display.py:43 | the words of `str.split()`, concatenated, are exactly the non-whitespace characters of the input, in order |
| PyText.SplitWhitespaceAtSpace | src/record_display/src/record_display.py:43 | any whitespace character of any kind separates words: the words of `a + c + b` are those of `a` followed by those of `b` |
| PyText.SplitWhitespaceWord | src/record_display/src/record_display.py:43 | a non-empty run without whitespace is a single word |
| PyText.SplitWhitespaceAllSpace | src/record_display/src/record_display.py:43 | a string of whitespace only has no words |
| PyText.StripThenSplit | src/record_display/src/record_display.py:43 | `s.strip().split()` has the same words as `s.split()` |
| PyText.SplitWhitespaceJoin | src/record_display/src/record_display.py:43 | space-joined non-empty words split back into the same words |
| PyText.LStrip | src/record_display/src/record_display.py:43 | the result is a suffix of the input that does not start with whitespace, and every removed character is whitespace |
| PyText.RStrip | src/record_display/src/record_display.py:43 | the result is a prefix of the input that does not end with whitespace, and every removed character is whitespace |
| PyText.ParseFloatNeedsDigit | src/record_display/src/record_display.py:51-52 | the reference parser `ParseFloat` rejects every string without an ASCII digit |
| PyText.ParseFloatDigits | src/record_display/src/record_display.py:51-52 | the reference parser reads a non-empty string of ASCII digits as the number it writes, as `float()` does |
| Scene.MarkersOfWaypoints | src/record_display/src/record_display.py:59-62 | drawing the waypoints from their latitude and longitude lists puts one marker on each waypoint, in order |
| Scene.MinOf | src/record_display/src/record_display.py:64-65 | `min` of a non-empty list is an element of it and no larger than any element |
| Scene.MaxOf | src/record_display/src/record_display.py:64-65 | `max` of a non-empty list is an element of it and no smaller than any element |
| Scene.ViewOf | src/record_display/src/record_display.py:64-65 | the window raises ValueError exactly when there are no waypoints |
| Scene.ViewBoundsWaypoints | src/record_display/src/record_display.py:64-65 | the window is the waypoints' bounding box widened by 0.001: every waypoint lies within the limits moved back in by 0.001, and each limit is a waypoint coordinate moved out by 0.001 |
| Scene.ViewExample | src/record_display/src/record_display.py:64-65 | waypoints (1,2) and (3,4) give the window [1.999, 4.001] by [0.999, 3.001] |
| Scene.Segments | src/record_display/src/record_display.py:80-83 | one dashed line fewer than waypoints, none for fewer than two |
| Scene.SegmentsChain | src/record_display/src/record_display.py:80-83 | the dashed lines form one open chain through the waypoints in order, one fewer than the waypoints |
| Scene.Project | src/record_display/src/record_display.py:69-70 | a detection at distance 0 is drawn at the last position; facing north (cos 1, sin 0) it is drawn `dis` × 1e-5 degrees north |
| Scene.ProjectNorthExample | src/record_display/src/record_display.py:69-70 | facing north, an object 10 units ahead of (1.0, 2.0) is drawn at (1.0001, 2.0) |
| Waypoints.TokenWaypoint | src/record_display/src/record_display.py:48-53 | a token raises IndexError exactly when it has no comma, and otherwise can only raise ValueError |
| Waypoints.Coordinates | src/record_display/src/record_display.py:39-56 | a document whose last element has no text fails to load |
| Waypoints.LoadNeedsText | src/record_display/src/record_display.py:39-56 | a document loads only if every coordinates element has text |
| Waypoints.ConvertTokens | src/record_display/src/record_display.py:46-53 | the inner loop over one element's tokens returns their waypoints or the first exception, exactly as `TokensWaypoints` specifies |
| Waypoints.ExtractCoordinates | src/record_display/src/record_display.py:39-56 | the nested loop over elements and tokens returns the waypoints or the first exception, exactly as `Coordinates` specifies |
| Waypoints.TokensPointwise | src/record_display/src/record_display.py:46-53 | a token list converts exactly when every token does, giving each token's waypoint in order |
| Waypoints.CoordinatesPointwise | src/record_display/src/record_display.py:39-56 | a document whose elements all have text loads exactly when every token converts, giving one waypoint per token in document order |
| Waypoints.ShortTokenRaises | src/record_display/src/record_display.py:48-51 | a token without a comma raises IndexError |
| Waypoints.ExtraPartsIgnored | src/record_display/src/record_display.py:48-53 | an altitude or any further part does not change the waypoint |
| Waypoints.TokenSwapsOrder | src/record_display/src/record_display.py:48-53 | `lon,lat` becomes the point (lat, lon); the latitude is converted first, and a failure of either raises ValueError |
| Waypoints.NoElementsNoWaypoints | src/record_display/src/record_display.py:39-56 | a document without coordinate elements loads as an empty route |
| Recorder.Initial | src/record_display/src/record_display.py:22-25 | the node starts with an empty, paired path and with both flags falsy |
| Recorder.Fixed | src/record_display/src/record_display.py:119-120 | a fix is appended as the last latitude and the last longitude, and nothing else changes |
| Recorder.Turned | src/record_display/src/record_display.py:109 | a compass reading sets the heading to its value in radians, and nothing else changes |
| Recorder.AsWrittenFlag | src/record_display/src/record_display.py:125-126 | the stored flag is the string 'True' exactly for the field "1", else 'False', and is truthy either way |
| Recorder.Render | src/record_display/src/record_display.py:58-106 | a render keeps the path well formed and changes nothing but the two flags |
| Recorder.Detected | src/record_display/src/record_display.py:123-128 | a detection record never changes the path or the heading |
| Recorder.OnFix | src/record_display/src/record_display.py:115-121 | the fix handler keeps latitudes and longitudes paired |
| Recorder.OnDetection | src/record_display/src/record_display.py:123-132 | the detection handler keeps latitudes and longitudes paired |
| Recorder.OnState | src/record_display/src/record_display.py:112-113 | the state handler keeps latitudes and longitudes paired |
| Recorder.DashedRoute | src/record_display/src/record_display.py:80-83 | the loop draws exactly the chain of segments between consecutive waypoints |
| Recorder.RecorderNode.constructor | src/record_display/src/record_display.py:21-25 | the node starts with an empty path, heading 0, the flags `False` and `0`, and the given waypoints and map path |
| Recorder.RecorderNode.PlotPath | src/record_display/src/record_display.py:58-106 | the frame drawn and the new flags are exactly those of `Render` |
| Recorder.RecorderNode.ImuCallback | src/record_display/src/record_display.py:108-109 | the heading becomes the reading in radians; nothing else changes |
| Recorder.RecorderNode.StateCallback | src/record_display/src/record_display.py:112-113 | renders with the received state, as `OnState` specifies |
| Recorder.RecorderNode.GpsCallback | src/record_display/src/record_display.py:115-121 | appends the fix, then renders, as `OnFix` specifies |
| Recorder.RecorderNode.DetectionCallback | src/record_display/src/record_display.py:123-132 | field-by-field updates with early exceptions, then a render, as `OnDetection` specifies |
| Recorder.Launch | src/record_display/src/record_display.py:21-25 | start-up fails exactly when the waypoints fail to load, with the same exception; otherwise a fresh node in its initial state |
| Recorder.RenderWithoutWaypoints | src/record_display/src/record_display.py:64 | without waypoints every render raises ValueError and changes nothing |
| Recorder.RenderScene | src/record_display/src/record_display.py:58-106 | a frame shows every waypoint, every recorded position in order, the chain of dashed lines and the waypoint window; it is saved to the map path exactly on "stop" |
| Recorder.RenderDetections | src/record_display/src/record_display.py:68-77 | a cross is drawn exactly when its flag is truthy and a position is known, at the projection from the last position; a drawn cross's flag becomes `False`, and an undrawn one keeps its value |
| Recorder.RenderConsumesOnce | src/record_display/src/record_display.py:68-77 | after a render with a known position no flag is truthy, so the next render draws no cross |
| Recorder.RenderWithoutPosition | src/record_display/src/record_display.py:68-77 | before the first fix a render draws no cross and leaves the flags armed |
| Recorder.ViewIgnoresPath | src/record_display/src/record_display.py:64-65 | the window depends only on the waypoints, not on the path, heading, flags or state |
| Recorder.FixAppends | src/record_display/src/record_display.py:115-121 | a fix appends exactly one latitude and one longitude and leaves the heading and distances alone |
| Recorder.HeadingLastWriteWins | src/record_display/src/record_display.py:108-109 | the heading is overwritten by the latest reading in radians, and nothing else changes |
| Recorder.DetectionArity | src/record_display/src/record_display.py:124 | a record unpacks exactly when it has three commas; otherwise it raises ValueError before any change |
| Recorder.DetectionPartialUpdates | src/record_display/src/record_display.py:124-128 | flags first, then the cone distance, then the marker distance; a rejected distance raises and keeps it and every later field unchanged |
| Recorder.WellFormedRecordArmsBoth | src/record_display/src/record_display.py:125-126 | after any four-field record both flags are truthy |
| Recorder.FlagSemantics | src/record_display/src/record_display.py:125-126 | the stored flag is always truthy; the boolean the `== '1'` test computes is true only for "1"; the two differ exactly on other fields |
| Recorder.RecordThenFixDrawsBoth | src/record_display/src/record_display.py:123-132 | after a four-field record that raised, or that arrived before the first fix, the next fix draws both a cone and a marker |
| Recorder.ParsedRecordDrawsBoth | src/record_display/src/record_display.py:123-132 | once a position is recorded, the detection handler's own frame draws both a cone and a marker for every record that parses, "0,0,…" included, and leaves neither flag truthy |
| Recorder.ParsedRecordThenFixDrawsNone | src/record_display/src/record_display.py:123-132 | after a record that parses, with a position recorded, the next fix draws no cone and no marker |
| Recorder.MalformedDistanceExample | src/record_display/src/record_display.py:124-127 | "1,0,abc,3" stores 'True' and 'False', raises ValueError, and keeps both distances |
| Session.Handle | src/record_display/src/record_display.py:27-30 | each message goes to its callback; every message but a compass reading yields one frame or the exception its callback raised |
| Session.Run | src/record_display/src/record_display.py:27-30 | handling messages in order keeps latitudes and longitudes paired |
| Session.RunRecordsFixes | src/record_display/src/record_display.py:115-121 | the recorded path is exactly the received fixes, in order with repeats, after the initial path |
| Session.RunFramesPerEvent | src/record_display/src/record_display.py:108-132 | a run yields one entry per fix, detection and state message (the frame, or the exception its callback raised) and none per compass reading |
| Session.RunSavesOncePerStop | src/record_display/src/record_display.py:97-106 | with waypoints loaded, the map is saved once per "stop" message and at no other time |
| Session.NoMarkerWithoutDetection | src/record_display/src/record_display.py:68-77 | without detection messages no flag becomes truthy and no frame shows a cross |
| Session.FreshNodeDrawsNoMarkers | src/record_display/src/record_display.py:25 | a new node draws no cross until its first detection message |

## Left out

- ROS plumbing is not modelled: `rospy.init_node`, the parameter server, subscriptions, message types and the `__main__` block. Delivered messages become `Session.Event` values handled one at a time, so concurrent callbacks are not modelled.
- Drawing, publishing and saving are not modelled: the matplotlib calls, `CvBridge`, the image publisher and `savefig`. A render yields a `Scene` value instead, and `savedTo` records the save.
- Recorder.RenderScene: each frame is modelled as holding only what that call draws. matplotlib keeps adding to the same figure until the `plt.close()` after a save, so frames accumulate earlier drawings.
- Logging (`rospy.loginfo`) is left out, including the log line in the detection handler. It changes no state.
- Reading and parsing the KML file is left out. `Waypoints` starts from the texts of the `<coordinates>` elements in document order; `None` stands for an element without text. File-not-found and XML errors are therefore not modelled.
- Python's `float`, `math.radians`, `math.cos` and `math.sin` are parameters (`Python.Builtins`) because floating-point rounding is not modelled. Coordinates, headings and distances are exact reals.
- PyText.ParseFloat: a stand-alone reference reading of `float()` for ASCII decimal literals with sign, point and exponent. It does not accept `inf`, `nan`, `infinity`, `_` digit separators or non-ASCII decimal digits such as `'３'`, all of which Python's `float()` accepts. The node's handlers use the `Builtins` parameter, not this function, so no handler property depends on it.
- PyText.ParseFloatNeedsDigit: holds of `ParseFloat`, not of Python's `float()`, which also accepts `'nan'`, `'inf'`, `'infinity'` and non-ASCII digits.
- Recorder.MalformedDistanceExample: takes `float('abc')` raising as a hypothesis on the `Builtins` parameter rather than deriving it from `ParseFloat`.
- The initial `cone_dis = False` is modelled as the distance `0.0`, the value `False` takes in arithmetic.
