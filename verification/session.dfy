/**
 * The life of a sample object around its main loop: the constructor's
 * `initialize` (devices counted, device opened and started, calibration,
 * transformation, tracker, recording or playback, viewer), the loop, and
 * the destructor's `finalize`. Each SDK call the samples make at startup or
 * shutdown is one `Call`; the resources they open and close are `Resource`s.
 */
module Session {
  import opened Handles
  import opened Samples

  /** The SDK and GUI calls made by `initialize` and `finalize`. */
  datatype Call =
    | CountDevices | OpenDevice | StartCameras | GetCalibration
    | CreateTransformation | CreateTracker | SetSmoothing | CreateViewer
    | CreateRecord | WriteHeader | OpenPlayback
    | DestroyTracker | DestroyTransformation | FlushRecord | CloseRecord
    | StopCameras | CloseDevice | ClosePlayback | DestroyWindows | CloseViewer

  /** What a sample holds open between its construction and its destruction. */
  datatype Resource = Device | Cameras | Transformer | Tracker | Recording | Playback | Viewer

  /** What startup sees from outside: the installed device count, whether the tracker could be created, and whether the playback path names an existing regular file. */
  datatype World = World(devices: nat, trackerMade: bool, fileFound: bool)

  /** The calls made so far, and whether the last of them threw. */
  datatype Startup = Startup(calls: seq<Call>, threw: bool)

  /** The resource a call opens, if any. */
  function Opens(c: Call): seq<Resource> {
    match c
    case OpenDevice => [Device]
    case StartCameras => [Cameras]
    case CreateTransformation => [Transformer]
    case CreateTracker => [Tracker]
    case CreateRecord => [Recording]
    case OpenPlayback => [Playback]
    case CreateViewer => [Viewer]
    case _ => []
  }

  /** The resource a call closes, if any. */
  function Closes(c: Call): seq<Resource> {
    match c
    case StopCameras => [Cameras]
    case CloseDevice => [Device]
    case DestroyTransformation => [Transformer]
    case DestroyTracker => [Tracker]
    case CloseRecord => [Recording]
    case ClosePlayback => [Playback]
    case CloseViewer => [Viewer]
    case _ => []
  }

  /** The resources a sequence of calls opens, in order. */
  function Acquired(calls: seq<Call>): seq<Resource>
    decreases |calls|
  {
    if |calls| == 0 then [] else Opens(calls[0]) + Acquired(calls[1..])
  }

  /** The resources a sequence of calls closes, in order. */
  function Released(calls: seq<Call>): seq<Resource>
    decreases |calls|
  {
    if |calls| == 0 then [] else Closes(calls[0]) + Released(calls[1..])
  }

  function Reverse<T>(s: seq<T>): (r: seq<T>)
    ensures |r| == |s|
    ensures forall j :: 0 <= j < |s| ==> r[j] == s[|s| - 1 - j]
    decreases |s|
  {
    if |s| == 0 then [] else Reverse(s[1..]) + [s[0]]
  }

  lemma {:induction false} AcquiredAppend(a: seq<Call>, b: seq<Call>)
    ensures Acquired(a + b) == Acquired(a) + Acquired(b)
    decreases |a|
  {
    if |a| > 0 {
      assert (a + b)[1..] == a[1..] + b;
      AcquiredAppend(a[1..], b);
    } else {
      assert a + b == b;
    }
  }

  /** Whether the sample runs from a device (every sample except playback of a file). */
  predicate Live(s: Sample) {
    !(s.CppPlayback? && s.file)
  }

  /** Whether the sample needs the device calibration. */
  predicate Calibrates(s: Sample) {
    s.CTransformation? || s.CIndexMap? || s.CppIndexMap? || s.CSkeleton? || s.CppSkeleton? || s.CppPlayback? || s.CppPointCloud?
  }

  /** Whether the sample creates a transformation from the calibration. */
  predicate Transforms(s: Sample) {
    s.CTransformation? || s.CIndexMap? || s.CppIndexMap? || s.CppPlayback? || s.CppPointCloud?
  }

  /** Whether the sample runs the body tracker. */
  predicate Tracks(s: Sample) {
    s.CIndexMap? || s.CppIndexMap? || s.CSkeleton? || s.CppSkeleton?
  }

  /** Whether the sample writes a recording. */
  predicate Records(s: Sample) {
    s.CRecord? || s.CppRecord?
  }

  /** Runs `b` only when `a` did not throw. */
  function Then(a: Startup, b: Startup): (r: Startup)
    ensures r.threw == (a.threw || b.threw)
  {
    if a.threw then a else Startup(a.calls + b.calls, b.threw)
  }

  /** `initialize_sensor`: no installed device throws before anything is opened. */
  function Sensor(s: Sample, w: World): Startup {
    if w.devices == 0 then Startup([CountDevices], true)
    else
      var calibration := if Calibrates(s) then [GetCalibration] else [];
      var transformation := if Transforms(s) then [CreateTransformation] else [];
      Startup([CountDevices, OpenDevice, StartCameras] + calibration + transformation, false)
  }

  /** `initialize_playback`: a path that is not an existing regular file throws before the recording is opened. */
  function PlaybackOpen(w: World): Startup {
    if !w.fileFound then Startup([], true)
    else Startup([OpenPlayback, GetCalibration, CreateTransformation], false)
  }

  /** `initialize_body_tracking`: a tracker that cannot be created throws; the skeleton viewers then set temporal smoothing. */
  function BodyTracking(s: Sample, w: World): Startup {
    if !w.trackerMade then Startup([CreateTracker], true)
    else Startup([CreateTracker] + (if s.CSkeleton? || s.CppSkeleton? then [SetSmoothing] else []), false)
  }

  /** `initialize_record`: the recording is created and its header written straight away. */
  const RecordOpen: Startup := Startup([CreateRecord, WriteHeader], false)

  /** `initialize` of each sample. */
  function Initialize(s: Sample, w: World): Startup {
    match s
    case CppPlayback(file) => if file then PlaybackOpen(w) else Sensor(s, w)
    case CppPointCloud(viz) => Then(Sensor(s, w), Startup(if viz then [CreateViewer] else [], false))
    case CRecord => Then(Sensor(s, w), RecordOpen)
    case CppRecord => Then(Sensor(s, w), RecordOpen)
    case _ => if Tracks(s) then Then(Sensor(s, w), BodyTracking(s, w)) else Sensor(s, w)
  }

  /** `finalize` of each sample. */
  function Finalize(s: Sample): seq<Call> {
    match s
    case CTransformation => [DestroyTransformation, StopCameras, CloseDevice, DestroyWindows]
    case CIndexMap => [DestroyTracker, DestroyTransformation, StopCameras, CloseDevice, DestroyWindows]
    case CppIndexMap => [DestroyTracker, StopCameras, CloseDevice, DestroyWindows]
    case CSkeleton => [DestroyTracker, StopCameras, CloseDevice, DestroyWindows]
    case CppSkeleton => [DestroyTracker, StopCameras, CloseDevice, DestroyWindows]
    case CppPlayback(file) =>
      if file then [DestroyTransformation, ClosePlayback, DestroyWindows]
      else [DestroyTransformation, StopCameras, CloseDevice, DestroyWindows]
    case CppPointCloud(viz) =>
      if viz then [DestroyTransformation, StopCameras, CloseDevice, DestroyWindows, CloseViewer]
      else [DestroyTransformation, StopCameras, CloseDevice, DestroyWindows]
    case CRecord => [FlushRecord, CloseRecord, StopCameras, CloseDevice, DestroyWindows]
    case CppRecord => [FlushRecord, CloseRecord, StopCameras, CloseDevice, DestroyWindows]
    case _ => [StopCameras, CloseDevice, DestroyWindows]
  }

  /**
   * Startup throws exactly when a device is needed and none is installed,
   * when the tracker cannot be created, or when the playback path is not a
   * file; the device is opened exactly when it is needed and one is
   * installed, so no device means the throw comes before any open.
   */
  lemma StartupThrows(s: Sample, w: World)
    ensures Initialize(s, w).threw <==>
      if Live(s) then w.devices == 0 || (Tracks(s) && !w.trackerMade) else !w.fileFound
    ensures OpenDevice in Initialize(s, w).calls <==> Live(s) && w.devices != 0
    ensures OpenPlayback in Initialize(s, w).calls <==> !Live(s) && w.fileFound
    ensures Live(s) && w.devices == 0 ==> Initialize(s, w).calls == [CountDevices]
  {
    if Live(s) {
      LiveStartup(s, w);
      var a, b := Sensor(s, w), AfterSensor(s, w);
      if w.devices != 0 {
        assert a.calls[1] == OpenDevice;
        assert Initialize(s, w).calls == a.calls + b.calls;
        assert Initialize(s, w).calls[1] == OpenDevice;
      }
    } else if w.fileFound {
      assert Initialize(s, w).calls[0] == OpenPlayback;
    }
  }

  /** What a live sample's `initialize` does once the sensor is up. */
  function AfterSensor(s: Sample, w: World): Startup {
    if Tracks(s) then BodyTracking(s, w)
    else if Records(s) then RecordOpen
    else if s.CppPointCloud? && s.viz then Startup([CreateViewer], false)
    else Startup([], false)
  }

  /** A live startup brings the sensor up and then does the sample's own part, which opens neither the device nor a recording. */
  lemma LiveStartup(s: Sample, w: World)
    requires Live(s)
    ensures Initialize(s, w) == Then(Sensor(s, w), AfterSensor(s, w))
    ensures AfterSensor(s, w).threw <==> Tracks(s) && !w.trackerMade
    ensures OpenDevice !in AfterSensor(s, w).calls && OpenPlayback !in AfterSensor(s, w).calls
  {
    if !Tracks(s) && !Records(s) && !s.CppPointCloud? {
      assert Sensor(s, w).calls + [] == Sensor(s, w).calls;
    }
    if s.CppPointCloud? && !s.viz {
      assert Sensor(s, w).calls + [] == Sensor(s, w).calls;
    }
  }

  /** The calls a successful `initialize` makes, written out sample by sample. */
  function Script(s: Sample): seq<Call> {
    match s
    case CTransformation => [CountDevices, OpenDevice, StartCameras, GetCalibration, CreateTransformation]
    case CIndexMap => [CountDevices, OpenDevice, StartCameras, GetCalibration, CreateTransformation, CreateTracker]
    case CppIndexMap => [CountDevices, OpenDevice, StartCameras, GetCalibration, CreateTransformation, CreateTracker]
    case CSkeleton => [CountDevices, OpenDevice, StartCameras, GetCalibration, CreateTracker, SetSmoothing]
    case CppSkeleton => [CountDevices, OpenDevice, StartCameras, GetCalibration, CreateTracker, SetSmoothing]
    case CppPlayback(file) =>
      if file then [OpenPlayback, GetCalibration, CreateTransformation]
      else [CountDevices, OpenDevice, StartCameras, GetCalibration, CreateTransformation]
    case CppPointCloud(viz) =>
      if viz then [CountDevices, OpenDevice, StartCameras, GetCalibration, CreateTransformation, CreateViewer]
      else [CountDevices, OpenDevice, StartCameras, GetCalibration, CreateTransformation]
    case CRecord => [CountDevices, OpenDevice, StartCameras, CreateRecord, WriteHeader]
    case CppRecord => [CountDevices, OpenDevice, StartCameras, CreateRecord, WriteHeader]
    case _ => [CountDevices, OpenDevice, StartCameras]
  }

  /** The sensor is started before anything else is set up. */
  lemma SensorCalls(s: Sample, w: World)
    requires w.devices != 0
    ensures Sensor(s, w).calls ==
      [CountDevices, OpenDevice, StartCameras] + (if Calibrates(s) then [GetCalibration] else []) + (if Transforms(s) then [CreateTransformation] else [])
    ensures !Sensor(s, w).threw
  {
  }

  /** A startup that does not throw makes exactly the calls of the sample's script, in order. */
  lemma StartupScript(s: Sample, w: World)
    requires !Initialize(s, w).threw
    ensures Initialize(s, w).calls == Script(s)
  {
    if Live(s) {
      SensorCalls(s, w);
      var head := [CountDevices, OpenDevice, StartCameras];
      if Calibrates(s) && Transforms(s) {
        assert Sensor(s, w).calls == head + [GetCalibration, CreateTransformation];
      } else if Calibrates(s) {
        assert Sensor(s, w).calls == head + [GetCalibration];
      } else {
        assert Sensor(s, w).calls == head;
      }
    }
  }

  /**
   * The recorders write the header once, right after creating the
   * recording, and create the recording only once the cameras run; no other
   * sample writes a header.
   */
  lemma HeaderOnce(s: Sample, w: World)
    requires !Initialize(s, w).threw
    ensures var c := Initialize(s, w).calls;
      Records(s) ==> exists j :: 2 < j < |c| - 1 && c[j] == CreateRecord && c[j + 1] == WriteHeader && c[2] == StartCameras
    ensures var c := Initialize(s, w).calls;
      Records(s) ==> forall j :: 0 <= j < |c| && c[j] == WriteHeader ==> j == |c| - 1
    ensures !Records(s) ==> WriteHeader !in Initialize(s, w).calls
  {
    StartupScript(s, w);
    if Records(s) {
      RecorderScript(s);
      var c := Initialize(s, w).calls;
      assert c[2] == StartCameras && c[3] == CreateRecord && c[4] == WriteHeader;
    } else {
      NoHeader(s);
    }
  }

  lemma RecorderScript(s: Sample)
    requires Records(s)
    ensures Script(s) == [CountDevices, OpenDevice, StartCameras, CreateRecord, WriteHeader]
  {
  }

  lemma NoHeader(s: Sample)
    requires !Records(s)
    ensures WriteHeader !in Script(s)
  {
  }

  /** What a started sample holds open, in the order it opened it. */
  function Held(s: Sample): seq<Resource> {
    match s
    case CTransformation => [Device, Cameras, Transformer]
    case CIndexMap => [Device, Cameras, Transformer, Tracker]
    case CppIndexMap => [Device, Cameras, Transformer, Tracker]
    case CSkeleton => [Device, Cameras, Tracker]
    case CppSkeleton => [Device, Cameras, Tracker]
    case CppPlayback(file) => if file then [Playback, Transformer] else [Device, Cameras, Transformer]
    case CppPointCloud(viz) => if viz then [Device, Cameras, Transformer, Viewer] else [Device, Cameras, Transformer]
    case CRecord => [Device, Cameras, Recording]
    case CppRecord => [Device, Cameras, Recording]
    case _ => [Device, Cameras]
  }

  lemma OpenedSensor()
    ensures Acquired([CountDevices, OpenDevice, StartCameras]) == [Device, Cameras]
  {
  }

  lemma OpenedTransforming()
    ensures Acquired([CountDevices, OpenDevice, StartCameras, GetCalibration, CreateTransformation]) == [Device, Cameras, Transformer]
  {
  }

  lemma OpenedIndexMapping()
    ensures Acquired([CountDevices, OpenDevice, StartCameras, GetCalibration, CreateTransformation, CreateTracker]) == [Device, Cameras, Transformer, Tracker]
  {
  }

  lemma OpenedSkeletons()
    ensures Acquired([CountDevices, OpenDevice, StartCameras, GetCalibration, CreateTracker, SetSmoothing]) == [Device, Cameras, Tracker]
  {
  }

  lemma OpenedPlaying()
    ensures Acquired([OpenPlayback, GetCalibration, CreateTransformation]) == [Playback, Transformer]
  {
  }

  lemma OpenedViewing()
    ensures Acquired([CountDevices, OpenDevice, StartCameras, GetCalibration, CreateTransformation, CreateViewer]) == [Device, Cameras, Transformer, Viewer]
  {
  }

  lemma OpenedRecording()
    ensures Acquired([CountDevices, OpenDevice, StartCameras, CreateRecord, WriteHeader]) == [Device, Cameras, Recording]
  {
    AcquiredCons(WriteHeader, []);
    AcquiredCons(CreateRecord, [WriteHeader]);
    AcquiredCons(StartCameras, [CreateRecord, WriteHeader]);
    AcquiredCons(OpenDevice, [StartCameras, CreateRecord, WriteHeader]);
    AcquiredCons(CountDevices, [OpenDevice, StartCameras, CreateRecord, WriteHeader]);
  }

  lemma ClosedSensor()
    ensures Released([StopCameras, CloseDevice, DestroyWindows]) == [Cameras, Device]
  {
  }

  lemma ClosedTransforming()
    ensures Released([DestroyTransformation, StopCameras, CloseDevice, DestroyWindows]) == [Transformer, Cameras, Device]
  {
  }

  lemma ClosedIndexMapping()
    ensures Released([DestroyTracker, DestroyTransformation, StopCameras, CloseDevice, DestroyWindows]) == [Tracker, Transformer, Cameras, Device]
  {
  }

  lemma ClosedTracking()
    ensures Released([DestroyTracker, StopCameras, CloseDevice, DestroyWindows]) == [Tracker, Cameras, Device]
  {
  }

  lemma ClosedPlaying()
    ensures Released([DestroyTransformation, ClosePlayback, DestroyWindows]) == [Transformer, Playback]
  {
  }

  lemma ClosedViewing()
    ensures Released([DestroyTransformation, StopCameras, CloseDevice, DestroyWindows, CloseViewer]) == [Transformer, Cameras, Device, Viewer]
  {
  }

  lemma ClosedRecording()
    ensures Released([FlushRecord, CloseRecord, StopCameras, CloseDevice, DestroyWindows]) == [Recording, Cameras, Device]
  {
    ClosedSensor();
    ReleasedCons(CloseRecord, [StopCameras, CloseDevice, DestroyWindows]);
    ReleasedCons(FlushRecord, [CloseRecord, StopCameras, CloseDevice, DestroyWindows]);
  }

  lemma ReleasedCons(c: Call, rest: seq<Call>)
    ensures Released([c] + rest) == Closes(c) + Released(rest)
  {
    assert ([c] + rest)[1..] == rest;
  }

  lemma AcquiredCons(c: Call, rest: seq<Call>)
    ensures Acquired([c] + rest) == Opens(c) + Acquired(rest)
  {
    assert ([c] + rest)[1..] == rest;
  }

  /** Each started sample holds what its startup calls opened. */
  lemma ScriptHolds(s: Sample)
    ensures Acquired(Script(s)) == Held(s)
  {
    if Tracks(s) {
      TrackerScriptHolds(s);
    } else if Records(s) {
      RecorderScript(s);
      OpenedRecording();
    } else if Calibrates(s) {
      TransformingScriptHolds(s);
    } else {
      SensorScriptHolds(s);
    }
  }

  lemma TrackerScriptHolds(s: Sample)
    requires Tracks(s)
    ensures Acquired(Script(s)) == Held(s)
  {
    if s.CIndexMap? || s.CppIndexMap? {
      OpenedIndexMapping();
    } else {
      OpenedSkeletons();
    }
  }

  lemma TransformingScriptHolds(s: Sample)
    requires Calibrates(s) && !Tracks(s)
    ensures Acquired(Script(s)) == Held(s)
  {
    if s.CppPlayback? && s.file {
      OpenedPlaying();
    } else if s.CppPointCloud? && s.viz {
      OpenedViewing();
    } else {
      OpenedTransforming();
    }
  }

  lemma SensorScriptHolds(s: Sample)
    requires !Calibrates(s) && !Records(s)
    ensures Acquired(Script(s)) == Held(s)
  {
    OpenedSensor();
  }

  lemma ReversedSensor()
    ensures Reverse([Device, Cameras]) == [Cameras, Device]
  {
  }

  lemma ReversedTransforming()
    ensures Reverse([Device, Cameras, Transformer]) == [Transformer, Cameras, Device]
  {
  }

  lemma ReversedIndexMapping()
    ensures Reverse([Device, Cameras, Transformer, Tracker]) == [Tracker, Transformer, Cameras, Device]
  {
  }

  lemma ReversedTracking()
    ensures Reverse([Device, Cameras, Tracker]) == [Tracker, Cameras, Device]
  {
  }

  lemma ReversedPlaying()
    ensures Reverse([Playback, Transformer]) == [Transformer, Playback]
  {
  }

  lemma ReversedRecording()
    ensures Reverse([Device, Cameras, Recording]) == [Recording, Cameras, Device]
  {
  }

  /** What `finalize` closes, in order. */
  lemma FinalizeCloses(s: Sample)
    ensures !s.CppIndexMap? && !(s.CppPointCloud? && s.viz) ==> Released(Finalize(s)) == Reverse(Held(s))
    ensures s.CppIndexMap? ==> Released(Finalize(s)) == [Tracker, Cameras, Device]
    ensures s.CppPointCloud? && s.viz ==> Released(Finalize(s)) == [Transformer, Cameras, Device, Viewer]
  {
    if Tracks(s) {
      TrackerCloses(s);
    } else if Records(s) {
      ClosedRecording();
      ReversedRecording();
    } else if Calibrates(s) {
      TransformingCloses(s);
    } else {
      ClosedSensor();
      ReversedSensor();
    }
  }

  lemma TrackerCloses(s: Sample)
    requires Tracks(s)
    ensures !s.CppIndexMap? ==> Released(Finalize(s)) == Reverse(Held(s))
    ensures s.CppIndexMap? ==> Released(Finalize(s)) == [Tracker, Cameras, Device]
  {
    if s.CIndexMap? {
      ClosedIndexMapping();
      ReversedIndexMapping();
    } else {
      ClosedTracking();
      ReversedTracking();
    }
  }

  lemma TransformingCloses(s: Sample)
    requires Calibrates(s) && !Tracks(s)
    ensures !(s.CppPointCloud? && s.viz) ==> Released(Finalize(s)) == Reverse(Held(s))
    ensures s.CppPointCloud? && s.viz ==> Released(Finalize(s)) == [Transformer, Cameras, Device, Viewer]
  {
    if s.CppPlayback? && s.file {
      ClosedPlaying();
      ReversedPlaying();
    } else if s.CppPointCloud? && s.viz {
      ClosedViewing();
    } else {
      ClosedTransforming();
      ReversedTransforming();
    }
  }

  /**
   * `finalize` closes exactly what `initialize` opened, in the reverse order,
   * except in the C++ body-index-map viewer, which leaves the transformation
   * to its destructor, and the point cloud viewer built with viz, which
   * closes the viewer last.
   */
  lemma FinalizeReverses(s: Sample, w: World)
    requires !Initialize(s, w).threw
    ensures !s.CppIndexMap? && !(s.CppPointCloud? && s.viz) ==>
      Released(Finalize(s)) == Reverse(Acquired(Initialize(s, w).calls))
    ensures s.CppIndexMap? ==>
      Released(Finalize(s)) == [Tracker, Cameras, Device] && Acquired(Initialize(s, w).calls) == [Device, Cameras, Transformer, Tracker]
    ensures s.CppPointCloud? && s.viz ==>
      Acquired(Initialize(s, w).calls) == [Device, Cameras, Transformer, Viewer]
      && Released(Finalize(s)) == [Transformer, Cameras, Device, Viewer]
  {
    StartupScript(s, w);
    ScriptHolds(s);
    FinalizeCloses(s);
  }

  /**
   * Every sample that opened the device stops the cameras immediately before
   * closing it; playback of a file touches neither.
   */
  lemma CamerasStopBeforeClose(s: Sample)
    ensures Live(s) ==> exists j :: 0 <= j < |Finalize(s)| - 1 && Finalize(s)[j] == StopCameras && Finalize(s)[j + 1] == CloseDevice
    ensures !Live(s) ==> StopCameras !in Finalize(s) && CloseDevice !in Finalize(s)
  {
    var f := Finalize(s);
    if s.CTransformation? || s.CppPlayback? || s.CppPointCloud? || s.CIndexMap? {
      if Live(s) {
        var j := if s.CIndexMap? then 2 else 1;
        assert f[j] == StopCameras && f[j + 1] == CloseDevice;
      }
    } else if Tracks(s) {
      assert f[1] == StopCameras && f[2] == CloseDevice;
    } else if Records(s) {
      assert f[2] == StopCameras && f[3] == CloseDevice;
    } else {
      assert f[0] == StopCameras && f[1] == CloseDevice;
    }
  }

  /** The recorders flush first, then close the recording, then stop the cameras, then close the device. */
  lemma RecordFinalizeOrder(s: Sample)
    requires Records(s)
    ensures Finalize(s)[0] == FlushRecord
    ensures Released(Finalize(s)) == [Recording, Cameras, Device]
  {
    ClosedRecording();
  }

  /**
   * Playback makes the same choice at both ends: a file is opened and later
   * closed instead of the device; the transformation is destroyed first
   * either way.
   */
  lemma PlaybackChoice(file: bool, w: World)
    ensures var f := Finalize(CppPlayback(file));
      f[0] == DestroyTransformation && (ClosePlayback in f <==> file) && (CloseDevice in f <==> !file)
    ensures var c := Initialize(CppPlayback(file), w).calls;
      !Initialize(CppPlayback(file), w).threw ==> (OpenPlayback in c <==> file) && (OpenDevice in c <==> !file)
  {
    StartupThrows(CppPlayback(file), w);
  }

  lemma {:induction false} ReleasedAppend(a: seq<Call>, b: seq<Call>)
    ensures Released(a + b) == Released(a) + Released(b)
    decreases |a|
  {
    if |a| > 0 {
      assert (a + b)[1..] == a[1..] + b;
      ReleasedAppend(a[1..], b);
    } else {
      assert a + b == b;
    }
  }

  lemma {:induction false} AcquiredNone(calls: seq<Call>)
    requires forall j :: 0 <= j < |calls| ==> Opens(calls[j]) == []
    ensures Acquired(calls) == []
    decreases |calls|
  {
    if |calls| > 0 {
      AcquiredNone(calls[1..]);
    }
  }

  lemma {:induction false} ReleasedNone(calls: seq<Call>)
    requires forall j :: 0 <= j < |calls| ==> Closes(calls[j]) == []
    ensures Released(calls) == []
    decreases |calls|
  {
    if |calls| > 0 {
      ReleasedNone(calls[1..]);
    }
  }

  /**
   * Whether `finalize` runs after the loop stops: the destructor runs when
   * `run` returns or throws out of `main`'s scope, and from inside `update`
   * on a timeout; `std::exit` at the end of a recording skips it.
   */
  predicate Finalizes(stop: Stop) {
    stop.Quit? || stop.ViewerClosed? || stop.Threw? || stop.TornDown?
  }

  /**
   * The startup and shutdown calls of one life of a sample object, given how
   * its loop stopped: a constructor that throws leaves no object to destroy;
   * otherwise the destructor's `finalize` follows when the loop stops in a
   * way that destroys the object. `Run` gives the stop.
   */
  function Life(s: Sample, w: World, stop: Stop): seq<Call> {
    var st := Initialize(s, w);
    if st.threw then st.calls
    else if Finalizes(stop) then st.calls + Finalize(s)
    else st.calls
  }

  /** Startup closes nothing and never touches the windows. */
  lemma StartupClosesNothing(s: Sample, w: World)
    ensures forall j :: 0 <= j < |Initialize(s, w).calls| ==> Closes(Initialize(s, w).calls[j]) == []
    ensures DestroyWindows !in Initialize(s, w).calls
  {
    if !Initialize(s, w).threw {
      StartupScript(s, w);
      ScriptClosesNothing(s);
    } else if Live(s) && w.devices != 0 {
      SensorCalls(s, w);
    }
  }

  lemma ScriptClosesNothing(s: Sample)
    ensures forall j :: 0 <= j < |Script(s)| ==> Closes(Script(s)[j]) == []
    ensures DestroyWindows !in Script(s)
  {
  }

  /** `finalize` opens nothing and always closes the windows. */
  lemma FinalizeOpensNothing(s: Sample)
    ensures forall j :: 0 <= j < |Finalize(s)| ==> Opens(Finalize(s)[j]) == []
    ensures DestroyWindows in Finalize(s)
  {
  }

  /**
   * `finalize` runs exactly when startup succeeded and the loop stopped by
   * the quit key, the viewer, an exception or a teardown; when it runs,
   * every resource opened is closed, the last opened first, except in the
   * two samples `FinalizeReverses` names; when it does not run, nothing is
   * closed.
   */
  lemma LifeCloses(s: Sample, w: World, stop: Stop)
    ensures DestroyWindows in Life(s, w, stop) <==> !Initialize(s, w).threw && Finalizes(stop)
    ensures !Initialize(s, w).threw && Finalizes(stop) && !s.CppIndexMap? && !(s.CppPointCloud? && s.viz) ==>
      Released(Life(s, w, stop)) == Reverse(Acquired(Life(s, w, stop)))
    ensures !(!Initialize(s, w).threw && Finalizes(stop)) ==> Released(Life(s, w, stop)) == []
  {
    var st := Initialize(s, w);
    var f := Finalize(s);
    StartupClosesNothing(s, w);
    FinalizeOpensNothing(s);
    ReleasedNone(st.calls);
    if !st.threw && Finalizes(stop) {
      AcquiredAppend(st.calls, f);
      ReleasedAppend(st.calls, f);
      AcquiredNone(f);
      FinalizeReverses(s, w);
      assert Acquired(st.calls + f) == Acquired(st.calls);
      assert Released(st.calls + f) == Released(f);
    }
  }
}
