/**
 * What the two C# body tracking windows (`sample/csharp/index_map` and
 * `sample/csharp/skeleton`, `MainWindow.xaml.cs`) share: the head of each
 * `Window_Loaded` iteration (capture, enqueue, pop, each in a `using` scope),
 * the scopes closing, and `Window_Closing`.
 */
module CsLoop {
  import opened Handles
  import opened Pipeline

  /** The `using` scopes closing, innermost first: colour image, body frame, capture. */
  function Dispose(e: Env): (e': Env)
    ensures e'.slots == e.slots - {Color, BodyFrame, Capture} && e'.owned == e.owned - {Color, BodyFrame, Capture}
    ensures e'.mats == e.mats && e'.leaked == e.leaked
  {
    Reset(Reset(Reset(e, Color), BodyFrame), Capture)
  }

  /** Leaving the `using` scopes from any state that holds only their handles leaves every handle empty. */
  lemma DisposeClean(e: Env)
    requires Owns(e) && e.slots.Keys <= {Capture, BodyFrame, Color}
    ensures Clean(Dispose(e)) && Dispose(e).mats == e.mats
  {
  }

  lemma DisposeSound(e: Env)
    requires Sound(e)
    ensures Sound(Dispose(e))
  {
    ResetSound(e, Color);
    ResetSound(Reset(e, Color), BodyFrame);
    ResetSound(Reset(Reset(e, Color), BodyFrame), Capture);
  }

  /**
   * The head of an iteration: `GetCapture`, `EnqueueCapture` and `PopResult`
   * wait without a timeout and throw when they do not succeed; when the
   * tracker throws, the capture's `using` scope disposes the capture.
   */
  function Tracking(e: Env, i: TickInput): (n: Next)
    ensures n.Continue? <==> Tracked(i)
    ensures !n.Continue? ==> n.Fatal?
  {
    match FrameCpp(e, i.wait, false)
    case Continue(e1) =>
      (match TrackCpp(e1, i.enqueue, i.pop)
       case Fatal(e2, cause) => Fatal(Reset(e2, Capture), cause)
       case n => n)
    case n => n
  }

  /** From an empty state the head either holds exactly the capture and the body frame or has thrown with every handle empty. */
  lemma TrackingHolds(e: Env, i: TickInput)
    requires Clean(e)
    ensures var n := Tracking(e, i);
      && n.env.mats == e.mats
      && (n.Continue? ==> Owns(n.env) && n.env.slots.Keys <= {Capture, BodyFrame} && Capture in n.env.slots && BodyFrame in n.env.slots)
      && (!n.Continue? ==> Clean(n.env))
  {
    if i.wait.Succeeded? {
      var x0 := Assign(e, Capture, true, GetCapture);
      OwnsAssign(e, Capture, true, GetCapture);
      OwnsTouch(x0, Capture, Enqueue);
      if Tracked(i) {
        OwnsAssign(Touch(x0, Capture, Enqueue), BodyFrame, true, PopResult);
      }
    }
  }

  lemma TrackingSound(e: Env, i: TickInput)
    requires Sound(e)
    ensures Sound(Tracking(e, i).env)
  {
    if i.wait.Succeeded? {
      var x0 := Assign(e, Capture, true, GetCapture);
      AssignSound(e, Capture, true, GetCapture);
      TouchSound(x0, Capture, Enqueue);
      AssignSound(Touch(x0, Capture, Enqueue), BodyFrame, true, PopResult);
      ResetSound(Touch(x0, Capture, Enqueue), Capture);
    }
  }

  /** Which fields of the window still refer to an SDK object (`null` is `false`). */
  datatype Fields = Fields(tracker: bool, transformation: bool, device: bool)

  /** The SDK calls `Window_Closing` makes. */
  datatype Call = TrackerShutdown | TrackerDispose | TransformationDispose | CameraStop | DeviceDispose

  /** `Window_Closing`: each block is guarded by a null check and sets its field to null. */
  function Closing(f: Fields): (r: (Fields, seq<Call>))
    ensures r.0 == Fields(false, false, false)
  {
    var t := if f.tracker then [TrackerShutdown, TrackerDispose] else [];
    var x := if f.transformation then [TransformationDispose] else [];
    var d := if f.device then [CameraStop, DeviceDispose] else [];
    (Fields(false, false, false), t + x + d)
  }

  /** Every teardown call, in the order `Window_Closing` writes them. */
  const ClosingOrder: seq<Call> := [TrackerShutdown, TrackerDispose, TransformationDispose, CameraStop, DeviceDispose]

  /** The object a call is made on is still referenced. */
  predicate Present(f: Fields, c: Call) {
    match c
    case TrackerShutdown => f.tracker
    case TrackerDispose => f.tracker
    case TransformationDispose => f.transformation
    case _ => f.device
  }

  /** The calls of `s` whose object is still referenced, in order. */
  function Keep(f: Fields, s: seq<Call>): (r: seq<Call>)
    ensures |r| <= |s|
  {
    if s == [] then [] else (if Present(f, s[0]) then [s[0]] else []) + Keep(f, s[1..])
  }

  /**
   * `Window_Closing` makes exactly the teardown calls whose object is still
   * referenced, in the fixed order tracker, transformation, device.
   */
  lemma ClosingKeeps(f: Fields)
    ensures Closing(f).1 == Keep(f, ClosingOrder)
  {
    var d := if f.device then [CameraStop, DeviceDispose] else [];
    assert Keep(f, [DeviceDispose]) == (if f.device then [DeviceDispose] else []) by {
      assert [DeviceDispose][1..] == [];
    }
    assert Keep(f, [CameraStop, DeviceDispose]) == d by {
      assert [CameraStop, DeviceDispose][1..] == [DeviceDispose];
    }
    assert Keep(f, [TransformationDispose, CameraStop, DeviceDispose]) == (if f.transformation then [TransformationDispose] else []) + d by {
      assert [TransformationDispose, CameraStop, DeviceDispose][1..] == [CameraStop, DeviceDispose];
    }
    assert ClosingOrder[1..] == [TrackerDispose, TransformationDispose, CameraStop, DeviceDispose];
    assert ClosingOrder[1..][1..] == [TransformationDispose, CameraStop, DeviceDispose];
  }

  /** Position of a call in the fixed teardown order. */
  function Position(c: Call): nat {
    match c
    case TrackerShutdown => 0
    case TrackerDispose => 1
    case TransformationDispose => 2
    case CameraStop => 3
    case DeviceDispose => 4
  }

  predicate Ordered(s: seq<Call>) {
    forall j, k | 0 <= j < k < |s| :: Position(s[j]) < Position(s[k])
  }

  /** Dropping calls keeps the survivors in order. */
  lemma {:induction false} KeepOrdered(f: Fields, s: seq<Call>)
    requires Ordered(s)
    ensures Ordered(Keep(f, s))
  {
    if s != [] {
      KeepOrdered(f, s[1..]);
      KeepPresent(f, s[1..]);
      var rest := Keep(f, s[1..]);
      forall c | c in rest ensures Position(s[0]) < Position(c) {
        RankAfterHead(s, c);
      }
    }
  }

  /** The filter's meaning: a call is kept exactly when it is in `s` and its object is still referenced. */
  lemma {:induction false} KeepMeans(f: Fields, s: seq<Call>)
    ensures forall c :: c in Keep(f, s) <==> c in s && Present(f, c)
  {
    if s != [] {
      KeepMeans(f, s[1..]);
      assert s == [s[0]] + s[1..];
    }
  }

  /** Every call kept comes from `s` and is made on an object still referenced. */
  lemma {:induction false} KeepPresent(f: Fields, s: seq<Call>)
    ensures forall c | c in Keep(f, s) :: c in s && Present(f, c)
  {
    if s != [] {
      KeepPresent(f, s[1..]);
    }
  }

  /** In an ordered sequence every later call ranks above the first. */
  lemma RankAfterHead(s: seq<Call>, c: Call)
    requires Ordered(s) && s != [] && c in s[1..]
    ensures Position(s[0]) < Position(c)
  {
    var m :| 0 <= m < |s[1..]| && s[1..][m] == c;
    assert s[m + 1] == c;
  }

  /**
   * The tracker is shut down and disposed before the transformation is
   * disposed, and that before the cameras stop and the device is disposed;
   * no call is made twice and none on an object already gone.
   */
  lemma ClosingOrdered(f: Fields)
    ensures Ordered(Closing(f).1)
    ensures forall c | c in Closing(f).1 :: Present(f, c)
  {
    ClosingKeeps(f);
    KeepOrdered(f, ClosingOrder);
    KeepPresent(f, ClosingOrder);
  }

  /** Closing twice is closing once: the second call finds every field null and makes no call. */
  lemma ClosingIdempotent(f: Fields)
    ensures Closing(Closing(f).0) == (Closing(f).0, [])
  {
  }
}
