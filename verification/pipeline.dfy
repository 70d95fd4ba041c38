/**
 * What one iteration of a sample's main loop sees from the outside world, and
 * the stages shared by several samples: acquiring a capture and handing it to
 * the body tracker.
 */
module Pipeline {
  import opened Handles

  /** `k4a_wait_result_t`: the outcome of a blocking SDK call. */
  datatype WaitResult = Succeeded | Failed | Timeout

  /**
   * Everything the SDK and the user decide during one tick: the outcome of
   * the capture request, which images the capture carries, the tracker's
   * answers, and the key `cv::waitKey` returns.
   */
  datatype TickInput = TickInput(
    wait: WaitResult,
    eof: bool,
    color: bool,
    depth: bool,
    infrared: bool,
    enqueue: WaitResult,
    pop: WaitResult,
    indexMap: bool,
    inferenceColor: bool,
    key: int,
    viewerStopped: bool)

  /** Why a tick threw. */
  datatype Cause =
    | CaptureFailed | CaptureTimedOut | EnqueueFailed | PopFailed
    | BodyUnreadable | MissingColor | MissingDepth | MissingIndexMap | ReadFailed

  /** Whether the device and the tracker all answered on this tick. */
  predicate Tracked(i: TickInput) {
    i.wait.Succeeded? && i.enqueue.Succeeded? && i.pop.Succeeded?
  }

  /**
   * How a tick ends: the loop goes on, an exception is thrown, the object
   * destroys itself from inside the tick (`this->~kinect()` on a timeout), or
   * the recording has no more captures.
   */
  datatype Next =
    | Continue(env: Env)
    | Fatal(env: Env, cause: Cause)
    | Teardown(env: Env)
    | EndOfStream(env: Env)

  /** `update_frame` of the C samples: a new capture, an exception, or teardown. */
  function FrameC(e: Env, w: WaitResult): (n: Next)
    ensures n.Continue? <==> w.Succeeded?
    ensures n.Fatal? <==> w.Failed?
  {
    match w
    case Succeeded => Continue(Mint(e, Capture, GetCapture))
    case Failed => Fatal(e, CaptureFailed)
    case Timeout => Teardown(e)
  }

  /**
   * `update_frame` of the C++ samples: the wrapper throws on a failure and
   * returns false on a timeout, after which the sample either destroys itself or throws.
   */
  function FrameCpp(e: Env, w: WaitResult, tearDownOnTimeout: bool): (n: Next)
    ensures n.Continue? <==> w.Succeeded?
    ensures n.Teardown? <==> w.Timeout? && tearDownOnTimeout
  {
    match w
    case Succeeded => Continue(Assign(e, Capture, true, GetCapture))
    case Failed => Fatal(e, CaptureFailed)
    case Timeout => if tearDownOnTimeout then Teardown(e) else Fatal(e, CaptureTimedOut)
  }

  /**
   * `update_body_tracking` of the C samples: enqueue the capture, then pop a
   * body frame; either call may fail (exception) or time out (teardown).
   */
  function TrackC(e: Env, enqueue: WaitResult, pop: WaitResult): (n: Next)
    ensures n.Continue? <==> enqueue.Succeeded? && pop.Succeeded?
    ensures n.Fatal? <==> enqueue.Failed? || (enqueue.Succeeded? && pop.Failed?)
  {
    var e1 := Touch(e, Capture, Enqueue);
    match enqueue
    case Failed => Fatal(e1, EnqueueFailed)
    case Timeout => Teardown(e1)
    case Succeeded =>
      match pop
      case Failed => Fatal(e1, PopFailed)
      case Timeout => Teardown(e1)
      case Succeeded => Continue(Mint(e1, BodyFrame, PopResult))
  }

  /**
   * `update_body_tracking` of the C++ samples: the tracker wrapper throws
   * when either call does not succeed.
   */
  function TrackCpp(e: Env, enqueue: WaitResult, pop: WaitResult): (n: Next)
    ensures n.Continue? <==> enqueue.Succeeded? && pop.Succeeded?
    ensures !n.Continue? ==> n.Fatal?
  {
    var e1 := Touch(e, Capture, Enqueue);
    if !enqueue.Succeeded? then Fatal(e1, EnqueueFailed)
    else if !pop.Succeeded? then Fatal(e1, PopFailed)
    else Continue(Assign(e1, BodyFrame, true, PopResult))
  }

  /** `{r}` when `b` holds, empty otherwise. */
  function Opt(b: bool, r: Role): set<Role> {
    if b then {r} else {}
  }

  /** Whether the capture of this tick carries the image plane `r`. */
  function Carries(i: TickInput, r: Role): bool {
    match r
    case Color => i.color
    case Depth => i.depth
    case Infrared => i.infrared
    case _ => false
  }

  /** The getter that pulls plane `r` out of a capture. */
  function Getter(r: Role): Op {
    match r
    case Color => GetColor
    case Depth => GetDepth
    case Infrared => GetInfrared
    case _ => Decode
  }

  /** `update_color`, `update_depth`, `update_infrared` of the C samples: skipped on a NULL capture. */
  function PlaneC(e: Env, i: TickInput, r: Role): (e': Env)
    ensures Capture in e.slots ==> e'.ok == (e.ok && Capture in e.owned)
    ensures Capture in e.slots ==> e'.slots.Keys == if Carries(i, r) then e.slots.Keys + {r} else e.slots.Keys - {r}
    ensures e'.slots - {r} == e.slots - {r}
    ensures Capture in e.slots && Carries(i, r) ==> e'.owned == e.owned + {r}
    ensures Capture in e.slots && !Carries(i, r) ==> e'.owned == e.owned - {r}
    ensures Capture !in e.slots ==> e' == e
    ensures r !in e.owned ==> e'.leaked == e.leaked
    ensures e'.mats == e.mats
  {
    if Capture in e.slots then Extract(e, Capture, r, Carries(i, r), Getter(r)) else e
  }

  /** One plane getter on a held capture: the plane's pointer owns an image exactly when the capture carried it. */
  lemma PlaneCHeld(e: Env, i: TickInput, r: Role)
    requires e.ok && e.leaked == {} && Capture in e.slots && Capture in e.owned && r != Capture && r !in e.owned
    ensures var e' := PlaneC(e, i, r);
      && e'.ok && e'.leaked == {} && Capture in e'.slots
      && (r in e'.slots <==> Carries(i, r))
      && e'.owned == e.owned + (if Carries(i, r) then {r} else {})
      && e'.slots - {r} == e.slots - {r}
  {
  }

  lemma PlaneCSound(e: Env, i: TickInput, r: Role)
    requires Sound(e)
    ensures Sound(PlaneC(e, i, r))
  {
    if Capture in e.slots {
      ExtractSound(e, Capture, r, Carries(i, r), Getter(r));
    }
  }

  /** A C `draw_*` step: when the pointer is set, fill the Mat and release the image (the pointer keeps its value). */
  function DrawC(e: Env, r: Role): (e': Env)
    ensures r in e.slots ==> e'.owned == e.owned - {r} && e'.ok == (e.ok && r in e.owned) && e'.mats == e.mats + {r}
    ensures r !in e.slots ==> e' == e
    ensures e'.leaked == e.leaked && e'.slots == e.slots
  {
    if r in e.slots then Free(Convert(e, r), r) else e
  }

  lemma DrawCSound(e: Env, r: Role)
    requires Sound(e)
    ensures Sound(DrawC(e, r))
  {
    if r in e.slots {
      ConvertSound(e, r);
      FreeSound(Convert(e, r), r);
    }
  }

  /** A C++ `draw_*` step: when the handle is set, fill the Mat and `reset()` the handle. */
  function DrawCpp(e: Env, r: Role): (e': Env)
    ensures r in e.slots ==> e'.owned == e.owned - {r} && e'.ok == (e.ok && r in e.owned) && e'.mats == e.mats + {r}
    ensures r !in e.slots ==> e' == e
    ensures e'.leaked == e.leaked && e'.slots == e.slots - {r}
  {
    if r in e.slots then Reset(Convert(e, r), r) else e
  }

  /** Under RAII a C++ `draw_*` step keeps every set handle owning, clears `r` and fills its Mat when it was set. */
  lemma OwnsDrawCpp(e: Env, r: Role)
    requires Owns(e)
    ensures var e' := DrawCpp(e, r);
      Owns(e') && e'.slots.Keys == e.slots.Keys - {r} && e'.mats == e.mats + (if r in e.slots then {r} else {})
  {
  }

  lemma DrawCppSound(e: Env, r: Role)
    requires Sound(e)
    ensures Sound(DrawCpp(e, r))
  {
    if r in e.slots {
      ConvertSound(e, r);
      ResetSound(Convert(e, r), r);
    }
  }
}
