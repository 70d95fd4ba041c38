/**
 * The C skeleton viewer (`sample/c/skeleton/kinect.cpp`): each tick takes a
 * capture, runs the body tracker, pulls the colour image the tracker used
 * out of the body frame's capture, copies every body out of the frame, and
 * releases the capture and the frame; `draw` converts and releases the
 * colour image. Releases do not clear the pointers.
 */
module SkeletonC {
  import opened Handles
  import opened Pipeline

  /**
   * `update_inference`: the capture the body frame was computed from, its
   * colour image (NULL when it has none), then release of that capture.
   */
  function Inference(e: Env, i: TickInput): (e': Env)
    ensures e'.ok == (e.ok && BodyFrame in e.owned)
    ensures e'.owned == (if i.inferenceColor then e.owned + {Color} else e.owned - {Color}) - {FrameCapture}
    ensures Color in e'.slots <==> i.inferenceColor
    ensures Capture in e'.slots <==> Capture in e.slots
    ensures BodyFrame in e'.slots <==> BodyFrame in e.slots
    ensures FrameCapture !in e.owned && Color !in e.owned ==> e'.leaked == e.leaked
    ensures e'.mats == e.mats
  {
    var e1 := Extract(e, BodyFrame, FrameCapture, true, GetFrameCapture);
    Free(Extract(e1, FrameCapture, Color, i.inferenceColor, GetColor), FrameCapture)
  }

  lemma InferenceSound(e: Env, i: TickInput)
    requires Sound(e)
    ensures Sound(Inference(e, i))
  {
    var e1 := Extract(e, BodyFrame, FrameCapture, true, GetFrameCapture);
    ExtractSound(e, BodyFrame, FrameCapture, true, GetFrameCapture);
    ExtractSound(e1, FrameCapture, Color, i.inferenceColor, GetColor);
    FreeSound(Extract(e1, FrameCapture, Color, i.inferenceColor, GetColor), FrameCapture);
  }

  /**
   * `update`: frame, body tracking, inference image, `update_skeleton`
   * (which throws when a skeleton cannot be read), then release of the
   * capture and the body frame.
   */
  function Update(e: Env, i: TickInput, skeletons: bool): Next {
    match FrameC(e, i.wait)
    case Continue(e1) =>
      (match TrackC(e1, i.enqueue, i.pop)
       case Continue(e2) => Bodies(Inference(e2, i), skeletons)
       case n => n)
    case n => n
  }

  /** `update_skeleton` and the two releases that end `update`. */
  function Bodies(e: Env, skeletons: bool): (n: Next)
    ensures n.Continue? <==> skeletons
    ensures !skeletons ==> n.Fatal? && n.cause == BodyUnreadable
  {
    var e1 := Touch(e, BodyFrame, ReadBodies);
    if skeletons then Continue(Free(Free(e1, Capture), BodyFrame)) else Fatal(e1, BodyUnreadable)
  }

  /** One iteration of `run`: update, then draw. `skeletons` says whether every skeleton of the frame could be read. */
  function Tick(e: Env, i: TickInput, skeletons: bool): (n: Next)
    ensures n.Continue? <==> Tracked(i) && skeletons
    ensures n.Fatal? <==> i.wait.Failed? || (i.wait.Succeeded? && (i.enqueue.Failed? || (i.enqueue.Succeeded? && (i.pop.Failed? || (i.pop.Succeeded? && !skeletons)))))
    ensures n.Teardown? <==> i.wait.Timeout? || (i.wait.Succeeded? && (i.enqueue.Timeout? || (i.enqueue.Succeeded? && i.pop.Timeout?)))
  {
    match Update(e, i, skeletons)
    case Continue(e1) => Continue(DrawC(e1, Color))
    case n => n
  }

  /** The state after tracking, just before `update_inference`. */
  function TrackedEnv(e: Env, i: TickInput): Env {
    TrackC(Mint(e, Capture, GetCapture), i.enqueue, i.pop).env
  }

  /** Once the tracker answered and the skeletons are readable, a tick is tracking, the inference image, the releases, then `draw`. */
  lemma TickShape(e: Env, i: TickInput)
    requires Tracked(i)
    ensures Tick(e, i, true) == Continue(DrawC(Bodies(Inference(TrackedEnv(e, i), i), true).env, Color))
  {
  }

  /** After tracking from a quiescent state exactly the capture and the body frame are outstanding. */
  lemma TrackedHolds(e: Env, i: TickInput)
    requires Quiescent(e) && Tracked(i)
    ensures var x := TrackedEnv(e, i);
      x.ok && x.leaked == {} && x.owned == {Capture, BodyFrame} && Capture in x.slots && BodyFrame in x.slots
  {
  }

  /** The inference image joins the capture and the body frame exactly when the frame's capture carried colour. */
  lemma InferenceHolds(x: Env, i: TickInput)
    requires x.ok && x.leaked == {} && x.owned == {Capture, BodyFrame} && Capture in x.slots && BodyFrame in x.slots
    ensures var y := Inference(x, i);
      && y.ok && y.leaked == {} && y.owned == {Capture, BodyFrame} + Opt(i.inferenceColor, Color)
      && Capture in y.slots && BodyFrame in y.slots && (Color in y.slots <==> i.inferenceColor)
      && y.mats == x.mats
  {
  }

  /** The releases leave at most the inference colour image outstanding, and only when it is set. */
  lemma BodiesReleases(y: Env, i: TickInput)
    requires y.ok && y.leaked == {} && y.owned == {Capture, BodyFrame} + Opt(i.inferenceColor, Color)
    requires Capture in y.slots && BodyFrame in y.slots && (Color in y.slots <==> i.inferenceColor)
    ensures var z := Bodies(y, true).env;
      && z.ok && z.leaked == {} && z.owned <= {Color}
      && (Color in z.slots <==> i.inferenceColor) && (Color in z.owned <==> i.inferenceColor)
      && z.mats == y.mats
  {
  }

  /**
   * A tick that reaches `draw` leaves nothing outstanding: the capture, the
   * body frame, the frame's capture and the colour image are all released,
   * and the colour Mat is refilled exactly when the body frame's capture
   * carried colour (otherwise the skeleton is drawn over the previous Mat).
   */
  lemma TickQuiescent(e: Env, i: TickInput, skeletons: bool)
    requires Quiescent(e)
    ensures Tick(e, i, skeletons).Continue? ==> Quiescent(Tick(e, i, skeletons).env)
    ensures Tick(e, i, skeletons).Continue? ==> (Color in Tick(e, i, skeletons).env.mats <==> i.inferenceColor || Color in e.mats)
  {
    if Tracked(i) && skeletons {
      TickShape(e, i);
      TrackedHolds(e, i);
      InferenceHolds(TrackedEnv(e, i), i);
      BodiesReleases(Inference(TrackedEnv(e, i), i), i);
    }
  }

  /** A tick keeps the handle bookkeeping in step with the trace of SDK calls. */
  lemma TickSound(e: Env, i: TickInput, skeletons: bool)
    requires Sound(e)
    ensures Sound(Tick(e, i, skeletons).env)
  {
    if Tracked(i) {
      UpdateShape(e, i, skeletons);
      TrackedSound(e, i);
      InferenceSound(TrackedEnv(e, i), i);
      BodiesSound(Inference(TrackedEnv(e, i), i), skeletons);
      if skeletons {
        DrawCSound(Bodies(Inference(TrackedEnv(e, i), i), true).env, Color);
      }
    } else if i.wait.Succeeded? {
      MintSound(e, Capture, GetCapture);
      TouchSound(Mint(e, Capture, GetCapture), Capture, Enqueue);
    }
  }

  lemma UpdateShape(e: Env, i: TickInput, skeletons: bool)
    requires Tracked(i)
    ensures Update(e, i, skeletons) == Bodies(Inference(TrackedEnv(e, i), i), skeletons)
  {
  }

  lemma TrackedSound(e: Env, i: TickInput)
    requires Sound(e) && Tracked(i)
    ensures Sound(TrackedEnv(e, i))
  {
    var e1 := Mint(e, Capture, GetCapture);
    MintSound(e, Capture, GetCapture);
    TouchSound(e1, Capture, Enqueue);
    MintSound(Touch(e1, Capture, Enqueue), BodyFrame, PopResult);
  }

  lemma BodiesSound(e: Env, skeletons: bool)
    requires Sound(e)
    ensures Sound(Bodies(e, skeletons).env)
  {
    var e1 := Touch(e, BodyFrame, ReadBodies);
    TouchSound(e, BodyFrame, ReadBodies);
    FreeSound(e1, Capture);
    FreeSound(Free(e1, Capture), BodyFrame);
  }
}
