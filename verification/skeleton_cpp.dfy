/**
 * The C++ skeleton viewer (`sample/cpp/skeleton/kinect.cpp`): the tick of
 * the C skeleton viewer written with the RAII wrappers, so every release
 * also clears the handle, and the tracker throws instead of timing out.
 */
module SkeletonCpp {
  import opened Handles
  import opened Pipeline

  /** `update_inference`: a local capture taken from the body frame, its colour image, then `capture.reset()`. */
  function Inference(e: Env, i: TickInput): (e': Env)
    ensures e'.ok == (e.ok && BodyFrame in e.owned && (FrameCapture in e.slots ==> FrameCapture in e.owned) && (Color in e.slots ==> Color in e.owned))
    ensures e'.owned == (if i.inferenceColor then e.owned + {Color} else e.owned - {Color}) - {FrameCapture}
    ensures e'.slots.Keys == (if i.inferenceColor then e.slots.Keys + {Color} else e.slots.Keys - {Color}) - {FrameCapture}
    ensures e'.leaked == e.leaked && e'.mats == e.mats
  {
    var e1 := Take(e, BodyFrame, FrameCapture, true, GetFrameCapture);
    assert (Color in e1.slots <==> Color in e.slots) && (Color in e1.owned <==> Color in e.owned);
    var e2 := Take(e1, FrameCapture, Color, i.inferenceColor, GetColor);
    assert FrameCapture in e2.owned && e2.ok == (e1.ok && (Color in e.slots ==> Color in e.owned));
    Reset(e2, FrameCapture)
  }

  lemma InferenceSound(e: Env, i: TickInput)
    requires Sound(e)
    ensures Sound(Inference(e, i))
  {
    var e1 := Take(e, BodyFrame, FrameCapture, true, GetFrameCapture);
    TakeSound(e, BodyFrame, FrameCapture, true, GetFrameCapture);
    TakeSound(e1, FrameCapture, Color, i.inferenceColor, GetColor);
    ResetSound(Take(e1, FrameCapture, Color, i.inferenceColor, GetColor), FrameCapture);
  }

  /** `update_skeleton` (`frame.get_body` throws when a body cannot be read), then `capture.reset()` and `frame.reset()`. */
  function Bodies(e: Env, skeletons: bool): (n: Next)
    ensures n.Continue? <==> skeletons
    ensures !skeletons ==> n.Fatal? && n.cause == BodyUnreadable
  {
    var e1 := Touch(e, BodyFrame, ReadBodies);
    if skeletons then Continue(Reset(Reset(e1, Capture), BodyFrame)) else Fatal(e1, BodyUnreadable)
  }

  /** `update`: frame (self-destruction when the device returns false), body tracking, inference image, skeletons, releases. */
  function Update(e: Env, i: TickInput, skeletons: bool): Next {
    match FrameCpp(e, i.wait, true)
    case Continue(e1) =>
      (match TrackCpp(e1, i.enqueue, i.pop)
       case Continue(e2) => Bodies(Inference(e2, i), skeletons)
       case n => n)
    case n => n
  }

  /** One iteration of `run`: update, then draw. */
  function Tick(e: Env, i: TickInput, skeletons: bool): (n: Next)
    ensures n.Continue? <==> Tracked(i) && skeletons
    ensures n.Teardown? <==> i.wait.Timeout?
    ensures n.Fatal? <==> !i.wait.Timeout? && !(Tracked(i) && skeletons)
  {
    match Update(e, i, skeletons)
    case Continue(e1) => Continue(DrawCpp(e1, Color))
    case n => n
  }

  /** The state after tracking, just before `update_inference`. */
  function TrackedEnv(e: Env, i: TickInput): Env {
    TrackCpp(Assign(e, Capture, true, GetCapture), i.enqueue, i.pop).env
  }

  lemma UpdateShape(e: Env, i: TickInput, skeletons: bool)
    requires Tracked(i)
    ensures Update(e, i, skeletons) == Bodies(Inference(TrackedEnv(e, i), i), skeletons)
  {
  }

  /** After tracking from a clean state exactly the capture and the body frame are held. */
  lemma TrackedHolds(e: Env, i: TickInput)
    requires Clean(e) && Tracked(i)
    ensures var x := TrackedEnv(e, i);
      x.ok && x.leaked == {} && x.owned == {Capture, BodyFrame} && x.slots.Keys == {Capture, BodyFrame}
  {
  }

  /** The inference image joins the capture and the body frame exactly when the frame's capture carried colour. */
  lemma InferenceHolds(x: Env, i: TickInput)
    requires x.ok && x.leaked == {} && x.owned == {Capture, BodyFrame} && x.slots.Keys == {Capture, BodyFrame}
    ensures var y := Inference(x, i);
      && y.ok && y.leaked == {} && y.owned == y.slots.Keys
      && y.owned == {Capture, BodyFrame} + Opt(i.inferenceColor, Color) && y.mats == x.mats
  {
    InferenceFacts(x, Inference(x, i), i.inferenceColor);
  }

  lemma InferenceFacts(x: Env, y: Env, color: bool)
    requires x.ok && x.leaked == {} && x.owned == {Capture, BodyFrame} && x.slots.Keys == {Capture, BodyFrame}
    requires y.ok == (x.ok && BodyFrame in x.owned && (FrameCapture in x.slots ==> FrameCapture in x.owned) && (Color in x.slots ==> Color in x.owned))
    requires y.owned == (if color then x.owned + {Color} else x.owned - {Color}) - {FrameCapture}
    requires y.slots.Keys == (if color then x.slots.Keys + {Color} else x.slots.Keys - {Color}) - {FrameCapture}
    requires y.leaked == x.leaked && y.mats == x.mats
    ensures y.ok && y.leaked == {} && y.owned == y.slots.Keys
    ensures y.owned == {Capture, BodyFrame} + Opt(color, Color) && y.mats == x.mats
  {
    if color {
      assert y.owned == {Capture, BodyFrame, Color};
    } else {
      assert y.owned == {Capture, BodyFrame};
    }
  }

  /** The releases leave the inference colour image held exactly when the frame's capture carried one. */
  lemma BodiesReleases(x: Env, i: TickInput)
    requires x.ok && x.leaked == {} && x.owned == x.slots.Keys && x.owned == {Capture, BodyFrame} + Opt(i.inferenceColor, Color)
    ensures var y := Bodies(x, true).env;
      && y.ok && y.leaked == {} && y.owned == y.slots.Keys && y.owned == Opt(i.inferenceColor, Color) && y.mats == x.mats
  {
  }

  /**
   * A tick that starts with every handle empty and reaches `draw` ends with
   * every handle empty and nothing outstanding; the colour Mat is refilled
   * exactly when the body frame's capture carried colour.
   */
  lemma TickClean(e: Env, i: TickInput, skeletons: bool)
    requires Clean(e)
    ensures Tick(e, i, skeletons).Continue? ==> Clean(Tick(e, i, skeletons).env)
    ensures Tick(e, i, skeletons).Continue? ==> (Color in Tick(e, i, skeletons).env.mats <==> i.inferenceColor || Color in e.mats)
  {
    if Tracked(i) && skeletons {
      UpdateShape(e, i, true);
      TrackedHolds(e, i);
      InferenceHolds(TrackedEnv(e, i), i);
      BodiesReleases(Inference(TrackedEnv(e, i), i), i);
    }
  }

  /** A tick keeps the handle bookkeeping in step with the trace of SDK calls. */
  lemma TickSound(e: Env, i: TickInput, skeletons: bool)
    requires Sound(e)
    ensures Sound(Tick(e, i, skeletons).env)
  {
    if Tracked(i) {
      UpdateShape(e, i, skeletons);
      TrackedSound(e, i);
      InferenceSound(TrackedEnv(e, i), i);
      BodiesSound(Inference(TrackedEnv(e, i), i), skeletons);
      if skeletons {
        DrawCppSound(Bodies(Inference(TrackedEnv(e, i), i), true).env, Color);
      }
    } else if i.wait.Succeeded? {
      AssignSound(e, Capture, true, GetCapture);
      TouchSound(Assign(e, Capture, true, GetCapture), Capture, Enqueue);
    }
  }

  lemma TrackedSound(e: Env, i: TickInput)
    requires Sound(e) && Tracked(i)
    ensures Sound(TrackedEnv(e, i))
  {
    var e1 := Assign(e, Capture, true, GetCapture);
    AssignSound(e, Capture, true, GetCapture);
    TouchSound(e1, Capture, Enqueue);
    AssignSound(Touch(e1, Capture, Enqueue), BodyFrame, true, PopResult);
  }

  lemma BodiesSound(e: Env, skeletons: bool)
    requires Sound(e)
    ensures Sound(Bodies(e, skeletons).env)
  {
    var e1 := Touch(e, BodyFrame, ReadBodies);
    TouchSound(e, BodyFrame, ReadBodies);
    ResetSound(e1, Capture);
    ResetSound(Reset(e1, Capture), BodyFrame);
  }
}
