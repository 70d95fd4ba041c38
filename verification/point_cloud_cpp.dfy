/**
 * The C++ point cloud viewer (`sample/cpp/point_cloud/kinect.cpp`): each
 * tick pulls colour and depth, maps depth into the colour camera, and turns
 * the mapped depth into a point cloud; `draw` converts and resets colour,
 * the mapped depth and the point cloud, and resets the raw depth image
 * without converting it. The cloud is shown, coloured by the colour Mat,
 * once both Mats hold data.
 */
module PointCloudCpp {
  import opened Handles
  import opened Pipeline

  /** `update_color` then `update_depth`. */
  function Planes(e: Env, i: TickInput): Env {
    Take(Take(e, Capture, Color, i.color, GetColor), Capture, Depth, i.depth, GetDepth)
  }

  /** `update_transformation` then `update_point_cloud`, each skipped when its input is empty. */
  function Cloud(e: Env): (e': Env)
    ensures Depth !in e.slots && TransformedDepth !in e.slots ==> e' == e
  {
    var e1 := if Depth in e.slots then Assign(Touch(e, Depth, Transform), TransformedDepth, true, Transform) else e;
    if TransformedDepth in e1.slots then Assign(Touch(e1, TransformedDepth, Transform), PointCloud, true, Transform) else e1
  }

  /** `update`: frame (self-destruction when the device returns false), planes, cloud, then `capture.reset()`. */
  function Update(e: Env, i: TickInput): Next {
    match FrameCpp(e, i.wait, true)
    case Continue(e1) => Continue(Reset(Cloud(Planes(e1, i)), Capture))
    case n => n
  }

  /** `draw`: the raw depth image is reset without being converted. */
  function Draw(e: Env): Env {
    var e1 := Reset(DrawCpp(e, Color), Depth);
    DrawCpp(DrawCpp(e1, TransformedDepth), PointCloud)
  }

  /** One iteration of `run`: update, then draw. */
  function Tick(e: Env, i: TickInput): (n: Next)
    ensures n.Continue? <==> i.wait.Succeeded?
    ensures n.Fatal? <==> i.wait.Failed?
    ensures n.Teardown? <==> i.wait.Timeout?
    ensures !n.Continue? ==> n.env == e
  {
    match Update(e, i)
    case Continue(e1) => Continue(Draw(e1))
    case n => n
  }

  /** `show_point_cloud` draws the cloud only once both the point Mat and the colour Mat hold data. */
  predicate CloudShown(e: Env) {
    PointCloud in e.mats && Color in e.mats
  }

  function FrameEnv(e: Env): Env {
    Assign(e, Capture, true, GetCapture)
  }

  lemma TickShape(e: Env, i: TickInput)
    requires i.wait.Succeeded?
    ensures Tick(e, i) == Continue(Draw(Reset(Cloud(Planes(FrameEnv(e), i)), Capture)))
  {
  }

  lemma FrameHeld(e: Env)
    requires Clean(e)
    ensures var x := FrameEnv(e);
      x.ok && x.leaked == {} && x.owned == {Capture} && x.slots.Keys == {Capture} && x.mats == e.mats
  {
  }

  lemma PlanesHeld(x: Env, i: TickInput)
    requires x.ok && x.leaked == {} && x.owned == {Capture} && x.slots.Keys == {Capture}
    ensures var y := Planes(x, i);
      && y.ok && y.leaked == {} && y.owned == y.slots.Keys
      && y.owned == {Capture} + Opt(i.color, Color) + Opt(i.depth, Depth) && y.mats == x.mats
  {
  }

  /** The mapped depth and the point cloud are made exactly when the capture carried depth. */
  lemma CloudHeld(y: Env, i: TickInput)
    requires y.ok && y.leaked == {} && y.owned == y.slots.Keys
    requires y.owned == {Capture} + Opt(i.color, Color) + Opt(i.depth, Depth)
    ensures var z := Cloud(y);
      && z.ok && z.leaked == {} && z.owned == z.slots.Keys
      && z.owned == y.owned + Opt(i.depth, TransformedDepth) + Opt(i.depth, PointCloud) && z.mats == y.mats
  {
    if i.depth {
      var e1 := Assign(Touch(y, Depth, Transform), TransformedDepth, true, Transform);
      assert e1.ok && e1.leaked == {} && e1.owned == e1.slots.Keys && e1.owned == y.owned + {TransformedDepth};
    }
  }

  /** Drawing resets every handle; the raw depth image never reaches a Mat. */
  lemma DrawReleases(z: Env, i: TickInput)
    requires z.ok && z.leaked == {} && z.owned == z.slots.Keys
    requires z.owned == {Capture} + Opt(i.color, Color) + Opt(i.depth, Depth) + Opt(i.depth, TransformedDepth) + Opt(i.depth, PointCloud)
    ensures var d := Draw(Reset(z, Capture));
      Clean(d) && d.mats == z.mats + Opt(i.color, Color) + Opt(i.depth, TransformedDepth) + Opt(i.depth, PointCloud)
  {
    var r := Reset(z, Capture);
    var e1 := Reset(DrawCpp(r, Color), Depth);
    assert e1.ok && e1.leaked == {} && e1.owned == e1.slots.Keys;
    assert e1.owned == Opt(i.depth, TransformedDepth) + Opt(i.depth, PointCloud);
    assert e1.mats == z.mats + Opt(i.color, Color);
  }

  /**
   * A tick that starts with every handle empty ends with every handle empty
   * and nothing outstanding. The colour Mat is refilled exactly when the
   * capture carried colour, the mapped-depth and point Mats exactly when it
   * carried depth, and the raw depth image is never converted. A capture
   * request that does not succeed changes nothing.
   */
  lemma TickClean(e: Env, i: TickInput)
    requires Clean(e)
    ensures Clean(Tick(e, i).env)
    ensures Tick(e, i).Continue? ==>
      Tick(e, i).env.mats == e.mats + Opt(i.color, Color) + Opt(i.depth, TransformedDepth) + Opt(i.depth, PointCloud)
  {
    if i.wait.Succeeded? {
      TickShape(e, i);
      FrameHeld(e);
      PlanesHeld(FrameEnv(e), i);
      CloudHeld(Planes(FrameEnv(e), i), i);
      DrawReleases(Cloud(Planes(FrameEnv(e), i)), i);
    }
  }

  /**
   * The cloud is on screen after a tick exactly when the point Mat was
   * already filled or this tick carried depth, and the colour Mat was already
   * filled or this tick carried colour: each Mat keeps its last contents.
   */
  lemma CloudShownAfter(e: Env, i: TickInput)
    requires Clean(e)
    ensures Tick(e, i).Continue? ==>
      (CloudShown(Tick(e, i).env) <==> (PointCloud in e.mats || i.depth) && (Color in e.mats || i.color))
  {
    if i.wait.Succeeded? {
      TickClean(e, i);
      ShownMeans(Tick(e, i).env.mats, e.mats, i);
    }
  }

  lemma ShownMeans(after: set<Role>, before: set<Role>, i: TickInput)
    requires after == before + Opt(i.color, Color) + Opt(i.depth, TransformedDepth) + Opt(i.depth, PointCloud)
    ensures PointCloud in after && Color in after <==> (PointCloud in before || i.depth) && (Color in before || i.color)
  {
  }

  /** A tick keeps the handle bookkeeping in step with the trace of SDK calls. */
  lemma TickSound(e: Env, i: TickInput)
    requires Sound(e)
    ensures Sound(Tick(e, i).env)
  {
    if i.wait.Succeeded? {
      TickShape(e, i);
      AssignSound(e, Capture, true, GetCapture);
      var x := FrameEnv(e);
      TakeSound(x, Capture, Color, i.color, GetColor);
      TakeSound(Take(x, Capture, Color, i.color, GetColor), Capture, Depth, i.depth, GetDepth);
      CloudSound(Planes(x, i));
      ResetSound(Cloud(Planes(x, i)), Capture);
      DrawSound(Reset(Cloud(Planes(x, i)), Capture));
    }
  }

  lemma CloudSound(e: Env)
    requires Sound(e)
    ensures Sound(Cloud(e))
  {
    var e1 := if Depth in e.slots then Assign(Touch(e, Depth, Transform), TransformedDepth, true, Transform) else e;
    if Depth in e.slots {
      TouchSound(e, Depth, Transform);
      AssignSound(Touch(e, Depth, Transform), TransformedDepth, true, Transform);
    }
    if TransformedDepth in e1.slots {
      TouchSound(e1, TransformedDepth, Transform);
      AssignSound(Touch(e1, TransformedDepth, Transform), PointCloud, true, Transform);
    }
  }

  lemma DrawSound(e: Env)
    requires Sound(e)
    ensures Sound(Draw(e))
  {
    DrawCppSound(e, Color);
    ResetSound(DrawCpp(e, Color), Depth);
    var e1 := Reset(DrawCpp(e, Color), Depth);
    DrawCppSound(e1, TransformedDepth);
    DrawCppSound(DrawCpp(e1, TransformedDepth), PointCloud);
  }
}
