/**
 * The single-plane C viewers (`sample/c/infrared/kinect.cpp` and
 * `sample/c/depth/kinect.cpp`, identical up to the plane): each tick takes a
 * capture, pulls one image plane out of it, releases the capture, then
 * converts and releases the image. Releases do not clear the pointers.
 */
module ViewerC {
  import opened Handles
  import opened Pipeline

  /** The plane a single-plane viewer shows. */
  predicate Viewable(plane: Role) {
    plane == Infrared || plane == Depth
  }

  /** `update`: `update_frame`, `update_infrared` (or `update_depth`), then release of the capture. */
  function Update(e: Env, i: TickInput, plane: Role): Next {
    match FrameC(e, i.wait)
    case Continue(e1) => Continue(Free(PlaneC(e1, i, plane), Capture))
    case n => n
  }

  /** One iteration of `run`: update, then draw. */
  function Tick(e: Env, i: TickInput, plane: Role): (n: Next)
    ensures n.Continue? <==> i.wait.Succeeded?
    ensures n.Fatal? <==> i.wait.Failed?
    ensures n.Teardown? <==> i.wait.Timeout?
  {
    match Update(e, i, plane)
    case Continue(e1) => Continue(DrawC(e1, plane))
    case n => n
  }

  /**
   * A tick leaves nothing outstanding: the capture and the plane image are
   * both released, and the Mat is filled exactly when the capture carried
   * the plane (otherwise it keeps the previous frame). A failed or timed-out
   * capture request changes nothing.
   */
  lemma TickQuiescent(e: Env, i: TickInput, plane: Role)
    requires Viewable(plane) && Quiescent(e)
    ensures Quiescent(Tick(e, i, plane).env)
    ensures Tick(e, i, plane).Continue? ==> (plane in Tick(e, i, plane).env.mats <==> Carries(i, plane) || plane in e.mats)
    ensures !Tick(e, i, plane).Continue? ==> Tick(e, i, plane).env == e
  {
    if i.wait.Succeeded? {
      var e1 := Mint(e, Capture, GetCapture);
      assert e1.ok && e1.leaked == {} && e1.owned == {Capture};
      var e2 := PlaneC(e1, i, plane);
      assert e2.ok && e2.leaked == {} && Capture in e2.owned;
      assert Carries(i, plane) ==> e2.owned == {Capture, plane};
      assert !Carries(i, plane) ==> e2.owned == {Capture};
      var e3 := Free(e2, Capture);
      assert e3.ok && e3.leaked == {};
      assert plane in e3.slots <==> Carries(i, plane);
    }
  }

  /** A tick keeps the handle bookkeeping in step with the trace of SDK calls. */
  lemma TickSound(e: Env, i: TickInput, plane: Role)
    requires Sound(e)
    ensures Sound(Tick(e, i, plane).env)
  {
    if i.wait.Succeeded? {
      var e1 := Mint(e, Capture, GetCapture);
      MintSound(e, Capture, GetCapture);
      PlaneCSound(e1, i, plane);
      FreeSound(PlaneC(e1, i, plane), Capture);
      DrawCSound(Free(PlaneC(e1, i, plane), Capture), plane);
    }
  }
}
