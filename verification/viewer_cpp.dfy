/**
 * The single-plane C++ viewers (`sample/cpp/infrared/kinect.cpp` and
 * `sample/cpp/depth/kinect.cpp`): the same tick as the C viewers, written
 * with the RAII wrappers, so every release also clears the handle.
 */
module ViewerCpp {
  import opened Handles
  import opened Pipeline
  import ViewerC

  /** `update`: `update_frame`, `update_infrared` (or `update_depth`), then `capture.reset()`. */
  function Update(e: Env, i: TickInput, plane: Role): Next {
    match FrameCpp(e, i.wait, true)
    case Continue(e1) =>
      var e2 := Take(e1, Capture, plane, Carries(i, plane), Getter(plane));
      Continue(Reset(e2, Capture))
    case n => n
  }

  /** One iteration of `run`: update, then draw. */
  function Tick(e: Env, i: TickInput, plane: Role): (n: Next)
    ensures n.Continue? <==> i.wait.Succeeded?
    ensures n.Fatal? <==> i.wait.Failed?
    ensures n.Teardown? <==> i.wait.Timeout?
  {
    match Update(e, i, plane)
    case Continue(e1) => Continue(DrawCpp(e1, plane))
    case n => n
  }

  /**
   * A tick starting with every handle empty ends with every handle empty and
   * nothing outstanding; the Mat is filled exactly when the capture carried
   * the plane.
   */
  lemma TickClean(e: Env, i: TickInput, plane: Role)
    requires ViewerC.Viewable(plane) && Clean(e)
    ensures Clean(Tick(e, i, plane).env)
    ensures Tick(e, i, plane).Continue? ==> (plane in Tick(e, i, plane).env.mats <==> Carries(i, plane) || plane in e.mats)
    ensures !Tick(e, i, plane).Continue? ==> Tick(e, i, plane).env == e
  {
    if i.wait.Succeeded? {
      var e1 := Assign(e, Capture, true, GetCapture);
      assert e1.ok && e1.leaked == {} && e1.owned == {Capture} && e1.slots.Keys == {Capture};
      var e2 := Take(e1, Capture, plane, Carries(i, plane), Getter(plane));
      assert e2.ok && e2.leaked == {} && e2.owned == e2.slots.Keys;
      assert plane in e2.slots <==> Carries(i, plane);
      assert Carries(i, plane) ==> e2.owned == {Capture, plane};
      assert !Carries(i, plane) ==> e2.owned == {Capture};
      var e3 := Reset(e2, Capture);
      assert e3.ok && e3.leaked == {} && e3.owned == e3.slots.Keys;
      assert e3.owned <= {plane};
    }
  }

  /** A tick keeps the handle bookkeeping in step with the trace of SDK calls. */
  lemma TickSound(e: Env, i: TickInput, plane: Role)
    requires Sound(e)
    ensures Sound(Tick(e, i, plane).env)
  {
    if i.wait.Succeeded? {
      var e1 := Assign(e, Capture, true, GetCapture);
      AssignSound(e, Capture, true, GetCapture);
      var e2 := Take(e1, Capture, plane, Carries(i, plane), Getter(plane));
      TakeSound(e1, Capture, plane, Carries(i, plane), Getter(plane));
      ResetSound(e2, Capture);
      DrawCppSound(Reset(e2, Capture), plane);
    }
  }
}
