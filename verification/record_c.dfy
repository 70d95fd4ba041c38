/**
 * The C recorder (`sample/c/record/kinect.cpp`): each tick takes a capture,
 * writes it to the recording, pulls colour and depth out of it and releases
 * it; `draw` converts and releases both images. Releases do not clear the
 * pointers.
 */
module RecordC {
  import opened Handles
  import opened Pipeline

  /** `write_frame`: skipped when the recording or the capture is NULL. */
  function Write(e: Env, recordOpen: bool): (e': Env)
    ensures recordOpen && Capture in e.slots ==> e'.ok == (e.ok && Capture in e.owned)
    ensures !(recordOpen && Capture in e.slots) ==> e' == e
    ensures e'.slots == e.slots && e'.owned == e.owned && e'.leaked == e.leaked && e'.mats == e.mats
  {
    if recordOpen && Capture in e.slots then Touch(e, Capture, WriteCapture) else e
  }

  /** `update`: frame, write, colour, depth, then release of the capture. */
  function Update(e: Env, i: TickInput, recordOpen: bool): Next {
    match FrameC(e, i.wait)
    case Continue(e1) => Continue(Free(Planes(Write(e1, recordOpen), i), Capture))
    case n => n
  }

  /** `update_color` then `update_depth`. */
  function Planes(e: Env, i: TickInput): Env {
    PlaneC(PlaneC(e, i, Color), i, Depth)
  }

  /** One iteration of `run`: update, then draw colour and depth. */
  function Tick(e: Env, i: TickInput, recordOpen: bool): (n: Next)
    ensures n.Continue? <==> i.wait.Succeeded?
    ensures n.Fatal? <==> i.wait.Failed?
    ensures n.Teardown? <==> i.wait.Timeout?
  {
    match Update(e, i, recordOpen)
    case Continue(e1) => Continue(DrawC(DrawC(e1, Color), Depth))
    case n => n
  }

  /** The state once the capture is written, before the planes are pulled. */
  function WrittenEnv(e: Env, recordOpen: bool): Env {
    Write(Mint(e, Capture, GetCapture), recordOpen)
  }

  lemma TickShape(e: Env, i: TickInput, recordOpen: bool)
    requires i.wait.Succeeded?
    ensures Tick(e, i, recordOpen) == Continue(DrawC(DrawC(Free(Planes(WrittenEnv(e, recordOpen), i), Capture), Color), Depth))
  {
  }

  /** After the planes are pulled exactly the capture and the images it carried are outstanding. */
  lemma PlanesHeld(x: Env, i: TickInput)
    requires x.ok && x.leaked == {} && x.owned == {Capture} && Capture in x.slots
    ensures var y := Planes(x, i);
      && y.ok && y.leaked == {} && y.owned == {Capture} + Opt(i.color, Color) + Opt(i.depth, Depth)
      && (Color in y.slots <==> i.color) && (Depth in y.slots <==> i.depth) && Capture in y.slots
      && y.mats == x.mats
  {
    PlaneCHeld(x, i, Color);
    PlaneCHeld(PlaneC(x, i, Color), i, Depth);
  }

  /** Releasing the capture and drawing both planes leaves nothing outstanding and fills the Mats of the planes present. */
  lemma DrawReleases(y: Env, i: TickInput)
    requires y.ok && y.leaked == {} && y.owned == {Capture} + Opt(i.color, Color) + Opt(i.depth, Depth)
    requires (Color in y.slots <==> i.color) && (Depth in y.slots <==> i.depth) && Capture in y.slots
    ensures var z := DrawC(DrawC(Free(y, Capture), Color), Depth);
      && Quiescent(z)
      && z.mats == y.mats + Opt(i.color, Color) + Opt(i.depth, Depth)
  {
  }

  /**
   * A tick leaves nothing outstanding: the capture and both images are
   * released, and each Mat is refilled exactly when the capture carried its
   * plane. A failed or timed-out capture request changes nothing.
   */
  lemma TickQuiescent(e: Env, i: TickInput, recordOpen: bool)
    requires Quiescent(e)
    ensures Quiescent(Tick(e, i, recordOpen).env)
    ensures Tick(e, i, recordOpen).Continue? ==> Tick(e, i, recordOpen).env.mats == e.mats + Opt(i.color, Color) + Opt(i.depth, Depth)
    ensures !Tick(e, i, recordOpen).Continue? ==> Tick(e, i, recordOpen).env == e
  {
    if i.wait.Succeeded? {
      TickShape(e, i, recordOpen);
      WrittenHeld(e, recordOpen);
      PlanesHeld(WrittenEnv(e, recordOpen), i);
      DrawReleases(Planes(WrittenEnv(e, recordOpen), i), i);
    }
  }

  lemma WrittenHeld(e: Env, recordOpen: bool)
    requires Quiescent(e)
    ensures var x := WrittenEnv(e, recordOpen);
      x.ok && x.leaked == {} && x.owned == {Capture} && Capture in x.slots && x.mats == e.mats
  {
  }

  /** Pulling the planes, releasing and drawing write nothing to the recording. */
  lemma RestWritesNothing(x: Env, i: TickInput)
    ensures Uses(DrawC(DrawC(Free(Planes(x, i), Capture), Color), Depth).trace, WriteCapture) == Uses(x.trace, WriteCapture)
  {
    PlaneWritesNothing(x, i, Color);
    PlaneWritesNothing(PlaneC(x, i, Color), i, Depth);
    var y := Free(Planes(x, i), Capture);
    FreeWritesNothing(Planes(x, i));
    DrawWritesNothing(y, Color);
    DrawWritesNothing(DrawC(y, Color), Depth);
  }

  lemma PlaneWritesNothing(x: Env, i: TickInput, r: Role)
    requires r == Color || r == Depth
    ensures Uses(PlaneC(x, i, r).trace, WriteCapture) == Uses(x.trace, WriteCapture)
  {
  }

  lemma FreeWritesNothing(x: Env)
    ensures Uses(Free(x, Capture).trace, WriteCapture) == Uses(x.trace, WriteCapture)
  {
  }

  /** The write step adds one write exactly when the recording is open. */
  lemma WrittenOnce(e: Env, recordOpen: bool)
    ensures Uses(WrittenEnv(e, recordOpen).trace, WriteCapture) == Uses(e.trace, WriteCapture) + (if recordOpen then 1 else 0)
    ensures Quiescent(e) && recordOpen ==> WrittenEnv(e, recordOpen).ok
  {
  }

  lemma DrawWritesNothing(x: Env, r: Role)
    ensures Uses(DrawC(x, r).trace, WriteCapture) == Uses(x.trace, WriteCapture)
  {
  }

  /**
   * While the recording is open every tick that gets a capture writes it
   * exactly once, through the pointer that holds it; a tick without a
   * capture writes nothing.
   */
  lemma TickWritesOnce(e: Env, i: TickInput, recordOpen: bool)
    ensures Tick(e, i, recordOpen).Continue? ==>
      Uses(Tick(e, i, recordOpen).env.trace, WriteCapture) == Uses(e.trace, WriteCapture) + (if recordOpen then 1 else 0)
    ensures !Tick(e, i, recordOpen).Continue? ==> Uses(Tick(e, i, recordOpen).env.trace, WriteCapture) == Uses(e.trace, WriteCapture)
    ensures Quiescent(e) && recordOpen && i.wait.Succeeded? ==> WrittenEnv(e, recordOpen).ok
  {
    if i.wait.Succeeded? {
      TickShape(e, i, recordOpen);
      WrittenOnce(e, recordOpen);
      RestWritesNothing(WrittenEnv(e, recordOpen), i);
    }
  }

  /** A tick keeps the handle bookkeeping in step with the trace of SDK calls. */
  lemma TickSound(e: Env, i: TickInput, recordOpen: bool)
    requires Sound(e)
    ensures Sound(Tick(e, i, recordOpen).env)
  {
    if i.wait.Succeeded? {
      TickShape(e, i, recordOpen);
      var e1 := Mint(e, Capture, GetCapture);
      MintSound(e, Capture, GetCapture);
      if recordOpen {
        TouchSound(e1, Capture, WriteCapture);
      }
      var w := WrittenEnv(e, recordOpen);
      PlaneCSound(w, i, Color);
      PlaneCSound(PlaneC(w, i, Color), i, Depth);
      FreeSound(Planes(w, i), Capture);
      DrawCSound(Free(Planes(w, i), Capture), Color);
      DrawCSound(DrawC(Free(Planes(w, i), Capture), Color), Depth);
    }
  }
}
