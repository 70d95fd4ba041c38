/**
 * The C++ recorder (`sample/cpp/record/kinect.cpp`): the tick of the C
 * recorder written with the RAII wrappers. The capture request throws when
 * it does not succeed, and the capture is written without a guard.
 */
module RecordCpp {
  import opened Handles
  import opened Pipeline

  /** `update`: frame, `record.write_capture`, colour, depth, then `capture.reset()`. */
  function Update(e: Env, i: TickInput): Next {
    match FrameCpp(e, i.wait, false)
    case Continue(e1) => Continue(Reset(Planes(Touch(e1, Capture, WriteCapture), i), Capture))
    case n => n
  }

  /** `update_color` then `update_depth`, each a move-assignment from the capture. */
  function Planes(e: Env, i: TickInput): Env {
    Take(Take(e, Capture, Color, i.color, GetColor), Capture, Depth, i.depth, GetDepth)
  }

  /** One iteration of `run`: update, then draw colour and depth. */
  function Tick(e: Env, i: TickInput): (n: Next)
    ensures n.Continue? <==> i.wait.Succeeded?
    ensures !n.Continue? ==> n.Fatal?
  {
    match Update(e, i)
    case Continue(e1) => Continue(DrawCpp(DrawCpp(e1, Color), Depth))
    case n => n
  }

  /** The state once the capture is written, before the planes are pulled. */
  function WrittenEnv(e: Env): Env {
    Touch(Assign(e, Capture, true, GetCapture), Capture, WriteCapture)
  }

  lemma TickShape(e: Env, i: TickInput)
    requires i.wait.Succeeded?
    ensures Tick(e, i) == Continue(DrawCpp(DrawCpp(Reset(Planes(WrittenEnv(e), i), Capture), Color), Depth))
  {
  }

  lemma WrittenHeld(e: Env)
    requires Clean(e)
    ensures var x := WrittenEnv(e);
      x.ok && x.leaked == {} && x.owned == {Capture} && x.slots.Keys == {Capture} && x.mats == e.mats
  {
  }

  /** After the planes are pulled exactly the capture and the images it carried are held. */
  lemma PlanesHeld(x: Env, i: TickInput)
    requires x.ok && x.leaked == {} && x.owned == {Capture} && x.slots.Keys == {Capture}
    ensures var y := Planes(x, i);
      && y.ok && y.leaked == {} && y.owned == y.slots.Keys
      && y.owned == {Capture} + Opt(i.color, Color) + Opt(i.depth, Depth) && y.mats == x.mats
  {
  }

  /** Releasing the capture and drawing both planes empties every handle and fills the Mats of the planes present. */
  lemma DrawReleases(y: Env, i: TickInput)
    requires y.ok && y.leaked == {} && y.owned == y.slots.Keys
    requires y.owned == {Capture} + Opt(i.color, Color) + Opt(i.depth, Depth)
    ensures var z := DrawCpp(DrawCpp(Reset(y, Capture), Color), Depth);
      Clean(z) && z.mats == y.mats + Opt(i.color, Color) + Opt(i.depth, Depth)
  {
  }

  /**
   * A tick that starts with every handle empty ends with every handle empty
   * and nothing outstanding; each Mat is refilled exactly when the capture
   * carried its plane. A capture request that does not succeed throws and
   * changes nothing.
   */
  lemma TickClean(e: Env, i: TickInput)
    requires Clean(e)
    ensures Clean(Tick(e, i).env)
    ensures Tick(e, i).Continue? ==> Tick(e, i).env.mats == e.mats + Opt(i.color, Color) + Opt(i.depth, Depth)
    ensures !Tick(e, i).Continue? ==> Tick(e, i).env == e
  {
    if i.wait.Succeeded? {
      TickShape(e, i);
      WrittenHeld(e);
      PlanesHeld(WrittenEnv(e), i);
      DrawReleases(Planes(WrittenEnv(e), i), i);
    }
  }

  /** Pulling the planes, releasing and drawing write nothing to the recording. */
  lemma RestWritesNothing(x: Env, i: TickInput)
    ensures Uses(DrawCpp(DrawCpp(Reset(Planes(x, i), Capture), Color), Depth).trace, WriteCapture) == Uses(x.trace, WriteCapture)
  {
    var y := Take(x, Capture, Color, i.color, GetColor);
    UsesTake(x, Capture, Color, i.color, GetColor, WriteCapture);
    UsesTake(y, Capture, Depth, i.depth, GetDepth, WriteCapture);
    var z := Reset(Planes(x, i), Capture);
    UsesReset(Planes(x, i), Capture, WriteCapture);
    DrawWritesNothing(z, Color);
    DrawWritesNothing(DrawCpp(z, Color), Depth);
  }

  lemma DrawWritesNothing(x: Env, r: Role)
    ensures Uses(DrawCpp(x, r).trace, WriteCapture) == Uses(x.trace, WriteCapture)
  {
    if r in x.slots {
      UsesConvert(x, r, WriteCapture);
      UsesReset(Convert(x, r), r, WriteCapture);
    }
  }

  /** Every tick that gets a capture writes it exactly once; a tick that throws writes nothing. */
  lemma TickWritesOnce(e: Env, i: TickInput)
    ensures Tick(e, i).Continue? ==> Uses(Tick(e, i).env.trace, WriteCapture) == Uses(e.trace, WriteCapture) + 1
    ensures !Tick(e, i).Continue? ==> Uses(Tick(e, i).env.trace, WriteCapture) == Uses(e.trace, WriteCapture)
  {
    if i.wait.Succeeded? {
      TickShape(e, i);
      UsesAssign(e, Capture, true, GetCapture, WriteCapture);
      UsesTouch(Assign(e, Capture, true, GetCapture), Capture, WriteCapture, WriteCapture);
      RestWritesNothing(WrittenEnv(e), i);
    }
  }

  /** A tick keeps the handle bookkeeping in step with the trace of SDK calls. */
  lemma TickSound(e: Env, i: TickInput)
    requires Sound(e)
    ensures Sound(Tick(e, i).env)
  {
    if i.wait.Succeeded? {
      TickShape(e, i);
      var e1 := Assign(e, Capture, true, GetCapture);
      AssignSound(e, Capture, true, GetCapture);
      TouchSound(e1, Capture, WriteCapture);
      var w := WrittenEnv(e);
      TakeSound(w, Capture, Color, i.color, GetColor);
      TakeSound(Take(w, Capture, Color, i.color, GetColor), Capture, Depth, i.depth, GetDepth);
      ResetSound(Planes(w, i), Capture);
      DrawCppSound(Reset(Planes(w, i), Capture), Color);
      DrawCppSound(DrawCpp(Reset(Planes(w, i), Capture), Color), Depth);
    }
  }
}
