/**
 * The C transformation viewer (`sample/c/transformation/kinect.cpp`): each
 * tick pulls the colour and depth images, maps colour into the depth camera
 * and depth into the colour camera, then converts and releases all four.
 *
 * As written, `draw_transformation` releases the two transformed images but
 * leaves their pointers set; a later tick whose capture lacks colour or depth
 * skips `update_transformation` and then converts and releases the stale
 * pointers again. `TickFixed` clears them after release.
 */
module TransformationC {
  import opened Handles
  import opened Pipeline

  /** `update_transformation`: both conversions, only when colour and depth are set. */
  function Transformation(e: Env): (e': Env)
    ensures Color !in e.slots || Depth !in e.slots ==> e' == e
  {
    if Color !in e.slots || Depth !in e.slots then e
    else
      var e1 := Mint(Touch(e, Depth, ReadSize), TransformedColor, CreateImage);
      var e2 := Touch(Touch(Touch(e1, Depth, Transform), Color, Transform), TransformedColor, Transform);
      var e3 := Mint(Touch(e2, Color, ReadSize), TransformedDepth, CreateImage);
      Touch(Touch(e3, Depth, Transform), TransformedDepth, Transform)
  }

  /** `update`: frame, colour, depth, transformation, release of the capture. */
  function Update(e: Env, i: TickInput): Next {
    match FrameC(e, i.wait)
    case Continue(e1) =>
      var e3 := PlaneC(PlaneC(e1, i, Color), i, Depth);
      Continue(Free(Transformation(e3), Capture))
    case n => n
  }

  /** `draw_color` then `draw_depth`. */
  function DrawPlanes(e: Env): Env {
    DrawC(DrawC(e, Color), Depth)
  }

  /** `draw_transformation` as written: the released pointers keep their values. */
  function DrawTransformation(e: Env): Env {
    if TransformedColor !in e.slots || TransformedDepth !in e.slots then e
    else
      var e1 := Convert(Convert(e, TransformedColor), TransformedDepth);
      Free(Free(e1, TransformedColor), TransformedDepth)
  }

  /** `draw_transformation` with each pointer cleared after its release. */
  function DrawTransformationFixed(e: Env): Env {
    if TransformedColor !in e.slots || TransformedDepth !in e.slots then e
    else
      var e1 := Convert(Convert(e, TransformedColor), TransformedDepth);
      Reset(Reset(e1, TransformedColor), TransformedDepth)
  }

  /** One iteration of `run` as written. */
  function Tick(e: Env, i: TickInput): (n: Next)
    ensures n.Continue? <==> i.wait.Succeeded?
    ensures n.Fatal? <==> i.wait.Failed?
    ensures n.Teardown? <==> i.wait.Timeout?
  {
    match Update(e, i)
    case Continue(e1) => Continue(DrawTransformation(DrawPlanes(e1)))
    case n => n
  }

  /** One iteration of `run` with `DrawTransformationFixed`. */
  function TickFixed(e: Env, i: TickInput): (n: Next)
    ensures n.Continue? <==> i.wait.Succeeded?
    ensures n.Fatal? <==> i.wait.Failed?
    ensures n.Teardown? <==> i.wait.Timeout?
  {
    match Update(e, i)
    case Continue(e1) => Continue(DrawTransformationFixed(DrawPlanes(e1)))
    case n => n
  }

  /** The tick boundary the corrected sample keeps: nothing outstanding and no stale transformed pointer. */
  predicate Ready(e: Env) {
    Quiescent(e) && TransformedColor !in e.slots && TransformedDepth !in e.slots
  }

  /** After `update_color` and `update_depth`: the capture and the planes it carried are owned. */
  predicate Pulled(e: Env, i: TickInput) {
    && e.ok && e.leaked == {}
    && (Color in e.slots <==> i.color) && (Depth in e.slots <==> i.depth)
    && e.owned == {Capture} + (if i.color then {Color} else {}) + (if i.depth then {Depth} else {})
    && TransformedColor !in e.slots && TransformedDepth !in e.slots
  }

  /**
   * Between `update` and `draw`: the capture is released, every set image
   * pointer owns its handle, and the transformed pair is set exactly when
   * both planes are.
   */
  predicate Drawable(e: Env, i: TickInput) {
    && e.ok && e.leaked == {}
    && (Color in e.slots <==> i.color) && (Depth in e.slots <==> i.depth)
    && (TransformedColor in e.slots <==> i.color && i.depth)
    && (TransformedDepth in e.slots <==> i.color && i.depth)
    && e.owned == (if i.color then {Color} else {}) + (if i.depth then {Depth} else {})
                  + (if i.color && i.depth then {TransformedColor, TransformedDepth} else {})
  }

  lemma PullPlanes(e: Env, i: TickInput)
    requires Ready(e)
    ensures Pulled(PlaneC(PlaneC(Mint(e, Capture, GetCapture), i, Color), i, Depth), i)
  {
    var e1 := Mint(e, Capture, GetCapture);
    assert e1.ok && e1.leaked == {} && e1.owned == {Capture} && Capture in e1.slots;
    var e2 := PlaneC(e1, i, Color);
    PlaneCHeld(e1, i, Color);
    PlaneCHeld(e2, i, Depth);
  }

  /** `update_transformation` on pulled planes creates and owns both outputs exactly when both planes are set. */
  lemma TransformPulled(e: Env, i: TickInput)
    requires Pulled(e, i)
    ensures Drawable(Free(Transformation(e), Capture), i)
  {
    if i.color && i.depth {
      var e1 := Mint(Touch(e, Depth, ReadSize), TransformedColor, CreateImage);
      assert e1.ok && e1.leaked == {} && e1.owned == {Capture, Color, Depth, TransformedColor};
      var e2 := Touch(Touch(Touch(e1, Depth, Transform), Color, Transform), TransformedColor, Transform);
      assert e2.ok && e2.owned == e1.owned && e2.slots == e1.slots && e2.leaked == {};
      var e3 := Mint(Touch(e2, Color, ReadSize), TransformedDepth, CreateImage);
      assert e3.ok && e3.leaked == {} && e3.owned == {Capture, Color, Depth, TransformedColor, TransformedDepth};
      var e4 := Touch(Touch(e3, Depth, Transform), TransformedDepth, Transform);
      assert Transformation(e) == e4;
    }
  }

  /** `update` from a ready state leaves exactly the carried planes and their transforms owned. */
  lemma UpdateDrawable(e: Env, i: TickInput)
    requires Ready(e)
    ensures Update(e, i).Continue? ==> Drawable(Update(e, i).env, i)
    ensures !Update(e, i).Continue? ==> Update(e, i).env == e
  {
    if i.wait.Succeeded? {
      PullPlanes(e, i);
      TransformPulled(PlaneC(PlaneC(Mint(e, Capture, GetCapture), i, Color), i, Depth), i);
    }
  }

  /** The corrected `draw` releases and clears everything `update` left, filling each Mat it has an image for. */
  lemma DrawFixedReady(e: Env, i: TickInput)
    requires Drawable(e, i)
    ensures Ready(DrawTransformationFixed(DrawPlanes(e)))
    ensures forall r | r in {Color, Depth} :: r in DrawPlanes(e).mats <==> r in e.slots || r in e.mats
  {
    DrawnPlanes(e, i);
  }

  /**
   * The corrected tick keeps the ready state, and on a capture it fills the
   * colour and depth Mats that the capture carried.
   */
  lemma TickFixedReady(e: Env, i: TickInput)
    requires Ready(e)
    ensures Ready(TickFixed(e, i).env)
    ensures TickFixed(e, i).Continue? ==> (Color in TickFixed(e, i).env.mats <==> i.color || Color in e.mats)
    ensures TickFixed(e, i).Continue? ==> (Depth in TickFixed(e, i).env.mats <==> i.depth || Depth in e.mats)
  {
    UpdateDrawable(e, i);
    if i.wait.Succeeded? {
      var u := Update(e, i).env;
      DrawFixedReady(u, i);
      assert u.mats == e.mats;
    }
  }

  lemma TransformationSound(e: Env)
    requires Sound(e)
    ensures Sound(Transformation(e))
  {
    if Color in e.slots && Depth in e.slots {
      var a := Touch(e, Depth, ReadSize);
      TouchSound(e, Depth, ReadSize);
      var e1 := Mint(a, TransformedColor, CreateImage);
      MintSound(a, TransformedColor, CreateImage);
      var b := Touch(e1, Depth, Transform);
      TouchSound(e1, Depth, Transform);
      var c := Touch(b, Color, Transform);
      TouchSound(b, Color, Transform);
      var e2 := Touch(c, TransformedColor, Transform);
      TouchSound(c, TransformedColor, Transform);
      var d := Touch(e2, Color, ReadSize);
      TouchSound(e2, Color, ReadSize);
      var e3 := Mint(d, TransformedDepth, CreateImage);
      MintSound(d, TransformedDepth, CreateImage);
      var f := Touch(e3, Depth, Transform);
      TouchSound(e3, Depth, Transform);
      TouchSound(f, TransformedDepth, Transform);
    }
  }

  lemma UpdateSound(e: Env, i: TickInput)
    requires Sound(e)
    ensures Sound(Update(e, i).env)
  {
    if i.wait.Succeeded? {
      var e1 := Mint(e, Capture, GetCapture);
      MintSound(e, Capture, GetCapture);
      PlaneCSound(e1, i, Color);
      var e2 := PlaneC(e1, i, Color);
      PlaneCSound(e2, i, Depth);
      var e3 := PlaneC(e2, i, Depth);
      TransformationSound(e3);
      FreeSound(Transformation(e3), Capture);
    }
  }

  lemma DrawSound(e: Env)
    requires Sound(e)
    ensures Sound(DrawTransformation(DrawPlanes(e)))
    ensures Sound(DrawTransformationFixed(DrawPlanes(e)))
  {
    DrawCSound(e, Color);
    DrawCSound(DrawC(e, Color), Depth);
    var d := DrawPlanes(e);
    if TransformedColor in d.slots && TransformedDepth in d.slots {
      ConvertSound(d, TransformedColor);
      var c := Convert(Convert(d, TransformedColor), TransformedDepth);
      ConvertSound(Convert(d, TransformedColor), TransformedDepth);
      FreeSound(c, TransformedColor);
      FreeSound(Free(c, TransformedColor), TransformedDepth);
      ResetSound(c, TransformedColor);
      ResetSound(Reset(c, TransformedColor), TransformedDepth);
    }
  }

  /** Both ticks, as written and corrected, keep the handle bookkeeping in step with the trace. */
  lemma TickSound(e: Env, i: TickInput)
    requires Sound(e)
    ensures Sound(Tick(e, i).env) && Sound(TickFixed(e, i).env)
  {
    UpdateSound(e, i);
    DrawSound(Update(e, i).env);
  }

  /** A capture with colour and depth, then one without depth. */
  const Full := TickInput(Succeeded, false, true, true, false, Succeeded, Succeeded, true, true, -1, false)
  const NoDepth := Full.(depth := false)

  /**
   * As written, a tick whose capture carries both planes ends with nothing
   * outstanding but with the released transformed images still in their
   * pointers.
   */
  lemma BothPlanesLeaveStalePointers(e: Env, i: TickInput)
    requires Ready(e) && i.wait.Succeeded? && i.color && i.depth
    ensures Quiescent(Tick(e, i).env)
    ensures TransformedColor in Tick(e, i).env.slots && TransformedDepth in Tick(e, i).env.slots
  {
    UpdateDrawable(e, i);
    DrawAsWritten(Update(e, i).env, i);
  }

  /** As written, `draw` releases everything `update` left but clears nothing. */
  lemma DrawAsWritten(e: Env, i: TickInput)
    requires Drawable(e, i)
    ensures Quiescent(DrawTransformation(DrawPlanes(e)))
    ensures DrawTransformation(DrawPlanes(e)).slots == e.slots
  {
    DrawnPlanes(e, i);
  }

  /** `draw_color` and `draw_depth` release the planes and leave only the transformed pair owned, if it was made. */
  lemma DrawnPlanes(e: Env, i: TickInput)
    requires Drawable(e, i)
    ensures var d := DrawPlanes(e);
      && d.ok && d.leaked == {} && d.slots == e.slots
      && d.owned == (if i.color && i.depth then {TransformedColor, TransformedDepth} else {})
      && (forall r | r in {Color, Depth} :: r in d.mats <==> r in e.slots || r in e.mats)
  {
    var e1 := DrawC(e, Color);
    assert e1.ok && e1.leaked == {} && e1.owned == e.owned - {Color};
    var e2 := DrawC(e1, Depth);
    assert e2.ok && e2.leaked == {} && e2.owned == e.owned - {Color, Depth} && e2.slots == e.slots;
    if i.color && i.depth {
      assert e2.owned == {TransformedColor, TransformedDepth};
    } else {
      assert e2.owned == {};
    }
  }

  /**
   * As written, from such a state any tick whose capture lacks colour or
   * depth converts a transformed image that was already released.
   */
  lemma StaleReuse(e: Env, i: TickInput)
    requires Quiescent(e) && TransformedColor in e.slots && TransformedDepth in e.slots
    requires i.wait.Succeeded? && !(i.color && i.depth)
    ensures !Tick(e, i).env.ok
  {
    var u := StaleUpdate(e, i);
    StaleThroughUpdate(e, i);
    var d := DrawPlanes(u);
    StaleThroughDraw(u);
    assert !Convert(d, TransformedColor).ok;
  }

  /** `update` as the stale tick runs it: the capture is pulled and released, and the transformation is skipped. */
  function StaleUpdate(e: Env, i: TickInput): Env {
    Free(PlaneC(PlaneC(Mint(e, Capture, GetCapture), i, Color), i, Depth), Capture)
  }

  /** Pulling the planes and releasing the capture leaves the released transformed pair in place. */
  lemma StaleThroughUpdate(e: Env, i: TickInput)
    requires Quiescent(e) && TransformedColor in e.slots && TransformedDepth in e.slots
    requires i.wait.Succeeded? && !(i.color && i.depth)
    ensures Tick(e, i).env == DrawTransformation(DrawPlanes(StaleUpdate(e, i)))
    ensures Stale(StaleUpdate(e, i))
  {
    var e1 := Mint(e, Capture, GetCapture);
    assert Stale(e1) && Capture in e1.slots;
    var e2 := PlaneC(e1, i, Color);
    assert Stale(e2) && Capture in e2.slots;
    var e3 := PlaneC(e2, i, Depth);
    assert Stale(e3);
    assert Color !in e3.slots || Depth !in e3.slots;
    assert Transformation(e3) == e3;
  }

  /** Both transformed pointers are set, and the colour one no longer owns its image. */
  predicate Stale(e: Env) {
    TransformedColor in e.slots && TransformedDepth in e.slots && TransformedColor !in e.owned
  }

  lemma StaleThroughDraw(u: Env)
    requires Stale(u)
    ensures Stale(DrawPlanes(u))
  {
    var d1 := DrawC(u, Color);
    assert Stale(d1);
  }

  /** Hence the first two ticks of the sample, the second without depth, already misuse a handle. */
  lemma StaleTransformedImages()
    ensures !Tick(Tick(Start, Full).env, NoDepth).env.ok
  {
    assert Ready(Start);
    BothPlanesLeaveStalePointers(Start, Full);
    StaleReuse(Tick(Start, Full).env, NoDepth);
  }
}
