/**
 * The C++ playback viewer (`sample/cpp/playback/kinect.cpp`). It reads
 * captures either from a live device or from a recording file. Each tick
 * pulls colour and depth and, when both are present, maps colour into the
 * depth camera and depth into the colour camera. A recording stores colour
 * as Motion JPEG, so in file mode the colour image is first decoded into a
 * Mat and wrapped in a temporary BGRA image for the transformation. `draw`
 * converts and resets every image; the transformed pair is drawn only when
 * both are set.
 */
module PlaybackCpp {
  import opened Handles
  import opened Pipeline

  /**
   * `update_frame`: from the device the wrapper throws unless the capture
   * succeeds. From a file the stream read answers end of file, which ends
   * the process, or success; any other answer (`i.wait` not `Succeeded`)
   * is a failed read, on which the playback wrapper throws.
   */
  function Frame(e: Env, i: TickInput, file: bool): (n: Next)
    ensures file ==> (n.EndOfStream? <==> i.eof)
    ensures file ==> (n.Fatal? <==> !i.eof && !i.wait.Succeeded?) && (n.Fatal? ==> n.cause == ReadFailed)
    ensures n.Continue? <==> (!file || !i.eof) && i.wait.Succeeded?
    ensures !file ==> (n.Fatal? <==> !i.wait.Succeeded?)
    ensures !n.Continue? ==> n.env == e
  {
    if !file then FrameCpp(e, i.wait, false)
    else if i.eof then EndOfStream(e)
    else if !i.wait.Succeeded? then Fatal(e, ReadFailed)
    else Continue(Assign(e, Capture, true, GetCapture))
  }

  /**
   * `update_transformation`: skipped unless both colour and depth are set;
   * otherwise colour into the depth camera, then depth into the colour camera.
   */
  function Transformation(e: Env, file: bool): (e': Env)
    ensures Color !in e.slots || Depth !in e.slots ==> e' == e
  {
    if Color !in e.slots || Depth !in e.slots then e
    else Assign(Touch(ColorToDepth(e, file), Depth, Transform), TransformedDepth, true, Transform)
  }

  /**
   * With colour and depth set, the transformation is legal exactly when both
   * are owned and neither transformed pointer dangles; it adds exactly the
   * transformed pair, loses nothing, and from a file fills the colour Mat.
   */
  lemma TransformationPair(e: Env, file: bool)
    requires Color in e.slots && Depth in e.slots && DecodedColor !in e.slots && DecodedColor !in e.owned
    ensures var e' := Transformation(e, file);
      && e'.ok == (e.ok && Color in e.owned && Depth in e.owned
        && (TransformedColor in e.slots ==> TransformedColor in e.owned) && (TransformedDepth in e.slots ==> TransformedDepth in e.owned))
      && e'.owned == e.owned + {TransformedColor, TransformedDepth}
      && e'.slots.Keys == e.slots.Keys + {TransformedColor, TransformedDepth}
      && e'.leaked == e.leaked
      && e'.mats == (if file then e.mats + {Color} else e.mats)
  {
    var c := ColorToDepth(e, file);
    assert Transformation(e, file) == DepthToColor(c);
    DepthToColorAdds(c);
    PairFacts(e, c, DepthToColor(c));
  }

  lemma PairFacts(e: Env, c: Env, z: Env)
    requires c.owned == e.owned + {TransformedColor} && c.slots.Keys == e.slots.Keys + {TransformedColor}
    requires c.leaked == e.leaked
    requires c.ok == (e.ok && Color in e.owned && Depth in e.owned && (TransformedColor in e.slots ==> TransformedColor in e.owned))
    requires (TransformedDepth in c.slots <==> TransformedDepth in e.slots) && (TransformedDepth in c.owned <==> TransformedDepth in e.owned)
    requires z.ok == (c.ok && Depth in c.owned && (TransformedDepth in c.slots ==> TransformedDepth in c.owned))
    requires z.owned == c.owned + {TransformedDepth} && z.slots.Keys == c.slots.Keys + {TransformedDepth}
    requires z.leaked == c.leaked && z.mats == c.mats
    ensures z.ok == (e.ok && Color in e.owned && Depth in e.owned
        && (TransformedColor in e.slots ==> TransformedColor in e.owned) && (TransformedDepth in e.slots ==> TransformedDepth in e.owned))
    ensures z.owned == e.owned + {TransformedColor, TransformedDepth}
    ensures z.slots.Keys == e.slots.Keys + {TransformedColor, TransformedDepth}
    ensures z.leaked == e.leaked
  {
  }

  /** `depth_image_to_color_camera` on the state `color_image_to_depth_camera` left. */
  function DepthToColor(c: Env): Env {
    Assign(Touch(c, Depth, Transform), TransformedDepth, true, Transform)
  }

  lemma DepthToColorAdds(c: Env)
    ensures var z := DepthToColor(c);
      && z.ok == (c.ok && Depth in c.owned && (TransformedDepth in c.slots ==> TransformedDepth in c.owned))
      && z.owned == c.owned + {TransformedDepth}
      && z.slots.Keys == c.slots.Keys + {TransformedDepth}
      && z.leaked == c.leaked && z.mats == c.mats
  {
  }

  /**
   * `color_image_to_depth_camera`. From a file the colour image is decoded
   * into the colour Mat, and a temporary image made from the Mat's buffer is
   * transformed instead, then reset at the end of its block.
   */
  function ColorToDepth(e: Env, file: bool): (e': Env)
    ensures DecodedColor !in e.slots && DecodedColor !in e.owned ==>
      && e'.owned == e.owned + {TransformedColor}
      && e'.slots.Keys == e.slots.Keys + {TransformedColor}
      && e'.leaked == e.leaked
      && e'.ok == (e.ok && Color in e.owned && Depth in e.owned && (TransformedColor in e.slots ==> TransformedColor in e.owned))
    ensures TransformedDepth in e'.slots <==> TransformedDepth in e.slots
    ensures TransformedDepth in e'.owned <==> TransformedDepth in e.owned
    ensures e'.mats == if file then e.mats + {Color} else e.mats
  {
    if file then
      var d := Decoded(e);
      Reset(Assign(Touch(Touch(d, Depth, Transform), DecodedColor, Transform), TransformedColor, true, Transform), DecodedColor)
    else Assign(Touch(Touch(e, Depth, Transform), Color, Transform), TransformedColor, true, Transform)
  }

  /** The colour image decoded into the colour Mat, and a temporary BGRA image made from the Mat's buffer. */
  function Decoded(e: Env): (e': Env)
    ensures e'.owned == e.owned + {DecodedColor} && e'.slots.Keys == e.slots.Keys + {DecodedColor}
    ensures DecodedColor !in e.slots || DecodedColor !in e.owned ==> e'.leaked == e.leaked
    ensures e'.ok == (e.ok && Color in e.owned) && e'.mats == e.mats + {Color}
    ensures e'.slots - {DecodedColor} == e.slots - {DecodedColor}
  {
    Mint(Convert(e, Color), DecodedColor, Decode)
  }

  /** `update`: frame, colour, depth, transformation, then `capture.reset()`. */
  function Update(e: Env, i: TickInput, file: bool): Next {
    match Frame(e, i, file)
    case Continue(e1) => Continue(Reset(Transformation(Planes(e1, i), file), Capture))
    case n => n
  }

  /** `update_color` then `update_depth`. */
  function Planes(e: Env, i: TickInput): Env {
    Take(Take(e, Capture, Color, i.color, GetColor), Capture, Depth, i.depth, GetDepth)
  }

  /** `draw_transformation`: both transformed images converted and reset, or neither. */
  function DrawTransformation(e: Env): (e': Env)
    ensures TransformedColor in e.slots && TransformedDepth in e.slots ==>
      && e'.owned == e.owned - {TransformedColor, TransformedDepth}
      && e'.slots.Keys == e.slots.Keys - {TransformedColor, TransformedDepth}
      && e'.mats == e.mats + {TransformedColor, TransformedDepth}
      && e'.ok == (e.ok && TransformedColor in e.owned && TransformedDepth in e.owned)
    ensures !(TransformedColor in e.slots && TransformedDepth in e.slots) ==> e' == e
    ensures e'.leaked == e.leaked
  {
    if TransformedColor in e.slots && TransformedDepth in e.slots then
      Reset(Reset(Convert(Convert(e, TransformedColor), TransformedDepth), TransformedColor), TransformedDepth)
    else e
  }

  function Draw(e: Env): Env {
    DrawTransformation(DrawCpp(DrawCpp(e, Color), Depth))
  }

  /** One iteration of `run`, from the device (`file` false) or from a recording. */
  function Tick(e: Env, i: TickInput, file: bool): (n: Next)
    ensures n.Continue? <==> (!file || !i.eof) && i.wait.Succeeded?
    ensures n.EndOfStream? <==> file && i.eof
    ensures !n.Continue? ==> n.env == e
  {
    match Update(e, i, file)
    case Continue(e1) => Continue(Draw(e1))
    case n => n
  }

  /** The state once the capture is in hand. */
  function FrameEnv(e: Env): Env {
    Assign(e, Capture, true, GetCapture)
  }

  lemma TickShape(e: Env, i: TickInput, file: bool)
    requires (!file || !i.eof) && i.wait.Succeeded?
    ensures Tick(e, i, file) == Continue(Draw(Reset(Transformation(Planes(FrameEnv(e), i), file), Capture)))
  {
  }

  lemma FrameHeld(e: Env)
    requires Clean(e)
    ensures var x := FrameEnv(e);
      x.ok && x.leaked == {} && x.owned == {Capture} && x.slots.Keys == {Capture} && x.mats == e.mats
  {
  }

  /** After the planes are pulled exactly the capture and the images it carried are held. */
  lemma PlanesHeld(x: Env, i: TickInput)
    requires x.ok && x.leaked == {} && x.owned == {Capture} && x.slots.Keys == {Capture}
    ensures var y := Planes(x, i);
      && y.ok && y.leaked == {} && y.owned == y.slots.Keys
      && y.owned == {Capture} + Opt(i.color, Color) + Opt(i.depth, Depth) && y.mats == x.mats
  {
  }

  /** The transformation, in either mode, adds exactly the transformed pair when both images are present. */
  lemma TransformationHeld(y: Env, i: TickInput, file: bool)
    requires y.ok && y.leaked == {} && y.owned == y.slots.Keys
    requires y.owned == {Capture} + Opt(i.color, Color) + Opt(i.depth, Depth)
    ensures var z := Transformation(y, file);
      var both := i.color && i.depth;
      && z.ok && z.leaked == {} && z.owned == z.slots.Keys
      && z.owned == y.owned + Opt(both, TransformedColor) + Opt(both, TransformedDepth)
      && z.mats == (if file && both then y.mats + {Color} else y.mats)
  {
    if i.color && i.depth {
      assert y.owned == {Capture, Color, Depth};
      TransformationBoth(y, file);
    } else {
      assert Color !in y.slots || Depth !in y.slots;
    }
  }

  lemma TransformationBoth(y: Env, file: bool)
    requires y.ok && y.leaked == {} && y.owned == y.slots.Keys && y.owned == {Capture, Color, Depth}
    ensures var z := Transformation(y, file);
      && z.ok && z.leaked == {} && z.owned == z.slots.Keys
      && z.owned == {Capture, Color, Depth, TransformedColor, TransformedDepth}
      && z.mats == (if file then y.mats + {Color} else y.mats)
  {
    ColorToDepthHeld(y, file);
    DepthToColorHeld(ColorToDepth(y, file));
  }

  lemma ColorToDepthHeld(y: Env, file: bool)
    requires y.ok && y.leaked == {} && y.owned == y.slots.Keys && y.owned == {Capture, Color, Depth}
    ensures var w := ColorToDepth(y, file);
      && w.ok && w.leaked == {} && w.owned == w.slots.Keys && w.owned == {Capture, Color, Depth, TransformedColor}
      && w.mats == (if file then y.mats + {Color} else y.mats)
  {
  }

  lemma DepthToColorHeld(w: Env)
    requires w.ok && w.leaked == {} && w.owned == w.slots.Keys && w.owned == {Capture, Color, Depth, TransformedColor}
    ensures var z := Assign(Touch(w, Depth, Transform), TransformedDepth, true, Transform);
      && z.ok && z.leaked == {} && z.owned == z.slots.Keys
      && z.owned == {Capture, Color, Depth, TransformedColor, TransformedDepth} && z.mats == w.mats
  {
  }

  /** Drawing colour and depth after the capture reset leaves at most the transformed pair held. */
  lemma DrawPlanes(z: Env, i: TickInput)
    requires z.ok && z.leaked == {} && z.owned == z.slots.Keys
    requires z.owned == {Capture} + Opt(i.color, Color) + Opt(i.depth, Depth)
      + Opt(i.color && i.depth, TransformedColor) + Opt(i.color && i.depth, TransformedDepth)
    ensures var d := DrawCpp(DrawCpp(Reset(z, Capture), Color), Depth);
      var both := i.color && i.depth;
      && d.ok && d.leaked == {} && d.owned == d.slots.Keys
      && d.owned == Opt(both, TransformedColor) + Opt(both, TransformedDepth)
      && d.mats == z.mats + Opt(i.color, Color) + Opt(i.depth, Depth)
  {
    var both := i.color && i.depth;
    var r := Reset(z, Capture);
    assert r.ok && r.leaked == {} && r.owned == r.slots.Keys;
    assert r.owned == Opt(i.color, Color) + Opt(i.depth, Depth) + Opt(both, TransformedColor) + Opt(both, TransformedDepth);
    var c := DrawCpp(r, Color);
    assert c.ok && c.leaked == {} && c.owned == c.slots.Keys;
    assert c.owned == Opt(i.depth, Depth) + Opt(both, TransformedColor) + Opt(both, TransformedDepth);
  }

  /** Drawing the transformed pair resets both and fills their Mats. */
  lemma DrawPair(d: Env, both: bool)
    requires d.ok && d.leaked == {} && d.owned == d.slots.Keys
    requires d.owned == Opt(both, TransformedColor) + Opt(both, TransformedDepth)
    ensures Clean(DrawTransformation(d))
    ensures DrawTransformation(d).mats == d.mats + Opt(both, TransformedColor) + Opt(both, TransformedDepth)
  {
  }

  /**
   * A tick, from the device or from a file, that starts with every handle
   * empty ends with every handle empty and nothing outstanding. Each Mat is
   * refilled exactly when the capture carried its image; the transformed
   * Mats exactly when it carried both. The end of a recording, or a failed
   * device capture, changes nothing.
   */
  lemma TickClean(e: Env, i: TickInput, file: bool)
    requires Clean(e)
    ensures Clean(Tick(e, i, file).env)
    ensures Tick(e, i, file).Continue? ==>
      var both := i.color && i.depth;
      Tick(e, i, file).env.mats == e.mats + Opt(i.color, Color) + Opt(i.depth, Depth) + Opt(both, TransformedColor) + Opt(both, TransformedDepth)
  {
    if Tick(e, i, file).Continue? {
      TickShape(e, i, file);
      FrameHeld(e);
      PlanesHeld(FrameEnv(e), i);
      TransformationHeld(Planes(FrameEnv(e), i), i, file);
      var z := Transformation(Planes(FrameEnv(e), i), file);
      DrawPlanes(z, i);
      DrawPair(DrawCpp(DrawCpp(Reset(z, Capture), Color), Depth), i.color && i.depth);
    }
  }

  /** A tick keeps the handle bookkeeping in step with the trace of SDK calls. */
  lemma TickSound(e: Env, i: TickInput, file: bool)
    requires Sound(e)
    ensures Sound(Tick(e, i, file).env)
  {
    if Tick(e, i, file).Continue? {
      TickShape(e, i, file);
      AssignSound(e, Capture, true, GetCapture);
      var e1 := FrameEnv(e);
      TakeSound(e1, Capture, Color, i.color, GetColor);
      TakeSound(Take(e1, Capture, Color, i.color, GetColor), Capture, Depth, i.depth, GetDepth);
      TransformationSound(Planes(e1, i), file);
      var z := Transformation(Planes(e1, i), file);
      ResetSound(z, Capture);
      DrawSound(Reset(z, Capture));
    }
  }

  lemma TransformationSound(e: Env, file: bool)
    requires Sound(e)
    ensures Sound(Transformation(e, file))
  {
    if Color in e.slots && Depth in e.slots {
      ColorToDepthSound(e, file);
      var e1 := ColorToDepth(e, file);
      TouchSound(e1, Depth, Transform);
      AssignSound(Touch(e1, Depth, Transform), TransformedDepth, true, Transform);
    }
  }

  lemma ColorToDepthSound(e: Env, file: bool)
    requires Sound(e)
    ensures Sound(ColorToDepth(e, file))
  {
    if file {
      ConvertSound(e, Color);
      var d := Decoded(e);
      MintSound(Convert(e, Color), DecodedColor, Decode);
      TouchSound(d, Depth, Transform);
      TouchSound(Touch(d, Depth, Transform), DecodedColor, Transform);
      var t := Touch(Touch(d, Depth, Transform), DecodedColor, Transform);
      AssignSound(t, TransformedColor, true, Transform);
      ResetSound(Assign(t, TransformedColor, true, Transform), DecodedColor);
    } else {
      TouchSound(e, Depth, Transform);
      TouchSound(Touch(e, Depth, Transform), Color, Transform);
      AssignSound(Touch(Touch(e, Depth, Transform), Color, Transform), TransformedColor, true, Transform);
    }
  }

  lemma DrawSound(e: Env)
    requires Sound(e)
    ensures Sound(Draw(e))
  {
    DrawCppSound(e, Color);
    DrawCppSound(DrawCpp(e, Color), Depth);
    var x := DrawCpp(DrawCpp(e, Color), Depth);
    if TransformedColor in x.slots && TransformedDepth in x.slots {
      ConvertSound(x, TransformedColor);
      ConvertSound(Convert(x, TransformedColor), TransformedDepth);
      var y := Convert(Convert(x, TransformedColor), TransformedDepth);
      ResetSound(y, TransformedColor);
      ResetSound(Reset(y, TransformedColor), TransformedDepth);
    }
  }
}
