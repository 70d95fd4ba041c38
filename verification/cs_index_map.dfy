/**
 * The body loop of the C# body index map window
 * (`sample/csharp/index_map/MainWindow.xaml.cs`): each iteration takes a
 * capture, hands it to the tracker, copies the colour image of the body
 * frame's capture into the colour bitmap, maps the body index map into the
 * colour camera and paints it. Every handle of the iteration sits in a
 * `using` scope, so it is disposed when the iteration ends, normally or by
 * an exception.
 */
module CsIndexMap {
  import opened Handles
  import opened Pipeline
  import opened CsLoop

  /**
   * The body of the inner `using` block, from the popped body frame on:
   * `color_image.Memory` throws when the frame's capture has no colour, and
   * the transformation throws when the depth image or the index map is
   * missing. The mapped index map is copied out and disposed.
   */
  function Images(x: Env, i: TickInput): (n: Next)
    ensures n.Continue? <==> i.inferenceColor && i.depth && i.indexMap
    ensures n.Fatal? <==> !(i.inferenceColor && i.depth && i.indexMap)
    ensures n.Fatal? ==> n.cause == (if !i.inferenceColor then MissingColor else if !i.depth then MissingDepth else MissingIndexMap)
  {
    var c := Extract(x, BodyFrame, Color, i.inferenceColor, GetColor);
    if !i.inferenceColor then Fatal(Dispose(c), MissingColor)
    else
      var t := Touch(Convert(c, Color), BodyFrame, Transform);
      if !i.depth then Fatal(Dispose(t), MissingDepth)
      else if !i.indexMap then Fatal(Dispose(t), MissingIndexMap)
      else Continue(Dispose(Mapped(t)))
  }

  /** The mapped index map: made by the transformation, painted into its bitmap, disposed. */
  function Mapped(t: Env): Env {
    Reset(Convert(Mint(t, TransformedBodyIndexMap, Transform), TransformedBodyIndexMap), TransformedBodyIndexMap)
  }

  /** One iteration of the `Window_Loaded` loop. */
  function Tick(e: Env, i: TickInput): (n: Next)
    ensures n.Continue? <==> Tracked(i) && i.inferenceColor && i.depth && i.indexMap
    ensures !n.Continue? ==> n.Fatal?
  {
    match Tracking(e, i)
    case Continue(x) => Images(x, i)
    case n => n
  }

  /** The colour image joins the capture and the body frame exactly when the frame's capture carried one. */
  lemma ColorHeld(x: Env, i: TickInput)
    requires Owns(x) && x.slots.Keys <= {Capture, BodyFrame} && BodyFrame in x.slots
    ensures var c := Extract(x, BodyFrame, Color, i.inferenceColor, GetColor);
      && Owns(c) && c.slots.Keys <= {Capture, BodyFrame, Color} && c.mats == x.mats
      && (Color in c.slots <==> i.inferenceColor) && BodyFrame in c.slots
  {
  }

  /** Painting the mapped index map leaves no handle of its own behind. */
  lemma MappedHeld(t: Env)
    requires Owns(t) && t.slots.Keys <= {Capture, BodyFrame, Color}
    ensures var m := Mapped(t);
      Owns(m) && m.slots.Keys <= {Capture, BodyFrame, Color} && m.mats == t.mats + {TransformedBodyIndexMap}
  {
    OwnsMint(t, TransformedBodyIndexMap, Transform);
    var m1 := Mint(t, TransformedBodyIndexMap, Transform);
    assert Owns(Convert(m1, TransformedBodyIndexMap));
    OwnsReset(Convert(m1, TransformedBodyIndexMap), TransformedBodyIndexMap);
  }

  /** Every way the inner block ends leaves every handle empty; the bitmaps it reached are repainted. */
  lemma ImagesClean(x: Env, i: TickInput)
    requires Owns(x) && x.slots.Keys <= {Capture, BodyFrame} && BodyFrame in x.slots
    ensures Clean(Images(x, i).env)
    ensures Images(x, i).env.mats ==
      x.mats + Opt(i.inferenceColor, Color) + Opt(i.inferenceColor && i.depth && i.indexMap, TransformedBodyIndexMap)
  {
    ColorHeld(x, i);
    var c := Extract(x, BodyFrame, Color, i.inferenceColor, GetColor);
    if !i.inferenceColor {
      DisposeClean(c);
    } else {
      var t := Touch(Convert(c, Color), BodyFrame, Transform);
      assert Owns(t) && t.slots.Keys <= {Capture, BodyFrame, Color} && t.mats == x.mats + {Color};
      if i.depth && i.indexMap {
        MappedHeld(t);
        DisposeClean(Mapped(t));
      } else {
        DisposeClean(t);
      }
    }
  }

  /**
   * Every iteration that starts with every handle empty ends with every
   * handle empty, whether it completes or throws: the `using` scopes dispose
   * whatever the iteration acquired. The colour bitmap is repainted exactly
   * when the tracker answered and the frame's capture carried colour, and the
   * index map bitmap exactly when the iteration completes.
   */
  lemma TickClean(e: Env, i: TickInput)
    requires Clean(e)
    ensures Clean(Tick(e, i).env)
    ensures Tick(e, i).env.mats ==
      e.mats + Opt(Tracked(i) && i.inferenceColor, Color) + Opt(Tick(e, i).Continue?, TransformedBodyIndexMap)
  {
    TrackingHolds(e, i);
    if Tracked(i) {
      ImagesClean(Tracking(e, i).env, i);
    }
  }

  /** An iteration keeps the handle bookkeeping in step with the trace of SDK calls. */
  lemma TickSound(e: Env, i: TickInput)
    requires Sound(e)
    ensures Sound(Tick(e, i).env)
  {
    TrackingSound(e, i);
    if Tracked(i) {
      ImagesSound(Tracking(e, i).env, i);
    }
  }

  lemma ImagesSound(x: Env, i: TickInput)
    requires Sound(x)
    ensures Sound(Images(x, i).env)
  {
    ExtractSound(x, BodyFrame, Color, i.inferenceColor, GetColor);
    var c := Extract(x, BodyFrame, Color, i.inferenceColor, GetColor);
    DisposeSound(c);
    ConvertSound(c, Color);
    TouchSound(Convert(c, Color), BodyFrame, Transform);
    var t := Touch(Convert(c, Color), BodyFrame, Transform);
    DisposeSound(t);
    MintSound(t, TransformedBodyIndexMap, Transform);
    var m1 := Mint(t, TransformedBodyIndexMap, Transform);
    ConvertSound(m1, TransformedBodyIndexMap);
    ResetSound(Convert(m1, TransformedBodyIndexMap), TransformedBodyIndexMap);
    DisposeSound(Mapped(t));
  }
}
