/**
 * The body loop of the C# skeleton window
 * (`sample/csharp/skeleton/MainWindow.xaml.cs`): each iteration takes a
 * capture, hands it to the tracker, copies the colour image of the body
 * frame's capture into the colour bitmap, clears the canvas and adds one
 * ellipse per joint with a valid projection, body by body. Every handle of
 * the iteration sits in a `using` scope.
 */
module CsSkeleton {
  import opened Handles
  import opened Pipeline
  import opened CsLoop
  import opened Render
  import opened Markers

  /**
   * The body of the inner `using` block, from the popped body frame on:
   * `color_image.Memory` throws when the frame's capture has no colour, and
   * `GetBodySkeleton` throws when a skeleton cannot be read.
   */
  function Images(x: Env, i: TickInput, skeletons: bool): (n: Next)
    ensures n.Continue? <==> i.inferenceColor && skeletons
    ensures n.Fatal? <==> !(i.inferenceColor && skeletons)
    ensures n.Fatal? ==> n.cause == if !i.inferenceColor then MissingColor else BodyUnreadable
  {
    var c := Extract(x, BodyFrame, Color, i.inferenceColor, GetColor);
    if !i.inferenceColor then Fatal(Dispose(c), MissingColor)
    else
      var b := Touch(Convert(c, Color), BodyFrame, ReadBodies);
      if skeletons then Continue(Dispose(b)) else Fatal(Dispose(b), BodyUnreadable)
  }

  /** One iteration of the `Window_Loaded` loop. */
  function Tick(e: Env, i: TickInput, skeletons: bool): (n: Next)
    ensures n.Continue? <==> Tracked(i) && i.inferenceColor && skeletons
    ensures !n.Continue? ==> n.Fatal?
  {
    match Tracking(e, i)
    case Continue(x) => Images(x, i, skeletons)
    case n => n
  }

  /** The ellipses the body loop adds: body by body, up to the first skeleton that cannot be read. */
  function Drawn(frame: seq<FrameBody>): seq<Ellipse> {
    if frame == [] then []
    else match frame[0].skeleton
      case None => []
      case Some(joints) => Ellipses(frame[0].id, joints) + Drawn(frame[1..])
  }

  /**
   * The canvas after an iteration: cleared and redrawn once the colour
   * bitmap is written, untouched when the iteration throws before that.
   */
  function CanvasAfter(prev: seq<Ellipse>, i: TickInput, frame: seq<FrameBody>): (r: seq<Ellipse>)
    ensures !(Tracked(i) && i.inferenceColor) ==> r == prev
  {
    if Tracked(i) && i.inferenceColor then Drawn(frame) else prev
  }

  /**
   * When every skeleton can be read the canvas holds exactly the ellipses of
   * the bodies `update_skeleton` would collect, in order: nothing of the
   * previous iteration remains.
   */
  lemma {:induction false} DrawnAll(frame: seq<FrameBody>, bodies: seq<Body>)
    requires |bodies| == |frame|
    requires forall k | 0 <= k < |frame| :: frame[k].skeleton == Some(bodies[k].joints) && frame[k].id == bodies[k].id
    ensures Drawn(frame) == AllEllipses(bodies)
  {
    if frame != [] {
      DrawnAll(frame[1..], bodies[1..]);
    }
  }

  /** A skeleton that cannot be read stops the drawing: the canvas keeps the ellipses of the bodies before it. */
  lemma {:induction false} DrawnStops(frame: seq<FrameBody>, j: nat)
    requires j < |frame| && frame[j].skeleton.None?
    requires forall k | 0 <= k < j :: frame[k].skeleton.Some?
    ensures Drawn(frame) == Drawn(frame[..j])
  {
    if j > 0 {
      assert frame[1..][..j - 1] == frame[..j][1..];
      DrawnStops(frame[1..], j - 1);
    }
  }

  /** Every way the inner block ends leaves every handle empty; the colour bitmap is written exactly when there was colour. */
  lemma ImagesClean(x: Env, i: TickInput, skeletons: bool)
    requires Owns(x) && x.slots.Keys <= {Capture, BodyFrame} && BodyFrame in x.slots
    ensures Clean(Images(x, i, skeletons).env)
    ensures Images(x, i, skeletons).env.mats == x.mats + Opt(i.inferenceColor, Color)
  {
    var c := Extract(x, BodyFrame, Color, i.inferenceColor, GetColor);
    assert Owns(c) && c.slots.Keys <= {Capture, BodyFrame, Color} && c.mats == x.mats;
    if !i.inferenceColor {
      DisposeClean(c);
    } else {
      var b := Touch(Convert(c, Color), BodyFrame, ReadBodies);
      assert Owns(b) && b.slots.Keys <= {Capture, BodyFrame, Color} && b.mats == x.mats + {Color};
      DisposeClean(b);
    }
  }

  /**
   * Every iteration that starts with every handle empty ends with every
   * handle empty, whether it completes or throws. The colour bitmap is
   * written exactly when the tracker answered and the frame's capture
   * carried colour.
   */
  lemma TickClean(e: Env, i: TickInput, skeletons: bool)
    requires Clean(e)
    ensures Clean(Tick(e, i, skeletons).env)
    ensures Tick(e, i, skeletons).env.mats == e.mats + Opt(Tracked(i) && i.inferenceColor, Color)
  {
    TrackingHolds(e, i);
    if Tracked(i) {
      ImagesClean(Tracking(e, i).env, i, skeletons);
    }
  }

  /** An iteration keeps the handle bookkeeping in step with the trace of SDK calls. */
  lemma TickSound(e: Env, i: TickInput, skeletons: bool)
    requires Sound(e)
    ensures Sound(Tick(e, i, skeletons).env)
  {
    TrackingSound(e, i);
    if Tracked(i) {
      ImagesSound(Tracking(e, i).env, i, skeletons);
    }
  }

  lemma ImagesSound(x: Env, i: TickInput, skeletons: bool)
    requires Sound(x)
    ensures Sound(Images(x, i, skeletons).env)
  {
    ExtractSound(x, BodyFrame, Color, i.inferenceColor, GetColor);
    var c := Extract(x, BodyFrame, Color, i.inferenceColor, GetColor);
    DisposeSound(c);
    ConvertSound(c, Color);
    TouchSound(Convert(c, Color), BodyFrame, ReadBodies);
    DisposeSound(Touch(Convert(c, Color), BodyFrame, ReadBodies));
  }
}
