/**
 * The skeleton samples after tracking: `update_skeleton` copies every body
 * of the body frame into `bodies`, and `show_skeleton` (C, C++) or the
 * joint loop of `Window_Loaded` (C#) draws one marker per joint whose
 * projection into the colour camera is valid.
 */
module Markers {
  import opened Render

  /**
   * A joint as the tracker reports it, with its projection into the colour
   * image as the `float` pair `k4a_float2_t` / `Vector2` (`None` when the
   * projection is invalid).
   */
  datatype Joint = Joint(projection: Option<(real, real)>, confidence: Confidence)

  /** `k4abt_body_t`: an id and the joints of its skeleton. */
  datatype Body = Body(id: uint32, joints: seq<Joint>)

  /** What the body frame answers for one body index: the id, and the skeleton or a failed query. */
  datatype FrameBody = FrameBody(id: uint32, skeleton: Option<seq<Joint>>)

  /** How `update_skeleton` ends: the rebuilt `bodies`, or the exception thrown at a body whose skeleton could not be read. */
  datatype Collected = Collected(bodies: seq<Body>) | SkeletonFailed(at: nat)

  /**
   * `update_skeleton`: clear `bodies`, then fill one entry per body of the
   * frame, in order; a failed skeleton query throws.
   */
  method UpdateSkeleton(frame: seq<FrameBody>) returns (r: Collected)
    ensures r.Collected? <==> forall i | 0 <= i < |frame| :: frame[i].skeleton.Some?
    ensures r.Collected? ==> |r.bodies| == |frame|
    ensures r.Collected? ==> forall i | 0 <= i < |frame| :: r.bodies[i] == Body(frame[i].id, frame[i].skeleton.value)
    ensures r.SkeletonFailed? ==> r.at < |frame| && frame[r.at].skeleton.None?
    ensures r.SkeletonFailed? ==> forall i | 0 <= i < r.at :: frame[i].skeleton.Some?
  {
    var bodies: seq<Body> := [];
    var i := 0;
    while i < |frame|
      invariant 0 <= i <= |frame| && |bodies| == i
      invariant forall k | 0 <= k < i :: frame[k].skeleton.Some? && bodies[k] == Body(frame[k].id, frame[k].skeleton.value)
    {
      match frame[i].skeleton
      case None =>
        return SkeletonFailed(i);
      case Some(joints) =>
        bodies := bodies + [Body(frame[i].id, joints)];
      i := i + 1;
    }
    return Collected(bodies);
  }

  /**
   * `static_cast<int32_t>` of a `float`: the value rounded toward zero, so
   * the result never lies further from zero than the value and is less than
   * one away from it.
   */
  function Truncate(v: real): (n: int)
    ensures v >= 0.0 ==> 0 <= n && n as real <= v < n as real + 1.0
    ensures v < 0.0 ==> n <= 0 && n as real - 1.0 < v <= n as real
  {
    if v >= 0.0 then v.Floor else -((-v).Floor)
  }

  /** A whole-numbered value converts exactly. */
  lemma TruncateWhole(n: int)
    ensures Truncate(n as real) == n
  {
  }

  /** A `cv::circle` call: centre, colour and thickness (the radius is always 5). */
  datatype Circle = Circle(x: int, y: int, color: Vec3b, thickness: int)

  /** The circles `show_skeleton` draws for the joints of one body, in joint order; invalid projections are skipped. */
  function Circles(id: uint32, joints: seq<Joint>): (r: seq<Circle>)
    ensures |r| == Visible(joints) && |r| <= |joints|
    ensures forall k | 0 <= k < |r| :: r[k].color == Colors[SkeletonSlot(id)]
    ensures forall k | 0 <= k < |r| :: r[k].thickness == -1 || r[k].thickness == 1
  {
    if joints == [] then []
    else
      var rest := Circles(id, joints[1..]);
      match joints[0].projection
      case None => rest
      case Some(p) => [Circle(Truncate(p.0), Truncate(p.1), Colors[SkeletonSlot(id)], Thickness(joints[0].confidence))] + rest
  }

  /** How many joints have a valid projection. */
  function Visible(joints: seq<Joint>): nat {
    if joints == [] then 0 else (if joints[0].projection.Some? then 1 else 0) + Visible(joints[1..])
  }

  /**
   * When every projection is valid there is one circle per joint, at the
   * joint's position truncated to whole pixels, filled exactly when the joint's confidence is medium
   * or high.
   */
  lemma {:induction false} AllVisibleDrawn(id: uint32, joints: seq<Joint>)
    requires forall j | 0 <= j < |joints| :: joints[j].projection.Some?
    ensures |Circles(id, joints)| == |joints|
    ensures forall k | 0 <= k < |joints| ::
      Circles(id, joints)[k] == Circle(Truncate(joints[k].projection.value.0), Truncate(joints[k].projection.value.1),
        Colors[SkeletonSlot(id)], Thickness(joints[k].confidence))
  {
    if joints != [] {
      AllVisibleDrawn(id, joints[1..]);
    }
  }

  /** A body with no valid projection draws nothing. */
  lemma {:induction false} NoneVisible(id: uint32, joints: seq<Joint>)
    requires forall j | 0 <= j < |joints| :: joints[j].projection.None?
    ensures Circles(id, joints) == []
  {
    if joints != [] {
      NoneVisible(id, joints[1..]);
    }
  }

  /** Every body of `bodies`, in order. */
  function AllCircles(bodies: seq<Body>): (r: seq<Circle>)
    ensures |r| == VisibleAll(bodies)
  {
    if bodies == [] then [] else Circles(bodies[0].id, bodies[0].joints) + AllCircles(bodies[1..])
  }

  function VisibleAll(bodies: seq<Body>): nat {
    if bodies == [] then 0 else Visible(bodies[0].joints) + VisibleAll(bodies[1..])
  }

  /** A WPF ellipse on the canvas: top-left corner (`double`, no rounding), stroke, and fill (`None` is transparent). */
  datatype Ellipse = Ellipse(left: real, top: real, stroke: Bgra, fill: Option<Bgra>)

  /** The C# ellipses of one body: 10 wide, centred on the joint, so the corner is `radius / 2` = 5 up and left. */
  function Ellipses(id: uint32, joints: seq<Joint>): (r: seq<Ellipse>)
    ensures |r| == Visible(joints)
    ensures forall k | 0 <= k < |r| :: r[k].stroke == CsColors[CsSkeletonSlot(id)]
    ensures forall k | 0 <= k < |r| :: r[k].fill.Some? ==> r[k].fill.value == r[k].stroke
  {
    if joints == [] then []
    else
      var rest := Ellipses(id, joints[1..]);
      match joints[0].projection
      case None => rest
      case Some(p) => [Ellipse(p.0 - 5.0, p.1 - 5.0, CsColors[CsSkeletonSlot(id)], CsFill(joints[0].confidence, id))] + rest
  }

  /**
   * The C# window and the C/C++ samples mark the same joints: ellipse `k`
   * is centred on the unrounded projection (its corner plus 5), circle `k`
   * on that centre truncated toward zero, so the two centres differ by less
   * than a pixel on each axis; the ellipse is filled exactly when the circle
   * is.
   */
  lemma {:induction false} SameJointsMarked(id: uint32, joints: seq<Joint>)
    ensures |Ellipses(id, joints)| == |Circles(id, joints)|
    ensures forall k | 0 <= k < |Circles(id, joints)| ::
      && Circles(id, joints)[k].x == Truncate(Ellipses(id, joints)[k].left + 5.0)
      && Circles(id, joints)[k].y == Truncate(Ellipses(id, joints)[k].top + 5.0)
      && (Ellipses(id, joints)[k].fill.Some? <==> Circles(id, joints)[k].thickness == -1)
  {
    if joints != [] {
      SameJointsMarked(id, joints[1..]);
      if joints[0].projection.Some? {
        FillAgrees(joints[0].confidence, id);
      }
    }
  }

  /** A projection coordinate with no fractional part. */
  predicate Whole(v: real) {
    v == v.Floor as real
  }

  /**
   * Only when every valid projection falls on whole pixels do the two
   * drawings agree exactly: ellipse `k`'s corner is then 5 up and left of
   * circle `k`'s centre.
   */
  lemma {:induction false} WholeProjectionsAlign(id: uint32, joints: seq<Joint>)
    requires forall j | 0 <= j < |joints| && joints[j].projection.Some? ::
      Whole(joints[j].projection.value.0) && Whole(joints[j].projection.value.1)
    ensures |Ellipses(id, joints)| == |Circles(id, joints)|
    ensures forall k | 0 <= k < |Circles(id, joints)| ::
      && Ellipses(id, joints)[k].left == Circles(id, joints)[k].x as real - 5.0
      && Ellipses(id, joints)[k].top == Circles(id, joints)[k].y as real - 5.0
  {
    if joints != [] {
      WholeProjectionsAlign(id, joints[1..]);
      match joints[0].projection
      case None =>
      case Some(p) =>
        TruncateWhole(p.0.Floor);
        TruncateWhole(p.1.Floor);
    }
  }

  /** The canvas after one C# tick: cleared, then the ellipses of every body in order; nothing of the previous tick remains. */
  function AllEllipses(bodies: seq<Body>): (r: seq<Ellipse>)
    ensures |r| == VisibleAll(bodies)
  {
    if bodies == [] then [] else Ellipses(bodies[0].id, bodies[0].joints) + AllEllipses(bodies[1..])
  }
}
