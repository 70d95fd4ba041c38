/**
 * The C++ body index map viewer (`sample/cpp/index_map/kinect.cpp`): each
 * tick pulls colour and depth out of a capture, tracks bodies, pulls the body
 * index map out of the body frame and, when both depth and the index map are
 * present, maps the index map into the colour camera; `draw` converts and
 * resets the colour image, the index map and the mapped index map. The depth
 * image is never reset: it stays held until the next tick replaces it.
 */
module IndexMapCpp {
  import opened Handles
  import opened Pipeline

  /**
   * The state between ticks: nothing misused, every set handle owns its
   * reference, nothing leaked, and only the depth image may still be held.
   */
  predicate Settled(e: Env) {
    Owns(e) && e.slots.Keys <= {Depth}
  }

  /** `update_color` then `update_depth`, each a move-assignment from the capture. */
  function Planes(e: Env, i: TickInput): Env {
    Take(Take(e, Capture, Color, i.color, GetColor), Capture, Depth, i.depth, GetDepth)
  }

  /** `update_body_index_map`: a move-assignment from the body frame. */
  function IndexMap(e: Env, i: TickInput): Env {
    Take(e, BodyFrame, BodyIndexMap, i.indexMap, GetBodyIndexMap)
  }

  /**
   * `update_transformation`: skipped unless both the depth image and the
   * index map are set. The SDK returns the mapped depth and the mapped index
   * map; the index map is move-assigned into its member and the mapped depth,
   * bound to `std::ignore`, is released when the returned pair goes away.
   */
  function Transformation(e: Env): (e': Env)
    ensures !(Depth in e.slots && BodyIndexMap in e.slots) ==> e' == e
  {
    if Depth in e.slots && BodyIndexMap in e.slots then
      var e1 := Touch(Touch(e, Depth, Transform), BodyIndexMap, Transform);
      Reset(Assign(Mint(e1, TransformedDepth, Transform), TransformedBodyIndexMap, true, Transform), TransformedDepth)
    else e
  }

  /**
   * `update`: frame (self-destruction when the device returns false), colour,
   * depth, body tracking, index map, transformation, then `capture.reset()`
   * and `frame.reset()`.
   */
  function Update(e: Env, i: TickInput): Next {
    match FrameCpp(e, i.wait, true)
    case Continue(e1) =>
      (match TrackCpp(Planes(e1, i), i.enqueue, i.pop)
       case Continue(e2) => Continue(Reset(Reset(Transformation(IndexMap(e2, i)), Capture), BodyFrame))
       case n => n)
    case n => n
  }

  /** `draw`: colour, index map, mapped index map, each converted and reset when set. */
  function Draw(e: Env): Env {
    DrawCpp(DrawCpp(DrawCpp(e, Color), BodyIndexMap), TransformedBodyIndexMap)
  }

  /** One iteration of `run`: update, then draw. */
  function Tick(e: Env, i: TickInput): (n: Next)
    ensures n.Continue? <==> Tracked(i)
    ensures n.Teardown? <==> i.wait.Timeout?
    ensures n.Fatal? <==> !i.wait.Timeout? && !Tracked(i)
  {
    match Update(e, i)
    case Continue(e1) => Continue(Draw(e1))
    case n => n
  }

  /** The state after tracking, just before `update_body_index_map`. */
  function TrackedEnv(e: Env, i: TickInput): Env {
    TrackCpp(Planes(Assign(e, Capture, true, GetCapture), i), i.enqueue, i.pop).env
  }

  lemma TickShape(e: Env, i: TickInput)
    requires Tracked(i)
    ensures Tick(e, i) == Continue(Draw(Indexed(TrackedEnv(e, i), i)))
  {
  }

  /** After the planes are pulled the capture and the images it carried are held; the previous depth image is gone. */
  lemma PlanesHeld(e: Env, i: TickInput)
    requires Settled(e)
    ensures var x := Planes(Assign(e, Capture, true, GetCapture), i);
      && Owns(x) && x.slots.Keys <= {Capture, Color, Depth} && x.mats == e.mats
      && Capture in x.slots && (Color in x.slots <==> i.color) && (Depth in x.slots <==> i.depth)
  {
    var x0 := Assign(e, Capture, true, GetCapture);
    OwnsAssign(e, Capture, true, GetCapture);
    OwnsTake(x0, Capture, Color, i.color, GetColor);
    OwnsTake(Take(x0, Capture, Color, i.color, GetColor), Capture, Depth, i.depth, GetDepth);
  }

  /** Tracking adds the body frame. */
  lemma TrackHeld(p: Env, i: TickInput)
    requires Owns(p) && Capture in p.slots && p.slots.Keys <= {Capture, Color, Depth} && Tracked(i)
    ensures var x := TrackCpp(p, i.enqueue, i.pop).env;
      && Owns(x) && x.slots.Keys <= {Capture, BodyFrame, Color, Depth} && x.mats == p.mats && BodyFrame in x.slots
      && (Color in x.slots <==> Color in p.slots) && (Depth in x.slots <==> Depth in p.slots)
  {
    OwnsTouch(p, Capture, Enqueue);
    OwnsAssign(Touch(p, Capture, Enqueue), BodyFrame, true, PopResult);
  }

  /** The index map is held exactly when the body frame carried one. */
  lemma IndexMapHeld(x: Env, i: TickInput)
    requires Owns(x) && BodyFrame in x.slots && x.slots.Keys <= {Capture, BodyFrame, Color, Depth}
    ensures var y := IndexMap(x, i);
      && Owns(y) && y.mats == x.mats && y.slots.Keys <= {Capture, BodyFrame, Color, Depth, BodyIndexMap}
      && (Color in y.slots <==> Color in x.slots) && (Depth in y.slots <==> Depth in x.slots)
      && (BodyIndexMap in y.slots <==> i.indexMap)
  {
    OwnsTake(x, BodyFrame, BodyIndexMap, i.indexMap, GetBodyIndexMap);
  }

  /** The mapped index map is made exactly when both depth and the index map are set; the mapped depth is released at once. */
  lemma TransformationHeld(y: Env)
    requires Owns(y) && y.slots.Keys <= {Capture, BodyFrame, Color, Depth, BodyIndexMap}
    ensures var z := Transformation(y);
      && Owns(z) && z.mats == y.mats && z.slots.Keys <= {Capture, BodyFrame, Color, Depth, BodyIndexMap, TransformedBodyIndexMap}
      && (Color in z.slots <==> Color in y.slots) && (Depth in z.slots <==> Depth in y.slots)
      && (BodyIndexMap in z.slots <==> BodyIndexMap in y.slots)
      && (TransformedBodyIndexMap in z.slots <==> Depth in y.slots && BodyIndexMap in y.slots)
  {
    if Depth in y.slots && BodyIndexMap in y.slots {
      OwnsTouch(y, Depth, Transform);
      var e1 := Touch(Touch(y, Depth, Transform), BodyIndexMap, Transform);
      OwnsTouch(Touch(y, Depth, Transform), BodyIndexMap, Transform);
      OwnsMint(e1, TransformedDepth, Transform);
      var e2 := Mint(e1, TransformedDepth, Transform);
      OwnsAssign(e2, TransformedBodyIndexMap, true, Transform);
      OwnsReset(Assign(e2, TransformedBodyIndexMap, true, Transform), TransformedDepth);
    }
  }

  /** Releasing the capture and the body frame leaves the images held. */
  lemma ReleasesHeld(z: Env)
    requires Owns(z) && z.slots.Keys <= {Capture, BodyFrame, Color, Depth, BodyIndexMap, TransformedBodyIndexMap}
    ensures var r := Reset(Reset(z, Capture), BodyFrame);
      && Owns(r) && r.slots.Keys <= {Color, Depth, BodyIndexMap, TransformedBodyIndexMap} && r.mats == z.mats
      && (Color in r.slots <==> Color in z.slots) && (Depth in r.slots <==> Depth in z.slots)
      && (BodyIndexMap in r.slots <==> BodyIndexMap in z.slots)
      && (TransformedBodyIndexMap in r.slots <==> TransformedBodyIndexMap in z.slots)
  {
    OwnsReset(z, Capture);
    OwnsReset(Reset(z, Capture), BodyFrame);
  }

  /** Drawing leaves only the depth image held and fills the Mat of every drawn image that was set. */
  lemma DrawReleases(r: Env)
    requires Owns(r) && r.slots.Keys <= {Color, Depth, BodyIndexMap, TransformedBodyIndexMap}
    ensures var d := Draw(r);
      && Settled(d) && (Depth in d.slots <==> Depth in r.slots)
      && d.mats == r.mats + r.slots.Keys * {Color, BodyIndexMap, TransformedBodyIndexMap}
  {
    OwnsDrawCpp(r, Color);
    var d1 := DrawCpp(r, Color);
    OwnsDrawCpp(d1, BodyIndexMap);
    OwnsDrawCpp(DrawCpp(d1, BodyIndexMap), TransformedBodyIndexMap);
  }

  /** The drawn Mats in terms of what the tick carried. */
  lemma DrawnMeans(k: set<Role>, i: TickInput)
    requires (Color in k <==> i.color) && (BodyIndexMap in k <==> i.indexMap)
    requires (TransformedBodyIndexMap in k <==> i.depth && i.indexMap)
    ensures k * {Color, BodyIndexMap, TransformedBodyIndexMap} == Opt(i.color, Color) + Opt(i.indexMap, BodyIndexMap) + Opt(i.depth && i.indexMap, TransformedBodyIndexMap)
  {
  }

  /** After tracking the capture, the body frame and the planes the capture carried are held. */
  lemma TrackedHolds(e: Env, i: TickInput)
    requires Settled(e) && Tracked(i)
    ensures var x := TrackedEnv(e, i);
      && Owns(x) && x.slots.Keys <= {Capture, BodyFrame, Color, Depth} && x.mats == e.mats && BodyFrame in x.slots
      && (Color in x.slots <==> i.color) && (Depth in x.slots <==> i.depth)
  {
    PlanesHeld(e, i);
    TrackHeld(Planes(Assign(e, Capture, true, GetCapture), i), i);
  }

  /** The state `draw` starts from, given the state after tracking. */
  function Indexed(x: Env, i: TickInput): Env {
    Reset(Reset(Transformation(IndexMap(x, i)), Capture), BodyFrame)
  }

  /** From tracking to `draw`: the index map and its mapped version join the planes, and the capture and body frame go. */
  lemma IndexedHolds(x: Env, i: TickInput)
    requires Owns(x) && x.slots.Keys <= {Capture, BodyFrame, Color, Depth} && BodyFrame in x.slots
    ensures var r := Indexed(x, i);
      && Owns(r) && r.slots.Keys <= {Color, Depth, BodyIndexMap, TransformedBodyIndexMap} && r.mats == x.mats
      && (Color in r.slots <==> Color in x.slots) && (Depth in r.slots <==> Depth in x.slots)
      && (BodyIndexMap in r.slots <==> i.indexMap)
      && (TransformedBodyIndexMap in r.slots <==> Depth in x.slots && i.indexMap)
  {
    IndexMapHeld(x, i);
    TransformationHeld(IndexMap(x, i));
    ReleasesHeld(Transformation(IndexMap(x, i)));
  }

  /** `draw` from the state the releases leave. */
  lemma DrawSettled(r: Env, i: TickInput)
    requires Owns(r) && r.slots.Keys <= {Color, Depth, BodyIndexMap, TransformedBodyIndexMap}
    requires (Color in r.slots <==> i.color) && (Depth in r.slots <==> i.depth) && (BodyIndexMap in r.slots <==> i.indexMap)
    requires TransformedBodyIndexMap in r.slots <==> i.depth && i.indexMap
    ensures var d := Draw(r);
      && Settled(d) && (Depth in d.slots <==> i.depth)
      && d.mats == r.mats + Opt(i.color, Color) + Opt(i.indexMap, BodyIndexMap) + Opt(i.depth && i.indexMap, TransformedBodyIndexMap)
  {
    DrawReleases(r);
    DrawnMeans(r.slots.Keys, i);
  }

  /**
   * A tick that starts settled and reaches `draw` ends settled: only the
   * depth image of this tick is still held, and it is held exactly when the
   * capture carried depth. The colour and index map Mats are refilled exactly
   * when their images were present, and the mapped index map exactly when
   * both depth and the index map were.
   */
  lemma TickSettled(e: Env, i: TickInput)
    requires Settled(e)
    ensures Tick(e, i).Continue? ==> Settled(Tick(e, i).env) && (Depth in Tick(e, i).env.slots <==> i.depth)
    ensures Tick(e, i).Continue? ==>
      Tick(e, i).env.mats == e.mats + Opt(i.color, Color) + Opt(i.indexMap, BodyIndexMap) + Opt(i.depth && i.indexMap, TransformedBodyIndexMap)
  {
    if Tracked(i) {
      TickShape(e, i);
      TrackedHolds(e, i);
      IndexedHolds(TrackedEnv(e, i), i);
      DrawSettled(Indexed(TrackedEnv(e, i), i), i);
    }
  }

  /**
   * The mapped index map is on screen after a tick exactly when it already
   * was or this tick carried both depth and an index map; the blend with
   * colour happens exactly when the colour Mat is filled as well.
   */
  lemma TransformedShownAfter(e: Env, i: TickInput)
    requires Settled(e)
    ensures Tick(e, i).Continue? ==>
      (TransformedBodyIndexMap in Tick(e, i).env.mats <==> TransformedBodyIndexMap in e.mats || (i.depth && i.indexMap))
    ensures Tick(e, i).Continue? ==>
      (TransformedBodyIndexMap in Tick(e, i).env.mats && Color in Tick(e, i).env.mats <==>
        (TransformedBodyIndexMap in e.mats || (i.depth && i.indexMap)) && (Color in e.mats || i.color))
  {
    if Tracked(i) {
      TickSettled(e, i);
      ShownMeans(Tick(e, i).env.mats, e.mats, i);
    }
  }

  lemma ShownMeans(after: set<Role>, before: set<Role>, i: TickInput)
    requires after == before + Opt(i.color, Color) + Opt(i.indexMap, BodyIndexMap) + Opt(i.depth && i.indexMap, TransformedBodyIndexMap)
    ensures TransformedBodyIndexMap in after <==> TransformedBodyIndexMap in before || (i.depth && i.indexMap)
    ensures Color in after <==> Color in before || i.color
  {
  }

  /** A tick keeps the handle bookkeeping in step with the trace of SDK calls. */
  lemma TickSound(e: Env, i: TickInput)
    requires Sound(e)
    ensures Sound(Tick(e, i).env)
  {
    if i.wait.Succeeded? {
      var e1 := Assign(e, Capture, true, GetCapture);
      AssignSound(e, Capture, true, GetCapture);
      TakeSound(e1, Capture, Color, i.color, GetColor);
      TakeSound(Take(e1, Capture, Color, i.color, GetColor), Capture, Depth, i.depth, GetDepth);
      var p := Planes(e1, i);
      TouchSound(p, Capture, Enqueue);
      if Tracked(i) {
        TickShape(e, i);
        AssignSound(Touch(p, Capture, Enqueue), BodyFrame, true, PopResult);
        var x := TrackedEnv(e, i);
        TakeSound(x, BodyFrame, BodyIndexMap, i.indexMap, GetBodyIndexMap);
        TransformationSound(IndexMap(x, i));
        var z := Transformation(IndexMap(x, i));
        ResetSound(z, Capture);
        ResetSound(Reset(z, Capture), BodyFrame);
        DrawSound(Reset(Reset(z, Capture), BodyFrame));
      }
    }
  }

  lemma TransformationSound(e: Env)
    requires Sound(e)
    ensures Sound(Transformation(e))
  {
    if Depth in e.slots && BodyIndexMap in e.slots {
      TouchSound(e, Depth, Transform);
      var e1 := Touch(Touch(e, Depth, Transform), BodyIndexMap, Transform);
      TouchSound(Touch(e, Depth, Transform), BodyIndexMap, Transform);
      MintSound(e1, TransformedDepth, Transform);
      var e2 := Mint(e1, TransformedDepth, Transform);
      AssignSound(e2, TransformedBodyIndexMap, true, Transform);
      ResetSound(Assign(e2, TransformedBodyIndexMap, true, Transform), TransformedDepth);
    }
  }

  lemma DrawSound(e: Env)
    requires Sound(e)
    ensures Sound(Draw(e))
  {
    DrawCppSound(e, Color);
    DrawCppSound(DrawCpp(e, Color), BodyIndexMap);
    DrawCppSound(DrawCpp(DrawCpp(e, Color), BodyIndexMap), TransformedBodyIndexMap);
  }
}
