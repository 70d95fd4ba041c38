/**
 * The C body-index-map viewer (`sample/c/index_map/kinect.cpp`): each tick
 * takes a capture, pulls colour and depth, runs the body tracker, pulls the
 * body index map from the tracker's frame, maps depth and the index map into
 * the colour camera, and releases the capture and the frame; `draw` converts
 * and releases the colour image, the index map and the transformed pair.
 *
 * As written the sample has three handle defects, each exhibited below:
 * the depth image is never released, the transformation reads the colour
 * image without checking that it is set, and the transformed images keep
 * their (released) values into ticks that skip the transformation.
 * `TickFixed` releases the depth image, guards the colour read and clears
 * the transformed pointers; the run loop uses it.
 */
module IndexMapC {
  import opened Handles
  import opened Pipeline

  /** `update_transformation` as written: guarded on depth and index map only, then reads the colour size. */
  function Transformation(e: Env): (e': Env)
    ensures Depth !in e.slots || BodyIndexMap !in e.slots ==> e' == e
  {
    if Depth !in e.slots || BodyIndexMap !in e.slots then e
    else Convert2(Touch(e, Color, ReadSize))
  }

  /** `update_transformation` guarded on the colour image as well. */
  function TransformationFixed(e: Env): (e': Env)
    ensures Color !in e.slots || Depth !in e.slots || BodyIndexMap !in e.slots ==> e' == e
  {
    if Color !in e.slots || Depth !in e.slots || BodyIndexMap !in e.slots then e
    else Convert2(Touch(e, Color, ReadSize))
  }

  /** The two `k4a_image_create` calls and the custom depth-to-colour transformation. */
  function Convert2(e: Env): (e': Env)
    ensures e'.ok == (e.ok && Depth in e.owned && BodyIndexMap in e.owned)
    ensures e'.owned == e.owned + {TransformedDepth, TransformedBodyIndexMap}
    ensures e'.slots.Keys == e.slots.Keys + {TransformedDepth, TransformedBodyIndexMap}
    ensures TransformedDepth !in e.owned && TransformedBodyIndexMap !in e.owned ==> e'.leaked == e.leaked
    ensures e.leaked <= e'.leaked
    ensures e'.mats == e.mats
  {
    var e1 := Mint(Mint(e, TransformedDepth, CreateImage), TransformedBodyIndexMap, CreateImage);
    var e2 := Touch(Touch(e1, Depth, Transform), BodyIndexMap, Transform);
    Touch(Touch(e2, TransformedDepth, Transform), TransformedBodyIndexMap, Transform)
  }

  /**
   * `update`: frame, colour, depth, body tracking, body index map,
   * transformation, then release of the capture and the body frame. The
   * corrected version uses the guarded transformation and releases the
   * depth image as well.
   */
  function Update(e: Env, i: TickInput, fixed: bool): Next {
    match FrameC(e, i.wait)
    case Continue(e1) =>
      var e3 := PlaneC(PlaneC(e1, i, Color), i, Depth);
      (match TrackC(e3, i.enqueue, i.pop)
       case Continue(e4) =>
         var e5 := Extract(e4, BodyFrame, BodyIndexMap, i.indexMap, GetBodyIndexMap);
         Continue(Finish(e5, fixed))
       case n => n)
    case n => n
  }

  /** Transformation, then the releases at the end of `update`. */
  function Finish(e5: Env, fixed: bool): Env {
    var e6 := if fixed then Free(TransformationFixed(e5), Depth) else Transformation(e5);
    Free(Free(e6, Capture), BodyFrame)
  }

  /** `draw`: colour, body index map, transformation; the corrected version clears the transformed pointers. */
  function Draw(e: Env, fixed: bool): Env {
    var e1 := DrawC(DrawC(e, Color), BodyIndexMap);
    if TransformedBodyIndexMap !in e1.slots then e1
    else
      var e2 := Convert(e1, TransformedBodyIndexMap);
      if fixed then Reset(Reset(e2, TransformedDepth), TransformedBodyIndexMap)
      else Free(Free(e2, TransformedDepth), TransformedBodyIndexMap)
  }

  /** One iteration of `run`, as written (`fixed` false) or corrected. */
  function Step(e: Env, i: TickInput, fixed: bool): (n: Next)
    ensures n.Continue? <==> i.wait.Succeeded? && i.enqueue.Succeeded? && i.pop.Succeeded?
    ensures n.Fatal? <==> i.wait.Failed? || (i.wait.Succeeded? && (i.enqueue.Failed? || (i.enqueue.Succeeded? && i.pop.Failed?)))
  {
    match Update(e, i, fixed)
    case Continue(e1) => Continue(Draw(e1, fixed))
    case n => n
  }

  function Tick(e: Env, i: TickInput): Next {
    Step(e, i, false)
  }

  function TickFixed(e: Env, i: TickInput): Next {
    Step(e, i, true)
  }

  /** The tick boundary the corrected sample keeps: nothing outstanding, no stale transformed pointer. */
  predicate Ready(e: Env) {
    Quiescent(e) && TransformedDepth !in e.slots && TransformedBodyIndexMap !in e.slots
  }

  /** After `update_color` and `update_depth`. */
  predicate Pulled(e: Env, i: TickInput) {
    && e.ok && e.leaked == {}
    && (Color in e.slots <==> i.color) && (Depth in e.slots <==> i.depth) && Capture in e.slots
    && e.owned <= {Capture, Color, Depth} && Capture in e.owned
    && (Color in e.owned <==> i.color) && (Depth in e.owned <==> i.depth)
    && TransformedDepth !in e.slots && TransformedBodyIndexMap !in e.slots
  }

  /** After `update_body_index_map`. */
  predicate Indexed(e: Env, i: TickInput) {
    && e.ok && e.leaked == {}
    && (Color in e.slots <==> i.color) && (Depth in e.slots <==> i.depth)
    && (BodyIndexMap in e.slots <==> i.indexMap) && Capture in e.slots && BodyFrame in e.slots
    && e.owned <= {Capture, BodyFrame, Color, Depth, BodyIndexMap} && Capture in e.owned && BodyFrame in e.owned
    && (Color in e.owned <==> i.color) && (Depth in e.owned <==> i.depth) && (BodyIndexMap in e.owned <==> i.indexMap)
    && TransformedDepth !in e.slots && TransformedBodyIndexMap !in e.slots
  }

  /** Between the corrected `update` and `draw`. */
  predicate Drawable(e: Env, i: TickInput) {
    var all := i.color && i.depth && i.indexMap;
    && e.ok && e.leaked == {}
    && (Color in e.slots <==> i.color) && (BodyIndexMap in e.slots <==> i.indexMap)
    && (TransformedDepth in e.slots <==> all) && (TransformedBodyIndexMap in e.slots <==> all)
    && e.owned <= {Color, BodyIndexMap, TransformedDepth, TransformedBodyIndexMap}
    && (Color in e.owned <==> i.color) && (BodyIndexMap in e.owned <==> i.indexMap)
    && (TransformedDepth in e.owned <==> all) && (TransformedBodyIndexMap in e.owned <==> all)
  }

  lemma PullPlanes(e: Env, i: TickInput)
    requires Ready(e) && i.wait.Succeeded?
    ensures Pulled(PlaneC(PlaneC(Mint(e, Capture, GetCapture), i, Color), i, Depth), i)
  {
    var e1 := Mint(e, Capture, GetCapture);
    assert e1.ok && e1.leaked == {} && e1.owned == {Capture} && Capture in e1.slots;
  }

  lemma TrackPulled(e: Env, i: TickInput)
    requires Pulled(e, i) && Tracked(i)
    ensures TrackC(e, i.enqueue, i.pop).Continue?
    ensures Indexed(Extract(TrackC(e, i.enqueue, i.pop).env, BodyFrame, BodyIndexMap, i.indexMap, GetBodyIndexMap), i)
  {
  }

  /** The state after the capture and both image planes are pulled. */
  function PlanesEnv(e: Env, i: TickInput): Env {
    PlaneC(PlaneC(Mint(e, Capture, GetCapture), i, Color), i, Depth)
  }

  /** The state just before `update_transformation`. */
  function IndexedEnv(e: Env, i: TickInput): Env {
    Extract(TrackC(PlanesEnv(e, i), i.enqueue, i.pop).env, BodyFrame, BodyIndexMap, i.indexMap, GetBodyIndexMap)
  }

  /** Once the tracker answered, a tick is `update` up to the index map pull, the releases, then `draw`. */
  lemma TickShape(e: Env, i: TickInput, fixed: bool)
    requires Tracked(i)
    ensures Step(e, i, fixed) == Continue(Draw(Finish(IndexedEnv(e, i), fixed), fixed))
  {
  }

  /** From a ready state, everything up to the index map pull gives `Indexed`. */
  lemma ReachIndexed(e: Env, i: TickInput)
    requires Ready(e) && Tracked(i)
    ensures Indexed(IndexedEnv(e, i), i)
  {
    PullPlanes(e, i);
    TrackPulled(PlanesEnv(e, i), i);
  }

  /** The corrected transformation on a tick with all three images owns both outputs. */
  lemma TransformedOwned(e: Env, i: TickInput)
    requires Indexed(e, i) && i.color && i.depth && i.indexMap
    ensures var t := TransformationFixed(e);
      && t.ok && t.leaked == {}
      && t.owned == e.owned + {TransformedDepth, TransformedBodyIndexMap}
      && t.slots.Keys == e.slots.Keys + {TransformedDepth, TransformedBodyIndexMap}
  {
  }

  lemma FinishFixed(e: Env, i: TickInput)
    requires Indexed(e, i)
    ensures Drawable(Finish(e, true), i)
  {
    if i.color && i.depth && i.indexMap {
      FinishFixedAll(e, i);
    } else {
      FinishFixedPartial(e, i);
    }
  }

  lemma FinishFixedAll(e: Env, i: TickInput)
    requires Indexed(e, i) && i.color && i.depth && i.indexMap
    ensures Drawable(Finish(e, true), i)
  {
    TransformedOwned(e, i);
  }

  lemma FinishFixedPartial(e: Env, i: TickInput)
    requires Indexed(e, i) && !(i.color && i.depth && i.indexMap)
    ensures Drawable(Finish(e, true), i)
  {
  }

  lemma DrawFixedReady(e: Env, i: TickInput)
    requires Drawable(e, i)
    ensures Ready(Draw(e, true))
  {
    var e1 := DrawC(DrawC(e, Color), BodyIndexMap);
    assert e1.owned <= {TransformedDepth, TransformedBodyIndexMap};
  }

  /** The corrected tick keeps the ready state whenever the tracker answered. */
  lemma TickFixedReady(e: Env, i: TickInput)
    requires Ready(e)
    ensures TickFixed(e, i).Continue? ==> Ready(TickFixed(e, i).env)
  {
    if Tracked(i) {
      TickShape(e, i, true);
      ReachIndexed(e, i);
      FinishFixed(IndexedEnv(e, i), i);
      DrawFixedReady(Finish(IndexedEnv(e, i), true), i);
    }
  }

  /**
   * As written, a tick whose capture carries all three images ends with
   * nothing misused, but with the depth image still outstanding and the
   * released transformed images still in their pointers.
   */
  lemma FullTickAsWritten(e: Env, i: TickInput)
    requires Ready(e) && Tracked(i) && i.color && i.depth && i.indexMap
    ensures Tick(e, i).env.ok
    ensures Depth in Tick(e, i).env.owned && Depth in Tick(e, i).env.slots
    ensures TransformedBodyIndexMap in Tick(e, i).env.slots && TransformedBodyIndexMap !in Tick(e, i).env.owned
  {
    TickShape(e, i, false);
    ReachIndexed(e, i);
    TransformedOwned(IndexedEnv(e, i), i);
    FinishAsWritten(IndexedEnv(e, i), i);
    DrawAsWritten(Finish(IndexedEnv(e, i), false));
  }

  lemma FinishAsWritten(x: Env, i: TickInput)
    requires Indexed(x, i) && i.color && i.depth && i.indexMap && TransformationFixed(x).ok
    ensures var r := Finish(x, false);
      && r.ok && Depth in r.owned && Depth in r.slots
      && (Color in r.slots ==> Color in r.owned) && (BodyIndexMap in r.slots ==> BodyIndexMap in r.owned)
      && TransformedBodyIndexMap in r.owned && TransformedBodyIndexMap in r.slots && TransformedDepth in r.owned
  {
    TransformedOwned(x, i);
  }

  lemma DrawAsWritten(r: Env)
    requires r.ok && Depth in r.owned && Depth in r.slots
    requires TransformedBodyIndexMap in r.owned && TransformedBodyIndexMap in r.slots && TransformedDepth in r.owned
    requires Color in r.slots ==> Color in r.owned
    requires BodyIndexMap in r.slots ==> BodyIndexMap in r.owned
    ensures var d := Draw(r, false);
      && d.ok && Depth in d.owned && Depth in d.slots
      && TransformedBodyIndexMap in d.slots && TransformedBodyIndexMap !in d.owned
  {
  }

  /** As written, the depth image pulled on a tick is still outstanding when the tick ends. */
  lemma DepthNeverReleased(e: Env, i: TickInput)
    requires Tracked(i) && i.depth
    ensures Depth in Tick(e, i).env.owned && Depth in Tick(e, i).env.slots
  {
    TickShape(e, i, false);
    IndexedHolds(e, i);
    FinishKeepsDepth(IndexedEnv(e, i));
    DrawKeepsDepth(Finish(IndexedEnv(e, i), false));
  }

  lemma IndexedHolds(e: Env, i: TickInput)
    requires Tracked(i) && i.depth
    ensures Depth in IndexedEnv(e, i).owned && Depth in IndexedEnv(e, i).slots
  {
    PlanesHold(e, i);
    TrackKeeps(PlanesEnv(e, i), i);
  }

  lemma PlanesHold(e: Env, i: TickInput)
    requires i.depth
    ensures Depth in PlanesEnv(e, i).owned && Depth in PlanesEnv(e, i).slots
  {
  }

  /** Tracking and the index map pull leave the depth image and every leaked handle alone. */
  lemma TrackKeeps(x: Env, i: TickInput)
    requires Tracked(i)
    ensures var y := Extract(TrackC(x, i.enqueue, i.pop).env, BodyFrame, BodyIndexMap, i.indexMap, GetBodyIndexMap);
      && (Depth in x.owned ==> Depth in y.owned) && (Depth in x.slots ==> Depth in y.slots)
      && x.leaked <= y.leaked
  {
  }

  lemma FinishKeepsDepth(x: Env)
    requires Depth in x.owned && Depth in x.slots
    ensures Depth in Finish(x, false).owned && Depth in Finish(x, false).slots
  {
  }

  lemma DrawKeepsDepth(x: Env)
    requires Depth in x.owned && Depth in x.slots
    ensures Depth in Draw(x, false).owned && Depth in Draw(x, false).slots
  {
  }

  /**
   * As written, the next tick overwrites the depth pointer: the handle it
   * held is lost with a reference still outstanding.
   */
  lemma DepthLeaks(e: Env, i: TickInput)
    requires Depth in e.owned && Depth in e.slots && Tracked(i)
    ensures e.slots[Depth] in Tick(e, i).env.leaked
  {
    TickShape(e, i, false);
    IndexedLeaks(e, i);
    LeakedStays(IndexedEnv(e, i), false);
  }

  lemma IndexedLeaks(e: Env, i: TickInput)
    requires Depth in e.owned && Depth in e.slots && Tracked(i)
    ensures e.slots[Depth] in IndexedEnv(e, i).leaked
  {
    PlanesLeak(e, i);
    TrackKeeps(PlanesEnv(e, i), i);
  }

  lemma PlanesLeak(e: Env, i: TickInput)
    requires Depth in e.owned && Depth in e.slots
    ensures e.slots[Depth] in PlanesEnv(e, i).leaked
  {
    var e2 := PlaneC(Mint(e, Capture, GetCapture), i, Color);
    assert Depth in e2.owned && e2.slots[Depth] == e.slots[Depth];
  }

  /** Nothing a tick does after the index map pull forgets a leaked handle. */
  lemma LeakedStays(x: Env, fixed: bool)
    ensures x.leaked <= Draw(Finish(x, fixed), fixed).leaked
  {
    FinishLeaked(x, fixed);
    DrawLeaked(Finish(x, fixed), fixed);
  }

  lemma FinishLeaked(x: Env, fixed: bool)
    ensures x.leaked <= Finish(x, fixed).leaked
  {
  }

  lemma DrawLeaked(x: Env, fixed: bool)
    ensures x.leaked <= Draw(x, fixed).leaked
  {
  }

  /**
   * As written, a tick whose capture carries depth and a body index map but
   * no colour image reads the colour size through a NULL pointer.
   */
  lemma NullColorRead(e: Env, i: TickInput)
    requires Ready(e) && Tracked(i) && !i.color && i.depth && i.indexMap
    ensures !Tick(e, i).env.ok
  {
    TickShape(e, i, false);
    ReachIndexed(e, i);
    FinishReadsNull(IndexedEnv(e, i));
    DrawKeepsBroken(Finish(IndexedEnv(e, i), false));
  }

  lemma FinishReadsNull(x: Env)
    requires Color !in x.owned && Depth in x.slots && BodyIndexMap in x.slots
    ensures !Finish(x, false).ok
  {
  }

  lemma DrawKeepsBroken(r: Env)
    requires !r.ok
    ensures !Draw(r, false).ok
  {
  }

  /**
   * As written, a tick without a body index map, after one that left the
   * released transformed index map in its pointer, converts that released
   * image again.
   */
  lemma StaleIndexMap(e: Env, i: TickInput)
    requires TransformedBodyIndexMap in e.slots && TransformedBodyIndexMap !in e.owned
    requires Tracked(i) && !i.indexMap
    ensures !Tick(e, i).env.ok
  {
    TickShape(e, i, false);
    IndexedStale(e, i);
    FinishKeepsStale(IndexedEnv(e, i));
    DrawStale(Finish(IndexedEnv(e, i), false));
  }

  lemma IndexedStale(e: Env, i: TickInput)
    requires TransformedBodyIndexMap in e.slots && TransformedBodyIndexMap !in e.owned
    requires Tracked(i) && !i.indexMap
    ensures var x := IndexedEnv(e, i);
      BodyIndexMap !in x.slots && TransformedBodyIndexMap in x.slots && TransformedBodyIndexMap !in x.owned
  {
    PlanesStale(e, i);
    TrackStale(PlanesEnv(e, i), i);
  }

  lemma PlanesStale(e: Env, i: TickInput)
    requires TransformedBodyIndexMap in e.slots && TransformedBodyIndexMap !in e.owned
    ensures TransformedBodyIndexMap in PlanesEnv(e, i).slots && TransformedBodyIndexMap !in PlanesEnv(e, i).owned
  {
  }

  lemma TrackStale(x: Env, i: TickInput)
    requires TransformedBodyIndexMap in x.slots && TransformedBodyIndexMap !in x.owned
    requires Tracked(i) && !i.indexMap
    ensures var y := Extract(TrackC(x, i.enqueue, i.pop).env, BodyFrame, BodyIndexMap, i.indexMap, GetBodyIndexMap);
      BodyIndexMap !in y.slots && TransformedBodyIndexMap in y.slots && TransformedBodyIndexMap !in y.owned
  {
  }

  lemma FinishKeepsStale(x: Env)
    requires BodyIndexMap !in x.slots && TransformedBodyIndexMap in x.slots && TransformedBodyIndexMap !in x.owned
    ensures TransformedBodyIndexMap in Finish(x, false).slots && TransformedBodyIndexMap !in Finish(x, false).owned
  {
  }

  lemma DrawStale(r: Env)
    requires TransformedBodyIndexMap in r.slots && TransformedBodyIndexMap !in r.owned
    ensures !Draw(r, false).ok
  {
  }

  /** A capture with every image, then the same without colour, then without a body index map. */
  const Full := TickInput(Succeeded, false, true, true, false, Succeeded, Succeeded, true, true, -1, false)
  const NoColor := Full.(color := false)
  const NoIndexMap := Full.(indexMap := false)

  /** From a freshly constructed object: a first capture without colour already reads through NULL. */
  lemma NullColorFromStart()
    ensures !Tick(Start, NoColor).env.ok
  {
    assert Ready(Start);
    NullColorRead(Start, NoColor);
  }

  /** From a freshly constructed object: the second tick, without a body index map, reuses a released image. */
  lemma StaleIndexMapFromStart()
    ensures !Tick(Tick(Start, Full).env, NoIndexMap).env.ok
  {
    assert Ready(Start);
    FullTickAsWritten(Start, Full);
    StaleIndexMap(Tick(Start, Full).env, NoIndexMap);
  }

  /** From a freshly constructed object: the second full tick leaks the first tick's depth image. */
  lemma DepthLeakFromStart()
    ensures Depth in Tick(Start, Full).env.slots
    ensures Tick(Start, Full).env.slots[Depth] in Tick(Tick(Start, Full).env, Full).env.leaked
  {
    assert Ready(Start);
    FullTickAsWritten(Start, Full);
    DepthLeaks(Tick(Start, Full).env, Full);
  }
}
