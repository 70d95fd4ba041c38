/**
 * The main loop every C and C++ sample runs: `update`, `draw`, `show`, then
 * `cv::waitKey`, until the key is `'q'` (or, in the point cloud viewer built
 * with viz, until the viewer window is closed). A tick that does not reach
 * `draw` ends the run: it threw, the object destroyed itself, or the
 * recording ran out. The C samples whose ticks have handle defects, the
 * transformation and body-index-map viewers, run their corrected ticks in
 * `Run`; their runs as written are given separately, with what they break.
 */
module Samples {
  import opened Handles
  import opened Pipeline
  import ViewerC
  import ViewerCpp
  import TransformationC
  import IndexMapC
  import IndexMapCpp
  import SkeletonC
  import SkeletonCpp
  import PlaybackCpp
  import PointCloudCpp
  import RecordC
  import RecordCpp

  /** Which sample runs. */
  datatype Sample =
    | CDepth | CInfrared | CppDepth | CppInfrared
    | CTransformation | CIndexMap | CppIndexMap
    | CSkeleton | CppSkeleton
    | CppPlayback(file: bool)
    | CppPointCloud(viz: bool)
    | CRecord | CppRecord

  /** One pass of the loop as seen from outside: the tick's input, and whether every skeleton of the body frame could be read. */
  datatype Poll = Poll(input: TickInput, skeletons: bool)

  /** The key that ends the loop; `cv::waitKey` returns it as an int. */
  const QuitKey: int := 'q' as int

  /** One tick of the sample: `update` then `draw`. The C recorder's file is open for the whole loop. */
  function Step(s: Sample, e: Env, p: Poll): Next {
    match s
    case CDepth => ViewerC.Tick(e, p.input, Depth)
    case CInfrared => ViewerC.Tick(e, p.input, Infrared)
    case CppDepth => ViewerCpp.Tick(e, p.input, Depth)
    case CppInfrared => ViewerCpp.Tick(e, p.input, Infrared)
    case CTransformation => TransformationC.TickFixed(e, p.input)
    case CIndexMap => IndexMapC.TickFixed(e, p.input)
    case CppIndexMap => IndexMapCpp.Tick(e, p.input)
    case CSkeleton => SkeletonC.Tick(e, p.input, p.skeletons)
    case CppSkeleton => SkeletonCpp.Tick(e, p.input, p.skeletons)
    case CppPlayback(file) => PlaybackCpp.Tick(e, p.input, file)
    case CppPointCloud(_) => PointCloudCpp.Tick(e, p.input)
    case CRecord => RecordC.Tick(e, p.input, true)
    case CppRecord => RecordCpp.Tick(e, p.input)
  }

  /** Whether a tick reaches `draw`, decided by the SDK's answers alone. */
  predicate Proceeds(s: Sample, p: Poll) {
    match s
    case CIndexMap => Tracked(p.input)
    case CppIndexMap => Tracked(p.input)
    case CSkeleton => Tracked(p.input) && p.skeletons
    case CppSkeleton => Tracked(p.input) && p.skeletons
    case CppPlayback(file) => (!file || !p.input.eof) && p.input.wait.Succeeded?
    case _ => p.input.wait.Succeeded?
  }

  /** Whether the viewer window can end the loop: the point cloud viewer built with viz. */
  predicate Closes(s: Sample) {
    s.CppPointCloud? && s.viz
  }

  /** Whether the loop stops after this poll: the tick did not reach `draw`, the key was `'q'`, or the viewer was closed. */
  predicate Halts(s: Sample, p: Poll) {
    !Proceeds(s, p) || p.input.key == QuitKey || (Closes(s) && p.input.viewerStopped)
  }

  lemma StepProceeds(s: Sample, e: Env, p: Poll)
    ensures Step(s, e, p).Continue? <==> Proceeds(s, p)
  {
  }

  /** Why the loop stopped. */
  datatype Stop =
    | Quit
    | ViewerClosed
    | Threw(cause: Cause)
    | TornDown
    | Exited
    | OutOfPolls

  /** The stop a tick that does not reach `draw` causes. */
  function Ending(n: Next): (r: Stop)
    requires !n.Continue?
    ensures r.Threw? <==> n.Fatal?
    ensures r.TornDown? <==> n.Teardown?
    ensures r.Exited? <==> n.EndOfStream?
  {
    match n
    case Fatal(_, cause) => Threw(cause)
    case Teardown(_) => TornDown
    case EndOfStream(_) => Exited
  }

  /** How a run ended, the handles at that point, and how many ticks ran. */
  datatype Outcome = Outcome(stop: Stop, env: Env, ticks: nat)

  /** The tick of a sample as a function value. */
  function Stepper(s: Sample): (Env, Poll) -> Next {
    (x, p) => Step(s, x, p)
  }

  /**
   * `run` over a finite prefix of polls for a given tick function;
   * `OutOfPolls` means the loop was still going when the prefix ran out.
   */
  function Loop(step: (Env, Poll) -> Next, s: Sample, e: Env, polls: seq<Poll>): (r: Outcome)
    decreases |polls|
  {
    if |polls| == 0 then Outcome(OutOfPolls, e, 0)
    else
      var n := step(e, polls[0]);
      if !n.Continue? then Outcome(Ending(n), n.env, 1)
      else if polls[0].input.key == QuitKey then Outcome(Quit, n.env, 1)
      else if Closes(s) && polls[0].input.viewerStopped then Outcome(ViewerClosed, n.env, 1)
      else
        var r := Loop(step, s, n.env, polls[1..]);
        r.(ticks := r.ticks + 1)
  }

  /** `run` of a sample. */
  function Run(s: Sample, e: Env, polls: seq<Poll>): Outcome {
    Loop(Stepper(s), s, e, polls)
  }

  /** The index of the first poll after which the loop stops, or the number of polls when none does. */
  function FirstHalt(s: Sample, polls: seq<Poll>): (k: nat)
    ensures k <= |polls|
    ensures forall j :: 0 <= j < k ==> !Halts(s, polls[j])
    ensures k < |polls| ==> Halts(s, polls[k])
    decreases |polls|
  {
    if |polls| == 0 then 0
    else if Halts(s, polls[0]) then 0
    else 1 + FirstHalt(s, polls[1..])
  }

  /** The loop stops after the first poll on which it halts, for any tick function that proceeds exactly when the sample's does. */
  lemma {:induction false} LoopStopsAtFirstHalt(step: (Env, Poll) -> Next, s: Sample, e: Env, polls: seq<Poll>)
    requires forall x, p :: step(x, p).Continue? <==> Proceeds(s, p)
    ensures var k := FirstHalt(s, polls);
      Loop(step, s, e, polls).ticks == (if k < |polls| then k + 1 else |polls|)
    ensures var k := FirstHalt(s, polls);
      Loop(step, s, e, polls).stop.OutOfPolls? <==> k == |polls|
    ensures var k := FirstHalt(s, polls);
      Loop(step, s, e, polls).stop.Quit? <==> k < |polls| && Proceeds(s, polls[k]) && polls[k].input.key == QuitKey
    ensures var k := FirstHalt(s, polls);
      Loop(step, s, e, polls).stop.ViewerClosed? <==> k < |polls| && Proceeds(s, polls[k]) && polls[k].input.key != QuitKey
    ensures var k := FirstHalt(s, polls);
      (Loop(step, s, e, polls).stop.Threw? || Loop(step, s, e, polls).stop.TornDown? || Loop(step, s, e, polls).stop.Exited?)
      <==> k < |polls| && !Proceeds(s, polls[k])
    decreases |polls|
  {
    if |polls| > 0 {
      var n := step(e, polls[0]);
      if n.Continue? && polls[0].input.key != QuitKey && !(Closes(s) && polls[0].input.viewerStopped) {
        LoopStopsAtFirstHalt(step, s, n.env, polls[1..]);
        assert FirstHalt(s, polls) == 1 + FirstHalt(s, polls[1..]);
        var k := FirstHalt(s, polls[1..]);
        if k < |polls[1..]| {
          assert polls[1..][k] == polls[k + 1];
        }
      }
    }
  }

  /**
   * The loop runs exactly up to and including the first poll after which it
   * stops: it quits exactly when that tick reached `draw` and the key was
   * `'q'`, the viewer closing counts only when the key was not `'q'`, and a
   * tick that does not reach `draw` ends the run with that tick's outcome.
   */
  lemma RunStopsAtFirstHalt(s: Sample, e: Env, polls: seq<Poll>)
    ensures var k := FirstHalt(s, polls);
      Run(s, e, polls).ticks == (if k < |polls| then k + 1 else |polls|)
    ensures var k := FirstHalt(s, polls);
      Run(s, e, polls).stop.OutOfPolls? <==> k == |polls|
    ensures var k := FirstHalt(s, polls);
      Run(s, e, polls).stop.Quit? <==> k < |polls| && Proceeds(s, polls[k]) && polls[k].input.key == QuitKey
    ensures var k := FirstHalt(s, polls);
      Run(s, e, polls).stop.ViewerClosed? <==> k < |polls| && Proceeds(s, polls[k]) && polls[k].input.key != QuitKey
    ensures var k := FirstHalt(s, polls);
      (Run(s, e, polls).stop.Threw? || Run(s, e, polls).stop.TornDown? || Run(s, e, polls).stop.Exited?)
      <==> k < |polls| && !Proceeds(s, polls[k])
  {
    StepperProceeds(s);
    LoopStopsAtFirstHalt(Stepper(s), s, e, polls);
  }

  lemma StepperProceeds(s: Sample)
    ensures forall x, p :: Stepper(s)(x, p).Continue? <==> Proceeds(s, p)
  {
    forall x, p
      ensures Stepper(s)(x, p).Continue? <==> Proceeds(s, p)
    {
      StepProceeds(s, x, p);
    }
  }

  /** When every tick reaches `draw` and no viewer can close, the run quits exactly at the first `'q'`. */
  lemma QuitsAtFirstQ(s: Sample, e: Env, polls: seq<Poll>, k: nat)
    requires !s.CppPointCloud? || !s.viz
    requires forall j :: 0 <= j < |polls| ==> Proceeds(s, polls[j])
    requires k < |polls| && polls[k].input.key == QuitKey
    requires forall j :: 0 <= j < k ==> polls[j].input.key != QuitKey
    ensures Run(s, e, polls).stop == Quit && Run(s, e, polls).ticks == k + 1
  {
    RunStopsAtFirstHalt(s, e, polls);
    var h := FirstHalt(s, polls);
    assert Halts(s, polls[k]);
    assert h <= k;
    assert h == k;
  }

  /**
   * The state every sample keeps between ticks: nothing outstanding for the C
   * samples (their corrected ticks also leave no transformed pointer set),
   * every handle empty for the C++ samples, and only the depth image held for
   * the C++ body-index-map viewer, which never resets it.
   */
  predicate Boundary(s: Sample, e: Env) {
    match s
    case CDepth => Quiescent(e)
    case CInfrared => Quiescent(e)
    case CTransformation => TransformationC.Ready(e)
    case CIndexMap => IndexMapC.Ready(e)
    case CSkeleton => Quiescent(e)
    case CRecord => Quiescent(e)
    case CppIndexMap => IndexMapCpp.Settled(e)
    case _ => Clean(e)
  }

  /** A tick that reaches `draw` keeps the boundary state. */
  lemma StepKeeps(s: Sample, e: Env, p: Poll)
    requires Boundary(s, e)
    ensures Step(s, e, p).Continue? ==> Boundary(s, Step(s, e, p).env)
  {
    match s
    case CDepth => ViewerC.TickQuiescent(e, p.input, Depth);
    case CInfrared => ViewerC.TickQuiescent(e, p.input, Infrared);
    case CppDepth => ViewerCpp.TickClean(e, p.input, Depth);
    case CppInfrared => ViewerCpp.TickClean(e, p.input, Infrared);
    case CTransformation => TransformationC.TickFixedReady(e, p.input);
    case CIndexMap => IndexMapC.TickFixedReady(e, p.input);
    case CppIndexMap => IndexMapCpp.TickSettled(e, p.input);
    case CSkeleton => SkeletonC.TickQuiescent(e, p.input, p.skeletons);
    case CppSkeleton => SkeletonCpp.TickClean(e, p.input, p.skeletons);
    case CppPlayback(file) => PlaybackCpp.TickClean(e, p.input, file);
    case CppPointCloud(_) => PointCloudCpp.TickClean(e, p.input);
    case CRecord => RecordC.TickQuiescent(e, p.input, true);
    case CppRecord => RecordCpp.TickClean(e, p.input);
  }

  lemma StepperKeeps(s: Sample)
    ensures forall x, p :: Boundary(s, x) && Stepper(s)(x, p).Continue? ==> Boundary(s, Stepper(s)(x, p).env)
  {
    forall x, p | Boundary(s, x)
      ensures Stepper(s)(x, p).Continue? ==> Boundary(s, Stepper(s)(x, p).env)
    {
      StepKeeps(s, x, p);
    }
  }

  /** The loop keeps an invariant every tick that reaches `draw` keeps. */
  lemma {:induction false} LoopKeeps(step: (Env, Poll) -> Next, s: Sample, e: Env, polls: seq<Poll>)
    requires Boundary(s, e)
    requires forall x, p :: Boundary(s, x) && step(x, p).Continue? ==> Boundary(s, step(x, p).env)
    ensures var r := Loop(step, s, e, polls);
      r.stop.Quit? || r.stop.ViewerClosed? || r.stop.OutOfPolls? ==> Boundary(s, r.env)
    decreases |polls|
  {
    if |polls| > 0 {
      var n := step(e, polls[0]);
      if n.Continue? {
        LoopKeeps(step, s, n.env, polls[1..]);
      }
    }
  }

  /**
   * A run that starts at the boundary and stops on `'q'`, on the viewer
   * closing, or with polls still to come, is at the boundary again: every
   * tick that reached `draw` gave back every handle it took.
   */
  lemma RunKeeps(s: Sample, e: Env, polls: seq<Poll>)
    requires Boundary(s, e)
    ensures var r := Run(s, e, polls);
      r.stop.Quit? || r.stop.ViewerClosed? || r.stop.OutOfPolls? ==> Boundary(s, r.env)
  {
    StepperKeeps(s);
    LoopKeeps(Stepper(s), s, e, polls);
  }

  /**
   * `run` of the C transformation viewer with its tick as written, not
   * corrected.
   */
  function TransformationRunAsWritten(e: Env, polls: seq<Poll>): Outcome {
    Loop((x: Env, q: Poll) => TransformationC.Tick(x, q.input), CTransformation, e, polls)
  }

  /** `run` of the C body-index-map viewer with its tick as written. */
  function IndexMapRunAsWritten(e: Env, polls: seq<Poll>): Outcome {
    Loop((x: Env, q: Poll) => IndexMapC.Tick(x, q.input), CIndexMap, e, polls)
  }

  /** `run` of the C body-index-map viewer with its corrected tick, the one `Run` uses. */
  function IndexMapRunFixed(e: Env, polls: seq<Poll>): Outcome {
    Loop((x: Env, q: Poll) => IndexMapC.TickFixed(x, q.input), CIndexMap, e, polls)
  }

  /**
   * The boundary is a property of the corrected ticks only. From the same
   * boundary state and one poll that tracks a capture carrying colour,
   * depth and an index map and then reads `'q'`, the corrected run quits at
   * the boundary, while the run of the C body-index-map viewer as written
   * quits with the depth image still outstanding.
   */
  lemma AsWrittenRunLeavesDepth(e: Env, p: Poll)
    requires IndexMapC.Ready(e)
    requires Tracked(p.input) && p.input.color && p.input.depth && p.input.indexMap && p.input.key == QuitKey
    ensures IndexMapRunFixed(e, [p]).stop == Quit && IndexMapC.Ready(IndexMapRunFixed(e, [p]).env)
    ensures IndexMapRunAsWritten(e, [p]).stop == Quit
    ensures Depth in IndexMapRunAsWritten(e, [p]).env.owned
    ensures !IndexMapC.Ready(IndexMapRunAsWritten(e, [p]).env)
  {
    IndexMapC.TickFixedReady(e, p.input);
    IndexMapC.DepthNeverReleased(e, p.input);
    QuitsAfterOne((x: Env, q: Poll) => IndexMapC.TickFixed(x, q.input), CIndexMap, e, p);
    QuitsAfterOne((x: Env, q: Poll) => IndexMapC.Tick(x, q.input), CIndexMap, e, p);
  }

  /**
   * As written, the C transformation viewer's run misuses a released image
   * within two polls from the boundary: a capture with both planes, then
   * one missing a plane that reads `'q'`. The corrected run keeps the
   * boundary on the same polls (`RunKeeps`).
   */
  lemma AsWrittenRunMisuses(e: Env, p1: Poll, p2: Poll)
    requires TransformationC.Ready(e)
    requires p1.input.wait.Succeeded? && p1.input.color && p1.input.depth && p1.input.key != QuitKey
    requires p2.input.wait.Succeeded? && !(p2.input.color && p2.input.depth) && p2.input.key == QuitKey
    ensures TransformationRunAsWritten(e, [p1, p2]).stop == Quit
    ensures !TransformationRunAsWritten(e, [p1, p2]).env.ok
  {
    var step := (x: Env, q: Poll) => TransformationC.Tick(x, q.input);
    var e1 := TransformationC.Tick(e, p1.input).env;
    TransformationC.BothPlanesLeaveStalePointers(e, p1.input);
    TransformationC.StaleReuse(e1, p2.input);
    GoesOnThenQuits(step, CTransformation, e, p1, p2);
  }

  /** A poll that reaches `draw` without `'q'`, then one that reaches `draw` with `'q'`, quit after two ticks. */
  lemma GoesOnThenQuits(step: (Env, Poll) -> Next, s: Sample, e: Env, p1: Poll, p2: Poll)
    requires !Closes(s)
    requires step(e, p1).Continue? && p1.input.key != QuitKey
    requires step(step(e, p1).env, p2).Continue? && p2.input.key == QuitKey
    ensures Loop(step, s, e, [p1, p2]) == Outcome(Quit, step(step(e, p1).env, p2).env, 2)
  {
    assert [p1, p2][1..] == [p2];
    QuitsAfterOne(step, s, step(e, p1).env, p2);
  }

  /** A single poll that reaches `draw` and reads `'q'` quits with the tick's state. */
  lemma QuitsAfterOne(step: (Env, Poll) -> Next, s: Sample, e: Env, p: Poll)
    requires step(e, p).Continue? && p.input.key == QuitKey
    ensures Loop(step, s, e, [p]) == Outcome(Quit, step(e, p).env, 1)
  {
  }
}
