/**
 * Reference-counted SDK handles (captures, body frames, images) as an event trace.
 *
 * Every SDK getter that hands out a handle appends an `Acquire`, every call that
 * reads through a handle appends a `Use`, every release appends a `Release`, and
 * a call made through a pointer that is NULL appends a `NullUse`. A trace is
 * well formed when nothing is used or released after its release and nothing
 * is read through a NULL pointer; the handles still outstanding are `Live`.
 *
 * The member pointers of a sample object are the `slots` of an `Env`; the C
 * samples release without clearing the pointer (`Free`), the C++ wrappers
 * clear it (`Reset`) and release the previous handle on move-assignment
 * (`Assign`).
 */
module Handles {

  /** Which member (or local) pointer a handle sits in. */
  datatype Role =
    | Capture | BodyFrame | FrameCapture
    | Color | Depth | Infrared | BodyIndexMap
    | TransformedColor | TransformedDepth | TransformedBodyIndexMap
    | PointCloud | DecodedColor

  /** The SDK call an event stands for. */
  datatype Op =
    | GetCapture | GetColor | GetDepth | GetInfrared
    | Enqueue | PopResult | GetBodyIndexMap | GetFrameCapture | ReadBodies
    | ReadSize | CreateImage | Transform | WriteCapture | ToMat | Decode

  /** A handle is identified by the trace position of its acquisition. */
  datatype Handle = Handle(role: Role, serial: nat)

  datatype Event =
    | Acquire(h: Handle, op: Op)
    | Use(h: Handle, op: Op)
    | Release(h: Handle)
    | NullUse(role: Role, op: Op)

  /** The effect of one event on the set of outstanding handles. */
  function After(live: set<Handle>, ev: Event): set<Handle> {
    match ev
    case Acquire(h, _) => live + {h}
    case Release(h) => live - {h}
    case _ => live
  }

  /** The SDK calls made so far, most recent last. */
  datatype Trace = Empty | Snoc(before: Trace, last: Event)

  function Len(t: Trace): nat {
    match t
    case Empty => 0
    case Snoc(p, _) => Len(p) + 1
  }

  /** Handles acquired and not yet released. */
  function Live(t: Trace): set<Handle> {
    match t
    case Empty => {}
    case Snoc(p, ev) => After(Live(p), ev)
  }

  /** Whether `ev` is a legal next event after the trace `t`. */
  predicate Admits(t: Trace, ev: Event) {
    match ev
    case Acquire(h, _) => h.serial == Len(t)
    case Use(h, _) => h in Live(t)
    case Release(h) => h in Live(t)
    case NullUse(_, _) => false
  }

  /** No use after release, no double release, no read through NULL. */
  predicate WellFormed(t: Trace) {
    match t
    case Empty => true
    case Snoc(p, ev) => WellFormed(p) && Admits(p, ev)
  }

  /** How many calls of `op` went through a set pointer. */
  function Uses(t: Trace, op: Op): nat {
    match t
    case Empty => 0
    case Snoc(p, ev) => Uses(p, op) + (if ev.Use? && ev.op == op then 1 else 0)
  }

  /** In a well-formed trace every outstanding handle was acquired earlier in it. */
  lemma {:induction false} LiveBelow(t: Trace)
    ensures WellFormed(t) ==> forall h :: h in Live(t) ==> h.serial < Len(t)
  {
    if t.Snoc? {
      LiveBelow(t.before);
    }
  }

  /** The handles held by the owning pointers. */
  function Owned(slots: map<Role, Handle>, owned: set<Role>): set<Handle> {
    set r | r in owned && r in slots :: slots[r]
  }

  /** The handle an owning pointer `r` holds, if any. */
  function OwnedBy(slots: map<Role, Handle>, owned: set<Role>, r: Role): set<Handle> {
    if r in owned && r in slots then {slots[r]} else {}
  }

  predicate OwnKind(slots: map<Role, Handle>) {
    forall x | x in slots :: slots[x].role == x
  }

  lemma OwnedStore(slots: map<Role, Handle>, owned: set<Role>, r: Role, f: Handle)
    requires OwnKind(slots) && f.role == r
    ensures Owned(slots[r := f], owned + {r}) == (Owned(slots, owned) - OwnedBy(slots, owned, r)) + {f}
  {
    forall h ensures h in Owned(slots[r := f], owned + {r}) <==> h in (Owned(slots, owned) - OwnedBy(slots, owned, r)) + {f} {
      if h in Owned(slots, owned) {
        var x :| x in owned && x in slots && slots[x] == h;
        if x != r { assert slots[r := f][x] == h; }
      }
    }
  }

  lemma OwnedRemove(slots: map<Role, Handle>, owned: set<Role>, r: Role)
    requires OwnKind(slots)
    ensures Owned(slots - {r}, owned - {r}) == Owned(slots, owned) - OwnedBy(slots, owned, r)
    ensures Owned(slots, owned - {r}) == Owned(slots, owned) - OwnedBy(slots, owned, r)
  {
    forall h ensures h in Owned(slots - {r}, owned - {r}) <==> h in Owned(slots, owned) - OwnedBy(slots, owned, r) {
      if h in Owned(slots, owned) - OwnedBy(slots, owned, r) {
        var x :| x in owned && x in slots && slots[x] == h;
        assert x != r;
        assert (slots - {r})[x] == h;
      }
    }
  }

  /**
   * A sample object as far as handles go: its member pointers, which of them
   * own a reference, the handles lost by overwriting an owning pointer, the
   * Mats filled so far, the SDK calls made so far, and whether every one of
   * those calls was legal.
   */
  datatype Env = Env(
    slots: map<Role, Handle>,
    owned: set<Role>,
    leaked: set<Handle>,
    mats: set<Role>,
    trace: Trace,
    ok: bool)

  /** A freshly constructed sample object: every pointer NULL, nothing called. */
  const Start: Env := Env(map[], {}, {}, {}, Empty, true)

  /**
   * The bookkeeping agrees with the trace: the outstanding handles are those
   * of the owning pointers plus the leaked ones, `ok` says whether the trace is
   * well formed, and every pointer holds an earlier handle of its own kind,
   * newer than any leaked handle of that kind.
   */
  predicate Sound(e: Env) {
    && (forall r | r in e.slots :: e.slots[r].role == r && e.slots[r].serial < Len(e.trace))
    && (forall h | h in e.leaked :: h.serial < Len(e.trace) && (h.role in e.slots ==> h.serial < e.slots[h.role].serial))
    && e.owned <= e.slots.Keys
    && Live(e.trace) == Owned(e.slots, e.owned) + e.leaked
    && (e.ok <==> WellFormed(e.trace))
  }

  lemma StartSound()
    ensures Sound(Start)
  {
  }

  /** The handle the next acquisition into `r` produces. */
  function Fresh(e: Env, r: Role): Handle {
    Handle(r, Len(e.trace))
  }

  /** The leaked handles once pointer `r` is overwritten: its handle is lost when it owns one. */
  function Leak(e: Env, r: Role): set<Handle> {
    if r in e.owned && r in e.slots then e.leaked + {e.slots[r]} else e.leaked
  }

  /** Between ticks: nothing misused so far and nothing outstanding (pointers may dangle). */
  predicate Quiescent(e: Env) {
    e.ok && e.owned == {} && e.leaked == {}
  }

  /** Quiescent, and moreover every member pointer is NULL. */
  predicate Clean(e: Env) {
    Quiescent(e) && e.slots.Keys == {}
  }

  /** RAII: nothing misused, every set pointer owns its handle, and nothing else is outstanding. */
  predicate Owns(e: Env) {
    e.ok && e.owned == e.slots.Keys && e.leaked == {}
  }

  /** Appends one event. */
  function Log(e: Env, ev: Event): (e': Env)
    ensures e'.slots == e.slots && e'.owned == e.owned && e'.leaked == e.leaked && e'.mats == e.mats
    ensures e'.ok == e.ok && e'.trace == Snoc(e.trace, ev)
  {
    e.(trace := Snoc(e.trace, ev))
  }

  /** A getter that hands out a new reference, stored into `r` over whatever was there. */
  function Mint(e: Env, r: Role, op: Op): (e': Env)
    ensures e'.owned == e.owned + {r} && e'.leaked == Leak(e, r) && e'.ok == e.ok
    ensures e'.slots == e.slots[r := Fresh(e, r)] && e'.mats == e.mats
  {
    var f := Fresh(e, r);
    var e1 := Log(e, Acquire(f, op));
    e1.(slots := e.slots[r := f], owned := e.owned + {r}, leaked := Leak(e, r))
  }

  lemma MintSound(e: Env, r: Role, op: Op)
    requires Sound(e)
    ensures Sound(Mint(e, r, op))
  {
    OwnedStore(e.slots, e.owned, r, Fresh(e, r));
  }

  /** A call that reads through pointer `r`. */
  function Touch(e: Env, r: Role, op: Op): (e': Env)
    ensures e'.owned == e.owned && e'.leaked == e.leaked && e'.ok == (e.ok && r in e.owned)
    ensures e'.slots == e.slots && e'.mats == e.mats
  {
    var ev := if r in e.slots then Use(e.slots[r], op) else NullUse(r, op);
    var e1 := Log(e, ev);
    e1.(ok := e.ok && r in e.owned)
  }

  lemma TouchSound(e: Env, r: Role, op: Op)
    requires Sound(e)
    ensures Sound(Touch(e, r, op))
  {
    assert r in e.slots && r !in e.owned ==> e.slots[r] !in Live(e.trace);
  }

  /** Copies the image behind `r` into its Mat (`k4a::get_mat`). */
  function Convert(e: Env, r: Role): (e': Env)
    ensures e'.owned == e.owned && e'.leaked == e.leaked && e'.ok == (e.ok && r in e.owned)
    ensures e'.slots == e.slots && e'.mats == e.mats + {r}
  {
    var e1 := Touch(e, r, ToMat);
    e1.(mats := e1.mats + {r})
  }

  lemma ConvertSound(e: Env, r: Role)
    requires Sound(e)
    ensures Sound(Convert(e, r))
  {
    TouchSound(e, r, ToMat);
  }

  /** A C release: the handle is released when the pointer is set, and the pointer keeps its value. */
  function Free(e: Env, r: Role): (e': Env)
    ensures e'.owned == e.owned - {r} && e'.leaked == e.leaked
    ensures e'.ok == (e.ok && (r in e.slots ==> r in e.owned))
    ensures e'.slots == e.slots && e'.mats == e.mats
  {
    if r !in e.slots then e.(owned := e.owned - {r})
    else
      var e1 := Log(e, Release(e.slots[r]));
      e1.(owned := e.owned - {r}, ok := e.ok && r in e.owned)
  }

  lemma FreeSound(e: Env, r: Role)
    requires Sound(e)
    ensures Sound(Free(e, r))
  {
    OwnedRemove(e.slots, e.owned, r);
    if r in e.slots {
      ReleaseSound(e, r);
    }
  }

  /** Releasing the handle of a set pointer keeps the bookkeeping in step with the trace. */
  lemma ReleaseSound(e: Env, r: Role)
    requires Sound(e) && r in e.slots
    ensures Sound(Free(e, r))
  {
    var h0 := e.slots[r];
    var e' := Log(e, Release(h0)).(owned := e.owned - {r}, ok := e.ok && r in e.owned);
    assert Free(e, r) == e';
    OwnedRemove(e.slots, e.owned, r);
    forall h | h in e.leaked ensures h != h0 {
      if h.role == r { assert h.serial < h0.serial; }
    }
    assert h0 in Live(e.trace) <==> r in e.owned by {
      if h0 in Owned(e.slots, e.owned) {
        var x :| x in e.owned && x in e.slots && e.slots[x] == h0;
      }
    }
    assert Live(e'.trace) == Owned(e'.slots, e'.owned) + e'.leaked;
  }

  /** A C++ `reset()`: release when the pointer is set, then clear it. */
  function Reset(e: Env, r: Role): (e': Env)
    ensures e'.owned == e.owned - {r} && e'.leaked == e.leaked
    ensures e'.ok == (e.ok && (r in e.slots ==> r in e.owned))
    ensures e'.slots == e.slots - {r} && e'.mats == e.mats
  {
    var e1 := Free(e, r);
    e1.(slots := e1.slots - {r})
  }

  lemma ResetSound(e: Env, r: Role)
    requires Sound(e)
    ensures Sound(Reset(e, r))
  {
    FreeSound(e, r);
    OwnedRemove(e.slots, e.owned, r);
  }

  /** A C assignment from a getter: the new handle when present, NULL otherwise. */
  function Fetch(e: Env, r: Role, present: bool, op: Op): (e': Env)
    ensures present ==> e'.owned == e.owned + {r} && e'.slots == e.slots[r := Fresh(e, r)]
    ensures !present ==> e'.owned == e.owned - {r} && e'.slots == e.slots - {r}
    ensures e'.leaked == Leak(e, r) && e'.ok == e.ok && e'.mats == e.mats
  {
    if present then Mint(e, r, op)
    else e.(slots := e.slots - {r}, owned := e.owned - {r}, leaked := Leak(e, r))
  }

  lemma FetchSound(e: Env, r: Role, present: bool, op: Op)
    requires Sound(e)
    ensures Sound(Fetch(e, r, present, op))
  {
    if present {
      assert Fetch(e, r, present, op) == Mint(e, r, op);
      MintSound(e, r, op);
    } else {
      OwnedRemove(e.slots, e.owned, r);
    }
  }

  /**
   * A C++ move-assignment from a getter: the new handle (when present) is
   * acquired first, then the one previously held by `r` is released.
   */
  function Assign(e: Env, r: Role, present: bool, op: Op): (e': Env)
    ensures present ==> e'.owned == e.owned + {r} && e'.slots == e.slots[r := Fresh(e, r)]
    ensures !present ==> e'.owned == e.owned - {r} && e'.slots == e.slots - {r}
    ensures e'.ok == (e.ok && (r in e.slots ==> r in e.owned))
    ensures e'.leaked == e.leaked && e'.mats == e.mats
  {
    if !present then Reset(e, r)
    else if r !in e.slots then Mint(e, r, op)
    else Swap(e, r, op)
  }

  lemma AssignSound(e: Env, r: Role, present: bool, op: Op)
    requires Sound(e)
    ensures Sound(Assign(e, r, present, op))
  {
    if !present {
      assert Assign(e, r, present, op) == Reset(e, r);
      ResetSound(e, r);
    } else if r !in e.slots {
      assert Assign(e, r, present, op) == Mint(e, r, op);
      MintSound(e, r, op);
    } else {
      assert Assign(e, r, present, op) == Swap(e, r, op);
      SwapSound(e, r, op);
    }
  }

  /** `Assign` of a present handle into a set pointer. */
  function Swap(e: Env, r: Role, op: Op): (e': Env)
    requires r in e.slots
    ensures e'.owned == e.owned + {r} && e'.leaked == e.leaked
    ensures e'.ok == (e.ok && r in e.owned)
    ensures e'.slots == e.slots[r := Fresh(e, r)] && e'.mats == e.mats
  {
    var f, h0 := Fresh(e, r), e.slots[r];
    var e1 := Log(Log(e, Acquire(f, op)), Release(h0));
    e1.(slots := e.slots[r := f], owned := e.owned + {r}, ok := e.ok && r in e.owned)
  }

  lemma SwapSound(e: Env, r: Role, op: Op)
    requires Sound(e) && r in e.slots
    ensures Sound(Swap(e, r, op))
  {
    var f, h0 := Fresh(e, r), e.slots[r];
    var e' := Swap(e, r, op);
    OwnedStore(e.slots, e.owned, r, f);
    forall h | h in e.leaked ensures h != h0 {
      if h.role == r { assert h.serial < h0.serial; }
    }
    assert h0 in Live(e.trace) <==> r in e.owned by {
      if h0 in Owned(e.slots, e.owned) {
        var x :| x in e.owned && x in e.slots && e.slots[x] == h0;
      }
    }
    assert h0 != f;
    LiveBelow(e.trace);
    assert f !in Live(e.trace) || !e.ok;
    assert Live(e'.trace) == Live(e.trace) + {f} - {h0};
    assert Live(e'.trace) == Owned(e'.slots, e'.owned) + e'.leaked;
    assert e'.ok <==> WellFormed(e'.trace);
  }

  /** C: `dst = get(src)` — a read through `src` that stores a new handle (or NULL) into `dst`. */
  function Extract(e: Env, src: Role, dst: Role, present: bool, op: Op): (e': Env)
    ensures present ==> e'.owned == e.owned + {dst}
    ensures !present ==> e'.owned == e.owned - {dst}
    ensures e'.leaked == Leak(e, dst)
    ensures e'.ok == (e.ok && src in e.owned)
    ensures e'.slots.Keys == if present then e.slots.Keys + {dst} else e.slots.Keys - {dst}
    ensures e'.slots - {dst} == e.slots - {dst}
    ensures e'.mats == e.mats
  {
    Fetch(Touch(e, src, op), dst, present, op)
  }

  lemma ExtractSound(e: Env, src: Role, dst: Role, present: bool, op: Op)
    requires Sound(e)
    ensures Sound(Extract(e, src, dst, present, op))
  {
    TouchSound(e, src, op);
    FetchSound(Touch(e, src, op), dst, present, op);
  }

  /** C++: `dst = src.get()` — a read through `src`, then a move-assignment into `dst`. */
  function Take(e: Env, src: Role, dst: Role, present: bool, op: Op): (e': Env)
    ensures present ==> e'.owned == e.owned + {dst}
    ensures !present ==> e'.owned == e.owned - {dst}
    ensures e'.ok == (e.ok && src in e.owned && (dst in e.slots ==> dst in e.owned))
    ensures e'.slots.Keys == if present then e.slots.Keys + {dst} else e.slots.Keys - {dst}
    ensures e'.slots - {dst} == e.slots - {dst}
    ensures e'.leaked == e.leaked && e'.mats == e.mats
  {
    Assign(Touch(e, src, op), dst, present, op)
  }

  lemma TakeSound(e: Env, src: Role, dst: Role, present: bool, op: Op)
    requires Sound(e)
    ensures Sound(Take(e, src, dst, present, op))
  {
    TouchSound(e, src, op);
    AssignSound(Touch(e, src, op), dst, present, op);
  }

  /** Only a read through a set pointer counts as a use of its call. */
  lemma UsesTouch(e: Env, r: Role, op: Op, o: Op)
    ensures Uses(Touch(e, r, op).trace, o) == Uses(e.trace, o) + (if r in e.slots && op == o then 1 else 0)
  {
  }

  lemma UsesConvert(e: Env, r: Role, o: Op)
    ensures Uses(Convert(e, r).trace, o) == Uses(e.trace, o) + (if r in e.slots && o == ToMat then 1 else 0)
  {
    UsesTouch(e, r, ToMat, o);
  }

  /** Acquisitions and releases are not uses. */
  lemma UsesMint(e: Env, r: Role, op: Op, o: Op)
    ensures Uses(Mint(e, r, op).trace, o) == Uses(e.trace, o)
  {
  }

  lemma UsesFree(e: Env, r: Role, o: Op)
    ensures Uses(Free(e, r).trace, o) == Uses(e.trace, o)
  {
  }

  lemma UsesReset(e: Env, r: Role, o: Op)
    ensures Uses(Reset(e, r).trace, o) == Uses(e.trace, o)
  {
    UsesFree(e, r, o);
  }

  lemma UsesAssign(e: Env, r: Role, present: bool, op: Op, o: Op)
    ensures Uses(Assign(e, r, present, op).trace, o) == Uses(e.trace, o)
  {
    if !present {
      UsesReset(e, r, o);
    } else if r !in e.slots {
      UsesMint(e, r, op, o);
    }
  }

  lemma UsesTake(e: Env, src: Role, dst: Role, present: bool, op: Op, o: Op)
    ensures Uses(Take(e, src, dst, present, op).trace, o) == Uses(e.trace, o) + (if src in e.slots && op == o then 1 else 0)
  {
    UsesTouch(e, src, op, o);
    UsesAssign(Touch(e, src, op), dst, present, op, o);
  }

  lemma UsesExtract(e: Env, src: Role, dst: Role, present: bool, op: Op, o: Op)
    ensures Uses(Extract(e, src, dst, present, op).trace, o) == Uses(e.trace, o) + (if src in e.slots && op == o then 1 else 0)
  {
    UsesTouch(e, src, op, o);
    if present {
      UsesMint(Touch(e, src, op), dst, op, o);
    }
  }

  /** Under RAII a read through a set pointer changes no pointer. */
  lemma OwnsTouch(e: Env, r: Role, op: Op)
    requires Owns(e) && r in e.slots
    ensures Owns(Touch(e, r, op)) && Touch(e, r, op).slots == e.slots && Touch(e, r, op).mats == e.mats
  {
  }

  /** Under RAII a getter into a NULL pointer makes it owning. */
  lemma OwnsMint(e: Env, r: Role, op: Op)
    requires Owns(e) && r !in e.slots
    ensures Owns(Mint(e, r, op)) && Mint(e, r, op).slots.Keys == e.slots.Keys + {r} && Mint(e, r, op).mats == e.mats
  {
  }

  /** Under RAII a move-assignment keeps every set pointer owning. */
  lemma OwnsAssign(e: Env, r: Role, present: bool, op: Op)
    requires Owns(e)
    ensures var e' := Assign(e, r, present, op);
      && Owns(e') && e'.mats == e.mats
      && e'.slots.Keys == if present then e.slots.Keys + {r} else e.slots.Keys - {r}
  {
  }

  /** Under RAII a `reset()` keeps every set pointer owning and clears `r`. */
  lemma OwnsReset(e: Env, r: Role)
    requires Owns(e)
    ensures Owns(Reset(e, r)) && Reset(e, r).slots.Keys == e.slots.Keys - {r} && Reset(e, r).mats == e.mats
  {
  }

  /** Under RAII a move-assignment from a getter through a set pointer keeps every set pointer owning. */
  lemma OwnsTake(e: Env, src: Role, dst: Role, present: bool, op: Op)
    requires Owns(e) && src in e.slots
    ensures var e' := Take(e, src, dst, present, op);
      && Owns(e') && e'.mats == e.mats
      && e'.slots.Keys == if present then e.slots.Keys + {dst} else e.slots.Keys - {dst}
  {
  }

  /** What the bookkeeping says about the trace itself at a tick boundary. */
  lemma QuiescentMeans(e: Env)
    requires Sound(e) && Quiescent(e)
    ensures WellFormed(e.trace) && Live(e.trace) == {}
  {
  }
}
