/**
 The single-slot frame mailbox between the decoder thread and the UI thread: a mutex around the
 slot, an atomic "scheduled" flag, the main loop's queue of idle callbacks, and the widget's own
 pending redraw. Every interleaving of the two threads is a sequence of the steps below.
 */
module Mailbox {

  /** One plane of a picture: bytes from one row to the next, bytes in a row, rows, and the opaque contents. */
  datatype Plane = Plane(stride: int, row: int, rows: int, data: int)

  datatype Size = Size(w: int, h: int)

  /** A decoded picture: its size and its planes. */
  datatype Frame = Frame(w: int, h: int, luma: Plane, chroma: Plane)

  /** `copy_plane` computes stride * (rows - 1) + row as a size; below zero it wraps around and the process aborts. */
  predicate Fits(p: Plane)
  {
    p.stride * (p.rows - 1) + p.row >= 0
  }

  predicate Copyable(f: Frame)
  {
    Fits(f.luma) && Fits(f.chroma)
  }

  predicate Positive(f: Frame)
  {
    f.w > 0 && f.h > 0
  }

  /** `render_on_frame`, on the core's thread. */
  datatype Producer =
    | Waiting                                 // outside the callback
    | Locking(f: Frame)
    | Sizing(f: Frame)                        // holds the lock from here ...
    | CopyingLuma(f: Frame, resized: bool)
    | CopyingChroma(f: Frame, resized: bool)
    | Marking(f: Frame, resized: bool)
    | Releasing(resized: bool)                // ... to here
    | Announcing(resized: bool)               // adds the resize callback if the size changed
    | Exchanging                              // atomic_exchange on the flag
    | Scheduling                              // the exchange returned 0: adds the trigger

  /** `trigger_render`, `resize_to_video` and `on_render`, on the UI thread. */
  datatype Ui =
    | Idle
    | TriggerClearing                         // about to store 0 in the flag
    | TriggerQueueing                         // about to ask the widget for a redraw
    | ResizeLocking
    | ResizeReading                           // holds the lock
    | RenderLocking
    | Inspecting                              // holds the lock from here ...
    | UploadingLuma
    | UploadingChroma
    | Finishing                               // ... to here

  datatype Source = Trigger | Resize
  datatype Owner = Free | Core | Screen

  datatype State = State(
    aborted: bool,         // the process is gone
    compiled: bool,        // the shader program exists
    alive: bool,           // the session has not been torn down
    producer: Producer,
    ui: Ui,
    lock: Owner,
    slot: Frame,           // what the mutex protects
    pending: bool,         // likewise
    scheduled: bool,
    queue: seq<Source>,
    redraw: bool,          // the widget has a redraw queued
    texture: Frame,        // what is on screen
    fitted: Size,          // the video size the window was last fitted to
    delivered: seq<Frame>, // history: frames the decoder delivered in a format the screen can show
    stored: seq<Frame>,    // history: frames completely stored
    shown: seq<nat>)       // history: indices of the frames uploaded

  predicate Initial(s: State)
  {
    && !s.aborted && s.alive && s.producer == Waiting && s.ui == Idle && s.lock == Free && !s.pending && !s.scheduled
    && s.slot.w == 0 && s.slot.h == 0 && s.queue == [] && !s.redraw && s.delivered == [] && s.stored == [] && s.shown == []
  }

  datatype Step =
    | Deliver(f: Frame, supported: bool)  // the decoder calls back with a frame
    | Expose                              // the toolkit asks for a redraw by itself
    | Teardown                            // the window is closed
    | CoreStep
    | Dispatch(i: nat)                    // the main loop runs the i-th queued callback
    | Redraw                              // the widget is drawn
    | UiStep

  predicate Enabled(s: State, a: Step)
  {
    !s.aborted && match a
    case Deliver(_, _) => s.producer.Waiting?
    case Expose => s.ui.Idle?
    case Teardown => s.ui.Idle?
    case CoreStep => !s.producer.Waiting? && (s.producer.Locking? ==> s.lock == Free)
    case Dispatch(i) => s.ui.Idle? && i < |s.queue|
    case Redraw => s.ui.Idle? && s.redraw
    case UiStep => !s.ui.Idle? && (s.ui.RenderLocking? || s.ui.ResizeLocking? ==> s.lock == Free)
  }

  /** Where the producer goes next. */
  function CorePc(s: State): Producer
  {
    match s.producer
    case Waiting => Waiting
    case Locking(f) => Sizing(f)
    case Sizing(f) => CopyingLuma(f, s.slot.w != f.w || s.slot.h != f.h)
    case CopyingLuma(f, r) => CopyingChroma(f, r)
    case CopyingChroma(f, r) => Marking(f, r)
    case Marking(_, r) => Releasing(r)
    case Releasing(r) => Announcing(r)
    case Announcing(_) => Exchanging
    case Exchanging => if s.scheduled then Waiting else Scheduling
    case Scheduling => Waiting
  }

  /** What the producer writes into the slot. */
  function CoreSlot(s: State): Frame
  {
    match s.producer
    case Sizing(f) => s.slot.(w := f.w, h := f.h)
    case CopyingLuma(f, _) => s.slot.(luma := f.luma)
    case CopyingChroma(f, _) => s.slot.(chroma := f.chroma)
    case _ => s.slot
  }

  /** The copy at hand cannot be made. */
  predicate Overflows(p: Producer)
  {
    (p.CopyingLuma? && !Fits(p.f.luma)) || (p.CopyingChroma? && !Fits(p.f.chroma))
  }

  function CoreNext(s: State): State
    requires Enabled(s, CoreStep)
  {
    if Overflows(s.producer) then s.(aborted := true) else CoreDone(s)
  }

  function CoreDone(s: State): State
  {
    var p := s.producer;
    s.(producer := CorePc(s),
       lock := if p.Locking? then Core else if p.Releasing? then Free else s.lock,
       slot := CoreSlot(s),
       pending := s.pending || p.Marking?,
       stored := if p.Marking? then s.stored + [p.f] else s.stored,
       queue := if p.Announcing? && p.resized then s.queue + [Resize]
                else if p.Scheduling? then s.queue + [Trigger] else s.queue,
       scheduled := s.scheduled || p.Exchanging?)
  }

  /** Where the UI thread goes next; `Idle` leaves the callback. */
  function UiPc(s: State): Ui
  {
    match s.ui
    case TriggerClearing => TriggerQueueing
    case ResizeLocking => ResizeReading
    case RenderLocking => Inspecting
    case Inspecting => if s.pending && Positive(s.slot) then UploadingLuma else Idle
    case UploadingLuma => UploadingChroma
    case UploadingChroma => Finishing
    case _ => Idle
  }

  /** What the UI thread uploads. */
  function UiTexture(s: State): Frame
  {
    match s.ui
    case UploadingLuma => s.texture.(w := s.slot.w, h := s.slot.h, luma := s.slot.luma)
    case UploadingChroma => s.texture.(chroma := s.slot.chroma)
    case _ => s.texture
  }

  function UiNext(s: State): State
    requires Enabled(s, UiStep)
  {
    var u := s.ui;
    s.(ui := UiPc(s),
       lock := if u.ResizeLocking? || u.RenderLocking? then Screen
               else if u.ResizeReading? || u.Finishing? || (u.Inspecting? && UiPc(s).Idle?) then Free
               else s.lock,
       scheduled := s.scheduled && !u.TriggerClearing?,
       redraw := s.redraw || (u.TriggerQueueing? && s.alive),
       texture := UiTexture(s),
       fitted := if u.ResizeReading? && Positive(s.slot) then Size(s.slot.w, s.slot.h) else s.fitted,
       pending := s.pending && !u.Finishing?,
       shown := if u.Finishing? && s.stored != [] then s.shown + [|s.stored| - 1] else s.shown)
  }

  function Apply(s: State, a: Step): (s': State)
    requires Enabled(s, a)
    ensures s'.compiled == s.compiled
  {
    match a
    case Deliver(f, supported) => if supported then s.(producer := Locking(f), delivered := s.delivered + [f]) else s
    case Expose => s.(redraw := true)
    case Teardown => s.(alive := false)
    case CoreStep => CoreNext(s)
    case Dispatch(i) =>
      s.(ui := if s.queue[i].Trigger? then TriggerClearing else if s.alive then ResizeLocking else Idle,
         queue := s.queue[..i] + s.queue[i + 1..])
    case Redraw => s.(ui := if s.compiled then RenderLocking else Idle, redraw := false)
    case UiStep => UiNext(s)
  }

  predicate IsRun(s: State, steps: seq<Step>)
    decreases |steps|
  {
    steps == [] || (Enabled(s, steps[0]) && IsRun(Apply(s, steps[0]), steps[1..]))
  }

  function After(s: State, steps: seq<Step>): (s': State)
    requires IsRun(s, steps)
    decreases |steps|
  {
    if steps == [] then s else After(Apply(s, steps[0]), steps[1..])
  }

  // ---- The invariant

  predicate CoreHolds(p: Producer)
  {
    p.Sizing? || p.CopyingLuma? || p.CopyingChroma? || p.Marking? || p.Releasing?
  }

  predicate Uploading(u: Ui)
  {
    u.UploadingLuma? || u.UploadingChroma? || u.Finishing?
  }

  predicate ScreenHolds(u: Ui)
  {
    u.ResizeReading? || u.Inspecting? || Uploading(u)
  }

  predicate LockOwned(s: State)
  {
    (s.lock == Core <==> CoreHolds(s.producer)) && (s.lock == Screen <==> ScreenHolds(s.ui))
  }

  function Triggers(q: seq<Source>): nat
  {
    if q == [] then 0 else (if q[0].Trigger? then 1 else 0) + Triggers(q[1..])
  }

  /** The flag is up exactly while one trigger is about to be queued, is queued, or has yet to lower it. */
  predicate OneTrigger(s: State)
  {
    Triggers(s.queue) + (if s.producer.Scheduling? then 1 else 0) + (if s.ui.TriggerClearing? then 1 else 0)
      == if s.scheduled then 1 else 0
  }

  /** Outside the producer's critical section the slot is exactly the last frame stored. */
  predicate SlotWhole(s: State)
  {
    match s.producer
    case Sizing(_) => true
    case CopyingLuma(f, _) => s.slot.w == f.w && s.slot.h == f.h
    case CopyingChroma(f, _) => s.slot.w == f.w && s.slot.h == f.h && s.slot.luma == f.luma
    case Marking(f, _) => s.slot == f
    case _ => s.stored != [] ==> s.slot == s.stored[|s.stored| - 1]
  }

  /** pending says whether the newest stored frame is still to be shown; frames are shown once, in order. */
  predicate ShownExact(s: State)
  {
    && (s.pending ==> s.stored != [] && (s.shown != [] ==> s.shown[|s.shown| - 1] < |s.stored| - 1))
    && (!s.pending && s.stored != [] ==> s.shown != [] && s.shown[|s.shown| - 1] == |s.stored| - 1)
    && (forall i, j :: 0 <= i < j < |s.shown| ==> s.shown[i] < s.shown[j])
    && (forall i :: 0 <= i < |s.shown| ==> s.shown[i] < |s.stored| && Positive(s.stored[s.shown[i]]))
    && (Uploading(s.ui) ==> s.pending && Positive(s.slot))
  }

  /** What is on screen is one whole stored frame, never a mixture, except in the middle of an upload. */
  predicate TextureWhole(s: State)
  {
    match s.ui
    case UploadingLuma => true
    case UploadingChroma => s.texture.w == s.slot.w && s.texture.h == s.slot.h && s.texture.luma == s.slot.luma
    case Finishing => s.texture == s.slot
    case _ => s.shown != [] ==> s.shown[|s.shown| - 1] < |s.stored| && s.texture == s.stored[s.shown[|s.shown| - 1]]
  }

  /** Something that will look at the slot is under way. */
  predicate Coming(s: State)
  {
    || s.producer.Releasing? || s.producer.Announcing? || s.producer.Exchanging? || s.producer.Scheduling?
    || Triggers(s.queue) > 0
    || s.ui.TriggerClearing? || s.ui.TriggerQueueing?
    || s.redraw
    || s.ui.RenderLocking? || s.ui.Inspecting? || Uploading(s.ui)
  }

  predicate NoLostWakeup(s: State)
  {
    s.alive && s.compiled && s.pending && s.stored != [] && Positive(s.stored[|s.stored| - 1]) ==> Coming(s)
  }

  predicate Inv(s: State)
  {
    LockOwned(s) && OneTrigger(s) && SlotWhole(s) && ShownExact(s) && TextureWhole(s) && NoLostWakeup(s)
  }

  lemma {:induction false} TriggersConcat(p: seq<Source>, q: seq<Source>)
    ensures Triggers(p + q) == Triggers(p) + Triggers(q)
  {
    if p == [] {
      assert p + q == q;
    } else {
      TriggersConcat(p[1..], q);
      assert (p + q)[1..] == p[1..] + q;
    }
  }

  lemma TriggersRemove(q: seq<Source>, i: nat)
    requires i < |q|
    ensures Triggers(q) == Triggers(q[..i] + q[i + 1..]) + (if q[i].Trigger? then 1 else 0)
  {
    var tail := q[i..];
    assert tail[0] == q[i] && tail[1..] == q[i + 1..];
    assert Triggers(tail) == (if q[i].Trigger? then 1 else 0) + Triggers(tail[1..]);
    hide Triggers;
    assert q == q[..i] + tail;
    TriggersConcat(q[..i], tail);
    TriggersConcat(q[..i], tail[1..]);
  }

  lemma TriggersAppend(q: seq<Source>)
    ensures Triggers(q + [Trigger]) == Triggers(q) + 1 && Triggers(q + [Resize]) == Triggers(q)
  {
    TriggersConcat(q, [Trigger]);
    TriggersConcat(q, [Resize]);
  }

  lemma DeliverInv(s: State, a: Step)
    requires Inv(s) && Enabled(s, a) && (a.Deliver? || a.Expose? || a.Teardown? || a.Redraw?)
    ensures Inv(Apply(s, a))
  {
    hide Triggers, CoreNext, UiNext;
  }

  lemma DispatchInv(s: State, a: Step)
    requires Inv(s) && Enabled(s, a) && a.Dispatch?
    ensures Inv(Apply(s, a))
  {
    TriggersRemove(s.queue, a.i);
  }

  /** The producer's critical section, up to the last copy. */
  lemma CopyInv(s: State)
    requires Inv(s) && Enabled(s, CoreStep)
    requires s.producer.Locking? || s.producer.Sizing? || s.producer.CopyingLuma? || s.producer.CopyingChroma?
    ensures Inv(CoreDone(s))
  {
    var s' := CoreDone(s);
    assert s'.stored == s.stored && s'.shown == s.shown && s'.queue == s.queue && s'.pending == s.pending;
  }

  /** Its end: the frame counts as stored, and the lock is released. */
  lemma StoreInv(s: State)
    requires Inv(s) && !s.aborted && (s.producer.Marking? || s.producer.Releasing?)
    ensures Inv(CoreDone(s))
  {
    var s' := CoreDone(s);
    assert s'.shown == s.shown && s'.queue == s.queue && s'.ui == s.ui;
    if s.producer.Marking? {
      assert forall i :: 0 <= i < |s.stored| ==> s'.stored[i] == s.stored[i];
    }
  }

  /** What the producer does after unlocking. */
  lemma AnnounceInv(s: State)
    requires Inv(s) && !s.aborted && (s.producer.Announcing? || s.producer.Exchanging? || s.producer.Scheduling?)
    ensures Inv(CoreDone(s))
  {
    TriggersAppend(s.queue);
  }

  lemma TriggerInv(s: State)
    requires Inv(s) && !s.aborted && (s.ui.TriggerClearing? || s.ui.TriggerQueueing?)
    ensures Inv(UiNext(s))
  {
    var s' := UiNext(s);
    assert s'.slot == s.slot && s'.texture == s.texture && s'.shown == s.shown && s'.lock == s.lock;
  }

  lemma ResizeInv(s: State)
    requires Inv(s) && Enabled(s, UiStep) && (s.ui.ResizeLocking? || s.ui.ResizeReading?)
    ensures Inv(UiNext(s))
  {
    var s' := UiNext(s);
    assert s'.slot == s.slot && s'.texture == s.texture && s'.shown == s.shown && s'.scheduled == s.scheduled;
  }

  lemma RenderInv(s: State)
    requires Inv(s) && Enabled(s, UiStep)
    requires s.ui.RenderLocking? || s.ui.Inspecting? || s.ui.UploadingLuma? || s.ui.UploadingChroma?
    ensures Inv(UiNext(s))
  {
    var s' := UiNext(s);
    assert s'.stored == s.stored && s'.shown == s.shown && s'.queue == s.queue && s'.slot == s.slot;
  }

  lemma FinishInv(s: State)
    requires Inv(s) && !s.aborted && s.ui.Finishing?
    ensures Inv(UiNext(s))
  {
    var s' := UiNext(s);
    assert s'.stored == s.stored && s'.queue == s.queue && s'.producer == s.producer;
    assert s'.shown == s.shown + [|s.stored| - 1];
  }

  lemma AbortInv(s: State)
    requires Inv(s)
    ensures Inv(s.(aborted := true))
  {
  }

  lemma StepInv(s: State, a: Step)
    requires Inv(s) && Enabled(s, a)
    ensures Inv(Apply(s, a))
  {
    hide Inv, Overflows;
    if a.Dispatch? {
      DispatchInv(s, a);
    } else if a.CoreStep? {
      if Overflows(s.producer) { AbortInv(s); }
      else if s.producer.Marking? || s.producer.Releasing? { StoreInv(s); }
      else if CoreHolds(s.producer) || s.producer.Locking? { CopyInv(s); }
      else { AnnounceInv(s); }
    } else if a.UiStep? {
      if s.ui.Finishing? { FinishInv(s); }
      else if s.ui.RenderLocking? || s.ui.Inspecting? || Uploading(s.ui) { RenderInv(s); }
      else if s.ui.ResizeLocking? || s.ui.ResizeReading? { ResizeInv(s); }
      else { TriggerInv(s); }
    } else {
      DeliverInv(s, a);
    }
  }

  lemma {:induction false} RunInv(s: State, steps: seq<Step>)
    requires Inv(s) && IsRun(s, steps)
    ensures Inv(After(s, steps))
    decreases |steps|
  {
    if steps != [] {
      StepInv(s, steps[0]);
      RunInv(Apply(s, steps[0]), steps[1..]);
    }
  }

  // ---- What it means

  /** The frame on its way into the slot, if any. */
  function OnItsWay(p: Producer): seq<Frame>
  {
    match p
    case Locking(f) => [f]
    case Sizing(f) => [f]
    case CopyingLuma(f, _) => [f]
    case CopyingChroma(f, _) => [f]
    case Marking(f, _) => [f]
    case _ => []
  }

  /** Every frame delivered is stored, in order, but for the one on its way. */
  predicate Flow(s: State)
  {
    s.delivered == s.stored + OnItsWay(s.producer)
  }

  lemma FlowStep(s: State, a: Step)
    requires Flow(s) && Enabled(s, a)
    ensures Flow(Apply(s, a))
  {
    hide Overflows, UiNext;
    if a.UiStep? {
      UiKeepsFlow(s);
    }
  }

  lemma UiKeepsFlow(s: State)
    requires Enabled(s, UiStep)
    ensures var t := UiNext(s); t.delivered == s.delivered && t.stored == s.stored && t.producer == s.producer
  {
  }

  lemma {:induction false} FlowRun(s: State, steps: seq<Step>)
    requires Flow(s) && IsRun(s, steps)
    ensures Flow(After(s, steps))
    decreases |steps|
  {
    hide Flow, Enabled, Apply;
    if steps != [] {
      FlowStep(s, steps[0]);
      FlowRun(Apply(s, steps[0]), steps[1..]);
    }
  }

  /** A resize of the window is under way. */
  predicate ResizeComing(s: State)
  {
    || (s.producer.CopyingLuma? && s.producer.resized) || (s.producer.CopyingChroma? && s.producer.resized)
    || (s.producer.Marking? && s.producer.resized) || (s.producer.Releasing? && s.producer.resized)
    || (s.producer.Announcing? && s.producer.resized)
    || Resize in s.queue || s.ui.ResizeLocking? || s.ui.ResizeReading?
  }

  /** The window is fitted to the size in the slot, or will be. */
  predicate WindowFits(s: State)
  {
    s.alive && Positive(s.slot) ==> s.fitted == Size(s.slot.w, s.slot.h) || ResizeComing(s)
  }

  lemma WindowStep(s: State, a: Step)
    requires WindowFits(s) && Enabled(s, a)
    ensures WindowFits(Apply(s, a))
  {
    if a.Dispatch? {
      if Resize in s.queue && s.queue[a.i].Trigger? {
        StillQueued(s.queue, a.i);
      }
    } else if a.CoreStep? {
      WindowCore(s);
    } else if a.UiStep? {
      assert UiNext(s).queue == s.queue && UiNext(s).producer == s.producer;
    }
  }

  lemma WindowCore(s: State)
    requires WindowFits(s) && Enabled(s, CoreStep)
    ensures WindowFits(CoreNext(s))
  {
    hide Overflows;
    if !Overflows(s.producer) {
      var t := CoreDone(s);
      assert forall x :: x in s.queue ==> x in t.queue;
      assert t.ui == s.ui && t.fitted == s.fitted;
    }
  }

  lemma StillQueued(q: seq<Source>, i: nat)
    requires i < |q| && q[i] == Trigger && Resize in q
    ensures Resize in q[..i] + q[i + 1..]
  {
    var j :| 0 <= j < |q| && q[j] == Resize;
    var rest := q[..i] + q[i + 1..];
    assert rest[if j < i then j else j - 1] == Resize;
  }

  lemma {:induction false} WindowRun(s: State, steps: seq<Step>)
    requires WindowFits(s) && IsRun(s, steps)
    ensures WindowFits(After(s, steps))
    decreases |steps|
  {
    hide WindowFits, Enabled, Apply;
    if steps != [] {
      WindowStep(s, steps[0]);
      WindowRun(Apply(s, steps[0]), steps[1..]);
    }
  }

  /** No callback is about to fit the window. */
  predicate HandsOff(s: State)
  {
    !s.alive && !s.redraw && !s.ui.ResizeLocking? && !s.ui.ResizeReading?
  }

  /** Once the session is torn down, what is still queued neither redraws nor fits the window. */
  lemma {:induction false} TornDownHandsOff(s: State, steps: seq<Step>)
    requires HandsOff(s) && IsRun(s, steps) && Expose !in steps
    ensures HandsOff(After(s, steps)) && After(s, steps).fitted == s.fitted
    decreases |steps|
  {
    hide CoreNext;
    if steps != [] {
      var t := Apply(s, steps[0]);
      if steps[0].CoreStep? {
        CoreHandsOff(s);
      }
      assert HandsOff(t) && t.fitted == s.fitted;
      TornDownHandsOff(t, steps[1..]);
    }
  }

  lemma CoreHandsOff(s: State)
    requires Enabled(s, CoreStep)
    ensures var t := CoreNext(s); t.alive == s.alive && t.redraw == s.redraw && t.ui == s.ui && t.fitted == s.fitted
  {
  }

  /** No lost wake-up, over every interleaving; and at most one trigger ever waits in the queue. */
  lemma NoFrameIsForgotten(init: State, steps: seq<Step>)
    requires Initial(init) && IsRun(init, steps)
    ensures var s := After(init, steps);
      && Triggers(s.queue) <= 1
      && NoLostWakeup(s)
  {
    RunInv(init, steps);
  }

  /** Every upload puts exactly the newest stored frame on screen, whole, and no frame twice. */
  lemma UploadsNewest(init: State, steps: seq<Step>)
    requires Initial(init) && IsRun(init, steps) && After(init, steps).ui.Finishing?
    ensures var s := After(init, steps);
      && s.stored != [] && s.texture == s.stored[|s.stored| - 1]
      && |s.stored| - 1 !in s.shown
  {
    RunInv(init, steps);
  }

  predicate Quiescent(s: State)
  {
    !s.aborted && s.producer.Waiting? && s.ui.Idle? && s.queue == [] && !s.redraw
  }

  /**
   When everything has come to rest the last stored frame is on screen, unless its size is not
   positive: such a frame stays pending for ever.
   */
  lemma LastFrameOnScreen(init: State, steps: seq<Step>)
    requires Initial(init) && IsRun(init, steps)
    requires var s := After(init, steps); Quiescent(s) && s.alive && s.compiled && s.stored != []
    ensures var s := After(init, steps);
      var last := s.stored[|s.stored| - 1];
      && s.stored == s.delivered
      && (s.pending <==> !Positive(last))
      && (Positive(last) ==> s.texture == last && s.shown != [] && s.shown[|s.shown| - 1] == |s.stored| - 1)
      && (Positive(last) ==> s.fitted == Size(last.w, last.h))
  {
    hide Inv, Flow, WindowFits, After, IsRun;
    InitialInv(init);
    RunInv(init, steps);
    FlowRun(init, steps);
    WindowRun(init, steps);
    AtRest(After(init, steps));
  }

  lemma InitialInv(s: State)
    requires Initial(s)
    ensures Inv(s) && Flow(s) && WindowFits(s)
  {
  }

  lemma AtRest(s: State)
    requires Inv(s) && Flow(s) && WindowFits(s) && Quiescent(s) && s.alive && s.compiled && s.stored != []
    ensures var last := s.stored[|s.stored| - 1];
      && s.stored == s.delivered
      && (s.pending <==> !Positive(last))
      && (Positive(last) ==> s.texture == last && s.shown != [] && s.shown[|s.shown| - 1] == |s.stored| - 1)
      && (Positive(last) ==> s.fitted == Size(last.w, last.h))
  {
  }

  // ---- Progress

  function ProducerRank(p: Producer): nat
  {
    match p
    case Waiting => 0
    case Scheduling => 10
    case Exchanging => 11
    case Announcing(_) => 15
    case Releasing(_) => 16
    case Marking(_, _) => 17
    case CopyingChroma(_, _) => 18
    case CopyingLuma(_, _) => 19
    case Sizing(_) => 20
    case Locking(_) => 21
  }

  function UiRank(u: Ui): nat
  {
    match u
    case Idle => 0
    case Finishing => 1
    case UploadingChroma => 2
    case UploadingLuma => 3
    case Inspecting => 4
    case RenderLocking => 5
    case ResizeReading => 1
    case ResizeLocking => 2
    case TriggerQueueing => 7
    case TriggerClearing => 8
  }

  /** Work left before everything is at rest. */
  function Work(s: State): nat
  {
    if s.aborted then 0 else ProducerRank(s.producer) + UiRank(s.ui) + 3 * |s.queue| + 6 * Triggers(s.queue) + (if s.redraw then 6 else 0)
  }

  predicate Internal(a: Step)
  {
    a.CoreStep? || a.Dispatch? || a.Redraw? || a.UiStep?
  }

  lemma CoreWork(s: State)
    requires Enabled(s, CoreStep)
    ensures Work(CoreNext(s)) < Work(s)
  {
    hide Overflows;
    if !Overflows(s.producer) {
      CoreDoneWork(s);
    }
  }

  lemma CoreDoneWork(s: State)
    requires Enabled(s, CoreStep)
    ensures Work(CoreDone(s)) < Work(s)
  {
    TriggersAppend(s.queue);
    var s' := CoreDone(s);
    assert s'.ui == s.ui && s'.redraw == s.redraw;
  }

  lemma UiWork(s: State)
    requires Enabled(s, UiStep)
    ensures Work(UiNext(s)) < Work(s)
  {
    var s' := UiNext(s);
    assert s'.producer == s.producer && s'.queue == s.queue;
  }

  /** Each action of either thread lowers the remaining work, so between two frames only finitely many happen. */
  lemma InternalStepsEnd(s: State, a: Step)
    requires Enabled(s, a) && Internal(a)
    ensures Work(Apply(s, a)) < Work(s)
  {
    match a
    case CoreStep => CoreWork(s);
    case UiStep => UiWork(s);
    case Dispatch(i) => TriggersRemove(s.queue, i);
    case Redraw =>
  }

  lemma NeverStuck(s: State) returns (a: Step)
    requires Inv(s) && !Quiescent(s) && !s.aborted
    ensures Internal(a) && Enabled(s, a)
  {
    if s.lock == Screen || (!s.ui.Idle? && s.lock == Free) || s.ui.TriggerClearing? || s.ui.TriggerQueueing? {
      a := UiStep;
    } else if !s.producer.Waiting? {
      a := CoreStep;
    } else if s.redraw {
      a := Redraw;
    } else {
      a := Dispatch(0);
    }
  }

  /** Any run that the two threads cannot continue has put its last frame on screen. */
  lemma MaximalRunsShowLastFrame(init: State, steps: seq<Step>)
    requires Initial(init) && IsRun(init, steps)
    requires forall a :: Internal(a) ==> !Enabled(After(init, steps), a)
    requires var s := After(init, steps);
      !s.aborted && s.alive && s.compiled && s.stored != [] && Positive(s.stored[|s.stored| - 1])
    ensures var s := After(init, steps); s.stored == s.delivered && s.texture == s.stored[|s.stored| - 1]
  {
    RunInv(init, steps);
    var s := After(init, steps);
    if !Quiescent(s) {
      var a := NeverStuck(s);
    } else {
      LastFrameOnScreen(init, steps);
    }
  }

  /** Performs one more step of a run under construction. */
  lemma Do(init: State, steps: seq<Step>, a: Step) returns (more: seq<Step>, s: State)
    requires IsRun(init, steps) && Enabled(After(init, steps), a)
    ensures IsRun(init, more) && After(init, more) == s == Apply(After(init, steps), a) && more == steps + [a]
  {
    more, s := steps + [a], Apply(After(init, steps), a);
    Extend(init, steps, a);
  }

  lemma NoSteps(init: State)
    ensures IsRun(init, []) && After(init, []) == init
  {
  }

  const BLANK := Frame(0, 0, Plane(0, 0, 0, 0), Plane(0, 0, 0, 0))
  const THIN := Frame(0, 2, Plane(32, 0, 2, 1), Plane(16, 0, 1, 1))

  /** The producer's critical section for a frame without width. */
  lemma CopyThinFrame(init: State) returns (steps: seq<Step>)
    requires Initial(init) && init.slot == BLANK
    ensures IsRun(init, steps)
    ensures After(init, steps) ==
      init.(producer := Releasing(true), lock := Core, slot := THIN, pending := true, delivered := [THIN], stored := [THIN])
  {
    hide IsRun, After, UiNext;
    var s;
    NoSteps(init);
    steps, s := Do(init, [], Deliver(THIN, true));
    steps, s := Do(init, steps, CoreStep);
    assert s == init.(producer := Sizing(THIN), lock := Core, delivered := [THIN]);
    steps, s := Do(init, steps, CoreStep);
    assert s == init.(producer := CopyingLuma(THIN, true), lock := Core, slot := BLANK.(h := 2), delivered := [THIN]);
    steps, s := Do(init, steps, CoreStep);
    steps, s := Do(init, steps, CoreStep);
    assert s == init.(producer := Marking(THIN, true), lock := Core, slot := THIN, delivered := [THIN]);
    steps, s := Do(init, steps, CoreStep);
  }

  /** The steps by which the producer stores it and queues its callbacks. */
  lemma StoreThinFrame(init: State) returns (steps: seq<Step>)
    requires Initial(init) && init.slot == BLANK
    ensures IsRun(init, steps)
    ensures After(init, steps) ==
      init.(slot := THIN, pending := true, scheduled := true, queue := [Resize, Trigger], delivered := [THIN], stored := [THIN])
  {
    hide IsRun, After, UiNext;
    var f := THIN;
    var s;
    steps := CopyThinFrame(init);
    steps, s := Do(init, steps, CoreStep);
    assert s == init.(producer := Announcing(true), slot := f, pending := true, delivered := [f], stored := [f]);
    steps, s := Do(init, steps, CoreStep);
    assert s == init.(producer := Exchanging, slot := f, pending := true, queue := [Resize], delivered := [f], stored := [f]);
    steps, s := Do(init, steps, CoreStep);
    steps, s := Do(init, steps, CoreStep);
    assert s.queue == [Resize, Trigger];
  }

  /** The resize callback comes and goes without touching anything. */
  lemma ResizeComesAndGoes(init: State, before: seq<Step>) returns (steps: seq<Step>)
    requires IsRun(init, before)
    requires var s := After(init, before);
      !s.aborted && s.alive && s.ui.Idle? && s.lock == Free && s.queue == [Resize, Trigger] && !Positive(s.slot)
    ensures IsRun(init, steps) && After(init, steps) == After(init, before).(queue := [Trigger])
  {
    hide IsRun, After, CoreNext;
    var s0 := After(init, before);
    var s;
    steps, s := Do(init, before, Dispatch(0));
    assert s == s0.(ui := ResizeLocking, queue := [Trigger]);
    steps, s := Do(init, steps, UiStep);
    assert s == s0.(ui := ResizeReading, lock := Screen, queue := [Trigger]);
    steps, s := Do(init, steps, UiStep);
  }

  /** The size condition is needed: a frame without width is stored, is drawn for, and stays pending at rest. */
  lemma EmptyFrameStaysPending(init: State) returns (steps: seq<Step>)
    requires Initial(init) && init.compiled && init.slot == BLANK
    ensures IsRun(init, steps) && Quiescent(After(init, steps)) && After(init, steps).pending
  {
    hide IsRun, After, CoreNext;
    steps := StoreThinFrame(init);
    steps := ResizeComesAndGoes(init, steps);
    var s0 := init.(slot := THIN, pending := true, delivered := [THIN], stored := [THIN]);
    var s := After(init, steps);
    assert s == s0.(scheduled := true, queue := [Trigger]);
    steps, s := Do(init, steps, Dispatch(0));
    assert s == s0.(scheduled := true, ui := TriggerClearing);
    steps, s := Do(init, steps, UiStep);
    assert s == s0.(ui := TriggerQueueing);
    steps, s := Do(init, steps, UiStep);
    assert s == s0.(redraw := true);
    steps, s := Do(init, steps, Redraw);
    assert s == s0.(ui := RenderLocking);
    steps, s := Do(init, steps, UiStep);
    assert s == s0.(ui := Inspecting, lock := Screen);
    steps, s := Do(init, steps, UiStep);
  }

  // ---- Frames that cannot be copied

  /** Planes with at least one row, as every frame of height 2 or more has, can be copied. */
  lemma RowsFit(p: Plane)
    requires p.stride >= 0 && p.row >= 0 && p.rows >= 1
    ensures Fits(p)
  {
  }

  /** A plane without rows can be copied exactly when it is not padded: so a padded frame of height 1 cannot. */
  lemma NoRowsFit(p: Plane)
    requires p.rows == 0
    ensures Fits(p) <==> p.stride <= p.row
  {
  }

  /** The frame the producer is about to copy, if any. */
  function InHand(p: Producer): seq<Frame>
  {
    match p
    case Locking(f) => [f]
    case Sizing(f) => [f]
    case CopyingLuma(f, _) => [f]
    case CopyingChroma(f, _) => [f]
    case _ => []
  }

  /** It can be copied. */
  predicate SafeHands(s: State)
  {
    !s.aborted && forall f :: f in InHand(s.producer) ==> Copyable(f)
  }

  lemma SafeStep(s: State, a: Step)
    requires SafeHands(s) && Enabled(s, a) && (a.Deliver? && a.supported ==> Copyable(a.f))
    ensures SafeHands(Apply(s, a))
  {
    hide Fits;
    if a.CoreStep? {
      if s.producer.CopyingLuma? || s.producer.CopyingChroma? {
        assert s.producer.f in InHand(s.producer);
      }
    } else if !a.Deliver? {
      assert Apply(s, a).producer == s.producer;
    }
  }

  /** Only frames that can be copied are delivered. */
  predicate AllCopyable(steps: seq<Step>)
  {
    forall i :: 0 <= i < |steps| && steps[i].Deliver? && steps[i].supported ==> Copyable(steps[i].f)
  }

  /** Then the process never aborts. */
  lemma {:induction false} NeverAborts(s: State, steps: seq<Step>)
    requires SafeHands(s) && IsRun(s, steps) && AllCopyable(steps)
    ensures !After(s, steps).aborted
    decreases |steps|
  {
    if steps != [] {
      hide SafeHands, Enabled, Copyable;
      SafeStep(s, steps[0]);
      NeverAborts(Apply(s, steps[0]), steps[1..]);
    }
  }

  /** And any other frame, delivered while the lock is free, can abort it. */
  lemma BadFrameAborts(s: State, f: Frame) returns (steps: seq<Step>)
    requires !s.aborted && s.producer.Waiting? && s.lock == Free && !Copyable(f)
    ensures IsRun(s, steps) && After(s, steps).aborted && steps[0] == Deliver(f, true)
  {
    hide IsRun, After, Fits, UiNext;
    var t;
    NoSteps(s);
    steps, t := Do(s, [], Deliver(f, true));
    steps, t := Do(s, steps, CoreStep);
    assert t == s.(producer := Sizing(f), lock := Core, delivered := s.delivered + [f]);
    steps, t := Do(s, steps, CoreStep);
    steps, t := Do(s, steps, CoreStep);
    if !t.aborted {
      steps, t := Do(s, steps, CoreStep);
    }
  }

  lemma {:induction false} Extend(s: State, steps: seq<Step>, a: Step)
    requires IsRun(s, steps) && Enabled(After(s, steps), a)
    ensures IsRun(s, steps + [a]) && After(s, steps + [a]) == Apply(After(s, steps), a)
    decreases |steps|
  {
    if steps != [] {
      Extend(Apply(s, steps[0]), steps[1..], a);
      assert (steps + [a])[1..] == steps[1..] + [a];
    }
  }
}
