/** That requests get done: what a frame is bound to do, and that every request
    in flight can be brought to its end from every state. */
module LifecycleCompletion {
  import opened Options
  import opened Sequences
  import opened Handles
  import opened Contexts
  import opened Lifecycle
  import opened LifecycleInv
  import opened LifecycleTheorems
  import opened LifecycleProgress
  import opened LifecycleEffects

  // Frames
  // ------

  // What the game thread does next in a frame, unless plugin code chooses.
  ghost function FrameNext(s: State, known: set<nat>): Action {
    if s.frame.SignalAdd? then DoSignalAdd
    else if s.frame.CheckDone? then LookDone
    else if s.frame.WantDone? then LockDone
    else GameNext(s, known)
  }

  // In a frame the game thread can do nothing else: only a completion may go
  // either way, and only in a callback is there a choice.
  lemma FrameForced(s: State, a: Action)
    requires Inv(s) && Enabled(s, a) && OfGame(a) && !s.frame.Idle?
    ensures if s.frame.DoneHave? then a.Complete? else a == FrameNext(s, {}) || (s.frame.Callback? && Chosen(a))
  {
    hide BufOk, FifoOk, DrainOk, WakeOk, PostOk, RunOk, CountOk, HeapOk, TableOk, WhereOk, PopOk;
  }

  // Every frame looks for finished requests, whether or not it had to signal.
  lemma FrameLooks(s: State)
    requires Inv(s) && Enabled(s, BeginFrame)
    ensures var t := Apply(s, BeginFrame);
            if s.q.jobs == [] then t.frame.CheckDone? else
              t.frame.SignalAdd? && Enabled(t, DoSignalAdd) && Apply(t, DoSignalAdd).frame.CheckDone?
  {
    hide BufOk, FifoOk, DrainOk, WakeOk, PostOk, RunOk, CountOk, HeapOk, TableOk, WhereOk, PopOk, LockOk;
  }

  // A frame that finds finished requests goes for the done lock, and the game
  // thread then can do nothing but take it.
  lemma FrameDrains(s: State, a: Action)
    requires Inv(s) && Enabled(s, LookDone) && s.q.done != []
    ensures Apply(s, LookDone).frame.WantDone?
    ensures Enabled(Apply(s, LookDone), a) && OfGame(a) ==> a == LockDone
  {
    hide Inv, Apply, Enabled;
    LookSees(s);
    StepInv(s, LookDone);
    if Enabled(Apply(s, LookDone), a) && OfGame(a) {
      FrameForced(Apply(s, LookDone), a);
    }
  }

  lemma LookSees(s: State)
    requires Enabled(s, LookDone)
    ensures Apply(s, LookDone).frame == if s.q.done != [] then WantDone else Idle
  {
  }

  ghost predicate InFrame(f: Frame) {
    !f.Idle? && !f.DoneLeave?
  }

  // The frame has the start k still to end: its request is in the done queue or
  // in hand. Or it did so.
  ghost predicate Due(s: State, k: nat) {
    k < |s.h.runs| &&
    (s.h.runs[k].outcome.Pending? ==>
       var c := s.h.runs[k].ctx; s.frame == DoneHave(c) || (c in s.q.done && InFrame(s.frame)))
  }

  lemma InFrameStays(s: State, a: Action)
    requires LockOk(s) && Enabled(s, a) && InFrame(s.frame) && (s.q.done != [] || s.frame.DoneHave?)
    ensures InFrame(Apply(s, a).frame)
  {
    hide Create, Used, Free, Closed, Ended, StartedIn, FinishedIn, Received, Lookup, Guarded, OutcomeOf, Resulted;
  }

  lemma DueStep(s: State, a: Action, k: nat)
    requires Inv(s) && Enabled(s, a) && Due(s, k)
    ensures Due(Apply(s, a), k)
  {
    hide BufOk, FifoOk, DrainOk, WakeOk, PostOk, CountOk, HeapOk, TableOk, WhereOk, PopOk, LockOk, Apply, Enabled, RunOf;
    OutcomeStep(s, a, k);
    if s.h.runs[k].outcome.Pending? {
      var c := s.h.runs[k].ctx;
      if a.Complete? && s.frame == DoneHave(c) {
        CompleteMakes(s, c, a.found, a.response);
      } else {
        StaysQueued(s, a, c);
        InFrameStays(s, a);
      }
    }
  }

  lemma {:induction false} DueAlong(s: State, run: seq<Action>, k: nat)
    requires Inv(s) && Possible(s, run) && Due(s, k)
    ensures Due(After(s, run), k)
    decreases |run|
  {
    hide Inv, Apply, Enabled, Due;
    if run != [] {
      DueStep(s, run[0], k);
      StepInv(s, run[0]);
      DueAlong(Apply(s, run[0]), run[1..], k);
    }
  }

  // In every run in which a frame ends, whatever callbacks and the event thread
  // do, each request that was in the done queue when it began has been completed.
  lemma FrameCompletes(s: State, c: nat, run: seq<Action>)
    requires Inv(s) && Enabled(s, BeginFrame) && c in s.q.done && Possible(Apply(s, BeginFrame), run)
    ensures c in s.h.current && s.h.current[c] < |s.h.runs| && s.h.runs[s.h.current[c]].ctx == c
    ensures var t, k := After(Apply(s, BeginFrame), run), s.h.current[c];
            k < |t.h.runs| && (t.frame.Idle? ==> !t.h.runs[k].outcome.Pending?)
  {
    hide Inv, Possible, After, Apply, Enabled;
    Began(s, c);
    StepInv(s, BeginFrame);
    DueAlong(Apply(s, BeginFrame), run, s.h.current[c]);
  }

  lemma Began(s: State, c: nat)
    requires Inv(s) && Enabled(s, BeginFrame) && c in s.q.done
    ensures c in s.h.current && s.h.current[c] < |s.h.runs| && s.h.runs[s.h.current[c]].ctx == c
    ensures Due(Apply(s, BeginFrame), s.h.current[c])
  {
    hide BufOk, FifoOk, DrainOk, WakeOk, PostOk, CountOk, HeapOk, TableOk, WhereOk, PopOk, LockOk;
    OnePlace(s, c);
    assert RunOf(s, c);
  }

  // Both threads left to themselves
  // -------------------------------

  // Whether the function of the request in hand is found.
  ghost predicate Found(s: State, c: nat, known: set<nat>) {
    c in known && c in s.m.ctxs && s.m.ctxs[c].plugin in s.plugins
  }

  // An action no plugin chose, with functions found as known.
  ghost predicate Driven(s: State, a: Action, known: set<nat>) {
    Enabled(s, a) && !Chosen(a) && (a.Complete? ==> a.found == Found(s, s.frame.c, known))
  }

  ghost predicate DrivenRun(s: State, run: seq<Action>, known: set<nat>)
    requires Possible(s, run)
    decreases |run|
  {
    run != [] ==> Driven(s, run[0], known) && DrivenRun(Apply(s, run[0]), run[1..], known)
  }

  // A run that leads from s to t.
  ghost predicate Leads(s: State, run: seq<Action>, t: State, known: set<nat>) {
    Possible(s, run) && After(s, run) == t && DrivenRun(s, run, known) && Inv(t)
  }

  lemma Nothing(s: State, known: set<nat>)
    requires Inv(s)
    ensures Leads(s, [], s, known)
  {
  }

  lemma First(s: State, a: Action, rest: seq<Action>, t: State, known: set<nat>)
    requires Inv(s) && Driven(s, a, known) && Leads(Apply(s, a), rest, t, known)
    ensures Leads(s, [a] + rest, t, known)
  {
    hide Inv, Apply, Enabled, Chosen;
    Allowed(s, a, known);
    assert ([a] + rest)[1..] == rest;
  }

  lemma {:induction false} Then(s: State, run: seq<Action>, t: State, more: seq<Action>, u: State, known: set<nat>)
    requires Inv(s) && Leads(s, run, t, known) && Leads(t, more, u, known)
    ensures Leads(s, run + more, u, known)
    decreases |run|
  {
    hide Inv, Apply, Enabled, Driven;
    if run == [] {
      assert run + more == more;
    } else {
      StepInv(s, run[0]);
      Then(Apply(s, run[0]), run[1..], t, more, u, known);
      First(s, run[0], run[1..] + more, u, known);
      assert run + more == [run[0]] + (run[1..] + more);
    }
  }

  // What is left of a frame.
  ghost function FrameLeft(s: State): nat {
    NativeWork(s.native) +
    match s.frame
    case SignalAdd => 4 * |s.q.done| + 5
    case CheckDone => 4 * |s.q.done| + 4
    case WantDone => 4 * |s.q.done| + 3
    case _ => DrainWork(s)
  }

  lemma GameDrives(s: State, known: set<nat>)
    requires Inv(s) && !Holds(s, Event) && !(s.frame.Idle? && s.native.NoNative?)
    ensures Driven(s, FrameNext(s, known), known) && OfGame(FrameNext(s, known))
    ensures FrameLeft(Apply(s, FrameNext(s, known))) < FrameLeft(s)
  {
    hide BufOk, FifoOk, DrainOk, WakeOk, PostOk, RunOk, CountOk, HeapOk, TableOk, WhereOk,
         Free, Ended, OutcomeOf, DoStart, DoClose, Create, Used;
    OneOf(s.q.jobLock);
    OneOf(s.q.optLock);
    OneOf(s.q.doneLock);
    if s.frame.DoneHave? {
      InHand(s);
    }
  }

  // What driving the game thread leaves alone.
  lemma GameSpares(s: State, a: Action)
    requires Enabled(s, a) && OfGame(a) && !Chosen(a)
    ensures Apply(s, a).loop == s.loop
    ensures s.native.NoNative? ==> Apply(s, a).native.NoNative? && Apply(s, a).h.jobsPushed == s.h.jobsPushed
  {
    hide Free, OutcomeOf, DoStart, DoClose, Create, Used;
  }

  // The game thread alone gets back to where plugins run, unless it waits for
  // the event thread.
  lemma {:induction false} DriveGame(s: State, known: set<nat>) returns (run: seq<Action>, t: State)
    requires Inv(s) && !Holds(s, Event)
    ensures Leads(s, run, t, known) && t.frame.Idle? && t.native.NoNative? && t.loop == s.loop
    ensures s.native.NoNative? ==> t.h.jobsPushed == s.h.jobsPushed
    decreases FrameLeft(s)
  {
    hide Inv, Apply, Enabled, Driven, Leads, FrameNext, FrameLeft, Holds;
    if s.frame.Idle? && s.native.NoNative? {
      Nothing(s, known);
      run, t := [], s;
    } else {
      var a := FrameNext(s, known);
      GameDrives(s, known);
      Allowed(s, a, known);
      GameSpares(s, a);
      StepInv(s, a);
      EventStays(s, Apply(s, a));
      run, t := DriveGame(Apply(s, a), known);
      First(s, a, run, t, known);
      run := [a] + run;
    }
  }

  lemma Allowed(s: State, a: Action, known: set<nat>)
    requires Driven(s, a, known)
    ensures Enabled(s, a) && !Chosen(a)
  {
  }

  // What the event thread does next, not waiting for work.
  ghost function LoopNext(s: State): Action {
    match s.loop
    case AddWant => EvLockJob
    case OptWant => EvLockOpt
    case FinWant(_) => EvLockDone
    case _ => EventNext(s)
  }

  ghost function LoopLeft(s: State): nat {
    match s.loop
    case AddWant => 3 * |s.q.jobs| + 3
    case OptWant => 3 * |s.q.opts| + 3
    case FinWant(_) => 3
    case _ => EventWork(s)
  }

  lemma EventDrives(s: State, known: set<nat>)
    requires Inv(s) && (Holds(s, Event) || !Holds(s, Game)) && !s.loop.Waiting?
    ensures Driven(s, LoopNext(s), known) && OfEvent(LoopNext(s))
    ensures LoopLeft(Apply(s, LoopNext(s))) < LoopLeft(s)
    ensures Holds(Apply(s, LoopNext(s)), Event) || Apply(s, LoopNext(s)).loop.Waiting?
    ensures !LoopNext(s).Finish? && !LoopNext(s).TakeAdd?
  {
    hide BufOk, FifoOk, DrainOk, WakeOk, PostOk, RunOk, CountOk, HeapOk, TableOk, WhereOk;
    if s.loop.AddWant? || s.loop.OptWant? || s.loop.FinWant? {
      LoopLocks(s);
    } else {
      hide Apply, LoopLeft;
      LoopWorks(s);
    }
  }

  lemma LoopLocks(s: State)
    requires Inv(s) && (Holds(s, Event) || !Holds(s, Game)) && (s.loop.AddWant? || s.loop.OptWant? || s.loop.FinWant?)
    ensures Enabled(s, LoopNext(s)) && LoopLeft(Apply(s, LoopNext(s))) < LoopLeft(s)
    ensures Holds(Apply(s, LoopNext(s)), Event)
  {
    hide BufOk, FifoOk, DrainOk, WakeOk, PostOk, RunOk, CountOk, HeapOk, TableOk, WhereOk, PopOk;
    OneOf(s.q.jobLock);
    OneOf(s.q.optLock);
    OneOf(s.q.doneLock);
  }

  lemma LoopWorks(s: State)
    requires LockOk(s) && PopOk(s) && !s.loop.Waiting? && !s.loop.AddWant? && !s.loop.OptWant? && !s.loop.FinWant?
    ensures Enabled(s, EventNext(s)) && LoopLeft(Apply(s, EventNext(s))) < LoopLeft(s)
    ensures Holds(Apply(s, EventNext(s)), Event) || Apply(s, EventNext(s)).loop.Waiting?
  {
  }

  // What driving the event thread leaves alone.
  lemma EventSpares(s: State, a: Action)
    requires Enabled(s, a) && OfEvent(a)
    ensures Apply(s, a).frame == s.frame && Apply(s, a).native == s.native
    ensures Apply(s, a).h.jobsPushed == s.h.jobsPushed
    ensures Apply(s, a).q.addPending == (s.q.addPending && !a.TakeAdd?)
  {
    hide Apply, Enabled;
    EventPushesNone(s, a);
    SparesSignal(s, a);
  }

  lemma SparesSignal(s: State, a: Action)
    requires Enabled(s, a) && OfEvent(a)
    ensures Apply(s, a).frame == s.frame && Apply(s, a).q.addPending == (s.q.addPending && !a.TakeAdd?)
  {
    hide Received, FinishedIn, Resulted;
    match a
    case TakeAdd =>
    case Receive(_, _) =>
    case Finish(_, _) =>
    case _ => SparesRest(s, a);
  }

  lemma SparesRest(s: State, a: Action)
    requires Enabled(s, a) && OfEvent(a) && !a.TakeAdd? && !Stores(a)
    ensures Apply(s, a).frame == s.frame && Apply(s, a).q.addPending == s.q.addPending
  {
    hide Received, FinishedIn, DoStart, DoClose, DoComplete;
  }

  // The event thread alone gets back to waiting, unless it waits for the game
  // thread; transfers that are over stay so.
  lemma {:induction false} DriveEvent(s: State, known: set<nat>) returns (run: seq<Action>, t: State)
    requires Inv(s) && (Holds(s, Event) || !Holds(s, Game) || s.loop.Waiting?)
    ensures Leads(s, run, t, known) && t.loop.Waiting? && t.frame == s.frame && t.native == s.native
    ensures t.h.jobsPushed == s.h.jobsPushed && t.q.addPending == s.q.addPending
    ensures forall c: nat :: Finished(s, c) ==> Finished(t, c)
    decreases LoopLeft(s)
  {
    hide Inv, Apply, Enabled, Driven, Leads, LoopNext, LoopLeft, Holds, Finished;
    if s.loop.Waiting? {
      Nothing(s, known);
      run, t := [], s;
    } else {
      var a := LoopNext(s);
      EventDrives(s, known);
      Allowed(s, a, known);
      EventSpares(s, a);
      StepInv(s, a);
      run, t := DriveEvent(Apply(s, a), known);
      First(s, a, run, t, known);
      run := [a] + run;
      forall c: nat | Finished(s, c) ensures Finished(t, c) {
        Over(s, a, c);
      }
    }
  }

  lemma Over(s: State, a: Action, c: nat)
    requires Inv(s) && Enabled(s, a) && OfEvent(a) && !a.Finish?
    ensures Finished(Apply(s, a), c) == Finished(s, c)
  {
    hide BufOk, FifoOk, DrainOk, WakeOk, PostOk, RunOk, CountOk, HeapOk, TableOk, WhereOk, Finished, Apply, Enabled;
    FinishedSame(s, a, c);
  }

  // Every request gets to its end
  // -----------------------------

  // The end of the start k is settled: it is called back, or it is not.
  ghost predicate Destined(s: State, k: nat, answer: bool, known: set<nat>) {
    k < |s.h.runs| &&
    var r := s.h.runs[k];
    answer == if r.outcome.Pending? then !r.closed && Found(s, r.ctx, known) else r.outcome.Called?
  }

  lemma DestinedStep(s: State, a: Action, k: nat, answer: bool, known: set<nat>)
    requires Inv(s) && Driven(s, a, known) && Destined(s, k, answer, known)
    ensures Destined(Apply(s, a), k, answer, known)
  {
    hide BufOk, FifoOk, DrainOk, WakeOk, PostOk, CountOk, HeapOk, TableOk, WhereOk, PopOk, LockOk, Apply, Enabled, RunOf;
    OutcomeStep(s, a, k);
    if s.h.runs[k].outcome.Pending? {
      var c := s.h.runs[k].ctx;
      if a.Complete? && s.frame == DoneHave(c) {
        CompleteMakes(s, c, a.found, a.response);
      } else {
        Undecided(s, a, k);
      }
    }
  }

  lemma Undecided(s: State, a: Action, k: nat)
    requires Inv(s) && Enabled(s, a) && !Chosen(a) && k < |s.h.runs| && s.h.runs[k].outcome.Pending?
    requires !(a.Complete? && s.frame == DoneHave(s.h.runs[k].ctx))
    ensures var t := Apply(s, a); var c := s.h.runs[k].ctx;
            && k < |t.h.runs| && t.h.runs[k].outcome.Pending? && t.h.runs[k].ctx == c
            && t.h.runs[k].closed == s.h.runs[k].closed
            && c in s.m.ctxs && c in t.m.ctxs && t.m.ctxs[c].plugin == s.m.ctxs[c].plugin && t.plugins == s.plugins
  {
    hide BufOk, FifoOk, DrainOk, WakeOk, PostOk, CountOk, HeapOk, TableOk, WhereOk, PopOk, LockOk, Apply;
    var c := s.h.runs[k].ctx;
    if a.Complete? {
      OutcomeComplete(s, a, k);
    } else {
      OutcomeOther(s, a, k);
    }
    StepInv(s, a);
    assert InFlight(s.m, c) && InFlight(Apply(s, a).m, c);
    FieldStep(s, a, c);
    forall p: nat ensures p in Apply(s, a).plugins <==> p in s.plugins {
      PluginStep(s, a, p);
    }
  }

  lemma {:induction false} DestinedAlong(s: State, run: seq<Action>, k: nat, answer: bool, known: set<nat>)
    requires Inv(s) && Possible(s, run) && DrivenRun(s, run, known) && Destined(s, k, answer, known)
    ensures Destined(After(s, run), k, answer, known)
    decreases |run|
  {
    hide Inv, Apply, Enabled, Destined, Driven;
    if run != [] {
      Allowed(s, run[0], known);
      DestinedStep(s, run[0], k, answer, known);
      StepInv(s, run[0]);
      DestinedAlong(Apply(s, run[0]), run[1..], k, answer, known);
    }
  }

  // Neither thread is in the middle of anything.
  ghost predicate Rest(s: State) {
    s.frame.Idle? && s.native.NoNative? && s.loop.Waiting?
  }

  ghost predicate HasEnded(s: State, k: nat) {
    k < |s.h.runs| && !s.h.runs[k].outcome.Pending?
  }

  lemma Along(s: State, run: seq<Action>, t: State, k: nat, known: set<nat>)
    requires Inv(s) && Leads(s, run, t, known) && k < |s.h.runs|
    ensures k < |t.h.runs| && t.h.runs[k].ctx == s.h.runs[k].ctx && (HasEnded(s, k) ==> HasEnded(t, k))
  {
    hide Inv, Possible, After, DrivenRun;
    OneOutcome(s, run, k);
  }

  // At rest, a pending start's request is in one of the three containers.
  lemma SomewhereAtRest(s: State, k: nat)
    requires Inv(s) && Rest(s) && k < |s.h.runs| && s.h.runs[k].outcome.Pending?
    ensures var c := s.h.runs[k].ctx;
            && c in s.h.current && s.h.current[c] == k && InFlight(s.m, c)
            && (c in s.q.jobs || c in s.q.curl || c in s.q.done)
  {
    hide BufOk, FifoOk, DrainOk, WakeOk, PostOk, CountOk, HeapOk, TableOk, PopOk, LockOk, WhereOk, RunOf, InFlight;
    OnePlace(s, s.h.runs[k].ctx);
  }

  lemma RestHolds(s: State)
    requires Inv(s)
    ensures s.frame.Idle? && s.native.NoNative? ==> !Holds(s, Game)
    ensures s.loop.Waiting? ==> !Holds(s, Event)
  {
    hide BufOk, FifoOk, DrainOk, WakeOk, PostOk, RunOk, CountOk, HeapOk, TableOk, WhereOk, PopOk;
  }

  // From the done queue: the next frame completes it.
  lemma FromDone(s: State, k: nat, known: set<nat>) returns (run: seq<Action>, t: State)
    requires Inv(s) && Rest(s) && k < |s.h.runs| && s.h.runs[k].outcome.Pending? && s.h.runs[k].ctx in s.q.done
    ensures Leads(s, run, t, known) && HasEnded(t, k)
  {
    hide Inv, Apply, Holds, DrivenRun, Possible, After;
    assert Driven(s, BeginFrame, known);
    hide Enabled, Driven;
    SomewhereAtRest(s, k);
    Began(s, s.h.runs[k].ctx);
    StepInv(s, BeginFrame);
    RestHolds(s);
    var u := Apply(s, BeginFrame);
    BeginSpares(s);
    RestHolds(u);
    run, t := DriveGame(u, known);
    DueAlong(u, run, k);
    First(s, BeginFrame, run, t, known);
    run := [BeginFrame] + run;
  }

  lemma BeginSpares(s: State)
    requires Enabled(s, BeginFrame)
    ensures var t := Apply(s, BeginFrame); t.loop == s.loop && t.native == s.native && t.h == s.h
  {
  }

  // From curl: the transfer may end at any time.
  lemma FromCurl(s: State, k: nat, known: set<nat>) returns (run: seq<Action>, t: State)
    requires Inv(s) && Rest(s) && k < |s.h.runs| && s.h.runs[k].outcome.Pending? && s.h.runs[k].ctx in s.q.curl
    ensures Leads(s, run, t, known) && HasEnded(t, k)
  {
    hide Inv, Apply, Holds, Leads, Finished;
    var c := s.h.runs[k].ctx;
    var a := Finish(c, 0);
    assert Driven(s, a, known);
    hide Enabled, Driven;
    Transferred(s, a);
    EventSpares(s, a);
    StepInv(s, a);
    RestHolds(Apply(s, a));
    var first, u := DriveEvent(Apply(s, a), known);
    First(s, a, first, u, known);
    first := [a] + first;
    Along(s, first, u, k, known);
    LeadsInv(s, first, u, known);
    if HasEnded(u, k) {
      run, t := first, u;
    } else {
      Delivered(u, c);
      var more;
      more, t := FromDone(u, k, known);
      Then(s, first, u, more, t, known);
      run := first + more;
    }
  }

  lemma LeadsInv(s: State, run: seq<Action>, t: State, known: set<nat>)
    requires Leads(s, run, t, known)
    ensures Inv(t)
  {
  }

  lemma Transferred(s: State, a: Action)
    requires Inv(s) && Enabled(s, a) && a.Finish?
    ensures Finished(Apply(s, a), a.c)
  {
    hide BufOk, FifoOk, DrainOk, WakeOk, PostOk, RunOk, CountOk, HeapOk, TableOk, PopOk, LockOk, WhereOk, Apply, Enabled;
    Arrived(s, a);
  }

  lemma Delivered(s: State, c: nat)
    requires Rest(s) && Finished(s, c)
    ensures c in s.q.done
  {
  }

  // From the job queue: the next frame signals, and the event thread takes it to
  // curl.
  lemma FromJobs(s: State, known: set<nat>) returns (run: seq<Action>, t: State)
    requires Inv(s) && Rest(s) && s.q.jobs != []
    ensures Leads(s, run, t, known) && Rest(t) && t.q.jobs == []
  {
    hide Inv, Apply, Holds, Leads, Signalled;
    assert Driven(s, BeginFrame, known);
    hide Enabled, Driven;
    var n := |s.h.jobsPushed|;
    var u := FrameSends(s, known);
    var first, v := DriveGame(u, known);
    SignalledAlong(u, first, v, n, known);
    var back, w := TakeSignal(v, n, known);
    Then(u, first, v, back, w, known);
    First(Apply(s, BeginFrame), DoSignalAdd, first + back, w, known);
    First(s, BeginFrame, [DoSignalAdd] + (first + back), w, known);
    run, t := [BeginFrame] + ([DoSignalAdd] + (first + back)), w;
  }

  lemma FrameSends(s: State, known: set<nat>) returns (t: State)
    requires Inv(s) && Rest(s) && s.q.jobs != []
    ensures Driven(s, BeginFrame, known) && Inv(Apply(s, BeginFrame)) && Driven(Apply(s, BeginFrame), DoSignalAdd, known)
    ensures t == Apply(Apply(s, BeginFrame), DoSignalAdd) && Inv(t) && !Holds(t, Event)
    ensures t.loop.Waiting? && t.native.NoNative?
    ensures t.h.jobsPushed == s.h.jobsPushed && Signalled(t, |s.h.jobsPushed|)
  {
    hide BufOk, FifoOk, DrainOk, WakeOk, PostOk, RunOk, CountOk, HeapOk, TableOk, PopOk, LockOk, WhereOk, Signalled,
         Holds;
    var u := Apply(s, BeginFrame);
    StepInv(s, BeginFrame);
    SignalMade(u);
    StepInv(u, DoSignalAdd);
    t := Apply(u, DoSignalAdd);
    RestHolds(t);
  }

  lemma SignalledAlong(s: State, run: seq<Action>, t: State, n: nat, known: set<nat>)
    requires Inv(s) && Leads(s, run, t, known) && Signalled(s, n)
    ensures Inv(t) && Signalled(t, n)
  {
    hide Inv, Possible, After, DrivenRun, Signalled;
    SignalStays(s, run, n);
  }

  // The event thread takes a pending signal, if there is one; then all jobs are
  // with curl.
  lemma TakeSignal(s: State, n: nat, known: set<nat>) returns (run: seq<Action>, t: State)
    requires Inv(s) && Rest(s) && Signalled(s, n) && n == |s.h.jobsPushed|
    ensures Leads(s, run, t, known) && Rest(t) && t.q.jobs == []
  {
    hide Inv, Apply, Holds, Leads, Signalled;
    if s.q.addPending {
      assert Driven(s, TakeAdd, known);
      hide Enabled, Driven;
      EventSpares(s, TakeAdd);
      StepInv(s, TakeAdd);
      RestHolds(s);
      RestHolds(Apply(s, TakeAdd));
      run, t := DriveEvent(Apply(s, TakeAdd), known);
      First(s, TakeAdd, run, t, known);
      run := [TakeAdd] + run;
      SignalledAlong(s, run, t, n, known);
    } else {
      Nothing(s, known);
      run, t := [], s;
    }
    SignalHeard(t, n);
    AllEntered(t);
  }

  lemma AllEntered(s: State)
    requires Inv(s) && s.loop.Waiting? && |s.h.jobsEntered| >= |s.h.jobsPushed|
    ensures s.q.jobs == []
  {
    hide BufOk, DrainOk, WakeOk, PostOk, RunOk, CountOk, HeapOk, TableOk, PopOk, LockOk, WhereOk;
  }

  // Both threads come to rest.
  lemma Settle(s: State, known: set<nat>) returns (run: seq<Action>, t: State)
    requires Inv(s)
    ensures Leads(s, run, t, known) && Rest(t)
  {
    hide Inv, Apply, Enabled, Driven, Leads, Holds;
    var u := s;
    Nothing(s, known);
    run := [];
    if Holds(s, Event) {
      run, u := DriveEvent(s, known);
      LeadsInv(s, run, u, known);
      RestHolds(u);
    }
    var more, v := DriveGame(u, known);
    LeadsInv(u, more, v, known);
    Then(s, run, u, more, v, known);
    run := run + more;
    RestHolds(v);
    more, t := DriveEvent(v, known);
    Then(s, run, v, more, t, known);
    run := run + more;
  }

  lemma FromRest(s: State, k: nat, known: set<nat>) returns (run: seq<Action>, t: State)
    requires Inv(s) && Rest(s) && k < |s.h.runs| && s.h.runs[k].outcome.Pending? && s.h.runs[k].ctx !in s.q.jobs
    ensures Leads(s, run, t, known) && HasEnded(t, k)
  {
    hide Inv, Leads, HasEnded;
    SomewhereAtRest(s, k);
    if s.h.runs[k].ctx in s.q.curl {
      run, t := FromCurl(s, k, known);
    } else {
      run, t := FromDone(s, k, known);
    }
  }

  // No request is ever stuck: from every reachable state, without plugins doing
  // anything, a start that is pending can be brought to its end; it is called
  // back if its function is found and its handle was not closed, and else not.
  lemma CanEnd(s: State, k: nat, known: set<nat>) returns (run: seq<Action>, t: State)
    requires Inv(s) && k < |s.h.runs| && s.h.runs[k].outcome.Pending?
    ensures Possible(s, run) && After(s, run) == t && forall a :: a in run ==> !Chosen(a)
    ensures k < |t.h.runs| && !t.h.runs[k].outcome.Pending?
    ensures var r := s.h.runs[k];
            t.h.runs[k].outcome.Called? <==> !r.closed && Found(s, r.ctx, known)
  {
    hide Inv, Leads, Found;
    var u;
    run, u := Settle(s, known);
    LeadsInv(s, run, u, known);
    Along(s, run, u, k, known);
    t := u;
    if !HasEnded(t, k) && u.q.jobs != [] {
      var more;
      more, t := FromJobs(u, known);
      LeadsInv(u, more, t, known);
      Along(u, more, t, k, known);
      Then(s, run, u, more, t, known);
      run := run + more;
    }
    if !HasEnded(t, k) {
      var more, v := FromRest(t, k, known);
      Then(s, run, t, more, v, known);
      run, t := run + more, v;
    }
    Decided(s, run, t, k, known);
  }

  lemma Decided(s: State, run: seq<Action>, t: State, k: nat, known: set<nat>)
    requires Inv(s) && Leads(s, run, t, known) && k < |s.h.runs| && s.h.runs[k].outcome.Pending? && HasEnded(t, k)
    ensures Possible(s, run) && After(s, run) == t && forall a :: a in run ==> !Chosen(a)
    ensures t.h.runs[k].outcome.Called? <==> !s.h.runs[k].closed && Found(s, s.h.runs[k].ctx, known)
  {
    hide Inv, Possible, After, DrivenRun, Found;
    DestinedAlong(s, run, k, !s.h.runs[k].closed && Found(s, s.h.runs[k].ctx, known), known);
    NoneChosen(s, run, known);
  }

  lemma {:induction false} NoneChosen(s: State, run: seq<Action>, known: set<nat>)
    requires Possible(s, run) && DrivenRun(s, run, known)
    ensures forall a :: a in run ==> !Chosen(a)
    decreases |run|
  {
    hide Apply, Enabled;
    if run != [] {
      NoneChosen(Apply(s, run[0]), run[1..], known);
      assert run == [run[0]] + run[1..];
    }
  }
}
