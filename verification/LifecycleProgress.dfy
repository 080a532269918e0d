/** Locks, signals and progress: what is bound to happen in the two threads,
    under every interleaving. */
module LifecycleProgress {
  import opened Options
  import opened Sequences
  import opened Handles
  import opened Lifecycle
  import opened LifecycleInv
  import opened LifecycleTheorems

  // Locks
  // -----

  ghost predicate GameBlocked(s: State) {
    || (s.native.WantJob? && s.q.jobLock.Some?) || (s.native.WantOpt? && s.q.optLock.Some?)
    || (s.frame.WantDone? && s.q.doneLock.Some?)
  }

  ghost predicate EventBlocked(s: State) {
    || (s.loop.AddWant? && s.q.jobLock.Some?) || (s.loop.OptWant? && s.q.optLock.Some?)
    || (s.loop.FinWant? && s.q.doneLock.Some?)
  }

  ghost predicate Holds(s: State, t: Thread) {
    s.q.jobLock == Some(t) || s.q.optLock == Some(t) || s.q.doneLock == Some(t)
  }

  lemma OneOf(l: Option<Thread>)
    ensures l == None || l == Some(Game) || l == Some(Event)
  {
    if l.Some? {
      match l.value
      case Game =>
      case Event =>
    }
  }

  // The two threads never wait for each other, and neither for itself.
  lemma NoDeadlock(s: State)
    requires Inv(s)
    ensures !(GameBlocked(s) && EventBlocked(s))
    ensures GameBlocked(s) ==> Holds(s, Event)
    ensures EventBlocked(s) ==> Holds(s, Game)
    ensures s.native.WantJob? ==> s.q.jobLock != Some(Game)
    ensures s.native.WantOpt? ==> s.q.optLock != Some(Game)
    ensures s.frame.WantDone? ==> s.q.doneLock != Some(Game)
    ensures s.loop.AddWant? ==> s.q.jobLock != Some(Event)
    ensures s.loop.OptWant? ==> s.q.optLock != Some(Event)
    ensures s.loop.FinWant? ==> s.q.doneLock != Some(Event)
  {
    hide BufOk, FifoOk, DrainOk, WakeOk, PostOk, RunOk, CountOk, HeapOk, TableOk, WhereOk;
    OneOf(s.q.jobLock);
    OneOf(s.q.optLock);
    OneOf(s.q.doneLock);
  }

  // What the event thread does next while it holds a lock, and how much is left
  // until it holds none.
  ghost function EventNext(s: State): Action {
    match s.loop
    case AddTest => TestJob
    case AddPop => PopJob
    case AddHave(_) => EnterCurl
    case AddLeave => EvUnlockJob
    case OptTest => TestOpt
    case OptPop => EvPopOpt
    case OptHave(_) => ApplyOpt
    case OptLeave => EvUnlockOpt
    case FinPush(_) => PushDone
    case _ => EvUnlockDone
  }

  ghost function EventWork(s: State): nat {
    match s.loop
    case AddTest => 3 * |s.q.jobs| + 2
    case AddPop => 3 * |s.q.jobs| + 1
    case AddHave(_) => 3 * |s.q.jobs| + 3
    case AddLeave => 1
    case OptTest => 3 * |s.q.opts| + 2
    case OptPop => 3 * |s.q.opts| + 1
    case OptHave(_) => 3 * |s.q.opts| + 3
    case OptLeave => 1
    case FinPush(_) => 2
    case FinLeave => 1
    case _ => 0
  }

  // That step can always be done, and it is the only one the event thread can do.
  lemma EventProgress(s: State)
    requires Inv(s) && Holds(s, Event)
    ensures OfEvent(EventNext(s)) && Enabled(s, EventNext(s))
    ensures EventWork(Apply(s, EventNext(s))) < EventWork(s)
    ensures var t := Apply(s, EventNext(s));
            && t.frame == s.frame && t.native == s.native
            && t.h.jobsPushed == s.h.jobsPushed && t.h.optsPushed == s.h.optsPushed
    ensures forall a :: OfEvent(a) && Enabled(s, a) ==> a == EventNext(s)
  {
    hide BufOk, FifoOk, DrainOk, WakeOk, PostOk, RunOk, CountOk, HeapOk, TableOk, WhereOk, Apply;
    EventWorks(s);
    forall a | OfEvent(a) && Enabled(s, a) ensures a == EventNext(s) {
      EventForced(s, a);
    }
  }

  lemma EventForced(s: State, a: Action)
    requires LockOk(s) && Holds(s, Event) && OfEvent(a) && Enabled(s, a)
    ensures a == EventNext(s)
  {
  }

  lemma EventWorks(s: State)
    requires Inv(s) && Holds(s, Event)
    ensures OfEvent(EventNext(s)) && Enabled(s, EventNext(s))
    ensures EventWork(Apply(s, EventNext(s))) < EventWork(s)
    ensures var t := Apply(s, EventNext(s));
            && t.frame == s.frame && t.native == s.native
            && t.h.jobsPushed == s.h.jobsPushed && t.h.optsPushed == s.h.optsPushed
  {
    hide BufOk, FifoOk, DrainOk, WakeOk, PostOk, RunOk, CountOk, HeapOk, TableOk, WhereOk;
  }

  // Nothing the game thread does takes the lock away or adds to the work.
  lemma EventSteady(s: State, a: Action)
    requires Inv(s) && Holds(s, Event) && Enabled(s, a) && !OfEvent(a)
    ensures Holds(Apply(s, a), Event) && Apply(s, a).loop == s.loop
    ensures EventWork(Apply(s, a)) == EventWork(s)
  {
    hide BufOk, FifoOk, DrainOk, WakeOk, PostOk, RunOk, CountOk, HeapOk, TableOk, WhereOk, PopOk,
         Create, Used, Free, Closed, Ended, StartedIn, Received, Lookup, Guarded, OutcomeOf;
  }

  // How many actions of a run are of one kind.
  ghost function Steps(run: seq<Action>, kind: Action -> bool): nat {
    if run == [] then 0 else Steps(run[1..], kind) + if kind(run[0]) then 1 else 0
  }

  // A thread holds a lock all along a run.
  ghost predicate Keeps(s: State, run: seq<Action>, t: Thread)
    requires Possible(s, run)
    decreases |run|
  {
    Holds(s, t) && (run != [] ==> Keeps(Apply(s, run[0]), run[1..], t))
  }

  // In every run, however the two threads interleave, the event thread keeps a
  // lock for no more of its steps than it has work left when it begins.
  lemma {:induction false} EventBounded(s: State, run: seq<Action>)
    requires Inv(s) && Possible(s, run) && Keeps(s, run, Event)
    ensures Steps(run, OfEvent) + EventWork(After(s, run)) <= EventWork(s)
    decreases |run|
  {
    hide Inv, Holds, Apply, Enabled, EventWork, EventNext;
    if run != [] {
      if OfEvent(run[0]) {
        EventProgress(s);
      } else {
        EventSteady(s, run[0]);
      }
      StepInv(s, run[0]);
      EventBounded(Apply(s, run[0]), run[1..]);
    }
  }

  // Whenever it gives a lock back after a drain, everything pushed so far has
  // been taken, in the order pushed.
  lemma EventDrained(s: State)
    requires Inv(s)
    ensures Enabled(s, EvUnlockJob) ==> s.h.jobsEntered == s.h.jobsPushed && s.q.jobs == []
    ensures Enabled(s, EvUnlockOpt) ==> s.h.optsApplied == s.h.optsPushed && s.q.opts == []
  {
    hide BufOk, DrainOk, WakeOk, PostOk, RunOk, CountOk, HeapOk, TableOk, WhereOk, LockOk;
    assert s.h.jobsEntered + [] + [] == s.h.jobsEntered;
    assert s.h.optsApplied + [] + [] == s.h.optsApplied;
  }

  // A run in which the event thread gives its lock back; a drain of the job or
  // the option queue then has taken everything, in the order pushed.
  lemma {:induction false} EventReleases(s: State) returns (run: seq<Action>)
    requires Inv(s) && Holds(s, Event)
    ensures |run| <= EventWork(s) && (forall a :: a in run ==> OfEvent(a))
    ensures Possible(s, run) && !Holds(After(s, run), Event)
    ensures After(s, run).frame == s.frame && After(s, run).native == s.native
    ensures s.q.jobLock == Some(Event) ==> After(s, run).h.jobsEntered == s.h.jobsPushed && After(s, run).q.jobs == []
    ensures s.q.optLock == Some(Event) ==> After(s, run).h.optsApplied == s.h.optsPushed && After(s, run).q.opts == []
    decreases EventWork(s)
  {
    hide Inv, Holds, Apply, Enabled, EventNext, EventWork;
    var a := EventNext(s);
    EventProgress(s);
    StepInv(s, a);
    var t := Apply(s, a);
    if Holds(t, Event) {
      EventKeepsLock(s);
      var rest := EventReleases(t);
      run := [a] + rest;
      assert run[1..] == rest;
    } else {
      run := [a];
      assert run[1..] == [];
      assert After(s, run) == After(t, []);
      EventLeaves(s);
    }
  }

  lemma EventKeepsLock(s: State)
    requires Inv(s) && Holds(s, Event) && Enabled(s, EventNext(s)) && Holds(Apply(s, EventNext(s)), Event)
    ensures var t := Apply(s, EventNext(s));
            t.q.jobLock == s.q.jobLock && t.q.optLock == s.q.optLock && t.q.doneLock == s.q.doneLock
  {
    hide BufOk, FifoOk, DrainOk, WakeOk, PostOk, RunOk, CountOk, HeapOk, TableOk, WhereOk;
  }

  lemma EventLeaves(s: State)
    requires Inv(s) && Holds(s, Event) && Enabled(s, EventNext(s)) && !Holds(Apply(s, EventNext(s)), Event)
    ensures s.q.jobLock == Some(Event) ==> s.h.jobsEntered == s.h.jobsPushed && s.q.jobs == []
    ensures s.q.optLock == Some(Event) ==> s.h.optsApplied == s.h.optsPushed && s.q.opts == []
    ensures var t := Apply(s, EventNext(s));
            && t.h.jobsEntered == s.h.jobsEntered && t.h.optsApplied == s.h.optsApplied
            && t.q.jobs == s.q.jobs && t.q.opts == s.q.opts
  {
    hide BufOk, DrainOk, WakeOk, PostOk, RunOk, CountOk, HeapOk, TableOk, WhereOk;
    assert s.h.jobsEntered + [] + [] == s.h.jobsEntered;
    assert s.h.optsApplied + [] + [] == s.h.optsApplied;
  }

  // The game thread
  // ---------------

  // What the game thread does next while it holds a lock, unless the plugin in
  // whose callback it is chooses to do more. Whether a function is found is up
  // to the plugins: known are the contexts whose function exists.
  ghost function GameNext(s: State, known: set<nat>): Action {
    match s.native
    case WantJob(_) => LockJob
    case PushJob(_) => DoPushJob
    case LeaveJob => UnlockJob
    case WantOpt(_) => LockOpt
    case PushOpt(_) => DoPushOpt
    case LeaveOpt => UnlockOpt
    case SignalOpt => DoSignalOpt
    case NoNative =>
      match s.frame
      case DoneTest => TestDone
      case DonePop => PopDone
      case DoneHave(c) => Complete(c in known && c in s.m.ctxs && s.m.ctxs[c].plugin in s.plugins, 0)
      case Callback(_) => Return
      case _ => UnlockDone
  }

  predicate OfGame(a: Action) { !OfEvent(a) }

  ghost function NativeWork(n: Native): nat {
    match n
    case NoNative => 0
    case WantJob(_) => 3
    case PushJob(_) => 2
    case LeaveJob => 1
    case WantOpt(_) => 4
    case PushOpt(_) => 3
    case LeaveOpt => 2
    case SignalOpt => 1
  }

  ghost function DrainWork(s: State): nat {
    match s.frame
    case DoneTest => 4 * |s.q.done| + 2
    case DonePop => 4 * |s.q.done| + 1
    case DoneHave(_) => 4 * |s.q.done| + 4
    case Callback(_) => 4 * |s.q.done| + 3
    case DoneLeave => 1
    case _ => 0
  }

  // The drain in OnGameFrame makes progress whatever the callbacks do: as long
  // as the done lock is held, no action of either thread adds to its work, its
  // own actions reduce it, and the done queue only shrinks.
  lemma DrainProgress(s: State, a: Action)
    requires Inv(s) && Enabled(s, a) && s.q.doneLock == Some(Game) && Apply(s, a).q.doneLock == Some(Game)
    ensures var t := Apply(s, a);
            && t.h.snapshot == s.h.snapshot && |t.q.done| <= |s.q.done|
            && DrainWork(t) <= DrainWork(s)
            && (a.TestDone? || a.PopDone? || a.Complete? || a.Return? ==> DrainWork(t) < DrainWork(s))
  {
    hide BufOk, FifoOk, DrainOk, WakeOk, PostOk, RunOk, CountOk, HeapOk, TableOk, WhereOk, Apply, Enabled;
    if s.frame.DoneHave? {
      InHand(s);
    }
    if Drains(a) {
      DrainMoves(s, a);
    } else {
      DrainRests(s, a);
    }
  }

  predicate Drains(a: Action) {
    a.TestDone? || a.PopDone? || a.Complete? || a.Return?
  }

  lemma DrainMoves(s: State, a: Action)
    requires LockOk(s) && PopOk(s) && Enabled(s, a) && Drains(a)
    requires s.frame.DoneHave? ==> InFlight(s.m, s.frame.c)
    ensures var t := Apply(s, a);
            t.h.snapshot == s.h.snapshot && |t.q.done| <= |s.q.done| && DrainWork(t) < DrainWork(s)
  {
    hide Free;
  }

  lemma DrainRests(s: State, a: Action)
    requires LockOk(s) && Enabled(s, a) && !Drains(a)
    requires s.q.doneLock == Some(Game) && Apply(s, a).q.doneLock == Some(Game)
    ensures var t := Apply(s, a); t.h.snapshot == s.h.snapshot && t.q.done == s.q.done && t.frame == s.frame
  {
    hide Create, Used, Free, StartedIn, FinishedIn, Received, Lookup, Guarded, DoComplete;
  }

  // So in every run, whatever the callbacks do, the drain has no more steps
  // than it has work when it begins.
  lemma {:induction false} DrainBounded(s: State, run: seq<Action>)
    requires Inv(s) && Possible(s, run) && Draining(s, run)
    ensures Steps(run, Drains) + DrainWork(After(s, run)) <= DrainWork(s)
    decreases |run|
  {
    hide Inv, Apply, Enabled, DrainWork;
    if run != [] {
      assert Draining(Apply(s, run[0]), run[1..]);
      DrainProgress(s, run[0]);
      StepInv(s, run[0]);
      DrainBounded(Apply(s, run[0]), run[1..]);
    }
  }

  // When it ends it has completed exactly what the queue held when the lock was
  // taken, in that order.
  lemma DrainExact(s: State)
    requires Inv(s) && Enabled(s, UnlockDone)
    ensures s.h.processed == s.h.snapshot && s.q.done == []
  {
    assert s.h.processed + [] + [] == s.h.processed;
  }

  ghost function GameWork(s: State): nat {
    NativeWork(s.native) + DrainWork(s)
  }

  // Each action of the game thread reduces what is left to do until it holds no
  // lock, but for those that plugin code chooses to do, which add little.
  lemma GameStep(s: State, a: Action)
    requires Inv(s) && Holds(s, Game) && Enabled(s, a) && OfGame(a)
    ensures if Chosen(a) then GameWork(Apply(s, a)) <= GameWork(s) + 4 else GameWork(Apply(s, a)) < GameWork(s)
    ensures Apply(s, a).loop == s.loop
  {
    hide BufOk, FifoOk, DrainOk, WakeOk, PostOk, RunOk, CountOk, HeapOk, TableOk, WhereOk, Apply, Enabled;
    if s.frame.DoneHave? {
      InHand(s);
    }
    if Chosen(a) {
      GameChooses(s, a);
    } else {
      GameWorks(s, a);
    }
  }

  lemma GameChooses(s: State, a: Action)
    requires Enabled(s, a) && Chosen(a)
    ensures GameWork(Apply(s, a)) <= GameWork(s) + 4 && Apply(s, a).loop == s.loop
  {
    hide Create, Used, Free, Closed, StartedIn, Lookup, Guarded, DoComplete;
  }

  lemma GameWorks(s: State, a: Action)
    requires LockOk(s) && PopOk(s) && Holds(s, Game) && Enabled(s, a) && OfGame(a) && !Chosen(a)
    requires s.frame.DoneHave? ==> s.frame.c in s.m.ctxs
    ensures GameWork(Apply(s, a)) < GameWork(s) && Apply(s, a).loop == s.loop
  {
    hide Free, Ended, OutcomeOf, DoStart, DoClose, Create, Used;
  }

  // Nothing the event thread does takes a lock away or adds to the work.
  lemma GameSteady(s: State, a: Action)
    requires Inv(s) && Holds(s, Game) && Enabled(s, a) && OfEvent(a)
    ensures Holds(Apply(s, a), Game) && GameWork(Apply(s, a)) == GameWork(s)
  {
    hide BufOk, FifoOk, DrainOk, WakeOk, PostOk, RunOk, CountOk, HeapOk, TableOk, WhereOk, PopOk,
         FinishedIn, Received, Resulted, DoStart, DoClose, DoComplete;
  }

  // In every run, however the two threads interleave, the game thread keeps a
  // lock for no more steps than it has work left when it begins, and five for
  // each choice of plugin code.
  lemma {:induction false} GameBounded(s: State, run: seq<Action>)
    requires Inv(s) && Possible(s, run) && Keeps(s, run, Game)
    ensures Steps(run, OfGame) + GameWork(After(s, run)) <= GameWork(s) + 5 * Steps(run, Chosen)
    decreases |run|
  {
    hide Inv, Holds, Apply, Enabled, GameWork;
    if run != [] {
      if OfEvent(run[0]) {
        GameSteady(s, run[0]);
      } else {
        GameStep(s, run[0]);
      }
      StepInv(s, run[0]);
      GameBounded(Apply(s, run[0]), run[1..]);
    }
  }

  // Whenever the event thread may wait for the game thread, the latter can go
  // on, whichever functions the plugins have.
  lemma GameProgress(s: State, known: set<nat>)
    requires Inv(s) && Holds(s, Game) && !Holds(s, Event)
    ensures OfGame(GameNext(s, known)) && !Chosen(GameNext(s, known)) && Enabled(s, GameNext(s, known))
    ensures GameWork(Apply(s, GameNext(s, known))) < GameWork(s) && Apply(s, GameNext(s, known)).loop == s.loop
  {
    hide GameWork, Apply;
    GameCan(s, known);
    GameStep(s, GameNext(s, known));
  }

  lemma GameCan(s: State, known: set<nat>)
    requires Inv(s) && Holds(s, Game) && !Holds(s, Event)
    ensures OfGame(GameNext(s, known)) && !Chosen(GameNext(s, known)) && Enabled(s, GameNext(s, known))
  {
    hide BufOk, FifoOk, WakeOk, PostOk, RunOk, CountOk, HeapOk, TableOk, DrainOk, WhereOk;
    OneOf(s.q.jobLock);
    OneOf(s.q.optLock);
    OneOf(s.q.doneLock);
  }

  // A run in which it does so.
  lemma {:induction false} GameReleases(s: State, known: set<nat>) returns (run: seq<Action>)
    requires Inv(s) && Holds(s, Game) && !Holds(s, Event)
    ensures |run| <= GameWork(s) && (forall a :: a in run ==> OfGame(a))
    ensures Possible(s, run) && !Holds(After(s, run), Game) && After(s, run).loop == s.loop
    decreases GameWork(s)
  {
    hide Inv, Holds, Apply, Enabled, GameNext, GameWork;
    var a := GameNext(s, known);
    GameProgress(s, known);
    StepInv(s, a);
    var t := Apply(s, a);
    if Holds(t, Game) {
      EventStays(s, t);
      var rest := GameReleases(t, known);
      run := [a] + rest;
      assert run[1..] == rest;
    } else {
      run := [a];
      assert run[1..] == [];
      assert After(s, run) == After(t, []);
    }
  }

  // Which locks the event thread holds depends on where it is only.
  lemma EventStays(s: State, t: State)
    requires Inv(s) && Inv(t) && t.loop == s.loop
    ensures Holds(t, Event) == Holds(s, Event)
  {
    hide BufOk, FifoOk, WakeOk, PostOk, RunOk, CountOk, HeapOk, TableOk, DrainOk, WhereOk;
  }

  // Nothing is forgotten
  // --------------------

  // The first n jobs pushed have entered curl, or a signal is pending or the
  // drain running that will take them there.
  ghost predicate Signalled(s: State, n: nat) {
    n <= |s.h.jobsPushed| &&
    (|s.h.jobsEntered| >= n || s.q.addPending
     || s.loop.AddWant? || s.loop.AddTest? || s.loop.AddPop? || s.loop.AddHave?)
  }

  // A frame that begins with jobs queued is bound to signal.
  lemma FrameSignals(s: State, a: Action)
    requires Inv(s) && Enabled(s, BeginFrame) && s.q.jobs != []
    ensures Apply(s, BeginFrame).frame.SignalAdd?
    ensures Enabled(Apply(s, BeginFrame), a) && OfGame(a) ==> a == DoSignalAdd
  {
    hide BufOk, FifoOk, DrainOk, WakeOk, PostOk, RunOk, CountOk, HeapOk, TableOk, WhereOk, PopOk, Create, DoStart;
  }

  // Once signalled, all jobs pushed so far are covered ...
  lemma SignalMade(s: State)
    requires Inv(s) && Enabled(s, DoSignalAdd)
    ensures Signalled(Apply(s, DoSignalAdd), |s.h.jobsPushed|)
  {
    hide BufOk, FifoOk, DrainOk, WakeOk, PostOk, RunOk, CountOk, HeapOk, TableOk, WhereOk, PopOk, LockOk;
  }

  // ... and no action of either thread uncovers them.
  lemma SignalStep(s: State, a: Action, n: nat)
    requires Inv(s) && Enabled(s, a) && Signalled(s, n)
    ensures Signalled(Apply(s, a), n)
  {
    hide BufOk, DrainOk, WakeOk, PostOk, RunOk, CountOk, HeapOk, TableOk, WhereOk, LockOk, Apply, Enabled;
    if OfEvent(a) {
      SignalEvent(s, a, n);
    } else {
      SignalGame(s, a, n);
    }
  }

  lemma SignalEvent(s: State, a: Action, n: nat)
    requires FifoOk(s) && PopOk(s) && Enabled(s, a) && OfEvent(a) && Signalled(s, n)
    ensures Signalled(Apply(s, a), n)
  {
    hide FinishedIn, Received, DoStart, DoClose, DoComplete;
  }

  lemma SignalGame(s: State, a: Action, n: nat)
    requires Enabled(s, a) && OfGame(a) && Signalled(s, n)
    ensures Signalled(Apply(s, a), n)
  {
    hide Create, Used, Free, StartedIn, Lookup, Guarded, OutcomeOf;
  }

  // So in every run they stay covered, however the signals coalesce ...
  lemma {:induction false} SignalStays(s: State, run: seq<Action>, n: nat)
    requires Inv(s) && Possible(s, run) && Signalled(s, n)
    ensures Signalled(After(s, run), n)
    decreases |run|
  {
    hide Inv, Apply, Enabled, Signalled;
    if run != [] {
      SignalStep(s, run[0], n);
      StepInv(s, run[0]);
      SignalStays(Apply(s, run[0]), run[1..], n);
    }
  }

  // ... and when the event thread waits with no signal to take, they are all
  // with curl, in the order pushed.
  lemma SignalHeard(s: State, n: nat)
    requires Inv(s) && Signalled(s, n) && s.loop.Waiting? && !s.q.addPending
    ensures n <= |s.h.jobsEntered| && n <= |s.h.jobsPushed| && s.h.jobsEntered[..n] == s.h.jobsPushed[..n]
  {
    hide BufOk, DrainOk, WakeOk, PostOk, RunOk, CountOk, HeapOk, TableOk, WhereOk, PopOk, LockOk;
    assert s.h.jobsPushed == s.h.jobsEntered + s.q.jobs;
  }

  // From the signal of a frame on, in every run.
  lemma JobsCovered(s: State, run: seq<Action>)
    requires Inv(s) && Enabled(s, DoSignalAdd) && Possible(Apply(s, DoSignalAdd), run)
    ensures var t, n := After(Apply(s, DoSignalAdd), run), |s.h.jobsPushed|;
            && Signalled(t, n)
            && (t.loop.Waiting? && !t.q.addPending ==>
                  n <= |t.h.jobsEntered| && n <= |t.h.jobsPushed| && t.h.jobsEntered[..n] == t.h.jobsPushed[..n])
  {
    hide Inv, Apply, Enabled, Possible, After, Signalled;
    var u, n := Apply(s, DoSignalAdd), |s.h.jobsPushed|;
    SignalMade(s);
    StepInv(s, DoSignalAdd);
    SignalStays(u, run, n);
    RunInv(u, run);
    if After(u, run).loop.Waiting? && !After(u, run).q.addPending {
      SignalHeard(After(u, run), n);
    }
  }

  // In every reachable state in which options are queued, no producer is about
  // to signal and no drain runs or is about to, a signal is pending; and without
  // one all options pushed are applied.
  lemma OptionsCovered(s: State)
    requires Inv(s) && s.loop.Waiting? && !s.native.LeaveOpt? && !s.native.SignalOpt?
    ensures s.q.opts != [] ==> s.q.optPending
    ensures !s.q.optPending ==> s.h.optsApplied == s.h.optsPushed
  {
    hide BufOk, DrainOk, PostOk, RunOk, CountOk, HeapOk, TableOk, WhereOk, PopOk, LockOk;
    assert s.h.optsApplied + [] + [] == s.h.optsApplied;
  }

  // A run in which the jobs queued when a frame begins enter curl after that
  // frame and one turn of the event thread.
  lemma JobsGetThrough(s: State) returns (run: seq<Action>)
    requires Inv(s) && s.frame.Idle? && s.native.NoNative? && s.loop.Waiting? && s.q.jobs != []
    ensures Possible(s, run)
    ensures After(s, run).q.jobs == [] && After(s, run).h.jobsEntered == s.h.jobsPushed
  {
    hide Inv, Possible, After, Apply, Enabled, Holds;
    var s3 := FrameWakes(s);
    var s4 := Apply(s3, EvLockJob);
    StepInv(s3, EvLockJob);
    var rest := EventReleases(s4);
    run := Prefixed(s3, EvLockJob, rest);
    run := Prefixed(Apply(Apply(s, BeginFrame), DoSignalAdd), TakeAdd, run);
    run := Prefixed(Apply(s, BeginFrame), DoSignalAdd, run);
    run := Prefixed(s, BeginFrame, run);
  }

  lemma FrameWakes(s: State) returns (t: State)
    requires Inv(s) && s.frame.Idle? && s.native.NoNative? && s.loop.Waiting? && s.q.jobs != []
    ensures Enabled(s, BeginFrame) && Enabled(Apply(s, BeginFrame), DoSignalAdd)
    ensures Enabled(Apply(Apply(s, BeginFrame), DoSignalAdd), TakeAdd)
    ensures t == Apply(Apply(Apply(s, BeginFrame), DoSignalAdd), TakeAdd)
    ensures Inv(t) && Enabled(t, EvLockJob) && t.h.jobsPushed == s.h.jobsPushed
    ensures var u := Apply(t, EvLockJob);
            Holds(u, Event) && u.q.jobLock == Some(Event) && u.h.jobsPushed == s.h.jobsPushed
  {
    hide BufOk, FifoOk, DrainOk, WakeOk, PostOk, RunOk, CountOk, PopOk, HeapOk, TableOk, WhereOk,
         Create, Used, Free, Closed, StartedIn, FinishedIn, Received, Lookup, Guarded, DoComplete, DoStart, DoClose;
    OneOf(s.q.jobLock);
    StepInv(s, BeginFrame);
    var s1 := Apply(s, BeginFrame);
    StepInv(s1, DoSignalAdd);
    var s2 := Apply(s1, DoSignalAdd);
    StepInv(s2, TakeAdd);
    t := Apply(s2, TakeAdd);
  }

  lemma Prefixed(s: State, a: Action, rest: seq<Action>) returns (run: seq<Action>)
    requires Enabled(s, a) && Possible(Apply(s, a), rest)
    ensures run == [a] + rest && Possible(s, run) && After(s, run) == After(Apply(s, a), rest)
  {
    run := [a] + rest;
    assert run[1..] == rest;
  }

  // A run in which the event thread takes the pending signal and applies all
  // queued options.
  lemma OptionsGetThrough(s: State) returns (run: seq<Action>)
    requires Inv(s) && s.native.NoNative? && s.loop.Waiting? && s.q.opts != []
    ensures Possible(s, run) && forall a :: a in run ==> OfEvent(a)
    ensures After(s, run).q.opts == [] && After(s, run).h.optsApplied == s.h.optsPushed
  {
    hide BufOk, FifoOk, DrainOk, PostOk, RunOk, CountOk, PopOk, HeapOk, TableOk, WhereOk, Possible, After;
    var s1 := Apply(s, TakeOpt);
    StepInv(s, TakeOpt);
    OneOf(s.q.optLock);
    var s2 := Apply(s1, EvLockOpt);
    StepInv(s1, EvLockOpt);
    var rest := EventReleases(s2);
    run := Prefixed(s1, EvLockOpt, rest);
    run := Prefixed(s, TakeOpt, run);
  }
}
