/** What every step of the two threads keeps. */
module LifecycleInv {
  import opened Options
  import opened Sequences
  import opened Handles
  import opened Contexts
  import opened Lifecycle

  // Contexts and handles
  // --------------------

  // Every context ever made is live or was deleted, once.
  ghost predicate HeapOk(m: Store) {
    && Unique(m.deleted)
    && (forall c :: c in m.deleted ==> c < m.nextCtx)
    && (forall c: nat :: c in m.ctxs <==> c < m.nextCtx && c !in m.deleted)
  }

  // Live contexts and live handle numbers belong together, one to one.
  ghost predicate TableOk(m: Store) {
    && ValidTable(m.table)
    && (forall c :: c in m.ctxs ==>
          m.ctxs[c].handle in m.table.used && m.table.used[m.ctxs[c].handle] == Handle(HandleCurl, c))
    && (forall n :: n in m.table.used ==>
          && m.table.used[n].kind.HandleCurl?
          && m.table.used[n].pointer in m.ctxs && m.ctxs[m.table.used[n].pointer].handle == n)
  }

  // A context changes in place and keeps its handle.
  ghost predicate Updated(m: Store, m': Store, c: nat) {
    && c in m.ctxs && c in m'.ctxs && m'.ctxs == m.ctxs[c := m'.ctxs[c]]
    && m'.ctxs[c].handle == m.ctxs[c].handle && m'.ctxs[c].plugin == m.ctxs[c].plugin
    && m'.deleted == m.deleted && m'.nextCtx == m.nextCtx && m'.table == m.table
  }

  lemma UpdateKeeps(m: Store, m': Store, c: nat)
    requires HeapOk(m) && TableOk(m) && Updated(m, m', c)
    ensures HeapOk(m') && TableOk(m')
  {
  }

  lemma FreeKeeps(m: Store, handle: int)
    requires HeapOk(m) && TableOk(m)
    ensures HeapOk(Free(m, handle)) && TableOk(Free(m, handle))
  {
    FreeOk(m.table, handle);
    var p := Lookup(m.table, handle);
    if p.Some? {
      UniqueLast(m.deleted, p.value);
    }
  }

  lemma CreateKeeps(m: Store, plugin: nat, userdata: int)
    requires HeapOk(m) && TableOk(m)
    ensures HeapOk(Create(m, plugin, userdata)) && TableOk(Create(m, plugin, userdata))
  {
    AllocateOk(m.table, Handle(HandleCurl, m.nextCtx));
    UniqueLast(m.deleted, m.nextCtx);
  }

  lemma CompleteKeeps(s: State, found: bool, response: int)
    requires HeapOk(s.m) && TableOk(s.m) && s.frame.DoneHave?
    ensures HeapOk(DoComplete(s, found, response).m) && TableOk(DoComplete(s, found, response).m)
  {
    var c := s.frame.c;
    if c in s.m.ctxs {
      var m := s.m.(ctxs := s.m.ctxs[c := Returned(s.m.ctxs[c])]);
      UpdateKeeps(s.m, m, c);
      FreeKeeps(m, m.ctxs[c].handle);
    }
  }

  // The actions that change contexts, buffers or handles.
  predicate Stores(a: Action) {
    a.NewRequest? || a.Close? || a.Use? || a.Start? || a.Complete? || a.Receive? || a.Finish?
  }

  lemma StoreSame(s: State, a: Action)
    requires Enabled(s, a) && !Stores(a)
    ensures Apply(s, a).m == s.m && Apply(s, a).h.runs == s.h.runs && Apply(s, a).h.current == s.h.current
  {
    hide Apply, Enabled;
    if OfEvent(a) {
      EventSame(s, a);
    } else {
      GameSame(s, a);
    }
  }

  lemma EventSame(s: State, a: Action)
    requires Enabled(s, a) && !Stores(a) && OfEvent(a)
    ensures Apply(s, a).m == s.m && Apply(s, a).h.runs == s.h.runs && Apply(s, a).h.current == s.h.current
  {
    hide Create, Used, FinishedIn, Received, DoStart, DoClose, DoComplete;
    match a
    case PopJob => case EvPopOpt => case TestJob => case TestOpt => case EnterCurl => case ApplyOpt =>
    case _ =>
  }

  lemma GameSame(s: State, a: Action)
    requires Enabled(s, a) && !Stores(a) && !OfEvent(a)
    ensures Apply(s, a).m == s.m && Apply(s, a).h.runs == s.h.runs && Apply(s, a).h.current == s.h.current
  {
    hide Create, Used, FinishedIn, Received, DoStart, DoClose, DoComplete;
  }

  lemma TableStep(s: State, a: Action)
    requires HeapOk(s.m) && TableOk(s.m) && Enabled(s, a)
    ensures HeapOk(Apply(s, a).m) && TableOk(Apply(s, a).m)
  {
    hide HeapOk, TableOk;
    match a
    case NewRequest(plugin, userdata) => CreateKeeps(s.m, plugin, userdata);
    case Close(handle) =>
      FreeKeeps(s.m, handle);
      var p := Lookup(s.m.table, handle);
      if p.Some? && p.value in s.m.ctxs && s.m.ctxs[p.value].inEventThread {
        UpdateKeeps(s.m, Apply(s, a).m, p.value);
      }
    case Use(handle, headers) =>
      var p := Guarded(s.m, handle);
      if p.Some? {
        UpdateKeeps(s.m, Apply(s, a).m, p.value);
      }
    case Start(handle, callback, kind) =>
      var p := Guarded(s.m, handle);
      if p.Some? {
        UpdateKeeps(s.m, Apply(s, a).m, p.value);
      }
    case Complete(found, response) => CompleteKeeps(s, found, response);
    case Receive(c, bytes) =>
      if c in s.m.ctxs {
        UpdateKeeps(s.m, Apply(s, a).m, c);
      }
    case Finish(c, result) =>
      if c in s.m.ctxs {
        UpdateKeeps(s.m, Apply(s, a).m, c);
      }
    case _ =>
  }

  // Locks
  // -----

  ghost predicate LockOk(s: State) {
    && (s.native.NoNative? || s.frame.Idle? || s.frame.Callback?)
    && (s.q.jobLock == Some(Game) <==> s.native.PushJob? || s.native.LeaveJob?)
    && (s.q.jobLock == Some(Event) <==>
          s.loop.AddTest? || s.loop.AddPop? || s.loop.AddHave? || s.loop.AddLeave?)
    && (s.q.optLock == Some(Game) <==> s.native.PushOpt? || s.native.LeaveOpt?)
    && (s.q.optLock == Some(Event) <==>
          s.loop.OptTest? || s.loop.OptPop? || s.loop.OptHave? || s.loop.OptLeave?)
    && (s.q.doneLock == Some(Game) <==>
          s.frame.DoneTest? || s.frame.DonePop? || s.frame.DoneHave? || s.frame.Callback? || s.frame.DoneLeave?)
    && (s.q.doneLock == Some(Event) <==> s.loop.FinPush? || s.loop.FinLeave?)
  }

  // No Pop on an empty queue, and a drain ends with an empty queue.
  ghost predicate PopOk(s: State) {
    && (s.frame.DonePop? ==> s.q.done != []) && (s.frame.DoneLeave? ==> s.q.done == [])
    && (s.loop.AddPop? ==> s.q.jobs != []) && (s.loop.AddLeave? ==> s.q.jobs == [])
    && (s.loop.OptPop? ==> s.q.opts != []) && (s.loop.OptLeave? ==> s.q.opts == [])
  }

  lemma LockStep(s: State, a: Action)
    requires LockOk(s) && PopOk(s) && Enabled(s, a)
    ensures LockOk(Apply(s, a))
  {
    hide LockOk, PopOk, Apply, Enabled;
    if OfEvent(a) {
      LockEvent(s, a);
    } else {
      LockGame(s, a);
    }
  }

  lemma LockEvent(s: State, a: Action)
    requires LockOk(s) && PopOk(s) && Enabled(s, a) && OfEvent(a)
    ensures LockOk(Apply(s, a))
  {
    hide FinishedIn, Received, Resulted, DoStart, DoClose, DoComplete;
  }

  lemma LockGame(s: State, a: Action)
    requires LockOk(s) && PopOk(s) && Enabled(s, a) && !OfEvent(a)
    ensures LockOk(Apply(s, a))
  {
    hide Create, Used, Free, Closed, Ended, StartedIn, FinishedIn, Received, Lookup, Guarded, OutcomeOf;
  }

  lemma PopStep(s: State, a: Action)
    requires LockOk(s) && PopOk(s) && Enabled(s, a)
    ensures PopOk(Apply(s, a))
  {
    hide Create, Used, Free, Closed, Ended, StartedIn, FinishedIn, Received, Lookup, Guarded;
  }

  // Queues
  // ------

  ghost function LoopJob(l: Loop): seq<nat> { if l.AddHave? then [l.c] else [] }
  ghost function LoopOpt(l: Loop): seq<Setting> { if l.OptHave? then [l.o] else [] }
  ghost function FrameCtx(f: Frame): seq<nat> { if f.DoneHave? then [f.c] else [] }

  // Jobs enter curl, and options are applied, once and in the order pushed.
  ghost predicate FifoOk(s: State) {
    && s.h.jobsPushed == s.h.jobsEntered + LoopJob(s.loop) + s.q.jobs
    && s.h.optsPushed == s.h.optsApplied + LoopOpt(s.loop) + s.q.opts
  }

  // While the game thread drains, what it found in the done queue is what it
  // has completed, what it has in hand and what is left.
  ghost predicate DrainOk(s: State) {
    s.q.doneLock == Some(Game) ==> s.h.snapshot == s.h.processed + FrameCtx(s.frame) + s.q.done
  }

  // A queued option is covered by a pending signal, by a drain that runs or is
  // about to run, or by its producer still about to signal.
  ghost predicate WakeOk(s: State) {
    s.q.opts != [] ==>
      || s.q.optPending
      || s.loop.OptWant? || s.loop.OptTest? || s.loop.OptPop? || s.loop.OptHave?
      || s.native.LeaveOpt? || s.native.SignalOpt?
  }

  lemma FifoStep(s: State, a: Action)
    requires FifoOk(s) && Enabled(s, a)
    ensures FifoOk(Apply(s, a))
  {
    hide FifoOk, Apply, Enabled;
    if OfEvent(a) {
      FifoEvent(s, a);
    } else {
      FifoGame(s, a);
    }
  }

  lemma FifoEvent(s: State, a: Action)
    requires FifoOk(s) && Enabled(s, a) && OfEvent(a)
    ensures FifoOk(Apply(s, a))
  {
    match a
    case PopJob =>
      if s.q.jobs != [] {
        Shift(s.h.jobsEntered, s.q.jobs);
      }
    case EvPopOpt =>
      if s.q.opts != [] {
        Shift(s.h.optsApplied, s.q.opts);
      }
    case EnterCurl => assert s.h.jobsEntered + [s.loop.c] + [] == s.h.jobsEntered + [s.loop.c];
    case ApplyOpt => assert s.h.optsApplied + [s.loop.o] + [] == s.h.optsApplied + [s.loop.o];
    case _ => FifoRests(s, a);
  }

  lemma FifoRests(s: State, a: Action)
    requires FifoOk(s) && Enabled(s, a) && OfEvent(a)
    requires !a.PopJob? && !a.EvPopOpt? && !a.EnterCurl? && !a.ApplyOpt?
    ensures FifoOk(Apply(s, a))
  {
    hide FinishedIn, Received, DoStart, DoClose, DoComplete;
  }

  lemma FifoGame(s: State, a: Action)
    requires FifoOk(s) && Enabled(s, a) && !OfEvent(a)
    ensures FifoOk(Apply(s, a))
  {
    hide Create, Used, Free, StartedIn, FinishedIn, Received, Lookup, Guarded, OutcomeOf;
    match a
    case DoPushJob => Assoc(s.h.jobsEntered + LoopJob(s.loop), s.q.jobs, [s.native.c]);
    case DoPushOpt => Assoc(s.h.optsApplied + LoopOpt(s.loop), s.q.opts, [s.native.o]);
    case _ =>
  }

  lemma Shift<T>(b: seq<T>, s: seq<T>)
    requires s != []
    ensures b + [] + s == b + [s[0]] + s[1..]
  {
  }

  lemma DrainStep(s: State, a: Action)
    requires DrainOk(s) && LockOk(s) && PopOk(s) && Enabled(s, a)
    requires s.frame.DoneHave? ==> s.frame.c in s.m.ctxs
    ensures DrainOk(Apply(s, a))
  {
    match a
    case PopDone => Shift(s.h.processed, s.q.done);
    case LockDone => assert [] + [] + s.q.done == s.q.done;
    case Complete(found, response) => DrainComplete(s, found, response);
    case _ => DrainQuiet(s, a);
  }

  lemma DrainComplete(s: State, found: bool, response: int)
    requires DrainOk(s) && LockOk(s) && Enabled(s, Complete(found, response)) && s.frame.c in s.m.ctxs
    ensures DrainOk(Apply(s, Complete(found, response)))
  {
    hide Free;
    assert s.h.processed + [s.frame.c] + [] == s.h.processed + [s.frame.c];
  }

  lemma DrainQuiet(s: State, a: Action)
    requires DrainOk(s) && LockOk(s) && Enabled(s, a) && !a.PopDone? && !a.LockDone? && !a.Complete?
    ensures DrainOk(Apply(s, a))
  {
    hide Create, Used, Free, StartedIn, FinishedIn, Received, Lookup, Guarded, DoComplete;
  }

  lemma WakeStep(s: State, a: Action)
    requires WakeOk(s) && LockOk(s) && PopOk(s) && Enabled(s, a)
    ensures WakeOk(Apply(s, a))
  {
    hide Create, Used, Free, Closed, Ended, StartedIn, FinishedIn, Received, Lookup, Guarded;
  }

  // Where a request is
  // ------------------

  ghost function NativeHand(n: Native): Option<nat> {
    if n.WantJob? || n.PushJob? then Some(n.c) else None
  }

  ghost function FrameHand(f: Frame): Option<nat> {
    if f.DoneHave? then Some(f.c) else None
  }

  ghost function LoopHand(l: Loop): Option<nat> {
    if l.AddHave? || l.FinWant? || l.FinPush? then Some(l.c) else None
  }

  ghost function Held(h: Option<nat>, c: nat): nat {
    if h == Some(c) then 1 else 0
  }

  ghost function Count(s: seq<nat>, c: nat): nat {
    multiset(s)[c]
  }

  // In how many places a request is, of all there are: the job queue, curl's
  // set, the done queue, and the local variables of the two threads.
  ghost function Places(s: State, c: nat): nat {
    Count(s.q.jobs, c) + (if c in s.q.curl then 1 else 0) + Count(s.q.done, c)
    + Held(NativeHand(s.native), c) + Held(FrameHand(s.frame), c) + Held(LoopHand(s.loop), c)
  }

  ghost predicate InFlight(m: Store, c: nat) {
    c in m.ctxs && m.ctxs[c].inEventThread
  }

  // A request in flight is in exactly one place, once; any other in none.
  ghost predicate WhereOk(s: State) {
    forall c: nat :: Places(s, c) == if InFlight(s.m, c) then 1 else 0
  }

  lemma Appended(s: seq<nat>, x: nat, c: nat)
    ensures Count(s + [x], c) == Count(s, c) + if x == c then 1 else 0
  {
  }

  lemma Popped(s: seq<nat>, c: nat)
    requires s != []
    ensures Count(s, c) == Count(s[1..], c) + if s[0] == c then 1 else 0
  {
    assert s == [s[0]] + s[1..];
  }

  lemma Counted(s: seq<nat>, c: nat)
    ensures c in s <==> Count(s, c) > 0
  {
  }

  // Handing a request over, within a thread or through a queue.
  predicate HandsOver(a: Action) {
    a.LockJob? || a.DoPushJob? || a.PopJob? || a.EnterCurl? || a.Finish? || a.EvLockDone? || a.PushDone? || a.PopDone?
  }

  lemma MoveStep(s: State, a: Action, c: nat)
    requires PopOk(s) && WhereOk(s) && Enabled(s, a) && !a.Start? && !a.Complete?
    ensures Places(Apply(s, a), c) == Places(s, c)
  {
    hide PopOk, WhereOk, Enabled, Apply, Places;
    if HandsOver(a) {
      HandOver(s, a, c);
    } else {
      StayPut(s, a, c);
    }
  }

  lemma HandOver(s: State, a: Action, c: nat)
    requires PopOk(s) && WhereOk(s) && Enabled(s, a) && HandsOver(a)
    ensures Places(Apply(s, a), c) == Places(s, c)
  {
    hide FinishedIn, Count, WhereOk;
    match a
    case PopDone => Popped(s.q.done, c);
    case PopJob => Popped(s.q.jobs, c);
    case DoPushJob => Appended(s.q.jobs, s.native.c, c);
    case PushDone => Appended(s.q.done, s.loop.c, c);
    case EnterCurl => CurlMove(s, a, c);
    case Finish(_, _) => CurlMove(s, a, c);
    case _ =>
  }

  lemma CurlMove(s: State, a: Action, c: nat)
    requires WhereOk(s) && Enabled(s, a) && (a.EnterCurl? || a.Finish?)
    ensures Places(Apply(s, a), c) == Places(s, c)
  {
    hide FinishedIn, Count;
    assert Places(s, if a.Finish? then a.c else s.loop.c) == 1;
  }

  lemma StayPut(s: State, a: Action, c: nat)
    requires Enabled(s, a) && !a.Start? && !a.Complete? && !HandsOver(a)
    ensures Places(Apply(s, a), c) == Places(s, c)
  {
    hide Create, Used, Free, Closed, StartedIn, FinishedIn, Received, Lookup, Guarded, Count, DoStart, DoComplete;
  }

  // Only a start puts a request in flight, only its completion takes it out.
  lemma FlightStep(s: State, a: Action, c: nat)
    requires HeapOk(s.m) && TableOk(s.m) && Enabled(s, a) && !a.Start? && !a.Complete?
    ensures InFlight(Apply(s, a).m, c) == InFlight(s.m, c)
  {
    hide HeapOk, TableOk, Apply, Enabled, InFlight;
    if Stores(a) {
      FlightStore(s, a, c);
    } else {
      StoreSame(s, a);
    }
  }

  lemma FlightStore(s: State, a: Action, c: nat)
    requires HeapOk(s.m) && TableOk(s.m) && Enabled(s, a) && !a.Start? && !a.Complete? && Stores(a)
    ensures InFlight(Apply(s, a).m, c) == InFlight(s.m, c)
  {
    hide Allocated, Freed, NextNumber, ValidTable, Closed;
  }

  lemma WhereStart(s: State, a: Action, c: nat)
    requires LockOk(s) && WhereOk(s) && Enabled(s, a) && a.Start?
    ensures Places(Apply(s, a), c) == if InFlight(Apply(s, a).m, c) then 1 else 0
  {
    hide Count, Lookup;
    assert Places(s, c) == if InFlight(s.m, c) then 1 else 0;
  }

  lemma WhereComplete(s: State, a: Action, c: nat)
    requires HeapOk(s.m) && TableOk(s.m) && WhereOk(s) && Enabled(s, a) && a.Complete?
    ensures s.frame.c in s.m.ctxs
    ensures Places(Apply(s, a), c) == if InFlight(Apply(s, a).m, c) then 1 else 0
  {
    hide Count, Freed;
    assert Places(s, s.frame.c) > 0;
    assert Places(s, c) == if InFlight(s.m, c) then 1 else 0;
  }

  lemma WhereStep(s: State, a: Action)
    requires HeapOk(s.m) && TableOk(s.m) && LockOk(s) && PopOk(s) && WhereOk(s) && Enabled(s, a)
    ensures WhereOk(Apply(s, a))
  {
    hide HeapOk, TableOk, LockOk, PopOk, Apply, Enabled, Places, InFlight;
    forall c: nat
      ensures Places(Apply(s, a), c) == if InFlight(Apply(s, a).m, c) then 1 else 0
    {
      if a.Start? {
        WhereStart(s, a, c);
      } else if a.Complete? {
        WhereComplete(s, a, c);
      } else {
        MoveStep(s, a, c);
        FlightStep(s, a, c);
      }
    }
  }

  // Post buffers
  // ------------

  ghost function PostOf(m: Store, c: nat): Option<nat> {
    if c in m.ctxs then m.ctxs[c].post else None
  }

  ghost predicate Owned(m: Store, b: nat) {
    exists c: nat :: PostOf(m, c) == Some(b)
  }

  // Every post buffer ever made either is the post of exactly one live context,
  // or was freed, once.
  ghost predicate BufOk(m: Store) {
    BufCounted(m) && BufOwned(m)
  }

  ghost predicate BufCounted(m: Store) {
    && Unique(m.freed)
    && (forall b: nat :: b in m.bufs || b in m.freed <==> b < m.nextBuf)
    && (forall b :: b in m.freed ==> b !in m.bufs)
  }

  ghost predicate BufOwned(m: Store) {
    && (forall c: nat :: PostOf(m, c).Some? ==> PostOf(m, c).value in m.bufs)
    && (forall c: nat, d: nat :: PostOf(m, c).Some? && PostOf(m, c) == PostOf(m, d) ==> c == d)
    && (forall b :: b in m.bufs ==> Owned(m, b))
  }

  // The transfer of a request is over.
  ghost predicate Finished(s: State, c: nat) {
    c in s.q.done || s.frame == DoneHave(c) || s.loop == FinWant(c) || s.loop == FinPush(c)
  }

  // Outside of flight and after the transfer there is no post buffer, and a
  // close is never left pending on a request that is not in flight.
  ghost predicate PostOk(s: State) {
    && (forall c :: c in s.m.ctxs && !s.m.ctxs[c].inEventThread ==>
          s.m.ctxs[c].post.None? && !s.m.ctxs[c].handleClosed)
    && (forall c :: c in s.m.ctxs && Finished(s, c) ==> s.m.ctxs[c].post.None?)
  }

  lemma BufSame(m: Store, m': Store)
    requires BufOk(m) && m'.bufs == m.bufs && m'.freed == m.freed && m'.nextBuf == m.nextBuf
    requires forall c: nat :: PostOf(m', c) == PostOf(m, c)
    ensures BufOk(m')
  {
    forall b | b in m'.bufs ensures Owned(m', b) {
      assert Owned(m, b);
      var c: nat :| PostOf(m, c) == Some(b);
      assert PostOf(m', c) == Some(b);
    }
  }

  // What a start does to the buffers: kept is the one the context has then,
  // gone the one that was given back.
  lemma StartBuffers(m: Store, c: nat, callback: int, kind: StartKind) returns (kept: Option<nat>, gone: Option<nat>)
    requires c in m.ctxs && m.ctxs[c].post.None?
    ensures var t := StartedIn(m, c, callback, kind);
            && t.ctxs[c].post == kept
            && t.bufs == m.bufs + (if kept.Some? then {kept.value} else {}) - (if gone.Some? then {gone.value} else {})
            && t.freed == m.freed + (if gone.Some? then [gone.value] else [])
            && t.nextBuf == m.nextBuf + (if kept.Some? then 1 else 0) + (if gone.Some? then 1 else 0)
    ensures match kind
            case Plain => kept.None? && gone.None?
            case PostCompress(z) =>
              if z.Packed? then kept == Some(m.nextBuf + 1) && gone == Some(m.nextBuf)
              else kept == Some(m.nextBuf) && gone == if z.PackFailed? then Some(m.nextBuf + 1) else None
  {
    var b := m.nextBuf;
    match kind
    case Plain => kept, gone := None, None;
    case PostCompress(z) =>
      match z
      case PackNoMemory => kept, gone := Some(b), None;
      case PackFailed => kept, gone := Some(b), Some(b + 1);
      case Packed(_) => kept, gone := Some(b + 1), Some(b);
  }

  lemma BufStart(m: Store, c: nat, callback: int, kind: StartKind)
    requires BufOk(m) && c in m.ctxs && m.ctxs[c].post.None?
    ensures BufOk(StartedIn(m, c, callback, kind))
  {
    hide BufCounted, BufOwned;
    var t := StartedIn(m, c, callback, kind);
    var kept, gone := StartBuffers(m, c, callback, kind);
    assert forall d: nat :: PostOf(t, d) == if d == c then kept else PostOf(m, d);
    assert kept.Some? ==> kept.value !in m.bufs by {
      Unallocated(m);
    }
    hide StartedIn, PostOf;
    CountedStart(m, t, kept, gone);
    OwnedStart(m, t, c, kept);
  }

  lemma Unallocated(m: Store)
    requires BufCounted(m)
    ensures forall b :: b in m.bufs ==> b < m.nextBuf
  {
  }

  lemma CountedStart(m: Store, t: Store, kept: Option<nat>, gone: Option<nat>)
    requires BufCounted(m)
    requires t.bufs == m.bufs + (if kept.Some? then {kept.value} else {}) - (if gone.Some? then {gone.value} else {})
    requires t.freed == m.freed + (if gone.Some? then [gone.value] else [])
    requires t.nextBuf == m.nextBuf + (if kept.Some? then 1 else 0) + (if gone.Some? then 1 else 0)
    requires gone.Some? ==> kept.Some?
    requires kept.Some? ==> m.nextBuf <= kept.value < t.nextBuf
    requires gone.Some? ==> m.nextBuf <= gone.value < t.nextBuf && gone.value != kept.value
    ensures BufCounted(t) && t.bufs == m.bufs + if kept.Some? then {kept.value} else {}
  {
    if gone.Some? {
      UniqueLast(m.freed, gone.value);
    }
  }

  lemma OwnedStart(m: Store, t: Store, c: nat, kept: Option<nat>)
    requires BufOwned(m) && PostOf(m, c).None?
    requires t.bufs == m.bufs + if kept.Some? then {kept.value} else {}
    requires kept.Some? ==> kept.value !in m.bufs
    requires forall d: nat :: PostOf(t, d) == if d == c then kept else PostOf(m, d)
    ensures BufOwned(t)
  {
    hide PostOf;
    forall x | x in t.bufs ensures Owned(t, x) {
      if x in m.bufs {
        assert Owned(m, x);
        var d: nat :| PostOf(m, d) == Some(x);
        assert PostOf(t, d) == Some(x);
      } else {
        assert PostOf(t, c) == Some(x);
      }
    }
  }

  lemma BufFinish(m: Store, c: nat, result: int)
    requires BufOk(m) && c in m.ctxs
    ensures BufOk(FinishedIn(m, c, result))
  {
    var t := FinishedIn(m, c, result);
    assert forall d: nat :: d != c ==> PostOf(t, d) == PostOf(m, d);
    if m.ctxs[c].post.Some? {
      UniqueLast(m.freed, m.ctxs[c].post.value);
      assert PostOf(m, c).Some?;
    }
    forall x | x in t.bufs ensures Owned(t, x) {
      assert Owned(m, x);
      var d: nat :| PostOf(m, d) == Some(x);
      assert PostOf(t, d) == Some(x);
    }
  }

  lemma PostSame(s: State, a: Action, c: nat)
    requires HeapOk(s.m) && TableOk(s.m) && PostOk(s) && Enabled(s, a) && !a.Start? && !a.Finish?
    ensures PostOf(Apply(s, a).m, c) == PostOf(s.m, c)
  {
    hide HeapOk, TableOk, PostOk, Apply, Enabled, PostOf;
    if a.Complete? {
      PostComplete(s, a, c);
    } else if Stores(a) {
      PostStore(s, a, c);
    } else {
      StoreSame(s, a);
    }
  }

  lemma PostStore(s: State, a: Action, c: nat)
    requires HeapOk(s.m) && TableOk(s.m) && PostOk(s) && Enabled(s, a) && !a.Start? && !a.Finish? && !a.Complete?
    requires Stores(a)
    ensures PostOf(Apply(s, a).m, c) == PostOf(s.m, c)
  {
    hide Allocated, Freed, NextNumber, ValidTable, Closed, Finished;
  }

  lemma PostComplete(s: State, a: Action, c: nat)
    requires TableOk(s.m) && PostOk(s) && Enabled(s, a) && a.Complete?
    ensures PostOf(Apply(s, a).m, c) == PostOf(s.m, c)
  {
    hide Freed, ValidTable, Ended;
  }

  lemma BufStep(s: State, a: Action)
    requires HeapOk(s.m) && TableOk(s.m) && PostOk(s) && BufOk(s.m) && Enabled(s, a)
    ensures BufOk(Apply(s, a).m)
  {
    hide BufOk, HeapOk, TableOk;
    match a
    case Start(handle, callback, kind) =>
      var p := Guarded(s.m, handle);
      if p.Some? {
        BufStart(s.m, p.value, callback, kind);
      }
    case Finish(c, result) =>
      if c in s.m.ctxs {
        BufFinish(s.m, c, result);
      }
    case _ =>
      forall c: nat ensures PostOf(Apply(s, a).m, c) == PostOf(s.m, c) {
        PostSame(s, a, c);
      }
      CountersSame(s, a);
      BufSame(s.m, Apply(s, a).m);
  }

  lemma CountersSame(s: State, a: Action)
    requires Enabled(s, a) && !a.Start? && !a.Finish?
    ensures var t := Apply(s, a).m; t.bufs == s.m.bufs && t.freed == s.m.freed && t.nextBuf == s.m.nextBuf
  {
    hide Allocated, Freed, NextNumber, Lookup;
  }

  lemma FinishedIsSomewhere(s: State, c: nat)
    requires WhereOk(s) && Finished(s, c)
    ensures InFlight(s.m, c)
  {
    Counted(s.q.done, c);
    assert Places(s, c) > 0;
  }

  // Only the end of its transfer and its completion change whether the transfer
  // of a request is over.
  lemma FinishedSame(s: State, a: Action, c: nat)
    requires PopOk(s) && Enabled(s, a) && !(a.Finish? && a.c == c) && !(a.Complete? && s.frame == DoneHave(c))
    ensures Finished(Apply(s, a), c) == Finished(s, c)
  {
    hide PopOk, Apply, Enabled, Finished;
    if OfEvent(a) {
      FinishedEvent(s, a, c);
    } else {
      FinishedGame(s, a, c);
    }
  }

  lemma FinishedEvent(s: State, a: Action, c: nat)
    requires Enabled(s, a) && OfEvent(a) && !(a.Finish? && a.c == c)
    ensures Finished(Apply(s, a), c) == Finished(s, c)
  {
    hide FinishedIn, Received, Resulted;
    match a
    case PushDone => assert c in s.q.done + [s.loop.c] <==> c in s.q.done || c == s.loop.c;
    case Finish(_, _) =>
    case EvLockDone =>
    case _ => FinishedRests(s, a, c);
  }

  lemma FinishedRests(s: State, a: Action, c: nat)
    requires Enabled(s, a) && OfEvent(a) && !a.PushDone? && !a.Finish? && !a.EvLockDone?
    ensures Finished(Apply(s, a), c) == Finished(s, c)
  {
    hide FinishedIn, Received, Resulted, DoStart, DoClose, DoComplete;
  }

  lemma FinishedGame(s: State, a: Action, c: nat)
    requires PopOk(s) && Enabled(s, a) && !OfEvent(a) && !(a.Complete? && s.frame == DoneHave(c))
    ensures Finished(Apply(s, a), c) == Finished(s, c)
  {
    hide Create, Used, Free, Closed, Ended, StartedIn, FinishedIn, Received, Lookup, Guarded, OutcomeOf;
    if a.PopDone? {
      assert s.q.done == [s.q.done[0]] + s.q.done[1..];
    }
  }

  lemma PostStep(s: State, a: Action)
    requires HeapOk(s.m) && TableOk(s.m) && PopOk(s) && WhereOk(s) && PostOk(s) && Enabled(s, a)
    ensures PostOk(Apply(s, a))
  {
    hide HeapOk, TableOk, PopOk, WhereOk, Apply, Enabled;
    var t := Apply(s, a);
    forall c | c in t.m.ctxs
      ensures !t.m.ctxs[c].inEventThread ==> t.m.ctxs[c].post.None? && !t.m.ctxs[c].handleClosed
    {
      HomeStep(s, a, c);
      assert AtHome(t.m, c);
    }
    forall c | c in t.m.ctxs && Finished(t, c)
      ensures t.m.ctxs[c].post.None?
    {
      if a.Finish? && a.c == c {
        Arrived(s, a);
        FinishClears(s, a);
      } else {
        if !(a.Complete? && s.frame == DoneHave(c)) {
          FinishedSame(s, a, c);
        }
        FinishedIsSomewhere(s, c);
        CleanStep(s, a, c);
      }
    }
  }

  ghost predicate AtHome(m: Store, c: nat) {
    c in m.ctxs && !m.ctxs[c].inEventThread ==> m.ctxs[c].post.None? && !m.ctxs[c].handleClosed
  }

  lemma HomeStep(s: State, a: Action, c: nat)
    requires HeapOk(s.m) && TableOk(s.m) && PostOk(s) && Enabled(s, a)
    ensures AtHome(Apply(s, a).m, c)
  {
    assert AtHome(s.m, c);
    hide HeapOk, TableOk, PostOk, Apply, Enabled, AtHome;
    if a.Complete? {
      HomeComplete(s, a, c);
    } else if Stores(a) {
      HomeStore(s, a, c);
    } else {
      StoreSame(s, a);
    }
  }

  lemma HomeStore(s: State, a: Action, c: nat)
    requires HeapOk(s.m) && TableOk(s.m) && PostOk(s) && Enabled(s, a) && !a.Complete? && Stores(a)
    ensures AtHome(Apply(s, a).m, c)
  {
    hide Allocated, Freed, NextNumber, ValidTable, Closed, Finished;
  }

  lemma HomeComplete(s: State, a: Action, c: nat)
    requires TableOk(s.m) && PostOk(s) && Enabled(s, a) && a.Complete?
    ensures AtHome(Apply(s, a).m, c)
  {
    hide Freed, ValidTable, Ended;
  }

  // A finished request has no post buffer again before its next start.
  lemma CleanStep(s: State, a: Action, c: nat)
    requires PostOk(s) && Enabled(s, a) && c in Apply(s, a).m.ctxs
    requires Finished(s, c) && InFlight(s.m, c)
    ensures Apply(s, a).m.ctxs[c].post.None?
  {
    hide Allocated, Freed, NextNumber;
  }

  lemma FinishClears(s: State, a: Action)
    requires Enabled(s, a) && a.Finish? && a.c in s.m.ctxs
    ensures a.c in Apply(s, a).m.ctxs && Apply(s, a).m.ctxs[a.c].post.None?
  {
  }

  // Starts and what became of them
  // ------------------------------

  // Each request in flight belongs to one pending start, whose callback it
  // carries, whose close it knows of and whose result it has once the transfer
  // is over; each pending start has its request in flight; a callback that ran
  // was the one given, for a handle not closed, and was told that result.
  ghost predicate RunOk(s: State) {
    && (forall c: nat :: c in s.h.current <==> InFlight(s.m, c))
    && (forall c :: c in s.h.current ==> RunOf(s, c))
    && (forall k :: 0 <= k < |s.h.runs| && s.h.runs[k].outcome.Pending? ==>
          s.h.runs[k].ctx in s.h.current && s.h.current[s.h.runs[k].ctx] == k)
    && (forall k :: 0 <= k < |s.h.runs| && s.h.runs[k].outcome.Called? ==> Answered(s.h.runs[k]))
  }

  ghost predicate Answered(r: Run)
    requires r.outcome.Called?
  {
    r.outcome.callback == r.callback && !r.closed && r.result == Some(r.outcome.call.curlcode)
  }

  ghost predicate RunOf(s: State, c: nat)
    requires c in s.h.current
  {
    var k := s.h.current[c];
    && k < |s.h.runs| && c in s.m.ctxs
    && s.h.runs[k].ctx == c && s.h.runs[k].outcome.Pending?
    && s.h.runs[k].callback == s.m.ctxs[c].callback && s.h.runs[k].closed == s.m.ctxs[c].handleClosed
    && s.h.runs[k].result == if Finished(s, c) then Some(s.m.ctxs[c].curlcode) else None
  }

  // The history changes only with a start, a close in flight, the end of a
  // transfer and a completion.
  lemma RunQuiet(s: State, a: Action, c: nat)
    requires HeapOk(s.m) && TableOk(s.m) && Enabled(s, a)
    requires !a.Start? && !a.Close? && !a.Finish? && !a.Complete?
    ensures Apply(s, a).h.runs == s.h.runs && Apply(s, a).h.current == s.h.current
    ensures InFlight(s.m, c) ==> c in Apply(s, a).m.ctxs
    ensures InFlight(s.m, c) ==> Apply(s, a).m.ctxs[c].callback == s.m.ctxs[c].callback
    ensures InFlight(s.m, c) ==> Apply(s, a).m.ctxs[c].handleClosed == s.m.ctxs[c].handleClosed
    ensures InFlight(s.m, c) ==> Apply(s, a).m.ctxs[c].curlcode == s.m.ctxs[c].curlcode
  {
    if Stores(a) {
      hide Allocated, Freed, NextNumber, ValidTable;
    } else {
      hide Apply, Enabled, HeapOk, TableOk;
      StoreSame(s, a);
    }
  }

  lemma RunStart(s: State, a: Action)
    requires PopOk(s) && WhereOk(s) && PostOk(s) && RunOk(s) && Enabled(s, a) && a.Start?
    ensures RunOk(Apply(s, a))
  {
    hide PopOk, WhereOk, Lookup, StartedIn, Finished;
    var p, t := Guarded(s.m, a.handle), Apply(s, a);
    forall d ensures Finished(t, d) == Finished(s, d) {
      FinishedSame(s, a, d);
    }
    if p.Some? {
      var c := p.value;
      assert !Finished(s, c) by {
        if Finished(s, c) {
          FinishedIsSomewhere(s, c);
        }
      }
      StartedThere(s.m, c, a.callback, a.kind);
      assert c !in s.h.current;
      assert RunOf(t, c);
      forall d | d in s.h.current ensures RunOf(t, d) {
        assert RunOf(s, d);
      }
    }
  }

  lemma StartedThere(m: Store, c: nat, callback: int, kind: StartKind)
    requires c in m.ctxs
    ensures var t := StartedIn(m, c, callback, kind);
            && t.ctxs.Keys == m.ctxs.Keys && t.ctxs[c].inEventThread && t.ctxs[c].callback == callback
            && t.ctxs[c].handleClosed == m.ctxs[c].handleClosed
            && forall d :: d in m.ctxs && d != c ==> t.ctxs[d] == m.ctxs[d]
  {
  }

  lemma RunClose(s: State, a: Action)
    requires HeapOk(s.m) && TableOk(s.m) && PopOk(s) && RunOk(s) && Enabled(s, a) && a.Close?
    ensures RunOk(Apply(s, a))
  {
    hide Freed, ValidTable, PopOk, Finished;
    var p, t := Lookup(s.m.table, a.handle), Apply(s, a);
    forall d | d in s.h.current ensures RunOf(t, d) {
      FinishedSame(s, a, d);
      assert RunOf(s, d);
      assert p.Some? && InFlight(s.m, p.value) ==> RunOf(s, p.value);
    }
  }

  lemma RunFinish(s: State, a: Action)
    requires PopOk(s) && WhereOk(s) && RunOk(s) && Enabled(s, a) && a.Finish?
    ensures RunOk(Apply(s, a))
    ensures a.c in s.h.current && s.h.current[a.c] < |s.h.runs| && InFlight(s.m, a.c)
    ensures Apply(s, a).h == Resulted(s.h, a.c, a.result)
  {
    hide PopOk, WhereOk, Finished;
    var t := Apply(s, a);
    Arrived(s, a);
    assert RunOf(s, a.c);
    forall d | d in t.h.current ensures RunOf(t, d) {
      assert RunOf(s, d);
      if d != a.c {
        FinishedSame(s, a, d);
      }
    }
  }

  lemma Arrived(s: State, a: Action)
    requires WhereOk(s) && Enabled(s, a) && a.Finish?
    ensures InFlight(s.m, a.c) && Finished(Apply(s, a), a.c) && !Finished(s, a.c)
    ensures Apply(s, a).m == FinishedIn(s.m, a.c, a.result) && Apply(s, a).h == Resulted(s.h, a.c, a.result)
  {
    hide FinishedIn, Resulted, Count;
    AtCurl(s, a.c);
    assert Places(s, a.c) == 1;
    Counted(s.q.done, a.c);
  }

  // A request with curl is in flight.
  lemma AtCurl(s: State, c: nat)
    requires WhereOk(s) && c in s.q.curl
    ensures InFlight(s.m, c)
  {
    assert Places(s, c) > 0;
  }

  // A completion ends the start of the request in hand, one way or the other.
  lemma CompleteShape(s: State, found: bool, response: int)
    requires HeapOk(s.m) && TableOk(s.m) && WhereOk(s) && RunOk(s) && Enabled(s, Complete(found, response))
    ensures var c := s.frame.c; var t := Apply(s, Complete(found, response));
            && InFlight(s.m, c) && c in s.h.current && RunOf(s, c)
            && var o := OutcomeOf(s.m.ctxs[c], found, response);
               t.h.runs == Ended(s.h, c, o).runs && t.h.current == Ended(s.h, c, o).current
    ensures var c := s.frame.c; var t := Apply(s, Complete(found, response));
            !InFlight(t.m, c) && forall d :: d in s.m.ctxs && d != c ==> d in t.m.ctxs && t.m.ctxs[d] == s.m.ctxs[d]
    ensures Apply(s, Complete(found, response)).m.ctxs.Keys <= s.m.ctxs.Keys
  {
    hide HeapOk, TableOk, RunOf, DoComplete;
    assert Places(s, s.frame.c) > 0;
    assert RunOf(s, s.frame.c);
    CompleteHistory(s, found, response);
    CompleteStore(s, found, response);
  }

  lemma CompleteHistory(s: State, found: bool, response: int)
    requires s.frame.DoneHave? && s.frame.c in s.m.ctxs
    ensures var o := OutcomeOf(s.m.ctxs[s.frame.c], found, response); var h := DoComplete(s, found, response).h;
            h.runs == Ended(s.h, s.frame.c, o).runs && h.current == Ended(s.h, s.frame.c, o).current
  {
    hide Free;
  }

  lemma CompleteStore(s: State, found: bool, response: int)
    requires TableOk(s.m) && s.frame.DoneHave? && s.frame.c in s.m.ctxs
    ensures var c := s.frame.c; var m := DoComplete(s, found, response).m;
            && !InFlight(m, c) && m.ctxs.Keys <= s.m.ctxs.Keys
            && forall d :: d in s.m.ctxs && d != c ==> d in m.ctxs && m.ctxs[d] == s.m.ctxs[d]
  {
    hide Freed, ValidTable, Ended;
  }

  lemma EndedRuns(s: State, t: State, c: nat, o: Outcome)
    requires RunOk(s) && c in s.h.current && RunOf(s, c) && !o.Pending?
    requires o.Called? ==> o.callback == s.m.ctxs[c].callback && !s.m.ctxs[c].handleClosed
    requires o.Called? ==> o.call.curlcode == s.m.ctxs[c].curlcode
    requires Finished(s, c) && forall d :: d != c ==> Finished(t, d) == Finished(s, d)
    requires t.h.runs == Ended(s.h, c, o).runs && t.h.current == Ended(s.h, c, o).current
    requires !InFlight(t.m, c) && t.m.ctxs.Keys <= s.m.ctxs.Keys
    requires forall d :: d in s.m.ctxs && d != c ==> d in t.m.ctxs && t.m.ctxs[d] == s.m.ctxs[d]
    ensures RunOk(t)
  {
    hide Finished;
    forall d | d in t.h.current ensures RunOf(t, d) {
      assert RunOf(s, d);
    }
  }

  lemma RunComplete(s: State, a: Action)
    requires HeapOk(s.m) && TableOk(s.m) && PopOk(s) && WhereOk(s) && RunOk(s) && Enabled(s, a) && a.Complete?
    ensures RunOk(Apply(s, a))
  {
    hide HeapOk, TableOk, PopOk, WhereOk, RunOk, Apply, Ended;
    var c := s.frame.c;
    CompleteShape(s, a.found, a.response);
    forall d | d != c ensures Finished(Apply(s, a), d) == Finished(s, d) {
      FinishedSame(s, a, d);
    }
    EndedRuns(s, Apply(s, a), c, OutcomeOf(s.m.ctxs[c], a.found, a.response));
  }

  lemma RunStep(s: State, a: Action)
    requires HeapOk(s.m) && TableOk(s.m) && PopOk(s) && WhereOk(s) && PostOk(s) && RunOk(s) && Enabled(s, a)
    ensures RunOk(Apply(s, a))
  {
    hide HeapOk, TableOk, PopOk, WhereOk, PostOk, Apply, Enabled, Finished;
    if a.Start? {
      RunStart(s, a);
    } else if a.Close? {
      RunClose(s, a);
    } else if a.Finish? {
      RunFinish(s, a);
    } else if a.Complete? {
      RunComplete(s, a);
    } else {
      var t := Apply(s, a);
      RunQuiet(s, a, 0);
      forall c: nat
        ensures c in t.h.current <==> InFlight(t.m, c)
        ensures c in t.h.current ==> RunOf(t, c)
      {
        FlightStep(s, a, c);
        RunQuiet(s, a, c);
        FinishedSame(s, a, c);
        assert c in s.h.current ==> RunOf(s, c);
      }
    }
  }

  // Counting starts
  // ---------------

  datatype Kind = Open | Replied | Silent

  ghost function KindOf(o: Outcome): Kind {
    match o
    case Pending => Open
    case Called(_, _, _) => Replied
    case Dropped => Silent
  }

  ghost function Tally(runs: seq<Run>, k: Kind): nat {
    if runs == [] then 0 else
      Tally(runs[..|runs| - 1], k) + if KindOf(runs[|runs| - 1].outcome) == k then 1 else 0
  }

  lemma {:induction false} TallyUpdate(runs: seq<Run>, k: nat, r: Run, o: Kind)
    requires k < |runs|
    ensures Tally(runs[k := r], o) + (if KindOf(runs[k].outcome) == o then 1 else 0)
         == Tally(runs, o) + (if KindOf(r.outcome) == o then 1 else 0)
  {
    var n := |runs| - 1;
    if k < n {
      TallyUpdate(runs[..n], k, r, o);
      assert runs[k := r][..n] == runs[..n][k := r];
    } else {
      assert runs[k := r][..n] == runs[..n];
    }
  }

  lemma TallyAppend(runs: seq<Run>, r: Run, o: Kind)
    ensures Tally(runs + [r], o) == Tally(runs, o) + if KindOf(r.outcome) == o then 1 else 0
  {
    assert (runs + [r])[..|runs|] == runs;
  }

  lemma {:induction false} TallyAll(runs: seq<Run>)
    ensures |runs| == Tally(runs, Open) + Tally(runs, Replied) + Tally(runs, Silent)
  {
    if runs != [] {
      TallyAll(runs[..|runs| - 1]);
    }
  }

  // There are as many pending starts as requests in flight.
  ghost predicate CountOk(s: State) {
    Tally(s.h.runs, Open) == |s.h.current|
  }

  lemma CountStep(s: State, a: Action)
    requires HeapOk(s.m) && TableOk(s.m) && PopOk(s) && WhereOk(s) && RunOk(s) && CountOk(s) && Enabled(s, a)
    ensures CountOk(Apply(s, a))
  {
    hide HeapOk, TableOk, PopOk, WhereOk, Freed, StartedIn, FinishedIn, Tally, Finished;
    match a
    case Start(handle, callback, kind) =>
      var p := Guarded(s.m, handle);
      if p.Some? {
        assert p.value !in s.h.current;
        TallyAppend(s.h.runs, Run(p.value, callback, false, None, Pending), Open);
      }
    case Close(handle) =>
      var p := Lookup(s.m.table, handle);
      if p.Some? && InFlight(s.m, p.value) {
        assert RunOf(s, p.value);
        var k := s.h.current[p.value];
        TallyUpdate(s.h.runs, k, s.h.runs[k].(closed := true), Open);
      }
    case Finish(c, result) =>
      RunFinish(s, a);
      var k := s.h.current[c];
      TallyUpdate(s.h.runs, k, s.h.runs[k].(result := Some(result)), Open);
    case Complete(found, response) => CountComplete(s, found, response);
    case _ => RunQuiet(s, a, 0);
  }

  lemma EndedCount(h: History, c: nat, o: Outcome)
    requires c in h.current && h.current[c] < |h.runs| && h.runs[h.current[c]].outcome.Pending? && !o.Pending?
    ensures Tally(Ended(h, c, o).runs, Open) == Tally(h.runs, Open) - 1
    ensures |Ended(h, c, o).current| == |h.current| - 1
  {
    var k := h.current[c];
    TallyUpdate(h.runs, k, h.runs[k].(outcome := o), Open);
  }

  lemma CountComplete(s: State, found: bool, response: int)
    requires HeapOk(s.m) && TableOk(s.m) && WhereOk(s) && RunOk(s) && CountOk(s) && Enabled(s, Complete(found, response))
    ensures CountOk(Apply(s, Complete(found, response)))
  {
    hide HeapOk, TableOk, WhereOk, RunOk, Apply, Ended, Tally;
    var c := s.frame.c;
    CompleteShape(s, found, response);
    EndedCount(s.h, c, OutcomeOf(s.m.ctxs[c], found, response));
  }
}
