/** What holds in every run of the two threads, however they interleave and
    whatever the callbacks do. */
module LifecycleTheorems {
  import opened Options
  import opened Sequences
  import opened Handles
  import opened Contexts
  import opened Lifecycle
  import opened LifecycleInv

  ghost predicate Inv(s: State) {
    && HeapOk(s.m) && TableOk(s.m) && BufOk(s.m)
    && LockOk(s) && PopOk(s) && FifoOk(s) && DrainOk(s) && WakeOk(s)
    && WhereOk(s) && PostOk(s) && RunOk(s) && CountOk(s)
  }

  lemma InitInv(plugins: set<nat>)
    ensures Inv(Init(plugins))
  {
  }

  lemma StepInv(s: State, a: Action)
    requires Inv(s) && Enabled(s, a)
    ensures Inv(Apply(s, a))
  {
    hide HeapOk, TableOk, BufOk, LockOk, PopOk, FifoOk, DrainOk, WakeOk, PostOk, RunOk, CountOk, Apply;
    TableStep(s, a);
    BufStep(s, a);
    LockStep(s, a);
    PopStep(s, a);
    FifoStep(s, a);
    if s.frame.DoneHave? {
      InHand(s);
    }
    DrainStep(s, a);
    WakeStep(s, a);
    WhereStep(s, a);
    PostStep(s, a);
    RunStep(s, a);
    CountStep(s, a);
  }

  // A popped request is in flight still, so its context is live.
  lemma InHand(s: State)
    requires WhereOk(s) && s.frame.DoneHave?
    ensures InFlight(s.m, s.frame.c)
  {
    assert Places(s, s.frame.c) > 0;
  }

  // Runs
  // ----

  ghost predicate Possible(s: State, run: seq<Action>)
    decreases |run|
  {
    run != [] ==> Enabled(s, run[0]) && Possible(Apply(s, run[0]), run[1..])
  }

  ghost function After(s: State, run: seq<Action>): State
    requires Possible(s, run)
    decreases |run|
  {
    if run == [] then s else After(Apply(s, run[0]), run[1..])
  }

  lemma {:induction false} RunInv(s: State, run: seq<Action>)
    requires Inv(s) && Possible(s, run)
    ensures Inv(After(s, run))
    decreases |run|
  {
    if run != [] {
      StepInv(s, run[0]);
      RunInv(Apply(s, run[0]), run[1..]);
    }
  }

  // All of the invariants hold in every state that any run reaches.
  lemma Reached(plugins: set<nat>, run: seq<Action>)
    requires Possible(Init(plugins), run)
    ensures Inv(After(Init(plugins), run))
  {
    InitInv(plugins);
    RunInv(Init(plugins), run);
  }

  // Memory
  // ------

  // The contexts whose memory an action reads or writes.
  ghost function Touches(s: State, a: Action): set<nat> {
    DataTouched(s, a) +
    match a
    case Close(handle) => var p := Lookup(s.m.table, handle); if p.Some? then {p.value} else {}
    case Use(handle, _) => var p := Lookup(s.m.table, handle); if p.Some? then {p.value} else {}
    case Start(handle, _, _) => var p := Lookup(s.m.table, handle); if p.Some? then {p.value} else {}
    case _ => {}
  }

  // Those of which it touches more than the two flags in_event_thread and
  // handle_closed: response data, result code, headers, callback or post buffer.
  ghost function DataTouched(s: State, a: Action): set<nat> {
    match a
    case Close(handle) => var p := Guarded(s.m, handle); if p.Some? then {p.value} else {}
    case Use(handle, _) => var p := Guarded(s.m, handle); if p.Some? then {p.value} else {}
    case Start(handle, _, _) => var p := Guarded(s.m, handle); if p.Some? then {p.value} else {}
    case Complete(_, _) => if s.frame.DoneHave? then {s.frame.c} else {}
    case EnterCurl => if s.loop.AddHave? then {s.loop.c} else {}
    case Receive(c, _) => {c}
    case Finish(c, _) => {c}
    case _ => {}
  }

  // The game thread works on the data of a request that is not in flight, or of
  // the one it has just popped; the event thread on those with curl or in hand.
  lemma GameTouches(s: State, a: Action, c: nat)
    requires Enabled(s, a) && !OfEvent(a) && c in DataTouched(s, a)
    ensures (c in s.m.ctxs && !InFlight(s.m, c)) || FrameHand(s.frame) == Some(c)
  {
    hide Lookup;
  }

  lemma EventTouches(s: State, a: Action, c: nat)
    requires Enabled(s, a) && OfEvent(a) && c in DataTouched(s, a)
    ensures c in s.q.curl || LoopHand(s.loop) == Some(c)
  {
  }

  // Being somewhere is being in flight, and in no second place.
  lemma OnePlace(s: State, c: nat)
    requires WhereOk(s)
    ensures Places(s, c) == if InFlight(s.m, c) then 1 else 0
    ensures (c in s.q.jobs || c in s.q.curl || c in s.q.done || NativeHand(s.native) == Some(c)
             || FrameHand(s.frame) == Some(c) || LoopHand(s.loop) == Some(c)) <==> InFlight(s.m, c)
    ensures FrameHand(s.frame) == Some(c) ==>
              c !in s.q.jobs && c !in s.q.curl && c !in s.q.done && LoopHand(s.loop) != Some(c)
  {
    Counted(s.q.jobs, c);
    Counted(s.q.done, c);
    assert Places(s, c) == if InFlight(s.m, c) then 1 else 0;
  }

  // No action touches a context that is not live.
  lemma NoUseAfterFree(s: State, a: Action)
    requires Inv(s) && Enabled(s, a)
    ensures Touches(s, a) <= s.m.ctxs.Keys
  {
    hide BufOk, FifoOk, DrainOk, WakeOk, PostOk, RunOk, CountOk, LockOk, PopOk, HeapOk, WhereOk, Enabled, DataTouched;
    forall c | c in Touches(s, a) ensures c in s.m.ctxs {
      if c in DataTouched(s, a) {
        OnePlace(s, c);
        if OfEvent(a) {
          EventTouches(s, a, c);
        } else {
          GameTouches(s, a, c);
        }
      }
    }
  }

  // What an action deletes was live, or just made, and is deleted once.
  lemma NoDoubleFree(s: State, a: Action)
    requires Inv(s) && Enabled(s, a)
    ensures var t := Apply(s, a).m;
            || t.deleted == s.m.deleted
            || exists c :: t.deleted == s.m.deleted + [c] && c !in s.m.deleted && c !in t.ctxs
  {
    hide BufOk, FifoOk, DrainOk, WakeOk, PostOk, RunOk, CountOk, LockOk, PopOk, WhereOk, Apply, Enabled, HeapOk, TableOk;
    if Stores(a) {
      DeletesOne(s, a);
    } else {
      StoreSame(s, a);
    }
  }

  lemma DeletesOne(s: State, a: Action)
    requires HeapOk(s.m) && TableOk(s.m) && Enabled(s, a) && Stores(a)
    ensures var t := Apply(s, a).m;
            || t.deleted == s.m.deleted
            || exists c :: t.deleted == s.m.deleted + [c] && c !in s.m.deleted && c !in t.ctxs
  {
    hide Allocated, Freed, NextNumber, ValidTable, Closed, Ended;
  }

  // No two actions that the two threads could do at the same time touch the
  // data of the same context.
  lemma NoDataRace(s: State, a: Action, b: Action)
    requires Inv(s) && Enabled(s, a) && Enabled(s, b) && !OfEvent(a) && OfEvent(b)
    ensures DataTouched(s, a) !! DataTouched(s, b)
  {
    hide BufOk, FifoOk, DrainOk, WakeOk, PostOk, RunOk, CountOk, LockOk, PopOk, HeapOk, TableOk, WhereOk,
         Enabled, DataTouched;
    forall c | c in DataTouched(s, a) ensures c !in DataTouched(s, b) {
      GameTouches(s, a, c);
      OnePlace(s, c);
      if c in DataTouched(s, b) {
        EventTouches(s, b, c);
      }
    }
  }

  // The game thread touches the data of no context that waits in the job queue
  // or is with curl or the event thread.
  lemma HandsOff(s: State, a: Action, c: nat)
    requires Inv(s) && Enabled(s, a) && !OfEvent(a)
    requires c in s.q.jobs || c in s.q.curl || LoopHand(s.loop) == Some(c)
    ensures c !in DataTouched(s, a)
  {
    hide BufOk, FifoOk, DrainOk, WakeOk, PostOk, RunOk, CountOk, LockOk, PopOk, HeapOk, TableOk, WhereOk,
         Enabled, DataTouched;
    OnePlace(s, c);
    if c in DataTouched(s, a) {
      GameTouches(s, a, c);
    }
  }

  // The handle of a live context leads to that context, and its number, in
  // flight or not, is not the one given out next.
  lemma HandleOfLive(s: State, c: nat)
    requires Inv(s) && c in s.m.ctxs
    ensures Lookup(s.m.table, s.m.ctxs[c].handle) == Some(c)
    ensures NextNumber(s.m.table) != s.m.ctxs[c].handle
  {
    hide BufOk, FifoOk, DrainOk, WakeOk, PostOk, RunOk, CountOk, LockOk, PopOk, HeapOk, WhereOk;
    AllocateOk(s.m.table, Handle(HandleCurl, c));
  }

  // What happens to a start
  // -----------------------

  // An outcome, once there, stays, and so does the result of the transfer. A
  // callback runs only for a function found in a plugin loaded at that moment,
  // the one given by that very start, and only if the handle was not closed in
  // flight; it is told the result of that start's own transfer.
  lemma OutcomeStep(s: State, a: Action, k: nat)
    requires Inv(s) && Enabled(s, a) && k < |s.h.runs|
    ensures k < |Apply(s, a).h.runs|
    ensures var r := s.h.runs[k]; var r' := Apply(s, a).h.runs[k];
            && r'.ctx == r.ctx && r'.callback == r.callback && (r.closed ==> r'.closed)
            && (!r.outcome.Pending? ==> r'.outcome == r.outcome && r'.result == r.result)
            && (r'.result != r.result ==> r.result.None? && a.Finish? && a.c == r.ctx && r'.result == Some(a.result))
    ensures var r := s.h.runs[k]; var r' := Apply(s, a).h.runs[k];
            r.outcome.Pending? && r'.outcome.Called? ==>
              && a.Complete? && a.found && s.frame == DoneHave(r.ctx) && r.ctx in s.m.ctxs && !r.closed
              && var c := s.m.ctxs[r.ctx]; var call := r'.outcome.call;
              && r'.outcome.plugin == c.plugin && c.plugin in s.plugins && r'.outcome.callback == r.callback
              && call.handle == c.handle && call.userdata == c.userdata && r.result == Some(call.curlcode)
              && call.size == (if call.curlcode == 0 then c.received else 0)
              && call.httpresult == (if call.curlcode == 0 then a.response else 0)
  {
    hide Inv, Apply;
    if a.Complete? {
      OutcomeComplete(s, a, k);
    } else {
      OutcomeOther(s, a, k);
    }
  }

  lemma OutcomeOther(s: State, a: Action, k: nat)
    requires Inv(s) && Enabled(s, a) && k < |s.h.runs| && !a.Complete?
    ensures k < |Apply(s, a).h.runs|
    ensures var r := s.h.runs[k]; var r' := Apply(s, a).h.runs[k];
            || r' == r
            || (a.Close? && r' == r.(closed := true))
            || (a.Finish? && a.c == r.ctx && r.outcome.Pending? && r.result.None? && r' == r.(result := Some(a.result)))
  {
    hide BufOk, FifoOk, DrainOk, WakeOk, PostOk, RunOk, CountOk, LockOk, PopOk, WhereOk, StartedIn, Lookup;
    if a.Finish? {
      OutcomeFinish(s, a);
    } else if !a.Start? && !a.Close? {
      RunQuiet(s, a, 0);
    }
  }

  lemma OutcomeFinish(s: State, a: Action)
    requires Inv(s) && Enabled(s, a) && a.Finish?
    ensures a.c in s.h.current && s.h.current[a.c] < |s.h.runs|
    ensures var r := s.h.runs[s.h.current[a.c]]; r.ctx == a.c && r.outcome.Pending? && r.result.None?
    ensures Apply(s, a).h == Resulted(s.h, a.c, a.result)
  {
    hide BufOk, FifoOk, DrainOk, WakeOk, PostOk, CountOk, LockOk, PopOk, WhereOk, HeapOk, TableOk, Apply, Finished;
    Arrived(s, a);
    assert RunOf(s, a.c);
  }

  lemma OutcomeComplete(s: State, a: Action, k: nat)
    requires Inv(s) && Enabled(s, a) && k < |s.h.runs| && a.Complete?
    ensures k < |Apply(s, a).h.runs|
    ensures var r := s.h.runs[k]; var r' := Apply(s, a).h.runs[k];
            || r' == r
            || (r.outcome.Pending? && r.ctx == s.frame.c && r' == r.(outcome := Dropped))
            || (r.outcome.Pending? && r.ctx == s.frame.c && r.ctx in s.m.ctxs && a.found && !r.closed
                && var c := s.m.ctxs[r.ctx];
                && c.plugin in s.plugins && r.result == Some(c.curlcode)
                && r' == r.(outcome := Called(c.plugin, r.callback, Report(c, a.response))))
  {
    hide BufOk, FifoOk, DrainOk, WakeOk, PostOk, RunOk, CountOk, LockOk, PopOk, WhereOk, Apply;
    CompleteShape(s, a.found, a.response);
  }

  // Over whole runs: at most one outcome, and none but a silent end once the
  // handle was closed in flight; a callback was the one given and was told the
  // result of that start's own transfer.
  lemma {:induction false} OneOutcome(s: State, run: seq<Action>, k: nat)
    requires Inv(s) && Possible(s, run) && k < |s.h.runs|
    ensures k < |After(s, run).h.runs|
    ensures var r := s.h.runs[k]; var r' := After(s, run).h.runs[k]; r'.ctx == r.ctx && r'.callback == r.callback
    ensures !s.h.runs[k].outcome.Pending? ==> After(s, run).h.runs[k].outcome == s.h.runs[k].outcome
    ensures s.h.runs[k].closed ==> After(s, run).h.runs[k].closed && !After(s, run).h.runs[k].outcome.Called?
    ensures After(s, run).h.runs[k].outcome.Called? ==> Answered(After(s, run).h.runs[k])
    decreases |run|
  {
    if run != [] {
      OutcomeStep(s, run[0], k);
      StepInv(s, run[0]);
      OneOutcome(Apply(s, run[0]), run[1..], k);
    }
  }

  // starts == requests in flight + callbacks run + silent ends.
  lemma Conservation(plugins: set<nat>, run: seq<Action>)
    requires Possible(Init(plugins), run)
    ensures var t := After(Init(plugins), run);
            && |t.h.runs| == |t.h.current| + Tally(t.h.runs, Replied) + Tally(t.h.runs, Silent)
            && forall c: nat :: c in t.h.current <==> InFlight(t.m, c)
  {
    Reached(plugins, run);
    TallyAll(After(Init(plugins), run).h.runs);
  }

  // Closing a request in flight leaves it alone but for the mark, and its start
  // then never ends in a callback.
  lemma CloseInFlight(s: State, handle: int, run: seq<Action>)
    requires Inv(s) && Enabled(s, Close(handle))
    requires Lookup(s.m.table, handle).Some? && InFlight(s.m, Lookup(s.m.table, handle).value)
    requires Possible(Apply(s, Close(handle)), run)
    ensures var c := Lookup(s.m.table, handle).value; var t := Apply(s, Close(handle));
            && c in s.h.current
            && t.m.ctxs[c] == s.m.ctxs[c].(handleClosed := true) && t.q == s.q
            && s.h.current[c] < |After(t, run).h.runs|
            && !After(t, run).h.runs[s.h.current[c]].outcome.Called?
  {
    var c := Lookup(s.m.table, handle).value;
    assert RunOf(s, c);
    StepInv(s, Close(handle));
    OneOutcome(Apply(s, Close(handle)), run, s.h.current[c]);
  }

  // Post buffers
  // ------------

  // A request that a native may work on has no post buffer to lose, and nothing
  // is lost: every buffer ever made was freed once or is still to be, by the
  // one request in flight that has it.
  lemma NoBufferLost(s: State, handle: int)
    requires Inv(s)
    ensures Guarded(s.m, handle).Some? ==> s.m.ctxs[Guarded(s.m, handle).value].post.None?
    ensures Unique(s.m.freed)
    ensures forall b: nat :: b < s.m.nextBuf ==>
              b in s.m.freed || exists c: nat :: InFlight(s.m, c) && s.m.ctxs[c].post == Some(b)
    ensures forall b: nat, c: nat, d: nat ::
              c in s.m.ctxs && d in s.m.ctxs && s.m.ctxs[c].post == Some(b) && s.m.ctxs[d].post == Some(b) ==> c == d
  {
    forall b: nat | b < s.m.nextBuf && b !in s.m.freed
      ensures exists c: nat :: InFlight(s.m, c) && s.m.ctxs[c].post == Some(b)
    {
      assert Owned(s.m, b);
      var c: nat :| PostOf(s.m, c) == Some(b);
      assert InFlight(s.m, c);
    }
    forall b: nat, c: nat, d: nat |
      c in s.m.ctxs && d in s.m.ctxs && s.m.ctxs[c].post == Some(b) && s.m.ctxs[d].post == Some(b)
      ensures c == d
    {
      assert PostOf(s.m, c) == PostOf(s.m, d);
    }
  }

  // A request closed while it waits in the done queue, as by a callback of the
  // same drain, is freed without a callback before that drain ends.
  // -------------------------------------------------------------------------

  // The game thread keeps the done lock all along.
  ghost predicate Draining(s: State, run: seq<Action>)
    requires Possible(s, run)
    decreases |run|
  {
    s.q.doneLock == Some(Game) && (run != [] ==> Draining(Apply(s, run[0]), run[1..]))
  }

  ghost predicate Doomed(s: State, k: nat) {
    k < |s.h.runs| && s.h.runs[k].closed &&
    var r := s.h.runs[k];
    if r.outcome.Pending? then r.ctx in s.q.done || s.frame == DoneHave(r.ctx)
    else r.outcome.Dropped? && r.ctx in s.m.deleted
  }

  lemma DoomedStep(s: State, a: Action, k: nat)
    requires Inv(s) && Enabled(s, a) && Doomed(s, k) && s.q.doneLock == Some(Game)
    ensures Doomed(Apply(s, a), k)
  {
    hide BufOk, FifoOk, DrainOk, WakeOk, PostOk, CountOk;
    OutcomeStep(s, a, k);
    DeletedStays(s, a);
    if s.h.runs[k].outcome.Pending? {
      assert RunOf(s, s.h.runs[k].ctx);
      if a.Complete? && s.frame.c == s.h.runs[k].ctx {
        DropStep(s, a.found, a.response);
      } else {
        WaitStep(s, a, k);
      }
    }
  }

  lemma DeletedStays(s: State, a: Action)
    requires Inv(s) && Enabled(s, a)
    ensures forall c :: c in s.m.deleted ==> c in Apply(s, a).m.deleted
  {
    hide Inv, Apply, Enabled;
    NoDoubleFree(s, a);
  }

  lemma DropStep(s: State, found: bool, response: int)
    requires Inv(s) && Enabled(s, Complete(found, response)) && s.frame.c in s.m.ctxs && s.m.ctxs[s.frame.c].handleClosed
    ensures var c := s.frame.c; var t := Apply(s, Complete(found, response));
            && c in s.h.current && s.h.current[c] < |t.h.runs|
            && t.h.runs[s.h.current[c]].outcome.Dropped? && c in t.m.deleted
  {
    hide BufOk, FifoOk, DrainOk, WakeOk, PostOk, CountOk, LockOk, PopOk, Allocated, Freed, ValidTable;
    CompleteShape(s, found, response);
  }

  // A request in the done queue stays there until it is popped, and its start
  // pending until it is completed.
  lemma WaitStep(s: State, a: Action, k: nat)
    requires Inv(s) && Enabled(s, a) && Doomed(s, k) && s.q.doneLock == Some(Game)
    requires s.h.runs[k].outcome.Pending? && !(a.Complete? && s.frame.c == s.h.runs[k].ctx)
    ensures var c := s.h.runs[k].ctx; var t := Apply(s, a);
            && (c in t.q.done || t.frame == DoneHave(c))
            && k < |t.h.runs| && t.h.runs[k].outcome.Pending?
  {
    hide BufOk, FifoOk, DrainOk, WakeOk, PostOk, CountOk, HeapOk, TableOk, RunOk, Apply, Enabled;
    OutcomeStep(s, a, k);
    StaysQueued(s, a, s.h.runs[k].ctx);
    EndsOnly(s, a, k);
  }

  lemma StaysQueued(s: State, a: Action, c: nat)
    requires Enabled(s, a) && (c in s.q.done || s.frame == DoneHave(c))
    requires !(a.Complete? && s.frame == DoneHave(c))
    ensures c in Apply(s, a).q.done || Apply(s, a).frame == DoneHave(c)
  {
    hide Create, Used, Free, Closed, Ended, StartedIn, FinishedIn, Received, Lookup, Guarded;
    if a.PopDone? && s.q.done != [] {
      assert s.q.done == [s.q.done[0]] + s.q.done[1..];
    }
  }

  // Only the completion of its request ends a start.
  lemma EndsOnly(s: State, a: Action, k: nat)
    requires Inv(s) && Enabled(s, a) && k < |s.h.runs| && s.h.runs[k].outcome.Pending?
    requires !(a.Complete? && s.frame.c == s.h.runs[k].ctx)
    ensures k < |Apply(s, a).h.runs| && Apply(s, a).h.runs[k].outcome.Pending?
  {
    hide Inv, Apply;
    if a.Complete? {
      OutcomeComplete(s, a, k);
    } else {
      OutcomeOther(s, a, k);
    }
  }

  lemma {:induction false} ClosedInQueue(s: State, run: seq<Action>, k: nat)
    requires Inv(s) && Possible(s, run) && Draining(s, run) && Doomed(s, k)
    requires After(s, run).frame.DoneLeave?
    ensures var t := After(s, run);
            && k < |t.h.runs| && t.h.runs[k].outcome.Dropped?
            && t.h.runs[k].ctx in t.m.deleted && t.h.runs[k].ctx !in t.m.ctxs
    decreases |run|
  {
    if run != [] {
      DoomedStep(s, run[0], k);
      StepInv(s, run[0]);
      ClosedInQueue(Apply(s, run[0]), run[1..], k);
    }
  }

  // From a close on, for every continuation up to the end of the drain.
  lemma CloseWaiting(s: State, handle: int, run: seq<Action>)
    requires Inv(s) && Enabled(s, Close(handle)) && s.q.doneLock == Some(Game)
    requires Lookup(s.m.table, handle).Some? && Lookup(s.m.table, handle).value in s.q.done
    requires Possible(Apply(s, Close(handle)), run) && Draining(Apply(s, Close(handle)), run)
    requires After(Apply(s, Close(handle)), run).frame.DoneLeave?
    ensures var c := Lookup(s.m.table, handle).value; var t := After(Apply(s, Close(handle)), run);
            && c in s.h.current && s.h.current[c] < |t.h.runs|
            && t.h.runs[s.h.current[c]].outcome.Dropped? && c in t.m.deleted && c !in t.m.ctxs
  {
    hide Possible, Draining, After, Inv, Apply;
    var c, t := Lookup(s.m.table, handle).value, Apply(s, Close(handle));
    CloseDooms(s, handle);
    StepInv(s, Close(handle));
    ClosedInQueue(t, run, s.h.current[c]);
    OneOutcome(t, run, s.h.current[c]);
  }

  lemma CloseDooms(s: State, handle: int)
    requires Inv(s) && Enabled(s, Close(handle))
    requires Lookup(s.m.table, handle).Some? && Lookup(s.m.table, handle).value in s.q.done
    ensures var c := Lookup(s.m.table, handle).value;
            && c in s.h.current && Doomed(Apply(s, Close(handle)), s.h.current[c])
            && Apply(s, Close(handle)).h.runs[s.h.current[c]].ctx == c
  {
    hide BufOk, FifoOk, DrainOk, WakeOk, PostOk, CountOk, LockOk, PopOk, WhereOk;
    var c := Lookup(s.m.table, handle).value;
    OnePlace(s, c);
    assert RunOf(s, c);
  }
}
