/** What each operation does to the requests, in terms of what the plugin asked
    for and nothing else. */
module LifecycleEffects {
  import opened Options
  import opened Sequences
  import opened Handles
  import opened Contexts
  import opened Lifecycle
  import opened LifecycleInv
  import opened LifecycleTheorems

  // Plugin code may do all it can between frames and in callbacks, and only
  // there, one native at a time.
  lemma PluginMay(s: State, a: Action)
    requires Chosen(a)
    ensures Enabled(s, a) <==> (s.frame.Idle? || s.frame.Callback?) && s.native.NoNative?
  {
  }

  // New requests
  // ------------

  // A new context is the plugin's own, idle and empty, under a number that led
  // nowhere before; without a free number nothing but the attempt is left.
  lemma NewMakes(s: State, plugin: nat, userdata: int)
    requires Inv(s) && Enabled(s, NewRequest(plugin, userdata))
    ensures var t, n, c := Apply(s, NewRequest(plugin, userdata)), NextNumber(s.m.table), s.m.nextCtx;
            && t == s.(m := t.m) && c !in s.m.ctxs
            && if n == 0 then t.m == s.m.(nextCtx := c + 1, deleted := s.m.deleted + [c]) else
               && c in t.m.ctxs && t.m.ctxs == s.m.ctxs[c := t.m.ctxs[c]] && t.m.deleted == s.m.deleted
               && Lookup(s.m.table, n) == None && Lookup(t.m.table, n) == Some(c)
               && t.m.ctxs[c] == Context(plugin, 0, n, userdata, false, false, None, -1, 0, 0)
  {
    hide BufOk, FifoOk, DrainOk, WakeOk, PostOk, RunOk, CountOk, LockOk, PopOk, WhereOk, Allocated;
    LookupTracks(s.m.table, s.m.nextCtx, 0);
  }

  // Every field of a context changes by its own operation only, and to what that
  // operation says.
  lemma FieldStep(s: State, a: Action, c: nat)
    requires Inv(s) && Enabled(s, a) && c in s.m.ctxs && c in Apply(s, a).m.ctxs
    ensures var d, d' := s.m.ctxs[c], Apply(s, a).m.ctxs[c];
            && d'.plugin == d.plugin && d'.handle == d.handle && d'.userdata == d.userdata
            && d'.received == d.received + (if a.Receive? && a.c == c then a.bytes else 0)
            && d'.curlcode == (if a.Finish? && a.c == c then a.result else d.curlcode)
            && (d'.callback != d.callback ==> a.Start? && Lookup(s.m.table, a.handle) == Some(c))
            && (d'.headers != d.headers ==> (a.Start? || a.Use?) && Lookup(s.m.table, a.handle) == Some(c))
  {
    hide BufOk, FifoOk, DrainOk, WakeOk, PostOk, RunOk, CountOk, LockOk, PopOk, WhereOk, HeapOk, TableOk, Apply, Enabled;
    if !Stores(a) {
      StoreSame(s, a);
    } else if OfEvent(a) {
      FieldEvent(s, a, c);
    } else {
      FieldGame(s, a, c);
    }
  }

  lemma FieldEvent(s: State, a: Action, c: nat)
    requires Enabled(s, a) && OfEvent(a) && Stores(a) && c in s.m.ctxs
    ensures c in Apply(s, a).m.ctxs
    ensures var d, d' := s.m.ctxs[c], Apply(s, a).m.ctxs[c];
            d' == d.(inEventThread := d'.inEventThread, post := d'.post,
                     received := d.received + (if a.Receive? && a.c == c then a.bytes else 0),
                     curlcode := if a.Finish? && a.c == c then a.result else d.curlcode)
  {
    hide Resulted;
  }

  lemma FieldGame(s: State, a: Action, c: nat)
    requires HeapOk(s.m) && Enabled(s, a) && !OfEvent(a) && Stores(a) && c in s.m.ctxs && c in Apply(s, a).m.ctxs
    ensures var d, d' := s.m.ctxs[c], Apply(s, a).m.ctxs[c];
            && d'.plugin == d.plugin && d'.handle == d.handle && d'.userdata == d.userdata
            && d'.received == d.received && d'.curlcode == d.curlcode
            && (d'.callback != d.callback ==> a.Start? && Lookup(s.m.table, a.handle) == Some(c))
            && (d'.headers != d.headers ==> (a.Start? || a.Use?) && Lookup(s.m.table, a.handle) == Some(c))
  {
    hide Allocated, Freed, NextNumber, Lookup, Closed, Ended, OutcomeOf;
  }

  // The bytes that came in for a context.
  ghost function Bytes(run: seq<Action>, c: nat): nat {
    if run == [] then 0 else
      (if run[0].Receive? && run[0].c == c then run[0].bytes else 0) + Bytes(run[1..], c)
  }

  // A context that was deleted never comes back.
  lemma {:induction false} StaysDeleted(s: State, run: seq<Action>, c: nat)
    requires Inv(s) && Possible(s, run) && c < s.m.nextCtx && c !in s.m.ctxs
    ensures c !in After(s, run).m.ctxs
    decreases |run|
  {
    if run != [] {
      StepInv(s, run[0]);
      DeletedStep(s, run[0], c);
      StaysDeleted(Apply(s, run[0]), run[1..], c);
    }
  }

  lemma DeletedStep(s: State, a: Action, c: nat)
    requires Inv(s) && Enabled(s, a) && c < s.m.nextCtx
    ensures c < Apply(s, a).m.nextCtx && (c !in s.m.ctxs ==> c !in Apply(s, a).m.ctxs)
  {
    hide BufOk, FifoOk, DrainOk, WakeOk, PostOk, RunOk, CountOk, LockOk, PopOk, WhereOk, HeapOk, TableOk, Apply, Enabled;
    if Stores(a) {
      DeletedStore(s, a, c);
    } else {
      StoreSame(s, a);
    }
  }

  lemma DeletedStore(s: State, a: Action, c: nat)
    requires Enabled(s, a) && Stores(a) && c < s.m.nextCtx
    ensures c < Apply(s, a).m.nextCtx && (c !in s.m.ctxs ==> c !in Apply(s, a).m.ctxs)
  {
    hide Allocated, Freed, NextNumber, Lookup, Closed, Ended, OutcomeOf, Resulted;
  }

  // As long as it lives, over any run, a context belongs to the same plugin with
  // the same handle and userdata, and has received what came in and no more.
  lemma {:induction false} ContextKept(s: State, run: seq<Action>, c: nat)
    requires Inv(s) && Possible(s, run) && c in s.m.ctxs && c in After(s, run).m.ctxs
    ensures var d, d' := s.m.ctxs[c], After(s, run).m.ctxs[c];
            && d'.plugin == d.plugin && d'.handle == d.handle && d'.userdata == d.userdata
            && d'.received == d.received + Bytes(run, c)
    decreases |run|
  {
    hide Apply, Enabled;
    if run != [] {
      var t := Apply(s, run[0]);
      StepInv(s, run[0]);
      InRange(s, c);
      DeletedStep(s, run[0], c);
      if c !in t.m.ctxs {
        StaysDeleted(t, run[1..], c);
      }
      FieldStep(s, run[0], c);
      ContextKept(t, run[1..], c);
    }
  }

  lemma InRange(s: State, c: nat)
    requires Inv(s) && c in s.m.ctxs
    ensures c < s.m.nextCtx
  {
  }

  // Starting and using a request
  // ----------------------------

  // A start of an idle request is recorded with the callback given and nothing
  // else, puts it in flight with that callback and, for a compressed post, with
  // a buffer: the copy of the data, or the output of a compression that worked,
  // with its header line if that could be appended.
  lemma StartMakes(s: State, handle: int, callback: int, kind: StartKind, c: nat)
    requires Inv(s) && Enabled(s, Start(handle, callback, kind))
    requires Lookup(s.m.table, handle) == Some(c) && !InFlight(s.m, c)
    ensures var t, k := Apply(s, Start(handle, callback, kind)), |s.h.runs|;
            && c in s.m.ctxs && c in t.m.ctxs && t.m.ctxs == s.m.ctxs[c := t.m.ctxs[c]]
            && t.h == s.h.(runs := s.h.runs + [Run(c, callback, false, None, Pending)],
                           current := s.h.current[c := k])
            && InFlight(t.m, c) && t == s.(m := t.m, h := t.h, native := WantJob(c))
            && var d, d' := s.m.ctxs[c], t.m.ctxs[c];
            && d'.callback == callback && d'.userdata == d.userdata && !d'.handleClosed
            && d'.headers == d.headers + (if kind.PostCompress? && kind.z.Packed? && kind.z.appended then 1 else 0)
            && d'.post == (if kind.Plain? then None
                           else if kind.z.Packed? then Some(s.m.nextBuf + 1) else Some(s.m.nextBuf))
  {
    hide BufOk, FifoOk, DrainOk, WakeOk, RunOk, CountOk, LockOk, PopOk, HeapOk, WhereOk, Finished, ValidTable;
    assert c in s.m.ctxs;
    assert Guarded(s.m, handle) == Some(c);
    assert s.m.ctxs[c].post.None? && !s.m.ctxs[c].handleClosed;
  }

  // No native but `Close` does anything to a request in flight or to a number
  // that leads nowhere.
  lemma GuardRefuses(s: State, handle: int, callback: int, kind: StartKind, headers: nat)
    requires Inv(s) && Enabled(s, Start(handle, callback, kind))
    requires var p := Lookup(s.m.table, handle); p.None? || InFlight(s.m, p.value)
    ensures Apply(s, Start(handle, callback, kind)) == s
    ensures Enabled(s, Use(handle, headers)) && Apply(s, Use(handle, headers)) == s
  {
  }

  lemma UseMakes(s: State, handle: int, headers: nat, c: nat)
    requires Inv(s) && Enabled(s, Use(handle, headers))
    requires Lookup(s.m.table, handle) == Some(c) && !InFlight(s.m, c)
    ensures c in s.m.ctxs
    ensures Apply(s, Use(handle, headers)) == s.(m := s.m.(ctxs := s.m.ctxs[c := s.m.ctxs[c].(headers := headers)]))
  {
    hide BufOk, FifoOk, DrainOk, WakeOk, PostOk, RunOk, CountOk, LockOk, PopOk, HeapOk, WhereOk;
    assert c in s.m.ctxs;
  }

  // What a native is about to push is what comes next in the queue: it is still
  // in the native's hands, or was pushed right after all that was there before.
  ghost predicate JobNext(s: State, c: nat, before: seq<nat>) {
    ((s.native == WantJob(c) || s.native == PushJob(c)) && s.h.jobsPushed == before)
    || before + [c] <= s.h.jobsPushed
  }

  ghost predicate OptionNext(s: State, o: Setting, before: seq<Setting>) {
    ((s.native == WantOpt(o) || s.native == PushOpt(o)) && s.h.optsPushed == before)
    || before + [o] <= s.h.optsPushed
  }

  lemma NextStep(s: State, a: Action)
    requires Enabled(s, a)
    ensures forall c, before :: JobNext(s, c, before) ==> JobNext(Apply(s, a), c, before)
    ensures forall o, before :: OptionNext(s, o, before) ==> OptionNext(Apply(s, a), o, before)
  {
    hide JobNext, OptionNext, Apply, Enabled;
    Pushed(s, a);
    forall c, before | JobNext(s, c, before) ensures JobNext(Apply(s, a), c, before) {
      JobStep(s, Apply(s, a), c, before);
    }
    forall o, before | OptionNext(s, o, before) ensures OptionNext(Apply(s, a), o, before) {
      OptionStep(s, Apply(s, a), o, before);
    }
  }

  // What an action makes of a native that has something in hand.
  ghost predicate Pushes(s: State, t: State) {
    && (match s.native
        case WantJob(c) => t.native == WantJob(c) || t.native == PushJob(c)
        case PushJob(c) => t.native == PushJob(c) || t.h.jobsPushed == s.h.jobsPushed + [c]
        case WantOpt(o) => t.native == WantOpt(o) || t.native == PushOpt(o)
        case PushOpt(o) => t.native == PushOpt(o) || t.h.optsPushed == s.h.optsPushed + [o]
        case _ => true)
    && (t.h.jobsPushed == s.h.jobsPushed
        || (s.native.PushJob? && t.native.LeaveJob? && t.h.jobsPushed == s.h.jobsPushed + [s.native.c]))
    && (t.h.optsPushed == s.h.optsPushed
        || (s.native.PushOpt? && t.native.LeaveOpt? && t.h.optsPushed == s.h.optsPushed + [s.native.o]))
  }

  lemma Pushed(s: State, a: Action)
    requires Enabled(s, a)
    ensures Pushes(s, Apply(s, a))
  {
    hide Apply, Enabled, Pushes;
    if OfEvent(a) {
      PushedEvent(s, a);
    } else {
      PushedGame(s, a);
    }
  }

  lemma PushedEvent(s: State, a: Action)
    requires Enabled(s, a) && OfEvent(a)
    ensures Pushes(s, Apply(s, a))
  {
    hide Apply, Enabled;
    EventPushesNone(s, a);
  }

  lemma EventPushesNone(s: State, a: Action)
    requires Enabled(s, a) && OfEvent(a)
    ensures var t := Apply(s, a);
            t.native == s.native && t.h.jobsPushed == s.h.jobsPushed && t.h.optsPushed == s.h.optsPushed
  {
    match a
    case PopJob => case EvPopOpt => case EnterCurl => case ApplyOpt =>
    case Finish(_, _) =>
    case _ => EventRests(s, a);
  }

  lemma EventRests(s: State, a: Action)
    requires Enabled(s, a) && OfEvent(a)
    requires !a.PopJob? && !a.EvPopOpt? && !a.EnterCurl? && !a.ApplyOpt? && !a.Finish?
    ensures Apply(s, a).native == s.native && Apply(s, a).h == s.h
  {
    hide FinishedIn, Received, DoStart, DoClose, DoComplete;
  }

  lemma PushedGame(s: State, a: Action)
    requires Enabled(s, a) && !OfEvent(a)
    ensures Pushes(s, Apply(s, a))
  {
    hide Create, Used, Free, StartedIn, Lookup, Guarded, OutcomeOf;
  }

  lemma JobStep(s: State, t: State, c: nat, before: seq<nat>)
    requires Pushes(s, t) && JobNext(s, c, before)
    ensures JobNext(t, c, before)
  {
    if before + [c] <= s.h.jobsPushed && t.h.jobsPushed != s.h.jobsPushed {
      assert s.h.jobsPushed <= t.h.jobsPushed;
    }
  }

  lemma OptionStep(s: State, t: State, o: Setting, before: seq<Setting>)
    requires Pushes(s, t) && OptionNext(s, o, before)
    ensures OptionNext(t, o, before)
  {
    if before + [o] <= s.h.optsPushed && t.h.optsPushed != s.h.optsPushed {
      assert s.h.optsPushed <= t.h.optsPushed;
    }
  }

  lemma {:induction false} NextAlong(s: State, run: seq<Action>)
    requires Possible(s, run)
    ensures forall c, before :: JobNext(s, c, before) ==> JobNext(After(s, run), c, before)
    ensures forall o, before :: OptionNext(s, o, before) ==> OptionNext(After(s, run), o, before)
    decreases |run|
  {
    hide JobNext, OptionNext, Apply, Enabled;
    if run != [] {
      NextStep(s, run[0]);
      NextAlong(Apply(s, run[0]), run[1..]);
    }
  }

  // In every run from a start on, the very request started is the next job
  // pushed, by the time the native has returned.
  lemma StartPushes(s: State, handle: int, callback: int, kind: StartKind, c: nat, run: seq<Action>)
    requires Inv(s) && Enabled(s, Start(handle, callback, kind))
    requires Lookup(s.m.table, handle) == Some(c) && !InFlight(s.m, c)
    requires Possible(Apply(s, Start(handle, callback, kind)), run)
    ensures var t := After(Apply(s, Start(handle, callback, kind)), run);
            t.native.NoNative? ==> s.h.jobsPushed + [c] <= t.h.jobsPushed
  {
    hide Inv, Apply, Enabled, Possible, After;
    var t := Apply(s, Start(handle, callback, kind));
    StartMakes(s, handle, callback, kind, c);
    assert JobNext(t, c, s.h.jobsPushed);
    NextAlong(t, run);
    assert JobNext(After(t, run), c, s.h.jobsPushed);
  }

  // In every run from an option change on, the very option given is the next
  // one pushed, by the time the native has returned.
  lemma OptionPushes(s: State, o: Setting, run: seq<Action>)
    requires Enabled(s, SetOption(o)) && Possible(Apply(s, SetOption(o)), run)
    ensures var t := After(Apply(s, SetOption(o)), run);
            t.native.NoNative? ==> s.h.optsPushed + [o] <= t.h.optsPushed
  {
    var t := Apply(s, SetOption(o));
    assert OptionNext(t, o, s.h.optsPushed);
    hide Apply, Enabled, Possible, After;
    NextAlong(t, run);
    assert OptionNext(After(t, run), o, s.h.optsPushed);
  }

  // Closing
  // -------

  // Closing an idle request deletes it at once; its number leads nowhere and is
  // the next to be given out, and nothing else changes.
  lemma CloseIdle(s: State, handle: int, c: nat)
    requires Inv(s) && Enabled(s, Close(handle))
    requires Lookup(s.m.table, handle) == Some(c) && !InFlight(s.m, c)
    ensures var t := Apply(s, Close(handle));
            && t == s.(m := t.m) && t.m.deleted == s.m.deleted + [c] && t.m.ctxs == s.m.ctxs - {c}
            && c in s.m.ctxs && c !in t.m.ctxs && Lookup(t.m.table, handle) == None
            && NextNumber(t.m.table) == handle
            && forall n :: n != handle ==> Lookup(t.m.table, n) == Lookup(s.m.table, n)
  {
    hide BufOk, FifoOk, DrainOk, WakeOk, PostOk, RunOk, CountOk, LockOk, PopOk, HeapOk, WhereOk, Freed, NextNumber;
    assert c in s.m.ctxs;
    FreeOk(s.m.table, handle);
    LookupTracks(s.m.table, 0, handle);
  }

  lemma CloseNothing(s: State, handle: int)
    requires Inv(s) && Enabled(s, Close(handle)) && Lookup(s.m.table, handle) == None
    ensures Apply(s, Close(handle)) == s
  {
  }

  // Completing
  // ----------

  // From s to t the start k of the context c ends: with a call of the plugin if
  // and only if its function was found and the handle was not closed meanwhile,
  // whatever came of the transfer. The context then stays; otherwise, and only
  // then, it is deleted. No other context changes.
  ghost predicate Ends(s: State, t: State, c: nat, k: nat, found: bool)
    requires c in s.m.ctxs && k < |s.h.runs|
  {
    && |t.h.runs| == |s.h.runs| && !t.h.runs[k].outcome.Pending?
    && (t.h.runs[k].outcome.Called? <==> found && !s.h.runs[k].closed)
    && t.q == s.q && t.native == s.native && t.loop == s.loop && t.plugins == s.plugins
    && (forall d :: d in s.m.ctxs && d != c ==> d in t.m.ctxs && t.m.ctxs[d] == s.m.ctxs[d])
    && if t.h.runs[k].outcome.Called?
       then && t.frame == Callback(k) && c in t.m.ctxs && t.m.ctxs[c] == s.m.ctxs[c].(inEventThread := false)
            && t.m.table == s.m.table && t.m.deleted == s.m.deleted
       else && t.frame.DoneTest? && c !in t.m.ctxs && t.m.deleted == s.m.deleted + [c]
            && Lookup(t.m.table, s.m.ctxs[c].handle) == None
  }

  lemma CompleteMakes(s: State, c: nat, found: bool, response: int)
    requires Inv(s) && Enabled(s, Complete(found, response)) && s.frame == DoneHave(c)
    ensures c in s.m.ctxs && c in s.h.current && s.h.current[c] < |s.h.runs|
    ensures Ends(s, Apply(s, Complete(found, response)), c, s.h.current[c], found)
  {
    hide BufOk, FifoOk, DrainOk, WakeOk, PostOk, CountOk, LockOk, PopOk, HeapOk, WhereOk, ValidTable, Freed, Report;
    CompleteShape(s, found, response);
    LookupTracks(s.m.table, 0, s.m.ctxs[c].handle);
  }

  // From the making of a request to a completion of it, over any run: a callback
  // goes to the plugin that made it, with the number and userdata it was made
  // with and, for a transfer that worked, all bytes that came in since.
  lemma ReportsOwn(s: State, plugin: nat, userdata: int, run: seq<Action>, found: bool, response: int)
    requires Inv(s) && Enabled(s, NewRequest(plugin, userdata)) && NextNumber(s.m.table) != 0
    requires Possible(Apply(s, NewRequest(plugin, userdata)), run)
    requires After(Apply(s, NewRequest(plugin, userdata)), run).frame == DoneHave(s.m.nextCtx)
    requires Enabled(After(Apply(s, NewRequest(plugin, userdata)), run), Complete(found, response))
    ensures var c, t := s.m.nextCtx, After(Apply(s, NewRequest(plugin, userdata)), run);
            && c in t.h.current && t.h.current[c] < |Apply(t, Complete(found, response)).h.runs|
            && var o := Apply(t, Complete(found, response)).h.runs[t.h.current[c]].outcome;
            o.Called? ==>
              && o.plugin == plugin && o.call.handle == NextNumber(s.m.table) && o.call.userdata == userdata
              && o.call.size == if o.call.curlcode == 0 then Bytes(run, c) else 0
  {
    var c, a, z := s.m.nextCtx, NewRequest(plugin, userdata), Complete(found, response);
    hide Inv, Apply, Enabled, Possible, After, Lookup, NextNumber, Ends, Bytes;
    NewMakes(s, plugin, userdata);
    StepInv(s, a);
    var u := Apply(s, a);
    RunInv(u, run);
    var t := After(u, run);
    CallReports(t, c, found, response);
    ContextKept(u, run, c);
  }

  lemma CallReports(s: State, c: nat, found: bool, response: int)
    requires Inv(s) && Enabled(s, Complete(found, response)) && s.frame == DoneHave(c)
    ensures c in s.m.ctxs && c in s.h.current && s.h.current[c] < |Apply(s, Complete(found, response)).h.runs|
    ensures var o, d := Apply(s, Complete(found, response)).h.runs[s.h.current[c]].outcome, s.m.ctxs[c];
            o.Called? ==>
              && o.plugin == d.plugin && o.call.handle == d.handle && o.call.userdata == d.userdata
              && o.call.size == if o.call.curlcode == 0 then d.received else 0
  {
    hide BufOk, FifoOk, DrainOk, WakeOk, PostOk, CountOk, LockOk, PopOk, HeapOk, TableOk, WhereOk, Apply;
    CompleteShape(s, found, response);
    OutcomeStep(s, Complete(found, response), s.h.current[c]);
  }

  // Plugins
  // -------

  lemma PluginStep(s: State, a: Action, p: nat)
    requires Enabled(s, a)
    ensures p in Apply(s, a).plugins <==> a == Load(p) || (p in s.plugins && a != Unload(p))
  {
    hide Create, Used, Free, Closed, Ended, StartedIn, FinishedIn, Received, Lookup, Guarded, OutcomeOf, Resulted;
  }

  // From s to t no callback into the plugin was added.
  ghost predicate NoNewCalls(s: State, t: State, p: nat) {
    && |s.h.runs| <= |t.h.runs|
    && forall k :: 0 <= k < |t.h.runs| && t.h.runs[k].outcome.Called? && t.h.runs[k].outcome.plugin == p ==>
         k < |s.h.runs| && s.h.runs[k].outcome == t.h.runs[k].outcome
  }

  lemma QuietStep(s: State, a: Action, p: nat)
    requires Inv(s) && Enabled(s, a) && p !in s.plugins
    ensures NoNewCalls(s, Apply(s, a), p)
  {
    hide Inv, Apply, Enabled;
    var t := Apply(s, a);
    RunsGrow(s, a);
    forall k | 0 <= k < |t.h.runs| && t.h.runs[k].outcome.Called? && t.h.runs[k].outcome.plugin == p
      ensures k < |s.h.runs| && s.h.runs[k].outcome == t.h.runs[k].outcome
    {
      if k < |s.h.runs| {
        OutcomeStep(s, a, k);
      }
    }
  }

  lemma RunsGrow(s: State, a: Action)
    requires Enabled(s, a)
    ensures var h, h' := s.h, Apply(s, a).h;
            |h.runs| <= |h'.runs| && forall k :: |h.runs| <= k < |h'.runs| ==> h'.runs[k].outcome.Pending?
  {
    if Stores(a) {
      hide Create, Used, Free, StartedIn, FinishedIn, Received, Lookup, OutcomeOf;
    } else {
      hide Apply, Enabled;
      StoreSame(s, a);
    }
  }

  ghost predicate NeverLoads(run: seq<Action>, p: nat) {
    forall i :: 0 <= i < |run| ==> run[i] != Load(p)
  }

  // While a plugin is not loaded nothing is called in it, over any run.
  lemma {:induction false} QuietRun(s: State, p: nat, run: seq<Action>)
    requires Inv(s) && Possible(s, run) && p !in s.plugins && NeverLoads(run, p)
    ensures p !in After(s, run).plugins && NoNewCalls(s, After(s, run), p)
    decreases |run|
  {
    hide Inv, Apply, Enabled;
    if run != [] {
      var t := Apply(s, run[0]);
      StepInv(s, run[0]);
      PluginStep(s, run[0], p);
      QuietStep(s, run[0], p);
      assert NeverLoads(run[1..], p) by {
        assert forall i :: 0 <= i < |run| - 1 ==> run[1..][i] == run[i + 1];
      }
      QuietRun(t, p, run[1..]);
    }
  }

  // After a plugin was unloaded, in every continuation until it is loaded again,
  // no start that was pending, and no later one, ends in a call of its functions.
  lemma UnloadedQuiet(s: State, p: nat, run: seq<Action>)
    requires Inv(s) && Enabled(s, Unload(p)) && Possible(Apply(s, Unload(p)), run) && NeverLoads(run, p)
    ensures var t := After(Apply(s, Unload(p)), run); p !in t.plugins && NoNewCalls(s, t, p)
  {
    hide Inv, Apply, Enabled, Possible, After;
    PluginStep(s, Unload(p), p);
    StepInv(s, Unload(p));
    StoreSame(s, Unload(p));
    QuietRun(Apply(s, Unload(p)), p, run);
  }
}
