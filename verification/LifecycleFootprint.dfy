/** Which contexts an action depends on at all: what it reads and writes, shown
    on the actions themselves. */
module LifecycleFootprint {
  import opened Options
  import opened Sequences
  import opened Handles
  import opened Contexts
  import opened Lifecycle
  import opened LifecycleInv
  import opened LifecycleTheorems

  // The same state but for one context.
  ghost function With(s: State, c: nat, d: Context): State {
    s.(m := s.m.(ctxs := s.m.ctxs[c := d]))
  }

  // The same context but for the flags in_event_thread and handle_closed.
  ghost function Marked(d: Context, inEvent: bool, closed: bool): Context {
    d.(inEventThread := inEvent, handleClosed := closed)
  }

  // Two states of the store that differ in the order of freed buffers only.
  ghost predicate SameStore(m: Store, m': Store) {
    m.(freed := []) == m'.(freed := []) && multiset(m.freed) == multiset(m'.freed)
  }

  // Contexts out of reach
  // ---------------------

  // An action neither reads nor writes a context that it does not touch: with
  // any other contents there it does the same to all the rest, and leaves those
  // contents.
  lemma Ignored(s: State, a: Action, c: nat, d: Context)
    requires Inv(s) && Enabled(s, a) && c in s.m.ctxs && c !in Touches(s, a)
    ensures Enabled(With(s, c, d), a) && c in Apply(s, a).m.ctxs
    ensures Apply(With(s, c, d), a) == With(Apply(s, a), c, d)
    ensures Apply(s, a).m.ctxs[c] == s.m.ctxs[c]
  {
    hide BufOk, FifoOk, DrainOk, WakeOk, PostOk, RunOk, CountOk, LockOk, PopOk, WhereOk, Apply, Enabled;
    if !Stores(a) {
      IgnoredByOthers(s, a, c, d);
    } else if OfEvent(a) {
      IgnoredByEvent(s, a, c, d);
    } else {
      IgnoredByGame(s, a, c, d);
    }
  }

  lemma IgnoredByOthers(s: State, a: Action, c: nat, d: Context)
    requires Enabled(s, a) && !Stores(a) && c in s.m.ctxs
    ensures Enabled(With(s, c, d), a) && Apply(s, a).m == s.m
    ensures Apply(With(s, c, d), a) == With(Apply(s, a), c, d)
  {
    hide Apply, Enabled;
    StoreSame(s, a);
    if OfEvent(a) {
      IgnoredQuietEvent(s, a, c, d);
    } else {
      IgnoredQuietGame(s, a, c, d);
    }
  }

  lemma IgnoredQuietEvent(s: State, a: Action, c: nat, d: Context)
    requires Enabled(s, a) && !Stores(a) && OfEvent(a) && c in s.m.ctxs
    ensures Enabled(With(s, c, d), a) && Apply(With(s, c, d), a) == With(Apply(s, a), c, d)
  {
    hide FinishedIn, Received, DoStart, DoClose, DoComplete;
    match a
    case PopJob => case EvPopOpt => case TestJob => case TestOpt => case EnterCurl => case ApplyOpt =>
    case PushDone =>
    case _ =>
  }

  lemma IgnoredQuietGame(s: State, a: Action, c: nat, d: Context)
    requires Enabled(s, a) && !Stores(a) && !OfEvent(a) && c in s.m.ctxs
    ensures Enabled(With(s, c, d), a) && Apply(With(s, c, d), a) == With(Apply(s, a), c, d)
  {
    hide Create, Used, DoStart, DoClose, DoComplete;
  }

  lemma IgnoredByEvent(s: State, a: Action, c: nat, d: Context)
    requires Enabled(s, a) && OfEvent(a) && Stores(a) && c in s.m.ctxs && c !in Touches(s, a)
    ensures Enabled(With(s, c, d), a) && c in Apply(s, a).m.ctxs
    ensures Apply(With(s, c, d), a) == With(Apply(s, a), c, d)
    ensures Apply(s, a).m.ctxs[c] == s.m.ctxs[c]
  {
    if a.c in s.m.ctxs {
      Swap(s.m.ctxs, a.c, Apply(s, a).m.ctxs[a.c], c, d);
    }
  }

  lemma IgnoredByGame(s: State, a: Action, c: nat, d: Context)
    requires HeapOk(s.m) && TableOk(s.m) && Enabled(s, a) && !OfEvent(a) && Stores(a)
    requires c in s.m.ctxs && c !in Touches(s, a)
    ensures Enabled(With(s, c, d), a) && c in Apply(s, a).m.ctxs
    ensures Apply(With(s, c, d), a) == With(Apply(s, a), c, d)
    ensures Apply(s, a).m.ctxs[c] == s.m.ctxs[c]
  {
    hide HeapOk, TableOk, Create, Free, Used, StartedIn, DoComplete;
    match a
    case NewRequest(plugin, userdata) => IgnoredCreate(s.m, plugin, userdata, c, d);
    case Close(handle) => IgnoredClose(s, handle, c, d);
    case Use(handle, headers) => IgnoredUse(s.m, handle, headers, c, d);
    case Start(handle, callback, kind) => IgnoredStart(s, handle, callback, kind, c, d);
    case Complete(found, response) => IgnoredComplete(s, found, response, c, d);
    case _ =>
  }

  lemma IgnoredClose(s: State, handle: int, c: nat, d: Context)
    requires c in s.m.ctxs && Lookup(s.m.table, handle) != Some(c)
    ensures DoClose(With(s, c, d), handle) == With(DoClose(s, handle), c, d)
    ensures c in DoClose(s, handle).m.ctxs && DoClose(s, handle).m.ctxs[c] == s.m.ctxs[c]
  {
    hide Free, Closed;
    IgnoredFree(s.m, handle, c, d);
    var p := Lookup(s.m.table, handle);
    if p.Some? && p.value in s.m.ctxs {
      Swap(s.m.ctxs, p.value, s.m.ctxs[p.value].(handleClosed := true), c, d);
    }
  }

  lemma IgnoredUse(m: Store, handle: int, headers: nat, c: nat, d: Context)
    requires c in m.ctxs && Lookup(m.table, handle) != Some(c)
    ensures Used(m.(ctxs := m.ctxs[c := d]), handle, headers)
         == Used(m, handle, headers).(ctxs := Used(m, handle, headers).ctxs[c := d])
    ensures c in Used(m, handle, headers).ctxs && Used(m, handle, headers).ctxs[c] == m.ctxs[c]
  {
    hide Lookup;
    var p := Guarded(m, handle);
    if p.Some? {
      Swap(m.ctxs, p.value, m.ctxs[p.value].(headers := headers), c, d);
    }
  }

  lemma IgnoredStart(s: State, handle: int, callback: int, kind: StartKind, c: nat, d: Context)
    requires c in s.m.ctxs && Lookup(s.m.table, handle) != Some(c)
    ensures DoStart(With(s, c, d), handle, callback, kind) == With(DoStart(s, handle, callback, kind), c, d)
    ensures var m := DoStart(s, handle, callback, kind).m; c in m.ctxs && m.ctxs[c] == s.m.ctxs[c]
  {
    hide Lookup, StartedIn;
    var p := Guarded(s.m, handle);
    if p.Some? {
      IgnoredStarted(s.m, p.value, callback, kind, c, d);
    }
  }

  lemma IgnoredStarted(m: Store, p: nat, callback: int, kind: StartKind, c: nat, d: Context)
    requires c in m.ctxs && p in m.ctxs && p != c
    ensures var t := StartedIn(m, p, callback, kind);
            && StartedIn(m.(ctxs := m.ctxs[c := d]), p, callback, kind) == t.(ctxs := t.ctxs[c := d])
            && c in t.ctxs && t.ctxs[c] == m.ctxs[c]
  {
    hide Started, FreedByStart;
    Swap(m.ctxs, p, StartedIn(m, p, callback, kind).ctxs[p], c, d);
  }

  lemma Swap(f: map<nat, Context>, c: nat, x: Context, d: nat, y: Context)
    requires c != d
    ensures f[c := x][d := y] == f[d := y][c := x]
  {
  }

  lemma SwapOut(f: map<nat, Context>, c: nat, d: nat, y: Context)
    requires c != d
    ensures f[d := y] - {c} == (f - {c})[d := y]
  {
  }

  lemma IgnoredCreate(m: Store, plugin: nat, userdata: int, c: nat, d: Context)
    requires HeapOk(m) && c in m.ctxs
    ensures Create(m.(ctxs := m.ctxs[c := d]), plugin, userdata)
         == Create(m, plugin, userdata).(ctxs := Create(m, plugin, userdata).ctxs[c := d])
    ensures c in Create(m, plugin, userdata).ctxs && Create(m, plugin, userdata).ctxs[c] == m.ctxs[c]
  {
    Swap(m.ctxs, m.nextCtx, Fresh(plugin, NextNumber(m.table), userdata), c, d);
  }

  lemma IgnoredFree(m: Store, handle: int, c: nat, d: Context)
    requires c in m.ctxs && Lookup(m.table, handle) != Some(c)
    ensures var p := Lookup(m.table, handle); var m' := m.(ctxs := m.ctxs[c := d]);
            && Free(m', handle) == Free(m, handle).(ctxs := Free(m, handle).ctxs[c := d])
            && c in Free(m, handle).ctxs && Free(m, handle).ctxs[c] == m.ctxs[c]
  {
    hide Freed;
    var p := Lookup(m.table, handle);
    if p.Some? {
      SwapOut(m.ctxs, p.value, c, d);
    }
  }

  lemma IgnoredComplete(s: State, found: bool, response: int, c: nat, d: Context)
    requires TableOk(s.m) && s.frame.DoneHave? && c in s.m.ctxs && c != s.frame.c
    ensures DoComplete(With(s, c, d), found, response) == With(DoComplete(s, found, response), c, d)
    ensures var m := DoComplete(s, found, response).m; c in m.ctxs && m.ctxs[c] == s.m.ctxs[c]
  {
    hide Freed, Ended, OutcomeOf, ValidTable;
    var x := s.frame.c;
    if x in s.m.ctxs {
      Swap(s.m.ctxs, x, Returned(s.m.ctxs[x]), c, d);
      var m := s.m.(ctxs := s.m.ctxs[x := Returned(s.m.ctxs[x])]);
      assert Lookup(m.table, m.ctxs[x].handle) == Some(x);
      IgnoredFree(m, m.ctxs[x].handle, c, d);
    }
  }

  // An action neither reads nor writes the data of a context whose data it does
  // not touch: not even `Close`, which may set a flag there.
  lemma DataUnread(s: State, a: Action, c: nat, d: Context)
    requires Inv(s) && Enabled(s, a) && c in s.m.ctxs && c !in DataTouched(s, a)
    requires d.inEventThread == s.m.ctxs[c].inEventThread && d.handleClosed == s.m.ctxs[c].handleClosed
    ensures Enabled(With(s, c, d), a) && c in Apply(s, a).m.ctxs
    ensures var x := Apply(s, a).m.ctxs[c];
            && Apply(With(s, c, d), a) == With(Apply(s, a), c, Marked(d, x.inEventThread, x.handleClosed))
            && x == Marked(s.m.ctxs[c], x.inEventThread, x.handleClosed)
  {
    hide Inv, Enabled, Apply, DataTouched;
    if c !in Touches(s, a) {
      Ignored(s, a, c, d);
      assert Marked(d, d.inEventThread, d.handleClosed) == d;
    } else {
      OnlyMarked(s, a, c, d);
    }
  }

  lemma OnlyMarked(s: State, a: Action, c: nat, d: Context)
    requires Enabled(s, a) && c in s.m.ctxs && c !in DataTouched(s, a) && c in Touches(s, a)
    requires d.inEventThread == s.m.ctxs[c].inEventThread && d.handleClosed == s.m.ctxs[c].handleClosed
    ensures Enabled(With(s, c, d), a) && c in Apply(s, a).m.ctxs
    ensures var x := Apply(s, a).m.ctxs[c];
            && Apply(With(s, c, d), a) == With(Apply(s, a), c, Marked(d, x.inEventThread, x.handleClosed))
            && x == Marked(s.m.ctxs[c], x.inEventThread, x.handleClosed)
  {
    hide Closed, Create, Free, StartedIn;
    assert a.Close? || a.Use? || a.Start?;
    assert InFlight(s.m, c);
    if a.Close? {
      assert s.m.ctxs[c := d][c := d.(handleClosed := true)] == s.m.ctxs[c := d.(handleClosed := true)];
      assert s.m.ctxs[c := s.m.ctxs[c].(handleClosed := true)][c := d.(handleClosed := true)]
          == s.m.ctxs[c := d.(handleClosed := true)];
    } else {
      assert d == Marked(d, d.inEventThread, d.handleClosed);
    }
  }

  // The event thread neither reads nor writes the two flags of any context.
  lemma FlagsUnseen(s: State, a: Action, c: nat, inEvent: bool, closed: bool)
    requires Inv(s) && Enabled(s, a) && OfEvent(a) && c in s.m.ctxs
    ensures var s' := With(s, c, Marked(s.m.ctxs[c], inEvent, closed));
            && Enabled(s', a) && c in Apply(s, a).m.ctxs
            && Apply(s', a) == With(Apply(s, a), c, Marked(Apply(s, a).m.ctxs[c], inEvent, closed))
  {
    hide Inv, Apply, Enabled;
    if c !in Touches(s, a) {
      Ignored(s, a, c, Marked(s.m.ctxs[c], inEvent, closed));
    } else {
      FlagsKept(s, a, c, inEvent, closed);
    }
  }

  lemma FlagsKept(s: State, a: Action, c: nat, inEvent: bool, closed: bool)
    requires Enabled(s, a) && OfEvent(a) && c in s.m.ctxs && c in Touches(s, a)
    ensures var s' := With(s, c, Marked(s.m.ctxs[c], inEvent, closed));
            && Enabled(s', a) && c in Apply(s, a).m.ctxs
            && Apply(s', a) == With(Apply(s, a), c, Marked(Apply(s, a).m.ctxs[c], inEvent, closed))
  {
    match a
    case Receive(_, bytes) => FlagsTransfer(s, a, c, inEvent, closed);
    case Finish(_, result) => FlagsTransfer(s, a, c, inEvent, closed);
    case EnterCurl =>
    case _ =>
  }

  lemma FlagsTransfer(s: State, a: Action, c: nat, inEvent: bool, closed: bool)
    requires Enabled(s, a) && (a.Receive? || a.Finish?) && a.c == c && c in s.m.ctxs
    ensures var s' := With(s, c, Marked(s.m.ctxs[c], inEvent, closed));
            && Enabled(s', a) && c in Apply(s, a).m.ctxs
            && Apply(s', a) == With(Apply(s, a), c, Marked(Apply(s, a).m.ctxs[c], inEvent, closed))
  {
    hide Resulted;
    var x, y := Apply(s, a).m.ctxs[c], Marked(s.m.ctxs[c], inEvent, closed);
    Twice(s.m.ctxs, c, x, y, inEvent, closed);
  }

  lemma Twice(f: map<nat, Context>, c: nat, x: Context, y: Context, inEvent: bool, closed: bool)
    ensures f[c := x][c := Marked(x, inEvent, closed)] == f[c := y][c := Marked(x, inEvent, closed)]
  {
  }

  // The two threads at once
  // -----------------------

  // A transfer's data coming in or its end, as far as the store goes.
  ghost function Transfer(m: Store, b: Action): Store
    requires b.Receive? || b.Finish?
  {
    if b.c !in m.ctxs then m else
      match b
      case Receive(c, bytes) => Received(m, c, bytes)
      case Finish(c, result) => FinishedIn(m, c, result)
  }

  // The post buffer that this frees.
  ghost function Gone(m: Store, b: Action): seq<nat>
    requires (b.Receive? || b.Finish?) && b.c in m.ctxs
  {
    if b.Finish? then FreedByCompletion(m.ctxs[b.c].(curlcode := b.result)) else []
  }

  lemma TransferIs(m: Store, b: Action)
    requires (b.Receive? || b.Finish?) && b.c in m.ctxs
    ensures b.c in Transfer(m, b).ctxs && Transfer(m, b).ctxs[b.c].inEventThread == m.ctxs[b.c].inEventThread
    ensures Transfer(m, b) == m.(ctxs := m.ctxs[b.c := Transfer(m, b).ctxs[b.c]],
                                 bufs := m.bufs - Elements(Gone(m, b)), freed := m.freed + Gone(m, b))
  {
  }

  // What a transfer does to its context depends on nothing but the data there.
  lemma TransferSame(m: Store, m': Store, b: Action)
    requires (b.Receive? || b.Finish?) && b.c in m.ctxs && b.c in m'.ctxs
    requires m'.ctxs[b.c] == Marked(m.ctxs[b.c], m'.ctxs[b.c].inEventThread, m'.ctxs[b.c].handleClosed)
    ensures Gone(m', b) == Gone(m, b)
    ensures Transfer(m', b).ctxs[b.c]
         == Marked(Transfer(m, b).ctxs[b.c], m'.ctxs[b.c].inEventThread, m'.ctxs[b.c].handleClosed)
  {
  }

  lemma EventEffect(s: State, b: Action)
    requires Enabled(s, b) && OfEvent(b)
    ensures Apply(s, b).frame == s.frame
    ensures Apply(s, b).m == if Stores(b) then Transfer(s.m, b) else s.m
  {
    hide Resulted, Received, FinishedIn, DoStart, DoClose, DoComplete;
    match b
    case Receive(_, _) =>
    case Finish(_, _) =>
    case _ => StoreSame(s, b);
  }

  // What an action of the game thread does to the store depends on the store
  // and on the request in hand.
  lemma GameEffect(s: State, s': State, a: Action)
    requires Enabled(s, a) && Enabled(s', a) && !OfEvent(a) && s'.m == s.m && s'.frame == s.frame
    ensures Apply(s', a).m == Apply(s, a).m
  {
    if !Stores(a) {
      hide Apply, Enabled;
      StoreSame(s, a);
      StoreSame(s', a);
    }
  }

  // Buffers freed meanwhile by others make no difference to it.
  lemma GameBuffers(s: State, s': State, a: Action, gone: seq<nat>)
    requires Enabled(s, a) && Enabled(s', a) && !OfEvent(a) && Stores(a) && s'.frame == s.frame
    requires s'.m == s.m.(bufs := s.m.bufs - Elements(gone), freed := s.m.freed + gone)
    requires forall x :: x in gone ==> x < s.m.nextBuf
    ensures var m, m' := Apply(s, a).m, Apply(s', a).m;
            && m' == m.(bufs := m.bufs - Elements(gone), freed := m'.freed)
            && multiset(m'.freed) == multiset(m.freed + gone)
  {
    if a.Start? {
      hide StartedIn;
      var p := Guarded(s.m, a.handle);
      if p.Some? {
        StartBuffersApart(s.m, s'.m, p.value, a.callback, a.kind, gone);
      }
    } else {
      hide Apply, Enabled;
      PlainBuffers(s, s', a, gone);
    }
  }

  lemma PlainBuffers(s: State, s': State, a: Action, gone: seq<nat>)
    requires Enabled(s, a) && Enabled(s', a) && !OfEvent(a) && Stores(a) && !a.Start? && s'.frame == s.frame
    requires s'.m == s.m.(bufs := s.m.bufs - Elements(gone), freed := s.m.freed + gone)
    ensures var m := Apply(s, a).m;
            Apply(s', a).m == m.(bufs := m.bufs - Elements(gone), freed := m.freed + gone)
  {
    hide Lookup, Closed, Ended, OutcomeOf, Allocated, Freed, NextNumber, DoStart;
    match a
    case NewRequest(_, _) =>
    case Close(_) =>
    case Use(_, _) =>
    case Complete(_, _) =>
    case _ =>
  }

  lemma StartBuffersApart(m: Store, m': Store, c: nat, callback: int, kind: StartKind, gone: seq<nat>)
    requires c in m.ctxs && m' == m.(bufs := m.bufs - Elements(gone), freed := m.freed + gone)
    requires forall x :: x in gone ==> x < m.nextBuf
    ensures var t, t' := StartedIn(m, c, callback, kind), StartedIn(m', c, callback, kind);
            && t' == t.(bufs := t.bufs - Elements(gone), freed := t'.freed)
            && multiset(t'.freed) == multiset(t.freed + gone)
  {
    var own := StartFrees(m, c, callback, kind);
    assert StartFrees(m', c, callback, kind) == own;
    MadeApart(m, kind, gone);
    hide StartFrees, NewBuffers, Elements;
    StartSplit(m, c, callback, kind);
    StartSplit(m', c, callback, kind);
    Regroup(m.freed, gone, own);
    SetsApart(m.bufs, NewBuffers(m, kind), Elements(own), Elements(gone));
  }

  ghost function StartFrees(m: Store, c: nat, callback: int, kind: StartKind): seq<nat>
    requires c in m.ctxs
  {
    var ready := m.ctxs[c].(callback := callback, post := if kind.Plain? then m.ctxs[c].post else Some(m.nextBuf));
    FreedByStart(ready, CompressionOf(m, kind))
  }

  lemma MadeApart(m: Store, kind: StartKind, gone: seq<nat>)
    requires forall x :: x in gone ==> x < m.nextBuf
    ensures NewBuffers(m, kind) !! Elements(gone)
  {
  }

  lemma StartSplit(m: Store, c: nat, callback: int, kind: StartKind)
    requires c in m.ctxs
    ensures var t, own := StartedIn(m, c, callback, kind), StartFrees(m, c, callback, kind);
            && t.bufs == m.bufs + NewBuffers(m, kind) - Elements(own) && t.freed == m.freed + own
  {
    hide Started, NewBuffers, FreedByStart, CompressionOf, Elements;
  }

  lemma Regroup(f: seq<nat>, g: seq<nat>, h: seq<nat>)
    ensures multiset(f + g + h) == multiset(f + h + g)
  {
  }

  lemma SetsApart(bufs: set<nat>, made: set<nat>, own: set<nat>, gone: set<nat>)
    requires made !! gone
    ensures bufs - gone + made - own == bufs + made - own - gone
  {
  }

  // The two threads never race for the store: an action of each that could both
  // happen now can still happen after the other, and the store is the same
  // either way.
  lemma Commute(s: State, a: Action, b: Action)
    requires Inv(s) && Enabled(s, a) && Enabled(s, b) && !OfEvent(a) && OfEvent(b)
    ensures Stores(a) || Stores(b) ==> Enabled(Apply(s, a), b) && Enabled(Apply(s, b), a)
    ensures Enabled(Apply(s, a), b) && Enabled(Apply(s, b), a) ==>
              SameStore(Apply(Apply(s, a), b).m, Apply(Apply(s, b), a).m)
  {
    hide Inv, Apply, Enabled, SameStore;
    if Stores(a) {
      StillAfterGame(s, a, b);
      StillAfterEvent(s, a, b);
    } else if Stores(b) {
      StillAfterEvent(s, a, b);
      StillAfterGame(s, a, b);
    }
    if Enabled(Apply(s, a), b) && Enabled(Apply(s, b), a) {
      EventEffect(s, b);
      EventEffect(Apply(s, a), b);
      if !Stores(b) {
        GameEffect(s, Apply(s, b), a);
        assert SameStore(Apply(s, a).m, Apply(s, a).m) by { Itself(Apply(s, a).m); }
      } else if !Stores(a) {
        StoreSame(s, a);
        StoreSame(Apply(s, b), a);
        assert SameStore(Apply(s, b).m, Apply(s, b).m) by { Itself(Apply(s, b).m); }
      } else {
        CommuteStores(s, a, b);
      }
    }
  }

  lemma Itself(m: Store)
    ensures SameStore(m, m)
  {
  }

  lemma StillAfterGame(s: State, a: Action, b: Action)
    requires Enabled(s, a) && Enabled(s, b) && !OfEvent(a) && OfEvent(b) && (Stores(a) || Stores(b))
    ensures Enabled(Apply(s, a), b)
  {
    hide Apply;
    GameLeaves(s, a);
  }

  // The parts of the state that the event thread's next action hangs on.
  lemma GameLeaves(s: State, a: Action)
    requires Enabled(s, a) && !OfEvent(a)
    ensures Apply(s, a).loop == s.loop && Apply(s, a).q.curl == s.q.curl
    ensures Stores(a) ==> Apply(s, a).q == s.q
  {
    hide Create, Used, Free, Closed, Ended, StartedIn, Lookup, Guarded, OutcomeOf;
  }

  lemma StillAfterEvent(s: State, a: Action, b: Action)
    requires Enabled(s, a) && Enabled(s, b) && !OfEvent(a) && OfEvent(b) && (Stores(a) || Stores(b))
    ensures Enabled(Apply(s, b), a)
  {
    hide Apply;
    EventKeeps(s, b);
  }

  lemma EventKeeps(s: State, b: Action)
    requires Enabled(s, b) && OfEvent(b)
    ensures Apply(s, b).frame == s.frame && Apply(s, b).native == s.native && Apply(s, b).plugins == s.plugins
    ensures forall c :: c in s.m.ctxs ==> c in Apply(s, b).m.ctxs && Apply(s, b).m.ctxs[c].plugin == s.m.ctxs[c].plugin
    ensures Stores(b) ==> var q := Apply(s, b).q;
              q.jobLock == s.q.jobLock && q.optLock == s.q.optLock && q.doneLock == s.q.doneLock
  {
    hide Resulted, DoStart, DoClose, DoComplete;
    match b
    case Receive(_, _) =>
    case Finish(_, _) =>
    case _ => StoreSame(s, b);
  }

  lemma CommuteStores(s: State, a: Action, b: Action)
    requires Inv(s) && Enabled(s, a) && Enabled(s, b) && !OfEvent(a) && OfEvent(b) && Stores(a) && Stores(b)
    requires Enabled(Apply(s, a), b) && Enabled(Apply(s, b), a)
    ensures SameStore(Transfer(Apply(s, a).m, b), Apply(Apply(s, b), a).m)
  {
    hide Inv, Apply, Enabled, DataTouched, Transfer, Gone;
    var c := b.c;
    Running(s, a, b);
    TransferIs(s.m, b);
    var x, gone := Transfer(s.m, b).ctxs[c], Gone(s.m, b);
    DataUnread(s, a, c, x);
    EventEffect(s, b);
    GameBuffers(With(s, c, x), Apply(s, b), a, gone);
    TransferSame(s.m, Apply(s, a).m, b);
    TransferIs(Apply(s, a).m, b);
  }

  // What is known of a transfer that can go on, beside an action of the game
  // thread.
  lemma Running(s: State, a: Action, b: Action)
    requires Inv(s) && Enabled(s, a) && Enabled(s, b) && !OfEvent(a) && OfEvent(b) && Stores(b)
    ensures b.c in s.m.ctxs && b.c !in DataTouched(s, a)
    ensures forall x :: x in Gone(s.m, b) ==> x < s.m.nextBuf
    ensures b.c in s.m.ctxs && Transfer(s.m, b).ctxs.Keys == s.m.ctxs.Keys
    ensures var x := Transfer(s.m, b).ctxs[b.c];
            x.inEventThread == s.m.ctxs[b.c].inEventThread && x.handleClosed == s.m.ctxs[b.c].handleClosed
  {
    hide FifoOk, DrainOk, WakeOk, PostOk, RunOk, CountOk, LockOk, PopOk, HeapOk, TableOk, WhereOk;
    AtCurl(s, b.c);
    HandsOff(s, a, b.c);
    assert PostOf(s.m, b.c) == s.m.ctxs[b.c].post;
  }
}
