/** The life of requests across the game thread and the event thread, as a
    transition system: one action for every access to what the threads share. */
module Lifecycle {
  import opened Options
  import opened Sequences
  import opened Handles
  import opened Contexts

  datatype Thread = Game | Event

  datatype Setting = Setting(key: int, value: int)

  /** Where the game thread is in OnGameFrame. Plugin code runs between frames
      (Idle) and in callbacks (Callback). */
  datatype Frame =
    | Idle
    | SignalAdd               // saw queued jobs, about to wake the event thread
    | CheckDone               // about to look whether requests are done
    | WantDone                // waits for the done lock
    | DoneTest | DonePop      // in the drain loop
    | DoneHave(c: nat)        // popped, about to complete it
    | Callback(run: nat)      // in a plugin's callback
    | DoneLeave               // drained, about to unlock

  /** Where the game thread is in a native that takes a lock. */
  datatype Native =
    | NoNative
    | WantJob(c: nat) | PushJob(c: nat) | LeaveJob
    | WantOpt(o: Setting) | PushOpt(o: Setting) | LeaveOpt | SignalOpt

  /** Where the event thread is. */
  datatype Loop =
    | Waiting
    | AddWant | AddTest | AddPop | AddHave(c: nat) | AddLeave
    | OptWant | OptTest | OptPop | OptHave(o: Setting) | OptLeave
    | FinWant(c: nat) | FinPush(c: nat) | FinLeave

  /** What became of a start: a call of the plugin's function, with what it was
      given, or nothing. */
  datatype Outcome = Pending | Called(plugin: nat, callback: int, call: Call) | Dropped

  /** One start of a request, with the callback given, whether the handle was
      closed while it was in flight, and the result of its transfer. */
  datatype Run = Run(ctx: nat, callback: int, closed: bool, result: Option<int>, outcome: Outcome)

  /** Contexts and post buffers, the live ones and the freed ones in order, and
      the handle table. */
  datatype Store = Store(
    ctxs: map<nat, Context>, deleted: seq<nat>, nextCtx: nat,
    bufs: set<nat>, freed: seq<nat>, nextBuf: nat,
    table: Table)

  /** The three queues with their locks, the wake-up signals, and the set of
      transfers that curl works on. */
  datatype Shared = Shared(
    jobs: seq<nat>, done: seq<nat>, opts: seq<Setting>,
    jobLock: Option<Thread>, doneLock: Option<Thread>, optLock: Option<Thread>,
    addPending: bool, optPending: bool, curl: set<nat>)

  /** What happened so far: all starts, the start each request in flight belongs
      to, what went through the queues, and for the drain of the done queue what
      was there at first and what has been completed. */
  datatype History = History(
    runs: seq<Run>, current: map<nat, nat>,
    jobsPushed: seq<nat>, jobsEntered: seq<nat>,
    optsPushed: seq<Setting>, optsApplied: seq<Setting>,
    snapshot: seq<nat>, processed: seq<nat>)

  datatype State = State(
    m: Store, q: Shared, h: History, plugins: set<nat>,
    frame: Frame, native: Native, loop: Loop)

  ghost function Init(plugins: set<nat>): State {
    State(Store(map[], [], 0, {}, [], 0, EMPTY_TABLE),
          Shared([], [], [], None, None, None, false, false, {}),
          History([], map[], [], [], [], [], [], []),
          plugins, Idle, NoNative, Waiting)
  }

  datatype StartKind = Plain | PostCompress(z: Packing)

  /** The outcome of OnCurlStarted's compression. */
  datatype Packing = PackNoMemory | PackFailed | Packed(appended: bool)

  datatype Action =
    // natives and plugin events
    | NewRequest(plugin: nat, userdata: int)
    | Close(handle: int)
    | Use(handle: int, headers: nat)
    | Start(handle: int, callback: int, kind: StartKind)
    | LockJob | DoPushJob | UnlockJob
    | SetOption(o: Setting) | LockOpt | DoPushOpt | UnlockOpt | DoSignalOpt
    | Load(plugin: nat) | Unload(plugin: nat)
    // OnGameFrame
    | BeginFrame | DoSignalAdd | LookDone | LockDone | TestDone | PopDone
    | Complete(found: bool, response: int) | Return | UnlockDone
    // the event thread
    | TakeAdd | EvLockJob | TestJob | PopJob | EnterCurl | EvUnlockJob
    | TakeOpt | EvLockOpt | TestOpt | EvPopOpt | ApplyOpt | EvUnlockOpt
    | Receive(c: nat, bytes: nat)
    | Finish(c: nat, result: int) | EvLockDone | PushDone | EvUnlockDone

  predicate OfEvent(a: Action) {
    a.TakeAdd? || a.EvLockJob? || a.TestJob? || a.PopJob? || a.EnterCurl? || a.EvUnlockJob?
    || a.TakeOpt? || a.EvLockOpt? || a.TestOpt? || a.EvPopOpt? || a.ApplyOpt? || a.EvUnlockOpt?
    || a.Receive? || a.Finish? || a.EvLockDone? || a.PushDone? || a.EvUnlockDone?
  }

  // Plugin code decides to do this.
  predicate Chosen(a: Action) {
    a.NewRequest? || a.Close? || a.Use? || a.Start? || a.SetOption? || a.Load? || a.Unload?
  }

  // Plugin code can run.
  ghost predicate PluginTurn(s: State) {
    (s.frame.Idle? || s.frame.Callback?) && s.native.NoNative?
  }

  ghost predicate Enabled(s: State, a: Action) {
    match a
    case NewRequest(_, _) => PluginTurn(s)
    case Close(_) => PluginTurn(s)
    case Use(_, _) => PluginTurn(s)
    case Start(_, _, _) => PluginTurn(s)
    case LockJob => s.native.WantJob? && s.q.jobLock.None?
    case DoPushJob => s.native.PushJob?
    case UnlockJob => s.native.LeaveJob?
    case SetOption(_) => PluginTurn(s)
    case LockOpt => s.native.WantOpt? && s.q.optLock.None?
    case DoPushOpt => s.native.PushOpt?
    case UnlockOpt => s.native.LeaveOpt?
    case DoSignalOpt => s.native.SignalOpt?
    case Load(_) => PluginTurn(s)
    case Unload(_) => PluginTurn(s)
    case BeginFrame => s.frame.Idle? && s.native.NoNative?
    case DoSignalAdd => s.frame.SignalAdd?
    case LookDone => s.frame.CheckDone?
    case LockDone => s.frame.WantDone? && s.q.doneLock.None?
    case TestDone => s.frame.DoneTest?
    case PopDone => s.frame.DonePop?
    case Complete(found, _) => s.frame.DoneHave? &&
      // a function is looked up only in a loaded plugin
      (found ==> s.frame.c in s.m.ctxs && s.m.ctxs[s.frame.c].plugin in s.plugins)
    case Return => s.frame.Callback? && s.native.NoNative?
    case UnlockDone => s.frame.DoneLeave?
    case TakeAdd => s.loop.Waiting? && s.q.addPending
    case EvLockJob => s.loop.AddWant? && s.q.jobLock.None?
    case TestJob => s.loop.AddTest?
    case PopJob => s.loop.AddPop?
    case EnterCurl => s.loop.AddHave?
    case EvUnlockJob => s.loop.AddLeave?
    case TakeOpt => s.loop.Waiting? && s.q.optPending
    case EvLockOpt => s.loop.OptWant? && s.q.optLock.None?
    case TestOpt => s.loop.OptTest?
    case EvPopOpt => s.loop.OptPop?
    case ApplyOpt => s.loop.OptHave?
    case EvUnlockOpt => s.loop.OptLeave?
    case Receive(c, _) => s.loop.Waiting? && c in s.q.curl
    case Finish(c, _) => s.loop.Waiting? && c in s.q.curl
    case EvLockDone => s.loop.FinWant? && s.q.doneLock.None?
    case PushDone => s.loop.FinPush?
    case EvUnlockDone => s.loop.FinLeave?
  }

  // Natives
  // -------

  // The context a guarded native works on: known, and not with the event thread.
  ghost function Guarded(m: Store, handle: int): Option<nat> {
    var p := Lookup(m.table, handle);
    if p.Some? && p.value in m.ctxs && !m.ctxs[p.value].inEventThread then p else None
  }

  ghost function Create(m: Store, plugin: nat, userdata: int): Store {
    var c, n := m.nextCtx, NextNumber(m.table);
    if n == 0 then m.(nextCtx := c + 1, deleted := m.deleted + [c]) else
      m.(nextCtx := c + 1, ctxs := m.ctxs[c := Fresh(plugin, n, userdata)],
         table := Allocated(m.table, Handle(HandleCurl, c)))
  }

  // FreeHandle: the table forgets the number and the context is deleted.
  ghost function Free(m: Store, handle: int): Store {
    var p := Lookup(m.table, handle);
    var t := m.(table := Freed(m.table, handle));
    if p.None? then t else t.(ctxs := m.ctxs - {p.value}, deleted := m.deleted + [p.value])
  }

  // Getters, setters and AddHeader: any guarded access to the context's data.
  ghost function Used(m: Store, handle: int, headers: nat): Store {
    var p := Guarded(m, handle);
    if p.None? then m else m.(ctxs := m.ctxs[p.value := m.ctxs[p.value].(headers := headers)])
  }

  ghost function Closed(h: History, c: nat): History {
    if c in h.current && h.current[c] < |h.runs|
    then h.(runs := h.runs[h.current[c] := h.runs[h.current[c]].(closed := true)]) else h
  }

  ghost function DoClose(s: State, handle: int): State {
    var p := Lookup(s.m.table, handle);
    if p.None? || p.value !in s.m.ctxs then s
    else if s.m.ctxs[p.value].inEventThread then
      var c := p.value;
      s.(m := s.m.(ctxs := s.m.ctxs[c := s.m.ctxs[c].(handleClosed := true)]), h := Closed(s.h, c))
    else s.(m := Free(s.m, handle))
  }

  ghost function CompressionOf(m: Store, kind: StartKind): Compression {
    if kind.Plain? then NoMemory else
      match kind.z
      case PackNoMemory => NoMemory
      case PackFailed => Failed(m.nextBuf + 1)
      case Packed(appended) => Deflated(m.nextBuf + 1, appended)
  }

  // The buffers a start allocates: the copy of the data, and the output of the
  // compression.
  ghost function NewBuffers(m: Store, kind: StartKind): set<nat> {
    if kind.Plain? then {} else if kind.z.PackNoMemory? then {m.nextBuf} else {m.nextBuf, m.nextBuf + 1}
  }

  // A start native up to the job lock: the callback and, for a compressed post,
  // a copy of the data are stored, then OnCurlStarted runs.
  ghost function StartedIn(m: Store, c: nat, callback: int, kind: StartKind): Store
    requires c in m.ctxs
  {
    var ready := m.ctxs[c].(callback := callback, post := if kind.Plain? then m.ctxs[c].post else Some(m.nextBuf));
    var z := CompressionOf(m, kind);
    var gone := FreedByStart(ready, z);
    m.(ctxs := m.ctxs[c := Started(ready, z)],
       bufs := m.bufs + NewBuffers(m, kind) - Elements(gone),
       freed := m.freed + gone,
       nextBuf := m.nextBuf + |NewBuffers(m, kind)|)
  }

  ghost function DoStart(s: State, handle: int, callback: int, kind: StartKind): State {
    var p := Guarded(s.m, handle);
    if p.None? then s else
      s.(m := StartedIn(s.m, p.value, callback, kind), native := WantJob(p.value),
         h := s.h.(runs := s.h.runs + [Run(p.value, callback, false, None, Pending)],
                   current := s.h.current[p.value := |s.h.runs|]))
  }

  // Completion
  // ----------

  ghost function Ended(h: History, c: nat, o: Outcome): History {
    if c in h.current && h.current[c] < |h.runs|
    then h.(runs := h.runs[h.current[c] := h.runs[h.current[c]].(outcome := o)], current := h.current - {c})
    else h
  }

  ghost function OutcomeOf(c: Context, found: bool, response: int): Outcome {
    if CallsBack(c, found) then Called(c.plugin, c.callback, Report(c, response)) else Dropped
  }

  // OnCurlCompletedGameThread up to the call of the plugin's function.
  ghost function DoComplete(s: State, found: bool, response: int): State
    requires s.frame.DoneHave?
  {
    var c := s.frame.c;
    if c !in s.m.ctxs then s else
      var ctx := Returned(s.m.ctxs[c]);
      var m := s.m.(ctxs := s.m.ctxs[c := ctx]);
      var h := Ended(s.h.(processed := s.h.processed + [c]), c, OutcomeOf(ctx, found, response));
      if CallsBack(ctx, found)
      then s.(m := m, h := h, frame := Callback(if c in s.h.current then s.h.current[c] else 0))
      else s.(m := Free(m, ctx.handle), h := h, frame := DoneTest)
  }

  ghost function Resulted(h: History, c: nat, result: int): History {
    if c in h.current && h.current[c] < |h.runs|
    then h.(runs := h.runs[h.current[c] := h.runs[h.current[c]].(result := Some(result))]) else h
  }

  // CheckCompletedCurlJobs up to the done lock.
  ghost function FinishedIn(m: Store, c: nat, result: int): Store
    requires c in m.ctxs
  {
    var ctx := m.ctxs[c].(curlcode := result);
    var gone := FreedByCompletion(ctx);
    m.(ctxs := m.ctxs[c := Completed(ctx)], bufs := m.bufs - Elements(gone), freed := m.freed + gone)
  }

  ghost function Received(m: Store, c: nat, bytes: nat): Store
    requires c in m.ctxs
  {
    m.(ctxs := m.ctxs[c := m.ctxs[c].(received := m.ctxs[c].received + bytes)])
  }

  ghost function Apply(s: State, a: Action): State
    requires Enabled(s, a)
  {
    match a
    case NewRequest(plugin, userdata) => s.(m := Create(s.m, plugin, userdata))
    case Close(handle) => DoClose(s, handle)
    case Use(handle, headers) => s.(m := Used(s.m, handle, headers))
    case Start(handle, callback, kind) => DoStart(s, handle, callback, kind)
    case LockJob => s.(q := s.q.(jobLock := Some(Game)), native := PushJob(s.native.c))
    case DoPushJob =>
      s.(q := s.q.(jobs := s.q.jobs + [s.native.c]),
         h := s.h.(jobsPushed := s.h.jobsPushed + [s.native.c]), native := LeaveJob)
    case UnlockJob => s.(q := s.q.(jobLock := None), native := NoNative)
    case SetOption(o) => s.(native := WantOpt(o))
    case LockOpt => s.(q := s.q.(optLock := Some(Game)), native := PushOpt(s.native.o))
    case DoPushOpt =>
      s.(q := s.q.(opts := s.q.opts + [s.native.o]),
         h := s.h.(optsPushed := s.h.optsPushed + [s.native.o]), native := LeaveOpt)
    case UnlockOpt => s.(q := s.q.(optLock := None), native := SignalOpt)
    case DoSignalOpt => s.(q := s.q.(optPending := true), native := NoNative)
    case Load(plugin) => s.(plugins := s.plugins + {plugin})
    case Unload(plugin) => s.(plugins := s.plugins - {plugin})
    case BeginFrame => s.(frame := if s.q.jobs != [] then SignalAdd else CheckDone)
    case DoSignalAdd => s.(q := s.q.(addPending := true), frame := CheckDone)
    case LookDone => s.(frame := if s.q.done != [] then WantDone else Idle)
    case LockDone =>
      s.(q := s.q.(doneLock := Some(Game)), frame := DoneTest,
         h := s.h.(snapshot := s.q.done, processed := []))
    case TestDone => s.(frame := if s.q.done != [] then DonePop else DoneLeave)
    case PopDone =>
      if s.q.done == [] then s
      else s.(frame := DoneHave(s.q.done[0]), q := s.q.(done := s.q.done[1..]))
    case Complete(found, response) => DoComplete(s, found, response)
    case Return => s.(frame := DoneTest)
    case UnlockDone => s.(q := s.q.(doneLock := None), frame := Idle)
    case TakeAdd => s.(q := s.q.(addPending := false), loop := AddWant)
    case EvLockJob => s.(q := s.q.(jobLock := Some(Event)), loop := AddTest)
    case TestJob => s.(loop := if s.q.jobs != [] then AddPop else AddLeave)
    case PopJob =>
      if s.q.jobs == [] then s
      else s.(loop := AddHave(s.q.jobs[0]), q := s.q.(jobs := s.q.jobs[1..]))
    case EnterCurl =>
      s.(q := s.q.(curl := s.q.curl + {s.loop.c}),
         h := s.h.(jobsEntered := s.h.jobsEntered + [s.loop.c]), loop := AddTest)
    case EvUnlockJob => s.(q := s.q.(jobLock := None), loop := Waiting)
    case TakeOpt => s.(q := s.q.(optPending := false), loop := OptWant)
    case EvLockOpt => s.(q := s.q.(optLock := Some(Event)), loop := OptTest)
    case TestOpt => s.(loop := if s.q.opts != [] then OptPop else OptLeave)
    case EvPopOpt =>
      if s.q.opts == [] then s
      else s.(loop := OptHave(s.q.opts[0]), q := s.q.(opts := s.q.opts[1..]))
    case ApplyOpt => s.(h := s.h.(optsApplied := s.h.optsApplied + [s.loop.o]), loop := OptTest)
    case EvUnlockOpt => s.(q := s.q.(optLock := None), loop := Waiting)
    case Receive(c, bytes) => if c !in s.m.ctxs then s else s.(m := Received(s.m, c, bytes))
    case Finish(c, result) =>
      if c !in s.m.ctxs then s
      else s.(m := FinishedIn(s.m, c, result), q := s.q.(curl := s.q.curl - {c}),
              h := Resulted(s.h, c, result), loop := FinWant(c))
    case EvLockDone => s.(q := s.q.(doneLock := Some(Event)), loop := FinPush(s.loop.c))
    case PushDone => s.(q := s.q.(done := s.q.done + [s.loop.c]), loop := FinLeave)
    case EvUnlockDone => s.(q := s.q.(doneLock := None), loop := Waiting)
  }
}
