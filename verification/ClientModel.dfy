/** The asynchronous HTTP client of http/http.go with the threads around it (lua/http.go and
    lua/lua.go), as a transition system.

    Goroutines are the script threads (they run hooks and post, flush, reconfigure or close), one
    worker per queue, and the poller of the error channel. A step is one operation that the others
    can observe: taking a lock, one channel operation, one completed request. Whether a request
    succeeds is the environment's choice. An illegal operation (sending on or closing a closed
    channel) is possible in the model and sets `crashed`.
 */
module ClientModel {
  import opened Results

  type Req = nat

  datatype Queue = Queue(items: seq<Req>, closed: bool)

  datatype Worker =
    | Waiting               // ranging over its queue
    | Attempting(req: Req)  // in postRequest
    | Reporting(req: Req)   // sending on the error channel
    | Quitting              // sending on the quit channel
    | Stopped

  /** Who stops the workers: Flush, Sandbox Close, or Init with a new configuration. */
  datatype Stop = Flush | Shut | Reconfigure(concurrency: nat, buffer: nat)

  datatype Thread =
    | Outside
    | WantLua                                    // entering a hook
    | InHook                                     // holds luaLock
    | WantClient(req: Req, affinity: int)        // in Post, luaLock released
    | Trying(req: Req, next: nat)                // in Post, looking for a queue with room
    | Sending(req: Req, queue: nat)              // in Post, blocked on one queue
    | WantLuaBack                                // Post has returned, deferred Lock
    | WantFlush
    | Stopping(stop: Stop, at: nat, awaiting: bool)  // in stopWorkers

  datatype Poller = Polling | GotError(req: Req) | Handling(req: Req) | Ended

  datatype LuaLock = Free | HeldBy(thread: nat) | HeldByPoller

  datatype Done = Done(req: Req, ok: bool)

  datatype Sys = Sys(
    n: nat,                       // Concurrency
    cap: nat,                     // ChanBuffer
    reports: bool,                // the error channel is not nil
    queues: seq<Queue>,
    workers: seq<Worker>,
    threads: seq<Thread>,
    poller: Poller,
    clientLock: Option<nat>,
    luaLock: LuaLock,
    exclusive: Option<nat>,       // the thread in Close or Init, which take no lock
    closed: bool,                 // Sandbox Close has returned
    errOpen: bool,
    quitOpen: bool,
    crashed: bool,
    chansClosed: nat,             // queues closed by the current stopWorkers
    quits: nat,                   // quits it has received
    nextReq: Req,
    accepted: seq<seq<Req>>,      // history, queue by queue
    finished: seq<seq<Done>>,
    reported: seq<seq<Req>>)

  datatype Step =
    | EnterHook(t: nat)
    | TakeLua(t: nat)
    | LeaveHook(t: nat)
    | CallPost(t: nat, affinity: int)
    | TakeClient(t: nat)
    | TrySend(t: nat)
    | Send(t: nat)
    | TakeLuaBack(t: nat)
    | CallFlush(t: nat)
    | TakeFlush(t: nat)
    | CallClose(t: nat)
    | CallInit(t: nat, concurrency: nat, buffer: nat)
    | CloseQueue(t: nat)
    | AwaitQuit(t: nat, w: nat)
    | StopDone(t: nat)
    | Receive(w: nat)
    | SeeClosed(w: nat)
    | Complete(w: nat, ok: bool)
    | Report(w: nat)
    | QuitOnClosed(w: nat)
    | PollTake
    | PollDone
    | PollEnd

  /** The threads' own decisions; every other step is one that the program makes by itself. */
  predicate IsCall(a: Step) {
    a.EnterHook? || a.CallPost? || a.CallFlush? || a.CallClose? || a.CallInit?
  }

  /** Inside a method of the client. */
  predicate InClient(th: Thread) {
    th.WantClient? || th.Trying? || th.Sending? || th.WantFlush? || th.Stopping?
  }

  /** Close and Init are not called while another thread is in the client, nor the other way. */
  predicate ClientFree(s: Sys) {
    s.exclusive == None && !s.closed && forall t | 0 <= t < |s.threads| :: !InClient(s.threads[t])
  }

  predicate ClientOpen(s: Sys) {
    s.exclusive == None && !s.closed
  }

  function ThreadOf(a: Step): Option<nat> {
    match a
    case EnterHook(t) => Some(t)
    case TakeLua(t) => Some(t)
    case LeaveHook(t) => Some(t)
    case CallPost(t, _) => Some(t)
    case TakeClient(t) => Some(t)
    case TrySend(t) => Some(t)
    case Send(t) => Some(t)
    case TakeLuaBack(t) => Some(t)
    case CallFlush(t) => Some(t)
    case TakeFlush(t) => Some(t)
    case CallClose(t) => Some(t)
    case CallInit(t, _, _) => Some(t)
    case CloseQueue(t) => Some(t)
    case AwaitQuit(t, _) => Some(t)
    case StopDone(t) => Some(t)
    case _ => None
  }

  predicate Enabled(s: Sys, a: Step) {
    && (ThreadOf(a).Some? ==> ThreadOf(a).value < |s.threads|)
    && match a
       case EnterHook(t) => s.threads[t].Outside?
       case TakeLua(t) => s.threads[t].WantLua? && s.luaLock.Free?
       case LeaveHook(t) => s.threads[t].InHook?
       case CallPost(t, _) => s.threads[t].InHook? && ClientOpen(s)
       case TakeClient(t) => s.threads[t].WantClient? && s.clientLock.None?
       case TrySend(t) => s.threads[t].Trying?
       case Send(t) =>
         && s.threads[t].Sending?
         && Ready(s, s.threads[t].queue)
       case TakeLuaBack(t) => s.threads[t].WantLuaBack? && s.luaLock.Free?
       case CallFlush(t) => s.threads[t].Outside? && ClientOpen(s)
       case TakeFlush(t) => s.threads[t].WantFlush? && s.clientLock.None?
       case CallClose(t) => s.threads[t].Outside? && ClientFree(s)
       case CallInit(t, concurrency, buffer) =>
         s.threads[t].InHook? && ClientFree(s) && concurrency >= 1 && buffer >= 1
       case CloseQueue(t) =>
         s.threads[t].Stopping? && !s.threads[t].awaiting && s.threads[t].at < s.n && s.threads[t].at < |s.queues|
       case AwaitQuit(t, w) =>
         s.threads[t].Stopping? && s.threads[t].awaiting && w < |s.workers| && s.workers[w].Quitting?
       case StopDone(t) => s.threads[t].Stopping? && !s.threads[t].awaiting && s.threads[t].at >= s.n
       case Receive(w) => HasWorker(s, w) && s.workers[w].Waiting? && s.queues[w].items != []
       case SeeClosed(w) => HasWorker(s, w) && s.workers[w].Waiting? && s.queues[w].items == [] && s.queues[w].closed
       case Complete(w, _) => HasWorker(s, w) && s.workers[w].Attempting?
       case Report(w) => HasWorker(s, w) && s.workers[w].Reporting? && (s.poller.Polling? || !s.errOpen)
       case QuitOnClosed(w) => HasWorker(s, w) && s.workers[w].Quitting? && !s.quitOpen
       case PollTake => s.poller.GotError? && s.luaLock.Free?
       case PollDone => s.poller.Handling?
       case PollEnd => s.poller.Polling? && !s.errOpen
  }

  /** A send on the queue does not block: there is room, or it panics. */
  predicate Ready(s: Sys, q: nat) {
    q >= |s.queues| || s.queues[q].closed || |s.queues[q].items| < s.cap
  }

  predicate HasWorker(s: Sys, w: nat) {
    w < |s.workers| && w < |s.queues| && w < |s.accepted| && w < |s.finished| && w < |s.reported|
  }

  function Goto(s: Sys, t: nat, th: Thread): Sys
    requires t < |s.threads|
  {
    s.(threads := s.threads[t := th])
  }

  function WorkerTo(s: Sys, w: nat, to: Worker): Sys
    requires w < |s.workers|
  {
    s.(workers := s.workers[w := to])
  }

  /** The send on a queue that has room: the request is accepted, and Post returns. */
  function Accept(s: Sys, t: nat, q: nat, r: Req): Sys
    requires t < |s.threads|
  {
    if q >= |s.queues| || q >= |s.accepted| || s.queues[q].closed then
      s.(crashed := true)
    else
      s.(
        threads := s.threads[t := WantLuaBack],
        queues := s.queues[q := s.queues[q].(items := s.queues[q].items + [r])],
        accepted := s.accepted[q := s.accepted[q] + [r]],
        clientLock := None)
  }

  /** Histories go on; a larger configuration starts new ones. */
  function Padded<T>(h: seq<seq<T>>, n: nat): (r: seq<seq<T>>)
    ensures |r| >= n && |r| >= |h|
    ensures forall q | 0 <= q < |h| :: r[q] == h[q]
    ensures forall q | |h| <= q < |r| :: r[q] == []
  {
    h + seq(if n > |h| then n - |h| else 0, _ => [])
  }

  /** `initWorkers` */
  function InitWorkers(s: Sys, n: nat, cap: nat): Sys {
    s.(n := n, cap := cap,
       queues := seq(n, _ => Queue([], false)),
       workers := seq(n, _ => Waiting),
       chansClosed := 0, quits := 0,
       accepted := Padded(s.accepted, n),
       finished := Padded(s.finished, n),
       reported := Padded(s.reported, n))
  }

  function Apply(s: Sys, a: Step): Sys
    requires Enabled(s, a)
  {
    match a
    case EnterHook(t) => Goto(s, t, WantLua)
    case TakeLua(t) => s.(threads := s.threads[t := InHook], luaLock := HeldBy(t))
    case LeaveHook(t) => s.(threads := s.threads[t := Outside], luaLock := Free)
    case CallPost(t, affinity) =>
      var to := if affinity > s.n - 1 then WantLuaBack else WantClient(s.nextReq, affinity);
      s.(threads := s.threads[t := to], luaLock := Free, nextReq := s.nextReq + 1)
    case TakeClient(t) =>
      var r, affinity := s.threads[t].req, s.threads[t].affinity;
      s.(threads := s.threads[t := if affinity >= 0 then Sending(r, affinity) else Trying(r, 0)], clientLock := Some(t))
    case TrySend(t) =>
      var r, i := s.threads[t].req, s.threads[t].next;
      if i >= s.n then Goto(s, t, Sending(r, 0))
      else if Ready(s, i) then Accept(s, t, i, r)
      else Goto(s, t, Trying(r, i + 1))
    case Send(t) => Accept(s, t, s.threads[t].queue, s.threads[t].req)
    case TakeLuaBack(t) => s.(threads := s.threads[t := InHook], luaLock := HeldBy(t))
    case CallFlush(t) => Goto(s, t, WantFlush)
    case TakeFlush(t) => s.(threads := s.threads[t := Stopping(Flush, 0, false)], clientLock := Some(t))
    case CallClose(t) => s.(threads := s.threads[t := Stopping(Shut, 0, false)], exclusive := Some(t))
    case CallInit(t, concurrency, buffer) =>
      s.(threads := s.threads[t := Stopping(Reconfigure(concurrency, buffer), 0, false)], exclusive := Some(t))
    case CloseQueue(t) =>
      var i := s.threads[t].at;
      if s.queues[i].closed then s.(crashed := true)
      else
        s.(
          threads := s.threads[t := s.threads[t].(awaiting := true)],
          queues := s.queues[i := s.queues[i].(closed := true)],
          chansClosed := s.chansClosed + 1)
    case AwaitQuit(t, w) =>
      s.(
        threads := s.threads[t := s.threads[t].(at := s.threads[t].at + 1, awaiting := false)],
        workers := s.workers[w := Stopped],
        quits := s.quits + 1)
    case StopDone(t) =>
      (match s.threads[t].stop
       case Flush => InitWorkers(s, s.n, s.cap).(threads := s.threads[t := Outside], clientLock := None)
       case Shut =>
         if !s.quitOpen || !s.errOpen then s.(crashed := true)
         else
           s.(threads := s.threads[t := Outside], exclusive := None,
              closed := true, quitOpen := false, errOpen := false)
       case Reconfigure(concurrency, buffer) =>
         if !s.quitOpen then s.(crashed := true)
         else InitWorkers(s, concurrency, buffer).(threads := s.threads[t := InHook], exclusive := None))
    case Receive(w) =>
      s.(
        workers := s.workers[w := Attempting(s.queues[w].items[0])],
        queues := s.queues[w := s.queues[w].(items := s.queues[w].items[1..])])
    case SeeClosed(w) => WorkerTo(s, w, Quitting)
    case Complete(w, ok) =>
      var r := s.workers[w].req;
      if !ok && s.reports then WorkerTo(s, w, Reporting(r))
      else s.(workers := s.workers[w := Waiting], finished := s.finished[w := s.finished[w] + [Done(r, ok)]])
    case Report(w) =>
      var r := s.workers[w].req;
      if !s.errOpen then s.(crashed := true)
      else
        s.(
          workers := s.workers[w := Waiting],
          finished := s.finished[w := s.finished[w] + [Done(r, false)]],
          reported := s.reported[w := s.reported[w] + [r]],
          poller := GotError(r))
    case QuitOnClosed(w) => s.(crashed := true)
    case PollTake => s.(poller := Handling(s.poller.req), luaLock := HeldByPoller)
    case PollDone => s.(poller := Polling, luaLock := Free)
    case PollEnd => s.(poller := Ended)
  }

  /** Steps that move one thread or the poller and leave queues, workers and histories alone. */
  predicate IsLockStep(a: Step) {
    IsCall(a) || a.TakeLua? || a.LeaveHook? || a.TakeClient? || a.TakeLuaBack? || a.TakeFlush? || IsPollerStep(a)
  }

  predicate SameQueues(s: Sys, s': Sys) {
    && s'.n == s.n && s'.cap == s.cap && s'.reports == s.reports
    && s'.queues == s.queues && s'.workers == s.workers
    && s'.chansClosed == s.chansClosed && s'.quits == s.quits
    && s'.accepted == s.accepted && s'.finished == s.finished && s'.reported == s.reported
  }

  lemma CallFrame(s: Sys, a: Step)
    requires Enabled(s, a) && IsCall(a)
    ensures SameQueues(s, Apply(s, a)) && |Apply(s, a).threads| == |s.threads|
  {
  }

  lemma LockStepFrame(s: Sys, a: Step)
    requires Enabled(s, a) && IsLockStep(a)
    ensures SameQueues(s, Apply(s, a)) && |Apply(s, a).threads| == |s.threads|
  {
    if IsCall(a) {
      CallFrame(s, a);
    }
  }

  predicate SameReports(s: Sys, s': Sys) {
    s'.reports == s.reports && s'.workers == s.workers && s'.reported == s.reported && s'.poller == s.poller
  }

  lemma AcceptFrame(s: Sys, t: nat, q: nat, r: Req)
    requires t < |s.threads|
    ensures SameReports(s, Accept(s, t, q, r))
  {
  }

  lemma TrySendFrame(s: Sys, t: nat)
    requires Enabled(s, TrySend(t))
    ensures SameReports(s, Apply(s, TrySend(t)))
  {
    AcceptFrame(s, t, s.threads[t].next, s.threads[t].req);
  }

  lemma SendFrame(s: Sys, t: nat)
    requires Enabled(s, Send(t))
    ensures SameReports(s, Apply(s, Send(t)))
  {
    AcceptFrame(s, t, s.threads[t].queue, s.threads[t].req);
  }

  predicate IsPollerStep(a: Step) {
    a.PollTake? || a.PollDone? || a.PollEnd?
  }

  lemma LockStepPoller(s: Sys, a: Step)
    requires Enabled(s, a) && IsLockStep(a) && !IsPollerStep(a)
    ensures Apply(s, a).poller == s.poller
  {
  }

  predicate IsWorkerStep(a: Step) {
    a.Receive? || a.SeeClosed? || a.Complete? || a.Report? || a.QuitOnClosed?
  }

  /** A client that was just initialised with a valid configuration. */
  predicate Initial(s: Sys) {
    && s.n >= 1 && s.cap >= 1
    && s.queues == seq(s.n, _ => Queue([], false))
    && s.workers == seq(s.n, _ => Waiting)
    && (forall t | 0 <= t < |s.threads| :: s.threads[t].Outside?)
    && s.poller == Polling && s.clientLock == None && s.luaLock == Free && s.exclusive == None
    && !s.closed && s.errOpen && s.quitOpen && !s.crashed
    && s.chansClosed == s.quits == 0
    && s.accepted == seq(s.n, _ => []) && s.finished == seq(s.n, _ => []) && s.reported == seq(s.n, _ => [])
  }

  predicate ValidRun(s: Sys, run: seq<Step>)
    decreases |run|
  {
    run == [] || (Enabled(s, run[0]) && ValidRun(Apply(s, run[0]), run[1..]))
  }

  function Exec(s: Sys, run: seq<Step>): Sys
    requires ValidRun(s, run)
    decreases |run|
  {
    if run == [] then s else Exec(Apply(s, run[0]), run[1..])
  }

  ghost predicate Reachable(s: Sys) {
    exists init, run :: Initial(init) && ValidRun(init, run) && Exec(init, run) == s
  }
}
