/** What every run of the client keeps. */
module ClientSafety {
  import opened Results
  import opened ClientModel

  predicate HoldsLua(th: Thread) {
    th.InHook? || (th.Stopping? && th.stop.Reconfigure?)
  }

  predicate HoldsClient(th: Thread) {
    th.Trying? || th.Sending? || (th.Stopping? && th.stop.Flush?)
  }

  predicate TakesNoLock(th: Thread) {
    th.Stopping? && !th.stop.Flush?
  }

  predicate Shape(s: Sys) {
    && s.n >= 1 && s.cap >= 1 && !s.crashed
    && |s.queues| == |s.workers| == s.n
    && |s.accepted| == |s.finished| == |s.reported| && |s.accepted| >= s.n
    && s.errOpen == s.quitOpen == !s.closed
    && (s.poller.Ended? ==> s.closed)
  }

  /** Who holds `luaLock`. */
  predicate LuaOk(s: Sys) {
    && (forall t | 0 <= t < |s.threads| :: HoldsLua(s.threads[t]) <==> s.luaLock == HeldBy(t))
    && (s.luaLock.HeldBy? ==> s.luaLock.thread < |s.threads|)
    && (s.luaLock.HeldByPoller? <==> s.poller.Handling?)
  }

  /** Who holds the lock of the client, and that Close and Init run alone. */
  predicate ClientOk(s: Sys) {
    && (forall t | 0 <= t < |s.threads| :: HoldsClient(s.threads[t]) <==> s.clientLock == Some(t))
    && (s.clientLock.Some? ==> s.clientLock.value < |s.threads|)
    && (forall t | 0 <= t < |s.threads| :: TakesNoLock(s.threads[t]) <==> s.exclusive == Some(t))
    && (s.exclusive.Some? ==> s.exclusive.value < |s.threads|)
    && (forall t | 0 <= t < |s.threads| && InClient(s.threads[t]) ::
          !s.closed && (s.exclusive.None? || s.exclusive == Some(t)))
    && (s.closed ==> s.exclusive.None?)
  }

  predicate DataOk(s: Sys) {
    forall t | 0 <= t < |s.threads| ::
      var th := s.threads[t];
      && (th.WantClient? ==> th.affinity < s.n)
      && (th.Trying? ==> th.next <= s.n)
      && (th.Sending? ==> th.queue < s.n)
      && (th.Stopping? && th.stop.Reconfigure? ==> th.stop.concurrency >= 1 && th.stop.buffer >= 1)
  }

  predicate SomeStopper(s: Sys) {
    || s.exclusive.Some?
    || (s.clientLock.Some? && s.clientLock.value < |s.threads| && s.threads[s.clientLock.value].Stopping?)
  }

  /** `stopWorkers`: as many quits as closed queues, up to the one being awaited, so the quit of
      worker i is received in iteration i. */
  predicate StopOk(s: Sys) {
    && s.quits <= s.chansClosed <= s.quits + 1
    && s.chansClosed <= s.n
    && (forall t | 0 <= t < |s.threads| && s.threads[t].Stopping? ::
          s.threads[t].at == s.quits && s.chansClosed == s.quits + (if s.threads[t].awaiting then 1 else 0))
    && (!SomeStopper(s) && !s.closed ==> s.chansClosed == 0)
    && (s.closed ==> s.quits == s.n)
  }

  predicate WorkerOk(s: Sys, q: nat)
    requires q < |s.queues| && q < |s.workers|
  {
    && (s.queues[q].closed <==> q < s.chansClosed)
    && (s.workers[q].Stopped? <==> q < s.quits)
    && (s.workers[q].Quitting? || s.workers[q].Stopped? ==> s.queues[q].closed && s.queues[q].items == [])
    && (s.workers[q].Reporting? ==> s.reports)
    && |s.queues[q].items| <= s.cap
  }

  predicate WorkersOk(s: Sys)
    requires |s.queues| == |s.workers|
  {
    forall q | 0 <= q < |s.queues| :: WorkerOk(s, q)
  }

  predicate Control(s: Sys) {
    Shape(s) && LuaOk(s) && ClientOk(s) && DataOk(s) && StopOk(s) && WorkersOk(s)
  }

  lemma InitialControl(s: Sys)
    requires Initial(s)
    ensures Control(s)
  {
  }

  // Step by step

  lemma SameWorkers(s: Sys, s': Sys)
    requires |s.queues| == |s.workers| && WorkersOk(s)
    requires s'.queues == s.queues && s'.workers == s.workers && s'.cap == s.cap && s'.reports == s.reports
    requires s'.chansClosed == s.chansClosed && s'.quits == s.quits
    ensures WorkersOk(s')
  {
    forall q | 0 <= q < |s'.queues| ensures WorkerOk(s', q) { assert WorkerOk(s, q); }
  }

  lemma EnterHookKeeps(s: Sys, t: nat)
    requires Control(s) && Enabled(s, EnterHook(t))
    ensures Control(Apply(s, EnterHook(t)))
  {
    SameWorkers(s, Apply(s, EnterHook(t)));
  }

  lemma TakeLuaKeeps(s: Sys, a: Step)
    requires Control(s) && Enabled(s, a) && (a.TakeLua? || a.TakeLuaBack?)
    ensures Control(Apply(s, a))
  {
    SameWorkers(s, Apply(s, a));
  }

  lemma LeaveHookKeeps(s: Sys, t: nat)
    requires Control(s) && Enabled(s, LeaveHook(t))
    ensures Control(Apply(s, LeaveHook(t)))
  {
    SameWorkers(s, Apply(s, LeaveHook(t)));
  }

  lemma PostSteps(s: Sys, a: Step)
    requires Control(s) && Enabled(s, a) && (a.CallPost? || a.TakeClient?)
    ensures Control(Apply(s, a))
  {
    SameWorkers(s, Apply(s, a));
  }

  /** The holder of the client lock finds every queue open. */
  lemma PosterFindsOpenQueues(s: Sys, t: nat)
    requires Control(s) && t < |s.threads| && (s.threads[t].Trying? || s.threads[t].Sending?)
    ensures s.clientLock == Some(t) && s.exclusive.None? && !s.closed && s.chansClosed == 0
    ensures forall q | 0 <= q < |s.queues| :: !s.queues[q].closed
  {
    assert InClient(s.threads[t]) && HoldsClient(s.threads[t]) && !TakesNoLock(s.threads[t]);
    assert !SomeStopper(s);
    forall q | 0 <= q < |s.queues| ensures !s.queues[q].closed { assert WorkerOk(s, q); }
  }

  lemma AcceptKeeps(s: Sys, t: nat, q: nat, r: Req)
    requires Control(s) && t < |s.threads| && (s.threads[t].Trying? || s.threads[t].Sending?)
    requires q < s.n && |s.queues[q].items| < s.cap
    ensures Control(Accept(s, t, q, r))
  {
    PosterFindsOpenQueues(s, t);
    var s' := Accept(s, t, q, r);
    assert forall u | 0 <= u < |s.threads| && u != t :: s'.threads[u] == s.threads[u] && !HoldsClient(s.threads[u]);
    forall k | 0 <= k < |s'.queues| ensures WorkerOk(s', k) { assert WorkerOk(s, k); }
  }

  lemma SendKeeps(s: Sys, t: nat)
    requires Control(s) && Enabled(s, Send(t))
    ensures Control(Apply(s, Send(t)))
  {
    PosterFindsOpenQueues(s, t);
    AcceptKeeps(s, t, s.threads[t].queue, s.threads[t].req);
  }

  lemma TrySendKeeps(s: Sys, t: nat)
    requires Control(s) && Enabled(s, TrySend(t))
    ensures Control(Apply(s, TrySend(t)))
  {
    var th := s.threads[t];
    PosterFindsOpenQueues(s, t);
    if th.next < s.n && Ready(s, th.next) {
      AcceptKeeps(s, t, th.next, th.req);
    } else {
      NextQueueKeeps(s, t);
    }
  }

  lemma NextQueueKeeps(s: Sys, t: nat)
    requires Control(s) && t < |s.threads| && s.threads[t].Trying?
    ensures var th := s.threads[t];
            && Control(s.(threads := s.threads[t := Sending(th.req, 0)]))
            && (th.next < s.n ==> Control(s.(threads := s.threads[t := Trying(th.req, th.next + 1)])))
  {
    var th := s.threads[t];
    SameWorkers(s, s.(threads := s.threads[t := Sending(th.req, 0)]));
    SameWorkers(s, s.(threads := s.threads[t := Trying(th.req, th.next + 1)]));
  }

  lemma StopCalls(s: Sys, a: Step)
    requires Control(s) && Enabled(s, a) && (a.CallFlush? || a.TakeFlush? || a.CallClose? || a.CallInit?)
    ensures Control(Apply(s, a))
  {
    SameWorkers(s, Apply(s, a));
  }

  /** At most one thread is stopping the workers. */
  lemma OneStopper(s: Sys, t: nat, u: nat)
    requires Control(s) && t < |s.threads| && u < |s.threads| && s.threads[t].Stopping? && s.threads[u].Stopping?
    ensures t == u
  {
    assert InClient(s.threads[t]) && InClient(s.threads[u]);
  }

  lemma CloseQueueKeeps(s: Sys, t: nat)
    requires Control(s) && Enabled(s, CloseQueue(t))
    ensures Control(Apply(s, CloseQueue(t)))
  {
    var i := s.threads[t].at;
    assert WorkerOk(s, i);
    var s' := Apply(s, CloseQueue(t));
    forall k | 0 <= k < |s'.queues| ensures WorkerOk(s', k) { assert WorkerOk(s, k); }
    forall u | 0 <= u < |s.threads| && s.threads[u].Stopping? ensures u == t { OneStopper(s, t, u); }
    assert SomeStopper(s);
  }

  /** The quit that `stopWorkers` receives in iteration i is the one of worker i. */
  lemma QuitBelongs(s: Sys, t: nat, w: nat)
    requires Control(s) && Enabled(s, AwaitQuit(t, w))
    ensures w == s.threads[t].at
  {
    assert WorkerOk(s, w);
  }

  lemma AwaitQuitKeeps(s: Sys, t: nat, w: nat)
    requires Control(s) && Enabled(s, AwaitQuit(t, w))
    ensures Control(Apply(s, AwaitQuit(t, w)))
  {
    QuitBelongs(s, t, w);
    var s' := Apply(s, AwaitQuit(t, w));
    forall k | 0 <= k < |s'.queues| ensures WorkerOk(s', k) { assert WorkerOk(s, k); }
    forall u | 0 <= u < |s.threads| && s.threads[u].Stopping? ensures u == t { OneStopper(s, t, u); }
    assert SomeStopper(s);
  }

  lemma FlushDoneKeeps(s: Sys, t: nat)
    requires Control(s) && Enabled(s, StopDone(t)) && s.threads[t].stop.Flush?
    ensures Control(Apply(s, StopDone(t)))
  {
    var s' := Apply(s, StopDone(t));
    assert InClient(s.threads[t]) && HoldsClient(s.threads[t]);
    forall u | 0 <= u < |s.threads| && s.threads[u].Stopping? ensures u == t { OneStopper(s, t, u); }
    assert forall k | 0 <= k < |s'.queues| :: WorkerOk(s', k);
  }

  lemma CloseDoneKeeps(s: Sys, t: nat)
    requires Control(s) && Enabled(s, StopDone(t)) && s.threads[t].stop.Shut?
    ensures Control(Apply(s, StopDone(t)))
  {
    var s' := Apply(s, StopDone(t));
    assert InClient(s.threads[t]) && TakesNoLock(s.threads[t]);
    forall u | 0 <= u < |s.threads| && s.threads[u].Stopping? ensures u == t { OneStopper(s, t, u); }
    SameWorkers(s, s');
  }

  lemma InitDoneKeeps(s: Sys, t: nat)
    requires Control(s) && Enabled(s, StopDone(t)) && s.threads[t].stop.Reconfigure?
    ensures Control(Apply(s, StopDone(t)))
  {
    var s' := Apply(s, StopDone(t));
    assert InClient(s.threads[t]) && TakesNoLock(s.threads[t]);
    forall u | 0 <= u < |s.threads| && s.threads[u].Stopping? ensures u == t { OneStopper(s, t, u); }
    assert forall u | 0 <= u < |s.threads| && u != t :: !InClient(s.threads[u]);
    assert forall k | 0 <= k < |s'.queues| :: WorkerOk(s', k);
  }

  /** A worker that has not stopped finds the error and quit channels open. */
  lemma RunningMeansOpen(s: Sys, w: nat)
    requires Control(s) && w < s.n && !s.workers[w].Stopped?
    ensures !s.closed
  {
    assert WorkerOk(s, w);
  }

  lemma WorkerStepFrame(s: Sys, a: Step)
    requires Control(s) && Enabled(s, a) && IsWorkerStep(a)
    ensures var s' := Apply(s, a);
            && s'.threads == s.threads && s'.clientLock == s.clientLock && s'.luaLock == s.luaLock
            && s'.exclusive == s.exclusive && s'.closed == s.closed && s'.n == s.n && s'.cap == s.cap
            && s'.chansClosed == s.chansClosed && s'.quits == s.quits
            && (s'.poller == s.poller || (s.poller.Polling? && s'.poller.GotError?))
            && Shape(s')
  {
    RunningMeansOpen(s, a.w);
  }

  lemma WorkerStepWorkers(s: Sys, a: Step)
    requires Control(s) && Enabled(s, a) && IsWorkerStep(a)
    ensures |Apply(s, a).queues| == |Apply(s, a).workers| && WorkersOk(Apply(s, a))
  {
    assert WorkerOk(s, a.w);
    var s' := Apply(s, a);
    forall k | 0 <= k < |s'.queues| ensures WorkerOk(s', k) { assert WorkerOk(s, k); }
  }

  lemma SameControl(s: Sys, s': Sys)
    requires Control(s) && Shape(s') && WorkersOk(s')
    requires s'.threads == s.threads && s'.clientLock == s.clientLock && s'.luaLock == s.luaLock
    requires s'.exclusive == s.exclusive && s'.closed == s.closed && s'.n == s.n
    requires s'.chansClosed == s.chansClosed && s'.quits == s.quits
    requires s'.poller == s.poller || (s.poller.Polling? && s'.poller.GotError?)
    ensures Control(s')
  {
  }

  lemma WorkerSteps(s: Sys, a: Step)
    requires Control(s) && Enabled(s, a) && IsWorkerStep(a)
    ensures Control(Apply(s, a))
  {
    WorkerStepFrame(s, a);
    WorkerStepWorkers(s, a);
    SameControl(s, Apply(s, a));
  }

  lemma PollerSteps(s: Sys, a: Step)
    requires Control(s) && Enabled(s, a) && IsPollerStep(a)
    ensures Control(Apply(s, a))
  {
    SameWorkers(s, Apply(s, a));
  }

  lemma StopDoneKeeps(s: Sys, t: nat)
    requires Control(s) && Enabled(s, StopDone(t))
    ensures Control(Apply(s, StopDone(t)))
  {
    match s.threads[t].stop
    case Flush => FlushDoneKeeps(s, t);
    case Shut => CloseDoneKeeps(s, t);
    case Reconfigure(_, _) => InitDoneKeeps(s, t);
  }

  lemma HookSteps(s: Sys, a: Step)
    requires Control(s) && Enabled(s, a) && (a.EnterHook? || a.TakeLua? || a.LeaveHook? || a.TakeLuaBack?)
    ensures Control(Apply(s, a))
  {
    if a.EnterHook? {
      EnterHookKeeps(s, a.t);
    } else if a.LeaveHook? {
      LeaveHookKeeps(s, a.t);
    } else {
      TakeLuaKeeps(s, a);
    }
  }

  lemma StopSteps(s: Sys, a: Step)
    requires Control(s) && Enabled(s, a) && (a.CloseQueue? || a.AwaitQuit? || a.StopDone?)
    ensures Control(Apply(s, a))
  {
    if a.CloseQueue? {
      CloseQueueKeeps(s, a.t);
    } else if a.AwaitQuit? {
      AwaitQuitKeeps(s, a.t, a.w);
    } else {
      StopDoneKeeps(s, a.t);
    }
  }

  lemma StepControl(s: Sys, a: Step)
    requires Control(s) && Enabled(s, a)
    ensures Control(Apply(s, a))
  {
    if a.EnterHook? || a.TakeLua? || a.LeaveHook? || a.TakeLuaBack? {
      HookSteps(s, a);
    } else if a.CallPost? || a.TakeClient? {
      PostSteps(s, a);
    } else if a.TrySend? {
      TrySendKeeps(s, a.t);
    } else if a.Send? {
      SendKeeps(s, a.t);
    } else if a.CloseQueue? || a.AwaitQuit? || a.StopDone? {
      StopSteps(s, a);
    } else if IsPollerStep(a) {
      PollerSteps(s, a);
    } else if IsWorkerStep(a) {
      WorkerSteps(s, a);
    } else {
      StopCalls(s, a);
    }
  }
}
