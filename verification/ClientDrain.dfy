/** Left to itself the client comes to rest: every step of the program makes a measure smaller. */
module ClientDrain {
  import opened Results
  import opened ClientModel
  import opened ClientSafety
  import opened ClientHistory
  import opened ClientProgress

  function ThreadWeight(n: nat, th: Thread): nat {
    match th
    case Outside => 0
    case InHook => 1
    case WantLua => 2
    case WantLuaBack => 2
    case Sending(_, _) => 13
    case Trying(_, i) => 14 + if i < n then n - i else 0
    case WantClient(_, _) => 15 + n
    case WantFlush => 4 * n + 2
    case Stopping(stop, i, awaiting) =>
      (match stop case Flush => 2 * n case Shut => 0 case Reconfigure(m, _) => 2 * m + 1)
      + (if i < n then 2 * (n - i) else 0) + (if awaiting then 0 else 1)
  }

  function WorkerWeight(w: Worker): nat {
    match w
    case Waiting => 2
    case Attempting(_) => 10
    case Reporting(_) => 9
    case Quitting => 1
    case Stopped => 0
  }

  function QueueWeight(w: Worker, q: Queue): nat {
    WorkerWeight(w) + 10 * |q.items|
  }

  function PollerWeight(p: Poller): nat {
    match p
    case Ended => 0
    case Polling => 1
    case Handling(_) => 2
    case GotError(_) => 3
  }

  function ThreadWeights(n: nat, threads: seq<Thread>): seq<nat> {
    seq(|threads|, t requires 0 <= t < |threads| => ThreadWeight(n, threads[t]))
  }

  function QueueWeights(workers: seq<Worker>, queues: seq<Queue>): seq<nat>
    requires |workers| == |queues|
  {
    seq(|queues|, q requires 0 <= q < |queues| => QueueWeight(workers[q], queues[q]))
  }

  function Measure(s: Sys): nat
    requires Shape(s)
  {
    Total(ThreadWeights(s.n, s.threads)) + Total(QueueWeights(s.workers, s.queues)) + PollerWeight(s.poller)
  }

  lemma {:induction false} TotalUpdate(xs: seq<nat>, k: nat, v: nat)
    requires k < |xs|
    ensures Total(xs[k := v]) + xs[k] == Total(xs) + v
  {
    if k > 0 {
      assert xs[k := v][1..] == xs[1..][k - 1 := v];
      TotalUpdate(xs[1..], k - 1, v);
    } else {
      assert xs[k := v][1..] == xs[1..];
    }
  }

  lemma {:induction false} TotalSame(xs: seq<nat>, each: nat)
    requires forall k | 0 <= k < |xs| :: xs[k] == each
    ensures Total(xs) == |xs| * each
  {
    if xs != [] {
      TotalSame(xs[1..], each);
    }
  }

  /** Moving one thread. */
  lemma ThreadTotal(n: nat, threads: seq<Thread>, t: nat, th: Thread)
    requires t < |threads|
    ensures Total(ThreadWeights(n, threads[t := th])) + ThreadWeight(n, threads[t])
         == Total(ThreadWeights(n, threads)) + ThreadWeight(n, th)
  {
    assert ThreadWeights(n, threads[t := th]) == ThreadWeights(n, threads)[t := ThreadWeight(n, th)];
    TotalUpdate(ThreadWeights(n, threads), t, ThreadWeight(n, th));
  }

  /** Changing one worker and its queue. */
  lemma QueueTotal(workers: seq<Worker>, queues: seq<Queue>, w: nat, to: Worker, q: Queue)
    requires |workers| == |queues| && w < |queues|
    ensures Total(QueueWeights(workers[w := to], queues[w := q])) + QueueWeight(workers[w], queues[w])
         == Total(QueueWeights(workers, queues)) + QueueWeight(to, q)
  {
    assert QueueWeights(workers[w := to], queues[w := q]) == QueueWeights(workers, queues)[w := QueueWeight(to, q)];
    TotalUpdate(QueueWeights(workers, queues), w, QueueWeight(to, q));
  }

  lemma NewWorkersTotal(n: nat)
    ensures Total(QueueWeights(seq(n, _ => Waiting), seq(n, _ => Queue([], false)))) == 2 * n
  {
    TotalSame(QueueWeights(seq(n, _ => Waiting), seq(n, _ => Queue([], false))), 2);
  }

  /** Idle threads weigh the same whatever the concurrency. */
  lemma ThreadsOutOfClient(n: nat, m: nat, threads: seq<Thread>)
    requires forall t | 0 <= t < |threads| :: !InClient(threads[t])
    ensures ThreadWeights(n, threads) == ThreadWeights(m, threads)
  {
  }

  lemma HookStepLess(s: Sys, a: Step)
    requires Inv(s) && Moves(s, a) && (a.TakeLua? || a.LeaveHook? || a.TakeLuaBack? || a.TakeClient? || a.TakeFlush?)
    ensures Shape(Apply(s, a)) && Measure(Apply(s, a)) < Measure(s)
  {
    ThreadTotal(s.n, s.threads, a.t, Apply(s, a).threads[a.t]);
  }

  lemma AcceptLess(s: Sys, t: nat, q: nat, r: Req)
    requires Inv(s) && t < |s.threads| && (s.threads[t].Trying? || s.threads[t].Sending?)
    requires q < s.n && |s.queues[q].items| < s.cap
    ensures Shape(Accept(s, t, q, r)) && Measure(Accept(s, t, q, r)) < Measure(s)
  {
    PosterFindsOpenQueues(s, t);
    AcceptKeeps(s, t, q, r);
    ThreadTotal(s.n, s.threads, t, WantLuaBack);
    var items := s.queues[q].items + [r];
    QueueTotal(s.workers, s.queues, q, s.workers[q], s.queues[q].(items := items));
    assert s.workers[q := s.workers[q]] == s.workers;
  }

  lemma SendLess(s: Sys, a: Step)
    requires Inv(s) && Moves(s, a) && (a.TrySend? || a.Send?)
    ensures Shape(Apply(s, a)) && Measure(Apply(s, a)) < Measure(s)
  {
    var th := s.threads[a.t];
    PosterFindsOpenQueues(s, a.t);
    if a.Send? {
      AcceptLess(s, a.t, th.queue, th.req);
    } else if th.next < s.n && Ready(s, th.next) {
      AcceptLess(s, a.t, th.next, th.req);
    } else {
      ThreadTotal(s.n, s.threads, a.t, Apply(s, a).threads[a.t]);
    }
  }

  lemma CloseQueueLess(s: Sys, t: nat)
    requires Inv(s) && Enabled(s, CloseQueue(t))
    ensures Shape(Apply(s, CloseQueue(t))) && Measure(Apply(s, CloseQueue(t))) < Measure(s)
  {
    CloseQueueKeeps(s, t);
    var i := s.threads[t].at;
    assert WorkerOk(s, i);
    ThreadTotal(s.n, s.threads, t, s.threads[t].(awaiting := true));
    QueueTotal(s.workers, s.queues, i, s.workers[i], s.queues[i].(closed := true));
    assert s.workers[i := s.workers[i]] == s.workers;
  }

  lemma AwaitQuitLess(s: Sys, t: nat, w: nat)
    requires Inv(s) && Enabled(s, AwaitQuit(t, w))
    ensures Shape(Apply(s, AwaitQuit(t, w))) && Measure(Apply(s, AwaitQuit(t, w))) < Measure(s)
  {
    AwaitQuitKeeps(s, t, w);
    var i := s.threads[t].at;
    ThreadTotal(s.n, s.threads, t, s.threads[t].(at := i + 1, awaiting := false));
    QueueTotal(s.workers, s.queues, w, Stopped, s.queues[w]);
    assert s.queues[w := s.queues[w]] == s.queues;
  }

  lemma FlushDoneLess(s: Sys, t: nat)
    requires Inv(s) && Enabled(s, StopDone(t)) && !s.threads[t].stop.Reconfigure?
    ensures Shape(Apply(s, StopDone(t))) && Measure(Apply(s, StopDone(t))) < Measure(s)
  {
    StepControl(s, StopDone(t));
    ThreadTotal(s.n, s.threads, t, Outside);
    NewWorkersTotal(s.n);
  }

  lemma InitDoneLess(s: Sys, t: nat)
    requires Inv(s) && Enabled(s, StopDone(t)) && s.threads[t].stop.Reconfigure?
    ensures Shape(Apply(s, StopDone(t))) && Measure(Apply(s, StopDone(t))) < Measure(s)
  {
    StepControl(s, StopDone(t));
    var n := s.threads[t].stop.concurrency;
    var threads := s.threads[t := InHook];
    assert TakesNoLock(s.threads[t]);
    assert forall u | 0 <= u < |s.threads| && u != t :: !InClient(s.threads[u]);
    ThreadTotal(s.n, s.threads, t, InHook);
    ThreadsOutOfClient(s.n, n, threads);
    NewWorkersTotal(n);
  }

  /** A worker step changes one worker with its queue, and perhaps the poller. */
  lemma WorkerLess(s: Sys, s': Sys, w: nat)
    requires Shape(s) && Shape(s') && w < s.n && s'.n == s.n && s'.threads == s.threads
    requires s'.workers == s.workers[w := s'.workers[w]] && s'.queues == s.queues[w := s'.queues[w]]
    requires QueueWeight(s'.workers[w], s'.queues[w]) + PollerWeight(s'.poller)
           < QueueWeight(s.workers[w], s.queues[w]) + PollerWeight(s.poller)
    ensures Measure(s') < Measure(s)
  {
    QueueTotal(s.workers, s.queues, w, s'.workers[w], s'.queues[w]);
  }

  lemma WorkerStepLess(s: Sys, a: Step)
    requires Inv(s) && Moves(s, a) && IsWorkerStep(a) && !a.QuitOnClosed?
    ensures Shape(Apply(s, a)) && Measure(Apply(s, a)) < Measure(s)
  {
    RunningMeansOpen(s, a.w);
    WorkerStepFrame(s, a);
    assert s.queues[a.w := s.queues[a.w]] == s.queues;
    WorkerLess(s, Apply(s, a), a.w);
  }

  lemma PollerStepLess(s: Sys, a: Step)
    requires Inv(s) && Moves(s, a) && IsPollerStep(a)
    ensures Shape(Apply(s, a)) && Measure(Apply(s, a)) < Measure(s)
  {
    StepControl(s, a);
  }

  lemma StopDoneLess(s: Sys, t: nat)
    requires Inv(s) && Enabled(s, StopDone(t))
    ensures Shape(Apply(s, StopDone(t))) && Measure(Apply(s, StopDone(t))) < Measure(s)
  {
    if s.threads[t].stop.Reconfigure? {
      InitDoneLess(s, t);
    } else {
      FlushDoneLess(s, t);
    }
  }

  /** Every step of the program makes the measure smaller. */
  lemma StepLess(s: Sys, a: Step)
    requires Inv(s) && Moves(s, a)
    ensures Inv(Apply(s, a)) && Measure(Apply(s, a)) < Measure(s)
  {
    StepInv(s, a);
    if a.TrySend? || a.Send? {
      SendLess(s, a);
    } else if a.CloseQueue? {
      CloseQueueLess(s, a.t);
    } else if a.AwaitQuit? {
      AwaitQuitLess(s, a.t, a.w);
    } else if a.StopDone? {
      StopDoneLess(s, a.t);
    } else if IsPollerStep(a) {
      PollerStepLess(s, a);
    } else if a.QuitOnClosed? {
      assert false;
    } else if IsWorkerStep(a) {
      WorkerStepLess(s, a);
    } else {
      HookStepLess(s, a);
    }
  }

  predicate AllMoves(run: seq<Step>) {
    forall k | 0 <= k < |run| :: !IsCall(run[k])
  }

  /** Without new calls the program makes at most as many steps as the measure says. */
  lemma {:induction false} RunsAreBounded(s: Sys, run: seq<Step>)
    requires Inv(s) && ValidRun(s, run) && AllMoves(run)
    ensures |run| <= Measure(s)
    decreases |run|
  {
    if run != [] {
      StepLess(s, run[0]);
      RunsAreBounded(Apply(s, run[0]), run[1..]);
    }
  }

  /** The thread of a step does not start a call of Init, unless the step is that call. */
  lemma ThreadMoves(s: Sys, a: Step)
    requires NoInit(s) && Moves(s, a) && IsLockStep(a)
    ensures NoInit(Apply(s, a))
  {
  }

  lemma AcceptMoves(s: Sys, t: nat, q: nat, r: Req)
    requires NoInit(s) && t < |s.threads|
    ensures NoInit(Accept(s, t, q, r))
  {
  }

  lemma SendMoves(s: Sys, a: Step)
    requires NoInit(s) && Moves(s, a) && (a.TrySend? || a.Send?)
    ensures NoInit(Apply(s, a))
  {
    var th := s.threads[a.t];
    if a.Send? {
      AcceptMoves(s, a.t, th.queue, th.req);
    } else {
      AcceptMoves(s, a.t, th.next, th.req);
    }
  }

  lemma StopMoves(s: Sys, a: Step)
    requires NoInit(s) && Moves(s, a) && (a.CloseQueue? || a.AwaitQuit?)
    ensures NoInit(Apply(s, a))
  {
  }

  lemma StopDoneMoves(s: Sys, t: nat)
    requires NoInit(s) && Enabled(s, StopDone(t))
    ensures NoInit(Apply(s, StopDone(t)))
  {
  }

  lemma NoInitKept(s: Sys, a: Step)
    requires Inv(s) && NoInit(s) && Moves(s, a)
    ensures NoInit(Apply(s, a))
  {
    if IsLockStep(a) {
      ThreadMoves(s, a);
    } else if a.TrySend? || a.Send? {
      SendMoves(s, a);
    } else if a.CloseQueue? || a.AwaitQuit? {
      StopMoves(s, a);
    } else if a.StopDone? {
      StopDoneMoves(s, a.t);
    } else {
      WorkerStepFrame(s, a);
    }
  }

  lemma {:induction false} NoInitRun(s: Sys, run: seq<Step>)
    requires Inv(s) && NoInit(s) && ValidRun(s, run) && AllMoves(run)
    ensures Inv(Exec(s, run)) && NoInit(Exec(s, run))
    decreases |run|
  {
    if run != [] {
      StepInv(s, run[0]);
      NoInitKept(s, run[0]);
      NoInitRun(Apply(s, run[0]), run[1..]);
    }
  }

  /** Whenever no call of Init is in progress: whatever order the program's steps are taken in, they
      come to an end, and at the end every Post, hook, Flush and Close has returned, every accepted
      request has finished and every error has been handled. */
  lemma ClientDrains(s: Sys, run: seq<Step>)
    requires Reachable(s) && NoInit(s) && ValidRun(s, run) && AllMoves(run)
    ensures Shape(s) && |run| <= Measure(s)
    ensures (forall a: Step :: !Moves(Exec(s, run), a)) ==>
              && Quiet(Exec(s, run))
              && forall q | 0 <= q < |Exec(s, run).accepted| ::
                   Exec(s, run).accepted[q] == Reqs(Exec(s, run).finished[q])
  {
    ReachableInv(s);
    RunsAreBounded(s, run);
    NoInitRun(s, run);
    var end := Exec(s, run);
    if forall a: Step :: !Moves(end, a) {
      if !Quiet(end) {
        var a := NeverStuck(end);
        assert false;
      }
      QuietMeansFinished(end);
    }
  }
}
