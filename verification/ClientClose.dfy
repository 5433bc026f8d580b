/** Close and Flush: a client is closed for good exactly when Close has returned, and after Flush and
    Init it works again. */
module ClientClose {
  import opened Results
  import opened ClientModel
  import opened ClientSafety
  import opened ClientHistory
  import opened ClientProgress

  /** The thread whose call of Close has not returned, and whether one has. */
  datatype Closing = Closing(closer: Option<nat>, closed: bool)

  /** Read from the step alone. */
  function Noticed(c: Closing, a: Step): Closing {
    match a
    case CallClose(t) => c.(closer := Some(t))
    case StopDone(t) => if c.closer == Some(t) then Closing(None, true) else c
    case _ => c
  }

  function ClosingAfter(c: Closing, run: seq<Step>): Closing
    decreases |run|
  {
    if run == [] then c else ClosingAfter(Noticed(c, run[0]), run[1..])
  }

  predicate InClose(th: Thread) {
    th.Stopping? && th.stop.Shut?
  }

  predicate Knows(s: Sys, c: Closing) {
    && s.closed == c.closed
    && forall t | 0 <= t < |s.threads| :: InClose(s.threads[t]) <==> c.closer == Some(t)
  }

  /** No thread enters or leaves Close. */
  predicate SameClose(s: Sys, s': Sys) {
    && s'.closed == s.closed && |s'.threads| == |s.threads|
    && forall t | 0 <= t < |s.threads| :: InClose(s'.threads[t]) == InClose(s.threads[t])
  }

  lemma StopStepSame(s: Sys, a: Step)
    requires Inv(s) && Enabled(s, a) && (a.CloseQueue? || a.AwaitQuit?)
    ensures SameClose(s, Apply(s, a))
  {
  }

  lemma SendSame(s: Sys, a: Step)
    requires Inv(s) && Enabled(s, a) && (a.TrySend? || a.Send?)
    ensures SameClose(s, Apply(s, a))
  {
    PosterFindsOpenQueues(s, a.t);
  }

  lemma CallSame(s: Sys, a: Step)
    requires Enabled(s, a) && IsCall(a) && !a.CallClose?
    ensures SameClose(s, Apply(s, a))
  {
  }

  lemma LockStepSame(s: Sys, a: Step)
    requires Enabled(s, a) && IsLockStep(a) && !IsCall(a) && !IsPollerStep(a)
    ensures SameClose(s, Apply(s, a))
  {
  }

  lemma PollerSame(s: Sys, a: Step)
    requires Enabled(s, a) && IsPollerStep(a)
    ensures SameClose(s, Apply(s, a))
  {
    match a
    case PollTake => assert Apply(s, PollTake).threads == s.threads;
    case PollDone => assert Apply(s, PollDone).threads == s.threads;
    case PollEnd => assert Apply(s, PollEnd).threads == s.threads;
  }

  lemma OtherStepSame(s: Sys, a: Step)
    requires Inv(s) && Enabled(s, a) && !a.CallClose? && !a.StopDone?
    ensures SameClose(s, Apply(s, a))
  {
    if IsWorkerStep(a) {
      WorkerStepFrame(s, a);
    } else if a.TrySend? || a.Send? {
      SendSame(s, a);
    } else if a.CloseQueue? || a.AwaitQuit? {
      StopStepSame(s, a);
    } else if IsPollerStep(a) {
      PollerSame(s, a);
    } else if IsCall(a) {
      CallSame(s, a);
    } else {
      LockStepSame(s, a);
    }
  }

  lemma CallKnown(s: Sys, c: Closing, t: nat)
    requires Inv(s) && Knows(s, c) && Enabled(s, CallClose(t))
    ensures Knows(Apply(s, CallClose(t)), Noticed(c, CallClose(t)))
  {
    forall u | 0 <= u < |s.threads| ensures !InClose(s.threads[u]) {
      assert !InClient(s.threads[u]);
    }
  }

  lemma ReturnKnown(s: Sys, c: Closing, t: nat)
    requires Inv(s) && Knows(s, c) && Enabled(s, StopDone(t))
    ensures Knows(Apply(s, StopDone(t)), Noticed(c, StopDone(t)))
  {
    assert InClient(s.threads[t]);
    forall u | 0 <= u < |s.threads| && s.threads[u].Stopping? ensures u == t { OneStopper(s, t, u); }
  }

  lemma {:induction false} RunKnown(s: Sys, c: Closing, run: seq<Step>)
    requires Inv(s) && Knows(s, c) && ValidRun(s, run)
    ensures Inv(Exec(s, run)) && Knows(Exec(s, run), ClosingAfter(c, run))
    decreases |run|
  {
    if run != [] {
      var a := run[0];
      StepInv(s, a);
      if a.CallClose? {
        CallKnown(s, c, a.t);
      } else if a.StopDone? {
        ReturnKnown(s, c, a.t);
      } else {
        OtherStepSame(s, a);
      }
      RunKnown(Apply(s, a), Noticed(c, a), run[1..]);
    }
  }

  /** Closed for good: nothing runs, nothing is left, and every channel is closed. */
  predicate ShutDown(s: Sys) {
    && !s.quitOpen && !s.errOpen && s.exclusive.None?
    && (forall t | 0 <= t < |s.threads| :: !InClient(s.threads[t]))
    && (forall q | 0 <= q < |s.queues| :: s.queues[q].closed && s.queues[q].items == [])
    && forall w | 0 <= w < |s.workers| :: s.workers[w].Stopped?
  }

  /** Every queue takes requests and has a worker that serves it. */
  predicate AtWork(s: Sys) {
    && s.quitOpen && s.errOpen && |s.queues| == |s.workers| == s.n
    && (forall q | 0 <= q < |s.queues| :: !s.queues[q].closed)
    && forall w | 0 <= w < |s.workers| :: !s.workers[w].Stopped? && !s.workers[w].Quitting?
  }

  predicate NoneStops(s: Sys) {
    forall t | 0 <= t < |s.threads| :: !s.threads[t].Stopping?
  }

  lemma ClosedIsShutDown(s: Sys)
    requires Inv(s) && s.closed
    ensures ShutDown(s)
  {
    forall q | 0 <= q < |s.queues| ensures s.queues[q].closed && s.queues[q].items == [] && s.workers[q].Stopped? {
      assert WorkerOk(s, q);
    }
  }

  lemma OpenIsAtWork(s: Sys)
    requires Inv(s) && !s.closed && NoneStops(s)
    ensures AtWork(s)
  {
    assert s.exclusive.Some? ==> TakesNoLock(s.threads[s.exclusive.value]);
    assert !SomeStopper(s);
    forall q | 0 <= q < |s.queues|
      ensures !s.queues[q].closed && !s.workers[q].Stopped? && !s.workers[q].Quitting?
    {
      assert WorkerOk(s, q);
    }
  }

  /** Over every run: after Close has returned the client is shut down, and stays so. Until then it
      is not, and whenever no thread is stopping the workers, as after every Flush and Init, all of
      them are at work on open queues. */
  lemma ClosedExactly(init: Sys, run: seq<Step>)
    requires Initial(init) && ValidRun(init, run)
    ensures var s, c := Exec(init, run), ClosingAfter(Closing(None, false), run);
            if c.closed then ShutDown(s) else s.quitOpen && s.errOpen && (NoneStops(s) ==> AtWork(s))
  {
    InitialInv(init);
    RunKnown(init, Closing(None, false), run);
    var s := Exec(init, run);
    if s.closed {
      ClosedIsShutDown(s);
    } else if NoneStops(s) {
      OpenIsAtWork(s);
    }
  }

  /** When no step is possible any more, a poller has ended if the client is closed. */
  lemma StuckPoller(s: Sys)
    requires Reachable(s) && forall a: Step :: !Moves(s, a)
    ensures s.poller.Ended? <==> s.closed
  {
    ReachableInv(s);
    StuckMeansDone(s);
    assert !Moves(s, PollEnd);
  }

  /** The poller of errors ends with Close and only then: when no step is possible any more, it has
      ended if and only if Close has returned. */
  lemma PollerEndsWithClose(init: Sys, run: seq<Step>)
    requires Initial(init) && ValidRun(init, run) && forall a: Step :: !Moves(Exec(init, run), a)
    ensures Exec(init, run).poller.Ended? <==> ClosingAfter(Closing(None, false), run).closed
  {
    InitialInv(init);
    RunKnown(init, Closing(None, false), run);
    StuckPoller(Exec(init, run));
  }
}
