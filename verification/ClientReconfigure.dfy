/** Changing the HTTP settings from a hook: exactly when it can end in the deadlock of
    ClientProgress.Doomed, and that it returns otherwise. */
module ClientReconfigure {
  import opened Results
  import opened ClientModel
  import opened ClientSafety
  import opened ClientHistory
  import opened ClientProgress
  import opened ClientDrain

  /** Thread `t` is in Init. */
  predicate InInit(s: Sys, t: nat) {
    t < |s.threads| && s.threads[t].Stopping? && s.threads[t].stop.Reconfigure?
  }

  /** Errors that may still need the poller: requests that have not finished, and the error that the
      poller has received but cannot handle while the hook holds `luaLock`. */
  function Pressure(s: Sys): nat
    requires Shape(s)
  {
    Total(Unfinished(s)) + if s.poller.GotError? then 1 else 0
  }

  /** Init does not return in this run. */
  predicate WithoutReturn(run: seq<Step>, t: nat) {
    forall k | 0 <= k < |run| :: run[k] != StopDone(t)
  }

  /** Init holds `luaLock` and has the client for itself. */
  lemma InitAlone(s: Sys, t: nat)
    requires Inv(s) && InInit(s, t)
    ensures s.luaLock == HeldBy(t) && s.exclusive == Some(t) && !s.closed && s.errOpen && s.quitOpen
    ensures s.poller.Polling? || s.poller.GotError?
    ensures forall u | 0 <= u < |s.threads| && u != t :: !InClient(s.threads[u]) && !s.threads[u].InHook?
  {
    assert HoldsLua(s.threads[t]) && TakesNoLock(s.threads[t]) && InClient(s.threads[t]);
    forall u | 0 <= u < |s.threads| && u != t ensures !InClient(s.threads[u]) && !s.threads[u].InHook? {
      assert !HoldsLua(s.threads[u]);
    }
  }

  lemma {:induction false} TotalAtLeast(sizes: seq<nat>, k: nat)
    requires k < |sizes|
    ensures Total(sizes) >= sizes[k]
  {
    if k > 0 {
      TotalAtLeast(sizes[1..], k - 1);
    }
  }

  lemma {:induction false} TotalZero(sizes: seq<nat>)
    requires forall k | 0 <= k < |sizes| :: sizes[k] == 0
    ensures Total(sizes) == 0
  {
    if sizes != [] {
      TotalZero(sizes[1..]);
    }
  }

  lemma DoomedPressure(s: Sys)
    requires Inv(s) && Doomed(s)
    ensures s.reports && Pressure(s) >= 2
  {
    var w := s.threads[s.exclusive.value].at;
    assert WorkerOk(s, w);
    TotalAtLeast(Unfinished(s), w);
  }

  lemma ReturnPressure(s: Sys, t: nat)
    requires Inv(s) && Enabled(s, StopDone(t))
    ensures Pressure(s) <= 1
  {
    StopDrains(s, t);
    TotalZero(Unfinished(s));
  }

  /** One queue and its worker change. */
  lemma OneQueuePressure(s: Sys, s': Sys, w: nat)
    requires Shape(s) && Shape(s') && s'.n == s.n && w < s.n
    requires s'.workers == s.workers[w := s'.workers[w]] && s'.queues == s.queues[w := s'.queues[w]]
    ensures Total(Unfinished(s')) + Unfinished(s)[w] == Total(Unfinished(s)) + Unfinished(s')[w]
  {
    assert Unfinished(s') == Unfinished(s)[w := Unfinished(s')[w]];
    TotalUpdate(Unfinished(s), w, Unfinished(s')[w]);
  }

  lemma WorkerPressure(s: Sys, t: nat, a: Step)
    requires Inv(s) && InInit(s, t) && Enabled(s, a) && IsWorkerStep(a)
    ensures Shape(Apply(s, a)) && Apply(s, a).threads == s.threads && Apply(s, a).reports == s.reports
    ensures Pressure(Apply(s, a)) <= Pressure(s)
    ensures s.reports && a != Complete(a.w, true) ==> Pressure(Apply(s, a)) == Pressure(s)
  {
    InitAlone(s, t);
    WorkerStepFrame(s, a);
    assert s.queues[a.w := s.queues[a.w]] == s.queues;
    OneQueuePressure(s, Apply(s, a), a.w);
    assert WorkerOk(s, a.w);
  }

  lemma SamePressure(s: Sys, s': Sys)
    requires Shape(s) && Shape(s') && s'.n == s.n && s'.poller == s.poller
    requires forall q | 0 <= q < s.n ::
               s'.queues[q].items == s.queues[q].items && InFlight(s'.workers[q]) == InFlight(s.workers[q])
    ensures Pressure(s') == Pressure(s)
  {
    assert Unfinished(s') == Unfinished(s);
  }

  /** Another thread can only ask for `luaLock`. */
  lemma OtherSteps(s: Sys, t: nat, a: Step)
    requires Inv(s) && InInit(s, t) && Enabled(s, a) && !IsWorkerStep(a) && a != StopDone(t)
    ensures (a.EnterHook? && a.t != t) || a == CloseQueue(t) || (a.AwaitQuit? && a.t == t)
  {
    InitAlone(s, t);
    if ThreadOf(a).Some? {
      assert ThreadOf(a).value == t || !InClient(s.threads[ThreadOf(a).value]);
    }
  }

  lemma StopperPressure(s: Sys, t: nat, a: Step)
    requires Inv(s) && InInit(s, t) && Enabled(s, a) && (a == CloseQueue(t) || (a.AwaitQuit? && a.t == t))
    ensures Inv(Apply(s, a)) && InInit(Apply(s, a), t) && Apply(s, a).reports == s.reports
    ensures Pressure(Apply(s, a)) == Pressure(s)
  {
    StepInv(s, a);
    SamePressure(s, Apply(s, a));
  }

  lemma EnterPressure(s: Sys, t: nat, u: nat)
    requires Inv(s) && InInit(s, t) && Enabled(s, EnterHook(u)) && u != t
    ensures Inv(Apply(s, EnterHook(u))) && InInit(Apply(s, EnterHook(u)), t)
    ensures Apply(s, EnterHook(u)).reports == s.reports && Pressure(Apply(s, EnterHook(u))) == Pressure(s)
  {
    StepInv(s, EnterHook(u));
    SamePressure(s, Apply(s, EnterHook(u)));
  }

  /** While Init runs the pressure never grows, and only a request that succeeds lowers it. */
  lemma StepPressure(s: Sys, t: nat, a: Step)
    requires Inv(s) && InInit(s, t) && Enabled(s, a) && a != StopDone(t)
    ensures Inv(Apply(s, a)) && InInit(Apply(s, a), t) && Apply(s, a).reports == s.reports
    ensures Pressure(Apply(s, a)) <= Pressure(s)
    ensures s.reports && !(a.Complete? && a.ok) ==> Pressure(Apply(s, a)) == Pressure(s)
  {
    StepInv(s, a);
    if IsWorkerStep(a) {
      WorkerPressure(s, t, a);
    } else {
      OtherSteps(s, t, a);
      if a.EnterHook? {
        EnterPressure(s, t, a.t);
      } else {
        StopperPressure(s, t, a);
      }
    }
  }

  /** Every request fails from now on. */
  function Failing(a: Step): Step {
    if a.Complete? then Complete(a.w, false) else a
  }

  /** With two errors outstanding Init cannot return yet, and if the next request to complete fails
      they stay outstanding. */
  lemma FailingStep(s: Sys, t: nat) returns (a: Step)
    requires Inv(s) && InInit(s, t) && s.reports && Pressure(s) >= 2 && !Doomed(s)
    ensures Moves(s, a) && a != StopDone(t)
    ensures Inv(Apply(s, a)) && InInit(Apply(s, a), t) && Apply(s, a).reports && Pressure(Apply(s, a)) >= 2
  {
    var b := StopperMoves(s, t);
    a := Failing(b);
    if a == StopDone(t) {
      ReturnPressure(s, t);
      assert false;
    }
    StepPressure(s, t, a);
  }

  lemma {:induction false} DeadlockRun(s: Sys, t: nat) returns (run: seq<Step>)
    requires Inv(s) && InInit(s, t) && s.reports && Pressure(s) >= 2
    ensures ValidRun(s, run) && WithoutReturn(run, t) && Doomed(Exec(s, run))
    decreases Measure(s)
  {
    if Doomed(s) {
      run := [];
    } else {
      var a := FailingStep(s, t);
      StepLess(s, a);
      var rest := DeadlockRun(Apply(s, a), t);
      run := [a] + rest;
      assert run[0] == a && run[1..] == rest;
      assert forall k | 1 <= k < |run| :: run[k] == rest[k - 1];
    }
  }

  lemma {:induction false} InitRun(s: Sys, t: nat, run: seq<Step>)
    requires Inv(s) && InInit(s, t) && ValidRun(s, run) && WithoutReturn(run, t)
    ensures Inv(Exec(s, run)) && InInit(Exec(s, run), t) && Exec(s, run).reports == s.reports
    ensures Pressure(Exec(s, run)) <= Pressure(s)
    decreases |run|
  {
    if run != [] {
      StepPressure(s, t, run[0]);
      InitRun(Apply(s, run[0]), t, run[1..]);
    }
  }

  ghost predicate CanDeadlock(s: Sys, t: nat) {
    exists run :: ValidRun(s, run) && WithoutReturn(run, t) && Doomed(Exec(s, run))
  }

  /** A call of Init in progress can deadlock exactly when errors are reported and at least two of
      them may still need the poller. */
  lemma InitDeadlocksExactly(s: Sys, t: nat)
    requires Inv(s) && InInit(s, t)
    ensures CanDeadlock(s, t) <==> s.reports && Pressure(s) >= 2
  {
    if s.reports && Pressure(s) >= 2 {
      var run := DeadlockRun(s, t);
    }
    if run :| ValidRun(s, run) && WithoutReturn(run, t) && Doomed(Exec(s, run)) {
      InitRun(s, t, run);
      DoomedPressure(Exec(s, run));
    }
  }

  /** What a hook can look at before it changes the settings: with at most one unfinished request or
      unhandled error the call is safe, and with more it is not. */
  lemma ConfigChangeDeadlocksExactly(s: Sys, t: nat, concurrency: nat, buffer: nat)
    requires Reachable(s) && Enabled(s, CallInit(t, concurrency, buffer))
    ensures Shape(s)
    ensures CanDeadlock(Apply(s, CallInit(t, concurrency, buffer)), t) <==> s.reports && Pressure(s) >= 2
  {
    ReachableInv(s);
    var s' := Apply(s, CallInit(t, concurrency, buffer));
    StepInv(s, CallInit(t, concurrency, buffer));
    SamePressure(s, s');
    InitDeadlocksExactly(s', t);
  }

  /** Where it is safe, Init returns: until it does, the program can go on, and not for ever. */
  lemma InitReturns(s: Sys, t: nat, run: seq<Step>)
    requires Inv(s) && InInit(s, t) && !CanDeadlock(s, t)
    requires ValidRun(s, run) && AllMoves(run) && WithoutReturn(run, t)
    ensures |run| <= Measure(s)
    ensures exists a: Step :: Moves(Exec(s, run), a)
  {
    RunsAreBounded(s, run);
    InitRun(s, t, run);
    var a := StopperMoves(Exec(s, run), t);
  }
}
