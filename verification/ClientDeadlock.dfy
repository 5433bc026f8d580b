/** A reachable deadlock: a hook that changes the HTTP configuration while requests fail. */
module ClientDeadlock {
  import opened Results
  import opened ClientModel
  import opened ClientSafety
  import opened ClientHistory
  import opened ClientProgress
  import opened ClientReconfigure

  lemma {:induction false} RunConcat(s: Sys, run: seq<Step>, more: seq<Step>)
    requires ValidRun(s, run) && ValidRun(Exec(s, run), more)
    ensures ValidRun(s, run + more) && Exec(s, run + more) == Exec(Exec(s, run), more)
    decreases |run|
  {
    if run == [] {
      assert run + more == more;
    } else {
      assert (run + more)[1..] == run[1..] + more;
      RunConcat(Apply(s, run[0]), run[1..], more);
    }
  }

  lemma ReachRun(s: Sys, run: seq<Step>)
    requires Reachable(s) && ValidRun(s, run)
    ensures Reachable(Exec(s, run))
  {
    var init, before :| Initial(init) && ValidRun(init, before) && Exec(init, before) == s;
    RunConcat(init, before, run);
  }

  lemma Reach(s: Sys, a: Step, s': Sys)
    requires Reachable(s) && Enabled(s, a) && Apply(s, a) == s'
    ensures Reachable(s')
  {
    var run := [a];
    assert run[1..] == [] && ValidRun(s', []) && Exec(s', []) == s';
    assert ValidRun(s, run) && Exec(s, run) == s';
    ReachRun(s, run);
  }

  /** One queue of two places, one script thread. */
  const START := Sys(1, 2, true, [Queue([], false)], [Waiting], [Outside], Polling, None, Free, None,
                     false, true, true, false, 0, 0, 0, [[]], [[]], [[]])

  lemma StartReachable()
    ensures Reachable(START)
  {
    assert START.queues == seq(1, _ => Queue([], false)) && START.workers == seq(1, _ => Waiting);
    assert START.accepted == seq(1, _ => []) && START.finished == seq(1, _ => []) && START.reported == seq(1, _ => []);
    assert Initial(START) && ValidRun(START, []) && Exec(START, []) == START;
  }

  /** In a hook, with room in the queue. */
  predicate CanPost(s: Sys) {
    && s.n == 1 && s.cap == 2 && |s.queues| == |s.accepted| == 1
    && s.threads == [InHook] && s.luaLock == HeldBy(0)
    && s.clientLock.None? && s.exclusive.None? && !s.closed
    && !s.queues[0].closed && |s.queues[0].items| < 2
  }

  predicate Goes(s: Sys, a: Step, s': Sys) {
    Enabled(s, a) && Apply(s, a) == s'
  }

  function Calling(s: Sys): Sys {
    s.(threads := [WantClient(s.nextReq, -1)], luaLock := Free, nextReq := s.nextReq + 1)
  }

  function Looking(s: Sys): Sys {
    Calling(s).(threads := [Trying(s.nextReq, 0)], clientLock := Some(0))
  }

  function Sent(s: Sys): Sys
    requires CanPost(s)
  {
    Calling(s).(
      threads := [WantLuaBack],
      queues := [Queue(s.queues[0].items + [s.nextReq], false)],
      accepted := [s.accepted[0] + [s.nextReq]])
  }

  /** After one http_post, back in the hook. */
  function Posted(s: Sys): Sys
    requires CanPost(s)
  {
    Sent(s).(threads := [InHook], luaLock := HeldBy(0))
  }

  lemma PostSteps(s: Sys)
    requires CanPost(s)
    ensures Goes(s, CallPost(0, -1), Calling(s))
    ensures Goes(Calling(s), TakeClient(0), Looking(s))
    ensures Goes(Looking(s), TrySend(0), Sent(s))
    ensures Goes(Sent(s), TakeLuaBack(0), Posted(s))
  {
    assert Apply(Looking(s), TrySend(0)).queues == Sent(s).queues;
    assert Apply(Looking(s), TrySend(0)).accepted == Sent(s).accepted;
  }

  lemma PostReaches(s: Sys)
    requires Reachable(s) && CanPost(s)
    ensures Reachable(Posted(s))
  {
    PostSteps(s);
    Reach(s, CallPost(0, -1), Calling(s));
    Reach(Calling(s), TakeClient(0), Looking(s));
    Reach(Looking(s), TrySend(0), Sent(s));
    Reach(Sent(s), TakeLuaBack(0), Posted(s));
  }

  const HOOK := START.(threads := [InHook], luaLock := HeldBy(0))

  lemma HookReachable()
    ensures Reachable(HOOK)
  {
    var waiting := START.(threads := [WantLua]);
    StartReachable();
    Reach(START, EnterHook(0), waiting);
    Reach(waiting, TakeLua(0), HOOK);
  }

  /** A hook that changes the settings while the condition for a deadlock holds. */
  lemma BusyHookDeadlocks(s: Sys, t: nat, concurrency: nat, buffer: nat) returns (end: Sys)
    requires Reachable(s) && Enabled(s, CallInit(t, concurrency, buffer))
    requires Shape(s) && s.reports && Pressure(s) >= 2
    ensures Reachable(end) && Doomed(end)
  {
    var s' := Apply(s, CallInit(t, concurrency, buffer));
    ConfigChangeDeadlocksExactly(s, t, concurrency, buffer);
    Reach(s, CallInit(t, concurrency, buffer), s');
    var run :| ValidRun(s', run) && WithoutReturn(run, t) && Doomed(Exec(s', run));
    ReachRun(s', run);
    end := Exec(s', run);
  }

  /** Two requests are posted from a hook, and the hook then changes the settings: there is a run in
      which both requests fail, the poller waits for the hook to end, a worker waits for the poller,
      and the hook waits for the worker. */
  lemma InitFromHookDeadlocks() returns (s: Sys)
    ensures Reachable(s) && Doomed(s)
  {
    HookReachable();
    PostReaches(HOOK);
    PostReaches(Posted(HOOK));
    var busy := Posted(Posted(HOOK));
    assert |busy.queues[0].items| == 2;
    ReachableInv(busy);
    TotalAtLeast(Unfinished(busy), 0);
    s := BusyHookDeadlocks(busy, 0, 1, 2);
  }

  /** From there no run lets Init return. */
  lemma {:induction false} DoomedRuns(s: Sys, run: seq<Step>)
    requires Inv(s) && Doomed(s) && ValidRun(s, run)
    ensures Doomed(Exec(s, run)) && Exec(s, run).exclusive == s.exclusive
    decreases |run|
  {
    if run != [] {
      StepInv(s, run[0]);
      DoomedForever(s, run[0]);
      DoomedRuns(Apply(s, run[0]), run[1..]);
    }
  }
}
