/** Which configuration is in force: that of the last call of Init that returned. */
module ClientConfig {
  import opened Results
  import opened ClientModel
  import opened ClientSafety
  import opened ClientHistory

  datatype Conf = Conf(concurrency: nat, buffer: nat)

  /** A configuration in force, and the call of Init that has not returned, with its thread. */
  datatype Setting = Setting(conf: Conf, pending: Option<(nat, Conf)>)

  /** Read from the step alone: a call of Init names a configuration, and its return puts it in force. */
  function Heard(c: Setting, a: Step): Setting {
    match a
    case CallInit(t, concurrency, buffer) => c.(pending := Some((t, Conf(concurrency, buffer))))
    case StopDone(t) =>
      if c.pending.Some? && c.pending.value.0 == t then Setting(c.pending.value.1, None) else c
    case _ => c
  }

  function SettingAfter(c: Setting, run: seq<Step>): Setting
    decreases |run|
  {
    if run == [] then c else SettingAfter(Heard(c, run[0]), run[1..])
  }

  /** The client has this configuration, and a thread is in Init exactly if a call has not returned. */
  predicate Agrees(s: Sys, c: Setting) {
    && s.n == c.conf.concurrency && s.cap == c.conf.buffer
    && (c.pending.Some? ==>
          c.pending.value.0 < |s.threads| && InInit(s.threads[c.pending.value.0], c.pending.value.1))
    && forall t | 0 <= t < |s.threads| ::
         s.threads[t].Stopping? && s.threads[t].stop.Reconfigure? ==> c.pending.Some? && c.pending.value.0 == t
  }

  predicate InInit(th: Thread, conf: Conf) {
    th.Stopping? && th.stop == Reconfigure(conf.concurrency, conf.buffer)
  }

  /** A thread that goes on with what it was stopping the workers for, or with something else than that. */
  predicate SameStop(s: Sys, s': Sys, t: nat) {
    && s'.n == s.n && s'.cap == s.cap && t < |s.threads| == |s'.threads|
    && (forall u | 0 <= u < |s.threads| && u != t :: s'.threads[u] == s.threads[u])
    && (if s.threads[t].Stopping? && s.threads[t].stop.Reconfigure?
        then s'.threads[t].Stopping? && s'.threads[t].stop == s.threads[t].stop
        else s'.threads[t].Stopping? ==> !s'.threads[t].stop.Reconfigure?)
  }

  lemma StopStepAgrees(s: Sys, a: Step)
    requires Inv(s) && Enabled(s, a) && (a.CloseQueue? || a.AwaitQuit?)
    ensures SameStop(s, Apply(s, a), a.t)
  {
  }

  lemma SendAgrees(s: Sys, a: Step)
    requires Inv(s) && Enabled(s, a) && (a.TrySend? || a.Send?)
    ensures SameStop(s, Apply(s, a), a.t)
  {
    PosterFindsOpenQueues(s, a.t);
  }

  lemma LockAgrees(s: Sys, a: Step)
    requires Enabled(s, a) && IsLockStep(a) && !IsPollerStep(a) && !a.CallInit?
    ensures SameStop(s, Apply(s, a), ThreadOf(a).value)
  {
  }

  lemma PollerAgrees(s: Sys, a: Step)
    requires Enabled(s, a) && IsPollerStep(a)
    ensures Apply(s, a).threads == s.threads && Apply(s, a).n == s.n && Apply(s, a).cap == s.cap
  {
    match a
    case PollTake => assert Apply(s, PollTake).threads == s.threads;
    case PollDone => assert Apply(s, PollDone).threads == s.threads;
    case PollEnd => assert Apply(s, PollEnd).threads == s.threads;
  }

  lemma OtherAgrees(s: Sys, c: Setting, a: Step)
    requires Inv(s) && Agrees(s, c) && Enabled(s, a) && !a.CallInit? && !a.StopDone?
    ensures Agrees(Apply(s, a), c)
  {
    if IsWorkerStep(a) {
      WorkerStepFrame(s, a);
    } else if IsPollerStep(a) {
      PollerAgrees(s, a);
    } else {
      if a.TrySend? || a.Send? {
        SendAgrees(s, a);
      } else if a.CloseQueue? || a.AwaitQuit? {
        StopStepAgrees(s, a);
      } else {
        LockAgrees(s, a);
      }
      SameStopAgrees(s, Apply(s, a), ThreadOf(a).value, c);
    }
  }

  lemma SameStopAgrees(s: Sys, s': Sys, t: nat, c: Setting)
    requires SameStop(s, s', t) && Agrees(s, c)
    ensures Agrees(s', c)
  {
  }

  lemma CallAgrees(s: Sys, c: Setting, t: nat, concurrency: nat, buffer: nat)
    requires Inv(s) && Agrees(s, c) && Enabled(s, CallInit(t, concurrency, buffer))
    ensures Agrees(Apply(s, CallInit(t, concurrency, buffer)), Heard(c, CallInit(t, concurrency, buffer)))
  {
    forall u | 0 <= u < |s.threads| ensures !(s.threads[u].Stopping? && s.threads[u].stop.Reconfigure?) {
      assert !InClient(s.threads[u]);
    }
  }

  lemma ReturnAgrees(s: Sys, c: Setting, t: nat)
    requires Inv(s) && Agrees(s, c) && Enabled(s, StopDone(t))
    ensures Agrees(Apply(s, StopDone(t)), Heard(c, StopDone(t)))
  {
    assert InClient(s.threads[t]);
    forall u | 0 <= u < |s.threads| && s.threads[u].Stopping? ensures u == t { OneStopper(s, t, u); }
  }

  lemma {:induction false} RunAgrees(s: Sys, c: Setting, run: seq<Step>)
    requires Inv(s) && Agrees(s, c) && ValidRun(s, run)
    ensures Agrees(Exec(s, run), SettingAfter(c, run))
    decreases |run|
  {
    if run != [] {
      var a := run[0];
      StepInv(s, a);
      if a.CallInit? {
        CallAgrees(s, c, a.t, a.concurrency, a.buffer);
      } else if a.StopDone? {
        ReturnAgrees(s, c, a.t);
      } else {
        OtherAgrees(s, c, a);
      }
      RunAgrees(Apply(s, a), Heard(c, a), run[1..]);
    }
  }

  /** Over every run: the number of queues and their size are those of the last Init that returned, or
      the first ones. Flush and Close change neither. */
  lemma ConfigInForce(init: Sys, run: seq<Step>)
    requires Initial(init) && ValidRun(init, run)
    ensures var s, c := Exec(init, run), SettingAfter(Setting(Conf(init.n, init.cap), None), run).conf;
            && s.n == |s.queues| == |s.workers| == c.concurrency && s.cap == c.buffer
            && forall q | 0 <= q < |s.queues| :: |s.queues[q].items| <= c.buffer
  {
    InitialInv(init);
    RunInv(init, run);
    RunAgrees(init, Setting(Conf(init.n, init.cap), None), run);
    var s := Exec(init, run);
    forall q | 0 <= q < |s.queues| ensures |s.queues[q].items| <= s.cap { assert WorkerOk(s, q); }
  }

  /** A queue takes another request exactly as long as it holds fewer than the buffer size. */
  lemma SendsWhileRoom(s: Sys, t: nat)
    requires Reachable(s) && t < |s.threads| && s.threads[t].Sending?
    ensures Enabled(s, Send(t)) <==>
            s.threads[t].queue < |s.queues| && |s.queues[s.threads[t].queue].items| < s.cap
  {
    ReachableInv(s);
    PosterFindsOpenQueues(s, t);
  }
}
