/** Errors over whole runs: each failed request reaches the poller once, and nothing else does. */
module ClientErrors {
  import opened Results
  import opened ClientModel
  import opened ClientSafety
  import opened ClientHistory
  import opened ClientProgress

  /** The requests of queue `q` that fail in the run, in order. */
  function FailedOn(s: Sys, run: seq<Step>, q: nat): seq<Req>
    requires ValidRun(s, run)
    decreases |run|
  {
    if run == [] then []
    else (if run[0] == Complete(q, false) then [s.workers[q].req] else []) + FailedOn(Apply(s, run[0]), run[1..], q)
  }

  /** The requests whose errors are sent on the error channel in the run, in order. */
  function SentIn(s: Sys, run: seq<Step>): seq<Req>
    requires ValidRun(s, run)
    decreases |run|
  {
    if run == [] then []
    else (if run[0].Report? then [s.workers[run[0].w].req] else []) + SentIn(Apply(s, run[0]), run[1..])
  }

  /** The requests for which `callOnHTTPError` returns in the run, in order. */
  function HandledIn(s: Sys, run: seq<Step>): seq<Req>
    requires ValidRun(s, run)
    decreases |run|
  {
    if run == [] then []
    else (if run[0].PollDone? then [s.poller.req] else []) + HandledIn(Apply(s, run[0]), run[1..])
  }

  /** A failed request that the worker is still trying to report. */
  function Unsent(s: Sys, q: nat): seq<Req> {
    if q < |s.workers| && s.workers[q].Reporting? then [s.workers[q].req] else []
  }

  function SentOn(s: Sys, q: nat): seq<Req> {
    if q < |s.reported| then s.reported[q] else []
  }

  /** The error that the poller has received and not yet handled. */
  function WithPoller(s: Sys): seq<Req> {
    if s.poller.GotError? || s.poller.Handling? then [s.poller.req] else []
  }

  predicate SameErrors(s: Sys, s': Sys, q: nat) {
    s'.reports == s.reports && SentOn(s', q) == SentOn(s, q) && Unsent(s', q) == Unsent(s, q)
  }

  // Failures of one queue

  lemma WorkerFails(s: Sys, a: Step, q: nat)
    requires Inv(s) && s.reports && Enabled(s, a) && IsWorkerStep(a)
    ensures Apply(s, a).reports
    ensures SentOn(Apply(s, a), q) + Unsent(Apply(s, a), q)
         == SentOn(s, q) + Unsent(s, q) + (if a == Complete(q, false) then [s.workers[q].req] else [])
  {
    RunningMeansOpen(s, a.w);
    if a.w != q {
      assert SameErrors(s, Apply(s, a), q);
    }
  }

  lemma StopFails(s: Sys, t: nat, q: nat)
    requires Inv(s) && Enabled(s, StopDone(t))
    ensures SameErrors(s, Apply(s, StopDone(t)), q)
  {
    StopDrains(s, t);
    StepControl(s, StopDone(t));
  }

  lemma OtherStepFails(s: Sys, a: Step, q: nat)
    requires Inv(s) && Enabled(s, a) && (a.CloseQueue? || a.AwaitQuit?)
    ensures SameErrors(s, Apply(s, a), q)
  {
    if a.AwaitQuit? {
      assert !s.workers[a.w].Reporting?;
    }
  }

  lemma StepFails(s: Sys, a: Step, q: nat)
    requires Inv(s) && s.reports && Enabled(s, a)
    ensures Apply(s, a).reports
    ensures SentOn(Apply(s, a), q) + Unsent(Apply(s, a), q)
         == SentOn(s, q) + Unsent(s, q) + (if a == Complete(q, false) then [s.workers[q].req] else [])
  {
    if IsWorkerStep(a) {
      WorkerFails(s, a, q);
    } else {
      if IsLockStep(a) {
        LockStepFrame(s, a);
      } else if a.TrySend? {
        TrySendFrame(s, a.t);
      } else if a.Send? {
        SendFrame(s, a.t);
      } else if a.StopDone? {
        StopFails(s, a.t, q);
      } else {
        OtherStepFails(s, a, q);
      }
      assert SameErrors(s, Apply(s, a), q);
    }
  }

  lemma ReqsAssoc(a: seq<Req>, b: seq<Req>, c: seq<Req>)
    ensures a + b + c == a + (b + c)
  {
  }

  lemma {:induction false} RunFails(s: Sys, run: seq<Step>, q: nat)
    requires Inv(s) && s.reports && ValidRun(s, run)
    ensures Exec(s, run).reports
    ensures SentOn(Exec(s, run), q) + Unsent(Exec(s, run), q) == SentOn(s, q) + Unsent(s, q) + FailedOn(s, run, q)
    decreases |run|
  {
    var before := SentOn(s, q) + Unsent(s, q);
    if run == [] {
      assert before + [] == before;
    } else {
      StepInv(s, run[0]);
      StepFails(s, run[0], q);
      RunFails(Apply(s, run[0]), run[1..], q);
      ReqsAssoc(before, if run[0] == Complete(q, false) then [s.workers[q].req] else [],
                FailedOn(Apply(s, run[0]), run[1..], q));
    }
  }

  // The error channel and the poller

  lemma ReportPolls(s: Sys, w: nat)
    requires Inv(s) && Enabled(s, Report(w))
    ensures WithPoller(s) == [] && WithPoller(Apply(s, Report(w))) == [s.workers[w].req]
  {
    RunningMeansOpen(s, w);
  }

  lemma StopPolls(s: Sys, a: Step)
    requires Enabled(s, a) && (a.CloseQueue? || a.AwaitQuit? || a.StopDone?)
    ensures Apply(s, a).poller == s.poller
  {
  }

  lemma WorkerPolls(s: Sys, a: Step)
    requires Enabled(s, a) && IsWorkerStep(a) && !a.Report?
    ensures Apply(s, a).poller == s.poller
  {
  }

  lemma OtherPolls(s: Sys, a: Step)
    requires Enabled(s, a) && !a.Report? && !IsPollerStep(a)
    ensures Apply(s, a).poller == s.poller
  {
    if IsLockStep(a) {
      LockStepPoller(s, a);
    } else if a.TrySend? {
      TrySendFrame(s, a.t);
    } else if a.Send? {
      SendFrame(s, a.t);
    } else if IsWorkerStep(a) {
      WorkerPolls(s, a);
    } else {
      StopPolls(s, a);
    }
  }

  lemma StepPolls(s: Sys, a: Step)
    requires Inv(s) && Enabled(s, a)
    ensures WithPoller(s) + (if a.Report? then [s.workers[a.w].req] else [])
         == (if a.PollDone? then [s.poller.req] else []) + WithPoller(Apply(s, a))
  {
    if a.Report? {
      ReportPolls(s, a.w);
    } else if !IsPollerStep(a) {
      OtherPolls(s, a);
    }
  }

  lemma {:induction false} RunPolls(s: Sys, run: seq<Step>)
    requires Inv(s) && ValidRun(s, run)
    ensures WithPoller(s) + SentIn(s, run) == HandledIn(s, run) + WithPoller(Exec(s, run))
    decreases |run|
  {
    if run == [] {
      assert WithPoller(s) + [] == [] + WithPoller(s);
    } else {
      var s', more := Apply(s, run[0]), run[1..];
      StepInv(s, run[0]);
      StepPolls(s, run[0]);
      RunPolls(s', more);
      var sent := if run[0].Report? then [s.workers[run[0].w].req] else [];
      var handled := if run[0].PollDone? then [s.poller.req] else [];
      ReqsAssoc(WithPoller(s), sent, SentIn(s', more));
      ReqsAssoc(handled, WithPoller(s'), SentIn(s', more));
      ReqsAssoc(handled, HandledIn(s', more), WithPoller(Exec(s', more)));
    }
  }

  // No error is sent twice

  predicate Sent(s: Sys, r: Req) {
    exists q | 0 <= q < |s.reported| :: r in s.reported[q]
  }

  predicate NoRepeat(rs: seq<Req>) {
    forall i, j | 0 <= i < j < |rs| :: rs[i] != rs[j]
  }

  lemma {:induction false} FailureIsFinished(ds: seq<Done>, r: Req)
    requires r in Failures(ds)
    ensures r in Reqs(ds)
  {
    var n := |ds| - 1;
    if ds[n].ok || r != ds[n].req {
      FailureIsFinished(ds[..n], r);
      var k :| 0 <= k < n && Reqs(ds[..n])[k] == r;
      assert Reqs(ds)[k] == r;
    } else {
      assert Reqs(ds)[n] == r;
    }
  }

  lemma SentIsAccepted(s: Sys, q: nat, r: Req)
    requires Inv(s) && q < |s.reported| && r in s.reported[q]
    ensures r in Reqs(s.finished[q])
  {
    assert ReportsMatch(s, q);
    FailureIsFinished(s.finished[q], r);
  }

  lemma FinishedOnce(s: Sys, w: nat, q: nat, r: Req)
    requires Inv(s) && Distinct(s) && w < s.n && InFlight(s.workers[w]) == [r] && q < |s.finished|
    ensures r !in Reqs(s.finished[q])
  {
    assert Conserved(s, w) && Conserved(s, q);
    assert s.accepted[w][|s.finished[w]|] == r;
    forall k | 0 <= k < |s.finished[q]| ensures Reqs(s.finished[q])[k] != r {
      assert s.accepted[q][k] == Reqs(s.finished[q])[k];
    }
  }

  lemma UnsentIsNew(s: Sys, w: nat)
    requires Inv(s) && Distinct(s) && w < s.n && s.workers[w].Reporting?
    ensures !Sent(s, s.workers[w].req)
  {
    var r := s.workers[w].req;
    forall q | 0 <= q < |s.reported| ensures r !in s.reported[q] {
      FinishedOnce(s, w, q, r);
      if r in s.reported[q] {
        SentIsAccepted(s, q, r);
      }
    }
  }

  /** Errors once sent stay in the history, and the history holds no others. */
  lemma StepSent(s: Sys, a: Step, r: Req)
    requires Inv(s) && s.reports && Enabled(s, a)
    ensures Sent(Apply(s, a), r) <==> Sent(s, r) || (a.Report? && r == s.workers[a.w].req)
  {
    StepInv(s, a);
    if a.Report? {
      RunningMeansOpen(s, a.w);
      ReportSent(s, a.w, r);
    } else {
      KeepsSent(s, a);
      SentAgrees(s, Apply(s, a), r);
    }
  }

  lemma ReportSent(s: Sys, w: nat, r: Req)
    requires Shape(s) && Enabled(s, Report(w)) && s.errOpen
    ensures Sent(Apply(s, Report(w)), r) <==> Sent(s, r) || r == s.workers[w].req
  {
    var s' := Apply(s, Report(w));
    assert s'.reported[w] == s.reported[w] + [s.workers[w].req];
    assert forall q | 0 <= q < |s.reported| && q != w :: s'.reported[q] == s.reported[q];
    if Sent(s, r) {
      var q :| 0 <= q < |s.reported| && r in s.reported[q];
      assert r in s'.reported[q];
    }
    if r == s.workers[w].req {
      assert r in s'.reported[w];
    }
  }

  lemma KeepsSent(s: Sys, a: Step)
    requires Inv(s) && Enabled(s, a) && !a.Report?
    ensures |Apply(s, a).reported| >= |s.reported|
    ensures forall q | 0 <= q < |s.reported| :: Apply(s, a).reported[q] == s.reported[q]
    ensures forall q | |s.reported| <= q < |Apply(s, a).reported| :: Apply(s, a).reported[q] == []
  {
    if IsLockStep(a) {
      LockStepFrame(s, a);
    }
  }

  lemma SentAgrees(s: Sys, s': Sys, r: Req)
    requires |s'.reported| >= |s.reported|
    requires forall q | 0 <= q < |s.reported| :: s'.reported[q] == s.reported[q]
    requires forall q | |s.reported| <= q < |s'.reported| :: s'.reported[q] == []
    ensures Sent(s', r) <==> Sent(s, r)
  {
    if Sent(s, r) {
      var q :| 0 <= q < |s.reported| && r in s.reported[q];
      assert r in s'.reported[q];
    }
  }

  lemma {:induction false} RunSends(s: Sys, run: seq<Step>)
    requires Inv(s) && Distinct(s) && s.reports && ValidRun(s, run)
    ensures NoRepeat(SentIn(s, run))
    ensures forall r | r in SentIn(s, run) :: !Sent(s, r)
    ensures forall r :: Sent(Exec(s, run), r) <==> Sent(s, r) || r in SentIn(s, run)
    decreases |run|
  {
    if run != [] {
      var a, s', more := run[0], Apply(s, run[0]), run[1..];
      StepInv(s, a);
      StepDistinct(s, a);
      StepFails(s, a, 0);
      RunSends(s', more);
      forall r ensures Sent(s', r) <==> Sent(s, r) || (a.Report? && r == s.workers[a.w].req) {
        StepSent(s, a, r);
      }
      if a.Report? {
        UnsentIsNew(s, a.w);
        assert SentIn(s, run) == [s.workers[a.w].req] + SentIn(s', more);
      } else {
        assert SentIn(s, run) == SentIn(s', more);
      }
    }
  }

  lemma InitialErrors(init: Sys)
    requires Initial(init)
    ensures Inv(init) && Distinct(init) && WithPoller(init) == []
    ensures forall q: nat :: SentOn(init, q) == [] && Unsent(init, q) == []
    ensures forall r :: !Sent(init, r)
  {
    InitialInv(init);
  }

  lemma FailuresAreSent(init: Sys, run: seq<Step>, q: nat)
    requires Initial(init) && init.reports && ValidRun(init, run)
    ensures FailedOn(init, run, q) == SentOn(Exec(init, run), q) + Unsent(Exec(init, run), q)
  {
    InitialErrors(init);
    RunFails(init, run, q);
    assert [] + [] + FailedOn(init, run, q) == FailedOn(init, run, q);
  }

  lemma SentAreHandled(init: Sys, run: seq<Step>)
    requires Initial(init) && ValidRun(init, run)
    ensures SentIn(init, run) == HandledIn(init, run) + WithPoller(Exec(init, run))
  {
    InitialErrors(init);
    RunPolls(init, run);
    assert [] + SentIn(init, run) == SentIn(init, run);
  }

  lemma SentOnce(init: Sys, run: seq<Step>)
    requires Initial(init) && init.reports && ValidRun(init, run)
    ensures NoRepeat(SentIn(init, run))
    ensures forall r :: r in SentIn(init, run) <==> Sent(Exec(init, run), r)
  {
    InitialErrors(init);
    RunSends(init, run);
  }

  /** Over every run with an error channel: the requests that failed are, queue by queue and in order,
      those whose error was sent and perhaps one that is waiting to be sent; no error is sent twice;
      and the poller has handled what was sent, in the order of sending, but perhaps for the last. */
  lemma ErrorsConserved(init: Sys, run: seq<Step>, q: nat)
    requires Initial(init) && init.reports && ValidRun(init, run)
    ensures FailedOn(init, run, q) == SentOn(Exec(init, run), q) + Unsent(Exec(init, run), q)
    ensures NoRepeat(SentIn(init, run))
    ensures forall r :: r in SentIn(init, run) <==> Sent(Exec(init, run), r)
    ensures SentIn(init, run) == HandledIn(init, run) + WithPoller(Exec(init, run))
  {
    FailuresAreSent(init, run, q);
    SentAreHandled(init, run);
    SentOnce(init, run);
  }

  /** No error is sent for a request that succeeded. */
  lemma OnlyFailuresSent(s: Sys, q: nat)
    requires Reachable(s) && s.reports && q < |s.accepted|
    ensures Shape(s) && s.reported[q] == Failures(s.finished[q])
  {
    ReachableInv(s);
    assert ReportsMatch(s, q);
  }

  /** At the end of a run that has come to rest, `on_http_error` was called exactly once for each
      request that failed, and for no other. */
  lemma FailuresHandledOnce(init: Sys, run: seq<Step>, r: Req)
    requires Initial(init) && init.reports && ValidRun(init, run) && Quiet(Exec(init, run))
    ensures multiset(HandledIn(init, run))[r] == if FailsIn(init, run, r) then 1 else 0
  {
    var s, handled := Exec(init, run), HandledIn(init, run);
    SentAreHandled(init, run);
    SentOnce(init, run);
    assert handled + [] == handled;
    if FailsIn(init, run, r) {
      var q: nat :| r in FailedOn(init, run, q);
      FailuresAreSent(init, run, q);
      NothingUnsent(s, q);
      assert r in s.reported[q];
      OccursOnce(handled, r);
    } else if r in handled {
      var q :| 0 <= q < |s.reported| && r in s.reported[q];
      FailuresAreSent(init, run, q);
      assert false;
    }
  }

  ghost predicate FailsIn(s: Sys, run: seq<Step>, r: Req)
    requires ValidRun(s, run)
  {
    exists q: nat :: r in FailedOn(s, run, q)
  }

  lemma NothingUnsent(s: Sys, q: nat)
    requires Quiet(s)
    ensures Unsent(s, q) == []
  {
    if q < s.n {
      assert QueueQuiet(s, q);
    }
  }
}
