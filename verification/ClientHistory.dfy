/** Requests over whole runs: order, exactly-once, error reports, backlog, and the barriers. */
module ClientHistory {
  import opened Results
  import opened ClientModel
  import opened ClientSafety

  function Reqs(ds: seq<Done>): seq<Req> {
    seq(|ds|, k requires 0 <= k < |ds| => ds[k].req)
  }

  function Failures(ds: seq<Done>): seq<Req> {
    if ds == [] then []
    else Failures(ds[..|ds| - 1]) + if ds[|ds| - 1].ok then [] else [ds[|ds| - 1].req]
  }

  function InFlight(w: Worker): seq<Req> {
    if w.Attempting? || w.Reporting? then [w.req] else []
  }

  /** Every accepted request is, in order of acceptance, finished, in flight or in the queue. */
  predicate Conserved(s: Sys, q: nat)
    requires Shape(s) && q < |s.accepted|
  {
    s.accepted[q] == Reqs(s.finished[q]) + if q < s.n then InFlight(s.workers[q]) + s.queues[q].items else []
  }

  predicate ReportsMatch(s: Sys, q: nat)
    requires Shape(s) && q < |s.accepted|
  {
    s.reported[q] == if s.reports then Failures(s.finished[q]) else []
  }

  predicate Histories(s: Sys)
    requires Shape(s)
  {
    forall q | 0 <= q < |s.accepted| :: Conserved(s, q) && ReportsMatch(s, q)
  }

  predicate Inv(s: Sys) {
    Control(s) && Histories(s)
  }

  lemma InitialInv(s: Sys)
    requires Initial(s)
    ensures Inv(s)
  {
    InitialControl(s);
  }

  lemma ReqsSnoc(ds: seq<Done>, d: Done)
    ensures Reqs(ds + [d]) == Reqs(ds) + [d.req]
    ensures Failures(ds + [d]) == Failures(ds) + if d.ok then [] else [d.req]
  {
    assert (ds + [d])[..|ds|] == ds;
  }

  /** Steps that move no request. */
  lemma SameHistories(s: Sys, s': Sys)
    requires Shape(s) && Shape(s') && Histories(s) && s'.n == s.n && s'.reports == s.reports
    requires forall q | 0 <= q < s.n ::
               s'.queues[q].items == s.queues[q].items && InFlight(s'.workers[q]) == InFlight(s.workers[q])
    requires s'.accepted == s.accepted && s'.finished == s.finished && s'.reported == s.reported
    ensures Histories(s')
  {
    forall q | 0 <= q < |s'.accepted| ensures Conserved(s', q) && ReportsMatch(s', q) {
      assert Conserved(s, q) && ReportsMatch(s, q);
    }
  }

  lemma AcceptConserves(s: Sys, t: nat, q: nat, r: Req)
    requires Inv(s) && t < |s.threads| && (s.threads[t].Trying? || s.threads[t].Sending?)
    requires q < s.n && |s.queues[q].items| < s.cap
    ensures Inv(Accept(s, t, q, r))
  {
    AcceptKeeps(s, t, q, r);
    PosterFindsOpenQueues(s, t);
    var s' := Accept(s, t, q, r);
    forall k | 0 <= k < |s'.accepted| ensures Conserved(s', k) && ReportsMatch(s', k) {
      assert Conserved(s, k) && ReportsMatch(s, k);
    }
  }

  /** A step of worker `w` leaves the other queues alone. */
  lemma OnlyOneQueue(s: Sys, s': Sys, w: nat)
    requires Inv(s) && Shape(s') && s'.n == s.n && s'.reports == s.reports && w < s.n
    requires |s'.accepted| == |s.accepted|
    requires forall k | 0 <= k < s.n && k != w :: s'.workers[k] == s.workers[k] && s'.queues[k] == s.queues[k]
    requires forall k | 0 <= k < |s.accepted| && k != w ::
               s'.accepted[k] == s.accepted[k] && s'.finished[k] == s.finished[k] && s'.reported[k] == s.reported[k]
    requires Conserved(s', w) && ReportsMatch(s', w)
    ensures Histories(s')
  {
    forall k | 0 <= k < |s'.accepted| ensures Conserved(s', k) && ReportsMatch(s', k) {
      assert Conserved(s, k) && ReportsMatch(s, k);
    }
  }

  lemma HeadFirst(items: seq<Req>)
    requires items != []
    ensures [] + items == [items[0]] + items[1..]
  {
  }

  lemma ReceiveConserves(s: Sys, w: nat)
    requires Inv(s) && Enabled(s, Receive(w))
    ensures Histories(StepShape(s, Receive(w)))
  {
    var s' := StepShape(s, Receive(w));
    assert Conserved(s, w) && ReportsMatch(s, w);
    HeadFirst(s.queues[w].items);
    OnlyOneQueue(s, s', w);
  }

  ghost function StepShape(s: Sys, a: Step): (s': Sys)
    requires Inv(s) && Enabled(s, a)
    ensures s' == Apply(s, a) && Shape(s')
  {
    StepControl(s, a);
    Apply(s, a)
  }

  lemma SeeClosedConserves(s: Sys, w: nat)
    requires Inv(s) && Enabled(s, SeeClosed(w))
    ensures Histories(StepShape(s, SeeClosed(w)))
  {
    assert Conserved(s, w) && ReportsMatch(s, w);
    OnlyOneQueue(s, StepShape(s, SeeClosed(w)), w);
  }

  lemma FinishConserves(s: Sys, s': Sys, w: nat, d: Done)
    requires Inv(s) && w < s.n && InFlight(s.workers[w]) == [d.req] && Shape(s')
    requires s'.n == s.n && s'.reports == s.reports && s'.queues == s.queues && s'.accepted == s.accepted
    requires s'.workers == s.workers[w := Waiting] && s'.finished == s.finished[w := s.finished[w] + [d]]
    requires s'.reported == if s.reports && !d.ok then s.reported[w := s.reported[w] + [d.req]] else s.reported
    ensures Histories(s')
  {
    assert Conserved(s, w) && ReportsMatch(s, w) && WorkerOk(s, w);
    ReqsSnoc(s.finished[w], d);
    OnlyOneQueue(s, s', w);
  }

  lemma FailConserves(s: Sys, w: nat)
    requires Inv(s) && Enabled(s, Complete(w, false)) && s.reports
    ensures Histories(StepShape(s, Complete(w, false)))
  {
    assert Conserved(s, w) && ReportsMatch(s, w);
    OnlyOneQueue(s, StepShape(s, Complete(w, false)), w);
  }

  lemma WorkerConserves(s: Sys, a: Step)
    requires Inv(s) && Enabled(s, a)
    requires IsWorkerStep(a)
    ensures Histories(StepShape(s, a))
  {
    match a
    case Receive(w) => ReceiveConserves(s, w);
    case SeeClosed(w) => SeeClosedConserves(s, w);
    case Complete(w, ok) =>
      if ok || !s.reports {
        FinishConserves(s, StepShape(s, a), w, Done(s.workers[w].req, ok));
      } else {
        FailConserves(s, w);
      }
    case Report(w) =>
      assert WorkerOk(s, w);
      FinishConserves(s, StepShape(s, a), w, Done(s.workers[w].req, false));
    case QuitOnClosed(_) =>
      StepControl(s, a);
      assert false;
  }

  /** When `stopWorkers` is through, every queue is empty, every worker has stopped, and every
      request ever accepted has finished. */
  lemma StopDrains(s: Sys, t: nat)
    requires Inv(s) && Enabled(s, StopDone(t))
    ensures forall q | 0 <= q < s.n :: s.queues[q].closed && s.queues[q].items == [] && s.workers[q].Stopped?
    ensures forall q | 0 <= q < |s.accepted| :: s.accepted[q] == Reqs(s.finished[q])
  {
    forall q | 0 <= q < s.n ensures s.queues[q].closed && s.queues[q].items == [] && s.workers[q].Stopped? {
      assert WorkerOk(s, q);
    }
    forall q | 0 <= q < |s.accepted| ensures s.accepted[q] == Reqs(s.finished[q]) {
      assert Conserved(s, q);
    }
  }

  /** New workers on empty queues, with all that was accepted finished. */
  lemma RestartConserves(s: Sys, n: nat, cap: nat)
    requires Shape(s) && Histories(s) && n >= 1 && cap >= 1
    requires forall q | 0 <= q < |s.accepted| :: s.accepted[q] == Reqs(s.finished[q])
    ensures Shape(InitWorkers(s, n, cap)) && Histories(InitWorkers(s, n, cap))
  {
    var s' := InitWorkers(s, n, cap);
    forall k | 0 <= k < |s'.accepted| ensures Conserved(s', k) && ReportsMatch(s', k) {
      if k < |s.accepted| {
        assert Conserved(s, k) && ReportsMatch(s, k);
      }
    }
  }

  lemma StopDoneConserves(s: Sys, t: nat)
    requires Inv(s) && Enabled(s, StopDone(t))
    ensures Inv(Apply(s, StopDone(t)))
  {
    var s' := Apply(s, StopDone(t));
    StepControl(s, StopDone(t));
    StopDrains(s, t);
    match s.threads[t].stop
    case Shut => SameHistories(s, s');
    case Flush =>
      RestartConserves(s, s.n, s.cap);
      SameHistories(InitWorkers(s, s.n, s.cap), s');
    case Reconfigure(n, cap) =>
      RestartConserves(s, n, cap);
      SameHistories(InitWorkers(s, n, cap), s');
  }

  lemma CloseOrAwaitConserves(s: Sys, a: Step)
    requires Inv(s) && Enabled(s, a) && (a.CloseQueue? || a.AwaitQuit?)
    ensures Inv(Apply(s, a))
  {
    StepControl(s, a);
    SameHistories(s, Apply(s, a));
  }

  lemma SendConserves(s: Sys, a: Step)
    requires Inv(s) && Enabled(s, a) && (a.TrySend? || a.Send?)
    ensures Inv(Apply(s, a))
  {
    var th := s.threads[a.t];
    PosterFindsOpenQueues(s, a.t);
    if a.Send? {
      AcceptConserves(s, a.t, th.queue, th.req);
    } else if th.next < s.n && Ready(s, th.next) {
      AcceptConserves(s, a.t, th.next, th.req);
    } else {
      StepControl(s, a);
      SameHistories(s, Apply(s, a));
    }
  }

  lemma LockStepConserves(s: Sys, a: Step)
    requires Inv(s) && Enabled(s, a) && IsLockStep(a)
    ensures Inv(Apply(s, a))
  {
    StepControl(s, a);
    LockStepFrame(s, a);
    SameHistories(s, Apply(s, a));
  }

  lemma StepInv(s: Sys, a: Step)
    requires Inv(s) && Enabled(s, a)
    ensures Inv(Apply(s, a))
  {
    if IsLockStep(a) {
      LockStepConserves(s, a);
    } else if a.TrySend? || a.Send? {
      SendConserves(s, a);
    } else if a.CloseQueue? || a.AwaitQuit? {
      CloseOrAwaitConserves(s, a);
    } else if a.StopDone? {
      StopDoneConserves(s, a.t);
    } else {
      StepControl(s, a);
      WorkerConserves(s, a);
    }
  }

  lemma {:induction false} RunInv(s: Sys, run: seq<Step>)
    requires Inv(s) && ValidRun(s, run)
    ensures Inv(Exec(s, run))
    decreases |run|
  {
    if run != [] {
      StepInv(s, run[0]);
      RunInv(Apply(s, run[0]), run[1..]);
    }
  }

  lemma ReachableInv(s: Sys)
    requires Reachable(s)
    ensures Inv(s)
  {
    var init, run :| Initial(init) && ValidRun(init, run) && Exec(init, run) == s;
    InitialInv(init);
    RunInv(init, run);
  }

  // What the invariant says about requests

  /** No send ever hits a closed queue, error channel or quit channel, nothing is closed twice, and
      there is one queue and one worker for each unit of the configured concurrency. */
  lemma ChannelsAreSafe(s: Sys)
    requires Reachable(s)
    ensures !s.crashed && |s.queues| == |s.workers| == s.n
    ensures forall w | 0 <= w < s.n :: s.workers[w].Reporting? ==> s.errOpen
    ensures forall w | 0 <= w < s.n :: s.workers[w].Quitting? ==> s.quitOpen
  {
    ReachableInv(s);
    forall w | 0 <= w < s.n
      ensures s.workers[w].Reporting? || s.workers[w].Quitting? ==> !s.closed
    {
      assert WorkerOk(s, w);
    }
  }

  /** What was taken from a queue so far, by this worker or by those before it. */
  function Attempted(s: Sys, q: nat): seq<Req>
    requires Shape(s) && q < |s.accepted|
  {
    Reqs(s.finished[q]) + if q < s.n then InFlight(s.workers[q]) else []
  }

  /** What waits in a queue; a queue given up by a smaller configuration has nothing. */
  function Queued(s: Sys, q: nat): seq<Req>
    requires Shape(s)
  {
    if q < s.n then s.queues[q].items else []
  }

  /** Requests of one queue are attempted in the order in which they were accepted: what was taken
      from the queue so far is the first part of what was accepted, and what waits is the rest. */
  lemma AttemptedInOrder(s: Sys, q: nat)
    requires Reachable(s) && q < |s.accepted|
    ensures Shape(s) && s.accepted[q] == Attempted(s, q) + Queued(s, q)
    ensures q >= s.n ==> s.accepted[q] == Reqs(s.finished[q])
  {
    ReachableInv(s);
    assert Conserved(s, q);
  }

  // Identities: a request is accepted once

  /** No request is in two places: accepted twice, or accepted and still being sent. */
  predicate Distinct(s: Sys) {
    && (forall p, i, q, j | 0 <= p < |s.accepted| && 0 <= i < |s.accepted[p]|
                            && 0 <= q < |s.accepted| && 0 <= j < |s.accepted[q]| ::
          s.accepted[p][i] == s.accepted[q][j] ==> p == q && i == j)
    && (forall q, k | 0 <= q < |s.accepted| && 0 <= k < |s.accepted[q]| :: s.accepted[q][k] < s.nextReq)
    && (forall t | 0 <= t < |s.threads| && Sends(s.threads[t]) :: s.threads[t].req < s.nextReq)
    && (forall t, q, k | 0 <= t < |s.threads| && 0 <= q < |s.accepted| && 0 <= k < |s.accepted[q]| ::
          Sends(s.threads[t]) ==> s.threads[t].req != s.accepted[q][k])
    && (forall t, u | 0 <= t < u < |s.threads| ::
          Sends(s.threads[t]) && Sends(s.threads[u]) ==> s.threads[t].req != s.threads[u].req)
  }

  predicate Sends(th: Thread) {
    th.WantClient? || th.Trying? || th.Sending?
  }

  /** Nothing new was accepted. */
  predicate SameAccepted(s: Sys, s': Sys) {
    && |s'.accepted| >= |s.accepted|
    && (forall q | 0 <= q < |s.accepted| :: s'.accepted[q] == s.accepted[q])
    && (forall q | |s.accepted| <= q < |s'.accepted| :: s'.accepted[q] == [])
  }

  /** Thread `t` may have moved, but carries no other request than before. */
  predicate SameSender(s: Sys, s': Sys, t: nat) {
    && t < |s.threads| == |s'.threads|
    && (forall u | 0 <= u < |s.threads| && u != t :: s'.threads[u] == s.threads[u])
    && (Sends(s'.threads[t]) ==> Sends(s.threads[t]) && s'.threads[t].req == s.threads[t].req)
  }

  lemma SameIdentities(s: Sys, s': Sys, t: nat)
    requires Distinct(s) && s'.nextReq == s.nextReq && SameAccepted(s, s')
    requires s'.threads == s.threads || SameSender(s, s', t)
    ensures Distinct(s')
  {
    assert forall q, k | 0 <= q < |s'.accepted| && 0 <= k < |s'.accepted[q]| ::
        q < |s.accepted| && s'.accepted[q][k] == s.accepted[q][k];
    assert forall u | 0 <= u < |s'.threads| && Sends(s'.threads[u]) ::
        Sends(s.threads[u]) && s'.threads[u].req == s.threads[u].req;
  }

  lemma QuietStepDistinct(s: Sys, a: Step)
    requires Distinct(s) && Enabled(s, a) && !a.CallPost? && !a.TrySend? && !a.Send?
    ensures Distinct(Apply(s, a))
  {
    if ThreadOf(a).Some? {
      QuietThreadStep(s, a);
      SameIdentities(s, Apply(s, a), ThreadOf(a).value);
    } else {
      SameIdentities(s, Apply(s, a), 0);
    }
  }

  lemma LockStepSender(s: Sys, a: Step)
    requires Enabled(s, a) && ThreadOf(a).Some? && IsLockStep(a) && !a.CallPost?
    ensures SameSender(s, Apply(s, a), ThreadOf(a).value) && Apply(s, a).nextReq == s.nextReq
  {
  }

  lemma StopStepSender(s: Sys, a: Step)
    requires Enabled(s, a) && (a.CloseQueue? || a.AwaitQuit?)
    ensures SameSender(s, Apply(s, a), a.t) && Apply(s, a).nextReq == s.nextReq && SameAccepted(s, Apply(s, a))
  {
  }

  lemma FlushDoneSender(s: Sys, t: nat)
    requires Enabled(s, StopDone(t)) && s.threads[t].stop.Flush?
    ensures var s' := Apply(s, StopDone(t)); SameSender(s, s', t) && s'.nextReq == s.nextReq && SameAccepted(s, s')
  {
    var s' := Apply(s, StopDone(t));
    assert s'.accepted == Padded(s.accepted, s.n) && s'.threads == s.threads[t := Outside];
  }

  lemma InitDoneSender(s: Sys, t: nat)
    requires Enabled(s, StopDone(t)) && s.threads[t].stop.Reconfigure?
    ensures var s' := Apply(s, StopDone(t)); SameSender(s, s', t) && s'.nextReq == s.nextReq && SameAccepted(s, s')
  {
    var s' := Apply(s, StopDone(t));
    assert s'.accepted == (if s.quitOpen then Padded(s.accepted, s.threads[t].stop.concurrency) else s.accepted);
  }

  lemma StopDoneSender(s: Sys, t: nat)
    requires Enabled(s, StopDone(t))
    ensures var s' := Apply(s, StopDone(t));
            SameSender(s, s', t) && s'.nextReq == s.nextReq && SameAccepted(s, s')
  {
    match s.threads[t].stop
    case Flush => FlushDoneSender(s, t);
    case Shut => assert Apply(s, StopDone(t)).accepted == s.accepted;
    case Reconfigure(_, _) => InitDoneSender(s, t);
  }

  lemma QuietThreadStep(s: Sys, a: Step)
    requires Enabled(s, a) && ThreadOf(a).Some? && !a.CallPost? && !a.TrySend? && !a.Send?
    ensures var s' := Apply(s, a);
            SameSender(s, s', ThreadOf(a).value) && s'.nextReq == s.nextReq && SameAccepted(s, s')
  {
    if a.StopDone? {
      StopDoneSender(s, a.t);
    } else if a.CloseQueue? || a.AwaitQuit? {
      StopStepSender(s, a);
    } else {
      LockStepFrame(s, a);
      LockStepSender(s, a);
    }
  }

  lemma CallPostDistinct(s: Sys, t: nat, affinity: int)
    requires Inv(s) && Distinct(s) && Enabled(s, CallPost(t, affinity))
    ensures Distinct(Apply(s, CallPost(t, affinity)))
  {
  }

  lemma AcceptDistinct(s: Sys, t: nat, q: nat)
    requires Inv(s) && Distinct(s) && t < |s.threads| && (s.threads[t].Trying? || s.threads[t].Sending?)
    requires q < s.n && |s.queues[q].items| < s.cap
    ensures Distinct(Accept(s, t, q, s.threads[t].req))
  {
    PosterFindsOpenQueues(s, t);
    var r := s.threads[t].req;
    var s' := Accept(s, t, q, r);
    assert forall p, i | 0 <= p < |s'.accepted| && 0 <= i < |s'.accepted[p]| ::
        (p == q && i == |s.accepted[q]| && s'.accepted[p][i] == r)
        || (i < |s.accepted[p]| && s'.accepted[p][i] == s.accepted[p][i]);
  }

  lemma SendDistinct(s: Sys, t: nat)
    requires Inv(s) && Distinct(s) && Enabled(s, Send(t))
    ensures Distinct(Apply(s, Send(t)))
  {
    PosterFindsOpenQueues(s, t);
    AcceptDistinct(s, t, s.threads[t].queue);
  }

  lemma TrySendDistinct(s: Sys, t: nat)
    requires Inv(s) && Distinct(s) && Enabled(s, TrySend(t))
    ensures Distinct(Apply(s, TrySend(t)))
  {
    var i := s.threads[t].next;
    PosterFindsOpenQueues(s, t);
    if i < s.n && Ready(s, i) {
      AcceptDistinct(s, t, i);
    } else {
      SameIdentities(s, Apply(s, TrySend(t)), t);
    }
  }

  lemma StepDistinct(s: Sys, a: Step)
    requires Inv(s) && Distinct(s) && Enabled(s, a)
    ensures Distinct(Apply(s, a))
  {
    if a.CallPost? {
      CallPostDistinct(s, a.t, a.affinity);
    } else if a.TrySend? {
      TrySendDistinct(s, a.t);
    } else if a.Send? {
      SendDistinct(s, a.t);
    } else {
      QuietStepDistinct(s, a);
    }
  }

  lemma {:induction false} RunDistinct(s: Sys, run: seq<Step>)
    requires Inv(s) && Distinct(s) && ValidRun(s, run)
    ensures Distinct(Exec(s, run))
    decreases |run|
  {
    if run != [] {
      StepInv(s, run[0]);
      StepDistinct(s, run[0]);
      RunDistinct(Apply(s, run[0]), run[1..]);
    }
  }

  lemma ReachableDistinct(s: Sys)
    requires Reachable(s)
    ensures Inv(s) && Distinct(s)
  {
    var init, run :| Initial(init) && ValidRun(init, run) && Exec(init, run) == s;
    InitialInv(init);
    RunInv(init, run);
    RunDistinct(init, run);
  }

  lemma AcceptedOnce(s: Sys, q: nat, r: Req)
    requires Distinct(s) && q < |s.accepted| && r in s.accepted[q]
    ensures forall p | 0 <= p < |s.accepted| && p != q :: r !in s.accepted[p]
    ensures multiset(s.accepted[q])[r] == 1
  {
    OccursOnce(s.accepted[q], r);
  }

  lemma InOnePart(s: Sys, q: nat, r: Req)
    requires Shape(s) && q < |s.accepted| && Conserved(s, q)
    ensures multiset(s.accepted[q])[r]
         == multiset(Reqs(s.finished[q]))[r]
            + (if q < s.n then multiset(InFlight(s.workers[q]))[r] else 0)
            + multiset(Queued(s, q))[r]
  {
    if q < s.n {
      OccursInParts(Reqs(s.finished[q]), InFlight(s.workers[q]), s.queues[q].items, r);
    } else {
      OccursInParts(Reqs(s.finished[q]), [], [], r);
    }
  }

  /** An accepted request is in exactly one place: it was accepted once, on one queue, and it is
      finished, or in flight, or waiting, and only one of these. */
  lemma ExactlyOnePlace(s: Sys, q: nat, r: Req)
    requires Reachable(s) && q < |s.accepted| && r in s.accepted[q]
    ensures Shape(s)
    ensures forall p | 0 <= p < |s.accepted| && p != q :: r !in s.accepted[p]
    ensures multiset(Reqs(s.finished[q]))[r]
            + (if q < s.n then multiset(InFlight(s.workers[q]))[r] else 0)
            + multiset(Queued(s, q))[r] == 1
  {
    ReachableDistinct(s);
    assert Conserved(s, q);
    AcceptedOnce(s, q, r);
    InOnePart(s, q, r);
  }

  lemma OccursInParts(a: seq<Req>, b: seq<Req>, c: seq<Req>, r: Req)
    ensures multiset(a + (b + c))[r] == multiset(a)[r] + multiset(b)[r] + multiset(c)[r]
  {
  }

  lemma {:induction false} OccursOnce(xs: seq<Req>, r: Req)
    requires r in xs && forall i, j | 0 <= i < j < |xs| :: xs[i] != xs[j]
    ensures multiset(xs)[r] == 1
  {
    var k :| 0 <= k < |xs| && xs[k] == r;
    assert xs == xs[..k] + [r] + xs[k + 1..];
    assert r !in xs[..k] && r !in xs[k + 1..];
  }

  // Backlog

  function Total(sizes: seq<nat>): nat {
    if sizes == [] then 0 else sizes[0] + Total(sizes[1..])
  }

  function Unfinished(s: Sys): seq<nat>
    requires Shape(s)
  {
    seq(s.n, q requires 0 <= q < s.n => |InFlight(s.workers[q])| + |s.queues[q].items|)
  }

  lemma {:induction false} TotalBound(sizes: seq<nat>, each: nat)
    requires forall k | 0 <= k < |sizes| :: sizes[k] <= each
    ensures Total(sizes) <= |sizes| * each
  {
    if sizes != [] {
      TotalBound(sizes[1..], each);
    }
  }

  /** Accepted but unfinished requests never exceed Concurrency * (ChanBuffer + 1). */
  lemma BacklogBounded(s: Sys)
    requires Reachable(s)
    ensures Shape(s) && Total(Unfinished(s)) <= s.n * (s.cap + 1)
    ensures forall q | 0 <= q < s.n :: |s.accepted[q]| - |s.finished[q]| == Unfinished(s)[q]
  {
    ReachableInv(s);
    forall q | 0 <= q < s.n
      ensures |s.accepted[q]| - |s.finished[q]| == Unfinished(s)[q] <= s.cap + 1
    {
      assert Conserved(s, q) && WorkerOk(s, q);
    }
    TotalBound(Unfinished(s), s.cap + 1);
  }

  // Barriers over runs

  lemma StepGrows(s: Sys, a: Step)
    requires Inv(s) && Enabled(s, a)
    ensures |s.accepted| <= |Apply(s, a).accepted|
    ensures forall q | 0 <= q < |s.accepted| :: s.accepted[q] <= Apply(s, a).accepted[q]
  {
    if IsLockStep(a) {
      LockStepFrame(s, a);
    } else if a.StopDone? {
      assert Apply(s, a).accepted == s.accepted || Apply(s, a).accepted == Padded(s.accepted, Apply(s, a).n);
    }
  }

  lemma {:induction false} RunGrows(s: Sys, run: seq<Step>)
    requires Inv(s) && ValidRun(s, run)
    ensures |s.accepted| <= |Exec(s, run).accepted|
    ensures forall q | 0 <= q < |s.accepted| :: s.accepted[q] <= Exec(s, run).accepted[q]
    decreases |run|
  {
    if run != [] {
      StepInv(s, run[0]);
      StepGrows(s, run[0]);
      RunGrows(Apply(s, run[0]), run[1..]);
    }
  }

  /** Flush, Close and Init are barriers: when one of them is done stopping the workers, every
      request that had been accepted at any earlier point of the run has finished, every queue is
      empty and every worker has stopped. */
  lemma StopIsBarrier(early: Sys, run: seq<Step>, t: nat)
    requires Reachable(early) && ValidRun(early, run)
    requires Enabled(Exec(early, run), StopDone(t))
    ensures var late := Exec(early, run);
            && |early.accepted| <= |late.finished|
            && (forall q | 0 <= q < |early.accepted| :: early.accepted[q] <= Reqs(late.finished[q]))
            && Shape(late)
            && (forall q | 0 <= q < late.n :: late.queues[q].items == [] && late.workers[q].Stopped?)
  {
    ReachableInv(early);
    RunInv(early, run);
    RunGrows(early, run);
    StopDrains(Exec(early, run), t);
  }
}
