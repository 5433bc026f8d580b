/** Where posted requests go: the affinity that a call of Post was given decides its queue. */
module ClientPosts {
  import opened Results
  import opened ClientModel
  import opened ClientSafety
  import opened ClientHistory
  import opened ClientProgress
  import opened ClientConfig

  /** A call of Post: its affinity, the concurrency at the time, and the queues that were tried and
      found full, in order. */
  datatype Post = Post(affinity: int, n: nat, full: seq<nat>)

  /** Read from the steps of a run: what is known of each request that was posted. */
  function Noted(s: Sys, posts: map<Req, Post>, a: Step): map<Req, Post>
    requires Enabled(s, a)
  {
    if a.CallPost? then
      posts[s.nextReq := Post(a.affinity, s.n, [])]
    else if a.TrySend? && FoundFull(s, a.t) && s.threads[a.t].req in posts then
      var r := s.threads[a.t].req;
      posts[r := posts[r].(full := posts[r].full + [s.threads[a.t].next])]
    else
      posts
  }

  /** The thread is about to try a queue that has as many requests as it can hold. */
  predicate FoundFull(s: Sys, t: nat)
    requires t < |s.threads| && s.threads[t].Trying?
  {
    s.threads[t].next < |s.queues| && s.threads[t].next < s.n && |s.queues[s.threads[t].next].items| >= s.cap
  }

  function PostsOf(s: Sys, posts: map<Req, Post>, run: seq<Step>): map<Req, Post>
    requires ValidRun(s, run)
    decreases |run|
  {
    if run == [] then posts else PostsOf(Apply(s, run[0]), Noted(s, posts, run[0]), run[1..])
  }

  /** The first `n` queues. */
  function UpTo(n: nat): seq<nat> {
    seq(n, k => k)
  }

  /** What a thread in Post knows of its request. */
  predicate Carries(th: Thread, n: nat, p: Post) {
    && p.n == n && p.affinity < n
    && match th
       case WantClient(_, affinity) => affinity == p.affinity && p.full == []
       case Trying(_, next) => p.affinity < 0 && next <= n && p.full == UpTo(next)
       case Sending(_, queue) =>
         if p.affinity >= 0 then queue == p.affinity && p.full == [] else queue == 0 && p.full == UpTo(n)
       case _ => true
  }

  /** The queue on which a request was accepted: that of its affinity; without one the first that was
      not full when it was tried, or the first of all when all were full. */
  predicate Landed(p: Post, q: nat) {
    && p.affinity < p.n
    && (if p.affinity >= 0 then q == p.affinity
        else (p.full == UpTo(q) && q < p.n) || (q == 0 && p.full == UpTo(p.n)))
  }

  predicate Accepted(s: Sys, r: Req) {
    exists q | 0 <= q < |s.accepted| :: r in s.accepted[q]
  }

  predicate Carried(s: Sys, r: Req) {
    exists t | 0 <= t < |s.threads| :: Sends(s.threads[t]) && s.threads[t].req == r
  }

  predicate ThreadsKnown(s: Sys, posts: map<Req, Post>) {
    forall t | 0 <= t < |s.threads| && Sends(s.threads[t]) ::
      s.threads[t].req in posts && Carries(s.threads[t], s.n, posts[s.threads[t].req])
  }

  predicate QueuesKnown(s: Sys, posts: map<Req, Post>) {
    forall q, r | 0 <= q < |s.accepted| && r in s.accepted[q] :: r in posts && Landed(posts[r], q)
  }

  /** Every posted request was refused for its affinity, or is on its way, or was accepted. */
  predicate NoneLost(s: Sys, posts: map<Req, Post>) {
    forall r | r in posts ::
      r < s.nextReq && (posts[r].affinity >= posts[r].n || Carried(s, r) || Accepted(s, r))
  }

  predicate PostsOk(s: Sys, posts: map<Req, Post>) {
    ThreadsKnown(s, posts) && QueuesKnown(s, posts) && NoneLost(s, posts)
  }

  // Steps outside Post

  /** No thread in Post moves, and nothing is accepted. */
  predicate PostsAside(s: Sys, s': Sys) {
    && SameAccepted(s, s') && s'.nextReq == s.nextReq && |s'.threads| == |s.threads|
    && (forall t | 0 <= t < |s.threads| && (Sends(s.threads[t]) || Sends(s'.threads[t])) ::
          s'.threads[t] == s.threads[t])
    && (s'.n == s.n || forall t | 0 <= t < |s.threads| :: !Sends(s.threads[t]))
  }

  lemma AsideOk(s: Sys, s': Sys, posts: map<Req, Post>)
    requires PostsOk(s, posts) && PostsAside(s, s')
    ensures PostsOk(s', posts)
  {
    forall q, r | 0 <= q < |s'.accepted| && r in s'.accepted[q] ensures r in posts && Landed(posts[r], q) {
      assert q < |s.accepted| && r in s.accepted[q];
    }
    forall r | r in posts && posts[r].affinity < posts[r].n
      ensures Carried(s', r) || Accepted(s', r)
    {
      if Carried(s, r) {
        var t :| 0 <= t < |s.threads| && Sends(s.threads[t]) && s.threads[t].req == r;
        assert s'.threads[t] == s.threads[t];
      } else {
        var q :| 0 <= q < |s.accepted| && r in s.accepted[q];
        assert r in s'.accepted[q];
      }
    }
  }

  lemma LockStepAside(s: Sys, a: Step)
    requires Enabled(s, a) && IsLockStep(a) && !a.CallPost? && !a.TakeClient?
    ensures PostsAside(s, Apply(s, a))
  {
    if IsPollerStep(a) {
      PollerAside(s, a);
    }
  }

  lemma PollerAside(s: Sys, a: Step)
    requires Enabled(s, a) && IsPollerStep(a)
    ensures PostsAside(s, Apply(s, a))
  {
    match a
    case PollTake => assert Apply(s, PollTake).threads == s.threads;
    case PollDone => assert Apply(s, PollDone).threads == s.threads;
    case PollEnd => assert Apply(s, PollEnd).threads == s.threads;
  }

  lemma StopStepAside(s: Sys, a: Step)
    requires Inv(s) && Enabled(s, a) && (a.CloseQueue? || a.AwaitQuit?)
    ensures PostsAside(s, Apply(s, a))
  {
  }

  lemma StopDoneAside(s: Sys, t: nat)
    requires Inv(s) && Enabled(s, StopDone(t))
    ensures PostsAside(s, Apply(s, StopDone(t)))
  {
    StopDoneSender(s, t);
    assert InClient(s.threads[t]);
    if s.threads[t].stop.Reconfigure? {
      forall u | 0 <= u < |s.threads| ensures !Sends(s.threads[u]) {
        assert TakesNoLock(s.threads[t]);
        assert Sends(s.threads[u]) ==> InClient(s.threads[u]);
      }
    }
  }

  lemma WorkerAside(s: Sys, a: Step)
    requires Inv(s) && Enabled(s, a) && IsWorkerStep(a)
    ensures PostsAside(s, Apply(s, a))
  {
    WorkerStepFrame(s, a);
    WorkerAccepts(s, a);
  }

  lemma WorkerAccepts(s: Sys, a: Step)
    requires Enabled(s, a) && IsWorkerStep(a)
    ensures Apply(s, a).accepted == s.accepted && Apply(s, a).nextReq == s.nextReq
  {
    match a
    case Receive(w) => assert Apply(s, Receive(w)).accepted == s.accepted;
    case SeeClosed(w) => assert Apply(s, SeeClosed(w)).accepted == s.accepted;
    case Complete(w, ok) => assert Apply(s, Complete(w, ok)).accepted == s.accepted;
    case Report(w) => assert Apply(s, Report(w)).accepted == s.accepted;
    case QuitOnClosed(w) => assert Apply(s, QuitOnClosed(w)).accepted == s.accepted;
  }

  // Steps of Post

  lemma CallOk(s: Sys, posts: map<Req, Post>, t: nat, affinity: int)
    requires Inv(s) && Distinct(s) && PostsOk(s, posts) && Enabled(s, CallPost(t, affinity))
    ensures PostsOk(Apply(s, CallPost(t, affinity)), Noted(s, posts, CallPost(t, affinity)))
  {
    var r, s' := s.nextReq, Apply(s, CallPost(t, affinity));
    var posts' := posts[r := Post(affinity, s.n, [])];
    assert r !in posts && s'.accepted == s.accepted;
    forall q, x | 0 <= q < |s.accepted| && x in s.accepted[q] ensures x in posts' && Landed(posts'[x], q) {
      assert x in posts;
    }
    forall x | x in posts' && posts'[x].affinity < posts'[x].n ensures Carried(s', x) || Accepted(s', x) {
      if x == r {
        assert Sends(s'.threads[t]) && s'.threads[t].req == r;
      } else {
        StillKnown(s, s', t, x);
      }
    }
  }

  /** A thread that carried nothing moves: what was carried or accepted still is. */
  lemma StillKnown(s: Sys, s': Sys, t: nat, x: Req)
    requires t < |s.threads| == |s'.threads| && s'.accepted == s.accepted
    requires forall u | 0 <= u < |s.threads| && u != t :: s'.threads[u] == s.threads[u]
    requires Sends(s.threads[t]) ==> Sends(s'.threads[t]) && s'.threads[t].req == s.threads[t].req
    ensures Carried(s, x) ==> Carried(s', x)
    ensures Accepted(s, x) ==> Accepted(s', x)
  {
    if Carried(s, x) {
      var u :| 0 <= u < |s.threads| && Sends(s.threads[u]) && s.threads[u].req == x;
      assert Sends(s'.threads[u]) && s'.threads[u].req == x;
    }
  }

  /** A thread in Post goes on with the same request, knowing more of it. */
  lemma GoesOnOk(s: Sys, s': Sys, t: nat, posts: map<Req, Post>, p: Post)
    requires Distinct(s) && PostsOk(s, posts) && t < |s.threads| == |s'.threads|
    requires Sends(s.threads[t]) && Sends(s'.threads[t]) && s'.threads[t].req == s.threads[t].req
    requires s' == s.(threads := s.threads[t := s'.threads[t]], clientLock := s'.clientLock)
    requires Carries(s'.threads[t], s.n, p)
    ensures PostsOk(s', posts[s.threads[t].req := p])
  {
    var r, posts' := s.threads[t].req, posts[s.threads[t].req := p];
    forall q, x | 0 <= q < |s.accepted| && x in s.accepted[q] ensures x in posts' && Landed(posts'[x], q) {
      assert x != r by { var k :| 0 <= k < |s.accepted[q]| && s.accepted[q][k] == x; }
    }
    forall x | x in posts' && posts'[x].affinity < posts'[x].n ensures Carried(s', x) || Accepted(s', x) {
      if x == r {
        assert Sends(s'.threads[t]) && s'.threads[t].req == r;
      } else {
        StillKnown(s, s', t, x);
      }
    }
  }

  lemma TakeClientOk(s: Sys, posts: map<Req, Post>, t: nat)
    requires Inv(s) && Distinct(s) && PostsOk(s, posts) && Enabled(s, TakeClient(t))
    ensures PostsOk(Apply(s, TakeClient(t)), posts)
  {
    var r := s.threads[t].req;
    assert UpTo(0) == [];
    GoesOnOk(s, Apply(s, TakeClient(t)), t, posts, posts[r]);
    assert posts[r := posts[r]] == posts;
  }

  /** The request of thread `t` is now on queue `q`. */
  lemma AcceptedOk(s: Sys, s': Sys, posts: map<Req, Post>, t: nat, q: nat, r: Req)
    requires PostsOk(s, posts) && t < |s.threads| && Sends(s.threads[t]) && s.threads[t].req == r
    requires q < |s.accepted| && Landed(posts[r], q) && s'.n == s.n && s'.nextReq == s.nextReq
    requires s'.threads == s.threads[t := WantLuaBack] && s'.accepted == s.accepted[q := s.accepted[q] + [r]]
    ensures PostsOk(s', posts)
  {
    forall k, x | 0 <= k < |s'.accepted| && x in s'.accepted[k] ensures x in posts && Landed(posts[x], k) {
      assert x in s.accepted[k] || (k == q && x == r);
    }
    forall x | x in posts && posts[x].affinity < posts[x].n ensures Carried(s', x) || Accepted(s', x) {
      AcceptKnows(s, s', t, q, r, x);
    }
  }

  lemma AcceptOk(s: Sys, posts: map<Req, Post>, t: nat, q: nat)
    requires Inv(s) && PostsOk(s, posts) && t < |s.threads| && q < s.n
    requires (s.threads[t].Trying? || s.threads[t].Sending?) && Landed(posts[s.threads[t].req], q)
    ensures PostsOk(Accept(s, t, q, s.threads[t].req), posts)
  {
    PosterFindsOpenQueues(s, t);
    AcceptedOk(s, Accept(s, t, q, s.threads[t].req), posts, t, q, s.threads[t].req);
  }

  lemma AcceptKnows(s: Sys, s': Sys, t: nat, q: nat, r: Req, x: Req)
    requires t < |s.threads| == |s'.threads| && q < |s.accepted| && s'.accepted == s.accepted[q := s.accepted[q] + [r]]
    requires forall u | 0 <= u < |s.threads| && u != t :: s'.threads[u] == s.threads[u]
    requires Sends(s.threads[t]) && s.threads[t].req == r && (Carried(s, x) || Accepted(s, x))
    ensures Carried(s', x) || Accepted(s', x)
  {
    if Accepted(s, x) {
      var k :| 0 <= k < |s.accepted| && x in s.accepted[k];
      assert x in s'.accepted[k];
    } else if x == r {
      assert r in s'.accepted[q];
    } else {
      var u :| 0 <= u < |s.threads| && Sends(s.threads[u]) && s.threads[u].req == x;
      assert Sends(s'.threads[u]) && s'.threads[u].req == x;
    }
  }

  lemma SendOk(s: Sys, posts: map<Req, Post>, t: nat)
    requires Inv(s) && Distinct(s) && PostsOk(s, posts) && Enabled(s, Send(t))
    ensures PostsOk(Apply(s, Send(t)), posts)
  {
    PosterFindsOpenQueues(s, t);
    AcceptOk(s, posts, t, s.threads[t].queue);
  }

  lemma UpToSnoc(n: nat)
    ensures UpTo(n) + [n] == UpTo(n + 1)
  {
  }

  lemma TrySendOk(s: Sys, posts: map<Req, Post>, t: nat)
    requires Inv(s) && Distinct(s) && PostsOk(s, posts) && Enabled(s, TrySend(t))
    ensures PostsOk(Apply(s, TrySend(t)), Noted(s, posts, TrySend(t)))
  {
    var r, i, s' := s.threads[t].req, s.threads[t].next, Apply(s, TrySend(t));
    var p := posts[r];
    PosterFindsOpenQueues(s, t);
    if i >= s.n {
      GoesOnOk(s, s', t, posts, p);
      assert posts[r := p] == posts;
    } else if |s.queues[i].items| < s.cap {
      AcceptOk(s, posts, t, i);
    } else {
      UpToSnoc(i);
      GoesOnOk(s, s', t, posts, p.(full := p.full + [i]));
    }
  }

  lemma StepPosts(s: Sys, posts: map<Req, Post>, a: Step)
    requires Inv(s) && Distinct(s) && PostsOk(s, posts) && Enabled(s, a)
    ensures PostsOk(Apply(s, a), Noted(s, posts, a))
  {
    if a.CallPost? {
      CallOk(s, posts, a.t, a.affinity);
    } else if a.TrySend? {
      TrySendOk(s, posts, a.t);
    } else if a.Send? {
      SendOk(s, posts, a.t);
    } else if a.TakeClient? {
      TakeClientOk(s, posts, a.t);
    } else {
      OtherStepPosts(s, posts, a);
    }
  }

  lemma OtherStepPosts(s: Sys, posts: map<Req, Post>, a: Step)
    requires Inv(s) && PostsOk(s, posts) && Enabled(s, a)
    requires !a.CallPost? && !a.TrySend? && !a.Send? && !a.TakeClient?
    ensures PostsOk(Apply(s, a), posts)
  {
    if IsLockStep(a) {
      LockStepAside(s, a);
    } else if IsWorkerStep(a) {
      WorkerAside(s, a);
    } else if a.StopDone? {
      StopDoneAside(s, a.t);
    } else {
      StopStepAside(s, a);
    }
    AsideOk(s, Apply(s, a), posts);
  }

  lemma {:induction false} RunPosts(s: Sys, posts: map<Req, Post>, run: seq<Step>)
    requires Inv(s) && Distinct(s) && PostsOk(s, posts) && ValidRun(s, run)
    ensures Inv(Exec(s, run)) && Distinct(Exec(s, run)) && PostsOk(Exec(s, run), PostsOf(s, posts, run))
    decreases |run|
  {
    if run != [] {
      StepInv(s, run[0]);
      StepDistinct(s, run[0]);
      StepPosts(s, posts, run[0]);
      RunPosts(Apply(s, run[0]), Noted(s, posts, run[0]), run[1..]);
    }
  }

  lemma InitialPosts(init: Sys)
    requires Initial(init)
    ensures Inv(init) && Distinct(init) && PostsOk(init, map[])
  {
    InitialInv(init);
  }

  /** Over every run: a request that was accepted on a queue was posted in it, with an affinity below
      the concurrency of the time. With an affinity the queue is the one it names. Without one all
      queues before it were full when they were tried, in order; or all queues were, and it is the
      first. */
  lemma PostedWhereAsked(init: Sys, run: seq<Step>, q: nat, r: Req)
    requires Initial(init) && ValidRun(init, run) && q < |Exec(init, run).accepted| && r in Exec(init, run).accepted[q]
    ensures var posts := PostsOf(init, map[], run);
            && r in posts && posts[r].affinity < posts[r].n
            && (posts[r].affinity >= 0 ==> q == posts[r].affinity)
            && (posts[r].affinity < 0 ==>
                  (posts[r].full == UpTo(q) && q < posts[r].n) || (q == 0 && posts[r].full == UpTo(posts[r].n)))
  {
    InitialPosts(init);
    RunPosts(init, map[], run);
  }

  /** Requests of one affinity finish in the order in which they were accepted: the finished ones are
      those accepted first, and all of this affinity that were accepted are on this queue. */
  lemma AffinityKeepsOrder(init: Sys, run: seq<Step>, affinity: nat)
    requires Initial(init) && ValidRun(init, run)
    ensures var s, posts := Exec(init, run), PostsOf(init, map[], run);
            && (forall q, r | 0 <= q < |s.accepted| && r in s.accepted[q] ::
                  r in posts && (posts[r].affinity == affinity ==> q == affinity))
            && (affinity < |s.accepted| ==>
                  affinity < |s.finished| && Reqs(s.finished[affinity]) <= s.accepted[affinity])
  {
    InitialPosts(init);
    RunPosts(init, map[], run);
    var s := Exec(init, run);
    if affinity < |s.accepted| {
      assert Conserved(s, affinity);
    }
  }

  /** At the end of a run that has come to rest, the requests that were accepted are those that were
      posted with an affinity below the concurrency of the time, and all of them have finished. */
  lemma AcceptedExactly(init: Sys, run: seq<Step>, r: Req)
    requires Initial(init) && ValidRun(init, run) && Quiet(Exec(init, run))
    ensures var posts := PostsOf(init, map[], run);
            Accepted(Exec(init, run), r) <==> r in posts && posts[r].affinity < posts[r].n
    ensures forall q | 0 <= q < |Exec(init, run).accepted| ::
              Exec(init, run).accepted[q] == Reqs(Exec(init, run).finished[q])
  {
    InitialPosts(init);
    RunPosts(init, map[], run);
    QuietMeansFinished(Exec(init, run));
  }

  predicate NeverCallsInit(run: seq<Step>) {
    forall k | 0 <= k < |run| :: !run[k].CallInit?
  }

  /** As long as Init is not called the concurrency of the time is the first one. */
  lemma {:induction false} SameConcurrency(s: Sys, posts: map<Req, Post>, run: seq<Step>, conf: Conf)
    requires Inv(s) && Agrees(s, Setting(conf, None)) && ValidRun(s, run) && NeverCallsInit(run)
    requires forall r | r in posts :: posts[r].n == conf.concurrency
    ensures forall r | r in PostsOf(s, posts, run) :: PostsOf(s, posts, run)[r].n == conf.concurrency
    decreases |run|
  {
    if run != [] {
      var a, c := run[0], Setting(conf, None);
      assert !a.CallInit? && NeverCallsInit(run[1..]);
      StepInv(s, a);
      if a.StopDone? {
        ReturnAgrees(s, c, a.t);
      } else {
        OtherAgrees(s, c, a);
      }
      SameConcurrency(Apply(s, a), Noted(s, posts, a), run[1..], conf);
    }
  }

  /** Without Init, at rest: accepted is what was posted with an affinity below the concurrency. */
  lemma AcceptedBelowConcurrency(init: Sys, run: seq<Step>, r: Req)
    requires Initial(init) && ValidRun(init, run) && NeverCallsInit(run) && Quiet(Exec(init, run))
    ensures var posts := PostsOf(init, map[], run);
            Accepted(Exec(init, run), r) <==> r in posts && posts[r].affinity < init.n
  {
    AcceptedExactly(init, run, r);
    InitialInv(init);
    SameConcurrency(init, map[], run, Conf(init.n, init.cap));
  }
}
