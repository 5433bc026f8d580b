/** Progress: the client never deadlocks, except when it is reconfigured from a hook; and left
    to itself it finishes everything it has accepted. */
module ClientProgress {
  import opened Results
  import opened ClientModel
  import opened ClientSafety
  import opened ClientHistory

  predicate QueueQuiet(s: Sys, q: nat)
    requires Shape(s) && q < s.n
  {
    InFlight(s.workers[q]) == [] && s.queues[q].items == []
  }

  /** Nothing is left to do: no thread in a hook or in the client, no unfinished request, and no
      error that waits to be handled. */
  predicate Quiet(s: Sys) {
    && Shape(s)
    && (forall t | 0 <= t < |s.threads| :: s.threads[t].Outside?)
    && (forall q | 0 <= q < s.n :: QueueQuiet(s, q))
    && !s.poller.GotError? && !s.poller.Handling?
  }

  /** Init, called from a hook, waits for a worker that waits for the poller that waits for the
      lock of the hook. */
  predicate Doomed(s: Sys) {
    && s.exclusive.Some? && s.exclusive.value < |s.threads|
    && var th := s.threads[s.exclusive.value];
    && th.Stopping? && th.stop.Reconfigure? && th.awaiting
    && th.at < |s.workers| && s.workers[th.at].Reporting?
    && s.poller.GotError?
  }

  predicate NoInit(s: Sys) {
    forall t | 0 <= t < |s.threads| :: !(s.threads[t].Stopping? && s.threads[t].stop.Reconfigure?)
  }

  predicate Moves(s: Sys, a: Step) {
    !IsCall(a) && Enabled(s, a)
  }

  /** A hook or the poller that holds `luaLock` can go on; Init may not. */
  predicate LuaWillBeFree(s: Sys) {
    !s.luaLock.HeldBy? || s.luaLock.thread >= |s.threads| || !s.threads[s.luaLock.thread].Stopping?
  }

  lemma LuaMoves(s: Sys) returns (a: Step)
    requires Inv(s) && LuaWillBeFree(s) && (s.poller.GotError? || s.poller.Handling?)
    ensures Moves(s, a)
  {
    match s.luaLock
    case Free => a := PollTake;
    case HeldByPoller => a := PollDone;
    case HeldBy(t) => a := LeaveHook(t);
  }

  /** A worker that has something to do, or is told to stop, can move or waits for the poller. */
  lemma WorkerMoves(s: Sys, w: nat) returns (a: Step)
    requires Inv(s) && w < s.n && LuaWillBeFree(s)
    requires s.workers[w].Attempting? || s.workers[w].Reporting?
             || (s.workers[w].Waiting? && (s.queues[w].items != [] || s.queues[w].closed))
    ensures Moves(s, a)
  {
    assert WorkerOk(s, w);
    match s.workers[w]
    case Attempting(_) => a := Complete(w, true);
    case Reporting(_) =>
      if s.poller.Polling? {
        a := Report(w);
      } else {
        a := LuaMoves(s);
      }
    case Waiting => a := if s.queues[w].items != [] then Receive(w) else SeeClosed(w);
  }

  lemma StopperMoves(s: Sys, t: nat) returns (a: Step)
    requires Inv(s) && t < |s.threads| && s.threads[t].Stopping? && !Doomed(s)
    ensures Moves(s, a)
  {
    var th := s.threads[t];
    if !th.awaiting {
      a := if th.at < s.n then CloseQueue(t) else StopDone(t);
    } else {
      var i := th.at;
      assert WorkerOk(s, i) && InClient(th);
      if s.workers[i].Quitting? {
        a := AwaitQuit(t, i);
      } else if th.stop.Reconfigure? {
        assert HoldsLua(th) && TakesNoLock(th);
        a := match s.workers[i]
          case Attempting(_) => Complete(i, true)
          case Reporting(_) => Report(i)
          case _ => if s.queues[i].items != [] then Receive(i) else SeeClosed(i);
      } else {
        assert LuaWillBeFree(s) by {
          if s.luaLock.HeldBy? && s.threads[s.luaLock.thread].Stopping? {
            OneStopper(s, t, s.luaLock.thread);
          }
        }
        a := WorkerMoves(s, i);
      }
    }
  }

  lemma PosterMoves(s: Sys, t: nat) returns (a: Step)
    requires Inv(s) && t < |s.threads| && (s.threads[t].Trying? || s.threads[t].Sending?)
    requires LuaWillBeFree(s)
    ensures Moves(s, a)
  {
    PosterFindsOpenQueues(s, t);
    if s.threads[t].Trying? {
      a := TrySend(t);
    } else {
      var q := s.threads[t].queue;
      if Ready(s, q) {
        a := Send(t);
      } else {
        assert WorkerOk(s, q);
        a := WorkerMoves(s, q);
      }
    }
  }

  /** A thread that is not idle can move, or the one it waits for can. */
  lemma ThreadMoves(s: Sys, t: nat) returns (a: Step)
    requires Inv(s) && t < |s.threads| && !s.threads[t].Outside? && LuaWillBeFree(s)
    requires forall u | 0 <= u < |s.threads| :: !s.threads[u].Stopping?
    ensures Moves(s, a)
  {
    var th := s.threads[t];
    if th.InHook? {
      a := LeaveHook(t);
    } else if th.WantLua? || th.WantLuaBack? {
      match s.luaLock
      case Free => a := if th.WantLua? then TakeLua(t) else TakeLuaBack(t);
      case HeldByPoller => a := PollDone;
      case HeldBy(u) => a := LeaveHook(u);
    } else if th.Trying? || th.Sending? {
      a := PosterMoves(s, t);
    } else if s.clientLock.Some? {
      a := PosterMoves(s, s.clientLock.value);
    } else {
      a := if th.WantClient? then TakeClient(t) else TakeFlush(t);
    }
  }

  /** Deadlock freedom: as long as anything is left to do, some step of the program is possible,
      unless Init from a hook is caught in the cycle. */
  lemma NeverStuck(s: Sys) returns (a: Step)
    requires Inv(s) && !Quiet(s) && !Doomed(s)
    ensures Moves(s, a)
  {
    if t :| 0 <= t < |s.threads| && s.threads[t].Stopping? {
      a := StopperMoves(s, t);
    } else if t :| 0 <= t < |s.threads| && !s.threads[t].Outside? {
      assert LuaWillBeFree(s);
      a := ThreadMoves(s, t);
    } else if q :| 0 <= q < s.n && !QueueQuiet(s, q) {
      assert WorkerOk(s, q);
      a := WorkerMoves(s, q);
    } else {
      a := LuaMoves(s);
    }
  }

  /** Stuck means done or doomed, in every reachable state. */
  lemma StuckMeansDone(s: Sys)
    requires Reachable(s)
    requires forall a: Step :: !Moves(s, a)
    ensures Quiet(s) || Doomed(s)
  {
    ReachableInv(s);
    if !Quiet(s) && !Doomed(s) {
      var a := NeverStuck(s);
      assert false;
    }
  }

  /** When nothing is left to do, every accepted request has finished. */
  lemma QuietMeansFinished(s: Sys)
    requires Inv(s) && Quiet(s)
    ensures forall q | 0 <= q < |s.accepted| :: s.accepted[q] == Reqs(s.finished[q])
  {
    forall q | 0 <= q < |s.accepted| ensures s.accepted[q] == Reqs(s.finished[q]) {
      assert Conserved(s, q);
      if q < s.n {
        assert QueueQuiet(s, q);
      }
    }
  }

  /** The cycle is never left: whatever the others do, Init does not return. */
  lemma DoomedForever(s: Sys, a: Step)
    requires Inv(s) && Doomed(s) && Enabled(s, a)
    ensures Doomed(Apply(s, a)) && Apply(s, a).exclusive == s.exclusive
    ensures Apply(s, a).threads[s.exclusive.value] == s.threads[s.exclusive.value]
  {
    var t := s.exclusive.value;
    assert TakesNoLock(s.threads[t]) && HoldsLua(s.threads[t]) && InClient(s.threads[t]);
    assert forall u | 0 <= u < |s.threads| && u != t :: !InClient(s.threads[u]);
    if a.AwaitQuit? {
      QuitBelongs(s, a.t, a.w);
    }
  }
}
