// thread_pool and connection_pool as objects. Each method is one mutex section, or
// one thread's loop when nothing interleaves, and is tied to the state machines.

module DbPools {
  import opened Sums
  import TP = ThreadPool
  import E = Executor
  import Safety = ExecutorSafety

  class WorkerPool<T(!new)> {
    var taskDeque: seq<TP.Entry<T>>
    var done: bool
    var workers: seq<TP.Worker<T>>
    var owner: Option<nat>
    var notifiers: nat
    var pushed: nat

    ghost function View(): TP.Pool<T>
      reads this
    {
      TP.Pool(taskDeque, done, workers, owner, notifiers, pushed)
    }

    constructor (threadsCount: nat)
      ensures View() == TP.Start(threadsCount)
    {
      taskDeque, done, workers := [], false, seq(threadsCount, _ => TP.Loop);
      owner, notifiers, pushed := None, 0, 0;
    }

    method PushTaskBack(job: T)
      requires owner.None?
      modifies this
      ensures View() == TP.Next(old(View()), TP.Push(false, job))
    {
      taskDeque := taskDeque + [TP.Entry(pushed, false, job)];
      notifiers, pushed := notifiers + 1, pushed + 1;
    }

    method PushTaskFront(job: T)
      requires owner.None?
      modifies this
      ensures View() == TP.Next(old(View()), TP.Push(true, job))
    {
      taskDeque := [TP.Entry(pushed, true, job)] + taskDeque;
      notifiers, pushed := notifiers + 1, pushed + 1;
    }

    // Any sleeper may be the one that is woken.
    method NotifyOne()
      requires notifiers > 0
      modifies this
      ensures exists woken :: TP.CanNotify(old(View()), woken) && View() == TP.Notified(old(View()), woken)
    {
      if w: nat :| w < |workers| && workers[w].Asleep? {
        assert TP.CanNotify(View(), Some(w));
        workers, notifiers := workers[w := TP.Locking], notifiers - 1;
        assert View() == TP.Notified(old(View()), Some(w));
      } else {
        assert TP.CanNotify(View(), None);
        notifiers := notifiers - 1;
        assert View() == TP.Notified(old(View()), None);
      }
    }

    method PullTask(w: nat) returns (job: T)
      requires w < |workers| && workers[w].Pulling? && taskDeque != []
      modifies this
      ensures View() == TP.Next(old(View()), TP.Pull(w)) && job == old(taskDeque)[0].job
    {
      job := taskDeque[0].job;
      taskDeque, workers, owner := taskDeque[1..], workers[w := TP.Running(job)], None;
    }

    // One turn of the loop with a task to run.
    method RunNext(w: nat) returns (job: T)
      requires w < |workers| && workers[w].Loop? && owner.None? && !done && taskDeque != []
      modifies this
      ensures View() == old(View()).(tasks := old(taskDeque)[1..]) && job == old(taskDeque)[0].job
      ensures Leads(old(View()), View())
    {
      ghost var start := View();
      workers, owner := workers[w := TP.Testing], Some(w);
      workers := workers[w := TP.Pulling];
      job := PullTask(w);
      workers := workers[w := TP.Loop];
      assert workers == start.workers;
      BusyRun(start, w);
    }

    // One turn that finds the deque empty.
    method FallAsleep(w: nat)
      requires w < |workers| && workers[w].Loop? && owner.None? && !done && taskDeque == []
      modifies this
      ensures View() == TP.At(old(View()), w, TP.Asleep)
      ensures Leads(old(View()), View())
    {
      ghost var start := View();
      workers, owner := workers[w := TP.Testing], Some(w);
      workers := workers[w := TP.Parking];
      workers, owner := workers[w := TP.Asleep], None;
      assert workers == start.workers[w := TP.Asleep];
      IdleRun(start, w);
    }

    // The stop flag seen at the head of the loop.
    method Exit(w: nat)
      requires w < |workers| && workers[w].Loop? && done
      modifies this
      ensures View() == TP.At(old(View()), w, TP.Exited)
      ensures Leads(old(View()), View())
    {
      ghost var start := View();
      workers := workers[w := TP.Exited];
      RunNone(View());
      RunOne(start, TP.CheckDone(w), [], View());
    }

    // worker_thread of one worker while no other thread takes a step: it runs the
    // whole deque front to back and falls asleep, or exits at once if told to stop.
    // What it does is a run of the state machine.
    method WorkerThread(w: nat) returns (ran: seq<T>)
      requires w < |workers| && workers[w].Loop? && owner.None?
      modifies this
      ensures Leads(old(View()), View())
      ensures done ==> ran == [] && View() == TP.At(old(View()), w, TP.Exited)
      ensures !done ==> ran == Jobs(old(taskDeque)) && View() == TP.At(old(View()).(tasks := []), w, TP.Asleep)
    {
      ran := [];
      ghost var start := View();
      RunNone(start);
      while !done
        invariant Leads(start, View())
        invariant View() == start.(tasks := taskDeque)
        invariant ran + Jobs(taskDeque) == Jobs(start.tasks)
        invariant done ==> ran == [] && taskDeque == start.tasks
        decreases |taskDeque|
      {
        ghost var before := View();
        if taskDeque == [] {
          FallAsleep(w);
          LeadsTrans(start, before, View());
          return;
        }
        var job := RunNext(w);
        ghost var after := View();
        LeadsTrans(start, before, after);
        JobsMove(ran, before.tasks);
        ran := ran + [job];
      }
      Exit(w);
    }
  }

  lemma JobsMove<T>(ran: seq<T>, tasks: seq<TP.Entry<T>>)
    requires tasks != []
    ensures (ran + [tasks[0].job]) + Jobs(tasks[1..]) == ran + Jobs(tasks)
  {
    assert (ran + [tasks[0].job]) + Jobs(tasks[1..]) == ran + ([tasks[0].job] + Jobs(tasks[1..]));
  }

  ghost predicate Leads<T(!new)>(p: TP.Pool<T>, q: TP.Pool<T>) {
    exists ls :: TP.Run(p, ls, q)
  }

  lemma RunNone<T>(p: TP.Pool<T>)
    ensures TP.Run(p, [], p)
  {
  }

  lemma LeadsTrans<T(!new)>(p: TP.Pool<T>, q: TP.Pool<T>, r: TP.Pool<T>)
    requires Leads(p, q) && Leads(q, r)
    ensures Leads(p, r)
  {
    var a :| TP.Run(p, a, q);
    var b :| TP.Run(q, b, r);
    RunTrans(p, a, q, b, r);
  }

  function Jobs<T>(tasks: seq<TP.Entry<T>>): seq<T> {
    if tasks == [] then [] else [tasks[0].job] + Jobs(tasks[1..])
  }

  lemma {:induction false} RunTrans<T>(p: TP.Pool<T>, a: seq<TP.Label<T>>, q: TP.Pool<T>, b: seq<TP.Label<T>>,
                                       r: TP.Pool<T>)
    requires TP.Run(p, a, q) && TP.Run(q, b, r)
    ensures TP.Run(p, a + b, r)
    decreases |a|
  {
    if a == [] {
      assert a + b == b;
    } else {
      var l, rest := a[0], a[1..];
      assert a + b == [l] + (rest + b);
      RunTrans(TP.Next(p, l), rest, q, b, r);
      RunOne(p, l, rest + b, r);
    }
  }

  lemma RunOne<T>(p: TP.Pool<T>, l: TP.Label<T>, rest: seq<TP.Label<T>>, r: TP.Pool<T>)
    requires TP.Enabled(p, l) && TP.Run(TP.Next(p, l), rest, r)
    ensures TP.Run(p, [l] + rest, r)
  {
    assert ([l] + rest)[1..] == rest;
  }

  lemma IdleRun<T>(p: TP.Pool<T>, w: nat)
    requires w < |p.workers| && p.workers[w].Loop? && p.owner.None? && !p.done && p.tasks == []
    ensures TP.Run(p, [TP.CheckDone(w), TP.Acquire(w), TP.Test(w), TP.Park(w)], TP.At(p, w, TP.Asleep))
  {
    var a := TP.Next(p, TP.CheckDone(w));
    var b := TP.Next(a, TP.Acquire(w));
    var c := TP.Next(b, TP.Test(w));
    var d := TP.Next(c, TP.Park(w));
    assert d == TP.At(p, w, TP.Asleep);
    RunOne(c, TP.Park(w), [], d);
    RunOne(b, TP.Test(w), [TP.Park(w)], d);
    RunOne(a, TP.Acquire(w), [TP.Test(w), TP.Park(w)], d);
    RunOne(p, TP.CheckDone(w), [TP.Acquire(w), TP.Test(w), TP.Park(w)], d);
  }

  lemma BusyRun<T>(p: TP.Pool<T>, w: nat)
    requires w < |p.workers| && p.workers[w].Loop? && p.owner.None? && !p.done && p.tasks != []
    ensures TP.Run(p, [TP.CheckDone(w), TP.Acquire(w), TP.Test(w), TP.Recheck(w), TP.Pull(w), TP.Finish(w)],
                   p.(tasks := p.tasks[1..]))
  {
    var a := TP.Next(p, TP.CheckDone(w));
    var b := TP.Next(a, TP.Acquire(w));
    var c := TP.Next(b, TP.Test(w));
    var d := TP.Next(c, TP.Recheck(w));
    var e := TP.Next(d, TP.Pull(w));
    var f := TP.Next(e, TP.Finish(w));
    assert f == p.(tasks := p.tasks[1..]) by {
      assert f.workers == p.workers;
    }
    RunOne(e, TP.Finish(w), [], f);
    RunOne(d, TP.Pull(w), [TP.Finish(w)], f);
    RunOne(c, TP.Recheck(w), [TP.Pull(w), TP.Finish(w)], f);
    RunOne(b, TP.Test(w), [TP.Recheck(w), TP.Pull(w), TP.Finish(w)], f);
    RunOne(a, TP.Acquire(w), [TP.Test(w), TP.Recheck(w), TP.Pull(w), TP.Finish(w)], f);
    RunOne(p, TP.CheckDone(w), [TP.Acquire(w), TP.Test(w), TP.Recheck(w), TP.Pull(w), TP.Finish(w)], f);
  }

  // ---- connection_pool ----

  const ATTEMPTS := 5

  // One of the attempts for slot i succeeds.
  predicate Connects(ok: (nat, nat) -> bool, i: nat) {
    exists a: nat :: a < ATTEMPTS && ok(i, a)
  }

  // The slots below n whose connection was established, in order.
  ghost function Connected(ok: (nat, nat) -> bool, n: nat): seq<nat> {
    if n == 0 then [] else Connected(ok, n - 1) + (if Connects(ok, n - 1) then [n - 1] else [])
  }

  // The attempts made for slot i from attempt a on: up to the first that succeeds.
  ghost function Tries(ok: (nat, nat) -> bool, i: nat, a: nat): nat
    requires a <= ATTEMPTS
    decreases ATTEMPTS - a
  {
    if a == ATTEMPTS then 0 else if ok(i, a) then 1 else 1 + Tries(ok, i, a + 1)
  }

  ghost function AllTries(ok: (nat, nat) -> bool, n: nat): nat {
    if n == 0 then 0 else AllTries(ok, n - 1) + Tries(ok, n - 1, 0)
  }

  // The labels one call of pull_connection by worker w amounts to.
  function PullLabels(w: nat, statusOk: bool, resetOk: bool): seq<E.Label> {
    [E.Work(w, E.Take)] +
    (if statusOk then [E.Work(w, E.StatusOk)]
     else [E.Work(w, E.StatusBad), E.Work(w, if resetOk then E.ResetOk else E.ResetBad)])
  }

  class ConnectionPool {
    var connsDeque: seq<nat>
    var connsEstablished: nat
    // The handles that were made, and those that were finished.
    ghost var handlesMade: nat
    ghost var handlesFinished: nat

    // The attempts for one slot, up to the first that succeeds; every handle of an
    // attempt that failed is finished.
    method Connect(i: nat, ok: (nat, nat) -> bool) returns (success: bool)
      modifies this`handlesMade, this`handlesFinished
      ensures success <==> exists a: nat :: a < 5 && ok(i, a)
      ensures !success ==> handlesMade == old(handlesMade) + 5
      ensures success ==>
        exists a: nat :: a < 5 && ok(i, a) && (forall b: nat :: b < a ==> !ok(i, b)) &&
          handlesMade == old(handlesMade) + a + 1
      ensures handlesMade == old(handlesMade) + Tries(ok, i, 0)
      ensures handlesMade - old(handlesMade) == handlesFinished - old(handlesFinished) + (if success then 1 else 0)
    {
      success := false;
      var a: nat := 0;
      while a != ATTEMPTS && !success
        invariant a <= ATTEMPTS && (success ==> a < ATTEMPTS && ok(i, a))
        invariant forall b: nat :: b < a ==> !ok(i, b)
        invariant handlesMade == old(handlesMade) + a + (if success then 1 else 0)
        invariant handlesMade + (if success then 0 else Tries(ok, i, a)) == old(handlesMade) + Tries(ok, i, 0)
        invariant handlesMade - old(handlesMade) == handlesFinished - old(handlesFinished) + (if success then 1 else 0)
        decreases ATTEMPTS - a, !success
      {
        handlesMade := handlesMade + 1;
        if ok(i, a) {
          success := true;
        } else {
          handlesFinished := handlesFinished + 1;
          a := a + 1;
        }
      }
    }

    // ok(i, a) is what attempt a for slot i comes to. Every handle that was made, one
    // for each attempt, is in the deque or has been finished.
    constructor MakeConnections(connCount: nat, ok: (nat, nat) -> bool)
      ensures connsDeque == Connected(ok, connCount) && connsEstablished == |connsDeque|
      ensures handlesMade == AllTries(ok, connCount) == handlesFinished + |connsDeque|
    {
      connsDeque, connsEstablished := [], 0;
      handlesMade, handlesFinished := 0, 0;
      new;
      for i := 0 to connCount
        invariant connsDeque == Connected(ok, i)
        invariant handlesMade == AllTries(ok, i) == handlesFinished + |connsDeque|
      {
        var success := Connect(i, ok);
        if success {
          connsDeque := connsDeque + [i];
        }
      }
      connsEstablished := |connsDeque|;
    }

    // The pull, then the look at the connection without the mutex: statusOk and resetOk
    // say what PQstatus and PQreset come to. Undisturbed, the call is a run of the
    // executor, for any state s in which a worker w asks for a connection of this deque.
    method PullConnection(statusOk: bool, resetOk: bool, ghost s: E.Sys, ghost w: nat)
        returns (pulled: bool, conn: Option<nat>, ghost t: E.Sys)
      requires s.conns == connsDeque && E.RunsCommand(s, w) && E.StageOf(s, w).Polling?
      modifies this`connsDeque
      ensures old(connsDeque) == [] ==> !pulled && conn == None && connsDeque == [] && t == s && E.Enabled(s, E.Spin(w))
      ensures old(connsDeque) != [] ==>
        && conn == Some(old(connsDeque)[0]) && connsDeque == old(connsDeque)[1..] && pulled == (statusOk || resetOk)
        && E.Run(s, PullLabels(w, statusOk, resetOk), t)
      ensures t.conns == connsDeque && E.RunsCommand(t, w)
      ensures E.StageOf(t, w) == if pulled then E.Holding(conn.value) else E.Polling
    {
      t := s;
      if connsDeque == [] {
        return false, None, s;
      }
      t := PullRefines(s, w, statusOk, resetOk);
      conn := Some(connsDeque[0]);
      connsDeque := connsDeque[1..];
      pulled := statusOk || resetOk;
    }

    // The executor's step that gives a connection back.
    method PushConnection(conn: nat, ghost s: E.Sys, ghost w: nat)
      requires s.conns == connsDeque && E.CanWork(s, w, E.GiveBack) && E.StageOf(s, w).conn == conn
      modifies this`connsDeque
      ensures connsDeque == [conn] + old(connsDeque) && connsDeque == E.Worked(s, w, E.GiveBack).conns
    {
      connsDeque := [conn] + connsDeque;
    }

    // The destructor, after that of the thread pool, finishes what the deque holds, in
    // order and once each; what it does is a run of the executor.
    method Destroy(ghost s: E.Sys) returns (finished: seq<nat>, ghost t: E.Sys)
      requires s.conns == connsDeque && s.torn
      modifies this`connsDeque, this`handlesFinished
      ensures connsDeque == [] && finished == old(connsDeque)
      ensures handlesFinished == old(handlesFinished) + |finished|
      ensures LeadsTo(s, t) && t.conns == [] && t.finished == s.finished + finished
    {
      finished, t := [], s;
      LeadsNowhere(s);
      while connsDeque != []
        invariant finished + connsDeque == old(connsDeque)
        invariant handlesFinished == old(handlesFinished) + |finished|
        invariant LeadsTo(s, t) && t.torn && t.conns == connsDeque && t.finished == s.finished + finished
        decreases |connsDeque|
      {
        t := OneFinished(s, t);
        finished := finished + [connsDeque[0]];
        handlesFinished := handlesFinished + 1;
        connsDeque := connsDeque[1..];
      }
    }
  }

  ghost predicate LeadsTo(s: E.Sys, t: E.Sys) {
    exists ls :: E.Run(s, ls, t)
  }

  lemma LeadsNowhere(s: E.Sys)
    ensures LeadsTo(s, s)
  {
    assert E.Run(s, [], s);
  }

  lemma {:induction false} RunThen(s: E.Sys, ls: seq<E.Label>, t: E.Sys, l: E.Label, u: E.Sys)
    requires E.Run(s, ls, t) && E.Enabled(t, l) && u == E.Next(t, l)
    ensures E.Run(s, ls + [l], u)
    decreases |ls|
  {
    if ls == [] {
      assert E.Run(u, [], u);
      Safety.StepFirst(t, l, u, [], u);
      assert ls + [l] == [l] + [];
    } else {
      var first, rest := ls[0], ls[1..];
      RunThen(E.Next(s, first), rest, t, l, u);
      Safety.StepFirst(s, first, E.Next(s, first), rest + [l], u);
      assert ls + [l] == [first] + (rest + [l]);
    }
  }

  lemma OneFinished(s: E.Sys, t: E.Sys) returns (u: E.Sys)
    requires LeadsTo(s, t) && t.torn && t.conns != []
    ensures LeadsTo(s, u) && u.torn && u.conns == t.conns[1..] && u.finished == t.finished + [t.conns[0]]
  {
    var ls :| E.Run(s, ls, t);
    u := E.Next(t, E.Tear(E.FinishConn));
    RunThen(s, ls, t, E.Tear(E.FinishConn), u);
  }

  // Every established connection has its own slot number, so starting the executor
  // with the numbers below connsEstablished renames them and loses none.
  lemma {:induction false} ConnectedDistinct(ok: (nat, nat) -> bool, n: nat)
    ensures |Connected(ok, n)| <= n
    ensures forall c :: c in Connected(ok, n) <==> 0 <= c < n && exists a: nat :: a < 5 && ok(c, a)
    ensures forall i, j :: 0 <= i < j < |Connected(ok, n)| ==> Connected(ok, n)[i] < Connected(ok, n)[j]
  {
    if n > 0 {
      ConnectedDistinct(ok, n - 1);
      var earlier := Connected(ok, n - 1);
      assert forall i :: 0 <= i < |earlier| ==> earlier[i] in earlier;
    }
  }

  // A call that nothing interleaves, in the state machine: the same connection, the
  // same deque, and a connection whose reset failed is lost.
  lemma PullRefines(s: E.Sys, w: nat, statusOk: bool, resetOk: bool) returns (t: E.Sys)
    requires E.RunsCommand(s, w) && E.StageOf(s, w).Polling? && s.conns != []
    ensures E.Run(s, PullLabels(w, statusOk, resetOk), t)
    ensures t.conns == s.conns[1..] && E.RunsCommand(t, w)
    ensures E.StageOf(t, w) == if statusOk || resetOk then E.Holding(s.conns[0]) else E.Polling
    ensures t.lost == if statusOk || resetOk then s.lost else s.lost + multiset{s.conns[0]}
  {
    var a := E.Worked(s, w, E.Take);
    if statusOk {
      t := E.Worked(a, w, E.StatusOk);
      WorkFirst(a, w, E.StatusOk, [], t);
      WorkFirst(s, w, E.Take, [E.Work(w, E.StatusOk)], t);
    } else {
      var b := E.Worked(a, w, E.StatusBad);
      var last := if resetOk then E.ResetOk else E.ResetBad;
      t := E.Worked(b, w, last);
      WorkFirst(b, w, last, [], t);
      WorkFirst(a, w, E.StatusBad, [E.Work(w, last)], t);
      WorkFirst(s, w, E.Take, [E.Work(w, E.StatusBad), E.Work(w, last)], t);
    }
  }

  lemma WorkFirst(s: E.Sys, w: nat, act: E.Act, rest: seq<E.Label>, t: E.Sys)
    requires E.CanWork(s, w, act) && E.Run(E.Worked(s, w, act), rest, t)
    ensures E.Run(s, [E.Work(w, act)] + rest, t)
  {
    Safety.StepFirst(s, E.Work(w, act), E.Worked(s, w, act), rest, t);
  }
}
