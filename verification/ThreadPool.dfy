// The worker threads, the two-ended task deque, the condition variable and the
// stop flag of thread_pool, as a state machine whose steps are the mutex
// sections and the windows between them.

module ThreadPool {
  import opened Sums

  // Where one thread stands in worker_thread. Testing, Parking, Passed and
  // Pulling hold the mutex; Parking lies between a false predicate and the wait
  // that releases the mutex, Pulling between the second look at the stop flag and
  // the pull.
  datatype Worker<+T> =
    | Loop
    | Locking
    | Testing
    | Parking
    | Asleep
    | Passed
    | Pulling
    | Running(job: T)
    | Exited

  // A queued task, with the number of its push and the end it was pushed at.
  datatype Entry<+T> = Entry(stamp: nat, front: bool, job: T)

  // notifiers counts the pushers between their unlock and their notify_one.
  datatype Pool<+T> = Pool(
    tasks: seq<Entry<T>>,
    done: bool,
    workers: seq<Worker<T>>,
    owner: Option<nat>,
    notifiers: nat,
    pushed: nat)

  datatype Label<+T> =
    | Push(front: bool, job: T)
    | NotifyOne(woken: Option<nat>)
    | Spurious(w: nat)
    | CheckDone(w: nat)
    | Acquire(w: nat)
    | Test(w: nat)
    | Park(w: nat)
    | Recheck(w: nat)
    | Pull(w: nat)
    | Become(w: nat, job: T)
    | Finish(w: nat)
    | SetDone
    | NotifyAll
    | Drop

  function Start<T>(threads: nat): Pool<T> {
    Pool([], false, seq(threads, _ => Loop), None, 0, 0)
  }

  predicate Enabled<T>(p: Pool<T>, l: Label<T>) {
    match l
    case Push(_, _) => p.owner.None?
    case NotifyOne(woken) => CanNotify(p, woken)
    case Spurious(w) => w < |p.workers| && p.workers[w].Asleep?
    case CheckDone(w) => w < |p.workers| && p.workers[w].Loop?
    case Acquire(w) => w < |p.workers| && p.workers[w].Locking? && p.owner.None?
    case Test(w) => w < |p.workers| && p.workers[w].Testing?
    case Park(w) => w < |p.workers| && p.workers[w].Parking?
    case Recheck(w) => w < |p.workers| && p.workers[w].Passed?
    case Pull(w) => w < |p.workers| && p.workers[w].Pulling? && p.tasks != []
    case Become(w, _) => w < |p.workers| && p.workers[w].Running?
    case Finish(w) => w < |p.workers| && p.workers[w].Running?
    case SetDone => true
    case NotifyAll => p.done
    case Drop => p.done && forall i :: 0 <= i < |p.workers| ==> p.workers[i].Exited?
  }

  function At<T>(p: Pool<T>, w: nat, pc: Worker<T>): Pool<T>
    requires w < |p.workers|
  {
    p.(workers := p.workers[w := pc])
  }

  function Wake<T>(pc: Worker<T>): Worker<T> {
    if pc.Asleep? then Locking else pc
  }

  function Pushed<T>(p: Pool<T>, front: bool, job: T): Pool<T> {
    var e := Entry(p.pushed, front, job);
    p.(tasks := if front then [e] + p.tasks else p.tasks + [e],
       notifiers := p.notifiers + 1,
       pushed := p.pushed + 1)
  }

  predicate CanNotify<T>(p: Pool<T>, woken: Option<nat>) {
    && p.notifiers > 0
    && match woken
       case None => forall i :: 0 <= i < |p.workers| ==> !p.workers[i].Asleep?
       case Some(w) => w < |p.workers| && p.workers[w].Asleep?
  }

  function Notified<T>(p: Pool<T>, woken: Option<nat>): Pool<T>
    requires CanNotify(p, woken)
  {
    (if woken.Some? then At(p, woken.value, Locking) else p).(notifiers := p.notifiers - 1)
  }

  function Next<T>(p: Pool<T>, l: Label<T>): Pool<T>
    requires Enabled(p, l)
  {
    match l
    case Push(front, job) => Pushed(p, front, job)
    case NotifyOne(woken) => Notified(p, woken)
    case Spurious(w) => At(p, w, Locking)
    case CheckDone(w) => At(p, w, if p.done then Exited else Locking)
    case Acquire(w) => At(p, w, Testing).(owner := Some(w))
    case Test(w) => At(p, w, if p.tasks != [] || p.done then Passed else Parking)
    case Park(w) => At(p, w, Asleep).(owner := None)
    case Recheck(w) => if p.done then At(p, w, Exited).(owner := None) else At(p, w, Pulling)
    case Pull(w) => At(p, w, Running(p.tasks[0].job)).(tasks := p.tasks[1..], owner := None)
    case Become(w, job) => At(p, w, Running(job))
    case Finish(w) => At(p, w, Loop)
    case SetDone => p.(done := true)
    case NotifyAll => p.(workers := seq(|p.workers|, i requires 0 <= i < |p.workers| => Wake(p.workers[i])))
    case Drop => p.(tasks := [])
  }

  ghost predicate Run<T>(p: Pool<T>, ls: seq<Label<T>>, q: Pool<T>)
    decreases |ls|
  {
    if ls == [] then q == p
    else Enabled(p, ls[0]) && Run(Next(p, ls[0]), ls[1..], q)
  }

  predicate Critical<T>(pc: Worker<T>) {
    pc.Testing? || pc.Parking? || pc.Passed? || pc.Pulling?
  }

  // Awake and on the way to the predicate, or past it with the mutex held.
  function Heading<T>(pc: Worker<T>): nat {
    if pc.Locking? || pc.Testing? || pc.Passed? || pc.Pulling? then 1 else 0
  }

  // The mutex is held by the one worker in a critical section, and what a worker has
  // seen with it held is still so.
  ghost predicate OwnerInv<T>(p: Pool<T>) {
    && (p.owner.Some? ==> p.owner.value < |p.workers|)
    && (forall i: nat :: i < |p.workers| ==> (Critical(p.workers[i]) <==> p.owner == Some(i)))
  }

  ghost predicate MutexInv<T>(p: Pool<T>) {
    && OwnerInv(p)
    && (forall i: nat :: i < |p.workers| ==>
          && (p.workers[i].Passed? ==> p.tasks != [] || p.done)
          && (p.workers[i].Pulling? ==> p.tasks != [])
          && (p.workers[i].Parking? ==> p.tasks == [])
          && (p.workers[i].Exited? ==> p.done))
  }

  ghost predicate SomeAsleep<T>(p: Pool<T>) {
    exists i :: 0 <= i < |p.workers| && p.workers[i].Asleep?
  }

  // While a worker sleeps, every queued task is covered by a pusher about to
  // notify or by a worker about to look.
  ghost predicate WakeInv<T>(p: Pool<T>) {
    !p.done && SomeAsleep(p) ==> |p.tasks| <= p.notifiers + Sum(Heading, p.workers)
  }

  // Front pushes, newest first, then back pushes, oldest first.
  ghost predicate DequeShape<T>(tasks: seq<Entry<T>>, pushed: nat) {
    && (forall i :: 0 <= i < |tasks| ==> tasks[i].stamp < pushed)
    && (forall i, j :: 0 <= i < j < |tasks| ==>
          && (tasks[j].front ==> tasks[i].front && tasks[i].stamp > tasks[j].stamp)
          && (!tasks[i].front ==> tasks[i].stamp < tasks[j].stamp))
  }

  ghost predicate Inv<T>(p: Pool<T>) {
    MutexInv(p) && WakeInv(p) && DequeShape(p.tasks, p.pushed)
  }

  lemma StartInv<T>(threads: nat)
    ensures Inv(Start<T>(threads))
  {
  }

  lemma OwnerStep<T>(p: Pool<T>, l: Label<T>)
    requires OwnerInv(p) && Enabled(p, l)
    ensures OwnerInv(Next(p, l))
  {
  }

  lemma MutexStep<T>(p: Pool<T>, l: Label<T>)
    requires MutexInv(p) && Enabled(p, l)
    ensures MutexInv(Next(p, l))
  {
    OwnerStep(p, l);
  }

  lemma ShapePush<T>(p: Pool<T>, front: bool, job: T)
    requires DequeShape(p.tasks, p.pushed)
    ensures DequeShape(Pushed(p, front, job).tasks, p.pushed + 1)
  {
  }

  lemma ShapeStep<T>(p: Pool<T>, l: Label<T>)
    requires DequeShape(p.tasks, p.pushed) && Enabled(p, l)
    ensures DequeShape(Next(p, l).tasks, Next(p, l).pushed)
  {
    if l.Push? {
      ShapePush(p, l.front, l.job);
    } else {
      assert Next(p, l).pushed == p.pushed;
      assert Next(p, l).tasks == p.tasks || Next(p, l).tasks == [] || Next(p, l).tasks == p.tasks[1..];
    }
  }

  lemma WakeStep<T>(p: Pool<T>, l: Label<T>)
    requires MutexInv(p) && WakeInv(p) && Enabled(p, l)
    ensures WakeInv(Next(p, l))
  {
    var q := Next(p, l);
    match l {
      case Push(_, _) => assert SomeAsleep(q) ==> SomeAsleep(p);
      case NotifyOne(None) =>
      case NotifyOne(Some(w)) => SumUpdate(Heading, p.workers, w, Locking); assert SomeAsleep(p);
      case Spurious(w) => SumUpdate(Heading, p.workers, w, Locking); assert SomeAsleep(p);
      case CheckDone(w) => LocalStep(p, w, q);
      case Acquire(w) => LocalStep(p, w, q);
      case Test(w) => LocalStep(p, w, q);
      case Park(w) =>
      case Recheck(w) => LocalStep(p, w, q);
      case Pull(w) => LocalStep(p, w, q);
      case Become(w, _) => LocalStep(p, w, q);
      case Finish(w) => LocalStep(p, w, q);
      case SetDone =>
      case NotifyAll =>
      case Drop =>
    }
  }

  lemma StepInv<T>(p: Pool<T>, l: Label<T>)
    requires Inv(p) && Enabled(p, l)
    ensures Inv(Next(p, l))
  {
    MutexStep(p, l);
    WakeStep(p, l);
    ShapeStep(p, l);
  }

  lemma LocalStep<T>(p: Pool<T>, w: nat, q: Pool<T>)
    requires w < |p.workers| == |q.workers| && q.workers == p.workers[w := q.workers[w]]
    ensures Sum(Heading, q.workers) + Heading(p.workers[w]) == Sum(Heading, p.workers) + Heading(q.workers[w])
    ensures SomeAsleep(q) && !q.workers[w].Asleep? ==> SomeAsleep(p)
  {
    SumUpdate(Heading, p.workers, w, q.workers[w]);
    if SomeAsleep(q) && !q.workers[w].Asleep? {
      var i :| 0 <= i < |q.workers| && q.workers[i].Asleep?;
      assert p.workers[i].Asleep?;
    }
  }

  // Every reachable state: no lost wake-up, the mutex discipline, and a deque that
  // never is empty when a worker pulls from it.
  lemma {:induction false} RunInv<T>(p: Pool<T>, ls: seq<Label<T>>, q: Pool<T>)
    requires Inv(p) && Run(p, ls, q)
    ensures Inv(q)
    decreases |ls|
  {
    if ls != [] {
      StepInv(p, ls[0]);
      RunInv(Next(p, ls[0]), ls[1..], q);
    }
  }

  // The deque as its two halves: what was pushed at the front, newest first, and
  // what was pushed at the back, oldest first.
  ghost predicate TwoHalves<T>(tasks: seq<Entry<T>>, k: nat) {
    && k <= |tasks|
    && (forall i :: 0 <= i < k ==> tasks[i].front)
    && (forall i :: k <= i < |tasks| ==> !tasks[i].front)
    && (forall i, j :: 0 <= i < j < k ==> tasks[i].stamp > tasks[j].stamp)
    && (forall i, j :: k <= i < j < |tasks| ==> tasks[i].stamp < tasks[j].stamp)
  }

  lemma Halves<T>(tasks: seq<Entry<T>>, pushed: nat) returns (k: nat)
    requires DequeShape(tasks, pushed)
    ensures TwoHalves(tasks, k)
  {
    k := 0;
    while k < |tasks| && tasks[k].front
      invariant k <= |tasks|
      invariant forall i :: 0 <= i < k ==> tasks[i].front
    {
      k := k + 1;
    }
  }

  lemma ReachableDeque<T>(threads: nat, ls: seq<Label<T>>, q: Pool<T>)
    requires Run(Start(threads), ls, q)
    ensures exists k :: TwoHalves(q.tasks, k)
  {
    StartInv<T>(threads);
    RunInv(Start(threads), ls, q);
    var k := Halves(q.tasks, q.pushed);
  }

  // The statement about sleepers in full: none sleeps beside uncovered work.
  lemma NoLostWakeup<T>(threads: nat, ls: seq<Label<T>>, q: Pool<T>)
    requires Run(Start(threads), ls, q) && !q.done && SomeAsleep(q)
    ensures |q.tasks| <= q.notifiers + Sum(Heading, q.workers)
  {
    StartInv<T>(threads);
    RunInv(Start(threads), ls, q);
  }

  // Any sleeper may wake up for nothing, at any time, and then goes for the mutex.
  lemma SleeperMayWake<T>(p: Pool<T>, w: nat)
    requires w < |p.workers| && p.workers[w].Asleep?
    ensures Enabled(p, Spurious(w)) && Next(p, Spurious(w)) == p.(workers := p.workers[w := Locking])
  {
  }

  ghost function HeadingSet<T>(ws: seq<Worker<T>>): set<nat> {
    set w: nat | w < |ws| && (ws[w].Locking? || ws[w].Testing? || ws[w].Passed? || ws[w].Pulling?)
  }

  lemma {:induction false} HeadingCount<T>(ws: seq<Worker<T>>)
    ensures Sum(Heading, ws) == |HeadingSet(ws)|
  {
    if ws != [] {
      var n := |ws| - 1;
      HeadingCount(ws[..n]);
      SumAppend(Heading, ws[..n], [ws[n]]);
      assert ws == ws[..n] + [ws[n]];
      assert Sum(Heading, [ws[n]]) == Heading(ws[n]);
      assert HeadingSet(ws) == HeadingSet(ws[..n]) + (if Heading(ws[n]) == 1 then {n} else {});
    }
  }

  // The same with the workers counted as a set: those that go for the mutex, test, or
  // are past the test.
  lemma SleepersCovered<T>(threads: nat, ls: seq<Label<T>>, q: Pool<T>)
    requires Run(Start(threads), ls, q) && !q.done
    requires exists i :: 0 <= i < |q.workers| && q.workers[i].Asleep?
    ensures |q.tasks| <= q.notifiers + |HeadingSet(q.workers)|
  {
    NoLostWakeup(threads, ls, q);
    HeadingCount(q.workers);
  }

  // ---- Shutdown ----

  function IsPulling<T>(pc: Worker<T>): nat {
    if pc.Pulling? then 1 else 0
  }

  // Pulls that come after the stop flag was stored.
  function LatePulls<T>(done: bool, ls: seq<Label<T>>): nat
    decreases |ls|
  {
    if ls == [] then 0
    else (if done && ls[0].Pull? then 1 else 0) + LatePulls(done || ls[0].SetDone?, ls[1..])
  }

  lemma OnePulling<T>(p: Pool<T>)
    requires MutexInv(p)
    ensures Sum(IsPulling, p.workers) <= 1
  {
    if Sum(IsPulling, p.workers) > 0 {
      var w := SumWitness(IsPulling, p.workers);
      var rest := p.workers[w := Loop];
      SumUpdate(IsPulling, p.workers, w, Loop);
      if Sum(IsPulling, rest) > 0 {
        var v := SumWitness(IsPulling, rest);
        assert false;
      }
    }
  }

  lemma PullingStep<T>(p: Pool<T>, l: Label<T>)
    requires MutexInv(p) && p.done && Enabled(p, l)
    ensures Sum(IsPulling, Next(p, l).workers) + (if l.Pull? then 1 else 0) <= Sum(IsPulling, p.workers)
  {
    var q := Next(p, l);
    match l {
      case Push(_, _) =>
      case NotifyOne(None) =>
      case NotifyOne(Some(w)) => SumUpdate(IsPulling, p.workers, w, q.workers[w]);
      case Spurious(w) => SumUpdate(IsPulling, p.workers, w, q.workers[w]);
      case CheckDone(w) => SumUpdate(IsPulling, p.workers, w, q.workers[w]);
      case Acquire(w) => SumUpdate(IsPulling, p.workers, w, q.workers[w]);
      case Test(w) => SumUpdate(IsPulling, p.workers, w, q.workers[w]);
      case Park(w) => SumUpdate(IsPulling, p.workers, w, q.workers[w]);
      case Recheck(w) => SumUpdate(IsPulling, p.workers, w, q.workers[w]);
      case Pull(w) => SumUpdate(IsPulling, p.workers, w, q.workers[w]);
      case Become(w, _) => SumUpdate(IsPulling, p.workers, w, q.workers[w]);
      case Finish(w) => SumUpdate(IsPulling, p.workers, w, q.workers[w]);
      case SetDone =>
      case NotifyAll => SumSame(IsPulling, p.workers, q.workers);
      case Drop =>
    }
  }

  lemma {:induction false} LatePullsBound<T>(p: Pool<T>, ls: seq<Label<T>>, q: Pool<T>)
    requires Inv(p) && Run(p, ls, q)
    ensures LatePulls(p.done, ls) <= if p.done then Sum(IsPulling, p.workers) else 1
    decreases |ls|
  {
    if ls != [] {
      var next := Next(p, ls[0]);
      StepInv(p, ls[0]);
      LatePullsBound(next, ls[1..], q);
      OnePulling(next);
      if p.done {
        PullingStep(p, ls[0]);
      }
    }
  }

  // Once the stop flag is stored, all workers together pull at most one more task.
  lemma AtMostOneLatePull<T>(threads: nat, ls: seq<Label<T>>, q: Pool<T>)
    requires Run(Start(threads), ls, q)
    ensures LatePulls(false, ls) <= 1
  {
    StartInv<T>(threads);
    LatePullsBound(Start(threads), ls, q);
  }

  lemma Earlier<T>(p: Pool<T>, l: Label<T>, next: Pool<T>, rest: seq<Label<T>>, q: Pool<T>)
    requires Enabled(p, l) && Next(p, l) == next && Run(next, rest, q)
    ensures Run(p, [l] + rest, q)
    ensures LatePulls(p.done, [l] + rest) == (if p.done && l.Pull? then 1 else 0) + LatePulls(next.done, rest)
  {
    assert ([l] + rest)[1..] == rest;
  }

  // The bound is reached: a worker looks at the flag, the flag is stored, the worker pulls.
  lemma OneLatePull()
    ensures exists ls: seq<Label<bool>>, q :: Run(Start(1), ls, q) && LatePulls(false, ls) == 1
  {
    var p := Start<bool>(1);
    var ready := Next(p, Push(false, true));
    var checked := Next(ready, CheckDone(0));
    var locked := Next(checked, Acquire(0));
    var tested := Next(locked, Test(0));
    var past := Next(tested, Recheck(0));
    var stopped := Next(past, SetDone);
    var q := Next(stopped, Pull(0));
    var none: seq<Label<bool>> := [];
    Earlier(stopped, Pull(0), q, none, q);
    Earlier(past, SetDone, stopped, [Pull(0)] + none, q);
    Earlier(tested, Recheck(0), past, [SetDone] + ([Pull(0)] + none), q);
    var ls := [Recheck(0)] + ([SetDone] + ([Pull(0)] + none));
    Earlier(locked, Test(0), tested, ls, q);
    Earlier(checked, Acquire(0), locked, [Test(0)] + ls, q);
    Earlier(ready, CheckDone(0), checked, [Acquire(0)] + ([Test(0)] + ls), q);
    Earlier(p, Push(false, true), ready, [CheckDone(0)] + ([Acquire(0)] + ([Test(0)] + ls)), q);
  }

  // Steps the workers take by themselves while the destructor waits in join.
  predicate WorkerStep<T>(l: Label<T>) {
    l.CheckDone? || l.Acquire? || l.Test? || l.Park? || l.Recheck? || l.Pull? || l.Finish?
  }

  predicate AllExited<T>(p: Pool<T>) {
    forall i :: 0 <= i < |p.workers| ==> p.workers[i].Exited?
  }

  // Between a false predicate and the end of the wait.
  predicate Dozing<T>(pc: Worker<T>) {
    pc.Parking? || pc.Asleep?
  }

  function ShutdownRank<T>(pc: Worker<T>): nat {
    match pc
    case Pulling => 7
    case Running(_) => 6
    case Locking => 5
    case Testing => 4
    case Passed => 3
    case Loop => 1
    case Parking => 1
    case Asleep => 0
    case Exited => 0
  }

  lemma ShutdownDescends<T>(p: Pool<T>, l: Label<T>)
    requires p.done && Enabled(p, l) && WorkerStep(l)
    ensures Sum(ShutdownRank, Next(p, l).workers) < Sum(ShutdownRank, p.workers)
  {
    SumUpdate(ShutdownRank, p.workers, l.w, Next(p, l).workers[l.w]);
  }

  lemma ShutdownEnabled<T>(p: Pool<T>) returns (l: Label<T>)
    requires Inv(p) && p.done && !AllExited(p)
    requires forall i :: 0 <= i < |p.workers| ==> !Dozing(p.workers[i])
    ensures Enabled(p, l) && WorkerStep(l)
    ensures forall i :: 0 <= i < |p.workers| ==> !Dozing(Next(p, l).workers[i])
  {
    if p.owner.Some? {
      var w := p.owner.value;
      assert Critical(p.workers[w]);
      l := match p.workers[w]
           case Testing => Test(w)
           case Passed => Recheck(w)
           case _ => Pull(w);
    } else {
      var w: nat :| w < |p.workers| && !p.workers[w].Exited?;
      assert !Critical(p.workers[w]);
      l := match p.workers[w]
           case Loop => CheckDone(w)
           case Locking => Acquire(w)
           case _ => Finish(w);
    }
  }

  lemma {:induction false} JoinRun<T>(p: Pool<T>) returns (ls: seq<Label<T>>, q: Pool<T>)
    requires Inv(p) && p.done
    requires forall i :: 0 <= i < |p.workers| ==> !Dozing(p.workers[i])
    ensures Run(p, ls, q) && AllExited(q) && forall i :: 0 <= i < |ls| ==> WorkerStep(ls[i])
    decreases Sum(ShutdownRank, p.workers)
  {
    if AllExited(p) {
      ls, q := [], p;
    } else {
      var l := ShutdownEnabled(p);
      ShutdownDescends(p, l);
      StepInv(p, l);
      var rest;
      rest, q := JoinRun(Next(p, l));
      ls := [l] + rest;
      assert ls[1..] == rest;
    }
  }

  lemma {:induction false} DozesOn<T>(p: Pool<T>, ls: seq<Label<T>>, q: Pool<T>, w: nat)
    requires Run(p, ls, q) && w < |p.workers| && Dozing(p.workers[w])
    requires forall i :: 0 <= i < |ls| ==> WorkerStep(ls[i])
    ensures w < |q.workers| && Dozing(q.workers[w])
    decreases |ls|
  {
    if ls != [] {
      assert WorkerStep(ls[0]);
      assert forall i :: 0 <= i < |ls[1..]| ==> ls[1..][i] == ls[i + 1];
      DozesOn(Next(p, ls[0]), ls[1..], q, w);
    }
  }

  ghost predicate JoinsBy<T>(p: Pool<T>, ls: seq<Label<T>>, q: Pool<T>) {
    Run(p, ls, q) && AllExited(q) && forall i :: 0 <= i < |ls| ==> WorkerStep(ls[i])
  }

  // The destructor's join, for tasks that all end: after its notify_all the workers can
  // all exit by their own steps if and only if none of them was between a false
  // predicate and its wait when the notify_all came. A command without a connection does
  // not end: ExecutorShutdown says when the join can return then.
  lemma JoinReturnsIff<T>(p: Pool<T>)
    requires Inv(p) && p.done
    ensures (exists ls, q :: JoinsBy(Next(p, NotifyAll), ls, q)) <==>
            forall i :: 0 <= i < |p.workers| ==> !p.workers[i].Parking?
  {
    var n := Next(p, NotifyAll);
    StepInv(p, NotifyAll);
    if forall i :: 0 <= i < |p.workers| ==> !p.workers[i].Parking? {
      var ls, q := JoinRun(n);
      assert JoinsBy(n, ls, q);
    } else {
      var w: nat :| w < |p.workers| && p.workers[w].Parking?;
      assert Dozing(n.workers[w]);
      forall ls, q | JoinsBy(n, ls, q) ensures false {
        DozesOn(n, ls, q, w);
        assert false;
      }
    }
  }

  // One worker reaches the window: it tests the predicate, then the flag is stored.
  lemma ShutdownCanMiss()
    ensures exists ls: seq<Label<bool>>, q ::
              Run(Start(1), ls, q) && q.done && q.workers == [Parking]
  {
    var p0 := Start<bool>(1);
    var p1 := Next(p0, CheckDone(0));
    var p2 := Next(p1, Acquire(0));
    var p3 := Next(p2, Test(0));
    var p4 := Next(p3, SetDone);
    assert p4.workers == [Parking];
    assert Run(p4, [], p4);
    assert Run(p3, [SetDone] + [], p4);
    assert Run(p2, [Test(0)] + [SetDone], p4);
    assert Run(p1, [Acquire(0)] + [Test(0), SetDone], p4);
    assert Run(p0, [CheckDone(0)] + [Acquire(0), Test(0), SetDone], p4);
  }
}
