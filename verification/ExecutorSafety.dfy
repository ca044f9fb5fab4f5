// Every reachable state of the executor: each connection and each command is in
// exactly one place, promises are set once with their own command's answer, and a
// waiting task never overtakes its command.

module ExecutorSafety {
  import opened Sums
  import opened Executor
  import TP = ThreadPool

  // ---- A database worker's progress ----

  // What such a step leaves alone, the one worker apart.
  lemma WorkEffect(s: Sys, w: nat, act: Act)
    requires CanWork(s, w, act)
    ensures var t := Worked(s, w, act);
      && w < |s.db.workers| == |t.db.workers| && t.db.workers == s.db.workers[w := t.db.workers[w]]
      && t.db.tasks == s.db.tasks && t.dropped == s.dropped && t.finished == s.finished
      && t.texts == s.texts && t.helper == s.helper && t.shared == s.shared && t.callers == s.callers
  {
  }

  lemma WorkMoves(s: Sys, w: nat, act: Act, f: TP.Worker<Job> -> nat)
    requires CanWork(s, w, act)
    ensures var t := Worked(s, w, act);
      && t.db.tasks == s.db.tasks && t.dropped == s.dropped && |t.db.workers| == |s.db.workers|
      && Sum(f, t.db.workers) + f(s.db.workers[w]) == Sum(f, s.db.workers) + f(t.db.workers[w])
  {
    SumUpdate(f, s.db.workers, w, Worked(s, w, act).db.workers[w]);
  }

  // The connections not held, before and after.
  lemma WorkDeque(s: Sys, w: nat, act: Act, c: nat)
    requires CanWork(s, w, act)
    ensures var t := Worked(s, w, act);
      && Sum(Is(c), t.conns) + t.lost[c] + Sum(Is(c), t.finished) + Holds(c)(t.db.workers[w])
         == Sum(Is(c), s.conns) + s.lost[c] + Sum(Is(c), s.finished) + Holds(c)(s.db.workers[w])
  {
    if act.GiveBack? {
      assert Worked(s, w, act).conns[1..] == s.conns;
    }
  }

  lemma WorkConn(s: Sys, w: nat, act: Act, c: nat)
    requires CanWork(s, w, act)
    ensures ConnPlaces(Worked(s, w, act), c) == ConnPlaces(s, c)
  {
    WorkMoves(s, w, act, Holds(c));
    WorkDeque(s, w, act, c);
  }

  lemma WorkTask(s: Sys, w: nat, act: Act, id: nat)
    requires CanWork(s, w, act)
    ensures TaskPlaces(Worked(s, w, act), id) == TaskPlaces(s, id)
  {
    WorkMoves(s, w, act, RunsOpen(id));
    WorkMoves(s, w, act, RunsSet(id));
  }

  lemma PromiseFresh(s: Sys, w: nat)
    requires RunsCommand(s, w) && !StageOf(s, w).Returning? && PromiseInv(s) && TaskInv(s)
    ensures s.db.workers[w].job.id !in s.promises
  {
    var id := s.db.workers[w].job.id;
    SumAt(RunsOpen(id), s.db.workers, w);
    assert TaskPlaces(s, id) <= 1;
  }

  lemma WorkPromise(s: Sys, w: nat, act: Act)
    requires CanWork(s, w, act) && PromiseInv(s) && TaskInv(s)
    ensures PromiseInv(Worked(s, w, act))
  {
    var t := Worked(s, w, act);
    if act.Exec? {
      PromiseFresh(s, w);
    }
    forall id: nat ensures (if id in t.promises then 1 else 0) == Sum(RunsSet(id), t.db.workers) + t.completed[id] {
      SumUpdate(RunsSet(id), s.db.workers, w, t.db.workers[w]);
    }
  }

  // The command in progress stays the same one.
  lemma WorkJob(s: Sys, w: nat, act: Act)
    requires CanWork(s, w, act)
    ensures var t := Worked(s, w, act);
      t.db.workers[w].Running? ==>
        t.db.workers[w].job.Command? && t.db.workers[w].job.id == s.db.workers[w].job.id
        && t.db.workers[w].job.text == s.db.workers[w].job.text
  {
  }

  lemma WorkAnswers(s: Sys, w: nat, act: Act)
    requires CanWork(s, w, act) && JobInv(s)
    ensures forall id | id in Worked(s, w, act).promises ::
              id < |s.texts| && Worked(s, w, act).promises[id].text == s.texts[id]
  {
    assert Runs(s.db, w);
  }

  lemma WorkPoolJobs(s: Sys, t: Sys, w: nat)
    requires PoolJobs(s.texts, s.db, true, s.shared) && RunsCommand(s, w)
    requires t.db.tasks == s.db.tasks && |t.db.workers| == |s.db.workers|
    requires t.db.workers == s.db.workers[w := t.db.workers[w]]
    requires t.db.workers[w].Running? ==>
      t.db.workers[w].job.Command? && t.db.workers[w].job.id == s.db.workers[w].job.id
      && t.db.workers[w].job.text == s.db.workers[w].job.text
    ensures PoolJobs(s.texts, t.db, true, s.shared)
  {
    assert JobKnown(s.texts, s.db.workers[w].job);
    assert forall v: nat :: Runs(t.db, v) ==> Runs(s.db, v);
  }

  lemma WorkOrder(s: Sys, t: Sys, w: nat)
    requires OrderInv(s) && t.db.tasks == s.db.tasks && w < |s.db.workers| == |t.db.workers|
    requires t.db.workers == s.db.workers[w := t.db.workers[w]]
    requires t.db.workers[w].Running? ==> t.db.workers[w].job.Command?
    ensures OrderInv(t)
  {
    assert forall v: nat :: v != w ==> (Runs(t.db, v) <==> Runs(s.db, v));
  }

  lemma WorkJobs(s: Sys, w: nat, act: Act)
    requires CanWork(s, w, act) && JobInv(s) && OrderInv(s)
    ensures JobInv(Worked(s, w, act)) && OrderInv(Worked(s, w, act))
  {
    WorkEffect(s, w, act);
    WorkJob(s, w, act);
    WorkAnswers(s, w, act);
    WorkPoolJobs(s, Worked(s, w, act), w);
    WorkOrder(s, Worked(s, w, act), w);
  }

  lemma WorkPool(s: Sys, w: nat, act: Act)
    requires CanWork(s, w, act) && TP.Inv(s.db)
    ensures TP.Inv(Worked(s, w, act).db)
  {
    var k := if act.GiveBack? then TP.Finish(w) else TP.Become(w, Worked(s, w, act).db.workers[w].job);
    assert TP.Next(s.db, k) == Worked(s, w, act).db;
    TP.StepInv(s.db, k);
  }

  lemma WorkStep(s: Sys, w: nat, act: Act)
    requires Inv(s) && CanWork(s, w, act)
    ensures Inv(Worked(s, w, act))
  {
    forall c: nat ensures ConnPlaces(Worked(s, w, act), c) == ConnPlaces(s, c) {
      WorkConn(s, w, act, c);
    }
    forall id: nat ensures TaskPlaces(Worked(s, w, act), id) == TaskPlaces(s, id) {
      WorkTask(s, w, act, id);
    }
    WorkPromise(s, w, act);
    WorkJobs(s, w, act);
    WorkPool(s, w, act);
  }

  // ---- A worker's way through worker_thread ----

  lemma InternalEffect(p: TP.Pool<Job>, k: TP.Label<Job>)
    requires Internal(k) && TP.Enabled(p, k)
    ensures var q := TP.Next(p, k);
      && k.w < |p.workers| && q.workers == p.workers[k.w := q.workers[k.w]]
      && (k.Pull? ==> p.tasks != []) && q.tasks == p.tasks[if k.Pull? then 1 else 0..]
      && (q.workers[k.w].Running? ==> k.Pull? && q.workers[k.w].job == p.tasks[0].job)
  {
  }

  lemma InternalMove(p: TP.Pool<Job>, k: TP.Label<Job>, f: TP.Worker<Job> -> nat)
    requires Internal(k) && TP.Enabled(p, k)
    ensures var q := TP.Next(p, k);
      && k.w < |p.workers| && q.workers == p.workers[k.w := q.workers[k.w]]
      && Sum(f, q.workers) + f(p.workers[k.w]) == Sum(f, p.workers) + f(q.workers[k.w])
  {
    SumUpdate(f, p.workers, k.w, TP.Next(p, k).workers[k.w]);
  }

  lemma LocalConn(s: Sys, k: TP.Label<Job>, c: nat)
    requires Internal(k) && TP.Enabled(s.db, k) && JobInv(s)
    ensures ConnPlaces(s.(db := TP.Next(s.db, k)), c) == ConnPlaces(s, c)
  {
    InternalMove(s.db, k, Holds(c));
  }

  lemma LocalTask(s: Sys, k: TP.Label<Job>, id: nat)
    requires Internal(k) && TP.Enabled(s.db, k) && JobInv(s)
    ensures TaskPlaces(s.(db := TP.Next(s.db, k)), id) == TaskPlaces(s, id)
    ensures Sum(RunsSet(id), TP.Next(s.db, k).workers) == Sum(RunsSet(id), s.db.workers)
  {
    InternalMove(s.db, k, RunsOpen(id));
    InternalMove(s.db, k, RunsSet(id));
  }

  lemma LocalJobs(texts: seq<string>, p: TP.Pool<Job>, k: TP.Label<Job>, commands: bool, waits: bool)
    requires Internal(k) && TP.Enabled(p, k) && PoolJobs(texts, p, commands, waits)
    ensures PoolJobs(texts, TP.Next(p, k), commands, waits)
  {
    var q := TP.Next(p, k);
    forall w: nat | Runs(q, w)
      ensures JobKnown(texts, q.workers[w].job) && (if q.workers[w].job.Command? then commands else waits)
    {
      if k.Pull? && w == k.w {
        assert q.workers[w].job == p.tasks[0].job;
      } else {
        assert Runs(p, w);
      }
    }
    forall i | 0 <= i < |q.tasks|
      ensures JobKnown(texts, q.tasks[i].job) && Fresh(q.tasks[i].job)
      ensures if q.tasks[i].job.Command? then commands else waits
    {
      assert q.tasks[i] == p.tasks[if k.Pull? then i + 1 else i];
    }
  }

  lemma OrderKept(s: Sys, t: Sys, w: nat, d: nat)
    requires OrderInv(s) && d <= |s.db.tasks| && t.db.tasks == s.db.tasks[d..]
    requires w < |s.db.workers| == |t.db.workers| && t.db.workers == s.db.workers[w := t.db.workers[w]]
    requires t.db.workers[w].Running? ==> d == 1 && t.db.workers[w].job == s.db.tasks[0].job
    ensures OrderInv(t)
  {
    assert forall i :: 0 <= i < |t.db.tasks| ==> t.db.tasks[i] == s.db.tasks[i + d];
    forall v: nat, j | Runs(t.db, v) && 0 <= j < |t.db.tasks|
      ensures !WaitsFor(t.db.workers[v].job, t.db.tasks[j].job)
    {
      if v != w {
        assert Runs(s.db, v);
      }
    }
  }

  lemma LocalOrder(s: Sys, k: TP.Label<Job>)
    requires Internal(k) && TP.Enabled(s.db, k) && OrderInv(s)
    ensures OrderInv(s.(db := TP.Next(s.db, k)))
  {
    InternalEffect(s.db, k);
    OrderKept(s, s.(db := TP.Next(s.db, k)), k.w, if k.Pull? then 1 else 0);
  }

  lemma LocalPlaces(s: Sys, where: Which, k: TP.Label<Job>)
    requires Inv(s) && Internal(k) && TP.Enabled(PoolAt(s, where), k)
    ensures var t := WithPool(s, where, TP.Next(PoolAt(s, where), k));
      ConnInv(t) && TaskInv(t) && PromiseInv(t)
  {
    var t := WithPool(s, where, TP.Next(PoolAt(s, where), k));
    forall c: nat ensures ConnPlaces(t, c) == ConnPlaces(s, c) {
      if where == Db {
        LocalConn(s, k, c);
      }
    }
    forall id: nat
      ensures TaskPlaces(t, id) == TaskPlaces(s, id)
      ensures Sum(RunsSet(id), t.db.workers) == Sum(RunsSet(id), s.db.workers)
    {
      if where == Db {
        LocalTask(s, k, id);
      }
    }
  }

  lemma LocalPoolJobs(s: Sys, where: Which, k: TP.Label<Job>)
    requires JobInv(s) && OrderInv(s) && Internal(k) && TP.Enabled(PoolAt(s, where), k)
    ensures var t := WithPool(s, where, TP.Next(PoolAt(s, where), k)); JobInv(t) && OrderInv(t)
  {
    if where == Db {
      LocalJobs(s.texts, s.db, k, true, s.shared);
      LocalOrder(s, k);
    } else {
      LocalJobs(s.texts, s.helper, k, false, !s.shared);
    }
  }

  lemma LocalRest(s: Sys, where: Which, k: TP.Label<Job>)
    requires CallerInv(s) && TornInv(s) && Internal(k) && TP.Enabled(PoolAt(s, where), k)
    ensures var t := WithPool(s, where, TP.Next(PoolAt(s, where), k)); CallerInv(t) && TornInv(t)
  {
  }

  lemma LocalStep(s: Sys, where: Which, k: TP.Label<Job>)
    requires Inv(s) && Internal(k) && TP.Enabled(PoolAt(s, where), k)
    ensures Inv(WithPool(s, where, TP.Next(PoolAt(s, where), k)))
  {
    TP.StepInv(PoolAt(s, where), k);
    LocalPlaces(s, where, k);
    LocalPoolJobs(s, where, k);
    LocalRest(s, where, k);
  }

  // ---- The end of a waiting task ----

  lemma WaitOverPlaces(s: Sys, where: Which, w: nat)
    requires CanStopWaiting(s, where, w) && ConnInv(s) && TaskInv(s) && PromiseInv(s)
    ensures var t := WithPool(s, where, TP.At(PoolAt(s, where), w, TP.Loop));
      ConnInv(t) && TaskInv(t) && PromiseInv(t)
  {
    var t := WithPool(s, where, TP.At(PoolAt(s, where), w, TP.Loop));
    forall c: nat ensures ConnPlaces(t, c) == ConnPlaces(s, c) {
      if where == Db {
        SumUpdate(Holds(c), s.db.workers, w, TP.Loop);
      }
    }
    forall id: nat
      ensures TaskPlaces(t, id) == TaskPlaces(s, id)
      ensures Sum(RunsSet(id), t.db.workers) == Sum(RunsSet(id), s.db.workers)
    {
      if where == Db {
        SumUpdate(RunsOpen(id), s.db.workers, w, TP.Loop);
        SumUpdate(RunsSet(id), s.db.workers, w, TP.Loop);
      }
    }
  }

  lemma WaitOverPool(p: TP.Pool<Job>, w: nat)
    requires TP.Inv(p) && Runs(p, w)
    ensures TP.Inv(TP.At(p, w, TP.Loop))
  {
    var k: TP.Label<Job> := TP.Finish(w);
    assert TP.Next(p, k) == TP.At(p, w, TP.Loop);
    TP.StepInv(p, k);
  }

  lemma WaitOverJobs(s: Sys, where: Which, w: nat)
    requires JobInv(s) && OrderInv(s) && CanStopWaiting(s, where, w)
    ensures var t := WithPool(s, where, TP.At(PoolAt(s, where), w, TP.Loop)); JobInv(t) && OrderInv(t)
  {
    var t := WithPool(s, where, TP.At(PoolAt(s, where), w, TP.Loop));
    assert forall v: nat :: Runs(t.db, v) ==> Runs(s.db, v);
    assert forall v: nat :: Runs(t.helper, v) ==> Runs(s.helper, v);
  }

  lemma WaitOverTorn(s: Sys, where: Which, w: nat)
    requires TornInv(s) && CanStopWaiting(s, where, w)
    ensures TornInv(WithPool(s, where, TP.At(PoolAt(s, where), w, TP.Loop)))
  {
  }

  lemma WaitOverStep(s: Sys, where: Which, w: nat)
    requires Inv(s) && CanStopWaiting(s, where, w)
    ensures Inv(WithPool(s, where, TP.At(PoolAt(s, where), w, TP.Loop)))
  {
    WaitOverPool(PoolAt(s, where), w);
    WaitOverPlaces(s, where, w);
    WaitOverJobs(s, where, w);
    WaitOverTorn(s, where, w);
  }

  // ---- Callers ----

  lemma PushedPool(p: TP.Pool<Job>, front: bool, job: Job)
    requires TP.Inv(p) && p.owner.None?
    ensures TP.Inv(TP.Pushed(p, front, job))
  {
    var k := TP.Push(front, job);
    TP.StepInv(p, k);
  }

  lemma NotifiedPool(p: TP.Pool<Job>, woken: Option<nat>)
    requires TP.Inv(p) && TP.CanNotify(p, woken)
    ensures TP.Inv(TP.Notified(p, woken))
  {
    var k: TP.Label<Job> := TP.NotifyOne(woken);
    TP.StepInv(p, k);
  }

  lemma SayPools(s: Sys, c: nat, say: Say)
    requires TP.Inv(s.db) && TP.Inv(s.helper) && CanSay(s, c, say)
    ensures TP.Inv(Said(s, c, say).db) && TP.Inv(Said(s, c, say).helper)
  {
    match say {
      case Call(text, front, _) => PushedPool(s.db, front, Command(|s.texts|, text, Polling));
      case CallNotify(woken) => NotifiedPool(s.db, woken);
      case PushWaiter => PushedPool(PoolAt(s, WaitPool(s)), false, Wait(s.callers[c].id));
      case WaiterNotify(woken) => NotifiedPool(PoolAt(s, WaitPool(s)), woken);
      case Get(_) =>
      case Got =>
    }
  }

  lemma SayNotifiers(s: Sys, c: nat, say: Say)
    requires CallerInv(s) && CanSay(s, c, say)
    ensures var t := Said(s, c, say);
      && t.db.notifiers == Sum(CallN, t.callers) + (if t.shared then Sum(WaitN, t.callers) else 0)
      && t.helper.notifiers == (if t.shared then 0 else Sum(WaitN, t.callers))
  {
    SumUpdate(CallN, s.callers, c, Said(s, c, say).callers[c]);
    SumUpdate(WaitN, s.callers, c, Said(s, c, say).callers[c]);
  }

  lemma SayCallers(s: Sys, c: nat, say: Say)
    requires CallerInv(s) && CanSay(s, c, say)
    ensures CallerInv(Said(s, c, say))
  {
    SayNotifiers(s, c, say);
    var t := Said(s, c, say);
    assert |t.texts| >= |s.texts| && t.callers == s.callers[c := t.callers[c]];
  }

  // Nobody's notification touches a running job: the sleeper it wakes runs none.
  lemma SayWorkers(s: Sys, c: nat, say: Say, f: TP.Worker<Job> -> nat)
    requires CanSay(s, c, say) && f(TP.Asleep) == 0 && f(TP.Locking) == 0
    ensures Sum(f, Said(s, c, say).db.workers) == Sum(f, s.db.workers)
    ensures forall w: nat :: Runs(Said(s, c, say).db, w) == Runs(s.db, w)
    ensures forall w: nat :: Runs(Said(s, c, say).helper, w) == Runs(s.helper, w)
    ensures forall w: nat | Runs(s.db, w) :: Said(s, c, say).db.workers[w] == s.db.workers[w]
    ensures forall w: nat | Runs(s.helper, w) :: Said(s, c, say).helper.workers[w] == s.helper.workers[w]
  {
    if (say.CallNotify? || say.WaiterNotify?) && say.woken.Some? {
      if say.woken.value < |s.db.workers| {
        SumUpdate(f, s.db.workers, say.woken.value, TP.Locking);
      }
    }
  }

  lemma SayTask(s: Sys, c: nat, say: Say, id: nat)
    requires CanSay(s, c, say)
    ensures TaskPlaces(Said(s, c, say), id) == TaskPlaces(s, id) + (if say.Call? && id == |s.texts| then 1 else 0)
    ensures Sum(RunsSet(id), Said(s, c, say).db.workers) == Sum(RunsSet(id), s.db.workers)
  {
    SayWorkers(s, c, say, RunsOpen(id));
    SayWorkers(s, c, say, RunsSet(id));
    if say.Call? || say.PushWaiter? {
      var job := if say.Call? then Command(|s.texts|, say.text, Polling) else Wait(s.callers[c].id);
      var e := TP.Entry(s.db.pushed, say.Call? && say.front, job);
      SumAppend(Queues(id), s.db.tasks, [e]);
      SumAppend(Queues(id), [e], s.db.tasks);
      assert Sum(Queues(id), [e]) == Queues(id)(e);
    }
  }

  lemma PushedJobs(texts: seq<string>, p: TP.Pool<Job>, front: bool, job: Job, commands: bool, waits: bool)
    requires PoolJobs(texts, p, commands, waits)
    requires JobKnown(texts, job) && Fresh(job) && if job.Command? then commands else waits
    ensures PoolJobs(texts, TP.Pushed(p, front, job), commands, waits)
  {
    var q := TP.Pushed(p, front, job);
    assert q.workers == p.workers;
    forall i | 0 <= i < |q.tasks|
      ensures JobKnown(texts, q.tasks[i].job) && Fresh(q.tasks[i].job)
      ensures if q.tasks[i].job.Command? then commands else waits
    {
      if front && i > 0 {
        assert q.tasks[i] == p.tasks[i - 1];
      }
    }
    assert forall w: nat :: Runs(q, w) ==> Runs(p, w);
  }

  lemma NotifiedJobs(texts: seq<string>, p: TP.Pool<Job>, woken: Option<nat>, commands: bool, waits: bool)
    requires PoolJobs(texts, p, commands, waits) && TP.CanNotify(p, woken)
    ensures PoolJobs(texts, TP.Notified(p, woken), commands, waits)
  {
    assert forall w: nat :: Runs(TP.Notified(p, woken), w) ==> Runs(p, w);
  }

  lemma MoreTexts(texts: seq<string>, text: string, p: TP.Pool<Job>, commands: bool, waits: bool)
    requires PoolJobs(texts, p, commands, waits)
    ensures PoolJobs(texts + [text], p, commands, waits)
  {
  }

  lemma SayJobs(s: Sys, c: nat, say: Say)
    requires CanSay(s, c, say) && JobInv(s) && CallerInv(s)
    ensures JobInv(Said(s, c, say))
  {
    match say {
      case Call(text, front, _) =>
        MoreTexts(s.texts, text, s.db, true, s.shared);
        MoreTexts(s.texts, text, s.helper, false, !s.shared);
        PushedJobs(s.texts + [text], s.db, front, Command(|s.texts|, text, Polling), true, s.shared);
      case CallNotify(woken) => NotifiedJobs(s.texts, s.db, woken, true, s.shared);
      case PushWaiter =>
        PushedJobs(s.texts, PoolAt(s, WaitPool(s)), false, Wait(s.callers[c].id), s.shared, true);
      case WaiterNotify(woken) => NotifiedJobs(s.texts, PoolAt(s, WaitPool(s)), woken, s.shared, true);
      case Get(_) =>
      case Got =>
    }
  }

  // A command pushed at either end is nobody's yet; a waiting task pushed at the back
  // is behind all commands.
  lemma PushOrder(s: Sys, t: Sys, e: TP.Entry<Job>, front: bool)
    requires OrderInv(s) && t.db.workers == s.db.workers
    requires t.db.tasks == if front then [e] + s.db.tasks else s.db.tasks + [e]
    requires front ==> !e.job.Wait?
    requires e.job.Command? ==> forall i :: 0 <= i < |s.db.tasks| ==> s.db.tasks[i].job.id != e.job.id
    requires e.job.Command? ==> forall w: nat :: Runs(s.db, w) ==> s.db.workers[w].job.id != e.job.id
    ensures OrderInv(t)
  {
    assert forall w: nat :: Runs(t.db, w) <==> Runs(s.db, w);
  }

  lemma SameOrder(s: Sys, t: Sys)
    requires OrderInv(s) && t.db.tasks == s.db.tasks
    requires forall w: nat :: Runs(t.db, w) ==> Runs(s.db, w) && t.db.workers[w] == s.db.workers[w]
    ensures OrderInv(t)
  {
  }

  lemma SayOrder(s: Sys, c: nat, say: Say)
    requires CanSay(s, c, say) && JobInv(s) && OrderInv(s)
    ensures OrderInv(Said(s, c, say))
  {
    var t := Said(s, c, say);
    if say.Call? {
      PushOrder(s, t, TP.Entry(s.db.pushed, say.front, Command(|s.texts|, say.text, Polling)), say.front);
    } else if say.PushWaiter? && s.shared {
      PushOrder(s, t, TP.Entry(s.db.pushed, false, Wait(s.callers[c].id)), false);
    } else {
      SayWorkers(s, c, say, RunsSet(0));
      SameOrder(s, t);
    }
  }

  lemma SayPlaces(s: Sys, c: nat, say: Say)
    requires CanSay(s, c, say) && ConnInv(s) && TaskInv(s) && PromiseInv(s)
    ensures var t := Said(s, c, say); ConnInv(t) && TaskInv(t) && PromiseInv(t)
  {
    var t := Said(s, c, say);
    forall n: nat ensures ConnPlaces(t, n) == ConnPlaces(s, n) {
      SayWorkers(s, c, say, Holds(n));
    }
    forall id: nat
      ensures TaskPlaces(t, id) == TaskPlaces(s, id) + (if say.Call? && id == |s.texts| then 1 else 0)
      ensures Sum(RunsSet(id), t.db.workers) == Sum(RunsSet(id), s.db.workers)
    {
      SayTask(s, c, say, id);
    }
  }

  lemma SayTorn(s: Sys, c: nat, say: Say)
    requires CanSay(s, c, say) && TornInv(s)
    ensures TornInv(Said(s, c, say))
  {
  }

  lemma SayStep(s: Sys, c: nat, say: Say)
    requires Inv(s) && CanSay(s, c, say)
    ensures Inv(Said(s, c, say))
  {
    SayPools(s, c, say);
    SayCallers(s, c, say);
    SayJobs(s, c, say);
    SayOrder(s, c, say);
    SayPlaces(s, c, say);
    SayTorn(s, c, say);
  }

  // ---- Destruction ----

  lemma {:induction false} QueuedCount(tasks: seq<TP.Entry<Job>>, id: nat)
    ensures Gather(QueuedId, tasks)[id] == Sum(Queues(id), tasks)
  {
    if tasks != [] {
      QueuedCount(tasks[1..], id);
    }
  }

  lemma TearPool(s: Sys, td: Teardown)
    requires TP.Inv(s.db) && CanTear(s, td)
    ensures TP.Inv(Torn(s, td).db)
  {
    if !td.FinishConn? {
      var k: TP.Label<Job> := match td
               case StopDb => TP.SetDone
               case WakeAllDb => TP.NotifyAll
               case _ => TP.Drop;
      TP.StepInv(s.db, k);
    }
  }

  lemma TearConn(s: Sys, td: Teardown, c: nat)
    requires CanTear(s, td)
    ensures ConnPlaces(Torn(s, td), c) == ConnPlaces(s, c)
  {
    SumSame(Holds(c), s.db.workers, Torn(s, td).db.workers);
    if td.FinishConn? {
      SumAppend(Is(c), s.finished, [s.conns[0]]);
    }
  }

  lemma TearTask(s: Sys, td: Teardown, id: nat)
    requires CanTear(s, td)
    ensures TaskPlaces(Torn(s, td), id) == TaskPlaces(s, id)
    ensures Sum(RunsSet(id), Torn(s, td).db.workers) == Sum(RunsSet(id), s.db.workers)
  {
    SumSame(RunsOpen(id), s.db.workers, Torn(s, td).db.workers);
    SumSame(RunsSet(id), s.db.workers, Torn(s, td).db.workers);
    QueuedCount(s.db.tasks, id);
  }

  lemma TearJobs(s: Sys, td: Teardown)
    requires CanTear(s, td) && JobInv(s) && OrderInv(s)
    ensures JobInv(Torn(s, td)) && OrderInv(Torn(s, td))
  {
    var t := Torn(s, td);
    assert forall w: nat :: Runs(t.db, w) ==> Runs(s.db, w) && t.db.workers[w] == s.db.workers[w];
    assert t.helper == s.helper && (t.db.tasks == s.db.tasks || t.db.tasks == []);
  }

  lemma TearPlaces(s: Sys, td: Teardown)
    requires CanTear(s, td) && ConnInv(s) && TaskInv(s) && PromiseInv(s)
    ensures var t := Torn(s, td); ConnInv(t) && TaskInv(t) && PromiseInv(t)
  {
    var t := Torn(s, td);
    forall c: nat ensures ConnPlaces(t, c) == ConnPlaces(s, c) {
      TearConn(s, td, c);
    }
    forall id: nat
      ensures TaskPlaces(t, id) == TaskPlaces(s, id)
      ensures Sum(RunsSet(id), t.db.workers) == Sum(RunsSet(id), s.db.workers)
    {
      TearTask(s, td, id);
    }
  }

  lemma TearTorn(s: Sys, td: Teardown)
    requires CanTear(s, td) && TornInv(s) && CallerInv(s)
    ensures TornInv(Torn(s, td)) && CallerInv(Torn(s, td))
  {
  }

  lemma TearStep(s: Sys, td: Teardown)
    requires Inv(s) && CanTear(s, td)
    ensures Inv(Torn(s, td))
  {
    TearPool(s, td);
    TearJobs(s, td);
    TearPlaces(s, td);
    TearTorn(s, td);
  }

  lemma InvStep(s: Sys, l: Label)
    requires Inv(s) && Enabled(s, l)
    ensures Inv(Next(s, l))
  {
    match l {
      case Local(where, k) => LocalStep(s, where, k);
      case Spin(_) =>
      case Work(w, act) => WorkStep(s, w, act);
      case WaitOver(where, w) => WaitOverStep(s, where, w);
      case Talk(c, say) => SayStep(s, c, say);
      case Tear(td) => TearStep(s, td);
    }
  }

  // ---- Every run ----

  lemma {:induction false} NumberOnce(n: nat, c: nat)
    ensures Sum(Is(c), Numbers(n)) == if c < n then 1 else 0
    ensures |Numbers(n)| == n
  {
    if n > 0 {
      NumberOnce(n - 1, c);
      SumAppend<nat>(Is(c), Numbers(n - 1), [n - 1]);
    }
  }

  lemma StartInv(shared: bool, dbThreads: nat, helperThreads: nat, established: nat, callers: nat)
    ensures Inv(Start(shared, dbThreads, helperThreads, established, callers))
  {
    var s := Start(shared, dbThreads, helperThreads, established, callers);
    forall c: nat ensures ConnPlaces(s, c) == if c < established then 1 else 0 {
      NumberOnce(established, c);
      SumZero(Holds(c), s.db.workers);
    }
    forall id: nat ensures TaskPlaces(s, id) == 0 && Sum(RunsSet(id), s.db.workers) == 0 {
      SumZero(RunsOpen(id), s.db.workers);
      SumZero(RunsSet(id), s.db.workers);
    }
    SumZero(CallN, s.callers);
    SumZero(WaitN, s.callers);
  }

  lemma {:induction false} RunInv(s: Sys, ls: seq<Label>, t: Sys)
    requires Inv(s) && Run(s, ls, t)
    ensures Inv(t)
    decreases |ls|
  {
    if ls != [] {
      InvStep(s, ls[0]);
      RunInv(Next(s, ls[0]), ls[1..], t);
    }
  }

  // A state some run from some start leads to.
  ghost predicate Reaches(shared: bool, d: nat, h: nat, e: nat, k: nat, ls: seq<Label>, t: Sys) {
    Run(Start(shared, d, h, e, k), ls, t)
  }

  ghost predicate Reachable(t: Sys) {
    exists shared, d: nat, h: nat, e: nat, k: nat, ls :: Reaches(shared, d, h, e, k, ls, t)
  }

  lemma ReachableInv(t: Sys)
    requires Reachable(t)
    ensures Inv(t)
  {
    var shared, d: nat, h: nat, e: nat, k: nat, ls :| Reaches(shared, d, h, e, k, ls, t);
    StartInv(shared, d, h, e, k);
    RunInv(Start(shared, d, h, e, k), ls, t);
  }

  predicate HoldsConn(s: Sys, w: nat, c: nat) {
    RunsCommand(s, w) && !StageOf(s, w).Polling? && StageOf(s, w).conn == c
  }

  lemma InConns(c: nat, conns: seq<nat>, i: nat)
    requires i < |conns| && conns[i] == c
    ensures Sum(Is(c), conns) >= 1
  {
    SumAt(Is(c), conns, i);
  }

  lemma ConnSomewhere(t: Sys, c: nat)
    requires ConnPlaces(t, c) == 1
    ensures c in t.conns || c in t.lost || c in t.finished || exists w: nat :: HoldsConn(t, w, c)
  {
    if Sum(Is(c), t.conns) > 0 {
      var i := SumWitness(Is(c), t.conns);
    }
    if Sum(Is(c), t.finished) > 0 {
      var i := SumWitness(Is(c), t.finished);
    }
    if Sum(Holds(c), t.db.workers) > 0 {
      var w := SumWitness(Holds(c), t.db.workers);
      assert HoldsConn(t, w, c);
    }
  }

  lemma FinishedOnce(t: Sys)
    requires ConnInv(t)
    ensures forall i, j :: 0 <= i < j < |t.finished| ==> t.finished[i] != t.finished[j]
  {
    forall i, j | 0 <= i < j < |t.finished| ensures t.finished[i] != t.finished[j] {
      assert ConnPlaces(t, t.finished[i]) <= 1;
      SumTwo(Is(t.finished[i]), t.finished, i, j);
    }
  }

  // Each established connection is in exactly one place, and no connection is in two:
  // not twice in the deque, not with two workers, not with a worker while it waits in
  // the deque, is lost, or has been finished.
  lemma ConnectionExclusive(t: Sys, c: nat)
    requires Reachable(t)
    ensures c < t.established ==>
      || c in t.conns || c in t.lost || c in t.finished
      || exists w: nat :: HoldsConn(t, w, c)
    ensures forall i, j :: 0 <= i < j < |t.conns| ==> t.conns[i] != t.conns[j]
    ensures forall v: nat, w: nat :: HoldsConn(t, v, c) && HoldsConn(t, w, c) ==> v == w
    ensures forall w: nat :: HoldsConn(t, w, c) ==> c !in t.conns && c !in t.lost && c !in t.finished
    ensures c in t.finished ==> c !in t.conns && c !in t.lost
    ensures c in t.conns ==> c !in t.lost
    ensures t.lost[c] <= 1 && forall i, j :: 0 <= i < j < |t.finished| ==> t.finished[i] != t.finished[j]
  {
    ReachableInv(t);
    assert ConnPlaces(t, c) == if c < t.established then 1 else 0;
    if c < t.established {
      ConnSomewhere(t, c);
    }
    if c in t.conns {
      var i :| 0 <= i < |t.conns| && t.conns[i] == c;
      InConns(c, t.conns, i);
    }
    if c in t.finished {
      var i :| 0 <= i < |t.finished| && t.finished[i] == c;
      InConns(c, t.finished, i);
    }
    forall i, j | 0 <= i < j < |t.conns| ensures t.conns[i] != t.conns[j] {
      assert ConnPlaces(t, t.conns[i]) <= 1;
      SumTwo(Is(t.conns[i]), t.conns, i, j);
    }
    forall w: nat | HoldsConn(t, w, c) ensures Sum(Holds(c), t.db.workers) >= 1 {
      SumAt(Holds(c), t.db.workers, w);
    }
    FinishedOnce(t);
    forall v: nat, w: nat | HoldsConn(t, v, c) && HoldsConn(t, w, c) ensures v == w {
      if v != w {
        SumTwo(Holds(c), t.db.workers, if v < w then v else w, if v < w then w else v);
      }
    }
  }

  // ---- Counting connections ----

  function HoldsAny(pc: TP.Worker<Job>): nat {
    if pc.Running? && pc.job.Command? && !pc.job.stage.Polling? then 1 else 0
  }

  function ConnTotal(s: Sys): nat {
    |s.conns| + Sum(HoldsAny, s.db.workers) + |s.lost| + |s.finished|
  }

  lemma TotalWork(s: Sys, w: nat, act: Act)
    requires CanWork(s, w, act)
    ensures ConnTotal(Worked(s, w, act)) == ConnTotal(s)
  {
    WorkMoves(s, w, act, HoldsAny);
  }

  lemma TotalTear(s: Sys, td: Teardown)
    requires CanTear(s, td)
    ensures ConnTotal(Torn(s, td)) == ConnTotal(s)
  {
    SumSame(HoldsAny, s.db.workers, Torn(s, td).db.workers);
  }

  lemma TotalTalk(s: Sys, c: nat, say: Say)
    requires CanSay(s, c, say)
    ensures ConnTotal(Said(s, c, say)) == ConnTotal(s)
  {
    SayWorkers(s, c, say, HoldsAny);
  }

  lemma TotalLocal(s: Sys, k: TP.Label<Job>)
    requires Internal(k) && TP.Enabled(s.db, k) && JobInv(s)
    ensures ConnTotal(s.(db := TP.Next(s.db, k))) == ConnTotal(s)
  {
    InternalMove(s.db, k, HoldsAny);
  }

  lemma TotalStep(s: Sys, l: Label)
    requires Enabled(s, l) && JobInv(s)
    ensures ConnTotal(Next(s, l)) == ConnTotal(s)
  {
    match l {
      case Local(where, k) => if where == Db { TotalLocal(s, k); }
      case Spin(_) =>
      case Work(w, act) => TotalWork(s, w, act);
      case WaitOver(where, w) => if where == Db { SumUpdate(HoldsAny, s.db.workers, w, TP.Loop); }
      case Talk(c, say) => TotalTalk(s, c, say);
      case Tear(td) => TotalTear(s, td);
    }
  }

  lemma {:induction false} TotalRun(s: Sys, ls: seq<Label>, t: Sys)
    requires Inv(s) && Run(s, ls, t)
    ensures ConnTotal(t) == ConnTotal(s)
    decreases |ls|
  {
    if ls != [] {
      InvStep(s, ls[0]);
      TotalStep(s, ls[0]);
      TotalRun(Next(s, ls[0]), ls[1..], t);
    }
  }

  lemma {:induction false} Established(s: Sys, ls: seq<Label>, t: Sys)
    requires Run(s, ls, t)
    ensures t.established == s.established
    decreases |ls|
  {
    if ls != [] {
      Established(Next(s, ls[0]), ls[1..], t);
    }
  }

  // In the deque + held + lost (+ finished) is the number established.
  lemma ConnectionConservation(t: Sys)
    requires Reachable(t)
    ensures |t.conns| + Sum(HoldsAny, t.db.workers) + |t.lost| + |t.finished| == t.established
  {
    var shared, d: nat, h: nat, e: nat, k: nat, ls :| Reaches(shared, d, h, e, k, ls, t);
    var s := Start(shared, d, h, e, k);
    StartInv(shared, d, h, e, k);
    TotalRun(s, ls, t);
    Established(s, ls, t);
    SumZero(HoldsAny, s.db.workers);
    NumberOnce(e, 0);
  }

  // ---- Commands and promises ----

  predicate IsQueued(s: Sys, i: nat, id: nat) {
    i < |s.db.tasks| && s.db.tasks[i].job.Command? && s.db.tasks[i].job.id == id
  }

  predicate IsRunning(s: Sys, w: nat, id: nat) {
    RunsCommand(s, w) && s.db.workers[w].job.id == id
  }

  lemma CommandSomewhere(t: Sys, id: nat)
    requires TaskPlaces(t, id) == 1
    ensures (exists i: nat :: IsQueued(t, i, id)) || (exists w: nat :: IsRunning(t, w, id))
            || id in t.completed || id in t.dropped
  {
    if Sum(Queues(id), t.db.tasks) > 0 {
      var i := SumWitness(Queues(id), t.db.tasks);
      assert IsQueued(t, i, id);
    }
    if Sum(RunsOpen(id), t.db.workers) > 0 {
      var w := SumWitness(RunsOpen(id), t.db.workers);
      assert IsRunning(t, w, id);
    }
    if Sum(RunsSet(id), t.db.workers) > 0 {
      var w := SumWitness(RunsSet(id), t.db.workers);
      assert IsRunning(t, w, id);
    }
  }

  lemma RunningCounts(t: Sys, w: nat, id: nat)
    requires IsRunning(t, w, id)
    ensures Sum(RunsOpen(id), t.db.workers) + Sum(RunsSet(id), t.db.workers) >= 1
  {
    SumAt(RunsOpen(id), t.db.workers, w);
    SumAt(RunsSet(id), t.db.workers, w);
  }

  lemma TwoRunning(t: Sys, v: nat, w: nat, id: nat)
    requires IsRunning(t, v, id) && IsRunning(t, w, id) && v < w
    ensures Sum(RunsOpen(id), t.db.workers) + Sum(RunsSet(id), t.db.workers) >= 2
  {
    SumTwo(RunsOpen(id), t.db.workers, v, w);
    SumTwo(RunsSet(id), t.db.workers, v, w);
    SumAt(RunsOpen(id), t.db.workers, v);
    SumAt(RunsSet(id), t.db.workers, v);
    SumAt(RunsOpen(id), t.db.workers, w);
    SumAt(RunsSet(id), t.db.workers, w);
  }

  // Each submitted command is queued, running on a worker, completed or dropped, and
  // only one of these, in only one place.
  lemma CommandPlaces(t: Sys, id: nat)
    requires Reachable(t) && id < |t.texts|
    ensures (exists i: nat :: IsQueued(t, i, id)) || (exists w: nat :: IsRunning(t, w, id))
            || id in t.completed || id in t.dropped
    ensures forall i: nat, j: nat :: IsQueued(t, i, id) && IsQueued(t, j, id) ==> i == j
    ensures forall v: nat, w: nat :: IsRunning(t, v, id) && IsRunning(t, w, id) ==> v == w
    ensures forall i: nat, w: nat :: !(IsQueued(t, i, id) && IsRunning(t, w, id))
    ensures id in t.completed || id in t.dropped ==>
              (forall i: nat :: !IsQueued(t, i, id)) && (forall w: nat :: !IsRunning(t, w, id))
    ensures t.completed[id] + t.dropped[id] <= 1
  {
    ReachableInv(t);
    CommandSomewhere(t, id);
    forall i: nat | IsQueued(t, i, id) ensures Sum(Queues(id), t.db.tasks) >= 1 {
      SumAt(Queues(id), t.db.tasks, i);
    }
    forall i: nat, j: nat | IsQueued(t, i, id) && IsQueued(t, j, id) ensures i == j {
      if i != j {
        SumTwo(Queues(id), t.db.tasks, if i < j then i else j, if i < j then j else i);
      }
    }
    forall w: nat | IsRunning(t, w, id)
      ensures Sum(RunsOpen(id), t.db.workers) + Sum(RunsSet(id), t.db.workers) >= 1
    {
      RunningCounts(t, w, id);
    }
    forall v: nat, w: nat | IsRunning(t, v, id) && IsRunning(t, w, id) ensures v == w {
      if v != w {
        TwoRunning(t, if v < w then v else w, if v < w then w else v, id);
      }
    }
  }

  // A promise is set exactly when its command has been answered, with the answer to
  // that command's own text.
  lemma PromiseOwn(t: Sys, id: nat)
    requires Reachable(t)
    ensures id in t.promises <==>
      id in t.completed || exists w: nat :: IsRunning(t, w, id) && StageOf(t, w).Returning?
    ensures id in t.promises ==> id < |t.texts| && t.promises[id].text == t.texts[id]
    ensures id in t.promises ==> id !in t.dropped
  {
    ReachableInv(t);
    assert TaskPlaces(t, id) <= 1;
    if Sum(RunsSet(id), t.db.workers) > 0 {
      var w := SumWitness(RunsSet(id), t.db.workers);
      assert IsRunning(t, w, id) && StageOf(t, w).Returning?;
    }
    forall w: nat | IsRunning(t, w, id) && StageOf(t, w).Returning? ensures Sum(RunsSet(id), t.db.workers) >= 1 {
      SumAt(RunsSet(id), t.db.workers, w);
    }
  }

  // set_value is called on a promise that is not yet set.
  lemma PromiseSetOnce(t: Sys, w: nat, outcome: int)
    requires Reachable(t) && CanWork(t, w, Exec(outcome))
    ensures t.db.workers[w].job.id < |t.texts| && t.db.workers[w].job.id !in t.promises
    ensures Worked(t, w, Exec(outcome)).promises
            == t.promises[t.db.workers[w].job.id := Answer(t.texts[t.db.workers[w].job.id], outcome)]
  {
    ReachableInv(t);
    PromiseFresh(t, w);
  }

  lemma PromiseKeptTalk(s: Sys, c: nat, say: Say)
    requires CanSay(s, c, say)
    ensures Said(s, c, say).promises == s.promises
  {
  }

  lemma PromiseKeptWork(s: Sys, w: nat, act: Act, id: nat)
    requires PromiseInv(s) && TaskInv(s) && CanWork(s, w, act) && id in s.promises
    ensures id in Worked(s, w, act).promises && Worked(s, w, act).promises[id] == s.promises[id]
  {
    if act.Exec? {
      PromiseFresh(s, w);
    }
  }

  lemma PromiseKeptStep(s: Sys, l: Label, id: nat)
    requires Inv(s) && Enabled(s, l) && id in s.promises
    ensures id in Next(s, l).promises && Next(s, l).promises[id] == s.promises[id]
  {
    match l {
      case Local(_, _) =>
      case Spin(_) =>
      case Work(w, act) => PromiseKeptWork(s, w, act, id);
      case WaitOver(_, _) =>
      case Talk(c, say) => PromiseKeptTalk(s, c, say);
      case Tear(_) =>
    }
  }

  // Whatever happens later, a future that has its value keeps it.
  lemma {:induction false} PromiseKept(s: Sys, ls: seq<Label>, t: Sys, id: nat)
    requires Inv(s) && Run(s, ls, t) && id in s.promises
    ensures id in t.promises && t.promises[id] == s.promises[id]
    decreases |ls|
  {
    if ls != [] {
      PromiseKeptStep(s, ls[0], id);
      InvStep(s, ls[0]);
      PromiseKept(Next(s, ls[0]), ls[1..], t, id);
    }
  }

  // A caller that waits is left alone until it gets its answer.
  lemma TalkAwaits(s: Sys, c: nat, say: Say, d: nat, id: nat)
    requires CanSay(s, c, say) && d < |s.callers| && s.callers[d] == Awaiting(id)
    ensures d < |Said(s, c, say).callers| && (Said(s, c, say).callers[d] == Awaiting(id) || Ready(s, id))
  {
  }

  lemma StepCallers(s: Sys, l: Label)
    requires Enabled(s, l) && !l.Talk?
    ensures Next(s, l).callers == s.callers
  {
    match l {
      case Work(w, act) => WorkEffect(s, w, act);
      case _ =>
    }
  }

  lemma StepReady(s: Sys, l: Label, id: nat)
    requires Inv(s) && Enabled(s, l) && Ready(s, id)
    ensures Ready(Next(s, l), id)
  {
    if id in s.promises {
      PromiseKeptStep(s, l, id);
    } else {
      StepDropped(s, l, id);
    }
  }

  lemma StepDropped(s: Sys, l: Label, id: nat)
    requires Enabled(s, l) && id in s.dropped
    ensures id in Next(s, l).dropped
  {
    match l {
      case Work(w, act) => WorkEffect(s, w, act);
      case _ =>
    }
  }

  ghost predicate AwaitsOrReady(s: Sys, c: nat, id: nat) {
    Ready(s, id) || (c < |s.callers| && s.callers[c] == Awaiting(id))
  }

  lemma AwaitsOn(s: Sys, l: Label, c: nat, id: nat)
    requires Inv(s) && Enabled(s, l) && AwaitsOrReady(s, c, id)
    ensures AwaitsOrReady(Next(s, l), c, id)
  {
    if Ready(s, id) {
      StepReady(s, l, id);
    } else if l.Talk? {
      TalkAwaits(s, l.c, l.say, c, id);
    } else {
      StepCallers(s, l);
    }
  }

  lemma {:induction false} AwaitsRun(s: Sys, ls: seq<Label>, t: Sys, c: nat, id: nat)
    requires Inv(s) && Run(s, ls, t) && AwaitsOrReady(s, c, id)
    ensures AwaitsOrReady(t, c, id)
    decreases |ls|
  {
    if ls != [] {
      AwaitsOn(s, ls[0], c, id);
      InvStep(s, ls[0]);
      AwaitsRun(Next(s, ls[0]), ls[1..], t, c, id);
    }
  }

  // A caller that blocks on a command's future, as refresh does on its truncation,
  // submits nothing more before that command has been executed: whenever its next
  // command can be pushed, the awaited one has its answer and no worker can still run it.
  lemma AwaitedFirst(s: Sys, ls: seq<Label>, t: Sys, c: nat, id: nat, text: string, front: bool, handled: bool)
    requires Reachable(s) && Run(s, ls, t) && c < |s.callers| && s.callers[c] == Awaiting(id)
    requires CanSay(t, c, Call(text, front, handled))
    ensures id in t.promises && id < |t.texts| && t.promises[id].text == t.texts[id]
    ensures forall i: nat :: !IsQueued(t, i, id)
    ensures forall w: nat :: IsRunning(t, w, id) ==> StageOf(t, w).Returning?
    ensures var u := Said(t, c, Call(text, front, handled));
      |t.texts| !in t.promises && IsQueued(u, if front then 0 else |t.db.tasks|, |t.texts|)
  {
    ReachableInv(s);
    RunInv(s, ls, t);
    AwaitsRun(s, ls, t, c, id);
    assert TaskPlaces(t, id) <= 1 && TaskPlaces(t, |t.texts|) == 0;
    forall i: nat ensures !IsQueued(t, i, id) {
      if IsQueued(t, i, id) {
        SumAt(Queues(id), t.db.tasks, i);
      }
    }
    forall w: nat | IsRunning(t, w, id) ensures StageOf(t, w).Returning? {
      SumAt(RunsOpen(id), t.db.workers, w);
    }
  }

  // A worker that runs a waiting task waits for a command that has left the queue.
  lemma WaiterBehindCommand(t: Sys, w: nat)
    requires Reachable(t) && Runs(t.db, w) && t.db.workers[w].job.Wait?
    ensures var id := t.db.workers[w].job.id;
      id in t.promises || id in t.dropped || exists v: nat :: IsRunning(t, v, id)
  {
    ReachableInv(t);
    var id := t.db.workers[w].job.id;
    assert JobKnown(t.texts, t.db.workers[w].job);
    CommandPlaces(t, id);
    assert forall i :: 0 <= i < |t.db.tasks| ==> !WaitsFor(t.db.workers[w].job, t.db.tasks[i].job);
    assert forall i: nat :: !IsQueued(t, i, id);
    PromiseOwn(t, id);
  }

  // ---- After destruction ----

  // Once the thread pool is gone, every future is valued or broken and never both,
  // nobody holds a connection, and when the connection deque has been emptied the
  // finished connections are exactly those never lost, each finished once.
  lemma AfterTeardown(t: Sys)
    requires Reachable(t) && t.torn
    ensures forall id: nat :: id < |t.texts| ==> (id in t.promises <==> id !in t.dropped)
    ensures forall c: nat, w: nat :: !HoldsConn(t, w, c)
    ensures t.conns == [] ==>
      && (forall c: nat :: c < t.established ==> (c in t.finished <==> c !in t.lost))
      && (forall i, j :: 0 <= i < j < |t.finished| ==> t.finished[i] != t.finished[j])
  {
    ReachableInv(t);
    forall w: nat, c: nat ensures !HoldsConn(t, w, c) {
    }
    forall id: nat | id < |t.texts| ensures id in t.promises <==> id !in t.dropped {
      CommandPlaces(t, id);
      PromiseOwn(t, id);
    }
    if t.conns == [] {
      forall c: nat | c < t.established ensures c in t.finished <==> c !in t.lost {
        ConnectionExclusive(t, c);
      }
      FinishedOnce(t);
    }
  }

  // The destruction breaks the futures of the commands still queued, and only those.
  lemma BrokenIff(s: Sys, id: nat)
    requires CanTear(s, DestroyDb)
    ensures id in Torn(s, DestroyDb).dropped <==> id in s.dropped || exists i: nat :: IsQueued(s, i, id)
  {
    QueuedCount(s.db.tasks, id);
    if Sum(Queues(id), s.db.tasks) > 0 {
      var i := SumWitness(Queues(id), s.db.tasks);
      assert IsQueued(s, i, id);
    }
    if i: nat :| IsQueued(s, i, id) {
      SumAt(Queues(id), s.db.tasks, i);
    }
  }

  // A waiting task meets a broken future only after the destruction and only on the
  // other pool: there the source's get throws, and nothing catches it.
  lemma BrokenWait(t: Sys, where: Which, w: nat)
    requires Reachable(t) && CanStopWaiting(t, where, w) && PoolAt(t, where).workers[w].job.id in t.dropped
    ensures t.torn && where == Helper && !t.shared
  {
    ReachableInv(t);
    assert Runs(PoolAt(t, where), w);
  }

  // ---- Commands overtake each other ----

  lemma StepFirst(s: Sys, l: Label, m: Sys, rest: seq<Label>, t: Sys)
    requires Enabled(s, l) && m == Next(s, l) && Run(m, rest, t)
    ensures Run(s, [l] + rest, t)
  {
    assert ([l] + rest)[1..] == rest;
  }

  // A worker with the mutex and a task in front of it pulls the task.
  lemma PullsTested(s: Sys, w: nat, rest: seq<Label>, t: Sys) returns (ls: seq<Label>)
    requires w < |s.db.workers| && s.db.workers[w].Testing? && !s.db.done && s.db.tasks != []
    requires Run(s.(db := s.db.(workers := s.db.workers[w := TP.Running(s.db.tasks[0].job)], tasks := s.db.tasks[1..],
                                owner := None)), rest, t)
    ensures Run(s, ls, t)
  {
    var test, recheck, pull := Local(Db, TP.Test(w)), Local(Db, TP.Recheck(w)), Local(Db, TP.Pull(w));
    var c := Next(s, test);
    var d := Next(c, recheck);
    var e := Next(d, pull);
    assert e.db.workers == s.db.workers[w := TP.Running(s.db.tasks[0].job)];
    StepFirst(d, pull, e, rest, t);
    StepFirst(c, recheck, d, [pull] + rest, t);
    StepFirst(s, test, c, [recheck] + ([pull] + rest), t);
    ls := [test] + ([recheck] + ([pull] + rest));
  }

  // A free worker takes the front of the deque.
  lemma PullsFront(s: Sys, w: nat, rest: seq<Label>, t: Sys) returns (ls: seq<Label>)
    requires w < |s.db.workers| && s.db.workers[w].Loop? && s.db.owner.None? && !s.db.done && s.db.tasks != []
    requires Run(s.(db := s.db.(workers := s.db.workers[w := TP.Running(s.db.tasks[0].job)], tasks := s.db.tasks[1..])),
                 rest, t)
    ensures Run(s, ls, t)
  {
    var check, acquire := Local(Db, TP.CheckDone(w)), Local(Db, TP.Acquire(w));
    var a := Next(s, check);
    var b := Next(a, acquire);
    assert b.db.workers[w := TP.Running(s.db.tasks[0].job)] == s.db.workers[w := TP.Running(s.db.tasks[0].job)];
    ls := PullsTested(b, w, rest, t);
    StepFirst(a, acquire, b, ls, t);
    StepFirst(s, check, a, [acquire] + ls, t);
    ls := [check] + ([acquire] + ls);
  }

  lemma Answers(s: Sys, w: nat, outcome: int) returns (ls: seq<Label>, t: Sys)
    requires RunsCommand(s, w) && StageOf(s, w).Polling? && s.conns != []
    ensures var job := s.db.workers[w].job;
      && Run(s, ls, t) && t.promises == s.promises[job.id := Answer(job.text, outcome)]
      && t.db.tasks == s.db.tasks && t.texts == s.texts
  {
    var a := Worked(s, w, Take);
    var b := Worked(a, w, StatusOk);
    t := Worked(b, w, Exec(outcome));
    StepFirst(b, Work(w, Exec(outcome)), t, [], t);
    StepFirst(a, Work(w, StatusOk), b, [Work(w, Exec(outcome))], t);
    StepFirst(s, Work(w, Take), a, [Work(w, StatusOk)] + [Work(w, Exec(outcome))], t);
    ls := [Work(w, Take)] + ([Work(w, StatusOk)] + [Work(w, Exec(outcome))]);
  }

  // Two commands pushed at the front before the worker has looked.
  function TwoPushed(first: string, second: string): Sys {
    var s := Start(false, 1, 1, 1, 1);
    var e0, e1 := TP.Entry(0, true, Command(0, first, Polling)), TP.Entry(1, true, Command(1, second, Polling));
    s.(db := s.db.(tasks := [e1, e0], pushed := 2), texts := [first, second])
  }

  // An idle caller's front push and its notify_one, while no worker sleeps.
  lemma PushesFront(s: Sys, text: string, rest: seq<Label>, t: Sys) returns (ls: seq<Label>)
    requires s.callers == [Idle] && s.db.owner.None? && !s.db.done && s.db.notifiers == 0
    requires forall i :: 0 <= i < |s.db.workers| ==> !s.db.workers[i].Asleep?
    requires Run(s.(db := TP.Pushed(s.db, true, Command(|s.texts|, text, Polling)).(notifiers := 0),
                    texts := s.texts + [text]), rest, t)
    ensures Run(s, ls, t)
  {
    var call, notify := Talk(0, Call(text, true, false)), Talk(0, CallNotify(None));
    var a := Next(s, call);
    var b := Next(a, notify);
    assert b.callers == s.callers;
    StepFirst(a, notify, b, rest, t);
    StepFirst(s, call, a, [notify] + rest, t);
    ls := [call] + ([notify] + rest);
  }

  lemma PushesTwo(first: string, second: string, rest: seq<Label>, t: Sys) returns (ls: seq<Label>)
    requires Run(TwoPushed(first, second), rest, t)
    ensures Run(Start(false, 1, 1, 1, 1), ls, t)
  {
    var s := Start(false, 1, 1, 1, 1);
    var one := s.(db := TP.Pushed(s.db, true, Command(0, first, Polling)).(notifiers := 0), texts := [] + [first]);
    assert TP.Pushed(one.db, true, Command(1, second, Polling)).(notifiers := 0) == TwoPushed(first, second).db;
    assert one.texts + [second] == [first, second];
    ls := PushesFront(one, second, rest, t);
    ls := PushesFront(s, first, ls, t);
  }

  // Even with one worker the executor keeps no order: whatever the two command
  // strings are, the one submitted second can be answered while the first is queued.
  lemma Overtakes(first: string, second: string)
    ensures exists ls, t: Sys :: Run(Start(false, 1, 1, 1, 1), ls, t) && t.texts == [first, second]
              && 1 in t.promises && t.promises[1].text == second && IsQueued(t, 0, 0)
  {
    var s := TwoPushed(first, second);
    var entry := s.db.tasks[1];
    var running := TP.Running(Command(1, second, Polling));
    var pulled := s.(db := s.db.(workers := s.db.workers[0 := running], tasks := [entry]));
    assert s.conns == Numbers(0) + [0];
    var ls, t := Answers(pulled, 0, 0);
    assert s.db.tasks[1..] == [entry];
    ls := PullsFront(s, 0, ls, t);
    ls := PushesTwo(first, second, ls, t);
  }
}
