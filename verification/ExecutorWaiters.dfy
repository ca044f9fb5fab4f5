// The tasks that wait for a handled command: each such command owes exactly one, which
// is pushed, run and ended once, after the command's answer, or dropped unrun.

module ExecutorWaiters {
  import opened Sums
  import opened Executor
  import opened ExecutorSafety
  import opened ExecutorProgress
  import TP = ThreadPool

  // ---- What the labels of a run say ----

  predicate IsCall(l: Label) {
    l.Talk? && l.say.Call?
  }

  // How many times command id, the commands being numbered from first on as they are
  // submitted, is submitted with a task to wait for it.
  function Handles(ls: seq<Label>, first: nat, id: nat): nat {
    if ls == [] then 0
    else if IsCall(ls[0]) then
      (if ls[0].say.handled && first == id then 1 else 0) + Handles(ls[1..], first + 1, id)
    else Handles(ls[1..], first, id)
  }

  // Waiting tasks for command id that this step ends.
  function EndedBy(s: Sys, l: Label, id: nat): nat
    requires Enabled(s, l)
  {
    if l.WaitOver? && PoolAt(s, l.where).workers[l.w].job.id == id then 1 else 0
  }

  ghost function EndedIn(s: Sys, ls: seq<Label>, t: Sys, id: nat): nat
    requires Run(s, ls, t)
    decreases |ls|
  {
    if ls == [] then 0 else EndedBy(s, ls[0], id) + EndedIn(Next(s, ls[0]), ls[1..], t, id)
  }

  // Waiting tasks for command id that are still queued when their pool is destroyed.
  function DroppedBy(s: Sys, l: Label, id: nat): nat {
    if l == Tear(DestroyDb) && s.shared then Sum(QueuesWait(id), s.db.tasks) else 0
  }

  ghost function DroppedIn(s: Sys, ls: seq<Label>, t: Sys, id: nat): nat
    requires Run(s, ls, t)
    decreases |ls|
  {
    if ls == [] then 0 else DroppedBy(s, ls[0], id) + DroppedIn(Next(s, ls[0]), ls[1..], t, id)
  }

  // ---- Where a waiting task can be ----

  // A caller that has yet to push it.
  function Owes(id: nat): Caller -> nat {
    (c: Caller) => if c == Notifying(Some(id)) || c == Owing(id) then 1 else 0
  }

  function QueuesWait(id: nat): TP.Entry<Job> -> nat {
    (e: TP.Entry<Job>) => if e.job == Wait(id) then 1 else 0
  }

  function RunsWait(id: nat): TP.Worker<Job> -> nat {
    (pc: TP.Worker<Job>) => if pc == TP.Running(Wait(id)) then 1 else 0
  }

  function Underway(s: Sys, id: nat): nat {
    var p := PoolAt(s, WaitPool(s));
    Sum(Owes(id), s.callers) + Sum(QueuesWait(id), p.tasks) + Sum(RunsWait(id), p.workers)
  }

  // ---- One step ----

  function Opens(s: Sys, l: Label, id: nat): nat {
    if IsCall(l) && l.say.handled && |s.texts| == id then 1 else 0
  }

  // Nothing of a waiting task is made, moved or ended but by these.
  ghost predicate Balanced(s: Sys, l: Label, id: nat)
    requires Enabled(s, l)
  {
    Underway(s, id) + Opens(s, l, id) == Underway(Next(s, l), id) + EndedBy(s, l, id) + DroppedBy(s, l, id)
  }

  lemma PoolInternal(p: TP.Pool<Job>, k: TP.Label<Job>, id: nat)
    requires Internal(k) && TP.Enabled(p, k)
    ensures var q := TP.Next(p, k);
      Sum(QueuesWait(id), q.tasks) + Sum(RunsWait(id), q.workers)
      == Sum(QueuesWait(id), p.tasks) + Sum(RunsWait(id), p.workers)
  {
    InternalEffect(p, k);
    InternalMove(p, k, RunsWait(id));
  }

  lemma LocalBalanced(s: Sys, where: Which, k: TP.Label<Job>, id: nat)
    requires Enabled(s, Local(where, k))
    ensures Balanced(s, Local(where, k), id)
  {
    PoolInternal(PoolAt(s, where), k, id);
  }

  lemma WorkBalanced(s: Sys, w: nat, act: Act, id: nat)
    requires CanWork(s, w, act)
    ensures Balanced(s, Work(w, act), id)
  {
    WorkEffect(s, w, act);
    WorkJob(s, w, act);
    WorkMoves(s, w, act, RunsWait(id));
  }

  lemma WaitBalanced(s: Sys, where: Which, w: nat, id: nat)
    requires JobInv(s) && CanStopWaiting(s, where, w)
    ensures Balanced(s, WaitOver(where, w), id)
  {
    assert Runs(PoolAt(s, where), w);
    assert where == WaitPool(s);
    SumUpdate(RunsWait(id), PoolAt(s, where).workers, w, TP.Loop);
  }

  lemma NotifiedWaits(p: TP.Pool<Job>, woken: Option<nat>, id: nat)
    requires TP.CanNotify(p, woken)
    ensures Sum(RunsWait(id), TP.Notified(p, woken).workers) == Sum(RunsWait(id), p.workers)
    ensures TP.Notified(p, woken).tasks == p.tasks
  {
    if woken.Some? {
      SumUpdate(RunsWait(id), p.workers, woken.value, TP.Locking);
    }
  }

  lemma PushedWaits(p: TP.Pool<Job>, front: bool, job: Job, id: nat)
    ensures Sum(QueuesWait(id), TP.Pushed(p, front, job).tasks)
            == Sum(QueuesWait(id), p.tasks) + if job == Wait(id) then 1 else 0
    ensures TP.Pushed(p, front, job).workers == p.workers
  {
    var e := TP.Entry(p.pushed, front, job);
    SumAppend(QueuesWait(id), p.tasks, [e]);
    SumAppend(QueuesWait(id), [e], p.tasks);
    assert Sum(QueuesWait(id), [e]) == QueuesWait(id)(e);
  }

  lemma CallBalanced(s: Sys, c: nat, say: Say, id: nat)
    requires CanSay(s, c, say) && say.Call?
    ensures Balanced(s, Talk(c, say), id)
  {
    SumUpdate(Owes(id), s.callers, c, Said(s, c, say).callers[c]);
    PushedWaits(s.db, say.front, Command(|s.texts|, say.text, Polling), id);
  }

  lemma NotifyBalanced(s: Sys, c: nat, say: Say, id: nat)
    requires CanSay(s, c, say) && (say.CallNotify? || say.WaiterNotify?)
    ensures Balanced(s, Talk(c, say), id)
  {
    SumUpdate(Owes(id), s.callers, c, Said(s, c, say).callers[c]);
    NotifiedWaits(if say.CallNotify? then s.db else PoolAt(s, WaitPool(s)), say.woken, id);
  }

  lemma PushBalanced(s: Sys, c: nat, id: nat)
    requires CanSay(s, c, PushWaiter)
    ensures Balanced(s, Talk(c, PushWaiter), id)
  {
    SumUpdate(Owes(id), s.callers, c, NotifyingWaiter);
    PushedWaits(PoolAt(s, WaitPool(s)), false, Wait(s.callers[c].id), id);
  }

  lemma TalkBalanced(s: Sys, c: nat, say: Say, id: nat)
    requires CanSay(s, c, say)
    ensures Balanced(s, Talk(c, say), id)
  {
    if say.Call? {
      CallBalanced(s, c, say, id);
    } else if say.CallNotify? || say.WaiterNotify? {
      NotifyBalanced(s, c, say, id);
    } else if say.PushWaiter? {
      PushBalanced(s, c, id);
    } else {
      SumUpdate(Owes(id), s.callers, c, Said(s, c, say).callers[c]);
    }
  }

  lemma TearBalanced(s: Sys, td: Teardown, id: nat)
    requires CanTear(s, td)
    ensures Balanced(s, Tear(td), id)
  {
    SumSame(RunsWait(id), s.db.workers, Torn(s, td).db.workers);
  }

  lemma StepBalanced(s: Sys, l: Label, id: nat)
    requires Inv(s) && Enabled(s, l)
    ensures Balanced(s, l, id)
  {
    match l {
      case Local(where, k) => LocalBalanced(s, where, k, id);
      case Spin(_) =>
      case Work(w, act) => WorkBalanced(s, w, act, id);
      case WaitOver(where, w) => WaitBalanced(s, where, w, id);
      case Talk(c, say) => TalkBalanced(s, c, say, id);
      case Tear(td) => TearBalanced(s, td, id);
    }
  }

  lemma CommandsGrow(s: Sys, l: Label)
    requires Enabled(s, l)
    ensures |Next(s, l).texts| == |s.texts| + if IsCall(l) then 1 else 0
  {
    match l {
      case Work(w, act) => WorkEffect(s, w, act);
      case _ =>
    }
  }

  // ---- Every run ----

  lemma {:induction false} RunBalanced(s: Sys, ls: seq<Label>, t: Sys, id: nat)
    requires Inv(s) && Run(s, ls, t)
    ensures Underway(s, id) + Handles(ls, |s.texts|, id)
            == Underway(t, id) + EndedIn(s, ls, t, id) + DroppedIn(s, ls, t, id)
    decreases |ls|
  {
    if ls != [] {
      InvStep(s, ls[0]);
      StepBalanced(s, ls[0], id);
      CommandsGrow(s, ls[0]);
      RunBalanced(Next(s, ls[0]), ls[1..], t, id);
    }
  }

  lemma {:induction false} HandledOnce(ls: seq<Label>, first: nat, id: nat)
    ensures Handles(ls, first, id) <= if first <= id then 1 else 0
  {
    if ls != [] {
      HandledOnce(ls[1..], if IsCall(ls[0]) then first + 1 else first, id);
    }
  }

  // In every run from the start, for every command: submitted with a waiting task, at
  // most once, is the task owed by its caller, queued, run, ended or dropped, each of
  // these counted with multiplicity. No other waiting task exists.
  lemma WaitersConserved(shared: bool, d: nat, h: nat, e: nat, k: nat, ls: seq<Label>, t: Sys, id: nat)
    requires Run(Start(shared, d, h, e, k), ls, t)
    ensures Handles(ls, 0, id) <= 1
    ensures var s := Start(shared, d, h, e, k);
      var p := if shared then t.db else t.helper;
      Handles(ls, 0, id) == Sum(Owes(id), t.callers) + Sum(QueuesWait(id), p.tasks) + Sum(RunsWait(id), p.workers)
                            + EndedIn(s, ls, t, id) + DroppedIn(s, ls, t, id)
  {
    var s := Start(shared, d, h, e, k);
    StartInv(shared, d, h, e, k);
    SumZero(Owes(id), s.callers);
    SumZero(RunsWait(id), s.db.workers);
    SumZero(RunsWait(id), s.helper.workers);
    RunBalanced(s, ls, t, id);
    HandledOnce(ls, 0, id);
    SharedKept(s, ls, t);
  }

  lemma {:induction false} SharedKept(s: Sys, ls: seq<Label>, t: Sys)
    requires Run(s, ls, t)
    ensures t.shared == s.shared
    decreases |ls|
  {
    if ls != [] {
      SharedStep(s, ls[0]);
      SharedKept(Next(s, ls[0]), ls[1..], t);
    }
  }

  lemma SharedStep(s: Sys, l: Label)
    requires Enabled(s, l)
    ensures Next(s, l).shared == s.shared
  {
    match l {
      case Work(w, act) => WorkEffect(s, w, act);
      case _ =>
    }
  }

  lemma {:induction false} NothingDropped(s: Sys, ls: seq<Label>, t: Sys, id: nat)
    requires Run(s, ls, t) && forall i :: 0 <= i < |ls| ==> ls[i] != Tear(DestroyDb)
    ensures DroppedIn(s, ls, t, id) == 0
    decreases |ls|
  {
    if ls != [] {
      assert ls[0] != Tear(DestroyDb);
      assert forall i :: 0 <= i < |ls[1..]| ==> ls[1..][i] == ls[i + 1];
      NothingDropped(Next(s, ls[0]), ls[1..], t, id);
    }
  }

  // When all has come to rest, the task of every command submitted with one has ended
  // exactly once, and no other task has ended.
  lemma WaitersServed(shared: bool, d: nat, h: nat, e: nat, k: nat, ls: seq<Label>, t: Sys, id: nat)
    requires Run(Start(shared, d, h, e, k), ls, t) && Quiescent(t)
    requires forall i :: 0 <= i < |ls| ==> ls[i] != Tear(DestroyDb)
    ensures EndedIn(Start(shared, d, h, e, k), ls, t, id) == Handles(ls, 0, id)
  {
    WaitersConserved(shared, d, h, e, k, ls, t, id);
    NothingDropped(Start(shared, d, h, e, k), ls, t, id);
    SumZero(Owes(id), t.callers);
    SumZero(RunsWait(id), t.db.workers);
    SumZero(RunsWait(id), t.helper.workers);
  }

  // A waiting task ends only when its command has been answered or broken.
  lemma {:induction false} EndedIsReady(s: Sys, ls: seq<Label>, t: Sys, id: nat)
    requires Inv(s) && Run(s, ls, t) && EndedIn(s, ls, t, id) > 0
    ensures id in t.promises || id in t.dropped
    decreases |ls|
  {
    InvStep(s, ls[0]);
    if EndedBy(s, ls[0], id) > 0 {
      StepReady(s, ls[0], id);
      ReadyRun(Next(s, ls[0]), ls[1..], t, id);
    } else {
      EndedIsReady(Next(s, ls[0]), ls[1..], t, id);
    }
  }

  lemma {:induction false} ReadyRun(s: Sys, ls: seq<Label>, t: Sys, id: nat)
    requires Inv(s) && Run(s, ls, t) && Ready(s, id)
    ensures Ready(t, id)
    decreases |ls|
  {
    if ls != [] {
      InvStep(s, ls[0]);
      StepReady(s, ls[0], id);
      ReadyRun(Next(s, ls[0]), ls[1..], t, id);
    }
  }
}
