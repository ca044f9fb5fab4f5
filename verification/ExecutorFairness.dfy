// Infinite runs with fair workers and callers, commands pushed at the back included.
// Without new commands every future is resolved under weak fairness alone, with any
// amount of spinning, spurious wake-ups and reading of futures in between.

module ExecutorFairness {
  import opened Sums
  import opened Executor
  import opened ExecutorSafety
  import opened ExecutorProgress
  import TP = ThreadPool

  // Those whose fairness matters: the database workers and the callers.
  datatype Actor = Worker(w: nat) | Outside(c: nat)

  // A productive step of this actor.
  predicate Acts(l: Label, a: Actor) {
    Productive(l) &&
    match a
    case Worker(w) =>
      || (l.Local? && l.where == Db && Internal(l.l) && l.l.w == w)
      || (l.Work? && l.w == w)
      || (l.WaitOver? && l.where == Db && l.w == w)
    case Outside(c) => l.Talk? && l.c == c
  }

  ghost predicate CanAct(s: Sys, a: Actor) {
    exists l :: Acts(l, a) && Enabled(s, l)
  }

  predicate ActsAt(does: nat -> Option<Label>, j: nat, a: Actor) {
    does(j).Some? && Acts(does(j).value, a)
  }

  // Any step but destruction and a push of a new command at the front.
  predicate Steady(l: Label) {
    !l.Tear? && !(l.Talk? && l.say.Call? && l.say.front)
  }

  // Spinning, spurious wake-ups, reading futures and pushing at the back are steady.
  lemma SteadyMeans(l: Label)
    ensures Steady(l) <==> !l.Tear? && forall c, text, handled :: l != Talk(c, Call(text, true, handled))
  {
    if l.Talk? && l.say.Call? && l.say.front {
      assert l == Talk(l.c, Call(l.say.text, true, l.say.handled));
    }
  }

  // One moment of a run: a steady step, or none at all.
  ghost predicate Moves(s: Sys, o: Option<Label>, t: Sys) {
    if o.None? then t == s else Enabled(s, o.value) && Steady(o.value) && t == Next(s, o.value)
  }

  ghost predicate MovesAt(run: nat -> Sys, does: nat -> Option<Label>, i: nat) {
    Moves(run(i), does(i), run(i + 1))
  }

  ghost predicate Path(run: nat -> Sys, does: nat -> Option<Label>) {
    forall i: nat :: MovesAt(run, does, i)
  }

  // No new commands at all.
  ghost predicate Closed(does: nat -> Option<Label>) {
    forall j: nat :: does(j).Some? ==> Ordinary(does(j).value)
  }

  ghost predicate AlwaysCan(run: nat -> Sys, i: nat, a: Actor) {
    forall j: nat :: j >= i ==> CanAct(run(j), a)
  }

  ghost predicate ActsLater(does: nat -> Option<Label>, i: nat, a: Actor) {
    exists j: nat :: j >= i && ActsAt(does, j, a)
  }

  // Weak fairness: an actor that could always take a productive step takes one.
  ghost predicate Fair(run: nat -> Sys, does: nat -> Option<Label>) {
    forall a, i: nat :: AlwaysCan(run, i, a) ==> ActsLater(does, i, a)
  }

  // ---- Steps that get work done ----

  // A task is pulled from the database pool, or one that was is carried on.
  predicate Gains(l: Label) {
    || (l.Local? && l.where == Db && l.l.Pull?)
    || l.Work?
    || (l.WaitOver? && l.where == Db)
  }

  function Owed(c: Caller): nat {
    if c.Awaiting? then 0 else CallerWeight(c)
  }

  function Todo(s: Sys): nat {
    PoolWork(s.db) + PoolWork(s.helper) + Sum(Owed, s.callers)
  }

  predicate Less(s: Sys, t: Sys) {
    Live(s) < Live(t) || (Live(s) == Live(t) && Todo(s) < Todo(t))
  }

  predicate AtMost(s: Sys, t: Sys) {
    Live(s) < Live(t) || (Live(s) == Live(t) && Todo(s) <= Todo(t))
  }

  lemma LocalTodo(p: TP.Pool<Job>, k: TP.Label<Job>)
    requires Internal(k) && TP.Enabled(p, k) && forall i | 0 <= i < |p.tasks| :: Fresh(p.tasks[i].job)
    ensures var q := TP.Next(p, k);
      && Sum(HoldsAny, q.workers) == Sum(HoldsAny, p.workers)
      && PoolWork(q) <= PoolWork(p)
      && (k.Pull? ==> PoolWork(q) < PoolWork(p))
  {
    InternalMove(p, k, HoldsAny);
    InternalMove(p, k, JobWeight);
  }

  lemma WorkTodo(s: Sys, w: nat, act: Act)
    requires CanWork(s, w, act)
    ensures Less(Worked(s, w, act), s)
  {
    WorkMoves(s, w, act, HoldsAny);
    WorkMoves(s, w, act, JobWeight);
  }

  lemma WaitOverTodo(s: Sys, where: Which, w: nat)
    requires CanStopWaiting(s, where, w)
    ensures Less(WithPool(s, where, TP.At(PoolAt(s, where), w, TP.Loop)), s)
  {
    SumUpdate(HoldsAny, PoolAt(s, where).workers, w, TP.Loop);
    SumUpdate(JobWeight, PoolAt(s, where).workers, w, TP.Loop);
  }

  lemma TalkTodo(s: Sys, c: nat, say: Say)
    requires CanSay(s, c, say) && !say.Call?
    ensures AtMost(Said(s, c, say), s)
  {
    SumUpdate(Owed, s.callers, c, Said(s, c, say).callers[c]);
    match say {
      case CallNotify(woken) => NotifiedWork(s.db, woken);
      case PushWaiter => PushedWork(PoolAt(s, WaitPool(s)), s.callers[c].id);
      case WaiterNotify(woken) => NotifiedWork(PoolAt(s, WaitPool(s)), woken);
      case _ =>
    }
  }

  lemma StepTodo(s: Sys, l: Label)
    requires Inv(s) && Enabled(s, l) && Ordinary(l)
    ensures AtMost(Next(s, l), s) && (Gains(l) ==> Less(Next(s, l), s))
  {
    match l {
      case Local(where, k) => LocalTodo(PoolAt(s, where), k);
      case Spin(_) =>
      case Work(w, act) => WorkTodo(s, w, act);
      case WaitOver(where, w) => WaitOverTodo(s, where, w);
      case Talk(c, say) => TalkTodo(s, c, say);
      case Tear(_) =>
    }
  }

  // ---- What the other steps leave alone ----

  predicate Extends<T(==)>(a: seq<T>, b: seq<T>) {
    |a| <= |b| && b[..|a|] == a
  }

  // More commands and tasks at the back, perhaps, and sleepers woken; nothing else that
  // matters to a running worker or a queued command.
  ghost predicate SameCore(s: Sys, t: Sys) {
    && t.shared == s.shared && t.promises == s.promises && t.dropped == s.dropped && t.conns == s.conns
    && t.db.done == s.db.done && t.torn == s.torn
    && Extends(s.texts, t.texts) && Extends(s.db.tasks, t.db.tasks)
    && |t.db.workers| == |s.db.workers| && |t.callers| == |s.callers|
    && (forall w: nat :: Runs(t.db, w) <==> Runs(s.db, w))
    && (forall w: nat | Runs(s.db, w) :: t.db.workers[w] == s.db.workers[w])
  }

  lemma LocalCore(s: Sys, k: TP.Label<Job>)
    requires Internal(k) && !k.Pull? && TP.Enabled(s.db, k)
    ensures SameCore(s, s.(db := TP.Next(s.db, k)))
  {
    InternalEffect(s.db, k);
  }

  lemma CallCore(s: Sys, c: nat, text: string)
    requires CanSay(s, c, Call(text, false, false))
    ensures SameCore(s, Said(s, c, Call(text, false, false)))
  {
  }

  lemma TalkCore(s: Sys, c: nat, say: Say)
    requires CanSay(s, c, say) && !(say.Call? && say.front)
    ensures SameCore(s, Said(s, c, say))
  {
    if say.Call? {
      CallCore(s, c, say.text);
    }
  }

  lemma QuietCore(s: Sys, l: Label)
    requires Enabled(s, l) && Steady(l) && !Gains(l)
    ensures SameCore(s, Next(s, l))
  {
    match l {
      case Local(where, k) => if where == Db { LocalCore(s, k); }
      case Talk(c, say) => TalkCore(s, c, say);
      case _ =>
    }
  }

  // A worker moves by its own productive steps only, unless it sleeps.
  lemma TalkWorker(s: Sys, c: nat, say: Say, w: nat)
    requires CanSay(s, c, say) && w < |s.db.workers| && !s.db.workers[w].Asleep?
    ensures w < |Said(s, c, say).db.workers| && Said(s, c, say).db.workers[w] == s.db.workers[w]
  {
  }

  lemma StillWorker(s: Sys, l: Label, w: nat)
    requires Enabled(s, l) && Steady(l) && !Acts(l, Worker(w))
    requires w < |s.db.workers| && !s.db.workers[w].Asleep?
    ensures w < |Next(s, l).db.workers| && Next(s, l).db.workers[w] == s.db.workers[w]
  {
    match l {
      case Local(where, k) => if where == Db { InternalEffect(s.db, k); }
      case Work(v, act) => WorkEffect(s, v, act);
      case Talk(c, say) => TalkWorker(s, c, say, w);
      case _ =>
    }
  }

  // A caller about to notify the database pool moves by that step only.
  predicate NotifiesDb(s: Sys, c: nat) {
    c < |s.callers| && (s.callers[c].Notifying? || (s.shared && s.callers[c].NotifyingWaiter?))
  }

  lemma StillCaller(s: Sys, l: Label, c: nat)
    requires Enabled(s, l) && Steady(l) && !Acts(l, Outside(c)) && NotifiesDb(s, c)
    ensures NotifiesDb(Next(s, l), c)
  {
    if !l.Talk? {
      StepCallers(s, l);
      SharedStays(s, l);
    }
  }

  lemma SharedStays(s: Sys, l: Label)
    requires Enabled(s, l)
    ensures Next(s, l).shared == s.shared
  {
    match l {
      case Work(w, act) => WorkEffect(s, w, act);
      case _ =>
    }
  }

  // ---- Runs in which nothing gets done ----

  ghost predicate Flat(does: nat -> Option<Label>, i: nat) {
    forall j: nat :: j >= i && does(j).Some? ==> !Gains(does(j).value)
  }

  ghost predicate QuietIn(does: nat -> Option<Label>, i: nat, j: nat) {
    forall k: nat :: i <= k < j && does(k).Some? ==> !Gains(does(k).value)
  }

  // What every run keeps: the invariant, the workers, the commands submitted so far; and
  // no connection comes back.
  ghost predicate Later(s: Sys, t: Sys) {
    && Inv(t) && t.db.done == s.db.done && |t.db.workers| == |s.db.workers|
    && Extends(s.texts, t.texts) && Live(t) <= Live(s)
  }

  lemma TalkKeeps(s: Sys, c: nat, say: Say)
    requires CanSay(s, c, say)
    ensures var t := Said(s, c, say);
      && t.db.done == s.db.done && |t.db.workers| == |s.db.workers|
      && Extends(s.texts, t.texts) && Live(t) == Live(s)
  {
    SayWorkers(s, c, say, HoldsAny);
  }

  lemma StepKeepsMost(s: Sys, l: Label)
    requires Inv(s) && Enabled(s, l) && Steady(l)
    ensures Later(s, Next(s, l))
  {
    InvStep(s, l);
    if l.Talk? {
      TalkKeeps(s, l.c, l.say);
    } else {
      LiveStep(s, l);
      OrdinaryFrame(s, l);
    }
  }

  lemma LaterStill(s: Sys, t: Sys, o: Option<Label>, u: Sys)
    requires Later(s, t) && Moves(t, o, u)
    ensures Later(s, u)
  {
    if o.Some? {
      StepKeepsMost(t, o.value);
      LaterTrans(s, t, u);
    }
  }

  lemma LaterSelf(s: Sys)
    requires Inv(s)
    ensures Later(s, s)
  {
  }

  lemma LaterTrans(s: Sys, t: Sys, u: Sys)
    requires Later(s, t) && Later(t, u)
    ensures Later(s, u)
  {
  }

  lemma KeptStep(run: nat -> Sys, does: nat -> Option<Label>, i: nat, j: nat)
    requires Path(run, does) && Later(run(i), run(j))
    ensures Later(run(i), run(j + 1))
  {
    assert MovesAt(run, does, j);
    LaterStill(run(i), run(j), does(j), run(j + 1));
  }

  lemma {:induction false} Kept(run: nat -> Sys, does: nat -> Option<Label>, i: nat, j: nat)
    requires Path(run, does) && Inv(run(i)) && i <= j
    ensures Later(run(i), run(j))
    decreases j - i
  {
    if i < j {
      Kept(run, does, i, j - 1);
      KeptStep(run, does, i, j - 1);
    } else {
      LaterSelf(run(i));
    }
  }

  lemma OrdinaryFrame(s: Sys, l: Label)
    requires Enabled(s, l) && Ordinary(l)
    ensures SameFrame(s, Next(s, l))
  {
    match l {
      case Local(where, k) => InternalEffect(PoolAt(s, where), k);
      case Work(w, act) => WorkFrame(s, w, act);
      case Talk(c, say) => TalkFrame(s, c, say);
      case _ =>
    }
  }

  lemma FlatStep(run: nat -> Sys, does: nat -> Option<Label>, i: nat, j: nat)
    requires Path(run, does) && QuietIn(does, i, j + 1) && i <= j && SameCore(run(i), run(j))
    ensures SameCore(run(i), run(j + 1))
  {
    assert MovesAt(run, does, j);
    if does(j).Some? {
      QuietCore(run(j), does(j).value);
      CoreTrans(run(i), run(j), run(j + 1));
    }
  }

  lemma CoreTrans(s: Sys, t: Sys, u: Sys)
    requires SameCore(s, t) && SameCore(t, u)
    ensures SameCore(s, u)
  {
  }

  lemma {:induction false} FlatCore(run: nat -> Sys, does: nat -> Option<Label>, i: nat, j: nat)
    requires Path(run, does) && QuietIn(does, i, j) && i <= j
    ensures SameCore(run(i), run(j))
    decreases j - i
  {
    if i < j {
      FlatCore(run, does, i, j - 1);
      FlatStep(run, does, i, j - 1);
    }
  }

  ghost predicate Still(does: nat -> Option<Label>, i: nat, j: nat, a: Actor) {
    forall k: nat :: i <= k < j ==> !ActsAt(does, k, a)
  }

  lemma StillStep(run: nat -> Sys, does: nat -> Option<Label>, j: nat, w: nat)
    requires Path(run, does) && !ActsAt(does, j, Worker(w))
    requires w < |run(j).db.workers| && !run(j).db.workers[w].Asleep?
    ensures w < |run(j + 1).db.workers| && run(j + 1).db.workers[w] == run(j).db.workers[w]
  {
    assert MovesAt(run, does, j);
    if does(j).Some? {
      StillWorker(run(j), does(j).value, w);
    }
  }

  lemma {:induction false} Unmoved(run: nat -> Sys, does: nat -> Option<Label>, i: nat, j: nat, w: nat)
    requires Path(run, does) && i <= j && Still(does, i, j, Worker(w))
    requires w < |run(i).db.workers| && !run(i).db.workers[w].Asleep?
    ensures w < |run(j).db.workers| && run(j).db.workers[w] == run(i).db.workers[w]
    decreases j - i
  {
    if i < j {
      Unmoved(run, does, i, j - 1, w);
      StillStep(run, does, j - 1, w);
    }
  }

  lemma StillNotifies(run: nat -> Sys, does: nat -> Option<Label>, j: nat, c: nat)
    requires Path(run, does) && !ActsAt(does, j, Outside(c)) && NotifiesDb(run(j), c)
    ensures NotifiesDb(run(j + 1), c)
  {
    assert MovesAt(run, does, j);
    if does(j).Some? {
      StillCaller(run(j), does(j).value, c);
    }
  }

  lemma {:induction false} NotifiesOn(run: nat -> Sys, does: nat -> Option<Label>, i: nat, j: nat, c: nat)
    requires Path(run, does) && i <= j && Still(does, i, j, Outside(c)) && NotifiesDb(run(i), c)
    ensures NotifiesDb(run(j), c)
    decreases j - i
  {
    if i < j {
      NotifiesOn(run, does, i, j - 1, c);
      StillNotifies(run, does, j - 1, c);
    }
  }

  lemma {:induction false} First(does: nat -> Option<Label>, i: nat, j: nat, a: Actor) returns (k: nat)
    requires i <= j && ActsAt(does, j, a)
    ensures i <= k <= j && ActsAt(does, k, a) && Still(does, i, k, a)
    decreases j - i
  {
    if ActsAt(does, i, a) {
      k := i;
    } else {
      k := First(does, i + 1, j, a);
    }
  }

  // As it stands at i, the worker can act at every later moment.
  ghost predicate AbleAs(run: nat -> Sys, i: nat, w: nat)
    requires w < |run(i).db.workers|
  {
    forall j: nat :: j >= i && w < |run(j).db.workers| && run(j).db.workers[w] == run(i).db.workers[w] ==>
      CanAct(run(j), Worker(w))
  }

  // Then it does act, from where it stood.
  lemma ActsFrom(run: nat -> Sys, does: nat -> Option<Label>, i: nat, w: nat) returns (k: nat)
    requires Path(run, does) && Fair(run, does)
    requires w < |run(i).db.workers| && !run(i).db.workers[w].Asleep? && AbleAs(run, i, w)
    ensures k >= i && ActsAt(does, k, Worker(w))
    ensures w < |run(k).db.workers| && run(k).db.workers[w] == run(i).db.workers[w]
  {
    if j: nat :| j >= i && ActsAt(does, j, Worker(w)) {
      k := First(does, i, j, Worker(w));
      Unmoved(run, does, i, k, w);
    } else {
      forall j: nat | j >= i ensures CanAct(run(j), Worker(w)) {
        Unmoved(run, does, i, j, w);
      }
      assert AlwaysCan(run, i, Worker(w));
      k := i;
      assert false;
    }
  }

  // A flat run that still has work to do at i.
  ghost predicate Idles(run: nat -> Sys, does: nat -> Option<Label>, i: nat) {
    Path(run, does) && Fair(run, does) && Flat(does, i) && Inv(run(i)) && !run(i).db.done
  }

  lemma IdlesOn(run: nat -> Sys, does: nat -> Option<Label>, i: nat, j: nat)
    requires Idles(run, does, i) && i <= j
    ensures Idles(run, does, j) && SameCore(run(i), run(j))
  {
    Kept(run, does, i, j);
    FlatCore(run, does, i, j);
  }

  // No running worker is able to go on: its next step would get something done.
  lemma RunnerMoves(run: nat -> Sys, does: nat -> Option<Label>, i: nat, l: Label, w: nat)
    requires Idles(run, does, i) && Runs(run(i).db, w) && Acts(l, Worker(w))
    ensures !Enabled(run(i), l)
  {
    if Enabled(run(i), l) {
      forall j: nat | j >= i ensures CanAct(run(j), Worker(w)) {
        IdlesOn(run, does, i, j);
        StillEnabled(run(i), run(j), l, w);
      }
      var k := ActsFrom(run, does, i, w);
      assert MovesAt(run, does, k);
      RunnersQuiet(run(k), does(k).value, w);
    }
  }

  lemma StillEnabled(s: Sys, t: Sys, l: Label, w: nat)
    requires SameCore(s, t) && Runs(s.db, w) && Acts(l, Worker(w)) && Enabled(s, l)
    ensures Enabled(t, l)
  {
  }

  lemma RunnersQuiet(s: Sys, l: Label, w: nat)
    requires Runs(s.db, w) && Acts(l, Worker(w)) && Enabled(s, l)
    ensures Gains(l)
  {
  }

  lemma OwnerAble(run: nat -> Sys, does: nat -> Option<Label>, i: nat, w: nat)
    requires Idles(run, does, i) && run(i).db.owner == Some(w) && run(i).db.tasks != []
    ensures w < |run(i).db.workers| && TP.Critical(run(i).db.workers[w]) && AbleAs(run, i, w)
  {
    assert TP.Critical(run(i).db.workers[w]);
    forall j: nat | j >= i && w < |run(j).db.workers| && run(j).db.workers[w] == run(i).db.workers[w]
      ensures CanAct(run(j), Worker(w))
    {
      IdlesOn(run, does, i, j);
      OwnerCan(run(j), w);
    }
  }

  lemma OwnerActs(run: nat -> Sys, does: nat -> Option<Label>, k: nat, w: nat)
    requires Idles(run, does, k) && run(k).db.tasks != [] && ActsAt(does, k, Worker(w))
    requires w < |run(k).db.workers| && TP.Critical(run(k).db.workers[w])
    ensures run(k + 1).db.owner == Some(w) && w < |run(k + 1).db.workers|
    ensures IdleRank(run(k + 1).db.workers[w]) < IdleRank(run(k).db.workers[w])
  {
    assert MovesAt(run, does, k);
    OwnerStep(run(k), does(k).value, w);
  }

  // A worker that can act moves on from where it stands, with the same tasks queued.
  lemma MovesOn(run: nat -> Sys, does: nat -> Option<Label>, i: nat, w: nat) returns (k: nat)
    requires Idles(run, does, i) && w < |run(i).db.workers| && !run(i).db.workers[w].Asleep? && AbleAs(run, i, w)
    ensures k >= i && ActsAt(does, k, Worker(w)) && Idles(run, does, k) && SameCore(run(i), run(k))
    ensures w < |run(k).db.workers| && run(k).db.workers[w] == run(i).db.workers[w]
  {
    k := ActsFrom(run, does, i, w);
    IdlesOn(run, does, i, k);
  }

  lemma OwnerMoves(run: nat -> Sys, does: nat -> Option<Label>, i: nat, w: nat) returns (k: nat)
    requires Idles(run, does, i) && run(i).db.owner == Some(w) && run(i).db.tasks != []
    ensures k >= i && ActsAt(does, k, Worker(w)) && Idles(run, does, k) && SameCore(run(i), run(k))
    ensures w < |run(k).db.workers| && TP.Critical(run(k).db.workers[w])
    ensures w < |run(i).db.workers| && run(k).db.workers[w] == run(i).db.workers[w]
  {
    OwnerAble(run, does, i, w);
    k := MovesOn(run, does, i, w);
  }

  lemma OwnerNext(run: nat -> Sys, does: nat -> Option<Label>, i: nat, w: nat) returns (n: nat)
    requires Idles(run, does, i) && run(i).db.owner == Some(w) && run(i).db.tasks != []
    ensures Idles(run, does, n) && run(n).db.owner == Some(w) && run(n).db.tasks != []
    ensures w < |run(i).db.workers| && w < |run(n).db.workers|
    ensures IdleRank(run(n).db.workers[w]) < IdleRank(run(i).db.workers[w])
  {
    var k := OwnerMoves(run, does, i, w);
    OwnerActs(run, does, k, w);
    n := k + 1;
    IdlesOn(run, does, k, n);
  }

  // The holder of the mutex would go on until it pulls a task.
  lemma OwnerPulls(run: nat -> Sys, does: nat -> Option<Label>, i: nat, w: nat, rank: nat)
    requires Idles(run, does, i) && run(i).db.owner == Some(w)
    requires w < |run(i).db.workers| && rank == IdleRank(run(i).db.workers[w])
    ensures run(i).db.tasks == []
    decreases rank
  {
    if run(i).db.tasks != [] {
      var n := OwnerNext(run, does, i, w);
      OwnerPulls(run, does, n, w, IdleRank(run(n).db.workers[w]));
    }
  }

  lemma OwnerCan(s: Sys, w: nat)
    requires Inv(s) && s.db.tasks != [] && w < |s.db.workers| && TP.Critical(s.db.workers[w])
    ensures CanAct(s, Worker(w))
  {
    var l := if s.db.workers[w].Testing? then Local(Db, TP.Test(w))
             else if s.db.workers[w].Passed? then Local(Db, TP.Recheck(w))
             else Local(Db, TP.Pull(w));
    assert Acts(l, Worker(w)) && Enabled(s, l);
  }

  lemma OwnerStep(s: Sys, l: Label, w: nat)
    requires Inv(s) && s.db.tasks != [] && !s.db.done && w < |s.db.workers| && TP.Critical(s.db.workers[w])
    requires Acts(l, Worker(w)) && Enabled(s, l) && !Gains(l)
    ensures Next(s, l).db.owner == Some(w) && w < |Next(s, l).db.workers|
    ensures IdleRank(Next(s, l).db.workers[w]) < IdleRank(s.db.workers[w])
  {
  }

  predicate Comes(pc: TP.Worker<Job>) {
    pc.Loop? || pc.Locking?
  }

  ghost predicate NeverOwned(run: nat -> Sys, i: nat) {
    forall j: nat :: j >= i ==> run(j).db.owner.None?
  }

  lemma ComerMoves(run: nat -> Sys, does: nat -> Option<Label>, i: nat, w: nat) returns (k: nat)
    requires Idles(run, does, i) && NeverOwned(run, i) && w < |run(i).db.workers| && Comes(run(i).db.workers[w])
    ensures k >= i && ActsAt(does, k, Worker(w)) && Idles(run, does, k) && SameCore(run(i), run(k))
    ensures w < |run(k).db.workers| && run(k).db.workers[w] == run(i).db.workers[w]
  {
    forall j: nat | j >= i && w < |run(j).db.workers| && run(j).db.workers[w] == run(i).db.workers[w]
      ensures CanAct(run(j), Worker(w))
    {
      ComerCan(run(j), w);
    }
    k := MovesOn(run, does, i, w);
  }

  lemma ComerNext(run: nat -> Sys, does: nat -> Option<Label>, i: nat, w: nat) returns (n: nat)
    requires Idles(run, does, i) && NeverOwned(run, i) && w < |run(i).db.workers| && Comes(run(i).db.workers[w])
    ensures n >= i && Idles(run, does, n) && (run(i).db.tasks != [] ==> run(n).db.tasks != [])
    ensures w < |run(n).db.workers| && Comes(run(n).db.workers[w])
    ensures IdleRank(run(n).db.workers[w]) < IdleRank(run(i).db.workers[w])
  {
    var k := ComerMoves(run, does, i, w);
    ComerActs(run, does, k, w);
    n := k + 1;
    IdlesOn(run, does, k, n);
    assert run(n).db.owner.None?;
  }

  lemma ComerActs(run: nat -> Sys, does: nat -> Option<Label>, k: nat, w: nat)
    requires Idles(run, does, k) && ActsAt(does, k, Worker(w))
    requires w < |run(k).db.workers| && Comes(run(k).db.workers[w])
    ensures w < |run(k + 1).db.workers|
    ensures run(k + 1).db.owner == Some(w) ||
      (run(k + 1).db.workers[w].Locking? && run(k).db.workers[w].Loop?)
  {
    assert MovesAt(run, does, k);
    ComerStep(run(k), does(k).value, w);
  }

  lemma OwnedPulls(run: nat -> Sys, does: nat -> Option<Label>, i: nat, j: nat)
    requires Idles(run, does, i) && i <= j && run(j).db.owner.Some?
    ensures run(i).db.tasks == []
  {
    IdlesOn(run, does, i, j);
    var w := run(j).db.owner.value;
    OwnerPulls(run, does, j, w, IdleRank(run(j).db.workers[w]));
  }

  // A worker on its way to the mutex would get it, or somebody else before it.
  lemma ComerPulls(run: nat -> Sys, does: nat -> Option<Label>, i: nat, w: nat, rank: nat)
    requires Idles(run, does, i)
    requires w < |run(i).db.workers| && Comes(run(i).db.workers[w]) && rank == IdleRank(run(i).db.workers[w])
    ensures run(i).db.tasks == []
    decreases rank
  {
    if j: nat :| j >= i && run(j).db.owner.Some? {
      OwnedPulls(run, does, i, j);
    } else {
      assert NeverOwned(run, i);
      var n := ComerNext(run, does, i, w);
      ComerPulls(run, does, n, w, IdleRank(run(n).db.workers[w]));
    }
  }

  lemma ComerCan(s: Sys, w: nat)
    requires s.db.owner.None? && w < |s.db.workers| && Comes(s.db.workers[w])
    ensures CanAct(s, Worker(w))
  {
    var l := if s.db.workers[w].Loop? then Local(Db, TP.CheckDone(w)) else Local(Db, TP.Acquire(w));
    assert Acts(l, Worker(w)) && Enabled(s, l);
  }

  lemma ComerStep(s: Sys, l: Label, w: nat)
    requires !s.db.done && w < |s.db.workers| && Comes(s.db.workers[w]) && Acts(l, Worker(w)) && Enabled(s, l)
    ensures w < |Next(s, l).db.workers|
    ensures Next(s, l).db.owner == Some(w) ||
      (Next(s, l).db.workers[w].Locking? && s.db.workers[w].Loop?)
  {
  }

  lemma NotifierCan(s: Sys, c: nat)
    requires Inv(s) && NotifiesDb(s, c)
    ensures CanAct(s, Outside(c))
  {
    SumAt(CallN, s.callers, c);
    SumAt(WaitN, s.callers, c);
    var woken := Notifiable(s.db);
    var l := Talk(c, if s.callers[c].Notifying? then CallNotify(woken) else WaiterNotify(woken));
    assert Acts(l, Outside(c)) && Enabled(s, l);
  }

  // A caller between its push and its notification gets there.
  lemma CallerNotifies(run: nat -> Sys, does: nat -> Option<Label>, i: nat, c: nat) returns (k: nat)
    requires Path(run, does) && Fair(run, does) && Inv(run(i)) && NotifiesDb(run(i), c)
    ensures k >= i && ActsAt(does, k, Outside(c)) && NotifiesDb(run(k), c)
  {
    if j: nat :| j >= i && ActsAt(does, j, Outside(c)) {
      k := First(does, i, j, Outside(c));
      NotifiesOn(run, does, i, k, c);
    } else {
      forall j: nat | j >= i ensures CanAct(run(j), Outside(c)) {
        NotifiesOn(run, does, i, j, c);
        Kept(run, does, i, j);
        NotifierCan(run(j), c);
      }
      assert AlwaysCan(run, i, Outside(c));
      k := i;
      assert false;
    }
  }

  lemma SomeNotifier(s: Sys) returns (c: nat)
    requires CallerInv(s) && s.db.notifiers > 0
    ensures NotifiesDb(s, c)
  {
    if Sum(CallN, s.callers) > 0 {
      c := SumWitness(CallN, s.callers);
    } else {
      c := SumWitness(WaitN, s.callers);
    }
  }

  // The notification finds nobody asleep, or wakes somebody.
  lemma NotificationWakes(s: Sys, l: Label, c: nat) returns (w: nat)
    requires NotifiesDb(s, c) && Acts(l, Outside(c)) && Enabled(s, l) && |s.db.workers| >= 1
    ensures w < |s.db.workers| == |Next(s, l).db.workers|
    ensures !s.db.workers[w].Asleep? || !Next(s, l).db.workers[w].Asleep?
  {
    w := if l.say.woken.Some? then l.say.woken.value else 0;
  }

  // Somebody awake who runs nothing would hold the mutex or come for it, and pull.
  lemma AwakePulls(run: nat -> Sys, does: nat -> Option<Label>, i: nat, w: nat)
    requires Idles(run, does, i) && (forall v: nat :: !Runs(run(i).db, v))
    requires w < |run(i).db.workers| && !run(i).db.workers[w].Asleep?
    ensures run(i).db.tasks == []
  {
    var s := run(i);
    if s.db.owner.Some? {
      OwnedPulls(run, does, i, i);
    } else {
      assert !TP.Critical(s.db.workers[w]) && !Runs(s.db, w);
      ComerPulls(run, does, i, w, IdleRank(s.db.workers[w]));
    }
  }

  // All asleep with tasks queued: no wake-up is lost, so somebody is about to notify.
  lemma SleepersAreCovered(s: Sys) returns (c: nat)
    requires Inv(s) && !s.db.done && s.db.tasks != [] && |s.db.workers| >= 1
    requires forall w :: 0 <= w < |s.db.workers| ==> s.db.workers[w].Asleep?
    ensures NotifiesDb(s, c)
  {
    assert s.db.workers[0].Asleep?;
    SumZero(TP.Heading, s.db.workers);
    c := SomeNotifier(s);
  }

  lemma SomebodyWakes(run: nat -> Sys, does: nat -> Option<Label>, i: nat, c: nat) returns (j: nat, w: nat)
    requires Idles(run, does, i) && |run(i).db.workers| >= 1 && NotifiesDb(run(i), c)
    ensures j >= i && w < |run(j).db.workers| && !run(j).db.workers[w].Asleep?
  {
    var k := CallerNotifies(run, does, i, c);
    Kept(run, does, i, k);
    assert MovesAt(run, does, k);
    w := NotificationWakes(run(k), does(k).value, c);
    j := if run(k).db.workers[w].Asleep? then k + 1 else k;
  }

  lemma SleepersWake(run: nat -> Sys, does: nat -> Option<Label>, i: nat, c: nat)
    requires Idles(run, does, i) && |run(i).db.workers| >= 1 && NotifiesDb(run(i), c)
    requires forall w: nat :: !Runs(run(i).db, w)
    ensures run(i).db.tasks == []
  {
    var j, w := SomebodyWakes(run, does, i, c);
    IdlesOn(run, does, i, j);
    AwakePulls(run, does, j, w);
  }

  lemma NothingQueued(run: nat -> Sys, does: nat -> Option<Label>, i: nat)
    requires Idles(run, does, i) && |run(i).db.workers| >= 1 && forall w: nat :: !Runs(run(i).db, w)
    ensures run(i).db.tasks == []
  {
    var s := run(i);
    if w: nat :| w < |s.db.workers| && !s.db.workers[w].Asleep? {
      AwakePulls(run, does, i, w);
    } else if s.db.tasks != [] {
      var c := SleepersAreCovered(s);
      SleepersWake(run, does, i, c);
    }
  }

  // A flat run has nothing left to do.
  lemma FlatIsOver(run: nat -> Sys, does: nat -> Option<Label>, i: nat, id: nat)
    requires Idles(run, does, i) && |run(i).db.workers| >= 1 && id < |run(i).texts|
    ensures Live(run(i)) == 0 || id in run(i).promises
  {
    var s := run(i);
    if Live(s) == 0 || id in s.promises {
    } else if w: nat :| RunsCommand(s, w) {
      var v, act := CommandMoves(s, w);
      RunnerMoves(run, does, i, Work(v, act), v);
    } else if w: nat :| Runs(s.db, w) {
      WaiterIsReady(s, w);
      RunnerMoves(run, does, i, WaitOver(Db, w), w);
    } else {
      NothingQueued(run, does, i);
      assert NoCommandRuns(s);
      NotQueuedIsReady(s, id);
    }
  }

  // Good to go on from: Inv, not being destroyed, with a worker, id submitted.
  ghost predicate Serving(s: Sys, id: nat) {
    Inv(s) && !s.db.done && |s.db.workers| >= 1 && id < |s.texts|
  }

  ghost predicate NoMore(s: Sys, t: Sys) {
    Inv(t) && AtMost(t, s) && t.texts == s.texts
  }

  lemma NoMoreStep(s: Sys, t: Sys, l: Label)
    requires NoMore(s, t) && Enabled(t, l) && Ordinary(l)
    ensures NoMore(s, Next(t, l))
  {
    InvStep(t, l);
    StepTodo(t, l);
    OrdinaryFrame(t, l);
  }

  lemma TodoStep(run: nat -> Sys, does: nat -> Option<Label>, i: nat, j: nat)
    requires Path(run, does) && Closed(does) && NoMore(run(i), run(j))
    ensures NoMore(run(i), run(j + 1))
  {
    assert MovesAt(run, does, j);
    if does(j).Some? {
      NoMoreStep(run(i), run(j), does(j).value);
    }
  }

  lemma {:induction false} TodoKept(run: nat -> Sys, does: nat -> Option<Label>, i: nat, j: nat)
    requires Path(run, does) && Closed(does) && Inv(run(i)) && i <= j
    ensures NoMore(run(i), run(j))
    decreases j - i
  {
    if i < j {
      TodoKept(run, does, i, j - 1);
      TodoStep(run, does, i, j - 1);
    }
  }

  lemma GainAt(run: nat -> Sys, does: nat -> Option<Label>, i: nat, j: nat, id: nat)
    requires Path(run, does) && Closed(does) && Serving(run(i), id)
    requires i <= j && does(j).Some? && Gains(does(j).value)
    ensures Serving(run(j + 1), id) && Less(run(j + 1), run(i)) && run(j + 1).texts == run(i).texts
  {
    Kept(run, does, i, j);
    KeptStep(run, does, i, j);
    TodoKept(run, does, i, j);
    TodoStep(run, does, i, j);
    assert MovesAt(run, does, j);
    StepTodo(run(j), does(j).value);
    LessTrans(run(j + 1), run(j), run(i));
  }

  lemma LessTrans(s: Sys, t: Sys, u: Sys)
    requires Less(s, t) && AtMost(t, u)
    ensures Less(s, u)
  {
  }

  // Settled: no connection is left, or the command has been answered.
  predicate Settled(s: Sys, id: nat) {
    Live(s) == 0 || id in s.promises
  }

  lemma Onward(run: nat -> Sys, does: nat -> Option<Label>, i: nat, id: nat) returns (n: nat)
    requires Path(run, does) && Fair(run, does) && Closed(does) && Serving(run(i), id) && !Settled(run(i), id)
    ensures Serving(run(n), id) && Less(run(n), run(i)) && run(n).texts == run(i).texts
  {
    if Flat(does, i) {
      FlatIsOver(run, does, i, id);
      n := i;
    } else {
      var j: nat :| j >= i && does(j).Some? && Gains(does(j).value);
      GainAt(run, does, i, j, id);
      n := j + 1;
    }
  }

  lemma ResolvesFrom(run: nat -> Sys, does: nat -> Option<Label>, i: nat, id: nat, live: nat, todo: nat)
      returns (n: nat)
    requires Path(run, does) && Fair(run, does) && Closed(does) && Serving(run(i), id)
    requires live == Live(run(i)) && todo == Todo(run(i))
    ensures Serving(run(n), id) && run(n).texts == run(i).texts && Settled(run(n), id)
    decreases live, todo
  {
    if Settled(run(i), id) {
      n := i;
    } else {
      var m := Onward(run, does, i, id);
      n := ResolvesFrom(run, does, m, id, Live(run(m)), Todo(run(m)));
    }
  }

  // In every run without new commands and with weakly fair workers and callers, whatever spins, wakes up for
  // nothing or reads futures in between, each submitted command is answered with its
  // own answer, unless all connections are lost first.
  lemma EveryFutureResolves(run: nat -> Sys, does: nat -> Option<Label>, id: nat)
    requires Reachable(run(0)) && !run(0).db.done && |run(0).db.workers| >= 1
    requires Path(run, does) && Fair(run, does) && Closed(does) && id < |run(0).texts|
    ensures exists n: nat :: Live(run(n)) == 0 ||
              (id in run(n).promises && run(n).promises[id].text == run(0).texts[id])
  {
    ReachableInv(run(0));
    var n := ResolvesFrom(run, does, 0, id, Live(run(0)), Todo(run(0)));
    assert Live(run(n)) == 0 || (id in run(n).promises && run(n).promises[id].text == run(0).texts[id]);
  }
}
