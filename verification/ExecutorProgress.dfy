// No deadlock: while a connection is left and nobody shuts the pool down, some step
// other than spinning is enabled until all work is done, and every such step lowers
// a lexicographic measure. This covers waiting tasks that share the database pool.

module ExecutorProgress {
  import opened Sums
  import opened Executor
  import opened ExecutorSafety
  import TP = ThreadPool

  // Steps that are neither new work, nor idle spinning, nor a spurious wake-up, nor
  // destruction.
  predicate Productive(l: Label) {
    match l
    case Local(_, k) => !k.Spurious?
    case Spin(_) => false
    case Work(_, _) => true
    case WaitOver(_, _) => true
    case Talk(_, say) => !say.Call? && !say.Get?
    case Tear(_) => false
  }

  function Live(s: Sys): nat {
    |s.conns| + Sum(HoldsAny, s.db.workers)
  }

  function QueueWeight(e: TP.Entry<Job>): nat {
    if e.job.Command? then 7 else 2
  }

  function JobWeight(pc: TP.Worker<Job>): nat {
    if !pc.Running? then 0
    else if pc.job.Wait? then 1
    else match pc.job.stage
         case Polling => 6
         case Checking(_) => 5
         case Resetting(_) => 4
         case Holding(_) => 3
         case Returning(_) => 2
  }

  function CallerWeight(c: Caller): nat {
    match c
    case Idle => 0
    case Notifying(owe) => if owe.Some? then 5 else 1
    case Owing(_) => 4
    case NotifyingWaiter => 1
    case Awaiting(_) => 1
  }

  function IdleRank(pc: TP.Worker<Job>): nat {
    match pc
    case Loop => 5
    case Locking => 4
    case Testing => 3
    case Passed => 2
    case Pulling => 1
    case Parking => 1
    case _ => 0
  }

  function PoolWork(p: TP.Pool<Job>): nat {
    Sum(QueueWeight, p.tasks) + Sum(JobWeight, p.workers)
  }

  datatype Measure = Measure(live: nat, work: nat, idle: nat)

  function MeasureOf(s: Sys): Measure {
    Measure(Live(s),
            PoolWork(s.db) + PoolWork(s.helper) + Sum(CallerWeight, s.callers),
            Sum(IdleRank, s.db.workers) + Sum(IdleRank, s.helper.workers))
  }

  predicate Below(a: Measure, b: Measure) {
    a.live < b.live || (a.live == b.live && (a.work < b.work || (a.work == b.work && a.idle < b.idle)))
  }

  // ---- Every productive step descends ----

  lemma LocalDescends(p: TP.Pool<Job>, k: TP.Label<Job>)
    requires Internal(k) && !k.Spurious? && TP.Enabled(p, k)
    requires forall i | 0 <= i < |p.tasks| :: Fresh(p.tasks[i].job)
    ensures var q := TP.Next(p, k);
      && Sum(HoldsAny, q.workers) == Sum(HoldsAny, p.workers)
      && PoolWork(q) <= PoolWork(p)
      && (PoolWork(q) < PoolWork(p) || Sum(IdleRank, q.workers) < Sum(IdleRank, p.workers))
  {
    InternalMove(p, k, HoldsAny);
    InternalMove(p, k, JobWeight);
    InternalMove(p, k, IdleRank);
  }

  lemma WorkDescends(s: Sys, w: nat, act: Act)
    requires CanWork(s, w, act)
    ensures Below(MeasureOf(Worked(s, w, act)), MeasureOf(s))
  {
    var pc := Worked(s, w, act).db.workers[w];
    SumUpdate(HoldsAny, s.db.workers, w, pc);
    SumUpdate(JobWeight, s.db.workers, w, pc);
  }

  lemma WaitOverDescends(s: Sys, where: Which, w: nat)
    requires CanStopWaiting(s, where, w)
    ensures Below(MeasureOf(WithPool(s, where, TP.At(PoolAt(s, where), w, TP.Loop))), MeasureOf(s))
  {
    SumUpdate(HoldsAny, PoolAt(s, where).workers, w, TP.Loop);
    SumUpdate(JobWeight, PoolAt(s, where).workers, w, TP.Loop);
  }

  lemma NotifiedWork(p: TP.Pool<Job>, woken: Option<nat>)
    requires TP.CanNotify(p, woken)
    ensures PoolWork(TP.Notified(p, woken)) == PoolWork(p)
    ensures Sum(HoldsAny, TP.Notified(p, woken).workers) == Sum(HoldsAny, p.workers)
  {
    if woken.Some? {
      SumUpdate(JobWeight, p.workers, woken.value, TP.Locking);
      SumUpdate(HoldsAny, p.workers, woken.value, TP.Locking);
    }
  }

  lemma PushedWork(p: TP.Pool<Job>, id: nat)
    ensures PoolWork(TP.Pushed(p, false, Wait(id))) == PoolWork(p) + 2
  {
    var e := TP.Entry(p.pushed, false, Wait(id));
    SumAppend(QueueWeight, p.tasks, [e]);
    assert Sum(QueueWeight, [e]) == 2;
  }

  lemma TalkDescends(s: Sys, c: nat, say: Say)
    requires CanSay(s, c, say) && !say.Call? && !say.Get?
    ensures Below(MeasureOf(Said(s, c, say)), MeasureOf(s))
  {
    SumUpdate(CallerWeight, s.callers, c, Said(s, c, say).callers[c]);
    match say {
      case CallNotify(woken) => NotifiedWork(s.db, woken);
      case PushWaiter => PushedWork(PoolAt(s, WaitPool(s)), s.callers[c].id);
      case WaiterNotify(woken) => NotifiedWork(PoolAt(s, WaitPool(s)), woken);
      case _ =>
    }
  }

  lemma Descends(s: Sys, l: Label)
    requires Inv(s) && Productive(l) && Enabled(s, l)
    ensures Below(MeasureOf(Next(s, l)), MeasureOf(s))
  {
    match l {
      case Local(where, k) => LocalDescends(PoolAt(s, where), k);
      case Work(w, act) => WorkDescends(s, w, act);
      case WaitOver(where, w) => WaitOverDescends(s, where, w);
      case Talk(c, say) => TalkDescends(s, c, say);
      case _ =>
    }
  }

  // ---- Some productive step is enabled ----

  // All queues empty, all workers asleep, no caller inside a call.
  ghost predicate Quiescent(s: Sys) {
    && s.db.tasks == [] && s.helper.tasks == []
    && (forall i :: 0 <= i < |s.db.workers| ==> s.db.workers[i].Asleep?)
    && (forall i :: 0 <= i < |s.helper.workers| ==> s.helper.workers[i].Asleep?)
    && (forall c :: 0 <= c < |s.callers| ==> s.callers[c].Idle?)
  }

  ghost predicate Staffed(s: Sys) {
    |s.db.workers| >= 1 && (!s.shared ==> |s.helper.workers| >= 1)
  }

  predicate Stirring(pc: TP.Worker<Job>) {
    !pc.Asleep? && !pc.Running? && !pc.Exited?
  }

  // A worker on its way through worker_thread, or the one that holds the mutex, can move.
  lemma PoolMoves(p: TP.Pool<Job>, w: nat) returns (k: TP.Label<Job>)
    requires TP.MutexInv(p) && w < |p.workers| && Stirring(p.workers[w])
    ensures Internal(k) && !k.Spurious? && TP.Enabled(p, k)
  {
    var v := if p.owner.Some? then p.owner.value else w;
    assert p.owner.Some? ==> TP.Critical(p.workers[v]);
    assert p.owner.None? ==> !TP.Critical(p.workers[v]);
    k := match p.workers[v]
         case Loop => TP.CheckDone(v)
         case Locking => TP.Acquire(v)
         case Testing => TP.Test(v)
         case Parking => TP.Park(v)
         case Passed => TP.Recheck(v)
         case _ => TP.Pull(v);
  }

  lemma OwnerStirs(p: TP.Pool<Job>, w: nat)
    requires TP.MutexInv(p) && p.owner == Some(w)
    ensures w < |p.workers| && Stirring(p.workers[w])
  {
    assert TP.Critical(p.workers[w]);
  }

  lemma MutexFree(p: TP.Pool<Job>)
    requires TP.MutexInv(p) && forall w: nat :: w < |p.workers| ==> !Stirring(p.workers[w])
    ensures p.owner.None?
  {
    if p.owner.Some? {
      OwnerStirs(p, p.owner.value);
    }
  }

  lemma Notifiable(p: TP.Pool<Job>) returns (woken: Option<nat>)
    requires p.notifiers > 0
    ensures TP.CanNotify(p, woken)
  {
    if w: nat :| w < |p.workers| && p.workers[w].Asleep? {
      woken := Some(w);
    } else {
      woken := None;
    }
  }

  // A caller inside a call can move, unless it still waits for its future.
  lemma CallerMoves(s: Sys, c: nat) returns (say: Say)
    requires CallerInv(s) && s.db.owner.None? && s.helper.owner.None? && !s.db.done && !s.helper.done
    requires c < |s.callers| && !s.callers[c].Idle?
    requires s.callers[c].Awaiting? ==> Ready(s, s.callers[c].id)
    ensures CanSay(s, c, say) && !say.Call? && !say.Get?
  {
    SumAt(CallN, s.callers, c);
    SumAt(WaitN, s.callers, c);
    match s.callers[c] {
      case Notifying(_) =>
        var woken := Notifiable(s.db);
        say := CallNotify(woken);
      case Owing(_) => say := PushWaiter;
      case NotifyingWaiter =>
        var woken := Notifiable(PoolAt(s, WaitPool(s)));
        say := WaiterNotify(woken);
      case _ => say := Got;
    }
  }

  // A command in progress can move as long as one connection is left.
  lemma CommandMoves(s: Sys, w: nat) returns (v: nat, act: Act)
    requires RunsCommand(s, w) && Live(s) >= 1
    ensures CanWork(s, v, act) && !act.ResetBad?
  {
    v := w;
    if StageOf(s, w).Polling? && s.conns == [] {
      v := SumWitness(HoldsAny, s.db.workers);
    }
    act := match StageOf(s, v)
           case Polling => Take
           case Checking(_) => StatusOk
           case Resetting(_) => ResetOk
           case Holding(_) => Exec(0)
           case Returning(_) => GiveBack;
  }

  ghost predicate NoCommandRuns(s: Sys) {
    forall w: nat :: !RunsCommand(s, w)
  }

  // Nobody on the way, nobody about to notify, no command running.
  ghost predicate Halted(s: Sys) {
    && (forall i :: 0 <= i < |s.db.workers| ==> !Stirring(s.db.workers[i]))
    && (forall i :: 0 <= i < |s.helper.workers| ==> !Stirring(s.helper.workers[i]))
    && (forall c :: 0 <= c < |s.callers| ==> s.callers[c].Idle? || s.callers[c].Awaiting?)
    && NoCommandRuns(s)
    && (forall c :: 0 <= c < |s.callers| && s.callers[c].Awaiting? ==> !Ready(s, s.callers[c].id))
    && (forall where, w: nat :: !CanStopWaiting(s, where, w))
  }

  lemma NobodyNotifies(s: Sys)
    requires Inv(s) && Halted(s)
    ensures s.db.notifiers == 0 && s.helper.notifiers == 0
    ensures Sum(TP.Heading, s.db.workers) == 0 && Sum(TP.Heading, s.helper.workers) == 0
  {
    SumZero(CallN, s.callers);
    SumZero(WaitN, s.callers);
    SumZero(TP.Heading, s.db.workers);
    SumZero(TP.Heading, s.helper.workers);
  }

  // With no command running, a command that is not queued has been answered.
  lemma NotQueuedIsReady(s: Sys, id: nat)
    requires Inv(s) && NoCommandRuns(s) && id < |s.texts| && Sum(Queues(id), s.db.tasks) == 0
    ensures Ready(s, id)
  {
    forall i | 0 <= i < |s.db.workers| ensures RunsOpen(id)(s.db.workers[i]) == 0 && RunsSet(id)(s.db.workers[i]) == 0 {
      assert !RunsCommand(s, i);
    }
    SumZero(RunsOpen(id), s.db.workers);
    SumZero(RunsSet(id), s.db.workers);
    assert TaskPlaces(s, id) == 1;
  }

  // The heart of the matter when the waiting tasks share the database pool: they
  // cannot fill it, because each of their commands was pulled before them.
  lemma WaiterIsReady(s: Sys, w: nat)
    requires Inv(s) && NoCommandRuns(s) && Runs(s.db, w)
    ensures CanStopWaiting(s, Db, w)
  {
    assert !RunsCommand(s, w);
    var id := s.db.workers[w].job.id;
    assert forall j :: 0 <= j < |s.db.tasks| ==> !WaitsFor(s.db.workers[w].job, s.db.tasks[j].job);
    SumZero(Queues(id), s.db.tasks);
    NotQueuedIsReady(s, id);
  }

  lemma NoWaiterBlocks(s: Sys, w: nat)
    requires Inv(s) && Halted(s)
    ensures !Runs(s.db, w)
  {
    if Runs(s.db, w) {
      WaiterIsReady(s, w);
    }
  }

  lemma DbAsleep(s: Sys)
    requires Inv(s) && Halted(s) && !s.db.done && |s.db.workers| >= 1
    ensures s.db.tasks == []
    ensures forall i :: 0 <= i < |s.db.workers| ==> s.db.workers[i].Asleep?
  {
    forall i | 0 <= i < |s.db.workers| ensures s.db.workers[i].Asleep? {
      NoWaiterBlocks(s, i);
    }
    assert s.db.workers[0].Asleep?;
    NobodyNotifies(s);
  }

  lemma FirstJob(texts: seq<string>, p: TP.Pool<Job>, commands: bool, waits: bool)
    requires PoolJobs(texts, p, commands, waits) && p.tasks != []
    ensures commands || waits
  {
    assert if p.tasks[0].job.Command? then commands else waits;
  }

  lemma NoJobs(texts: seq<string>, p: TP.Pool<Job>)
    requires PoolJobs(texts, p, false, false)
    ensures p.tasks == []
  {
    if p.tasks != [] {
      FirstJob(texts, p, false, false);
    }
  }

  lemma HelperAsleep(s: Sys)
    requires Inv(s) && Halted(s) && s.db.tasks == [] && Staffed(s)
    ensures s.helper.tasks == []
    ensures forall i :: 0 <= i < |s.helper.workers| ==> s.helper.workers[i].Asleep?
  {
    forall i: nat | i < |s.helper.workers| ensures s.helper.workers[i].Asleep? {
      if Runs(s.helper, i) {
        assert !CanStopWaiting(s, Helper, i);
        NotQueuedIsReady(s, s.helper.workers[i].job.id);
      }
    }
    NobodyNotifies(s);
    if s.shared {
      NoJobs(s.texts, s.helper);
    } else {
      assert s.helper.workers[0].Asleep?;
    }
  }

  lemma HaltedIsQuiescent(s: Sys)
    requires Inv(s) && Halted(s) && !s.db.done && Staffed(s)
    ensures Quiescent(s)
  {
    DbAsleep(s);
    HelperAsleep(s);
    forall c | 0 <= c < |s.callers| ensures s.callers[c].Idle? {
      if s.callers[c].Awaiting? {
        NotQueuedIsReady(s, s.callers[c].id);
      }
    }
  }

  // From any such state that is not quiescent, a productive step, and one that loses
  // no connection.
  lemma NoDeadlock(s: Sys) returns (l: Label)
    requires Inv(s) && !s.db.done && Staffed(s) && Live(s) >= 1 && !Quiescent(s)
    ensures Productive(l) && Enabled(s, l) && !Loses(l)
  {
    l := Spin(0);
    if w: nat :| w < |s.db.workers| && Stirring(s.db.workers[w]) {
      var k := PoolMoves(s.db, w);
      l := Local(Db, k);
    } else if w: nat :| w < |s.helper.workers| && Stirring(s.helper.workers[w]) {
      var k := PoolMoves(s.helper, w);
      l := Local(Helper, k);
    } else if w: nat :| RunsCommand(s, w) {
      var v, act := CommandMoves(s, w);
      l := Work(v, act);
    } else if where, w: nat :| CanStopWaiting(s, where, w) {
      l := WaitOver(where, w);
    } else {
      MutexFree(s.db);
      MutexFree(s.helper);
      if c: nat :| c < |s.callers| && !s.callers[c].Idle? && (s.callers[c].Awaiting? ==> Ready(s, s.callers[c].id)) {
        var say := CallerMoves(s, c);
        l := Talk(c, say);
      } else {
        HaltedIsQuiescent(s);
      }
    }
  }

  // ---- What follows for whole runs ----

  lemma QuiescentResolved(s: Sys, id: nat)
    requires Inv(s) && Quiescent(s) && !s.db.done && id < |s.texts|
    ensures id in s.promises && s.promises[id].text == s.texts[id]
  {
    SumZero(RunsOpen(id), s.db.workers);
    SumZero(RunsSet(id), s.db.workers);
    assert TaskPlaces(s, id) == 1;
  }

  ghost predicate Step(s: Sys, t: Sys) {
    exists l :: Productive(l) && Enabled(s, l) && t == Next(s, l)
  }

  ghost predicate SameFrame(s: Sys, t: Sys) {
    && t.db.done == s.db.done && t.shared == s.shared && t.texts == s.texts && t.torn == s.torn
    && |t.db.workers| == |s.db.workers| && |t.helper.workers| == |s.helper.workers|
  }

  lemma TalkFrame(s: Sys, c: nat, say: Say)
    requires CanSay(s, c, say) && !say.Call?
    ensures SameFrame(s, Said(s, c, say))
  {
  }

  lemma WorkFrame(s: Sys, w: nat, act: Act)
    requires CanWork(s, w, act)
    ensures SameFrame(s, Worked(s, w, act))
  {
  }

  lemma ProductiveFrame(s: Sys, l: Label)
    requires Productive(l) && Enabled(s, l)
    ensures SameFrame(s, Next(s, l))
  {
    match l {
      case Local(where, k) =>
      case Work(w, act) => WorkFrame(s, w, act);
      case WaitOver(_, _) =>
      case Talk(c, say) => TalkFrame(s, c, say);
      case _ =>
    }
  }

  lemma StepKeeps(s: Sys, t: Sys)
    requires Inv(s) && Step(s, t)
    ensures Inv(t) && Below(MeasureOf(t), MeasureOf(s))
    ensures SameFrame(s, t)
  {
    var l :| Productive(l) && Enabled(s, l) && t == Next(s, l);
    InvStep(s, l);
    Descends(s, l);
    ProductiveFrame(s, l);
  }

  ghost predicate NoStep(s: Sys) {
    forall t :: !Step(s, t)
  }

  // A schedule that never idles while a productive step is enabled.
  ghost predicate Busy(run: nat -> Sys) {
    forall i: nat :: Step(run(i), run(i + 1)) || NoStep(run(i))
  }

  lemma {:induction false} BusyEnds(run: nat -> Sys, i: nat) returns (n: nat)
    requires Busy(run) && Inv(run(i)) && !run(i).db.done && Staffed(run(i))
    ensures Inv(run(n)) && !run(n).db.done && run(n).texts == run(i).texts
    ensures Quiescent(run(n)) || Live(run(n)) == 0
    decreases MeasureOf(run(i)).live, MeasureOf(run(i)).work, MeasureOf(run(i)).idle
  {
    if Quiescent(run(i)) || Live(run(i)) == 0 {
      n := i;
    } else {
      var l := NoDeadlock(run(i));
      assert Step(run(i), Next(run(i), l));
      StepKeeps(run(i), run(i + 1));
      n := BusyEnds(run, i + 1);
    }
  }

  // Whatever productive steps such a schedule picks, it ends with all work done and
  // every submitted command's future holding the answer to its own command, unless all
  // connections are lost first.
  lemma BusyRunSettles(run: nat -> Sys)
    requires Reachable(run(0)) && !run(0).db.done && Staffed(run(0)) && Busy(run)
    ensures exists n: nat :: Live(run(n)) == 0 ||
              (Quiescent(run(n)) && forall id: nat :: id < |run(0).texts| ==>
                 id in run(n).promises && run(n).promises[id].text == run(0).texts[id])
  {
    ReachableInv(run(0));
    var n := BusyEnds(run, 0);
    if Live(run(n)) > 0 {
      forall id: nat | id < |run(0).texts|
        ensures id in run(n).promises && run(n).promises[id].text == run(0).texts[id]
      {
        QuiescentResolved(run(n), id);
      }
    }
  }

  // ---- Without a connection ----

  // Steps other than new work and destruction, spinning and spurious wake-ups included.
  predicate Ordinary(l: Label) {
    !l.Tear? && !(l.Talk? && l.say.Call?)
  }

  lemma TalkLost(s: Sys, c: nat, say: Say)
    requires CanSay(s, c, say)
    ensures Said(s, c, say).lost == s.lost && Said(s, c, say).finished == s.finished
    ensures Said(s, c, say).promises == s.promises
  {
  }

  lemma WorkLost(s: Sys, w: nat, act: Act)
    requires CanWork(s, w, act)
    ensures |Worked(s, w, act).lost| == |s.lost| + (if act.ResetBad? then 1 else 0)
    ensures Worked(s, w, act).finished == s.finished
  {
  }

  predicate Loses(l: Label) {
    l.Work? && l.act.ResetBad?
  }

  lemma LiveStep(s: Sys, l: Label)
    requires Inv(s) && Enabled(s, l) && Ordinary(l)
    ensures Live(Next(s, l)) + (if Loses(l) then 1 else 0) == Live(s)
  {
    TotalStep(s, l);
    match l {
      case Local(_, _) =>
      case Spin(_) =>
      case Work(w, act) => WorkLost(s, w, act);
      case WaitOver(_, _) =>
      case Talk(c, say) => TalkLost(s, c, say);
      case Tear(_) =>
    }
  }

  lemma NoAnswer(s: Sys, l: Label)
    requires Enabled(s, l) && Ordinary(l) && Live(s) == 0
    ensures Next(s, l).promises == s.promises
  {
    match l {
      case Local(_, _) =>
      case Spin(_) =>
      case Work(w, _) => SumAt(HoldsAny, s.db.workers, w);
      case WaitOver(_, _) =>
      case Talk(c, say) => TalkLost(s, c, say);
      case Tear(_) =>
    }
  }

  ghost predicate OrdinaryRun(s: Sys, ls: seq<Label>, t: Sys) {
    Run(s, ls, t) && forall i :: 0 <= i < |ls| ==> Ordinary(ls[i])
  }

  lemma {:induction false} NothingResolves(s: Sys, ls: seq<Label>, t: Sys)
    requires Inv(s) && OrdinaryRun(s, ls, t) && Live(s) == 0
    ensures t.promises == s.promises
    decreases |ls|
  {
    if ls != [] {
      assert Ordinary(ls[0]);
      assert forall i :: 0 <= i < |ls[1..]| ==> ls[1..][i] == ls[i + 1];
      LiveStep(s, ls[0]);
      NoAnswer(s, ls[0]);
      InvStep(s, ls[0]);
      NothingResolves(Next(s, ls[0]), ls[1..], t);
    }
  }

  lemma OrdinaryCons(s: Sys, l: Label, rest: seq<Label>, t: Sys)
    requires Enabled(s, l) && Ordinary(l) && OrdinaryRun(Next(s, l), rest, t)
    ensures OrdinaryRun(s, [l] + rest, t)
  {
    assert ([l] + rest)[1..] == rest;
  }

  ghost predicate Working(s: Sys) {
    Inv(s) && !s.db.done && Staffed(s) && Live(s) >= 1
  }

  lemma DrainStep(s: Sys) returns (l: Label)
    requires Working(s) && !Quiescent(s)
    ensures Enabled(s, l) && Ordinary(l) && Working(Next(s, l)) && Next(s, l).texts == s.texts
    ensures Below(MeasureOf(Next(s, l)), MeasureOf(s))
  {
    l := NoDeadlock(s);
    InvStep(s, l);
    Descends(s, l);
    ProductiveFrame(s, l);
    LiveStep(s, l);
  }

  lemma DrainFrom(s: Sys, m: Measure) returns (ls: seq<Label>, t: Sys)
    requires Working(s) && m == MeasureOf(s)
    ensures OrdinaryRun(s, ls, t) && Working(t) && Quiescent(t) && t.texts == s.texts
    decreases m.live, m.work, m.idle
  {
    if Quiescent(s) {
      ls, t := [], s;
    } else {
      var l := DrainStep(s);
      var rest;
      rest, t := DrainFrom(Next(s, l), MeasureOf(Next(s, l)));
      OrdinaryCons(s, l, rest, t);
      ls := [l] + rest;
    }
  }

  ghost predicate ResolvesBy(s: Sys, ls: seq<Label>, t: Sys, id: nat) {
    OrdinaryRun(s, ls, t) && id in t.promises
  }

  // A submitted command can still be answered exactly when it has been already or a
  // connection is left: the hypothesis of ExecutorFairness.EveryFutureResolves cannot be dropped.
  lemma ResolvableIff(s: Sys, id: nat)
    requires Reachable(s) && !s.db.done && Staffed(s) && id < |s.texts|
    ensures (exists ls, t :: ResolvesBy(s, ls, t, id)) <==> (id in s.promises || Live(s) >= 1)
  {
    ReachableInv(s);
    if id in s.promises {
      assert ResolvesBy(s, [], s, id);
    } else if Live(s) >= 1 {
      var ls, t := DrainFrom(s, MeasureOf(s));
      QuiescentResolved(t, id);
      assert ResolvesBy(s, ls, t, id);
    } else {
      forall ls, t | ResolvesBy(s, ls, t, id) ensures false {
        NothingResolves(s, ls, t);
      }
    }
  }
}
