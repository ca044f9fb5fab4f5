// Commands pushed while the pool runs: at the back, at any rate, they keep no earlier
// command from its answer; at the front, they can keep one waiting for ever.

module ExecutorLoad {
  import opened Sums
  import opened Executor
  import opened ExecutorSafety
  import opened ExecutorProgress
  import opened ExecutorFairness
  import TP = ThreadPool

  // ---- Fairness where workers compete for connections ----

  ghost predicate CanLater(run: nat -> Sys, j: nat, w: nat) {
    exists k: nat :: k >= j && CanAct(run(k), Worker(w))
  }

  ghost predicate AgainAndAgain(run: nat -> Sys, i: nat, w: nat) {
    forall j: nat :: j >= i ==> CanLater(run, j, w)
  }

  // Strong fairness of the database workers: one that can act again and again acts.
  ghost predicate Strong(run: nat -> Sys, does: nat -> Option<Label>) {
    forall w: nat, i: nat :: AgainAndAgain(run, i, w) ==> ActsLater(does, i, Worker(w))
  }

  // ---- A running command ----

  function NextAct(stage: Stage): Act {
    match stage
    case Polling => Take
    case Checking(_) => StatusOk
    case Resetting(_) => ResetOk
    case Holding(_) => Exec(0)
    case Returning(_) => GiveBack
  }

  lemma RunnerCan(s: Sys, w: nat)
    requires RunsCommand(s, w) && (StageOf(s, w).Polling? ==> s.conns != [])
    ensures CanAct(s, Worker(w))
  {
    var l := Work(w, NextAct(StageOf(s, w)));
    assert Acts(l, Worker(w)) && Enabled(s, l);
  }

  lemma StageAble(run: nat -> Sys, i: nat, w: nat)
    requires RunsCommand(run(i), w) && !StageOf(run(i), w).Polling?
    ensures AbleAs(run, i, w)
  {
    forall j: nat | j >= i && w < |run(j).db.workers| && run(j).db.workers[w] == run(i).db.workers[w]
      ensures CanAct(run(j), Worker(w))
    {
      RunnerCan(run(j), w);
    }
  }

  // What a running command's own step comes to.
  lemma RunnerStep(s: Sys, l: Label, w: nat)
    requires RunsCommand(s, w) && Acts(l, Worker(w)) && Enabled(s, l)
    ensures l.Work? && l.w == w
    ensures Loses(l) || JobWeight(Next(s, l).db.workers[w]) < JobWeight(s.db.workers[w])
    ensures Loses(l) || Next(s, l).conns != [] || RunsCommand(Next(s, l), w)
    ensures StageOf(s, w).Returning? ==> Next(s, l).conns != []
    ensures !StageOf(s, w).Returning? ==>
      RunsCommand(Next(s, l), w) && Next(s, l).db.workers[w].job.id == s.db.workers[w].job.id
      && (StageOf(Next(s, l), w).Returning? ==> s.db.workers[w].job.id in Next(s, l).promises)
  {
    WorkEffect(s, w, l.act);
  }

  lemma StaysHolding(s: Sys, l: Label, w: nat)
    requires RunsCommand(s, w) && !StageOf(s, w).Polling? && !StageOf(s, w).Returning?
    requires Acts(l, Worker(w)) && Enabled(s, l) && !Loses(l)
    ensures RunsCommand(Next(s, l), w) && !StageOf(Next(s, l), w).Polling?
  {
    RunnerStep(s, l, w);
  }

  predicate HoldsSome(s: Sys, w: nat) {
    RunsCommand(s, w) && !StageOf(s, w).Polling?
  }

  // There is a connection to take, or one fewer is left.
  predicate Relief(s: Sys, t: Sys) {
    t.conns != [] || Live(t) < Live(s)
  }

  lemma HolderStep(s: Sys, l: Label, w: nat)
    requires Inv(s) && HoldsSome(s, w) && Acts(l, Worker(w)) && Enabled(s, l)
    ensures Relief(s, Next(s, l)) ||
      (HoldsSome(Next(s, l), w) && JobWeight(Next(s, l).db.workers[w]) < JobWeight(s.db.workers[w]))
  {
    RunnerStep(s, l, w);
    if Loses(l) {
      LiveStep(s, l);
    } else if !StageOf(s, w).Returning? {
      StaysHolding(s, l, w);
    }
  }

  lemma HolderMoves(run: nat -> Sys, does: nat -> Option<Label>, i: nat, w: nat) returns (k: nat)
    requires Path(run, does) && Fair(run, does) && HoldsSome(run(i), w)
    ensures k >= i && ActsAt(does, k, Worker(w)) && HoldsSome(run(k), w)
    ensures run(k).db.workers[w] == run(i).db.workers[w]
  {
    StageAble(run, i, w);
    k := ActsFrom(run, does, i, w);
  }

  lemma HolderStepAt(run: nat -> Sys, does: nat -> Option<Label>, k: nat, w: nat)
    requires Path(run, does) && Inv(run(k)) && HoldsSome(run(k), w) && ActsAt(does, k, Worker(w))
    ensures Relief(run(k), run(k + 1)) ||
      (HoldsSome(run(k + 1), w) && JobWeight(run(k + 1).db.workers[w]) < JobWeight(run(k).db.workers[w]))
  {
    assert MovesAt(run, does, k);
    HolderStep(run(k), does(k).value, w);
  }

  lemma HolderNext(run: nat -> Sys, does: nat -> Option<Label>, i: nat, w: nat) returns (n: nat)
    requires Path(run, does) && Fair(run, does) && Inv(run(i)) && HoldsSome(run(i), w)
    ensures n >= i && Later(run(i), run(n))
    ensures Relief(run(i), run(n)) ||
      (HoldsSome(run(n), w) && JobWeight(run(n).db.workers[w]) < JobWeight(run(i).db.workers[w]))
  {
    var k := HolderMoves(run, does, i, w);
    Kept(run, does, i, k);
    HolderStepAt(run, does, k, w);
    n := k + 1;
    KeptStep(run, does, i, k);
  }

  // A worker with a connection goes on until it gives it back, or a connection is lost.
  lemma HolderGives(run: nat -> Sys, does: nat -> Option<Label>, i: nat, w: nat, rank: nat) returns (n: nat)
    requires Path(run, does) && Fair(run, does) && Inv(run(i))
    requires HoldsSome(run(i), w) && rank == JobWeight(run(i).db.workers[w])
    ensures n >= i && Relief(run(i), run(n))
    decreases rank
  {
    n := HolderNext(run, does, i, w);
    if !Relief(run(i), run(n)) {
      n := HolderGives(run, does, n, w, JobWeight(run(n).db.workers[w]));
    }
  }

  // The deque of connections is not empty for ever.
  lemma ConnectionComes(run: nat -> Sys, does: nat -> Option<Label>, i: nat) returns (n: nat)
    requires Path(run, does) && Fair(run, does) && Inv(run(i)) && Live(run(i)) >= 1
    ensures n >= i && Relief(run(i), run(n))
  {
    if run(i).conns != [] {
      n := i;
    } else {
      var w := SumWitness(HoldsAny, run(i).db.workers);
      n := HolderGives(run, does, i, w, JobWeight(run(i).db.workers[w]));
    }
  }

  ghost predicate KeepsAll(run: nat -> Sys, i: nat) {
    forall j: nat :: j >= i ==> Live(run(j)) >= Live(run(i))
  }

  // A polling worker gets to see a connection again and again.
  lemma PollerCan(run: nat -> Sys, does: nat -> Option<Label>, i: nat, w: nat)
    requires Path(run, does) && Fair(run, does) && Inv(run(i)) && Live(run(i)) >= 1 && KeepsAll(run, i)
    requires forall j: nat :: j >= i ==> RunsCommand(run(j), w)
    ensures AgainAndAgain(run, i, w)
  {
    forall j: nat | j >= i ensures CanLater(run, j, w) {
      Kept(run, does, i, j);
      var n := ConnectionComes(run, does, j);
      assert run(n).conns != [];
      RunnerCan(run(n), w);
    }
  }

  // A running command moves on from where it stands, or a connection is lost.
  lemma RunnerActs(run: nat -> Sys, does: nat -> Option<Label>, i: nat, w: nat) returns (k: nat)
    requires Path(run, does) && Fair(run, does) && Strong(run, does) && Inv(run(i)) && Live(run(i)) >= 1
    requires RunsCommand(run(i), w)
    ensures k >= i
    ensures Live(run(k)) < Live(run(i)) ||
      (ActsAt(does, k, Worker(w)) && w < |run(k).db.workers| && run(k).db.workers[w] == run(i).db.workers[w])
  {
    if j: nat :| j >= i && ActsAt(does, j, Worker(w)) {
      k := First(does, i, j, Worker(w));
      Unmoved(run, does, i, k, w);
    } else if j: nat :| j >= i && Live(run(j)) < Live(run(i)) {
      k := j;
    } else {
      forall j: nat | j >= i ensures RunsCommand(run(j), w) {
        Unmoved(run, does, i, j, w);
      }
      assert KeepsAll(run, i);
      PollerCan(run, does, i, w);
      k := i;
      assert false;
    }
  }

  // ---- How far a command is from its answer ----

  predicate InProgress(s: Sys, w: nat, id: nat) {
    IsRunning(s, w, id) && !StageOf(s, w).Returning?
  }

  // The distance of a command that has not been answered: its place in the deque and
  // the work of the jobs being run, or the work left on itself.
  ghost predicate Ahead(s: Sys, id: nat, place: nat, work: nat) {
    || (place > 0 && IsQueued(s, place - 1, id) && work == Sum(JobWeight, s.db.workers))
    || (place == 0 && exists w: nat :: InProgress(s, w, id) && work == JobWeight(s.db.workers[w]))
  }

  lemma Located(s: Sys, id: nat) returns (place: nat, work: nat)
    requires Serving(s, id) && id !in s.promises
    ensures Ahead(s, id, place, work)
  {
    assert TaskPlaces(s, id) == 1;
    CommandSomewhere(s, id);
    if i: nat :| IsQueued(s, i, id) {
      place, work := i + 1, Sum(JobWeight, s.db.workers);
    } else {
      var w: nat :| IsRunning(s, w, id);
      NotSetYet(s, w, id);
      place, work := 0, JobWeight(s.db.workers[w]);
    }
  }

  lemma NotSetYet(s: Sys, w: nat, id: nat)
    requires PromiseInv(s) && IsRunning(s, w, id) && id !in s.promises
    ensures InProgress(s, w, id)
  {
    SumAt(RunsSet(id), s.db.workers, w);
  }

  lemma QueuedIsOpen(s: Sys, p: nat, id: nat)
    requires Serving(s, id) && IsQueued(s, p, id)
    ensures id !in s.promises
  {
    assert TaskPlaces(s, id) == 1;
    SumAt(Queues(id), s.db.tasks, p);
  }

  lemma CoreSums(s: Sys, t: Sys)
    requires SameCore(s, t)
    ensures Live(t) == Live(s) && Sum(JobWeight, t.db.workers) == Sum(JobWeight, s.db.workers)
  {
    forall w: nat | w < |s.db.workers|
      ensures HoldsAny(t.db.workers[w]) == HoldsAny(s.db.workers[w])
      ensures JobWeight(t.db.workers[w]) == JobWeight(s.db.workers[w])
    {
      assert Runs(t.db, w) <==> Runs(s.db, w);
    }
    SumSame(HoldsAny, s.db.workers, t.db.workers);
    SumSame(JobWeight, s.db.workers, t.db.workers);
  }

  lemma {:induction false} FirstGain(does: nat -> Option<Label>, i: nat, j: nat) returns (k: nat)
    requires i <= j && does(j).Some? && Gains(does(j).value)
    ensures i <= k <= j && does(k).Some? && Gains(does(k).value) && QuietIn(does, i, k)
    decreases j - i
  {
    if does(i).Some? && Gains(does(i).value) {
      k := i;
    } else {
      k := FirstGain(does, i + 1, j);
    }
  }

  // A pull brings a queued command forward, or is its own.
  lemma PullNearer(s: Sys, w: nat, p: nat, id: nat)
    requires TP.Enabled(s.db, TP.Pull(w)) && IsQueued(s, p, id) && Fresh(s.db.tasks[0].job)
    ensures var t := s.(db := TP.Next(s.db, TP.Pull(w)));
      if p == 0 then InProgress(t, w, id) else IsQueued(t, p - 1, id)
  {
  }

  lemma WorkNearer(s: Sys, w: nat, act: Act, p: nat, id: nat)
    requires CanWork(s, w, act) && IsQueued(s, p, id)
    ensures IsQueued(Worked(s, w, act), p, id)
    ensures act.ResetBad? || Sum(JobWeight, Worked(s, w, act).db.workers) < Sum(JobWeight, s.db.workers)
  {
    WorkEffect(s, w, act);
    WorkMoves(s, w, act, JobWeight);
  }

  lemma WaitNearer(s: Sys, w: nat, p: nat, id: nat)
    requires CanStopWaiting(s, Db, w) && IsQueued(s, p, id)
    ensures var t := WithPool(s, Db, TP.At(s.db, w, TP.Loop));
      IsQueued(t, p, id) && Sum(JobWeight, t.db.workers) < Sum(JobWeight, s.db.workers)
  {
    SumUpdate(JobWeight, s.db.workers, w, TP.Loop);
  }

  // Every step that gets work done brings a queued command nearer to its answer.
  lemma GainNearer(s: Sys, l: Label, p: nat, id: nat) returns (place: nat, work: nat)
    requires Serving(s, id) && Enabled(s, l) && Gains(l) && IsQueued(s, p, id) && !Loses(l)
    ensures Ahead(Next(s, l), id, place, work)
    ensures place < p + 1 || (place == p + 1 && work < Sum(JobWeight, s.db.workers))
  {
    var t := Next(s, l);
    match l {
      case Local(_, k) =>
        PullNearer(s, k.w, p, id);
        place, work := p, if p == 0 then JobWeight(t.db.workers[k.w]) else Sum(JobWeight, t.db.workers);
      case Work(w, act) =>
        WorkNearer(s, w, act, p, id);
        place, work := p + 1, Sum(JobWeight, t.db.workers);
      case WaitOver(_, w) =>
        WaitNearer(s, w, p, id);
        place, work := p + 1, Sum(JobWeight, t.db.workers);
    }
  }

  // ---- Nearer and nearer ----

  // At n the command is answered, or nearer, or fewer connections are left.
  ghost predicate Nearer(run: nat -> Sys, i: nat, id: nat, place: nat, work: nat, n: nat, place2: nat, work2: nat) {
    && Later(run(i), run(n))
    && (id in run(n).promises || Live(run(n)) < Live(run(i)) ||
        (Ahead(run(n), id, place2, work2) && (place2 < place || (place2 == place && work2 < work))))
  }

  // The next moment at which work gets done finds a queued command where it was.
  lemma NextGain(run: nat -> Sys, does: nat -> Option<Label>, i: nat, id: nat, p: nat) returns (k: nat)
    requires Path(run, does) && Fair(run, does) && Serving(run(i), id) && Live(run(i)) >= 1
    requires IsQueued(run(i), p, id)
    ensures k >= i && does(k).Some? && Gains(does(k).value) && QuietIn(does, i, k)
  {
    QueuedIsOpen(run(i), p, id);
    if Flat(does, i) {
      FlatIsOver(run, does, i, id);
      k := i;
      assert false;
    } else {
      var j: nat :| j >= i && does(j).Some? && Gains(does(j).value);
      k := FirstGain(does, i, j);
    }
  }

  lemma QueuedStill(s: Sys, t: Sys, p: nat, id: nat)
    requires SameCore(s, t) && IsQueued(s, p, id)
    ensures IsQueued(t, p, id) && Live(t) == Live(s) && Sum(JobWeight, t.db.workers) == Sum(JobWeight, s.db.workers)
  {
    CoreSums(s, t);
    assert t.db.tasks[p] == t.db.tasks[..|s.db.tasks|][p];
  }

  lemma ServingThen(run: nat -> Sys, does: nat -> Option<Label>, i: nat, k: nat, id: nat)
    requires Path(run, does) && Serving(run(i), id) && i <= k
    ensures Serving(run(k), id)
  {
    Kept(run, does, i, k);
    ServingLater(run(i), run(k), id);
  }

  lemma GainsAt(run: nat -> Sys, does: nat -> Option<Label>, k: nat, id: nat, p: nat) returns (place: nat, work: nat)
    requires Path(run, does) && Serving(run(k), id) && IsQueued(run(k), p, id)
    requires does(k).Some? && Gains(does(k).value)
    ensures Live(run(k + 1)) < Live(run(k)) ||
      (Ahead(run(k + 1), id, place, work) &&
       (place < p + 1 || (place == p + 1 && work < Sum(JobWeight, run(k).db.workers))))
  {
    assert MovesAt(run, does, k);
    if Loses(does(k).value) {
      LiveStep(run(k), does(k).value);
      place, work := 0, 0;
    } else {
      place, work := GainNearer(run(k), does(k).value, p, id);
    }
  }

  lemma QueuedNearer(run: nat -> Sys, does: nat -> Option<Label>, i: nat, id: nat, p: nat)
      returns (n: nat, place: nat, work: nat)
    requires Path(run, does) && Fair(run, does) && Serving(run(i), id) && Live(run(i)) >= 1
    requires IsQueued(run(i), p, id)
    ensures Nearer(run, i, id, p + 1, Sum(JobWeight, run(i).db.workers), n, place, work)
  {
    var k := NextGain(run, does, i, id, p);
    FlatCore(run, does, i, k);
    QueuedStill(run(i), run(k), p, id);
    ServingThen(run, does, i, k, id);
    place, work := GainsAt(run, does, k, id, p);
    n := k + 1;
    Kept(run, does, i, n);
  }

  lemma RunsAt(run: nat -> Sys, does: nat -> Option<Label>, k: nat, id: nat, w: nat) returns (work: nat)
    requires Path(run, does) && Inv(run(k)) && InProgress(run(k), w, id) && ActsAt(does, k, Worker(w))
    ensures id in run(k + 1).promises || Live(run(k + 1)) < Live(run(k)) ||
      (Ahead(run(k + 1), id, 0, work) && work < JobWeight(run(k).db.workers[w]))
  {
    assert MovesAt(run, does, k);
    RunnerStep(run(k), does(k).value, w);
    work := JobWeight(run(k + 1).db.workers[w]);
    if Loses(does(k).value) {
      LiveStep(run(k), does(k).value);
    } else if id !in run(k + 1).promises {
      assert InProgress(run(k + 1), w, id);
    }
  }

  lemma RunningOn(run: nat -> Sys, does: nat -> Option<Label>, i: nat, k: nat, id: nat, w: nat) returns (work: nat)
    requires Path(run, does) && Inv(run(i)) && i <= k && InProgress(run(k), w, id) && ActsAt(does, k, Worker(w))
    ensures Nearer(run, i, id, 0, JobWeight(run(k).db.workers[w]), k + 1, 0, work)
  {
    Kept(run, does, i, k);
    work := RunsAt(run, does, k, id, w);
    KeptStep(run, does, i, k);
  }

  lemma RunningNext(run: nat -> Sys, does: nat -> Option<Label>, i: nat, k: nat, id: nat, w: nat)
      returns (n: nat, work: nat)
    requires Path(run, does) && Inv(run(i)) && i <= k && InProgress(run(i), w, id)
    requires Live(run(k)) < Live(run(i)) ||
      (ActsAt(does, k, Worker(w)) && w < |run(k).db.workers| && run(k).db.workers[w] == run(i).db.workers[w])
    ensures Nearer(run, i, id, 0, JobWeight(run(i).db.workers[w]), n, 0, work)
  {
    if Live(run(k)) < Live(run(i)) {
      n, work := k, 0;
      Kept(run, does, i, k);
    } else {
      n := k + 1;
      work := RunningOn(run, does, i, k, id, w);
    }
  }

  lemma RunningNearer(run: nat -> Sys, does: nat -> Option<Label>, i: nat, id: nat, w: nat)
      returns (n: nat, place: nat, work: nat)
    requires Path(run, does) && Fair(run, does) && Strong(run, does) && Serving(run(i), id) && Live(run(i)) >= 1
    requires InProgress(run(i), w, id)
    ensures Nearer(run, i, id, 0, JobWeight(run(i).db.workers[w]), n, place, work)
  {
    var k := RunnerActs(run, does, i, w);
    place := 0;
    n, work := RunningNext(run, does, i, k, id, w);
  }

  lemma GetsNearer(run: nat -> Sys, does: nat -> Option<Label>, i: nat, id: nat, place: nat, work: nat)
      returns (n: nat, place2: nat, work2: nat)
    requires Path(run, does) && Fair(run, does) && Strong(run, does) && Serving(run(i), id) && Live(run(i)) >= 1
    requires Ahead(run(i), id, place, work)
    ensures Nearer(run, i, id, place, work, n, place2, work2)
  {
    if place > 0 {
      n, place2, work2 := QueuedNearer(run, does, i, id, place - 1);
    } else {
      var w: nat :| InProgress(run(i), w, id) && work == JobWeight(run(i).db.workers[w]);
      n, place2, work2 := RunningNearer(run, does, i, id, w);
    }
  }

  lemma ServingLater(s: Sys, t: Sys, id: nat)
    requires Serving(s, id) && Later(s, t)
    ensures Serving(t, id) && t.texts[id] == s.texts[id]
  {
    assert t.texts[..|s.texts|][id] == t.texts[id];
  }

  lemma AnsweredFrom(run: nat -> Sys, does: nat -> Option<Label>, i: nat, id: nat, live: nat, place: nat, work: nat)
      returns (n: nat)
    requires Path(run, does) && Fair(run, does) && Strong(run, does) && Serving(run(i), id)
    requires live == Live(run(i)) && Ahead(run(i), id, place, work)
    ensures Later(run(i), run(n)) && Settled(run(n), id)
    decreases live, place, work
  {
    if Settled(run(i), id) {
      n := i;
      LaterSelf(run(i));
    } else {
      var m, place2, work2 := GetsNearer(run, does, i, id, place, work);
      ServingLater(run(i), run(m), id);
      n := m;
      if !Settled(run(m), id) {
        if Live(run(m)) < live {
          place2, work2 := Located(run(m), id);
        }
        n := AnsweredFrom(run, does, m, id, Live(run(m)), place2, work2);
        LaterTrans(run(i), run(m), run(n));
      }
    }
  }

  // Commands may be pushed at the back at any rate, as log entries and lookups are: each
  // command submitted by some moment of the run is answered with its own answer, unless
  // all connections are lost first. Workers that compete for connections need strong
  // fairness; callers need weak fairness only.
  lemma BackPushesResolve(run: nat -> Sys, does: nat -> Option<Label>, i: nat, id: nat)
    requires Reachable(run(0)) && !run(0).db.done && |run(0).db.workers| >= 1
    requires Path(run, does) && Fair(run, does) && Strong(run, does) && id < |run(i).texts|
    ensures exists n: nat :: Live(run(n)) == 0 ||
              (id in run(n).promises && run(n).promises[id].text == run(i).texts[id])
  {
    ReachableInv(run(0));
    Kept(run, does, 0, i);
    var n := i;
    if !Settled(run(i), id) {
      var place, work := Located(run(i), id);
      n := AnsweredFrom(run, does, i, id, Live(run(i)), place, work);
      ServingLater(run(i), run(n), id);
    }
    assert Live(run(n)) == 0 || (id in run(n).promises && run(n).promises[id].text == run(i).texts[id]);
  }

  // ---- Fair runs exist ----

  // The state after i of the labels, or after all.
  ghost function StateAt(s: Sys, ls: seq<Label>, i: nat): Sys
    decreases |ls|
  {
    if i == 0 || ls == [] || !Enabled(s, ls[0]) then s else StateAt(Next(s, ls[0]), ls[1..], i - 1)
  }

  lemma {:induction false} StatesMove(s: Sys, ls: seq<Label>, t: Sys, i: nat)
    requires Run(s, ls, t)
    ensures if i < |ls|
            then Enabled(StateAt(s, ls, i), ls[i]) && StateAt(s, ls, i + 1) == Next(StateAt(s, ls, i), ls[i])
            else StateAt(s, ls, i) == t
    decreases |ls|
  {
    if ls != [] && i > 0 {
      StatesMove(Next(s, ls[0]), ls[1..], t, i - 1);
    }
  }

  lemma NobodyCan(t: Sys, a: Actor)
    requires Quiescent(t)
    ensures !CanAct(t, a)
  {
    forall l | Acts(l, a) ensures !Enabled(t, l) {
      match l {
        case Local(_, k) => assert k.w < |t.db.workers| ==> t.db.workers[k.w].Asleep?;
        case Work(w, _) => assert !RunsCommand(t, w);
        case WaitOver(_, w) => assert !Runs(t.db, w);
        case Talk(c, _) =>
      }
    }
  }

  lemma EndsFair(run: nat -> Sys, does: nat -> Option<Label>, n: nat)
    requires forall j: nat :: j >= n ==> Quiescent(run(j))
    ensures Fair(run, does) && Strong(run, does)
  {
    forall a, i: nat ensures !AlwaysCan(run, i, a) {
      var j := if i < n then n else i;
      NobodyCan(run(j), a);
    }
    forall w: nat, i: nat ensures !AgainAndAgain(run, i, w) {
      var j := if i < n then n else i;
      forall k: nat | k >= j ensures !CanAct(run(k), Worker(w)) {
        NobodyCan(run(k), Worker(w));
      }
      assert !CanLater(run, j, w);
    }
  }

  ghost function RunOf(s: Sys, ls: seq<Label>): nat -> Sys {
    (i: nat) => StateAt(s, ls, i)
  }

  function DoesOf(ls: seq<Label>): nat -> Option<Label> {
    (i: nat) => if i < |ls| then Some(ls[i]) else None
  }

  lemma StepInside(s: Sys, ls: seq<Label>, t: Sys, i: nat)
    requires OrdinaryRun(s, ls, t) && i < |ls|
    ensures Moves(StateAt(s, ls, i), Some(ls[i]), StateAt(s, ls, i + 1))
  {
    StatesMove(s, ls, t, i);
    assert Ordinary(ls[i]);
    OrdinaryIsSteady(ls[i]);
  }

  lemma OrdinaryIsSteady(l: Label)
    requires Ordinary(l)
    ensures Steady(l)
  {
  }

  lemma StepOutside(s: Sys, ls: seq<Label>, t: Sys, i: nat)
    requires OrdinaryRun(s, ls, t) && i >= |ls|
    ensures StateAt(s, ls, i) == StateAt(s, ls, i + 1) == t
  {
    StatesMove(s, ls, t, i);
    StatesMove(s, ls, t, i + 1);
  }

  lemma OrdinaryMoves(s: Sys, ls: seq<Label>, t: Sys, i: nat)
    requires OrdinaryRun(s, ls, t)
    ensures MovesAt(RunOf(s, ls), DoesOf(ls), i)
    ensures i >= |ls| ==> RunOf(s, ls)(i) == t
  {
    if i < |ls| {
      StepInside(s, ls, t, i);
    } else {
      StepOutside(s, ls, t, i);
      assert Moves(t, None, t);
    }
    MovesAtOf(s, ls, i);
  }

  lemma MovesAtOf(s: Sys, ls: seq<Label>, i: nat)
    requires Moves(StateAt(s, ls, i), if i < |ls| then Some(ls[i]) else None, StateAt(s, ls, i + 1))
    ensures MovesAt(RunOf(s, ls), DoesOf(ls), i)
  {
  }

  lemma OrdinaryPath(s: Sys, ls: seq<Label>, t: Sys)
    requires OrdinaryRun(s, ls, t)
    ensures Path(RunOf(s, ls), DoesOf(ls)) && Closed(DoesOf(ls))
  {
    forall i: nat ensures MovesAt(RunOf(s, ls), DoesOf(ls), i) {
      OrdinaryMoves(s, ls, t, i);
    }
  }

  lemma OrdinaryFair(s: Sys, ls: seq<Label>, t: Sys)
    requires OrdinaryRun(s, ls, t) && Quiescent(t)
    ensures Fair(RunOf(s, ls), DoesOf(ls)) && Strong(RunOf(s, ls), DoesOf(ls))
  {
    forall j: nat | j >= |ls| ensures Quiescent(RunOf(s, ls)(j)) {
      OrdinaryMoves(s, ls, t, j);
    }
    EndsFair(RunOf(s, ls), DoesOf(ls), |ls|);
  }

  // From every state in which a connection is left and nobody shuts the pool down there
  // is a run as the theorems about fair runs ask for.
  lemma FairRunExists(s: Sys) returns (run: nat -> Sys, does: nat -> Option<Label>)
    requires Working(s)
    ensures run(0) == s && Path(run, does) && Fair(run, does) && Strong(run, does) && Closed(does)
  {
    var ls, t := DrainFrom(s, MeasureOf(s));
    run, does := RunOf(s, ls), DoesOf(ls);
    OrdinaryPath(s, ls, t);
    OrdinaryFair(s, ls, t);
  }

  // ---- Commands pushed at the front ----

  ghost predicate Leads(s: Sys, t: Sys) {
    exists ls :: Run(s, ls, t)
  }

  lemma LeadsFirst(s: Sys, l: Label, m: Sys, t: Sys)
    requires Enabled(s, l) && m == Next(s, l) && Leads(m, t)
    ensures Leads(s, t)
  {
    var ls :| Run(m, ls, t);
    StepFirst(s, l, m, ls, t);
  }

  lemma {:induction false} LeadsOn(s: Sys, a: seq<Label>, m: Sys, t: Sys)
    requires Run(s, a, m) && Leads(m, t)
    ensures Leads(s, t)
    decreases |a|
  {
    if a != [] {
      LeadsOn(Next(s, a[0]), a[1..], m, t);
      LeadsFirst(s, a[0], Next(s, a[0]), t);
    }
  }

  lemma LeadsTrans(s: Sys, m: Sys, t: Sys)
    requires Leads(s, m) && Leads(m, t)
    ensures Leads(s, t)
  {
    var a :| Run(s, a, m);
    LeadsOn(s, a, m, t);
  }

  // One worker, free again; the first command still queued, n later ones answered.
  ghost predicate Starving(s: Sys, first: string, n: nat) {
    && s.callers == [Idle] && s.db.owner.None? && !s.db.done && s.db.notifiers == 0
    && s.db.workers == [TP.Loop] && s.conns == [0] && |s.texts| == n + 1
    && s.db.tasks == [TP.Entry(0, true, Command(0, first, Polling))]
    && forall id: nat :: id in s.promises <==> 1 <= id <= n
  }

  function PushedFront(s: Sys, text: string): Sys {
    s.(db := TP.Pushed(s.db, true, Command(|s.texts|, text, Polling)).(notifiers := 0), texts := s.texts + [text])
  }

  // The state after the pushed command was pulled.
  lemma PushAndPull(s: Sys, text: string) returns (t: Sys)
    requires s.callers == [Idle] && s.db.owner.None? && !s.db.done && s.db.notifiers == 0 && s.db.workers == [TP.Loop]
    ensures Leads(s, t)
    ensures t == PushedFront(s, text).(db := PushedFront(s, text).db.(
      workers := [TP.Running(Command(|s.texts|, text, Polling))], tasks := s.db.tasks))
  {
    var pushed := PushedFront(s, text);
    t := pushed.(db := pushed.db.(workers := [TP.Running(Command(|s.texts|, text, Polling))], tasks := s.db.tasks));
    assert pushed.db.tasks[1..] == s.db.tasks;
    assert pushed.db.workers[0 := TP.Running(pushed.db.tasks[0].job)] == t.db.workers;
    assert Run(t, [], t);
    var ls := PullsFront(pushed, 0, [], t);
    ls := PushesFront(s, text, ls, t);
  }

  lemma WorkLeads(s: Sys, w: nat, act: Act)
    requires CanWork(s, w, act)
    ensures Leads(s, Worked(s, w, act))
  {
    var t := Worked(s, w, act);
    assert Run(t, [], t);
    StepFirst(s, Work(w, act), t, [], t);
  }

  lemma Serves(s: Sys) returns (t: Sys)
    requires s.db.workers != [] && RunsCommand(s, 0) && StageOf(s, 0).Polling? && s.conns != []
    ensures Leads(s, t)
    ensures t == s.(db := TP.At(s.db, 0, TP.Loop), promises := t.promises, completed := t.completed)
    ensures t.promises.Keys == s.promises.Keys + {s.db.workers[0].job.id}
  {
    var a := Worked(s, 0, Take);
    var b := Worked(a, 0, StatusOk);
    var c := Worked(b, 0, Exec(0));
    t := Worked(c, 0, GiveBack);
    WorkLeads(s, 0, Take);
    WorkLeads(a, 0, StatusOk);
    WorkLeads(b, 0, Exec(0));
    WorkLeads(c, 0, GiveBack);
    LeadsTrans(s, a, b);
    LeadsTrans(s, b, c);
    LeadsTrans(s, c, t);
    assert t.conns == s.conns;
    assert t.db.workers == s.db.workers[0 := TP.Loop];
  }

  lemma OneMoreStarves(s: Sys, first: string, text: string, n: nat) returns (t: Sys)
    requires Starving(s, first, n)
    ensures Leads(s, t) && Starving(t, first, n + 1)
  {
    var m := PushAndPull(s, text);
    t := Serves(m);
    LeadsTrans(s, m, t);
    assert forall id: nat :: id in t.promises <==> id in s.promises || id == n + 1;
  }

  lemma StarvingStart(first: string) returns (t: Sys)
    ensures Leads(Start(false, 1, 1, 1, 1), t) && Starving(t, first, 0)
  {
    var s := Start(false, 1, 1, 1, 1);
    t := PushedFront(s, first);
    assert Run(t, [], t);
    assert t.db.workers == [TP.Loop] && t.conns == Numbers(0) + [0] == [0];
    var ls := PushesFront(s, first, [], t);
  }

  // However many commands are pushed at the front later and answered, the first one can
  // still be waiting.
  lemma {:induction false} FrontPushesStarve(first: string, text: string, n: nat) returns (t: Sys)
    ensures Leads(Start(false, 1, 1, 1, 1), t) && Starving(t, first, n)
  {
    if n == 0 {
      t := StarvingStart(first);
    } else {
      var s := FrontPushesStarve(first, text, n - 1);
      t := OneMoreStarves(s, first, text, n - 1);
      LeadsTrans(Start(false, 1, 1, 1, 1), s, t);
    }
  }
}
