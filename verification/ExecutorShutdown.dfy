// The destructor of a DB_module's thread pool: when its join can return, given the
// commands that workers still run.

module ExecutorShutdown {
  import opened Sums
  import opened Executor
  import opened ExecutorSafety
  import opened ExecutorProgress
  import TP = ThreadPool

  // Steps the database workers take by themselves while the destructor waits in join.
  predicate Own(l: Label) {
    match l
    case Local(where, k) => where == Db && !k.Spurious?
    case Work(_, _) => true
    case WaitOver(where, _) => where == Db
    case _ => false
  }

  ghost predicate JoinsBy(s: Sys, ls: seq<Label>, t: Sys) {
    Run(s, ls, t) && TP.AllExited(t.db) && forall i :: 0 <= i < |ls| ==> Own(ls[i])
  }

  predicate Dozes(s: Sys, w: nat) {
    w < |s.db.workers| && TP.Dozing(s.db.workers[w])
  }

  // The worker has passed the check and has a command in front of it.
  predicate AboutToRun(s: Sys, w: nat) {
    w < |s.db.workers| && s.db.workers[w].Pulling? && s.db.tasks != [] && s.db.tasks[0].job.Command?
  }

  // A command that some worker has begun, or cannot help beginning.
  ghost predicate Pending(s: Sys) {
    exists w: nat :: RunsCommand(s, w) || AboutToRun(s, w)
  }

  ghost predicate Joinable(s: Sys) {
    (forall w: nat :: !Dozes(s, w)) && (Live(s) >= 1 || !Pending(s))
  }

  // ---- Where the condition holds ----

  // After the stop flag nobody begins to doze and nobody passes the check.
  lemma DoneEffect(p: TP.Pool<Job>, k: TP.Label<Job>)
    requires Internal(k) && !k.Spurious? && TP.Enabled(p, k) && p.done
    ensures k.w < |p.workers| && k.w < |TP.Next(p, k).workers|
    ensures TP.Dozing(TP.Next(p, k).workers[k.w]) ==> TP.Dozing(p.workers[k.w])
    ensures !TP.Next(p, k).workers[k.w].Pulling?
    ensures k.Pull? ==> p.workers[k.w].Pulling?
  {
  }

  lemma NobodyDozes(s: Sys, t: Sys, w: nat)
    requires w < |s.db.workers| == |t.db.workers| && t.db.workers == s.db.workers[w := t.db.workers[w]]
    requires TP.Dozing(t.db.workers[w]) ==> TP.Dozing(s.db.workers[w])
    requires forall v: nat :: !Dozes(s, v)
    ensures forall v: nat :: !Dozes(t, v)
  {
    forall v: nat ensures !Dozes(t, v) {
      assert !Dozes(s, v);
    }
  }

  // With no command pending, a worker's step brings none up; d is 1 for a pull.
  lemma NothingPending(s: Sys, t: Sys, w: nat, d: nat)
    requires w < |s.db.workers| == |t.db.workers| && t.db.workers == s.db.workers[w := t.db.workers[w]]
    requires TP.MutexInv(s.db) && !Pending(s) && !t.db.workers[w].Pulling?
    requires t.db.workers[w].Running? ==> d == 1 && s.db.tasks != [] && t.db.workers[w].job == s.db.tasks[0].job
    requires if d == 1 then s.db.workers[w].Pulling? else t.db.tasks == s.db.tasks
    ensures !Pending(t)
  {
    assert !AboutToRun(s, w);
    forall v: nat ensures !RunsCommand(t, v) && !AboutToRun(t, v) {
      assert !RunsCommand(s, v) && !AboutToRun(s, v);
      if v != w && d == 1 && AboutToRun(t, v) {
        BothCritical(s.db, v, w);
      }
    }
  }

  lemma BothCritical(p: TP.Pool<Job>, v: nat, w: nat)
    requires TP.MutexInv(p) && v < |p.workers| && w < |p.workers|
    requires TP.Critical(p.workers[v]) && TP.Critical(p.workers[w])
    ensures v == w
  {
  }

  lemma LocalJoinable(s: Sys, k: TP.Label<Job>)
    requires Inv(s) && s.db.done && Joinable(s) && Internal(k) && !k.Spurious? && TP.Enabled(s.db, k)
    ensures forall w: nat :: !Dozes(s.(db := TP.Next(s.db, k)), w)
    ensures !Pending(s) ==> !Pending(s.(db := TP.Next(s.db, k)))
  {
    var t := s.(db := TP.Next(s.db, k));
    InternalEffect(s.db, k);
    DoneEffect(s.db, k);
    NobodyDozes(s, t, k.w);
    if !Pending(s) {
      NothingPending(s, t, k.w, if k.Pull? then 1 else 0);
    }
  }

  lemma WorkJoinable(s: Sys, w: nat, act: Act)
    requires CanWork(s, w, act) && forall v: nat :: !Dozes(s, v)
    ensures Pending(s) && forall v: nat :: !Dozes(Worked(s, w, act), v)
  {
    NobodyDozes(s, Worked(s, w, act), w);
  }

  lemma WaitJoinable(s: Sys, w: nat)
    requires Inv(s) && CanStopWaiting(s, Db, w) && forall v: nat :: !Dozes(s, v)
    ensures var t := WithPool(s, Db, TP.At(s.db, w, TP.Loop));
      (forall v: nat :: !Dozes(t, v)) && (!Pending(s) ==> !Pending(t))
  {
    var t := WithPool(s, Db, TP.At(s.db, w, TP.Loop));
    NobodyDozes(s, t, w);
    if !Pending(s) {
      NothingPending(s, t, w, 0);
    }
  }

  lemma OwnJoinable(s: Sys, l: Label)
    requires Inv(s) && s.db.done && Joinable(s) && Own(l) && Enabled(s, l) && !Loses(l)
    ensures Joinable(Next(s, l))
  {
    LiveStep(s, l);
    match l {
      case Local(_, k) => LocalJoinable(s, k);
      case Work(w, act) => WorkJoinable(s, w, act);
      case WaitOver(_, w) => WaitJoinable(s, w);
      case _ =>
    }
  }

  ghost predicate Closing(s: Sys) {
    Inv(s) && s.db.done && Joinable(s)
  }

  lemma OwnStep(s: Sys) returns (l: Label)
    requires Inv(s) && s.db.done && Joinable(s) && !TP.AllExited(s.db)
    ensures Own(l) && Enabled(s, l) && !Loses(l)
  {
    if w: nat :| w < |s.db.workers| && Stirring(s.db.workers[w]) {
      var k := PoolMoves(s.db, w);
      l := Local(Db, k);
    } else if w: nat :| RunsCommand(s, w) {
      assert Pending(s);
      var v, act := CommandMoves(s, w);
      l := Work(v, act);
    } else {
      var w: nat :| w < |s.db.workers| && !s.db.workers[w].Exited?;
      assert !Dozes(s, w);
      WaiterIsReady(s, w);
      l := WaitOver(Db, w);
    }
  }

  lemma OwnNext(s: Sys) returns (l: Label)
    requires Closing(s) && !TP.AllExited(s.db)
    ensures Own(l) && Enabled(s, l) && Closing(Next(s, l)) && Below(MeasureOf(Next(s, l)), MeasureOf(s))
  {
    l := OwnStep(s);
    InvStep(s, l);
    Descends(s, l);
    ProductiveFrame(s, l);
    OwnJoinable(s, l);
  }

  lemma JoinsCons(s: Sys, l: Label, m: Sys, rest: seq<Label>, t: Sys)
    requires Enabled(s, l) && Own(l) && m == Next(s, l) && JoinsBy(m, rest, t)
    ensures JoinsBy(s, [l] + rest, t)
  {
    StepFirst(s, l, m, rest, t);
  }

  lemma OwnRun(s: Sys, m: Measure) returns (ls: seq<Label>, t: Sys)
    requires Closing(s) && m == MeasureOf(s)
    ensures JoinsBy(s, ls, t)
    decreases m.live, m.work, m.idle
  {
    if TP.AllExited(s.db) {
      ls, t := [], s;
    } else {
      var l := OwnNext(s);
      var next := Next(s, l);
      var rest;
      rest, t := OwnRun(next, MeasureOf(next));
      JoinsCons(s, l, next, rest, t);
      ls := [l] + rest;
    }
  }

  // ---- Where it fails ----

  lemma DozesOn(s: Sys, l: Label, w: nat)
    requires Own(l) && Enabled(s, l) && Dozes(s, w)
    ensures Dozes(Next(s, l), w)
  {
    match l {
      case Local(_, k) => InternalEffect(s.db, k);
      case Work(v, act) => WorkEffect(s, v, act);
      case _ =>
    }
  }

  // With no connection left a command that was begun goes on for ever.
  ghost predicate Stuck(s: Sys) {
    Live(s) == 0 && Pending(s)
  }

  lemma Polls(s: Sys, w: nat)
    requires Live(s) == 0 && RunsCommand(s, w)
    ensures StageOf(s, w).Polling? && s.conns == []
    ensures forall act :: !CanWork(s, w, act)
  {
    SumAt(HoldsAny, s.db.workers, w);
  }

  lemma LocalStuck(s: Sys, k: TP.Label<Job>, w: nat)
    requires TP.MutexInv(s.db) && Internal(k) && TP.Enabled(s.db, k) && (RunsCommand(s, w) || AboutToRun(s, w))
    ensures var t := s.(db := TP.Next(s.db, k)); RunsCommand(t, w) || AboutToRun(t, w)
  {
    InternalEffect(s.db, k);
    if AboutToRun(s, w) {
      assert TP.Critical(s.db.workers[w]);
      assert k.Pull? ==> TP.Critical(s.db.workers[k.w]);
    }
  }

  lemma OwnStuck(s: Sys, l: Label)
    requires Inv(s) && Own(l) && Enabled(s, l) && Stuck(s)
    ensures Stuck(Next(s, l))
  {
    LiveStep(s, l);
    var w: nat :| RunsCommand(s, w) || AboutToRun(s, w);
    var t := Next(s, l);
    match l {
      case Local(_, k) => LocalStuck(s, k, w);
      case Work(v, act) =>
        Polls(s, v);
        assert false;
      case WaitOver(_, _) =>
      case _ =>
    }
    assert RunsCommand(t, w) || AboutToRun(t, w);
  }

  // A sleeper to be, or a command that cannot end, is in the way for good.
  ghost predicate Blocked(s: Sys, w: nat) {
    Dozes(s, w) || Stuck(s)
  }

  lemma BlockedNow(s: Sys, w: nat)
    requires Blocked(s, w)
    ensures !TP.AllExited(s.db)
  {
    if !Dozes(s, w) {
      var v: nat :| RunsCommand(s, v) || AboutToRun(s, v);
      assert !s.db.workers[v].Exited?;
    }
  }

  lemma BlockedOn(s: Sys, l: Label, w: nat)
    requires Inv(s) && Own(l) && Enabled(s, l) && Blocked(s, w)
    ensures Blocked(Next(s, l), w)
  {
    if Dozes(s, w) {
      DozesOn(s, l, w);
    } else {
      OwnStuck(s, l);
    }
  }

  lemma {:induction false} NeverJoins(s: Sys, ls: seq<Label>, t: Sys, w: nat)
    requires Inv(s) && Run(s, ls, t) && Blocked(s, w) && forall i :: 0 <= i < |ls| ==> Own(ls[i])
    ensures !TP.AllExited(t.db)
    decreases |ls|
  {
    if ls == [] {
      BlockedNow(s, w);
    } else {
      assert Own(ls[0]);
      assert forall i :: 0 <= i < |ls[1..]| ==> ls[1..][i] == ls[i + 1];
      InvStep(s, ls[0]);
      BlockedOn(s, ls[0], w);
      NeverJoins(Next(s, ls[0]), ls[1..], t, w);
    }
  }

  lemma Woken(s: Sys)
    requires s.db.done
    ensures var n := Next(s, Tear(WakeAllDb));
      && n.db.done && Live(n) == Live(s) && (Pending(n) <==> Pending(s))
      && forall w: nat :: Dozes(n, w) <==> w < |s.db.workers| && s.db.workers[w].Parking?
  {
    var n := Next(s, Tear(WakeAllDb));
    SumSame(HoldsAny, s.db.workers, n.db.workers);
    forall w: nat
      ensures RunsCommand(n, w) <==> RunsCommand(s, w)
      ensures AboutToRun(n, w) <==> AboutToRun(s, w)
    {
    }
  }

  // The destructor's join, exactly. After its notify_all the database workers can all
  // exit by their own steps if and only if none of them was between a false predicate
  // and its wait, and a connection is left or no worker has a command to finish.
  lemma DestructorJoinsIff(s: Sys)
    requires Reachable(s) && s.db.done
    ensures (exists ls, t :: JoinsBy(Next(s, Tear(WakeAllDb)), ls, t)) <==>
      && (forall w :: 0 <= w < |s.db.workers| ==> !s.db.workers[w].Parking?)
      && (Live(s) >= 1 || forall w: nat :: !RunsCommand(s, w) && !AboutToRun(s, w))
  {
    ReachableInv(s);
    var n := Next(s, Tear(WakeAllDb));
    InvStep(s, Tear(WakeAllDb));
    Woken(s);
    if Joinable(n) {
      var ls, t := OwnRun(n, MeasureOf(n));
    } else {
      var w: nat := 0;
      if v: nat :| Dozes(n, v) {
        w := v;
      }
      assert Blocked(n, w);
      forall ls, t | Run(n, ls, t) && (forall i :: 0 <= i < |ls| ==> Own(ls[i])) ensures !TP.AllExited(t.db) {
        NeverJoins(n, ls, t, w);
      }
    }
  }

  // ---- A command without a connection ----

  // The pool is not torn while a worker runs something.
  lemma NotTorn(s: Sys, w: nat)
    requires Inv(s) && RunsCommand(s, w)
    ensures !s.torn
  {
    assert !s.db.workers[w].Exited?;
  }

  lemma TearSpins(s: Sys, td: Teardown, w: nat)
    requires CanTear(s, td) && !s.torn && Live(s) == 0 && RunsCommand(s, w)
    ensures Live(Torn(s, td)) == 0 && RunsCommand(Torn(s, td), w)
  {
    assert !s.db.workers[w].Exited?;
    SumSame(HoldsAny, s.db.workers, Torn(s, td).db.workers);
  }

  lemma LocalRuns(s: Sys, where: Which, k: TP.Label<Job>, w: nat)
    requires Enabled(s, Local(where, k)) && RunsCommand(s, w)
    ensures RunsCommand(Next(s, Local(where, k)), w)
  {
    if where == Db {
      InternalEffect(s.db, k);
    }
  }

  lemma LocalSpins(s: Sys, where: Which, k: TP.Label<Job>, w: nat)
    requires Inv(s) && Enabled(s, Local(where, k)) && Live(s) == 0 && RunsCommand(s, w)
    ensures Live(Next(s, Local(where, k))) == 0 && RunsCommand(Next(s, Local(where, k)), w)
  {
    LiveStep(s, Local(where, k));
    LocalRuns(s, where, k, w);
  }

  lemma TalkSpins(s: Sys, c: nat, say: Say, w: nat)
    requires CanSay(s, c, say) && Live(s) == 0 && RunsCommand(s, w)
    ensures Live(Said(s, c, say)) == 0 && RunsCommand(Said(s, c, say), w)
  {
    SayWorkers(s, c, say, HoldsAny);
  }

  lemma SpinsOn(s: Sys, l: Label, w: nat)
    requires Inv(s) && Enabled(s, l) && Live(s) == 0 && RunsCommand(s, w)
    ensures Live(Next(s, l)) == 0 && RunsCommand(Next(s, l), w)
  {
    NotTorn(s, w);
    Polls(s, w);
    match l {
      case Local(where, k) => LocalSpins(s, where, k, w);
      case Spin(_) =>
      case Work(v, act) => Polls(s, v);
      case WaitOver(_, _) => LiveStep(s, l);
      case Talk(c, say) => TalkSpins(s, c, say, w);
      case Tear(td) => TearSpins(s, td, w);
    }
  }

  // Whatever anybody does, new work and spurious wake-ups included, a command begun
  // without a connection keeps its worker, and the pool is never destroyed.
  lemma {:induction false} SpinsForever(s: Sys, ls: seq<Label>, t: Sys, w: nat)
    requires Inv(s) && Run(s, ls, t) && Live(s) == 0 && RunsCommand(s, w)
    ensures RunsCommand(t, w) && !t.torn
    decreases |ls|
  {
    if ls != [] {
      SpinsOn(s, ls[0], w);
      InvStep(s, ls[0]);
      SpinsForever(Next(s, ls[0]), ls[1..], t, w);
    } else {
      NotTorn(s, w);
    }
  }

  ghost predicate NeverTorn(s: Sys) {
    forall ls, t :: Run(s, ls, t) ==> !t.torn
  }

  // One worker, no connection, one command just pulled.
  function Pulled(text: string): Sys {
    var s := Start(false, 1, 1, 0, 1);
    s.(db := s.db.(workers := [TP.Running(Command(0, text, Polling))], pushed := 1), texts := [text])
  }

  lemma PulledReached(text: string, rest: seq<Label>, t: Sys)
    requires Run(Pulled(text), rest, t)
    ensures Reachable(t)
  {
    var s := Start(false, 1, 1, 0, 1);
    var called := s.(db := TP.Pushed(s.db, true, Command(0, text, Polling)).(notifiers := 0), texts := [] + [text]);
    assert called.db.tasks[1..] == [];
    assert called.db.workers[0 := TP.Running(Command(0, text, Polling))] == Pulled(text).db.workers;
    assert called.(db := called.db.(workers := called.db.workers[0 := TP.Running(Command(0, text, Polling))],
                                    tasks := [])) == Pulled(text);
    var ls := PullsFront(called, 0, rest, t);
    ls := PushesFront(s, text, ls, t);
    assert Reaches(false, 1, 1, 0, 1, ls, t);
  }

  lemma DestructorBegins(text: string) returns (s: Sys)
    ensures Reachable(s) && s.db.done && s.texts == [text]
    ensures s.db.workers == Pulled(text).db.workers && s.conns == []
  {
    var p := Pulled(text);
    var stopped := Next(p, Tear(StopDb));
    s := Next(stopped, Tear(WakeAllDb));
    assert s.db.workers == p.db.workers;
    StepFirst(stopped, Tear(WakeAllDb), s, [], s);
    StepFirst(p, Tear(StopDb), stopped, [Tear(WakeAllDb)], s);
    PulledReached(text, [Tear(StopDb)] + [Tear(WakeAllDb)], s);
  }

  // The destructor that begins then: nobody sleeps or is about to, and still its join
  // never returns, whatever the command.
  lemma NoConnectionNoJoin(text: string)
    ensures exists s: Sys :: Reachable(s) && s.db.done && s.texts == [text]
              && (forall w: nat :: !Dozes(s, w)) && NeverTorn(s)
  {
    var s := DestructorBegins(text);
    ReachableInv(s);
    SumZero(HoldsAny, s.db.workers);
    assert RunsCommand(s, 0);
    forall ls, t | Run(s, ls, t) ensures !t.torn {
      SpinsForever(s, ls, t, 0);
    }
  }
}
