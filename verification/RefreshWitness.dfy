// The runs that RefreshRuns speaks of exist: for every list of songs and every command
// strings, one worker with one connection carries the refresh out, and another run gives
// up after the truncation.

module RefreshWitness {
  import opened Sums
  import opened Executor
  import opened ExecutorSafety
  import opened RefreshRuns
  import SI = SongIndex
  import TP = ThreadPool

  ghost predicate Leads(k: Task, pc: Pc, s: Sys, end: Pc, t: Sys) {
    exists ls :: ScriptRun(k, pc, s, ls, end, t)
  }

  lemma {:induction false} Joins(k: Task, pc: Pc, s: Sys, a: seq<Label>, mid: Pc, m: Sys,
                                 b: seq<Label>, end: Pc, t: Sys)
    requires ScriptRun(k, pc, s, a, mid, m) && ScriptRun(k, mid, m, b, end, t)
    ensures ScriptRun(k, pc, s, a + b, end, t)
    decreases |a|
  {
    if a == [] {
      assert a + b == b;
    } else {
      Joins(k, NextPc(k, pc, s, a[0]), Next(s, a[0]), a[1..], mid, m, b, end, t);
      assert (a + b)[0] == a[0] && (a + b)[1..] == a[1..] + b;
    }
  }

  lemma Then(k: Task, pc: Pc, s: Sys, mid: Pc, m: Sys, end: Pc, t: Sys)
    requires Leads(k, pc, s, mid, m) && Leads(k, mid, m, end, t)
    ensures Leads(k, pc, s, end, t)
  {
    var a :| ScriptRun(k, pc, s, a, mid, m);
    var b :| ScriptRun(k, mid, m, b, end, t);
    Joins(k, pc, s, a, mid, m, b, end, t);
  }

  lemma One(k: Task, pc: Pc, s: Sys, l: Label)
    requires Enabled(s, l) && Scripted(k, pc, s, l)
    ensures Leads(k, pc, s, NextPc(k, pc, s, l), Next(s, l))
  {
    var mid, m := NextPc(k, pc, s, l), Next(s, l);
    assert ScriptRun(k, mid, m, [], mid, m);
    assert [l][1..] == [];
    assert ScriptRun(k, pc, s, [l], mid, m);
  }

  // One caller, one free worker, one connection; n commands, all answered.
  ghost predicate Rest(s: Sys, n: nat) {
    && !s.shared && !s.torn && s.callers == [Idle] && s.conns == [0]
    && Calm(s.db) && s.db.workers == [TP.Loop] && s.db.tasks == []
    && Calm(s.helper) && s.helper.workers == []
    && Answered(s, n)
  }

  predicate Calm(p: TP.Pool<Job>) {
    p.owner.None? && !p.done && p.notifiers == 0
  }

  ghost predicate Answered(s: Sys, n: nat) {
    |s.texts| == n && forall id: nat :: id < n ==> id in s.promises
  }

  // The caller submits a command, and its waiting task if it has one.
  lemma Submits(k: Task, pc: Pc, s: Sys, n: nat, text: string, handled: bool) returns (t: Sys)
    requires Rest(s, n) && Scripted(k, pc, s, Talk(0, Call(text, true, handled)))
    ensures Leads(k, pc, s, NextPc(k, pc, s, Talk(0, Call(text, true, handled))), t)
    ensures t.db == s.db.(tasks := [TP.Entry(s.db.pushed, true, Command(n, text, Polling))], pushed := s.db.pushed + 1)
    ensures t == s.(db := t.db, texts := s.texts + [text], helper := t.helper)
    ensures Calm(t.helper) && t.helper.workers == []
  {
    var call := Talk(0, Call(text, true, handled));
    var a := Next(s, call);
    var next := NextPc(k, pc, s, call);
    One(k, pc, s, call);
    var notify := Talk(0, CallNotify(None));
    var b := Next(a, notify);
    assert b.callers == [if handled then Owing(n) else Idle];
    One(k, next, a, notify);
    Then(k, pc, s, next, a, next, b);
    t := b;
    if handled {
      t := SubmitsWaiter(k, next, b);
      Then(k, pc, s, next, b, next, t);
    }
  }

  lemma SubmitsWaiter(k: Task, pc: Pc, s: Sys) returns (t: Sys)
    requires !s.shared && |s.callers| == 1 && s.callers[0].Owing? && Calm(s.helper) && s.helper.workers == []
    ensures Leads(k, pc, s, pc, t)
    ensures t == s.(callers := [Idle], helper := t.helper) && Calm(t.helper) && t.helper.workers == []
  {
    var push := Talk(0, PushWaiter);
    var a := Next(s, push);
    One(k, pc, s, push);
    var notify := Talk(0, WaiterNotify(None));
    t := Next(a, notify);
    One(k, pc, a, notify);
    Then(k, pc, s, pc, a, pc, t);
  }

  lemma Moves(k: Task, pc: Pc, s: Sys, l: TP.Label<Job>, worker: TP.Worker<Job>, owner: Option<nat>) returns (t: Sys)
    requires Internal(l) && TP.Enabled(s.db, l) && |s.db.workers| == 1
    requires TP.Next(s.db, l).workers == s.db.workers[0 := worker] && TP.Next(s.db, l).owner == owner
    requires !l.Pull?
    ensures Leads(k, pc, s, pc, t) && t == s.(db := s.db.(workers := [worker], owner := owner))
  {
    One(k, pc, s, Local(Db, l));
    t := Next(s, Local(Db, l));
    assert s.db.workers[0 := worker] == [worker];
  }

  // The worker takes the one command from the deque.
  lemma Pulls(k: Task, pc: Pc, s: Sys) returns (t: Sys)
    requires s.db.workers == [TP.Loop] && s.db.owner.None? && !s.db.done && |s.db.tasks| == 1
    ensures Leads(k, pc, s, pc, t)
    ensures t == s.(db := s.db.(workers := [TP.Running(s.db.tasks[0].job)], tasks := []))
  {
    var a := Moves(k, pc, s, TP.CheckDone(0), TP.Locking, None);
    var b := Moves(k, pc, a, TP.Acquire(0), TP.Testing, Some(0));
    Then(k, pc, s, pc, a, pc, b);
    var c := Moves(k, pc, b, TP.Test(0), TP.Passed, Some(0));
    Then(k, pc, s, pc, b, pc, c);
    var d := Moves(k, pc, c, TP.Recheck(0), TP.Pulling, Some(0));
    Then(k, pc, s, pc, c, pc, d);
    One(k, pc, d, Local(Db, TP.Pull(0)));
    t := Next(d, Local(Db, TP.Pull(0)));
    Then(k, pc, s, pc, d, pc, t);
    assert s.db.tasks[1..] == [];
  }

  lemma Works(k: Task, pc: Pc, s: Sys, act: Act, stage: Stage) returns (t: Sys)
    requires CanWork(s, 0, act) && |s.db.workers| == 1 && !act.GiveBack?
    requires Worked(s, 0, act).db == Staged(s, 0, stage).db
    requires act.Exec? && s.db.workers[0].job.id > k.base ==> act.outcome == 0
    ensures Leads(k, pc, s, pc, t)
    ensures t == Worked(s, 0, act).(db := s.db.(workers := [TP.Running(s.db.workers[0].job.(stage := stage))]))
  {
    One(k, pc, s, Work(0, act));
    t := Worked(s, 0, act);
  }

  // The worker executes its command with this outcome.
  lemma Executes(k: Task, pc: Pc, s: Sys, outcome: int) returns (t: Sys)
    requires RunsCommand(s, 0) && |s.db.workers| == 1 && StageOf(s, 0).Polling? && s.conns == [0]
    requires s.db.workers[0].job.id > k.base ==> outcome == 0
    ensures var job := s.db.workers[0].job;
      t == s.(db := s.db.(workers := [TP.Loop]), promises := s.promises[job.id := Answer(job.text, outcome)],
              completed := t.completed)
    ensures Leads(k, pc, s, pc, t)
  {
    var a := Works(k, pc, s, Take, Checking(0));
    var b := Works(k, pc, a, StatusOk, Holding(0));
    Then(k, pc, s, pc, a, pc, b);
    var c := Works(k, pc, b, Exec(outcome), Returning(0));
    Then(k, pc, s, pc, b, pc, c);
    One(k, pc, c, Work(0, GiveBack));
    t := Worked(c, 0, GiveBack);
    Then(k, pc, s, pc, c, pc, t);
    assert [0] + s.conns[1..] == s.conns;
  }

  // One command from its submission to its answer.
  lemma CommandDone(k: Task, pc: Pc, s: Sys, n: nat, text: string, handled: bool, outcome: int) returns (t: Sys)
    requires Rest(s, n) && Scripted(k, pc, s, Talk(0, Call(text, true, handled))) && (n > k.base ==> outcome == 0)
    ensures Leads(k, pc, s, NextPc(k, pc, s, Talk(0, Call(text, true, handled))), t)
    ensures Rest(t, n + 1) && t.promises == s.promises[n := Answer(text, outcome)]
  {
    var next := NextPc(k, pc, s, Talk(0, Call(text, true, handled)));
    var a := Submits(k, pc, s, n, text, handled);
    var b := Pulls(k, next, a);
    Then(k, pc, s, next, a, next, b);
    t := Executes(k, next, b, outcome);
    Then(k, pc, s, next, b, next, t);
  }

  // The truncation, and what the caller does with its outcome.
  lemma Truncates(k: Task, s: Sys, outcome: int) returns (t: Sys)
    requires Rest(s, k.base) && k.c == 0
    ensures Leads(k, Before, s, if outcome == 0 then Adding(0) else GaveUp, t) && Rest(t, k.base + 1)
  {
    var a := CommandDone(k, Before, s, k.base, k.script(0), false, outcome);
    var get := Talk(0, Get(k.base));
    var b := Next(a, get);
    One(k, Waiting, a, get);
    Then(k, Before, s, Waiting, a, Waiting, b);
    t := Next(b, Talk(0, Got));
    One(k, Waiting, b, Talk(0, Got));
    Then(k, Before, s, Waiting, b, if outcome == 0 then Adding(0) else GaveUp, t);
  }

  lemma {:induction false} Adds(k: Task, s: Sys, i: nat) returns (t: Sys)
    requires i <= |k.songs| && Rest(s, k.base + 1 + i) && k.c == 0
    ensures Leads(k, Adding(i), s, Adding(|k.songs|), t) && Rest(t, k.base + 1 + |k.songs|)
    decreases |k.songs| - i
  {
    if i == |k.songs| {
      t := s;
      assert ScriptRun(k, Adding(i), s, [], Adding(i), s);
    } else {
      var m := CommandDone(k, Adding(i), s, k.base + 1 + i, k.script(i + 1), true, 0);
      t := Adds(k, m, i + 1);
      Then(k, Adding(i), s, Adding(i + 1), m, Adding(|k.songs|), t);
    }
  }

  lemma AtRest() returns (s: Sys)
    ensures s == Start(false, 1, 0, 1, 1) && Rest(s, 0) && Reachable(s)
  {
    s := Start(false, 1, 0, 1, 1);
    assert Numbers(1) == Numbers(0) + [0] == [0];
    assert Reaches(false, 1, 0, 1, 1, [], s);
  }

  // Some run carries the refresh out, with every command answered.
  lemma RefreshCarriedOut(songs: seq<SI.Song>, script: nat -> string) returns (k: Task, ls: seq<Label>, t: Sys)
    ensures k == Task(0, 0, songs, script) && Begins(k, Start(false, 1, 0, 1, 1))
    ensures ScriptRun(k, Before, Start(false, 1, 0, 1, 1), ls, Adding(|songs|), t)
    ensures |t.texts| == 1 + |songs| && forall id: nat :: id < |t.texts| ==> id in t.promises
  {
    var s := AtRest();
    k := Task(0, 0, songs, script);
    var m := Truncates(k, s, 0);
    t := Adds(k, m, 0);
    Then(k, Before, s, Adding(0), m, Adding(|songs|), t);
    ls :| ScriptRun(k, Before, s, ls, Adding(|songs|), t);
  }

  // Some run gives up, for every outcome that tells of a failure.
  lemma RefreshGivenUp(songs: seq<SI.Song>, script: nat -> string, outcome: int)
      returns (k: Task, ls: seq<Label>, t: Sys)
    requires outcome != 0
    ensures k == Task(0, 0, songs, script) && Begins(k, Start(false, 1, 0, 1, 1))
    ensures ScriptRun(k, Before, Start(false, 1, 0, 1, 1), ls, GaveUp, t)
  {
    var s := AtRest();
    k := Task(0, 0, songs, script);
    t := Truncates(k, s, outcome);
    ls :| ScriptRun(k, Before, s, ls, GaveUp, t);
  }
}
