// A refresh carried out by the executor: the runs in which one caller submits the
// truncation, waits for it and then submits the adds are runs of the refresh of
// SongIndex, whichever workers take the commands and in whatever order.

module RefreshRuns {
  import opened Sums
  import opened Executor
  import opened ExecutorSafety
  import SI = SongIndex
  import Tables

  // Where the refreshing caller stands in its own program. GaveUp is the return after a
  // truncation that failed.
  datatype Pc = Before | Waiting | Adding(i: nat) | GaveUp

  // One refresh: its caller, the number of commands submitted before it, the songs, and
  // the command strings: script(0) truncates, script(i + 1) adds song i.
  datatype Task = Task(c: nat, base: nat, songs: seq<SI.Song>, script: nat -> string)

  predicate Succeeded(a: Answer) {
    a.outcome == 0
  }

  // What the run is made of: the caller follows its program, nobody else submits
  // commands, no add fails, nothing is destroyed. All else is free.
  predicate Scripted(k: Task, pc: Pc, s: Sys, l: Label)
    requires Enabled(s, l)
  {
    match l
    case Talk(d, Call(text, _, _)) =>
      d == k.c && ((pc.Before? && text == k.script(0)) ||
                   (pc.Adding? && pc.i < |k.songs| && text == k.script(pc.i + 1)))
    case Talk(d, Get(id)) => d == k.c ==> pc.Waiting? && id == k.base
    case Work(w, Exec(outcome)) => s.db.workers[w].job.id > k.base ==> outcome == 0
    case Tear(_) => false
    case _ => true
  }

  function NextPc(k: Task, pc: Pc, s: Sys, l: Label): Pc {
    match l
    case Talk(_, Call(_, _, _)) => if pc.Adding? then Adding(pc.i + 1) else Waiting
    case Talk(d, Got) =>
      if d != k.c || !pc.Waiting? then pc
      else if k.base in s.promises && Succeeded(s.promises[k.base]) then Adding(0)
      else GaveUp
    case _ => pc
  }

  ghost predicate ScriptRun(k: Task, pc: Pc, s: Sys, ls: seq<Label>, end: Pc, t: Sys)
    decreases |ls|
  {
    if ls == [] then t == s && end == pc
    else Enabled(s, ls[0]) && Scripted(k, pc, s, ls[0])
         && ScriptRun(k, NextPc(k, pc, s, ls[0]), Next(s, ls[0]), ls[1..], end, t)
  }

  // ---- The refresh behind it ----

  // How often a song is among the first i whose add has not been executed; done holds
  // the commands that have.
  function Open(done: set<nat>, base: nat, songs: seq<SI.Song>, i: nat, d: SI.Song): nat
    requires i <= |songs|
  {
    if i == 0 then 0
    else Open(done, base, songs, i - 1, d) + if base + i !in done && songs[i - 1] == d then 1 else 0
  }

  ghost predicate IsOpen(queued: multiset<SI.Song>, done: set<nat>, base: nat, songs: seq<SI.Song>, i: nat)
    requires i <= |songs|
  {
    forall d :: queued[d] == Open(done, base, songs, i, d)
  }

  ghost predicate Frame(k: Task, pc: Pc, s: Sys) {
    && Inv(s) && !s.torn && k.c < |s.callers|
    && (s.callers[k.c].Awaiting? ==> pc.Waiting? && s.callers[k.c].id == k.base)
    && (forall id: nat :: id < k.base ==> id in s.promises)
    && (forall id: nat :: k.base <= id < |s.texts| ==> s.texts[id] == k.script(id - k.base))
  }

  // The refresh has come as far as the executor and the caller have.
  ghost predicate Matches(k: Task, pc: Pc, promises: map<nat, Answer>, submitted: nat, r: SI.Refresh) {
    match pc
    case Before => submitted == k.base && r.phase == SI.Begun && r.queued == multiset{}
    case Waiting =>
      && submitted == k.base + 1 && r.queued == multiset{}
      && r.phase == (if k.base !in promises then SI.Truncating(false)
                     else if Succeeded(promises[k.base]) then SI.Truncating(true) else SI.Failed)
    case Adding(i) =>
      && i <= |k.songs| && submitted == k.base + 1 + i && k.base in promises
      && r.phase == SI.Adding(i) && IsOpen(r.queued, promises.Keys, k.base, k.songs, i)
    case GaveUp =>
      submitted == k.base + 1 && k.base in promises && r.phase == SI.Failed && r.queued == multiset{}
  }

  ghost predicate Tracks(k: Task, pc: Pc, s: Sys, r: SI.Refresh) {
    Frame(k, pc, s) && Matches(k, pc, s.promises, |s.texts|, r)
  }

  lemma {:induction false} OpenLater(done: set<nat>, base: nat, songs: seq<SI.Song>, i: nat, id: nat, d: SI.Song)
    requires i <= |songs| && id > base + i
    ensures Open(done + {id}, base, songs, i, d) == Open(done, base, songs, i, d)
  {
    if i > 0 {
      OpenLater(done, base, songs, i - 1, id, d);
    }
  }

  // The answer to an add takes its song off the open ones.
  lemma {:induction false} OpenDone(done: set<nat>, base: nat, songs: seq<SI.Song>, i: nat, id: nat, d: SI.Song)
    requires i <= |songs| && base < id <= base + i && id !in done
    ensures Open(done, base, songs, i, d)
            == Open(done + {id}, base, songs, i, d) + if songs[id - base - 1] == d then 1 else 0
  {
    if id == base + i {
      OpenLater(done, base, songs, i - 1, id, d);
    } else {
      OpenDone(done, base, songs, i - 1, id, d);
    }
  }

  lemma AddDone(queued: multiset<SI.Song>, done: set<nat>, base: nat, songs: seq<SI.Song>, i: nat, id: nat)
    requires i <= |songs| && base < id <= base + i && id !in done && IsOpen(queued, done, base, songs, i)
    ensures songs[id - base - 1] in queued
    ensures IsOpen(queued - multiset{songs[id - base - 1]}, done + {id}, base, songs, i)
  {
    var song := songs[id - base - 1];
    OpenDone(done, base, songs, i, id, song);
    forall d ensures (queued - multiset{song})[d] == Open(done + {id}, base, songs, i, d) {
      OpenDone(done, base, songs, i, id, d);
    }
  }

  // The step of the refresh that a step of the executor stands for, if any.
  function StepOf(k: Task, pc: Pc, s: Sys, l: Label): Option<SI.RefreshStep>
    requires Enabled(s, l)
  {
    match l
    case Talk(_, Call(_, _, _)) => Some(if pc.Adding? then SI.QueueAdd else SI.QueueTruncate)
    case Talk(d, Got) =>
      if d == k.c && pc.Waiting? && NextPc(k, pc, s, l) == Adding(0) then Some(SI.Resume) else None
    case Work(w, Exec(outcome)) => ExecOf(k, s.db.workers[w].job.id, outcome)
    case _ => None
  }

  function ExecOf(k: Task, id: nat, outcome: int): Option<SI.RefreshStep> {
    if id == k.base then Some(if outcome == 0 then SI.RunTruncate else SI.TruncateFails)
    else if k.base < id <= k.base + |k.songs| then Some(SI.RunAdd(k.songs[id - k.base - 1]))
    else None
  }

  ghost function StepsOf(k: Task, pc: Pc, s: Sys, ls: seq<Label>, end: Pc, t: Sys): seq<SI.RefreshStep>
    requires ScriptRun(k, pc, s, ls, end, t)
    decreases |ls|
  {
    if ls == [] then []
    else
      var o := StepOf(k, pc, s, ls[0]);
      var rest := StepsOf(k, NextPc(k, pc, s, ls[0]), Next(s, ls[0]), ls[1..], end, t);
      if o.Some? then [o.value] + rest else rest
  }

  ghost predicate StepsTo(r: SI.Refresh, songs: seq<SI.Song>, o: Option<SI.RefreshStep>, q: SI.Refresh) {
    if o.None? then q == r else SI.CanRefresh(r, songs, o.value) && q == SI.Refreshed(r, songs, o.value)
  }

  // A command is executed: the truncation once, before any add, or an add that is queued.
  lemma ExecMatches(k: Task, pc: Pc, promises: map<nat, Answer>, submitted: nat, r: SI.Refresh, id: nat, a: Answer)
      returns (o: Option<SI.RefreshStep>, q: SI.Refresh)
    requires Matches(k, pc, promises, submitted, r) && k.base <= id < submitted && id !in promises
    ensures StepsTo(r, k.songs, o, q) && Matches(k, pc, promises[id := a], submitted, q)
    ensures o == ExecOf(k, id, a.outcome)
  {
    if id == k.base {
      o := Some(if Succeeded(a) then SI.RunTruncate else SI.TruncateFails);
      q := SI.Refreshed(r, k.songs, o.value);
    } else {
      AddDone(r.queued, promises.Keys, k.base, k.songs, pc.i, id);
      assert promises[id := a].Keys == promises.Keys + {id};
      o := Some(SI.RunAdd(k.songs[id - k.base - 1]));
      q := SI.Refreshed(r, k.songs, o.value);
    }
  }

  lemma CallMatches(k: Task, pc: Pc, promises: map<nat, Answer>, submitted: nat, r: SI.Refresh)
      returns (o: Option<SI.RefreshStep>, q: SI.Refresh)
    requires Matches(k, pc, promises, submitted, r) && submitted !in promises
    requires pc.Before? || (pc.Adding? && pc.i < |k.songs|)
    ensures StepsTo(r, k.songs, o, q) && o == Some(if pc.Adding? then SI.QueueAdd else SI.QueueTruncate)
    ensures Matches(k, if pc.Adding? then Adding(pc.i + 1) else Waiting, promises, submitted + 1, q)
  {
    o := Some(if pc.Adding? then SI.QueueAdd else SI.QueueTruncate);
    q := SI.Refreshed(r, k.songs, o.value);
  }

  lemma GotMatches(k: Task, promises: map<nat, Answer>, submitted: nat, r: SI.Refresh)
      returns (o: Option<SI.RefreshStep>, q: SI.Refresh)
    requires Matches(k, Waiting, promises, submitted, r) && k.base in promises
    ensures StepsTo(r, k.songs, o, q) && o == if Succeeded(promises[k.base]) then Some(SI.Resume) else None
    ensures Matches(k, if Succeeded(promises[k.base]) then Adding(0) else GaveUp, promises, submitted, q)
  {
    if Succeeded(promises[k.base]) {
      o := Some(SI.Resume);
      q := SI.Refreshed(r, k.songs, SI.Resume);
    } else {
      o, q := None, r;
    }
  }

  // ---- What the executor's steps leave alone ----

  lemma ExecFrame(k: Task, pc: Pc, s: Sys, w: nat, outcome: int)
    requires Frame(k, pc, s) && CanWork(s, w, Exec(outcome))
    ensures Frame(k, pc, Worked(s, w, Exec(outcome)))
    ensures k.base <= s.db.workers[w].job.id < |s.texts| && s.db.workers[w].job.id !in s.promises
  {
    InvStep(s, Work(w, Exec(outcome)));
    PromiseFresh(s, w);
    assert Runs(s.db, w);
  }

  // The steps that neither submit, nor execute, nor end the caller's wait.
  predicate Silent(k: Task, l: Label) {
    match l
    case Talk(d, say) => !say.Call? && (say.Got? ==> d != k.c)
    case Work(_, act) => !act.Exec?
    case Tear(_) => false
    case _ => true
  }

  lemma SilentWork(s: Sys, w: nat, act: Act)
    requires CanWork(s, w, act) && !act.Exec?
    ensures var t := Worked(s, w, act);
      t.promises == s.promises && t.texts == s.texts && t.callers == s.callers && t.torn == s.torn
  {
  }

  lemma SilentTalk(k: Task, s: Sys, d: nat, say: Say)
    requires CanSay(s, d, say) && Silent(k, Talk(d, say)) && k.c < |s.callers|
    ensures var t := Said(s, d, say);
      && t.promises == s.promises && t.texts == s.texts && t.torn == s.torn && |t.callers| == |s.callers|
      && (t.callers[k.c].Awaiting? ==> t.callers[k.c] == s.callers[k.c] || (d == k.c && say == Get(t.callers[k.c].id)))
  {
  }

  lemma FrameKept(k: Task, pc: Pc, s: Sys, t: Sys)
    requires Frame(k, pc, s) && Inv(t) && t.promises == s.promises && t.texts == s.texts && t.torn == s.torn
    requires |t.callers| == |s.callers|
    requires t.callers[k.c].Awaiting? ==>
      t.callers[k.c] == s.callers[k.c] || (pc.Waiting? && t.callers[k.c].id == k.base)
    ensures Frame(k, pc, t)
  {
  }

  lemma SilentStep(k: Task, s: Sys, l: Label)
    requires Enabled(s, l) && Silent(k, l) && k.c < |s.callers|
    ensures var t := Next(s, l);
      && t.promises == s.promises && t.texts == s.texts && t.torn == s.torn && |t.callers| == |s.callers|
      && (t.callers[k.c].Awaiting? ==>
            t.callers[k.c] == s.callers[k.c] || l == Talk(k.c, Get(t.callers[k.c].id)))
  {
    match l {
      case Work(w, act) => SilentWork(s, w, act);
      case Talk(d, say) => SilentTalk(k, s, d, say);
      case _ =>
    }
  }

  lemma SilentFrame(k: Task, pc: Pc, s: Sys, l: Label)
    requires Frame(k, pc, s) && Enabled(s, l) && Scripted(k, pc, s, l) && Silent(k, l)
    ensures Frame(k, pc, Next(s, l)) && Next(s, l).promises == s.promises && Next(s, l).texts == s.texts
    ensures NextPc(k, pc, s, l) == pc
  {
    InvStep(s, l);
    SilentStep(k, s, l);
    FrameKept(k, pc, s, Next(s, l));
  }

  lemma CallFrame(k: Task, pc: Pc, s: Sys, l: Label)
    requires Frame(k, pc, s) && Enabled(s, l) && Scripted(k, pc, s, l) && l.Talk? && l.say.Call?
    requires |s.texts| == k.base + (if pc.Adding? then pc.i + 1 else 0)
    ensures Frame(k, NextPc(k, pc, s, l), Next(s, l)) && |s.texts| !in s.promises
    ensures Next(s, l).promises == s.promises && |Next(s, l).texts| == |s.texts| + 1
  {
    InvStep(s, l);
  }

  lemma GotFrame(k: Task, pc: Pc, s: Sys)
    requires Frame(k, pc, s) && CanSay(s, k.c, Got)
    ensures pc.Waiting? && k.base in s.promises
    ensures Frame(k, NextPc(k, pc, s, Talk(k.c, Got)), Said(s, k.c, Got))
    ensures Said(s, k.c, Got).promises == s.promises && Said(s, k.c, Got).texts == s.texts
  {
    InvStep(s, Talk(k.c, Got));
  }

  // ---- The simulation ----

  lemma ExecTracks(k: Task, pc: Pc, s: Sys, w: nat, outcome: int, r: SI.Refresh) returns (q: SI.Refresh)
    requires Tracks(k, pc, s, r) && CanWork(s, w, Exec(outcome))
    ensures StepsTo(r, k.songs, ExecOf(k, s.db.workers[w].job.id, outcome), q)
    ensures Tracks(k, pc, Worked(s, w, Exec(outcome)), q)
  {
    ExecFrame(k, pc, s, w, outcome);
    var job := s.db.workers[w].job;
    var o;
    o, q := ExecMatches(k, pc, s.promises, |s.texts|, r, job.id, Answer(job.text, outcome));
  }

  lemma CallTracks(k: Task, pc: Pc, s: Sys, l: Label, r: SI.Refresh) returns (q: SI.Refresh)
    requires Tracks(k, pc, s, r) && Enabled(s, l) && Scripted(k, pc, s, l) && l.Talk? && l.say.Call?
    ensures StepsTo(r, k.songs, StepOf(k, pc, s, l), q) && Tracks(k, NextPc(k, pc, s, l), Next(s, l), q)
  {
    CallFrame(k, pc, s, l);
    var o;
    o, q := CallMatches(k, pc, s.promises, |s.texts|, r);
  }

  lemma GotTracks(k: Task, pc: Pc, s: Sys, r: SI.Refresh) returns (q: SI.Refresh)
    requires Tracks(k, pc, s, r) && CanSay(s, k.c, Got)
    ensures var l := Talk(k.c, Got);
      StepsTo(r, k.songs, StepOf(k, pc, s, l), q) && Tracks(k, NextPc(k, pc, s, l), Next(s, l), q)
  {
    GotFrame(k, pc, s);
    var o;
    o, q := GotMatches(k, s.promises, |s.texts|, r);
  }

  lemma StepTracks(k: Task, pc: Pc, s: Sys, l: Label, r: SI.Refresh) returns (q: SI.Refresh)
    requires Tracks(k, pc, s, r) && Enabled(s, l) && Scripted(k, pc, s, l)
    ensures StepsTo(r, k.songs, StepOf(k, pc, s, l), q) && Tracks(k, NextPc(k, pc, s, l), Next(s, l), q)
  {
    if l.Work? && l.act.Exec? {
      q := ExecTracks(k, pc, s, l.w, l.act.outcome, r);
    } else if l.Talk? && l.say.Call? {
      q := CallTracks(k, pc, s, l, r);
    } else if l == Talk(k.c, Got) {
      q := GotTracks(k, pc, s, r);
    } else {
      SilentFrame(k, pc, s, l);
      q := r;
    }
  }

  lemma RefreshFirst(r: SI.Refresh, songs: seq<SI.Song>, o: Option<SI.RefreshStep>, q: SI.Refresh,
                     steps: seq<SI.RefreshStep>, t: SI.Refresh)
    requires StepsTo(r, songs, o, q) && SI.RefreshRun(q, songs, steps, t)
    ensures SI.RefreshRun(r, songs, if o.Some? then [o.value] + steps else steps, t)
  {
    if o.Some? {
      assert ([o.value] + steps)[1..] == steps;
    }
  }

  // Every such run of the executor is a run of the refresh, step by step.
  lemma {:induction false} RunTracks(k: Task, pc: Pc, s: Sys, ls: seq<Label>, end: Pc, t: Sys, r: SI.Refresh)
      returns (q: SI.Refresh)
    requires Tracks(k, pc, s, r) && ScriptRun(k, pc, s, ls, end, t)
    ensures SI.RefreshRun(r, k.songs, StepsOf(k, pc, s, ls, end, t), q) && Tracks(k, end, t, q)
    decreases |ls|
  {
    if ls == [] {
      q := r;
    } else {
      var m := StepTracks(k, pc, s, ls[0], r);
      var pc2, s2 := NextPc(k, pc, s, ls[0]), Next(s, ls[0]);
      q := RunTracks(k, pc2, s2, ls[1..], end, t, m);
      RefreshFirst(r, k.songs, StepOf(k, pc, s, ls[0]), m, StepsOf(k, pc2, s2, ls[1..], end, t), q);
    }
  }

  // The refresh begins when every earlier command has been answered.
  ghost predicate Begins(k: Task, s: Sys) {
    && Reachable(s) && !s.torn && k.c < |s.callers| && s.callers[k.c].Idle?
    && k.base == |s.texts| && forall id: nat :: id < k.base ==> id in s.promises
  }

  lemma {:induction false} NothingOpen(done: set<nat>, base: nat, songs: seq<SI.Song>, i: nat, d: SI.Song)
    requires i <= |songs| && forall id: nat :: id <= base + i ==> id in done
    ensures Open(done, base, songs, i, d) == 0
  {
    if i > 0 {
      NothingOpen(done, base, songs, i - 1, d);
    }
  }

  // Command i of the refresh has been executed, as what the caller meant it to be.
  predicate Own(k: Task, t: Sys, i: nat) {
    k.base + i in t.promises && t.promises[k.base + i].text == k.script(i)
  }

  lemma AnswersOwn(k: Task, pc: Pc, t: Sys, i: nat)
    requires Frame(k, pc, t) && k.base + i < |t.texts| && k.base + i in t.promises
    ensures Own(k, t, i)
  {
    var id := k.base + i;
    assert t.texts[id] == k.script(id - k.base);
  }

  lemma AllAdded(k: Task, t: Sys, q: SI.Refresh)
    requires Tracks(k, Adding(|k.songs|), t, q) && forall id: nat :: id < |t.texts| ==> id in t.promises
    ensures q.phase == SI.Adding(|k.songs|) && q.queued == multiset{} && |t.texts| == k.base + 1 + |k.songs|
  {
    forall d ensures q.queued[d] == 0 {
      NothingOpen(t.promises.Keys, k.base, k.songs, |k.songs|, d);
    }
  }

  lemma AllOwn(k: Task, t: Sys, q: SI.Refresh)
    requires Tracks(k, Adding(|k.songs|), t, q) && forall id: nat :: id < |t.texts| ==> id in t.promises
    ensures forall i: nat :: i <= |k.songs| ==> Own(k, t, i)
  {
    forall i: nat | i <= |k.songs| ensures Own(k, t, i) {
      AnswersOwn(k, Adding(|k.songs|), t, i);
    }
  }

  lemma TableExact(table: Tables.Table<SI.Song>, songs: seq<SI.Song>, steps: seq<SI.RefreshStep>, q: SI.Refresh)
    requires forall i, j :: 0 <= i < j < |songs| ==> songs[i].name != songs[j].name
    requires SI.RefreshRun(SI.Refresh(SI.Begun, multiset{}, table), songs, steps, q)
    requires q.phase == SI.Adding(|songs|) && q.queued == multiset{}
    ensures multiset(Tables.Data(q.table.rows)) == multiset(songs) && Tables.Contiguous(q.table)
    ensures forall i :: 0 <= i < |songs| ==> Sum(SI.OfName(songs[i].name), q.table.rows) == 1
  {
    SI.RefreshExact(table, songs, steps, q);
  }

  lemma BeginsTracks(k: Task, s: Sys, ls: seq<Label>, end: Pc, t: Sys, table: Tables.Table<SI.Song>)
      returns (q: SI.Refresh)
    requires Begins(k, s) && ScriptRun(k, Before, s, ls, end, t)
    ensures SI.RefreshRun(SI.Refresh(SI.Begun, multiset{}, table), k.songs, StepsOf(k, Before, s, ls, end, t), q)
    ensures Tracks(k, end, t, q)
  {
    ReachableInv(s);
    q := RunTracks(k, Before, s, ls, end, t, SI.Refresh(SI.Begun, multiset{}, table));
  }

  // The refresh on the executor: whatever the workers did, when the caller has submitted
  // all adds and every command has been answered, the commands executed were the
  // truncation and the adds, and the table holds exactly the listed songs, each name
  // once, with the ids 1 .. n.
  lemma RefreshedByExecutor(k: Task, s: Sys, ls: seq<Label>, t: Sys, table: Tables.Table<SI.Song>)
      returns (q: SI.Refresh)
    requires Begins(k, s) && ScriptRun(k, Before, s, ls, Adding(|k.songs|), t)
    requires forall id: nat :: id < |t.texts| ==> id in t.promises
    requires forall i, j :: 0 <= i < j < |k.songs| ==> k.songs[i].name != k.songs[j].name
    ensures var steps := StepsOf(k, Before, s, ls, Adding(|k.songs|), t);
      SI.RefreshRun(SI.Refresh(SI.Begun, multiset{}, table), k.songs, steps, q)
    ensures forall i: nat :: i <= |k.songs| ==> Own(k, t, i)
    ensures multiset(Tables.Data(q.table.rows)) == multiset(k.songs) && Tables.Contiguous(q.table)
    ensures forall i :: 0 <= i < |k.songs| ==> Sum(SI.OfName(k.songs[i].name), q.table.rows) == 1
  {
    q := BeginsTracks(k, s, ls, Adding(|k.songs|), t, table);
    AllAdded(k, t, q);
    TableExact(table, k.songs, StepsOf(k, Before, s, ls, Adding(|k.songs|), t), q);
    AllOwn(k, t, q);
  }

  // A caller that gave up has left the table alone, and no add was ever submitted.
  lemma GaveUpByExecutor(k: Task, s: Sys, ls: seq<Label>, t: Sys, table: Tables.Table<SI.Song>)
      returns (q: SI.Refresh)
    requires Begins(k, s) && ScriptRun(k, Before, s, ls, GaveUp, t)
    ensures var steps := StepsOf(k, Before, s, ls, GaveUp, t);
      SI.RefreshRun(SI.Refresh(SI.Begun, multiset{}, table), k.songs, steps, q)
    ensures q.table == table && |t.texts| == k.base + 1
  {
    q := BeginsTracks(k, s, ls, GaveUp, t, table);
    SI.RefreshFails(SI.Refresh(SI.Begun, multiset{}, table), k.songs, StepsOf(k, Before, s, ls, GaveUp, t), q);
  }
}
