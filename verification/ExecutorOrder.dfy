// In which order each worker and each caller takes its steps: read off the labels of a
// run, these orders are exactly what the states of the executor allow.

module ExecutorOrder {
  import opened Sums
  import opened Executor
  import opened ExecutorSafety
  import TP = ThreadPool

  // ---- A database worker and its command ----

  // The last thing a worker did about a command.
  datatype Did = Nothing | Pulled | Acted(act: Act)

  function DidNext(did: Did, l: Label, w: nat): Did {
    match l
    case Local(Db, Pull(v)) => if v == w then Pulled else did
    case Work(v, act) => if v == w then Acted(act) else did
    case _ => did
  }

  function DidAfter(did: Did, ls: seq<Label>, w: nat): Did
    decreases |ls|
  {
    if ls == [] then did else DidAfter(DidNext(did, ls[0], w), ls[1..], w)
  }

  // Take a connection, for a command just pulled or after one was lost; look at it, and
  // reset it if it is not in order; execute on one that is in order or was reset; set
  // the promise with that, and give the connection back.
  predicate MayAct(did: Did, act: Act) {
    match act
    case Take => did == Pulled || did == Acted(ResetBad)
    case StatusOk => did == Acted(Take)
    case StatusBad => did == Acted(Take)
    case ResetOk => did == Acted(StatusBad)
    case ResetBad => did == Acted(StatusBad)
    case Exec(_) => did == Acted(StatusOk) || did == Acted(ResetOk)
    case GiveBack => did.Acted? && did.act.Exec?
  }

  predicate StageFits(stage: Stage, did: Did) {
    match stage
    case Polling => did == Pulled || did == Acted(ResetBad)
    case Checking(_) => did == Acted(Take)
    case Resetting(_) => did == Acted(StatusBad)
    case Holding(_) => did == Acted(StatusOk) || did == Acted(ResetOk)
    case Returning(_) => did.Acted? && did.act.Exec?
  }

  predicate WorkerFits(s: Sys, w: nat, did: Did) {
    RunsCommand(s, w) ==> StageFits(StageOf(s, w), did)
  }

  lemma LocalFits(s: Sys, where: Which, k: TP.Label<Job>, w: nat, did: Did)
    requires Inv(s) && Enabled(s, Local(where, k)) && WorkerFits(s, w, did)
    ensures WorkerFits(Next(s, Local(where, k)), w, DidNext(did, Local(where, k), w))
  {
    if where == Db {
      InternalEffect(s.db, k);
    }
  }

  lemma WorkFits(s: Sys, v: nat, act: Act, w: nat, did: Did)
    requires CanWork(s, v, act) && WorkerFits(s, w, did)
    ensures WorkerFits(Worked(s, v, act), w, DidNext(did, Work(v, act), w))
  {
    if v != w {
      WorkEffect(s, v, act);
    }
  }

  lemma TalkFitsWorker(s: Sys, c: nat, say: Say, w: nat, did: Did)
    requires CanSay(s, c, say) && WorkerFits(s, w, did)
    ensures WorkerFits(Said(s, c, say), w, did)
  {
    SayWorkers(s, c, say, RunsSet(0));
    if RunsCommand(Said(s, c, say), w) {
      assert Runs(s.db, w);
    }
  }

  lemma TearFits(s: Sys, td: Teardown, w: nat, did: Did)
    requires CanTear(s, td) && WorkerFits(s, w, did)
    ensures WorkerFits(Torn(s, td), w, did)
  {
  }

  lemma WaitFits(s: Sys, where: Which, v: nat, w: nat, did: Did)
    requires CanStopWaiting(s, where, v) && WorkerFits(s, w, did)
    ensures WorkerFits(Next(s, WaitOver(where, v)), w, did)
  {
  }

  lemma StepFits(s: Sys, l: Label, w: nat, did: Did)
    requires Inv(s) && Enabled(s, l) && WorkerFits(s, w, did)
    ensures WorkerFits(Next(s, l), w, DidNext(did, l, w))
  {
    match l {
      case Local(where, k) => LocalFits(s, where, k, w, did);
      case Spin(_) =>
      case Work(v, act) => WorkFits(s, v, act, w, did);
      case WaitOver(where, v) => WaitFits(s, where, v, w, did);
      case Talk(c, say) => TalkFitsWorker(s, c, say, w, did);
      case Tear(td) => TearFits(s, td, w, did);
    }
  }

  lemma {:induction false} RunFits(s: Sys, ls: seq<Label>, t: Sys, w: nat, did: Did)
    requires Inv(s) && Run(s, ls, t) && WorkerFits(s, w, did)
    ensures WorkerFits(t, w, DidAfter(did, ls, w))
    decreases |ls|
  {
    if ls != [] {
      StepFits(s, ls[0], w, did);
      InvStep(s, ls[0]);
      RunFits(Next(s, ls[0]), ls[1..], t, w, DidNext(did, ls[0], w));
    }
  }

  // After every run: a worker with a command can act in a way if and only if that comes
  // next after what it did last, and there is a connection if it is to take one; with
  // none it spins.
  lemma ActsInOrder(shared: bool, d: nat, h: nat, e: nat, k: nat, ls: seq<Label>, t: Sys, w: nat, act: Act)
    requires Run(Start(shared, d, h, e, k), ls, t) && RunsCommand(t, w)
    ensures CanWork(t, w, act) <==> MayAct(DidAfter(Nothing, ls, w), act) && (act.Take? ==> t.conns != [])
    ensures Enabled(t, Spin(w)) <==> MayAct(DidAfter(Nothing, ls, w), Take) && t.conns == []
  {
    StartInv(shared, d, h, e, k);
    RunFits(Start(shared, d, h, e, k), ls, t, w, Nothing);
  }

  // ---- A caller ----

  // The last thing a caller did, and whether its last command has a waiting task.
  datatype Last = Silent | Spoke(say: Say, handled: bool)

  function LastNext(last: Last, l: Label, c: nat): Last {
    match l
    case Talk(d, say) =>
      if d != c then last
      else Spoke(say, if say.Call? then say.handled else last.Spoke? && last.handled)
    case _ => last
  }

  function LastAfter(last: Last, ls: seq<Label>, c: nat): Last
    decreases |ls|
  {
    if ls == [] then last else LastAfter(LastNext(last, ls[0], c), ls[1..], c)
  }

  // Between its calls: nothing said yet, a command without a waiting task notified, a
  // waiting task notified, or an answer received.
  predicate Free(last: Last) {
    || last.Silent?
    || (last.say.CallNotify? && !last.handled)
    || last.say.WaiterNotify?
    || last.say.Got?
  }

  predicate MaySay(last: Last, say: Say) {
    match say
    case Call(_, _, _) => Free(last)
    case CallNotify(_) => last.Spoke? && last.say.Call?
    case PushWaiter => last.Spoke? && last.say.CallNotify? && last.handled
    case WaiterNotify(_) => last.Spoke? && last.say.PushWaiter?
    case Get(_) => Free(last)
    case Got => last.Spoke? && last.say.Get?
  }

  // What the state adds: the mutex and the stop flag for a push, somebody to wake or
  // nobody asleep, a command that exists, its answer or its breaking.
  predicate Allows(s: Sys, last: Last, say: Say) {
    match say
    case Call(_, front, handled) => s.db.owner == None && !s.db.done && (handled ==> front)
    case CallNotify(woken) => TP.CanNotify(s.db, woken)
    case PushWaiter =>
      var p := if s.shared then s.db else s.helper;
      p.owner == None && !p.done
    case WaiterNotify(woken) => TP.CanNotify(if s.shared then s.db else s.helper, woken)
    case Get(id) => id < |s.texts|
    case Got => last.Spoke? && last.say.Get? && (last.say.id in s.promises || last.say.id in s.dropped)
  }

  predicate CallerFits(caller: Caller, last: Last) {
    match caller
    case Idle => Free(last)
    case Notifying(owe) => last.Spoke? && last.say.Call? && last.handled == owe.Some?
    case Owing(_) => last.Spoke? && last.say.CallNotify? && last.handled
    case NotifyingWaiter => last.Spoke? && last.say.PushWaiter?
    case Awaiting(id) => last.Spoke? && last.say == Get(id)
  }

  lemma TalkFits(s: Sys, d: nat, say: Say, c: nat, last: Last)
    requires CanSay(s, d, say) && c < |s.callers| && CallerFits(s.callers[c], last)
    ensures c < |Said(s, d, say).callers|
    ensures CallerFits(Said(s, d, say).callers[c], LastNext(last, Talk(d, say), c))
  {
  }

  lemma {:induction false} CallersRun(s: Sys, ls: seq<Label>, t: Sys, c: nat, last: Last)
    requires Run(s, ls, t) && c < |s.callers| && CallerFits(s.callers[c], last)
    ensures c < |t.callers| && CallerFits(t.callers[c], LastAfter(last, ls, c))
    decreases |ls|
  {
    if ls != [] {
      if ls[0].Talk? {
        TalkFits(s, ls[0].c, ls[0].say, c, last);
      } else {
        StepCallers(s, ls[0]);
      }
      CallersRun(Next(s, ls[0]), ls[1..], t, c, LastNext(last, ls[0], c));
    }
  }

  // After every run: a caller can say something if and only if that comes next after
  // what it said last, and the state allows it.
  lemma SaysInOrder(shared: bool, d: nat, h: nat, e: nat, k: nat, ls: seq<Label>, t: Sys, c: nat, say: Say)
    requires Run(Start(shared, d, h, e, k), ls, t) && c < k
    ensures CanSay(t, c, say) <==> MaySay(LastAfter(Silent, ls, c), say) && Allows(t, LastAfter(Silent, ls, c), say)
  {
    CallersRun(Start(shared, d, h, e, k), ls, t, c, Silent);
  }

  // ---- The destruction ----

  lemma LocalFlags(s: Sys, where: Which, k: TP.Label<Job>)
    requires Enabled(s, Local(where, k))
    ensures var t := Next(s, Local(where, k)); t.db.done == s.db.done && t.torn == s.torn
  {
  }

  lemma TalkFlags(s: Sys, c: nat, say: Say)
    requires CanSay(s, c, say)
    ensures Said(s, c, say).db.done == s.db.done && Said(s, c, say).torn == s.torn
  {
  }

  lemma WorkFlags(s: Sys, w: nat, act: Act)
    requires CanWork(s, w, act)
    ensures Worked(s, w, act).db.done == s.db.done && Worked(s, w, act).torn == s.torn
  {
  }

  lemma TearFlags(s: Sys, td: Teardown)
    requires CanTear(s, td)
    ensures Torn(s, td).db.done == (s.db.done || td == StopDb)
    ensures Torn(s, td).torn == (s.torn || td == DestroyDb)
  {
  }

  lemma StepFlags(s: Sys, l: Label)
    requires Enabled(s, l)
    ensures Next(s, l).db.done == (s.db.done || l == Tear(StopDb))
    ensures Next(s, l).torn == (s.torn || l == Tear(DestroyDb))
  {
    match l {
      case Local(where, k) => LocalFlags(s, where, k);
      case Spin(_) =>
      case Work(w, act) => WorkFlags(s, w, act);
      case WaitOver(_, _) =>
      case Talk(c, say) => TalkFlags(s, c, say);
      case Tear(td) => TearFlags(s, td);
    }
  }

  lemma {:induction false} RunFlags(s: Sys, ls: seq<Label>, t: Sys)
    requires Run(s, ls, t)
    ensures t.db.done == (s.db.done || Tear(StopDb) in ls)
    ensures t.torn == (s.torn || Tear(DestroyDb) in ls)
    decreases |ls|
  {
    if ls != [] {
      StepFlags(s, ls[0]);
      RunFlags(Next(s, ls[0]), ls[1..], t);
      assert forall l :: l in ls <==> l == ls[0] || l in ls[1..];
    }
  }

  // After every run: the destruction may begin at any time; the workers are woken once
  // the flag is stored, the pool goes when they have all exited, and the connections in
  // the deque are finished after that.
  lemma TearsInOrder(shared: bool, d: nat, h: nat, e: nat, k: nat, ls: seq<Label>, t: Sys)
    requires Run(Start(shared, d, h, e, k), ls, t)
    ensures Enabled(t, Tear(StopDb))
    ensures Enabled(t, Tear(WakeAllDb)) <==> Tear(StopDb) in ls
    ensures Enabled(t, Tear(DestroyDb)) <==>
      Tear(StopDb) in ls && forall w :: 0 <= w < |t.db.workers| ==> t.db.workers[w].Exited?
    ensures Enabled(t, Tear(FinishConn)) <==> Tear(DestroyDb) in ls && t.conns != []
  {
    RunFlags(Start(shared, d, h, e, k), ls, t);
  }
}
