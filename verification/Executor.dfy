// DB_module::exec_command over two thread pools and a connection pool: callers,
// queued commands, the tasks that wait for a command's future, the connections
// and the promises, one step per mutex section.

module Executor {
  import opened Sums
  import TP = ThreadPool

  // How far a running command has got. Checking and Resetting are the window after
  // pull_connection has released the connection mutex.
  datatype Stage =
    | Polling
    | Checking(conn: nat)
    | Resetting(conn: nat)
    | Holding(conn: nat)
    | Returning(conn: nat)

  // A command's lambda, with the command string it captured, or a task that blocks
  // on the future of command id.
  datatype Job = Command(id: nat, text: string, stage: Stage) | Wait(id: nat)

  // What the database said to one command string.
  datatype Answer = Answer(text: string, outcome: int)

  // A thread outside the pools. Notifying lies between the push and its notify_one;
  // owe says that the thread goes on to queue a task waiting for that command.
  datatype Caller =
    | Idle
    | Notifying(owe: Option<nat>)
    | Owing(id: nat)
    | NotifyingWaiter
    | Awaiting(id: nat)

  datatype Which = Db | Helper

  // shared says that the waiting tasks go to the database pool itself. torn says
  // that the thread pool of the DB_module has been destroyed.
  datatype Sys = Sys(
    shared: bool,
    db: TP.Pool<Job>,
    helper: TP.Pool<Job>,
    conns: seq<nat>,
    lost: multiset<nat>,
    finished: seq<nat>,
    established: nat,
    texts: seq<string>,
    promises: map<nat, Answer>,
    completed: multiset<nat>,
    dropped: multiset<nat>,
    callers: seq<Caller>,
    torn: bool)

  // A database worker's progress on its command.
  datatype Act = Take | StatusOk | StatusBad | ResetOk | ResetBad | Exec(outcome: int) | GiveBack

  // What a caller does: the push of exec_command, its notify_one, the push of a
  // waiting task, its notify_one, and blocking on a future.
  datatype Say =
    | Call(text: string, front: bool, handled: bool)
    | CallNotify(woken: Option<nat>)
    | PushWaiter
    | WaiterNotify(woken: Option<nat>)
    | Get(id: nat)
    | Got

  // Destroying the DB_module: its thread pool first, then its connections.
  datatype Teardown = StopDb | WakeAllDb | DestroyDb | FinishConn

  datatype Label =
    | Local(where: Which, l: TP.Label<Job>)
    | Spin(w: nat)
    | Work(w: nat, act: Act)
    | WaitOver(where: Which, w: nat)
    | Talk(c: nat, say: Say)
    | Tear(teardown: Teardown)

  // The connections, by number.
  function Numbers(n: nat): seq<nat> {
    if n == 0 then [] else Numbers(n - 1) + [n - 1]
  }

  function Start(shared: bool, dbThreads: nat, helperThreads: nat, established: nat, callers: nat): Sys {
    Sys(shared, TP.Start(dbThreads), TP.Start(helperThreads),
        Numbers(established), multiset{}, [], established, [], map[], multiset{}, multiset{},
        seq(callers, _ => Idle), false)
  }

  function PoolAt(s: Sys, where: Which): TP.Pool<Job> {
    if where == Db then s.db else s.helper
  }

  function WithPool(s: Sys, where: Which, p: TP.Pool<Job>): Sys {
    if where == Db then s.(db := p) else s.(helper := p)
  }

  // The pool the waiting tasks are pushed to.
  function WaitPool(s: Sys): Which {
    if s.shared then Db else Helper
  }

  predicate Internal(l: TP.Label<Job>) {
    l.Spurious? || l.CheckDone? || l.Acquire? || l.Test? || l.Park? || l.Recheck? || l.Pull?
  }

  predicate Runs(p: TP.Pool<Job>, w: nat) {
    w < |p.workers| && p.workers[w].Running?
  }

  predicate RunsCommand(s: Sys, w: nat) {
    Runs(s.db, w) && s.db.workers[w].job.Command?
  }

  function StageOf(s: Sys, w: nat): Stage
    requires RunsCommand(s, w)
  {
    s.db.workers[w].job.stage
  }

  predicate Ready(s: Sys, id: nat) {
    id in s.promises || id in s.dropped
  }

  predicate CanWork(s: Sys, w: nat, act: Act) {
    RunsCommand(s, w) &&
    match act
    case Take => StageOf(s, w).Polling? && s.conns != []
    case StatusOk => StageOf(s, w).Checking?
    case StatusBad => StageOf(s, w).Checking?
    case ResetOk => StageOf(s, w).Resetting?
    case ResetBad => StageOf(s, w).Resetting?
    case Exec(_) => StageOf(s, w).Holding?
    case GiveBack => StageOf(s, w).Returning?
  }

  function Worked(s: Sys, w: nat, act: Act): Sys
    requires CanWork(s, w, act)
  {
    var job := s.db.workers[w].job;
    match act
    case Take => Staged(s, w, Checking(s.conns[0])).(conns := s.conns[1..])
    case StatusOk => Staged(s, w, Holding(job.stage.conn))
    case StatusBad => Staged(s, w, Resetting(job.stage.conn))
    case ResetOk => Staged(s, w, Holding(job.stage.conn))
    case ResetBad => Staged(s, w, Polling).(lost := s.lost + multiset{job.stage.conn})
    case Exec(outcome) =>
      Staged(s, w, Returning(job.stage.conn)).(promises := s.promises[job.id := Answer(job.text, outcome)])
    case GiveBack =>
      s.(db := TP.At(s.db, w, TP.Loop),
         conns := [job.stage.conn] + s.conns,
         completed := s.completed + multiset{job.id})
  }

  function Staged(s: Sys, w: nat, stage: Stage): Sys
    requires RunsCommand(s, w)
  {
    s.(db := TP.At(s.db, w, TP.Running(s.db.workers[w].job.(stage := stage))))
  }

  predicate CanSay(s: Sys, c: nat, say: Say) {
    c < |s.callers| &&
    match say
    case Call(_, front, handled) =>
      s.callers[c].Idle? && s.db.owner.None? && !s.db.done && (handled ==> front)
    case CallNotify(woken) => s.callers[c].Notifying? && TP.CanNotify(s.db, woken)
    case PushWaiter =>
      s.callers[c].Owing? && PoolAt(s, WaitPool(s)).owner.None? && !PoolAt(s, WaitPool(s)).done
    case WaiterNotify(woken) => s.callers[c].NotifyingWaiter? && TP.CanNotify(PoolAt(s, WaitPool(s)), woken)
    case Get(id) => s.callers[c].Idle? && id < |s.texts|
    case Got => s.callers[c].Awaiting? && Ready(s, s.callers[c].id)
  }

  function Said(s: Sys, c: nat, say: Say): Sys
    requires CanSay(s, c, say)
  {
    match say
    case Call(text, front, handled) =>
      var id := |s.texts|;
      Moved(s, c, Notifying(if handled then Some(id) else None))
        .(db := TP.Pushed(s.db, front, Command(id, text, Polling)), texts := s.texts + [text])
    case CallNotify(woken) =>
      var owe := s.callers[c].owe;
      Moved(s, c, if owe.Some? then Owing(owe.value) else Idle).(db := TP.Notified(s.db, woken))
    case PushWaiter =>
      var p := TP.Pushed(PoolAt(s, WaitPool(s)), false, Wait(s.callers[c].id));
      WithPool(Moved(s, c, NotifyingWaiter), WaitPool(s), p)
    case WaiterNotify(woken) =>
      WithPool(Moved(s, c, Idle), WaitPool(s), TP.Notified(PoolAt(s, WaitPool(s)), woken))
    case Get(id) => Moved(s, c, Awaiting(id))
    case Got => Moved(s, c, Idle)
  }

  function Moved(s: Sys, c: nat, caller: Caller): Sys
    requires c < |s.callers|
  {
    s.(callers := s.callers[c := caller])
  }

  predicate CanTear(s: Sys, td: Teardown) {
    match td
    case StopDb => true
    case WakeAllDb => s.db.done
    case DestroyDb => TP.Enabled(s.db, TP.Drop)
    case FinishConn => s.torn && s.conns != []
  }

  function QueuedId(e: TP.Entry<Job>): multiset<nat> {
    if e.job.Command? then multiset{e.job.id} else multiset{}
  }

  function Torn(s: Sys, td: Teardown): Sys
    requires CanTear(s, td)
  {
    match td
    case StopDb => s.(db := TP.Next(s.db, TP.SetDone))
    case WakeAllDb => s.(db := TP.Next(s.db, TP.NotifyAll))
    case DestroyDb =>
      s.(db := TP.Next(s.db, TP.Drop), dropped := s.dropped + Gather(QueuedId, s.db.tasks), torn := true)
    case FinishConn => s.(conns := s.conns[1..], finished := s.finished + [s.conns[0]])
  }

  predicate CanStopWaiting(s: Sys, where: Which, w: nat) {
    var p := PoolAt(s, where);
    Runs(p, w) && p.workers[w].job.Wait? && Ready(s, p.workers[w].job.id)
  }

  predicate Enabled(s: Sys, l: Label) {
    match l
    case Local(where, k) => Internal(k) && TP.Enabled(PoolAt(s, where), k)
    case Spin(w) => RunsCommand(s, w) && StageOf(s, w).Polling? && s.conns == []
    case Work(w, act) => CanWork(s, w, act)
    case WaitOver(where, w) => CanStopWaiting(s, where, w)
    case Talk(c, say) => CanSay(s, c, say)
    case Tear(td) => CanTear(s, td)
  }

  function Next(s: Sys, l: Label): Sys
    requires Enabled(s, l)
  {
    match l
    case Local(where, k) => WithPool(s, where, TP.Next(PoolAt(s, where), k))
    case Spin(_) => s
    case Work(w, act) => Worked(s, w, act)
    case WaitOver(where, w) => WithPool(s, where, TP.At(PoolAt(s, where), w, TP.Loop))
    case Talk(c, say) => Said(s, c, say)
    case Tear(td) => Torn(s, td)
  }

  ghost predicate Run(s: Sys, ls: seq<Label>, t: Sys)
    decreases |ls|
  {
    if ls == [] then t == s
    else Enabled(s, ls[0]) && Run(Next(s, ls[0]), ls[1..], t)
  }

  // ---- Where connections and commands are ----

  function Holds(c: nat): TP.Worker<Job> -> nat {
    (pc: TP.Worker<Job>) =>
      if pc.Running? && pc.job.Command? && !pc.job.stage.Polling? && pc.job.stage.conn == c then 1 else 0
  }

  // Workers that run command id, before and after its promise is set.
  function RunsOpen(id: nat): TP.Worker<Job> -> nat {
    (pc: TP.Worker<Job>) =>
      if pc.Running? && pc.job.Command? && !pc.job.stage.Returning? && pc.job.id == id then 1 else 0
  }

  function RunsSet(id: nat): TP.Worker<Job> -> nat {
    (pc: TP.Worker<Job>) =>
      if pc.Running? && pc.job.Command? && pc.job.stage.Returning? && pc.job.id == id then 1 else 0
  }

  function Queues(id: nat): TP.Entry<Job> -> nat {
    (e: TP.Entry<Job>) => if e.job.Command? && e.job.id == id then 1 else 0
  }

  function Is(c: nat): nat -> nat {
    (x: nat) => if x == c then 1 else 0
  }

  function ConnPlaces(s: Sys, c: nat): nat {
    Sum(Is(c), s.conns) + Sum(Holds(c), s.db.workers) + s.lost[c] + Sum(Is(c), s.finished)
  }

  function TaskPlaces(s: Sys, id: nat): nat {
    Sum(Queues(id), s.db.tasks) + Sum(RunsOpen(id), s.db.workers) + Sum(RunsSet(id), s.db.workers)
    + s.completed[id] + s.dropped[id]
  }

  ghost predicate ConnInv(s: Sys) {
    forall c: nat :: ConnPlaces(s, c) == if c < s.established then 1 else 0
  }

  ghost predicate TaskInv(s: Sys) {
    forall id: nat :: TaskPlaces(s, id) == if id < |s.texts| then 1 else 0
  }

  ghost predicate PromiseInv(s: Sys) {
    forall id: nat :: (if id in s.promises then 1 else 0) == Sum(RunsSet(id), s.db.workers) + s.completed[id]
  }

  predicate JobKnown(texts: seq<string>, job: Job) {
    job.id < |texts| && (job.Command? ==> job.text == texts[job.id])
  }

  predicate Fresh(job: Job) {
    job.Command? ==> job.stage.Polling?
  }

  // Every job of a pool knows its own command, queued commands have not begun, and
  // the pool takes only the kinds of job it is meant for.
  ghost predicate PoolJobs(texts: seq<string>, p: TP.Pool<Job>, commands: bool, waits: bool) {
    && (forall i | 0 <= i < |p.tasks| ::
          && JobKnown(texts, p.tasks[i].job) && Fresh(p.tasks[i].job)
          && (if p.tasks[i].job.Command? then commands else waits))
    && (forall w: nat | Runs(p, w) ::
          && JobKnown(texts, p.workers[w].job)
          && (if p.workers[w].job.Command? then commands else waits))
  }

  ghost predicate JobInv(s: Sys) {
    && PoolJobs(s.texts, s.db, true, s.shared)
    && PoolJobs(s.texts, s.helper, false, !s.shared)
    && (forall id | id in s.promises :: id < |s.texts| && s.promises[id].text == s.texts[id])
  }

  predicate WaitsFor(waiter: Job, command: Job) {
    waiter.Wait? && command.Command? && waiter.id == command.id
  }

  // A waiting task is never ahead of its own command.
  ghost predicate OrderInv(s: Sys) {
    && (forall i, j | 0 <= i < |s.db.tasks| && 0 <= j < |s.db.tasks| ::
          WaitsFor(s.db.tasks[i].job, s.db.tasks[j].job) ==> j < i)
    && (forall w: nat, j | Runs(s.db, w) && 0 <= j < |s.db.tasks| ::
          !WaitsFor(s.db.workers[w].job, s.db.tasks[j].job))
  }

  function CallN(c: Caller): nat {
    if c.Notifying? then 1 else 0
  }

  function WaitN(c: Caller): nat {
    if c.NotifyingWaiter? then 1 else 0
  }

  ghost predicate CallerInv(s: Sys) {
    && s.db.notifiers == Sum(CallN, s.callers) + (if s.shared then Sum(WaitN, s.callers) else 0)
    && s.helper.notifiers == (if s.shared then 0 else Sum(WaitN, s.callers))
    && (forall c :: 0 <= c < |s.callers| ==>
          match s.callers[c]
          case Notifying(Some(id)) => id < |s.texts|
          case Owing(id) => id < |s.texts|
          case Awaiting(id) => id < |s.texts|
          case _ => true)
  }

  ghost predicate TornInv(s: Sys) {
    && !s.helper.done
    && (s.torn ==> s.db.done && s.db.tasks == [] && TP.AllExited(s.db))
    && (!s.torn ==> s.finished == [] && s.dropped == multiset{})
  }

  ghost predicate Inv(s: Sys) {
    && TP.Inv(s.db) && TP.Inv(s.helper)
    && ConnInv(s) && TaskInv(s) && PromiseInv(s)
    && JobInv(s) && OrderInv(s) && CallerInv(s) && TornInv(s)
  }
}
