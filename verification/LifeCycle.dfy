/** The Dispatch Manager as a step system: jobs, host and user counters, array tables, the action queue, and what
    the Execution, Transfer and Request Managers owe or own. */
module LifeCycle {
  import opened Jobs
  import opened Reactions
  import opened Tokens
  import opened TaskTables

  datatype Host = Host(used: int, running: int)

  /** Where the heap cells that carry job ids are, outside the action queue. Cells 0..next were allocated. */
  datatype Cells = Cells(em: multiset<nat>, tm: multiset<nat>, rm: multiset<nat>, freed: multiset<nat>, next: nat)

  /** What happened so far: actions handled, answers sent, stop and kill requests that were overridden, and, per
      user, running jobs that a hard kill removed without telling the user's counter. */
  datatype Log = Log(handled: multiset<Action>, sent: multiset<Answer>, lostStops: nat, lostKills: nat, leaks: seq<nat>)

  datatype Sys = Sys(
    jobs: seq<Option<Job>>, hosts: seq<Host>, users: seq<int>,
    arrays: seq<Option<TaskTable>>, arrayCount: int, lastArray: int,
    queue: seq<Item>, em: set<nat>, tm: map<nat, Xfer>, cells: Cells, log: Log)
  {
    predicate Alive(id: nat) { id < |jobs| && jobs[id].Some? }
  }

  // ------------------------------------------------------------------------------------------
  // Steps
  // ------------------------------------------------------------------------------------------

  /** The outcome of adding a history record: added, refused, or linked but reported as failed because the
      history file could not be opened. */
  datatype AddResult = Added | Refused | Unsaved

  datatype Event =
    | Post(sig: Signal, job: nat)
    | Handle(env: Env)
    | Dispatch(job: nat, host: nat, wrapperBased: bool, add: AddResult)
    | Uncheck(job: nat)
    | Check(job: nat, now: int, period: int, ran: int)
    | EmAnswers(job: nat, done: bool, reused: Option<nat>)
    | EmNotes(job: nat, em: EmState, record: nat, suspension: int, lastSuspension: int)
    | EmFrees(cell: nat)
    | EmRenews
    | TmAnswers(job: nat, xfer: Xfer, done: bool, reused: Option<nat>)
    | TmFrees(cell: nat)
    | RmFrees(cell: nat)
    | NewJob(job: nat, init: Job)
    | NewArray(aid: nat, ids: seq<nat>, init: Job)

  function Release(hosts: seq<Host>, c: Claim, history: seq<Record>, np: nat): (r: seq<Host>)
    ensures |r| == |hosts|
  {
    seq(|hosts|, h requires 0 <= h < |hosts| =>
      Host(hosts[h].used - SlotsAt(c, history, np, h), hosts[h].running - RunsAt(c, history, h)))
  }

  /** A user's counter moves only if the user is registered. */
  function Bump(users: seq<int>, u: nat, d: int): (r: seq<int>)
    ensures |r| == |users|
  { if u < |users| then users[u := users[u] + d] else users }

  function Leak(leaks: seq<nat>, u: nat): (r: seq<nat>)
    ensures |r| == |leaks|
  { if u < |leaks| then leaks[u := leaks[u] + 1] else leaks }

  /** The cell of a handled action goes where the handler sent it. */
  function Deliver(s: Sys, it: Item, from: State, d: Dest): (r: Sys)
    ensures r.jobs == s.jobs && r.hosts == s.hosts && r.users == s.users
    ensures r.arrays == s.arrays && r.arrayCount == s.arrayCount && r.lastArray == s.lastArray
    ensures r.queue == s.queue + if d.ToDm? then [Item(d.act, it.job, it.cell, from)] else []
    ensures r.em == (if d == ToEm(Submit) then s.em + {it.job} else s.em)
    ensures r.tm == if d.ToTm? then s.tm[it.job := d.xfer] else s.tm
    ensures r.log == s.log.(sent := s.log.sent + if d.ToRm? then multiset{d.answer} else multiset{})
  {
    match d
    case Drop => s.(cells := s.cells.(freed := s.cells.freed + multiset{it.cell}))
    case ToDm(a) => s.(queue := s.queue + [Item(a, it.job, it.cell, from)])
    case ToEm(req) =>
      s.(cells := s.cells.(em := s.cells.em + multiset{it.cell}), em := if req.Submit? then s.em + {it.job} else s.em)
    case ToTm(x) => s.(cells := s.cells.(tm := s.cells.tm + multiset{it.cell}), tm := s.tm[it.job := x])
    case ToRm(answer) =>
      s.(cells := s.cells.(rm := s.cells.rm + multiset{it.cell}), log := s.log.(sent := s.log.sent + multiset{answer}))
  }

  /** The array slots and their count after a freed job's task has left its array: the slot goes with the last
      task. */
  function FreeTask(arrays: seq<Option<TaskTable>>, count: int, arrayId: int, taskId: int)
    : (seq<Option<TaskTable>>, int)
  {
    if 0 <= arrayId < |arrays| && arrays[arrayId].Some? then
      var t := DelTask(arrays[arrayId].value, taskId);
      if t.Remaining() == 0 then (arrays[arrayId := None], count - 1)
      else (arrays[arrayId := Some(t)], count)
    else (arrays, count)
  }

  /** Held jobs whose dependencies are met become pending. */
  function Wake(jobs: seq<Option<Job>>, ready: set<nat>): (r: seq<Option<Job>>)
    ensures |r| == |jobs|
  {
    seq(|jobs|, i requires 0 <= i < |jobs| =>
      if i in ready && jobs[i].Some? && jobs[i].value.state.Hold? then Some(jobs[i].value.(state := Pending))
      else jobs[i])
  }

  function Tally(log: Log, a: Action, j: Job, r: Reaction): Log {
    log.(lostStops := log.lostStops + Bit(Overrides(a) && Stopping(j.state)),
         lostKills := log.lostKills + Bit(Overrides(a) && Killing(j.state)),
         leaks := if r.leakUser then Leak(log.leaks, j.user) else log.leaks)
  }

  /** The effect of a handler on everything but the cell. */
  function Settle(s: Sys, it: Item, j: Job, r: Reaction, e: Env): (t: Sys)
    requires it.job < |s.jobs|
    ensures t.queue == s.queue && t.em == s.em && t.tm == s.tm && t.cells == s.cells
    ensures t.lastArray == s.lastArray
    ensures (t.arrays, t.arrayCount) ==
            if r.job.None? then FreeTask(s.arrays, s.arrayCount, j.arrayId, j.taskId) else (s.arrays, s.arrayCount)
    ensures t.hosts == Release(s.hosts, r.give, j.history, j.np)
    ensures t.users == if r.giveUser then Bump(s.users, j.user, -1) else s.users
    ensures t.log == Tally(s.log, it.act, j, r)
    ensures t.jobs == if r.wakes then Wake(s.jobs[it.job := r.job], e.ready) else s.jobs[it.job := r.job]
  {
    var (arrays, count) :=
      if r.job.None? then FreeTask(s.arrays, s.arrayCount, j.arrayId, j.taskId) else (s.arrays, s.arrayCount);
    var jobs := s.jobs[it.job := r.job];
    s.(jobs := if r.wakes then Wake(jobs, e.ready) else jobs,
       hosts := Release(s.hosts, r.give, j.history, j.np),
       users := if r.giveUser then Bump(s.users, j.user, -1) else s.users,
       arrays := arrays, arrayCount := count,
       log := Tally(s.log, it.act, j, r))
  }

  /** The action at the head of the queue is taken off. */
  function Popped(s: Sys): Sys
    requires s.queue != []
  {
    s.(queue := s.queue[1..], log := s.log.(handled := s.log.handled + multiset{s.queue[0].act}))
  }

  /** A handler's reaction takes effect. */
  function Conclude(s: Sys, it: Item, j: Job, r: Reaction, e: Env): Sys
    requires it.job < |s.jobs|
  {
    Deliver(Settle(s, it, j, r, e), it, j.state, r.dest)
  }

  /** A handler runs on an action that has left the queue. */
  function Handled(s: Sys, it: Item, e: Env): Sys {
    if s.Alive(it.job) then Conclude(s, it, s.jobs[it.job].value, React(it.act, s.jobs[it.job].value, e), e)
    else Deliver(s, it, Init, NoJob(it.act))
  }

  function SetJob(s: Sys, id: nat, j: Job): Sys
    requires s.Alive(id)
  { s.(jobs := s.jobs[id := Some(j)]) }

  /** A new cell carries the job id into the queue. */
  function Enqueue(s: Sys, a: Action, id: nat, from: State): Sys {
    s.(queue := s.queue + [Item(a, id, s.cells.next, from)], cells := s.cells.(next := s.cells.next + 1))
  }

  /** An answer enters the queue in the cell of the request, or in a new one. */
  function EnqueueFrom(s: Sys, a: Action, id: nat, cell: Option<nat>, cells: Cells): Sys {
    var from := if s.Alive(id) then s.jobs[id].value.state else Init;
    if cell.None? then Enqueue(s, a, id, from)
    else s.(queue := s.queue + [Item(a, id, cell.value, from)], cells := cells)
  }

  function Acquire(hosts: seq<Host>, h: nat, np: nat): seq<Host> {
    if h < |hosts| then hosts[h := Host(hosts[h].used + np, hosts[h].running + 1)] else hosts
  }

  function Unchecked(j: Job): Job {
    if j.history != [] && !j.state.Pending? then j.WithReason(ReasonNone).(reschedule := false) else j
  }

  /** The migration of a suspended job is called off when it has become active. */
  predicate CalledOff(j: Job) {
    j.state.Wrapper? && j.history != [] && j.Head().reason.SuspensionTime? && j.em.EmActive?
  }

  /** The scheduler assigns a host to a pending job, or a new host to a running one. */
  function Assign(s: Sys, id: nat, host: nat, wrapperBased: bool, add: AddResult): Sys {
    if !s.Alive(id) || host >= |s.hosts| then s else
    var j := s.jobs[id].value;
    if !j.state.Pending? && !j.state.Wrapper? then s
    else if CalledOff(j) then SetJob(s, id, Unchecked(j))
    else if add.Refused? then s
    else
      var k := j.(history := [NewRecord(host, wrapperBased)] + j.history);
      if add.Unsaved? then SetJob(s, id, k)
      else
        var s1 := s.(hosts := Acquire(s.hosts, host, j.np));
        if j.state.Pending? then
          Enqueue(SetJob(s1, id, k).(users := Bump(s.users, j.user, 1)), Go(Prolog), id, j.state)
        else
          Enqueue(SetJob(s1, id, k.(restarted := j.restarted + 1, reschedule := false)), Go(MigrCancel), id, j.state)
  }

  /** What the Execution Manager notes of a running execution: its state, and the suspension statistics of record k. */
  function Noticed(j: Job, em: EmState, k: nat, suspension: int, lastSuspension: int): Job
    requires k < |j.history|
  {
    j.(em := em,
       history := j.history[k := j.history[k].(suspension := suspension, lastSuspension := lastSuspension)])
  }

  function StageOf(x: Xfer): Stage { if x.PrologXfer? then PrologStage else EpilogStage }

  /** The execution has waited in its queue for longer than the template allows. */
  predicate SuspendedTooLong(j: Job, now: int)
    requires j.history != []
  {
    && j.limits.suspensionTimeout > 0 && (j.em.EmPending? || j.em.EmSuspended?)
    && j.Head().suspension + now - j.Head().lastSuspension > j.limits.suspensionTimeout
  }

  /** The rescheduling interval is over and the execution is still below its threshold; ran is how long it has run. */
  predicate DueAgain(j: Job, now: int, ran: int) {
    && j.limits.reschedulingInterval > 0 && j.lastRescheduling != 0
    && now - j.lastRescheduling > j.limits.reschedulingInterval && ran < j.limits.reschedulingThreshold
  }

  /** When the rescheduling interval was last looked at; the first look only starts it. */
  function LastLook(j: Job, now: int, period: int): int {
    if j.limits.reschedulingInterval <= 0 then j.lastRescheduling
    else if j.lastRescheduling == 0 then now - period
    else if now - j.lastRescheduling > j.limits.reschedulingInterval then now
    else j.lastRescheduling
  }

  /** The timer's checks flag a running job for rescheduling and record why; period is the scheduling interval. */
  function Checked(j: Job, now: int, period: int, ran: int): Job {
    if !j.state.Wrapper? || j.history == [] || !j.Head().reason.ReasonNone? then j else
    var k := if SuspendedTooLong(j, now) then j.WithReason(SuspensionTime).(reschedule := true) else j;
    var l := if DueAgain(j, now, ran) then k.WithReason(ReschedulingTimeout).(reschedule := true) else k;
    l.(lastRescheduling := LastLook(j, now, period))
  }

  /** The tasks of a new array, numbered in the order of their jobs. */
  function Enroll(jobs: seq<Option<Job>>, ids: seq<nat>, aid: nat, init: Job): (r: seq<Option<Job>>)
    requires forall i | 0 <= i < |ids| :: ids[i] < |jobs|
    ensures |r| == |jobs|
  {
    if ids == [] then jobs else
    var n := |ids| - 1;
    Enroll(jobs, ids[..n], aid, init)[ids[n] := Some(init.(arrayId := aid, taskId := n))]
  }

  /** What can happen. Managers answer only what they were asked; a new job's id has nothing left in flight. */
  ghost predicate Enabled(s: Sys, ev: Event) {
    match ev
    case Handle(_) => s.queue != []
    case EmAnswers(id, _, c) => id in s.em && (c.Some? ==> c.value in s.cells.em)
    case EmNotes(id, em, k, _, _) =>
      id in s.em && s.Alive(id) && !em.EmDone? && !em.EmHardKill? && k < |s.jobs[id].value.history|
    case EmFrees(c) => c in s.cells.em
    case TmAnswers(id, x, _, c) => id in s.tm && s.tm[id] == x && (c.Some? ==> c.value in s.cells.tm)
    case TmFrees(c) => c in s.cells.tm
    case RmFrees(c) => c in s.cells.rm
    case Check(id, _, _, _) => s.Alive(id)
    case NewJob(id, init) => Vacant(s, id) && NewbornOk(s, init)
    case NewArray(aid, ids, init) =>
      && |s.arrays| > 0 && -1 <= s.lastArray < |s.arrays| && IsNextFree(s.arrays, s.lastArray, aid)
      && (forall i | 0 <= i < |ids| :: Vacant(s, ids[i]))
      && (forall i, k | 0 <= i < k < |ids| :: ids[i] != ids[k])
      && NewbornOk(s, init)
    case _ => true
  }

  ghost predicate Vacant(s: Sys, id: nat) {
    id < |s.jobs| && s.jobs[id].None? && TokensOf(s.queue, id) == [] && id !in s.em && id !in s.tm
  }

  predicate NewbornOk(s: Sys, j: Job) {
    (j.state.Pending? || j.state.Hold?) && j.history == [] && j.user < |s.users| && j.arrayId == -1
    && j.restarted == 0
  }

  function Next(s: Sys, ev: Event): Sys
    requires Enabled(s, ev)
  {
    match ev
    case Post(sig, id) => Enqueue(s, Ask(sig), id, Init)
    case Handle(e) => Handled(Popped(s), s.queue[0], e)
    case Dispatch(id, host, wrapperBased, add) => Assign(s, id, host, wrapperBased, add)
    case Uncheck(id) => if s.Alive(id) then SetJob(s, id, Unchecked(s.jobs[id].value)) else s
    case Check(id, now, period, ran) => SetJob(s, id, Checked(s.jobs[id].value, now, period, ran))
    case EmAnswers(id, done, c) =>
      var cells := s.cells.(em := if c.Some? then s.cells.em - multiset{c.value} else s.cells.em);
      var s1 := if s.Alive(id) then SetJob(s, id, s.jobs[id].value.(em := if done then EmDone else EmFailed)) else s;
      EnqueueFrom(s1, Report(WrapperStage, done), id, c, cells).(em := s.em - {id})
    case EmNotes(id, em, k, suspension, last) => SetJob(s, id, Noticed(s.jobs[id].value, em, k, suspension, last))
    case EmFrees(c) =>
      s.(cells := s.cells.(em := s.cells.em - multiset{c}, freed := s.cells.freed + multiset{c}))
    case EmRenews => s.(cells := s.cells.(em := s.cells.em + multiset{s.cells.next}, next := s.cells.next + 1))
    case TmAnswers(id, x, done, c) =>
      var cells := s.cells.(tm := if c.Some? then s.cells.tm - multiset{c.value} else s.cells.tm);
      EnqueueFrom(s, Report(StageOf(x), done), id, c, cells).(tm := s.tm - {id})
    case TmFrees(c) =>
      s.(cells := s.cells.(tm := s.cells.tm - multiset{c}, freed := s.cells.freed + multiset{c}))
    case RmFrees(c) =>
      s.(cells := s.cells.(rm := s.cells.rm - multiset{c}, freed := s.cells.freed + multiset{c}))
    case NewJob(id, init) => s.(jobs := s.jobs[id := Some(init)])
    case NewArray(aid, ids, init) =>
      s.(jobs := Enroll(s.jobs, ids, aid, init),
         arrays := s.arrays[aid := Some(TaskTable(ids, |ids| - 1, 0))],
         arrayCount := s.arrayCount + 1, lastArray := aid)
  }

  /** An idle Dispatch Manager with room for so many jobs, hosts, users and arrays. */
  function Start(jobs: nat, hosts: nat, users: nat, arrays: nat): Sys {
    Sys(seq(jobs, i => None), seq(hosts, i => Host(0, 0)), seq(users, i => 0), seq(arrays, i => None), 0, -1,
        [], {}, map[], Cells(multiset{}, multiset{}, multiset{}, multiset{}, 0),
        Log(multiset{}, multiset{}, 0, 0, seq(users, i => 0)))
  }

  ghost predicate CanRun(s: Sys, run: seq<Event>)
    decreases |run|
  {
    run != [] ==> Enabled(s, run[0]) && CanRun(Next(s, run[0]), run[1..])
  }

  ghost function After(s: Sys, run: seq<Event>): Sys
    requires CanRun(s, run)
    decreases |run|
  {
    if run == [] then s else After(Next(s, run[0]), run[1..])
  }

  // ------------------------------------------------------------------------------------------
  // The queue, job by job
  // ------------------------------------------------------------------------------------------

  /** The life-cycle actions queued for a job, in order. */
  function TokensOf(q: seq<Item>, id: nat): seq<Item> {
    if q == [] then [] else
    (if q[0].job == id && MovesJob(q[0].act) then [q[0]] else []) + TokensOf(q[1..], id)
  }

  lemma {:induction false} TokensAppend(q: seq<Item>, it: Item, id: nat)
    ensures TokensOf(q + [it], id) ==
            TokensOf(q, id) + (if it.job == id && MovesJob(it.act) then [it] else [])
  {
    if q == [] {
      assert [it][1..] == [];
    } else {
      assert (q + [it])[1..] == q[1..] + [it];
      TokensAppend(q[1..], it, id);
      var h := if q[0].job == id && MovesJob(q[0].act) then [q[0]] else [];
      var t := if it.job == id && MovesJob(it.act) then [it] else [];
      assert h + (TokensOf(q[1..], id) + t) == h + TokensOf(q[1..], id) + t;
    }
  }

  lemma {:induction false} TokensIn(q: seq<Item>, id: nat, k: nat)
    requires k < |q| && q[k].job == id && MovesJob(q[k].act)
    ensures q[k] in TokensOf(q, id)
  {
    if k > 0 {
      TokensIn(q[1..], id, k - 1);
    }
  }
}
