/** The Dispatch Manager itself: handlers that update job records, host and user counters, array tables and the
    action queue in place, each proved to do exactly what LifeCycle says of it. */
module Dispatcher {
  import opened Jobs
  import opened Reactions
  import opened Tokens
  import opened TaskTables
  import opened LifeCycle
  import opened Conservation
  import opened Steps
  import Consequences

  // ------------------------------------------------------------------------------------------
  // Host counters
  // ------------------------------------------------------------------------------------------

  /** The host's counters after giving back some slots and running jobs. */
  function Less(hosts: seq<Host>, h: nat, slots: nat, runs: nat): (r: seq<Host>)
    ensures |r| == |hosts|
  {
    if h < |hosts| then hosts[h := Host(hosts[h].used - slots, hosts[h].running - runs)] else hosts
  }

  lemma ReleaseNothing(hosts: seq<Host>, j: Job)
    ensures Release(hosts, NOTHING, j.history, j.np) == hosts
  {
  }

  /** Giving back on the host of record k is releasing that part of the claim. */
  lemma LessReleases(hosts: seq<Host>, j: Job, k: nat, slots: bool, run: bool)
    requires k < |j.history| && k <= 1
    ensures Less(hosts, j.history[k].host, if slots then j.np else 0, Bit(run)) ==
            Release(hosts, if k == 0 then Claim(slots, run, false, false) else Claim(false, false, slots, run),
                    j.history, j.np)
  {
  }

  /** The fall-through cases of the hard kill add up to the ledger's entry for the state. */
  lemma FallThrough(hosts: seq<Host>, j: Job)
    requires RecordsRead(Ask(SigKillHard), j) <= |j.history|
    ensures var st := j.state;
      var h1 := if st.MigrProlog? || st.MigrEpilog? then Less(hosts, j.history[1].host, 0, 1) else hosts;
      var h2 := if st.MigrProlog? || st.MigrEpilog? || st.Prolog? then Less(h1, j.history[0].host, j.np, 0) else h1;
      var h3 := if InEpilog(st) || st.MigrProlog? || st.Prolog? then Less(h2, j.history[0].host, 0, 1) else h2;
      var h4 := if st.PreWrapper? || st.Wrapper? then Less(h3, j.history[0].host, j.np, 1) else h3;
      var h5 := if st.MigrCancel? then Less(h4, j.history[1].host, j.np, 1) else h4;
      var h6 := if st.MigrCancel? || st.StopCancel? || st.KillCancel? then Less(h5, j.history[0].host, j.np, 1) else h5;
      h6 == Release(hosts, Base(st), j.history, j.np)
  {
  }

  lemma FailedPrologReturns(hosts: seq<Host>, j: Job)
    requires j.history != []
    ensures Less(if j.state.MigrProlog? && |j.history| > 1 then Less(hosts, j.history[1].host, 0, 1) else hosts,
                 j.history[0].host, j.np, 0) ==
            Release(hosts, OnProlog(false, j).give, j.history, j.np)
  {
  }

  lemma WrapperReturns(hosts: seq<Host>, j: Job)
    ensures Release(hosts, NOTHING, j.history, j.np) == hosts
    ensures Release(hosts, Claim(true, false, false, false), j.history, j.np) ==
            if j.history != [] then Less(hosts, j.history[0].host, j.np, 0) else hosts
    ensures |j.history| > 1 ==>
            Release(hosts, Claim(false, false, true, false), j.history, j.np) == Less(hosts, j.history[1].host, j.np, 0)
  {
  }

  lemma EpilogReturns(hosts: seq<Host>, j: Job)
    ensures Release(hosts, NOTHING, j.history, j.np) == hosts
    ensures |j.history| > 1 ==>
            Release(hosts, Claim(false, false, false, true), j.history, j.np) == Less(hosts, j.history[1].host, 0, 1)
  {
  }

  // ------------------------------------------------------------------------------------------
  // Records and cells
  // ------------------------------------------------------------------------------------------

  /** What the other managers owe and own, and what happened so far: history that the source does not keep. */
  datatype Book = Book(em: set<nat>, tm: map<nat, Xfer>, cells: Cells, log: Log)

  /** The book after the cell of an action has gone where d says. */
  ghost function Posted(b: Book, it: Item, d: Dest): Book {
    match d
    case Drop => b.(cells := b.cells.(freed := b.cells.freed + multiset{it.cell}))
    case ToDm(_) => b
    case ToEm(req) =>
      b.(cells := b.cells.(em := b.cells.em + multiset{it.cell}), em := if req.Submit? then b.em + {it.job} else b.em)
    case ToTm(x) => b.(cells := b.cells.(tm := b.cells.tm + multiset{it.cell}), tm := b.tm[it.job := x])
    case ToRm(answer) =>
      b.(cells := b.cells.(rm := b.cells.rm + multiset{it.cell}), log := b.log.(sent := b.log.sent + multiset{answer}))
  }

  function Queued(q: seq<Item>, it: Item, from: State, d: Dest): seq<Item> {
    if d.ToDm? then q + [Item(d.act, it.job, it.cell, from)] else q
  }

  function Woken(j: Job, ready: bool): Job {
    if ready && j.state.Hold? then j.(state := Pending) else j
  }

  lemma OnlyZombieWakes(a: Action, j: Job, e: Env)
    requires a != Go(Zombie)
    ensures !React(a, j, e).wakes
  {
  }

  /** The pieces of a handler's effect make up the step. */
  lemma Concluded(s: Sys, t: Sys, it: Item, j: Job, r: Reaction, e: Env)
    requires s.queue != [] && it == s.queue[0] && it.job < |s.jobs| && s.jobs[it.job] == Some(j)
    requires t.jobs == var jobs := s.jobs[it.job := r.job]; if r.wakes then Wake(jobs, e.ready) else jobs
    requires t.hosts == Release(s.hosts, r.give, j.history, j.np)
    requires t.users == if r.giveUser then Bump(s.users, j.user, -1) else s.users
    requires t.lastArray == s.lastArray
    requires (t.arrays, t.arrayCount) == if r.job.None? then FreeTask(s.arrays, s.arrayCount, j.arrayId, j.taskId)
                                         else (s.arrays, s.arrayCount)
    requires t.queue == Queued(s.queue[1..], it, j.state, r.dest)
    requires var log := Tally(s.log.(handled := s.log.handled + multiset{it.act}), it.act, j, r);
      Book(t.em, t.tm, t.cells, t.log) == Posted(Book(s.em, s.tm, s.cells, log), it, r.dest)
    ensures t == Conclude(Popped(s), it, j, r, e)
  {
  }

  lemma Unanswerable(s: Sys, t: Sys, it: Item, e: Env)
    requires s.queue != [] && it == s.queue[0] && !s.Alive(it.job)
    requires t == s.(queue := s.queue[1..], em := t.em, tm := t.tm, cells := t.cells, log := t.log)
    requires var log := s.log.(handled := s.log.handled + multiset{it.act});
      Book(t.em, t.tm, t.cells, t.log) == Posted(Book(s.em, s.tm, s.cells, log), it, NoJob(it.act))
    ensures t == Next(s, Handle(e))
  {
  }

  /** The job with its new record, if the record was linked. */
  function WithRecord(j: Job, host: nat, wrapperBased: bool, add: AddResult): Job {
    if add.Refused? then j else j.(history := [NewRecord(host, wrapperBased)] + j.history)
  }

  lemma PendingAssigned(s: Sys, t: Sys, id: nat, host: nat, wrapperBased: bool, add: AddResult)
    requires s.Alive(id) && s.jobs[id].value.state.Pending? && host < |s.hosts|
    requires var j := s.jobs[id].value;
      t == if !add.Added? then s.(jobs := s.jobs[id := Some(WithRecord(j, host, wrapperBased, add))])
           else s.(jobs := s.jobs[id := Some(WithRecord(j, host, wrapperBased, add))],
                   hosts := Acquire(s.hosts, host, j.np), users := Bump(s.users, j.user, 1),
                   queue := s.queue + [Item(Go(Prolog), id, s.cells.next, j.state)],
                   cells := s.cells.(next := s.cells.next + 1))
    ensures t == Assign(s, id, host, wrapperBased, add)
  {
    assert s.jobs[id := s.jobs[id]] == s.jobs;
  }

  lemma MigrationAssigned(s: Sys, t: Sys, id: nat, host: nat, wrapperBased: bool, add: AddResult)
    requires s.Alive(id) && s.jobs[id].value.state.Wrapper? && !CalledOff(s.jobs[id].value) && host < |s.hosts|
    requires var j := s.jobs[id].value;
      t == if !add.Added? then s.(jobs := s.jobs[id := Some(WithRecord(j, host, wrapperBased, add))])
           else var k := WithRecord(j, host, wrapperBased, add).(restarted := j.restarted + 1, reschedule := false);
                s.(jobs := s.jobs[id := Some(k)], hosts := Acquire(s.hosts, host, j.np),
                   queue := s.queue + [Item(Go(MigrCancel), id, s.cells.next, j.state)],
                   cells := s.cells.(next := s.cells.next + 1))
    ensures t == Assign(s, id, host, wrapperBased, add)
  {
    assert s.jobs[id := s.jobs[id]] == s.jobs;
  }

  /** The jobs when a scheduling round has checked the first n slots. */
  function CheckedFrom(jobs: seq<Option<Job>>, n: nat, now: int, period: int, ran: nat -> int): (r: seq<Option<Job>>)
    ensures |r| == |jobs|
  {
    seq(|jobs|, i requires 0 <= i < |jobs| =>
      if i < n && jobs[i].Some? then Some(Checked(jobs[i].value, now, period, ran(i))) else jobs[i])
  }

  lemma OneMoreChecked(s: Sys, t: Sys, i: nat, now: int, period: int, ran: nat -> int)
    requires i < |s.jobs| && t == s.(jobs := CheckedFrom(s.jobs, i, now, period, ran))
    ensures (if t.Alive(i) then Next(t, Event.Check(i, now, period, ran(i))) else t) ==
            s.(jobs := CheckedFrom(s.jobs, i + 1, now, period, ran))
  {
    assert (if t.Alive(i) then t.jobs[i := Some(Checked(t.jobs[i].value, now, period, ran(i)))] else t.jobs) ==
           CheckedFrom(s.jobs, i + 1, now, period, ran);
  }

  /** From s, the first i events lead to t, and the rest of the run is clean. */
  ghost predicate Follows(s: Sys, t: Sys, run: seq<Event>, i: nat)
    requires i <= |run| && CanRun(s, run)
  {
    && CanRun(t, run[i..]) && CleanRun(t, run[i..])
    && After(t, run[i..]) == After(s, run)
  }

  lemma Follow(s: Sys, t: Sys, run: seq<Event>, i: nat)
    requires i < |run| && CanRun(s, run) && Follows(s, t, run, i)
    ensures Enabled(t, run[i]) && Clean(t, run[i]) && Follows(s, Next(t, run[i]), run, i + 1)
  {
    assert run[i..][1..] == run[i + 1..];
  }

  /** Handlers and the creation of jobs allocate no cell. */
  lemma NextCell(s: Sys, ev: Event)
    requires Enabled(s, ev) && (ev.Handle? || ev.NewJob? || ev.NewArray?)
    ensures Next(s, ev).cells.next == s.cells.next
  {
  }

  function Handles(envs: seq<Env>): (r: seq<Event>)
    ensures |r| == |envs|
  { seq(|envs|, i requires 0 <= i < |envs| => Handle(envs[i])) }

  class JobRecord {
    var state: State
    var em: EmState
    var history: seq<Record>
    var restarted: nat
    var waiting: nat
    var reschedule: bool
    const np: nat
    const user: nat
    const arrayId: int
    const taskId: int
    var lastRescheduling: int
    const preWrapper: bool
    const rescheduleOnFailure: bool
    const limits: Limits

    constructor (j: Job)
      ensures Value() == j
    {
      state, em, history, np, user := j.state, j.em, j.history, j.np, j.user;
      arrayId, taskId, restarted, waiting := j.arrayId, j.taskId, j.restarted, j.waiting;
      reschedule, preWrapper, rescheduleOnFailure := j.reschedule, j.preWrapper, j.rescheduleOnFailure;
      limits, lastRescheduling := j.limits, j.lastRescheduling;
    }

    function Value(): Job
      reads this
    {
      Job(state, em, history, np, user, arrayId, taskId, restarted, waiting, reschedule,
          preWrapper, rescheduleOnFailure, limits, lastRescheduling)
    }

    method SetReason(r: Reason)
      modifies `history
      ensures Value() == old(Value()).WithReason(r)
    {
      if history != [] {
        history := history[0 := history[0].(reason := r)];
      }
    }

    /** The running execution is to be cancelled: a pending rescheduling is dropped with it. */
    method CancelFor(to: State, r: Reason)
      modifies `history, `state, `reschedule
      ensures Value() == old(Value()).WithReason(r).(state := to, reschedule := false)
    {
      SetReason(r);
      state := to;
      if reschedule {
        reschedule := false;
      }
    }

    /** Back to PENDING for another start. */
    method Restart()
      modifies `state, `em, `restarted
      ensures Value() == old(Value()).(state := Pending, em := EmInit, restarted := old(restarted) + 1)
    {
      restarted := restarted + 1;
      state := Pending;
      em := EmInit;
    }

    method RestartFor(r: Reason)
      modifies `history, `state, `em, `restarted
      ensures Value() == old(Value()).WithReason(r).(state := Pending, em := EmInit, restarted := old(restarted) + 1)
    {
      SetReason(r);
      Restart();
    }

    /** Another start, on a new host. */
    method Migrates()
      modifies `restarted, `reschedule
      ensures Value() == old(Value()).(restarted := old(restarted) + 1, reschedule := false)
    {
      restarted := restarted + 1;
      reschedule := false;
    }

    /** The user asks for another host. */
    method Flag()
      modifies `history, `reschedule
      ensures Value() == old(Value()).WithReason(UserRequested).(reschedule := true)
    {
      reschedule := true;
      SetReason(UserRequested);
    }

    method StampEpilog(k: nat, now: int)
      requires k < |history|
      modifies `history
      ensures Value() == old(Value()).Stamped(k, now)
    {
      history := history[k := history[k].(epilogStart := now)];
    }
  }

  /** Where the cells that carry job ids come from. */
  class CellHeap {
    var next: nat

    constructor ()
      ensures next == 0
    {
      next := 0;
    }

    method Alloc() returns (cell: nat)
      modifies this
      ensures cell == old(next) && next == cell + 1
    {
      cell := next;
      next := next + 1;
    }
  }

  class DispatchManager {
    const pool: array<JobRecord?>
    var hosts: seq<Host>
    var users: seq<int>
    var arrays: seq<Option<TaskTable>>
    var arrayCount: int
    var lastArray: int
    var queue: seq<Item>

    ghost var book: Book

    constructor (number_of_jobs: nat, number_of_hosts: nat, number_of_users: nat, number_of_arrays: nat)
      ensures Valid() && fresh(pool)
      ensures Snapshot() == Start(number_of_jobs, number_of_hosts, number_of_users, number_of_arrays)
    {
      pool := new JobRecord?[number_of_jobs](i => null);
      hosts := seq(number_of_hosts, i => Host(0, 0));
      users := seq(number_of_users, i => 0);
      arrays, arrayCount, lastArray := seq(number_of_arrays, i => None), 0, -1;
      queue := [];
      book := Book({}, map[], Cells(multiset{}, multiset{}, multiset{}, multiset{}, 0),
                   Log(multiset{}, multiset{}, 0, 0, seq(number_of_users, i => 0)));
    }

    /** No two slots of the pool share a record. */
    ghost predicate Valid()
      reads pool
    {
      forall i, k | 0 <= i < k < pool.Length :: pool[i] != null ==> pool[i] != pool[k]
    }

    ghost function JobsNow(): (r: seq<Option<Job>>)
      reads pool, pool[..]
      ensures |r| == pool.Length
    {
      seq(pool.Length, i requires 0 <= i < pool.Length reads pool, pool[..] =>
        if pool[i] == null then None else Some(pool[i].Value()))
    }

    ghost function Snapshot(): Sys
      reads this, pool, pool[..]
    {
      Sys(JobsNow(), hosts, users, arrays, arrayCount, lastArray, queue,
          book.em, book.tm, book.cells, book.log)
    }

    /** The handler has the job of the action in hand, and every record it follows exists. */
    ghost predicate Ready(it: Item, job: JobRecord, a: Action)
      reads this, pool, job
    {
      && Valid() && it.job < pool.Length && pool[it.job] == job
      && RecordsRead(a, job.Value()) <= |job.history|
      && forall k | 0 <= k < |job.history| :: job.history[k].host < |hosts|
    }

    // ------------------------------------------------------------------------------------------
    // Counters, cells and the pool
    // ------------------------------------------------------------------------------------------

    method DecRjobs(h: nat)
      requires h < |hosts|
      modifies `hosts
      ensures hosts == Less(old(hosts), h, 0, 1)
    {
      hosts := hosts[h := hosts[h].(running := hosts[h].running - 1)];
    }

    method DecUslots(h: nat, np: nat)
      requires h < |hosts|
      modifies `hosts
      ensures hosts == Less(old(hosts), h, np, 0)
    {
      hosts := hosts[h := hosts[h].(used := hosts[h].used - np)];
    }

    method DecSlots(h: nat, np: nat)
      requires h < |hosts|
      modifies `hosts
      ensures hosts == Less(old(hosts), h, np, 1)
    {
      hosts := hosts[h := Host(hosts[h].used - np, hosts[h].running - 1)];
    }

    method DecRunningJobs(u: nat)
      modifies `users
      ensures users == Bump(old(users), u, -1)
    {
      if u < |users| {
        users := users[u := users[u] - 1];
      }
    }

    method TriggerDm(a: Action, it: Item, from: State)
      modifies `queue
      ensures queue == Queued(old(queue), it, from, ToDm(a))
    {
      queue := queue + [Item(a, it.job, it.cell, from)];
    }

    /** The request leaves for another manager, or the cell is freed. */
    method Trigger(d: Dest, it: Item)
      requires !d.ToDm?
      modifies `book
      ensures book == Posted(old(book), it, d)
    {
      book := Posted(book, it, d);
    }

    /** The job's slot is emptied, its task leaves its array, and the array goes with its last task. */
    method FreeJob(id: nat, arrayId: int, taskId: int)
      requires Valid() && id < pool.Length
      modifies pool, `arrays, `arrayCount
      ensures Valid() && pool[..] == old(pool[..])[id := null]
      ensures (arrays, arrayCount) == FreeTask(old(arrays), old(arrayCount), arrayId, taskId)
    {
      pool[id] := null;
      if arrayId != -1 {
        if 0 <= arrayId < |arrays| && arrays[arrayId].Some? {
          var t := DelTask(arrays[arrayId].value, taskId);
          arrays := arrays[arrayId := Some(t)];
          if t.Remaining() == 0 {
            arrays, arrayCount := arrays[arrayId := None], arrayCount - 1;
            assert arrays == old(arrays)[arrayId := None];
          }
        }
      }
    }

    // ------------------------------------------------------------------------------------------
    // What a handler did
    // ------------------------------------------------------------------------------------------

    /** The cell went where the reaction says, and nowhere else. */
    twostate predicate Delivered(it: Item, from: State, d: Dest)
      reads this
    {
      queue == Queued(old(queue), it, from, d) && book == Posted(old(book), it, d)
    }

    /** The counters and the array tables changed as the reaction says. */
    twostate predicate Counted(job: JobRecord, r: Reaction)
      reads this, job
    {
      && hosts == Release(old(hosts), r.give, old(job.history), job.np)
      && users == (if r.giveUser then Bump(old(users), job.user, -1) else old(users))
      && lastArray == old(lastArray)
      && (arrays, arrayCount) == if r.job.None? then FreeTask(old(arrays), old(arrayCount), job.arrayId, job.taskId)
                                 else (old(arrays), old(arrayCount))
    }

    /** The job is what the reaction says, or its slot is empty. */
    twostate predicate Placed(it: Item, job: JobRecord, r: Reaction)
      requires it.job < pool.Length
      reads this, pool, job
    {
      if r.job.Some? then job.Value() == r.job.value && pool[..] == old(pool[..])
      else pool[..] == old(pool[..])[it.job := null]
    }

    twostate predicate Did(it: Item, job: JobRecord, r: Reaction)
      requires it.job < pool.Length
      reads this, pool, job
    {
      Placed(it, job, r) && Counted(job, r) && Delivered(it, old(job.state), r.dest)
    }

    /** Slots of the pool are emptied, never filled. */
    twostate predicate Shrinks()
      reads pool
    {
      forall i | 0 <= i < pool.Length :: pool[i] == null || pool[i] == old(pool[i])
    }

    /** Only the record in slot id was written. */
    twostate lemma OneChanged(id: nat)
      requires id < pool.Length && old(Valid()) && old(pool[id]) != null
      requires pool[..] == old(pool[..])
      requires forall i | 0 <= i < pool.Length && i != id && pool[i] != null :: unchanged(pool[i])
      ensures Valid() && JobsNow() == old(JobsNow())[id := Some(pool[id].Value())]
    {
    }

    /** Only slot id of the pool was written. */
    twostate lemma OneFreed(id: nat)
      requires id < pool.Length && old(Valid()) && pool[..] == old(pool[..])[id := null]
      requires forall i | 0 <= i < pool.Length && i != id && pool[i] != null :: unchanged(pool[i])
      ensures Valid() && JobsNow() == old(JobsNow())[id := None]
    {
    }

    // ------------------------------------------------------------------------------------------
    // User signals
    // ------------------------------------------------------------------------------------------

    method HoldJob(it: Item, job: JobRecord)
      requires Ready(it, job, Ask(SigHold))
      modifies this, job
      ensures Did(it, job, OnSignal(SigHold, old(job.Value())))
    {
      ghost var j := job.Value();
      match job.state {
        case Pending =>
          job.state := Hold;
          Trigger(Reply(SigHold, true), it);
        case _ =>
          Trigger(Reply(SigHold, false), it);
      }
      assert OnSignal(SigHold, j) == Keep(job.Value(), Reply(SigHold, j.state.Pending?));
      ReleaseNothing(hosts, job.Value());
    }

    method ReleaseJob(it: Item, job: JobRecord)
      requires Ready(it, job, Ask(SigRelease))
      modifies this, job
      ensures Did(it, job, OnSignal(SigRelease, old(job.Value())))
    {
      ghost var j := job.Value();
      match job.state {
        case Hold =>
          job.state := Pending;
          Trigger(Reply(SigRelease, true), it);
        case _ =>
          Trigger(Reply(SigRelease, false), it);
      }
      assert OnSignal(SigRelease, j) == Keep(job.Value(), Reply(SigRelease, j.state.Hold?));
      ReleaseNothing(hosts, job.Value());
    }

    method StopJob(it: Item, job: JobRecord)
      requires Ready(it, job, Ask(SigStop))
      modifies this, job
      ensures Did(it, job, OnSignal(SigStop, old(job.Value())))
    {
      ghost var j := job.Value();
      match job.state {
        case Stopped =>
          Trigger(Reply(SigStop, false), it);
        case Wrapper =>
          job.CancelFor(StopCancel, StopResume);
          Trigger(ToEm(Cancel), it);
        case _ =>
          Trigger(Reply(SigStop, false), it);
      }
      assert OnSignal(SigStop, j) ==
             Keep(job.Value(), if j.state.Wrapper? then ToEm(Cancel) else Reply(SigStop, false));
      ReleaseNothing(hosts, job.Value());
    }

    method ResumeJob(it: Item, job: JobRecord)
      requires Ready(it, job, Ask(SigResume))
      modifies this, job
      ensures Did(it, job, OnSignal(SigResume, old(job.Value())))
    {
      ghost var j := job.Value();
      match job.state {
        case Stopped =>
          job.Restart();
          Trigger(Reply(SigResume, true), it);
        case _ =>
          Trigger(Reply(SigResume, false), it);
      }
      assert OnSignal(SigResume, j) == Keep(job.Value(), Reply(SigResume, j.state.Stopped?));
      ReleaseNothing(hosts, job.Value());
    }

    method WaitForJob(it: Item, job: JobRecord)
      requires Ready(it, job, Ask(SigWait))
      modifies this, job
      ensures Did(it, job, OnSignal(SigWait, old(job.Value())))
    {
      ghost var j := job.Value();
      job.waiting := job.waiting + 1;
      match job.state {
        case Zombie | Failed => Trigger(Reply(SigWait, true), it);
        case _ => Trigger(Drop, it);
      }
      assert OnSignal(SigWait, j) ==
             Keep(job.Value(), if j.state.Zombie? || j.state.Failed? then Reply(SigWait, true) else Drop);
      ReleaseNothing(hosts, job.Value());
    }

    method RescheduleJob(it: Item, job: JobRecord)
      requires Ready(it, job, Ask(SigReschedule))
      modifies this, job
      ensures Did(it, job, OnSignal(SigReschedule, old(job.Value())))
    {
      ghost var j := job.Value();
      match job.state {
        case Wrapper =>
          job.Flag();
          Trigger(Reply(SigReschedule, true), it);
        case Failed =>
          job.RestartFor(UserRequested);
          Trigger(Reply(SigReschedule, true), it);
        case _ =>
          Trigger(Reply(SigReschedule, false), it);
      }
      ReleaseNothing(hosts, job.Value());
    }

    method KillJob(it: Item, job: JobRecord)
      requires Ready(it, job, Ask(SigKill))
      modifies this, job, pool
      ensures Did(it, job, OnSignal(SigKill, old(job.Value())))
    {
      match job.state {
        case Init | Pending | Hold | Stopped | Failed | Zombie =>
          FreeJob(it.job, job.arrayId, job.taskId);
          Trigger(Reply(SigKill, true), it);
        case Wrapper =>
          job.CancelFor(KillCancel, KillReason);
          Trigger(ToEm(Cancel), it);
        case _ =>
          Trigger(Reply(SigKill, false), it);
      }
      ReleaseNothing(hosts, job.Value());
    }

    /** The source's switch falls through its cases: each one adds to what the ones after it give back. */
    method KillJobHard(it: Item, job: JobRecord)
      requires Ready(it, job, Ask(SigKillHard))
      modifies this, job, pool
      ensures Did(it, job, OnSignal(SigKillHard, old(job.Value())))
    {
      FallThrough(hosts, job.Value());
      var st := job.state;
      if st.MigrProlog? || st.MigrEpilog? {
        DecRjobs(job.history[1].host);
      }
      if st.MigrProlog? || st.MigrEpilog? || st.Prolog? {
        DecUslots(job.history[0].host, job.np);
      }
      if InEpilog(st) || st.MigrProlog? || st.Prolog? {
        DecRjobs(job.history[0].host);
      }
      if st.PreWrapper? || st.Wrapper? {
        DecSlots(job.history[0].host, job.np);
      }
      if st.MigrCancel? {
        DecSlots(job.history[1].host, job.np);
      }
      if st.MigrCancel? || st.StopCancel? || st.KillCancel? {
        DecSlots(job.history[0].host, job.np);
      }
      FreeJob(it.job, job.arrayId, job.taskId);
      Trigger(Reply(SigKill, true), it);
    }

    // ------------------------------------------------------------------------------------------
    // Reports of the other managers
    // ------------------------------------------------------------------------------------------

    /** PENDING when the template asks for rescheduling on failure, FAILED otherwise. */
    method TriggerFailure(it: Item, job: JobRecord, from: State)
      modifies `queue
      ensures queue == Queued(old(queue), it, from, AfterFailure(job.Value()))
    {
      if job.rescheduleOnFailure {
        TriggerDm(Go(Pending), it, from);
      } else {
        TriggerDm(Go(Failed), it, from);
      }
    }

    method PrologDone(it: Item, job: JobRecord)
      requires Ready(it, job, Report(PrologStage, true))
      modifies this, job
      ensures Did(it, job, OnProlog(true, old(job.Value())))
    {
      ReleaseNothing(hosts, job.Value());
      match job.state {
        case Prolog =>
          if job.preWrapper {
            TriggerDm(Go(PreWrapper), it, job.state);
          } else {
            TriggerDm(Go(Wrapper), it, job.state);
          }
        case MigrProlog => TriggerDm(Go(MigrEpilog), it, job.state);
        case _ => Trigger(Drop, it);
      }
    }

    method PrologFailed(it: Item, job: JobRecord)
      requires Ready(it, job, Report(PrologStage, false))
      modifies this, job
      ensures Did(it, job, OnProlog(false, old(job.Value())))
    {
      FailedPrologReturns(hosts, job.Value());
      if job.state.MigrProlog? {
        if |job.history| > 1 {
          DecRjobs(job.history[1].host);
        }
      }
      job.SetReason(ExecutionError);
      DecUslots(job.history[0].host, job.np);
      TriggerFailure(it, job, job.state);
    }

    /** The job's execution has ended by itself. */
    method ExecutionDone(it: Item, job: JobRecord)
      requires job.history != [] && job.history[0].host < |hosts|
      modifies `queue, `hosts, job`reschedule
      ensures hosts == Less(old(hosts), job.history[0].host, job.np, 0) && !job.reschedule
      ensures queue == Queued(old(queue), it, job.state,
                              ToDm(Go(if job.history[0].wrapperBased then EpilogStd else Epilog)))
    {
      DecUslots(job.history[0].host, job.np);
      if job.reschedule {
        job.reschedule := false;
      }
      if job.history[0].wrapperBased {
        TriggerDm(Go(EpilogStd), it, job.state);
      } else {
        TriggerDm(Go(Epilog), it, job.state);
      }
    }

    /** The execution of a job that is being stopped or killed has ended. */
    method ExecutionCancelled(it: Item, job: JobRecord, to: State)
      requires job.history != [] && job.history[0].host < |hosts|
      modifies `queue, `hosts
      ensures hosts == Less(old(hosts), job.history[0].host, job.np, 0)
      ensures queue == Queued(old(queue), it, job.state, ToDm(Go(to)))
    {
      DecUslots(job.history[0].host, job.np);
      TriggerDm(Go(to), it, job.state);
    }

    /** The execution on the old host of a migrating job has ended. */
    method MigrationCancelled(it: Item, job: JobRecord)
      requires |job.history| >= 2 && job.history[1].host < |hosts|
      modifies `queue, `hosts
      ensures hosts == Less(old(hosts), job.history[1].host, job.np, 0)
      ensures queue == Queued(old(queue), it, job.state, ToDm(Go(MigrProlog)))
    {
      DecUslots(job.history[1].host, job.np);
      TriggerDm(Go(MigrProlog), it, job.state);
    }

    /** The execution of a job that is leaving its host has ended. */
    method CancelDone(it: Item, job: JobRecord)
      requires Ready(it, job, Report(WrapperStage, true)) && job.em.EmInit?
      requires job.state.StopCancel? || job.state.KillCancel? || job.state.MigrCancel?
      modifies `queue, `hosts
      ensures Did(it, job, OnWrapper(true, old(job.Value())))
    {
      WrapperReturns(hosts, job.Value());
      if job.state.StopCancel? {
        ExecutionCancelled(it, job, StopEpilog);
      } else if job.state.KillCancel? {
        ExecutionCancelled(it, job, KillEpilog);
      } else {
        MigrationCancelled(it, job);
      }
    }

    method WrapperDone(it: Item, job: JobRecord)
      requires Ready(it, job, Report(WrapperStage, true))
      modifies this, job
      ensures Did(it, job, OnWrapper(true, old(job.Value())))
    {
      job.em := EmInit;
      LeaveWrapper(it, job);
    }

    method LeaveWrapper(it: Item, job: JobRecord)
      requires Ready(it, job, Report(WrapperStage, true)) && job.em.EmInit?
      modifies `queue, `hosts, `book, job`reschedule
      ensures Did(it, job, OnWrapper(true, old(job.Value())))
    {
      WrapperReturns(hosts, job.Value());
      match job.state {
        case PreWrapper => TriggerDm(Go(Wrapper), it, job.state);
        case Wrapper => ExecutionDone(it, job);
        case StopCancel | KillCancel | MigrCancel => CancelDone(it, job);
        case _ => Trigger(Drop, it);
      }
    }

    method WrapperFailed(it: Item, job: JobRecord)
      requires Ready(it, job, Report(WrapperStage, false))
      modifies this, job
      ensures Did(it, job, OnWrapper(false, old(job.Value())))
    {
      WrapperReturns(hosts, job.Value());
      job.em := EmInit;
      match job.state {
        case Wrapper =>
          if job.reschedule {
            job.reschedule := false;
          }
        case _ =>
      }
      if job.history != [] {
        job.SetReason(ExecutionError);
        DecUslots(job.history[0].host, job.np);
      }
      TriggerDm(Go(EpilogFail), it, job.state);
    }

    /** The wrapper's standard output is parsed; true if it holds the exit status of a job that has ended. */
    method ParseWrapperOutput(job: JobRecord, output: WrapperOutput) returns (exited: bool)
      requires job.history != []
      modifies job`history
      ensures exited <==> output.Status? && (output.text == [] || (output.text[0] != 'S' && output.text[0] != 'P'))
      ensures job.Value() == match OutcomeOf(output)
                             case Exited => old(job.Value())
                             case AsksMigration => old(job.Value()).WithReason(SelfMigration)
                             case Slowdown => old(job.Value()).WithReason(Performance)
                             case Unreadable => old(job.Value()).WithReason(ExecutionError)
    {
      if output.Status? {
        if output.text != [] && output.text[0] == 'S' {
          job.SetReason(SelfMigration);
          return false;
        } else if output.text != [] && output.text[0] == 'P' {
          job.SetReason(Performance);
          return false;
        }
        return true;
      }
      job.SetReason(ExecutionError);
      return false;
    }

    method TriggerRestart(it: Item, job: JobRecord)
      requires job.history != []
      modifies `queue
      ensures queue == Queued(old(queue), it, job.state,
                              if job.history[0].reason.Performance? || job.history[0].reason.SelfMigration?
                              then ToDm(Go(Pending)) else AfterFailure(job.Value()))
    {
      match job.history[0].reason {
        case Performance | SelfMigration => TriggerDm(Go(Pending), it, job.state);
        case _ => TriggerFailure(it, job, job.state);
      }
    }

    method EpilogDone(it: Item, job: JobRecord, e: Env)
      requires Ready(it, job, Report(EpilogStage, true))
      modifies this, job
      ensures Did(it, job, OnEpilog(true, old(job.Value()), e))
    {
      EpilogReturns(hosts, job.Value());
      match job.state {
        case Epilog | KillEpilog => TriggerDm(Go(Zombie), it, job.state);
        case MigrEpilog =>
          TriggerDm(Go(Wrapper), it, job.state);
          DecRjobs(job.history[1].host);
        case StopEpilog => TriggerDm(Go(Stopped), it, job.state);
        case EpilogFail => TriggerFailure(it, job, job.state);
        case EpilogRestart => TriggerRestart(it, job);
        case EpilogStd =>
          var exited := ParseWrapperOutput(job, e.output);
          if exited {
            TriggerDm(Go(Epilog), it, job.state);
          } else {
            TriggerDm(Go(EpilogRestart), it, job.state);
          }
        case _ => Trigger(Drop, it);
      }
    }

    method EpilogFailed(it: Item, job: JobRecord, e: Env)
      requires Ready(it, job, Report(EpilogStage, false))
      modifies this, job
      ensures Did(it, job, OnEpilog(false, old(job.Value()), e))
    {
      EpilogReturns(hosts, job.Value());
      match job.state {
        case Epilog | EpilogFail =>
          job.SetReason(ExecutionError);
          TriggerFailure(it, job, job.state);
        case KillEpilog => TriggerDm(Go(Zombie), it, job.state);
        case MigrEpilog =>
          TriggerDm(Go(Wrapper), it, job.state);
          DecRjobs(job.history[1].host);
        case StopEpilog => TriggerDm(Go(Stopped), it, job.state);
        case EpilogRestart => TriggerRestart(it, job);
        case EpilogStd =>
          job.SetReason(ExecutionError);
          TriggerDm(Go(EpilogRestart), it, job.state);
        case _ => Trigger(Drop, it);
      }
    }

    // ------------------------------------------------------------------------------------------
    // State transitions
    // ------------------------------------------------------------------------------------------

    method StartProlog(it: Item, job: JobRecord, environmentOk: bool, from: State)
      modifies `queue, `book
      ensures Delivered(it, from, if environmentOk then ToTm(PrologXfer) else ToDm(Report(PrologStage, false)))
    {
      if environmentOk {
        Trigger(ToTm(PrologXfer), it);
      } else {
        TriggerDm(Report(PrologStage, false), it, from);
      }
    }

    method EnterProlog(it: Item, job: JobRecord, e: Env)
      requires Ready(it, job, Go(Prolog))
      modifies this, job
      ensures Did(it, job, Enter(Prolog, old(job.Value()), e))
    {
      ReleaseNothing(hosts, job.Value());
      var from := job.state;
      if !job.state.Prolog? {
        job.state := Prolog;
      }
      StartProlog(it, job, e.environmentOk, from);
    }

    method EnterMigrProlog(it: Item, job: JobRecord, e: Env)
      requires Ready(it, job, Go(MigrProlog))
      modifies this, job
      ensures Did(it, job, Enter(MigrProlog, old(job.Value()), e))
    {
      ReleaseNothing(hosts, job.Value());
      var from := job.state;
      job.state := MigrProlog;
      StartProlog(it, job, e.environmentOk, from);
    }

    method EnterPreWrapper(it: Item, job: JobRecord, e: Env)
      requires Ready(it, job, Go(PreWrapper))
      modifies this, job
      ensures Did(it, job, Enter(PreWrapper, old(job.Value()), e))
    {
      ReleaseNothing(hosts, job.Value());
      job.state := PreWrapper;
      job.em := EmInit;
      Trigger(ToEm(Submit), it);
    }

    method EnterWrapper(it: Item, job: JobRecord, e: Env)
      requires Ready(it, job, Go(Wrapper))
      modifies this, job
      ensures Did(it, job, Enter(Wrapper, old(job.Value()), e))
    {
      ReleaseNothing(hosts, job.Value());
      job.state := Wrapper;
      job.em := EmInit;
      Trigger(ToEm(Submit), it);
    }

    method EnterMigrCancel(it: Item, job: JobRecord, e: Env)
      requires Ready(it, job, Go(MigrCancel))
      modifies this, job
      ensures Did(it, job, Enter(MigrCancel, old(job.Value()), e))
    {
      ReleaseNothing(hosts, job.Value());
      if job.state.Wrapper? && !job.em.EmDone? {
        job.state := MigrCancel;
        Trigger(ToEm(Cancel), it);
      } else {
        Trigger(Drop, it);
      }
    }

    /** EPILOG_STD, STOP_EPILOG, KILL_EPILOG, EPILOG_FAIL and MIGR_EPILOG set the state and stamp the start unless
        the job is there already. */
    method EnterStampedEpilog(to: State, it: Item, job: JobRecord, e: Env)
      requires to.EpilogStd? || to.StopEpilog? || to.KillEpilog? || to.EpilogFail? || to.MigrEpilog?
      requires Ready(it, job, Go(to))
      modifies this, job
      ensures Did(it, job, EnterEpilog(to, old(job.Value()), e))
    {
      ReleaseNothing(hosts, job.Value());
      if job.state != to {
        job.state := to;
        job.StampEpilog(if to.MigrEpilog? then 1 else 0, e.now);
      }
      Trigger(ToTm(EpilogXfer), it);
    }

    /** EPILOG keeps the start time of EPILOG_STD. */
    method EnterLastEpilog(it: Item, job: JobRecord, e: Env)
      requires Ready(it, job, Go(Epilog))
      modifies this, job
      ensures Did(it, job, EnterEpilog(Epilog, old(job.Value()), e))
    {
      ReleaseNothing(hosts, job.Value());
      if !job.state.EpilogStd? && !job.state.Epilog? {
        job.StampEpilog(0, e.now);
      }
      if !job.state.Epilog? {
        job.state := Epilog;
      }
      Trigger(ToTm(EpilogXfer), it);
    }

    method EnterEpilogRestart(it: Item, job: JobRecord, e: Env)
      requires Ready(it, job, Go(EpilogRestart))
      modifies this, job
      ensures Did(it, job, EnterEpilog(EpilogRestart, old(job.Value()), e))
    {
      ReleaseNothing(hosts, job.Value());
      if !job.state.EpilogRestart? {
        job.state := EpilogRestart;
      }
      Trigger(ToTm(EpilogXfer), it);
    }

    method EnterPending(it: Item, job: JobRecord, e: Env)
      requires Ready(it, job, Go(Pending))
      modifies this, job
      ensures Did(it, job, Enter(Pending, old(job.Value()), e))
    {
      LessReleases(hosts, job.Value(), 0, false, true);
      job.state := Pending;
      DecRunningJobs(job.user);
      DecRjobs(job.history[0].host);
      job.restarted := job.restarted + 1;
      Trigger(Drop, it);
    }

    method EnterFailed(it: Item, job: JobRecord, e: Env)
      requires Ready(it, job, Go(Failed))
      modifies this, job
      ensures Did(it, job, Enter(Failed, old(job.Value()), e))
    {
      LessReleases(hosts, job.Value(), 0, false, true);
      job.state := Failed;
      if job.waiting > 0 {
        Trigger(Reply(SigWait, true), it);
      } else {
        Trigger(Drop, it);
      }
      DecRunningJobs(job.user);
      DecRjobs(job.history[0].host);
    }

    method EnterStopped(it: Item, job: JobRecord, e: Env)
      requires Ready(it, job, Go(Stopped))
      modifies this, job
      ensures Did(it, job, Enter(Stopped, old(job.Value()), e))
    {
      LessReleases(hosts, job.Value(), 0, false, true);
      job.state := Stopped;
      DecRunningJobs(job.user);
      DecRjobs(job.history[0].host);
      Trigger(Reply(SigStop, true), it);
    }

    /** The finished job is a zombie: it leaves its host, and whoever waits for it is told. */
    method BuryJob(it: Item, job: JobRecord, e: Env)
      requires Ready(it, job, Go(Zombie)) && job.state.Epilog?
      modifies this, job
      ensures Did(it, job, Enter(Zombie, old(job.Value()), e))
    {
      LessReleases(hosts, job.Value(), 0, false, true);
      var from := job.state;
      job.state := Zombie;
      job.SetReason(ReasonNone);
      if job.waiting > 0 {
        Trigger(Reply(SigWait, true), it);
      } else if e.dispose {
        TriggerDm(Ask(SigKill), it, from);
      } else {
        Trigger(Drop, it);
      }
      DecRunningJobs(job.user);
      DecRjobs(job.history[0].host);
    }

    /** The killed job leaves its host and is freed. */
    method FreeKilledJob(it: Item, job: JobRecord, e: Env)
      requires Ready(it, job, Go(Zombie)) && job.state.KillEpilog?
      modifies this, job, pool
      ensures Did(it, job, Enter(Zombie, old(job.Value()), e))
    {
      LessReleases(hosts, job.Value(), 0, false, true);
      job.state := Zombie;
      DecRunningJobs(job.user);
      DecRjobs(job.history[0].host);
      FreeJob(it.job, job.arrayId, job.taskId);
      Trigger(Reply(SigKill, true), it);
    }

    /** Held jobs whose dependencies are met are released, one slot of the pool after the other. */
    method DepCheck(ready: set<nat>)
      requires Valid()
      modifies pool[..]
      ensures JobsNow() == Wake(old(JobsNow()), ready)
    {
      for i := 0 to pool.Length
        invariant forall k | i <= k < pool.Length && pool[k] != null :: unchanged(pool[k])
        invariant forall k | 0 <= k < i && pool[k] != null :: pool[k].Value() == Woken(old(pool[k].Value()), k in ready)
      {
        if i in ready && pool[i] != null && pool[i].state.Hold? {
          pool[i].state := Pending;
        }
      }
      WakesAll(ready);
    }

    /** Waking job by job wakes the pool. */
    twostate lemma WakesAll(ready: set<nat>)
      requires pool[..] == old(pool[..])
      requires forall k | 0 <= k < pool.Length && pool[k] != null ::
                 pool[k].Value() == Woken(old(pool[k].Value()), k in ready)
      ensures JobsNow() == Wake(old(JobsNow()), ready)
    {
    }

    method FinishJob(it: Item, job: JobRecord, e: Env)
      requires Ready(it, job, Go(Zombie)) && job.state.Epilog?
      modifies this, pool[..]
      ensures var r := Enter(Zombie, old(job.Value()), e); Counted(job, r) && Delivered(it, old(job.state), r.dest)
      ensures Valid() && pool[..] == old(pool[..])
      ensures JobsNow() == Wake(old(JobsNow())[it.job := Enter(Zombie, old(job.Value()), e).job], e.ready)
    {
      BuryJob(it, job, e);
      OneChanged(it.job);
      DepCheck(e.ready);
    }

    method RemoveKilled(it: Item, job: JobRecord, e: Env)
      requires Ready(it, job, Go(Zombie)) && job.state.KillEpilog?
      modifies this, job, pool
      ensures var r := Enter(Zombie, old(job.Value()), e); Counted(job, r) && Delivered(it, old(job.state), r.dest)
      ensures Valid() && Shrinks() && JobsNow() == old(JobsNow())[it.job := None]
    {
      FreeKilledJob(it, job, e);
      OneFreed(it.job);
    }

    /** ZOMBIE in any other state frees the cell and nothing else. */
    method IgnoreZombie(it: Item, job: JobRecord, e: Env)
      requires Ready(it, job, Go(Zombie)) && !job.state.Epilog? && !job.state.KillEpilog?
      modifies `book
      ensures var r := Enter(Zombie, old(job.Value()), e); Counted(job, r) && Delivered(it, old(job.state), r.dest)
      ensures JobsNow() == old(JobsNow())[it.job := Some(job.Value())]
    {
      ReleaseNothing(hosts, job.Value());
      Trigger(Drop, it);
      OneChanged(it.job);
    }

    method EnterZombie(it: Item, job: JobRecord, e: Env)
      requires Ready(it, job, Go(Zombie))
      modifies this, pool, pool[..]
      ensures var r := Enter(Zombie, old(job.Value()), e); Counted(job, r) && Delivered(it, old(job.state), r.dest)
      ensures Valid() && Shrinks()
      ensures var r := Enter(Zombie, old(job.Value()), e);
        JobsNow() == var jobs := old(JobsNow())[it.job := r.job]; if r.wakes then Wake(jobs, e.ready) else jobs
    {
      match job.state {
        case Epilog => FinishJob(it, job, e);
        case KillEpilog => RemoveKilled(it, job, e);
        case _ => IgnoreZombie(it, job, e);
      }
    }

    // ------------------------------------------------------------------------------------------
    // The loop of the action manager
    // ------------------------------------------------------------------------------------------

    method HandleSignal(it: Item, job: JobRecord, ghost e: Env)
      requires it.act.Ask? && Ready(it, job, it.act)
      modifies this, pool, job
      ensures Did(it, job, React(it.act, old(job.Value()), e))
    {
      match it.act.sig {
        case SigHold => HoldJob(it, job);
        case SigRelease => ReleaseJob(it, job);
        case SigStop => StopJob(it, job);
        case SigResume => ResumeJob(it, job);
        case SigKill => KillJob(it, job);
        case SigKillHard => KillJobHard(it, job);
        case SigWait => WaitForJob(it, job);
        case SigReschedule => RescheduleJob(it, job);
      }
    }

    method HandleReport(it: Item, job: JobRecord, e: Env)
      requires it.act.Report? && Ready(it, job, it.act)
      modifies this, job
      ensures Did(it, job, React(it.act, old(job.Value()), e))
    {
      match it.act {
        case Report(PrologStage, done) => if done { PrologDone(it, job); } else { PrologFailed(it, job); }
        case Report(WrapperStage, done) => if done { WrapperDone(it, job); } else { WrapperFailed(it, job); }
        case Report(EpilogStage, done) => if done { EpilogDone(it, job, e); } else { EpilogFailed(it, job, e); }
      }
    }

    method HandleEpilogEntry(it: Item, job: JobRecord, e: Env)
      requires it.act.Go? && InEpilog(it.act.to) && Ready(it, job, it.act)
      modifies this, job
      ensures Did(it, job, React(it.act, old(job.Value()), e))
    {
      var to := it.act.to;
      if to.Epilog? {
        EnterLastEpilog(it, job, e);
      } else if to.EpilogRestart? {
        EnterEpilogRestart(it, job, e);
      } else {
        EnterStampedEpilog(to, it, job, e);
      }
    }

    method HandleEntry(it: Item, job: JobRecord, e: Env)
      requires it.act.Go? && !InEpilog(it.act.to) && !it.act.to.Zombie? && Ready(it, job, it.act)
      modifies this, job
      ensures Did(it, job, React(it.act, old(job.Value()), e))
    {
      match it.act.to {
        case Prolog => EnterProlog(it, job, e);
        case MigrProlog => EnterMigrProlog(it, job, e);
        case PreWrapper => EnterPreWrapper(it, job, e);
        case Wrapper => EnterWrapper(it, job, e);
        case MigrCancel => EnterMigrCancel(it, job, e);
        case Pending => EnterPending(it, job, e);
        case Failed => EnterFailed(it, job, e);
        case Stopped => EnterStopped(it, job, e);
        case Init | Hold | StopCancel | KillCancel =>
          // no handler is registered under these names
          ReleaseNothing(hosts, job.Value());
          Trigger(Drop, it);
        case _ =>
          assert false;
      }
    }

    method HandleOther(it: Item, job: JobRecord, e: Env)
      requires it.act != Go(Zombie) && Ready(it, job, it.act)
      modifies this, pool, job
      ensures Did(it, job, React(it.act, old(job.Value()), e))
    {
      match it.act {
        case Ask(_) => HandleSignal(it, job, e);
        case Report(_, _) => HandleReport(it, job, e);
        case Go(to) =>
          if InEpilog(to) {
            HandleEpilogEntry(it, job, e);
          } else {
            HandleEntry(it, job, e);
          }
      }
    }

    /** The handler registered under the action's name runs on the job. */
    method Serve(it: Item, job: JobRecord, e: Env)
      requires Ready(it, job, it.act)
      modifies this, pool, pool[..]
      ensures var r := React(it.act, old(job.Value()), e); Counted(job, r) && Delivered(it, old(job.state), r.dest)
      ensures Valid() && Shrinks()
      ensures var r := React(it.act, old(job.Value()), e);
        JobsNow() == var jobs := old(JobsNow())[it.job := r.job]; if r.wakes then Wake(jobs, e.ready) else jobs
    {
      if it.act == Go(Zombie) {
        EnterZombie(it, job, e);
      } else {
        ghost var j := job.Value();
        HandleOther(it, job, e);
        OnlyZombieWakes(it.act, j, e);
        if React(it.act, j, e).job.Some? {
          OneChanged(it.job);
        } else {
          OneFreed(it.job);
        }
      }
    }

    /** The action at the head of the queue can be handled: if its job exists, so does every record and host its
        handler follows. */
    ghost predicate HeadReady()
      requires queue != []
      reads this, pool, pool[..]
    {
      queue[0].job < pool.Length && pool[queue[0].job] != null ==> Ready(queue[0], pool[queue[0].job], queue[0].act)
    }

    /** The handler runs on the job of an action that has left the queue. */
    method HandleJob(it: Item, job: JobRecord, e: Env, ghost s: Sys)
      requires Ready(it, job, it.act) && s.queue != [] && it == s.queue[0]
      requires Snapshot() == Popped(s)
      modifies this, pool, pool[..]
      ensures Valid() && Shrinks()
      ensures Snapshot() == Conclude(Popped(s), it, old(job.Value()), React(it.act, old(job.Value()), e), e)
    {
      ghost var j := job.Value();
      ghost var r := React(it.act, j, e);
      book := book.(log := Tally(book.log, it.act, j, r));
      Serve(it, job, e);
      Concluded(s, Snapshot(), it, j, r, e);
    }

    /** One round of the loop: the action at the head of the queue is taken off and handled. */
    method HandleNext(e: Env)
      requires Valid() && queue != [] && HeadReady()
      modifies this, pool, pool[..]
      ensures Valid() && Shrinks() && Snapshot() == Next(old(Snapshot()), Handle(e))
    {
      ghost var s := Snapshot();
      var it := queue[0];
      queue := queue[1..];
      book := book.(log := book.log.(handled := book.log.handled + multiset{it.act}));
      if it.job < pool.Length && pool[it.job] != null {
        HandleJob(it, pool[it.job], e, s);
      } else {
        Trigger(NoJob(it.act), it);
        Unanswerable(s, Snapshot(), it, e);
      }
    }

    /** The invariant makes every head of the queue ready: no handler follows a missing record. */
    lemma InvariantMakesReady()
      requires Valid() && queue != [] && Inv(Snapshot())
      ensures HeadReady()
    {
      var s := Snapshot();
      if s.Alive(queue[0].job) {
        Consequences.RecordsExist(s);
        assert JobOk(s, queue[0].job);
      }
    }

    /** A clean round keeps the books balanced. */
    method HandleCleanly(e: Env)
      requires Valid() && Inv(Snapshot()) && queue != [] && Clean(Snapshot(), Handle(e))
      modifies this, pool, pool[..]
      ensures Valid() && Inv(Snapshot()) && Snapshot() == Next(old(Snapshot()), Handle(e)) && Shrinks()
    {
      InvariantMakesReady();
      StepKeeps(Snapshot(), Handle(e));
      HandleNext(e);
    }

    /** The loop handles one action per environment. As long as every step is clean it follows the model, and the
        books stay balanced. */
    method Loop(envs: seq<Env>)
      requires Valid() && Inv(Snapshot())
      requires CanRun(Snapshot(), Handles(envs)) && CleanRun(Snapshot(), Handles(envs))
      modifies this, pool, pool[..]
      ensures Valid() && Inv(Snapshot()) && Snapshot() == After(old(Snapshot()), Handles(envs))
    {
      ghost var s := Snapshot();
      for i := 0 to |envs|
        invariant Valid() && Inv(Snapshot()) && Shrinks()
        invariant Follows(s, Snapshot(), Handles(envs), i)
      {
        Follow(s, Snapshot(), Handles(envs), i);
        HandleCleanly(envs[i]);
      }
    }

    // ------------------------------------------------------------------------------------------
    // The scheduler's threads
    // ------------------------------------------------------------------------------------------

    /** Adds a record to the job's history. False means that it was refused, or linked but not saved. */
    method AddHistory(job: JobRecord, host: nat, wrapperBased: bool, add: AddResult) returns (ok: bool)
      modifies job`history
      ensures ok == add.Added?
      ensures job.history == if add.Refused? then old(job.history)
                             else [NewRecord(host, wrapperBased)] + old(job.history)
    {
      if !add.Refused? {
        job.history := [NewRecord(host, wrapperBased)] + job.history;
      }
      ok := add.Added?;
    }

    /** An action is queued in a newly allocated cell. */
    method Post(a: Action, id: nat, heap: CellHeap, from: State)
      requires heap.next == book.cells.next
      modifies `queue, `book, heap
      ensures queue == old(queue) + [Item(a, id, old(heap.next), from)]
      ensures book == old(book).(cells := old(book).cells.(next := old(heap.next) + 1))
      ensures heap.next == old(heap.next) + 1
    {
      var cell := heap.Alloc();
      queue := queue + [Item(a, id, cell, from)];
      book := book.(cells := book.cells.(next := cell + 1));
    }

    method IncSlots(h: nat, np: nat)
      requires h < |hosts|
      modifies `hosts
      ensures hosts == Acquire(old(hosts), h, np)
    {
      hosts := hosts[h := Host(hosts[h].used + np, hosts[h].running + 1)];
    }

    method IncRunningJobs(u: nat)
      modifies `users
      ensures users == Bump(old(users), u, 1)
    {
      if u < |users| {
        users := users[u := users[u] + 1];
      }
    }

    method Uncheck(job: JobRecord)
      modifies job`history, job`reschedule
      ensures job.Value() == Unchecked(old(job.Value()))
    {
      if job.history != [] && !job.state.Pending? {
        job.reschedule := false;
        job.SetReason(ReasonNone);
      }
    }

    method UncheckJob(id: nat)
      requires Valid()
      modifies pool[..]
      ensures Valid() && Snapshot() == Next(old(Snapshot()), Event.Uncheck(id))
    {
      if id < pool.Length && pool[id] != null {
        Uncheck(pool[id]);
        OneChanged(id);
      }
    }

    method CheckSuspension(job: JobRecord, now: int)
      requires job.history != []
      modifies job`history, job`reschedule
      ensures job.Value() == if SuspendedTooLong(old(job.Value()), now)
                             then old(job.Value()).WithReason(SuspensionTime).(reschedule := true) else old(job.Value())
    {
      if job.limits.suspensionTimeout > 0 && (job.em.EmPending? || job.em.EmSuspended?) {
        var total := job.history[0].suspension + now - job.history[0].lastSuspension;
        if total > job.limits.suspensionTimeout {
          job.reschedule := true;
          job.SetReason(SuspensionTime);
        }
      }
    }

    method CheckRescheduling(job: JobRecord, now: int, period: int, ran: int)
      modifies job`history, job`reschedule, job`lastRescheduling
      ensures job.Value() ==
        var k := if DueAgain(old(job.Value()), now, ran)
                 then old(job.Value()).WithReason(ReschedulingTimeout).(reschedule := true) else old(job.Value());
        k.(lastRescheduling := LastLook(old(job.Value()), now, period))
    {
      if job.limits.reschedulingInterval > 0 {
        if job.lastRescheduling == 0 {
          job.lastRescheduling := now - period;
        } else if now - job.lastRescheduling > job.limits.reschedulingInterval {
          if ran < job.limits.reschedulingThreshold {
            job.reschedule := true;
            job.SetReason(ReschedulingTimeout);
          }
          job.lastRescheduling := now;
        }
      }
    }

    method Check(job: JobRecord, now: int, period: int, ran: int)
      modifies job`history, job`reschedule, job`lastRescheduling
      ensures job.Value() == Checked(old(job.Value()), now, period, ran)
    {
      if job.state.Wrapper? && job.history != [] && job.history[0].reason.ReasonNone? {
        CheckSuspension(job, now);
        CheckRescheduling(job, now, period, ran);
      }
    }

    method CheckJob(id: nat, now: int, period: int, ran: int)
      requires Valid() && id < pool.Length && pool[id] != null
      modifies pool[id]
      ensures Valid() && Snapshot() == Next(old(Snapshot()), Event.Check(id, now, period, ran))
    {
      Check(pool[id], now, period, ran);
      OneChanged(id);
    }

    /** A scheduling round checks every job; ran tells how long each one's wrapper has run. */
    method CheckJobs(now: int, period: int, ran: nat -> int)
      requires Valid()
      modifies pool[..]
      ensures Valid() && (old(Inv(Snapshot())) ==> Inv(Snapshot()))
      ensures Snapshot() == old(Snapshot()).(jobs := CheckedFrom(old(JobsNow()), pool.Length, now, period, ran))
    {
      ghost var s := Snapshot();
      assert CheckedFrom(s.jobs, 0, now, period, ran) == s.jobs;
      for i := 0 to pool.Length
        invariant Valid() && (Inv(s) ==> Inv(Snapshot()))
        invariant Snapshot() == s.(jobs := CheckedFrom(s.jobs, i, now, period, ran))
      {
        OneMoreChecked(s, Snapshot(), i, now, period, ran);
        if pool[i] != null {
          if Inv(s) {
            StepKeeps(Snapshot(), Event.Check(i, now, period, ran(i)));
          }
          CheckJob(i, now, period, ran(i));
        }
      }
    }

    /** The first dispatch of a job. */
    method FirstDispatch(job: JobRecord, id: nat, host: nat, wrapperBased: bool, add: AddResult, heap: CellHeap)
      returns (rc: int)
      requires Valid() && id < pool.Length && pool[id] == job
      requires job.state.Pending? && host < |hosts| && heap.next == book.cells.next
      modifies this, job`history, heap
      ensures heap.next == book.cells.next
      ensures Valid() && Snapshot() == Next(old(Snapshot()), Event.Dispatch(id, host, wrapperBased, add))
      ensures rc == if add.Added? then 0 else -1
    {
      ghost var s := Snapshot();
      var ok := AddHistory(job, host, wrapperBased, add);
      OneChanged(id);
      if ok {
        IncSlots(host, job.np);
        IncRunningJobs(job.user);
        Post(Go(Prolog), id, heap, job.state);
        rc := 0;
      } else {
        rc := -1;
      }
      PendingAssigned(s, Snapshot(), id, host, wrapperBased, add);
    }

    /** The dispatch of a running job to a new host. */
    method Migrate(job: JobRecord, id: nat, host: nat, wrapperBased: bool, add: AddResult, heap: CellHeap)
      returns (rc: int)
      requires Valid() && id < pool.Length && pool[id] == job
      requires job.state.Wrapper? && !CalledOff(job.Value()) && host < |hosts| && heap.next == book.cells.next
      modifies this, job`history, job`restarted, job`reschedule, heap
      ensures heap.next == book.cells.next
      ensures Valid() && Snapshot() == Next(old(Snapshot()), Event.Dispatch(id, host, wrapperBased, add))
      ensures rc == if add.Added? then 0 else -1
    {
      ghost var s := Snapshot();
      var ok := AddHistory(job, host, wrapperBased, add);
      if ok {
        job.Migrates();
        IncSlots(host, job.np);
        Post(Go(MigrCancel), id, heap, job.state);
        rc := 0;
      } else {
        rc := -1;
      }
      OneChanged(id);
      MigrationAssigned(s, Snapshot(), id, host, wrapperBased, add);
    }

    /** Zero means that the job was dispatched or that its migration was started. */
    method DispatchJob(id: nat, host: nat, wrapperBased: bool, add: AddResult, heap: CellHeap) returns (rc: int)
      requires Valid() && heap.next == book.cells.next
      modifies this, pool[..], heap
      ensures heap.next == book.cells.next && pool[..] == old(pool[..])
      ensures Valid() && Snapshot() == Next(old(Snapshot()), Event.Dispatch(id, host, wrapperBased, add))
    {
      rc := -1;
      if id < pool.Length && pool[id] != null && host < |hosts| {
        var job := pool[id];
        if job.state.Pending? {
          rc := FirstDispatch(job, id, host, wrapperBased, add, heap);
        } else if job.state.Wrapper? {
          if job.history != [] && job.history[0].reason.SuspensionTime? && job.em.EmActive? {
            UncheckJob(id);
          } else {
            rc := Migrate(job, id, host, wrapperBased, add, heap);
          }
        }
      }
    }

    // ------------------------------------------------------------------------------------------
    // The other managers
    // ------------------------------------------------------------------------------------------

    method PostSignal(sig: Signal, id: nat, heap: CellHeap)
      requires Valid() && heap.next == book.cells.next
      modifies `queue, `book, heap
      ensures heap.next == book.cells.next
      ensures Snapshot() == Next(old(Snapshot()), Event.Post(sig, id))
    {
      Post(Ask(sig), id, heap, Init);
    }

    /** A manager's report joins the queue in the cell of the request, or in a new one. */
    method ReportIn(a: Action, id: nat, reused: Option<nat>, heap: CellHeap)
      requires Valid() && heap.next == book.cells.next
      modifies `queue, `book, heap
      ensures heap.next == book.cells.next
      ensures Snapshot() == EnqueueFrom(old(Snapshot()), a, id, reused, old(book).cells)
    {
      var from := if id < pool.Length && pool[id] != null then pool[id].state else Init;
      if reused.None? {
        Post(a, id, heap, from);
      } else {
        queue := queue + [Item(a, id, reused.value, from)];
      }
    }

    method SetEmState(id: nat, em: EmState)
      requires Valid()
      modifies pool[..]
      ensures Valid()
      ensures JobsNow() == if old(Snapshot()).Alive(id)
                           then old(JobsNow())[id := Some(old(JobsNow())[id].value.(em := em))] else old(JobsNow())
    {
      if id < pool.Length && pool[id] != null {
        pool[id].em := em;
        OneChanged(id);
      }
    }

    method EmReport(id: nat, done: bool, reused: Option<nat>, heap: CellHeap)
      requires Valid() && heap.next == book.cells.next && Enabled(Snapshot(), EmAnswers(id, done, reused))
      modifies `queue, `book, pool[..], heap
      ensures heap.next == book.cells.next
      ensures Valid() && Snapshot() == Next(old(Snapshot()), EmAnswers(id, done, reused))
    {
      ghost var s := Snapshot();
      SetEmState(id, if done then EmDone else EmFailed);
      ghost var cells := book.cells;
      if reused.Some? {
        book := book.(cells := cells.(em := cells.em - multiset{reused.value}));
      }
      ReportIn(Report(WrapperStage, done), id, reused, heap);
      book := book.(em := book.em - {id});
    }

    method TmReport(id: nat, x: Xfer, done: bool, reused: Option<nat>, heap: CellHeap)
      requires Valid() && heap.next == book.cells.next && Enabled(Snapshot(), TmAnswers(id, x, done, reused))
      modifies `queue, `book, heap
      ensures heap.next == book.cells.next
      ensures Snapshot() == Next(old(Snapshot()), TmAnswers(id, x, done, reused))
    {
      if reused.Some? {
        book := book.(cells := book.cells.(tm := book.cells.tm - multiset{reused.value}));
      }
      ReportIn(Report(StageOf(x), done), id, reused, heap);
      book := book.(tm := book.tm - {id});
    }

    /** The Execution Manager notes the state of a running execution and the suspension statistics of record k. */
    method EmNote(id: nat, em: EmState, k: nat, suspension: int, lastSuspension: int)
      requires Valid() && Enabled(Snapshot(), EmNotes(id, em, k, suspension, lastSuspension))
      modifies pool[..]
      ensures Valid() && Snapshot() == Next(old(Snapshot()), EmNotes(id, em, k, suspension, lastSuspension))
    {
      var job := pool[id];
      job.em := em;
      job.history :=
        job.history[k := job.history[k].(suspension := suspension, lastSuspension := lastSuspension)];
      OneChanged(id);
    }

    /** A manager frees or renews the cell it owns. */
    predicate MovesCell(ev: Event) { ev.EmFrees? || ev.EmRenews? || ev.TmFrees? || ev.RmFrees? }

    method MoveCell(ev: Event, heap: CellHeap)
      requires Valid() && MovesCell(ev) && Enabled(Snapshot(), ev) && heap.next == book.cells.next
      modifies `book, heap
      ensures heap.next == book.cells.next
      ensures Snapshot() == Next(old(Snapshot()), ev)
    {
      if ev.EmRenews? {
        var _ := heap.Alloc();
      }
      book := book.(cells := Next(Snapshot(), ev).cells);
    }

    // ------------------------------------------------------------------------------------------
    // Creation
    // ------------------------------------------------------------------------------------------

    /** Slots of the pool are emptied, or filled with new records. */
    twostate predicate Renews()
      reads pool
    {
      forall i | 0 <= i < pool.Length :: pool[i] == null || pool[i] == old(pool[i]) || fresh(pool[i])
    }

    method CreateJob(id: nat, init: Job)
      requires Valid() && id < pool.Length
      modifies pool
      ensures Valid() && Renews() && JobsNow() == old(JobsNow())[id := Some(init)]
    {
      pool[id] := new JobRecord(init);
    }

    /** The jobs of an array take their places in the pool, and its table the array's slot. */
    method CreateArray(aid: nat, ids: seq<nat>, init: Job)
      requires Valid() && Enabled(Snapshot(), NewArray(aid, ids, init))
      modifies pool, `arrays, `arrayCount, `lastArray
      ensures Valid() && Renews() && Snapshot() == Next(old(Snapshot()), NewArray(aid, ids, init))
    {
      for i := 0 to |ids|
        invariant Valid() && Renews() && arrays == old(arrays) && arrayCount == old(arrayCount)
        invariant JobsNow() == Enroll(old(JobsNow()), ids[..i], aid, init)
      {
        assert ids[..i + 1][..i] == ids[..i];
        CreateJob(ids[i], init.(arrayId := aid, taskId := i));
      }
      assert ids[..|ids|] == ids;
      assert JobsNow() == Enroll(old(JobsNow()), ids, aid, init);
      arrays := arrays[aid := Some(TaskTable(ids, |ids| - 1, 0))];
      arrayCount, lastArray := arrayCount + 1, aid;
    }

    // ------------------------------------------------------------------------------------------
    // Runs
    // ------------------------------------------------------------------------------------------

    /** Events of users and of the other managers. */
    method ServeOthers(ev: Event, heap: CellHeap)
      requires Valid() && Enabled(Snapshot(), ev) && heap.next == book.cells.next
      requires ev.Post? || ev.EmAnswers? || ev.TmAnswers? || ev.EmNotes? || MovesCell(ev)
      modifies this, pool[..], heap
      ensures heap.next == book.cells.next
      ensures Valid() && pool[..] == old(pool[..]) && Snapshot() == Next(old(Snapshot()), ev)
    {
      if ev.Post? {
        PostSignal(ev.sig, ev.job, heap);
      } else if ev.EmAnswers? {
        EmReport(ev.job, ev.done, ev.reused, heap);
      } else if ev.TmAnswers? {
        TmReport(ev.job, ev.xfer, ev.done, ev.reused, heap);
      } else if ev.EmNotes? {
        EmNote(ev.job, ev.em, ev.record, ev.suspension, ev.lastSuspension);
      } else {
        MoveCell(ev, heap);
      }
    }

    method ServeScheduler(ev: Event, heap: CellHeap)
      requires Valid() && Enabled(Snapshot(), ev) && heap.next == book.cells.next
      requires ev.Dispatch? || ev.Uncheck? || ev.Check?
      modifies this, pool[..], heap
      ensures heap.next == book.cells.next
      ensures Valid() && pool[..] == old(pool[..]) && Snapshot() == Next(old(Snapshot()), ev)
    {
      if ev.Dispatch? {
        var _ := DispatchJob(ev.job, ev.host, ev.wrapperBased, ev.add, heap);
      } else if ev.Uncheck? {
        UncheckJob(ev.job);
      } else {
        CheckJob(ev.job, ev.now, ev.period, ev.ran);
      }
    }

    /** Handlers, and the creation of jobs, take no cell from the heap. */
    method ServeSelf(ev: Event)
      requires Valid() && Inv(Snapshot()) && Enabled(Snapshot(), ev) && Clean(Snapshot(), ev)
      requires ev.Handle? || ev.NewJob? || ev.NewArray?
      modifies this, pool, pool[..]
      ensures Valid() && Renews() && Snapshot() == Next(old(Snapshot()), ev)
      ensures book.cells.next == old(book.cells.next)
    {
      NextCell(Snapshot(), ev);
      if ev.Handle? {
        HandleCleanly(ev.env);
      } else if ev.NewJob? {
        CreateJob(ev.job, ev.init);
      } else {
        CreateArray(ev.aid, ev.ids, ev.init);
      }
    }

    method ServeEvent(ev: Event, heap: CellHeap)
      requires Valid() && Inv(Snapshot()) && Enabled(Snapshot(), ev) && Clean(Snapshot(), ev)
      requires heap.next == book.cells.next
      modifies this, pool, pool[..], heap
      ensures heap.next == book.cells.next
      ensures Valid() && Renews() && Snapshot() == Next(old(Snapshot()), ev)
    {
      if ev.Handle? || ev.NewJob? || ev.NewArray? {
        ServeSelf(ev);
      } else if ev.Dispatch? || ev.Uncheck? || ev.Check? {
        ServeScheduler(ev, heap);
      } else {
        ServeOthers(ev, heap);
      }
    }

    /** Whatever happens, if it is clean, the manager does what the model says and its books stay balanced. */
    method Do(ev: Event, heap: CellHeap)
      requires Valid() && Inv(Snapshot()) && Enabled(Snapshot(), ev) && Clean(Snapshot(), ev)
      requires heap.next == book.cells.next
      modifies this, pool, pool[..], heap
      ensures heap.next == book.cells.next
      ensures Valid() && Inv(Snapshot()) && Renews() && Snapshot() == Next(old(Snapshot()), ev)
    {
      StepKeeps(Snapshot(), ev);
      ServeEvent(ev, heap);
    }

    /** The manager follows every clean run of the model, whatever users, scheduler and other managers do in between,
        and its books stay balanced. */
    method Run(run: seq<Event>, heap: CellHeap)
      requires Valid() && Inv(Snapshot()) && CanRun(Snapshot(), run) && CleanRun(Snapshot(), run)
      requires heap.next == book.cells.next
      modifies this, pool, pool[..], heap
      ensures Valid() && Inv(Snapshot()) && Snapshot() == After(old(Snapshot()), run)
    {
      ghost var s := Snapshot();
      for i := 0 to |run|
        invariant Valid() && Inv(Snapshot()) && Renews() && heap.next == book.cells.next
        invariant Follows(s, Snapshot(), run, i)
      {
        Follow(s, Snapshot(), run, i);
        Do(run[i], heap);
      }
    }
  }
}
