/** Every step of the Dispatch Manager, clean or not: what it does to the invariant. */
module Steps {
  import opened Jobs
  import opened Reactions
  import opened Tokens
  import opened TaskTables
  import opened LifeCycle
  import opened Conservation

  /** A step that leaves the counters and every pool slot alone keeps the invariant. */
  lemma QuietStep(s: Sys, t: Sys)
    requires Inv(s) && t.hosts == s.hosts && t.users == s.users && t.log == s.log && |t.jobs| == |s.jobs|
    requires forall i: nat | i < |s.jobs| :: Undisturbed(s, t, i)
    ensures Inv(t)
  {
    forall i: nat | t.Alive(i) ensures JobOk(t, i) {
      UndisturbedOk(s, t, i);
    }
    forall m: Account ensures Balanced(m, t) {
      forall i | 0 <= i < |s.jobs| ensures WeighAt(m, t, i) == WeighAt(m, s, i) {
        UndisturbedOk(s, t, i);
      }
      SameTotal(m, s, t);
    }
  }

  lemma SameTotal(m: Account, s: Sys, t: Sys)
    requires Balanced(m, s) && t.hosts == s.hosts && t.users == s.users && t.log == s.log && |t.jobs| == |s.jobs|
    requires forall i | 0 <= i < |s.jobs| :: WeighAt(m, t, i) == WeighAt(m, s, i)
    ensures Balanced(m, t)
  {
    TotalChange(m, s, t, |s.jobs|, |s.jobs|);
  }

  /** All but one pool slot stay undisturbed: they stay in order and keep their shares. */
  lemma OneMoverStep(s: Sys, t: Sys, id: nat)
    requires Orderly(s) && |t.jobs| == |s.jobs| && |t.log.leaks| == |t.users|
    requires id < |s.jobs| && forall i: nat | i < |s.jobs| && i != id :: Undisturbed(s, t, i)
    requires t.Alive(id) ==> JobOk(t, id)
    ensures Orderly(t)
  {
    forall i: nat | t.Alive(i) ensures JobOk(t, i) {
      if i != id { UndisturbedOk(s, t, i); }
    }
  }

  lemma OneMover(s: Sys, t: Sys, id: nat, m: Account)
    requires Orderly(s) && |t.jobs| == |s.jobs|
    requires id < |s.jobs| && forall i: nat | i < |s.jobs| && i != id :: Undisturbed(s, t, i)
    ensures Total(m, t, |t.jobs|) == Total(m, s, |s.jobs|) + WeighAt(m, t, id) - WeighAt(m, s, id)
  {
    forall i: nat | i < |s.jobs| && i != id ensures WeighAt(m, s, i) == WeighAt(m, t, i) {
      UndisturbedOk(s, t, i);
    }
    TotalChange(m, s, t, id, |s.jobs|);
  }

  /** A step that changes one pool slot, keeping the job's share of every account. */
  lemma OneJobStep(s: Sys, t: Sys, id: nat)
    requires Inv(s) && t.hosts == s.hosts && t.users == s.users && t.log == s.log && |t.jobs| == |s.jobs|
    requires id < |s.jobs| && forall i: nat | i < |s.jobs| && i != id :: Undisturbed(s, t, i)
    requires t.Alive(id) ==> JobOk(t, id)
    requires forall m: Account :: WeighAt(m, t, id) == WeighAt(m, s, id)
    ensures Inv(t)
  {
    OneMoverStep(s, t, id);
    forall m: Account ensures Balanced(m, t) {
      assert Balanced(m, s);
      OneMover(s, t, id, m);
    }
  }

  /** Posting a signal, freeing cells, and changing flags of a job disturb nothing. */
  lemma PostKeeps(s: Sys, sig: Signal, id: nat)
    requires Inv(s)
    ensures Inv(Next(s, Post(sig, id)))
  {
    var t := Next(s, Post(sig, id));
    forall i: nat | i < |s.jobs| ensures Undisturbed(s, t, i) {
      TokensAppend(s.queue, Item(Ask(sig), id, s.cells.next, Init), i);
    }
    QuietStep(s, t);
  }

  lemma FlagsKeep(s: Sys, id: nat, j: Job)
    requires Inv(s) && s.Alive(id) && Alike(s.jobs[id], Some(j))
    ensures Inv(SetJob(s, id, j))
  {
    QuietStep(s, SetJob(s, id, j));
  }

  lemma CellsKeep(s: Sys, t: Sys)
    requires Inv(s) && t == s.(cells := t.cells)
    ensures Inv(t)
  {
    QuietStep(s, t);
  }

  /** A report joins the queue behind the job's other actions. */
  lemma ReportJoins(s: Sys, t: Sys, it: Item)
    requires t.queue == s.queue + [it] && MovesJob(it.act)
    ensures forall i: nat :: TokensOf(t.queue, i) == TokensOf(s.queue, i) + (if i == it.job then [it] else [])
  {
    forall i: nat ensures TokensOf(t.queue, i) == TokensOf(s.queue, i) + (if i == it.job then [it] else []) {
      TokensAppend(s.queue, it, i);
    }
  }

  lemma ExecutionReported(j: Job, k: Job, l: seq<Item>, it: Item)
    requires TokenOk(j, l, true, None) && Alike(Some(j), Some(k)) && it.act.Report? && it.act.stage.WrapperStage?
    ensures TokenOk(k, l + [it], false, None)
    ensures forall m: Account :: Weigh(m, Some(k), First(l + [it])) == Weigh(m, Some(j), First(l))
  {
    if l == [] {
      assert l + [it] == [it];
    } else {
      assert (l + [it])[1..] == l[1..] + [it];
      assert l[1..] == [] && [] + [it] == [it];
    }
  }

  lemma TransferReported(j: Job, l: seq<Item>, x: Xfer, it: Item)
    requires TokenOk(j, l, false, Some(x)) && it.act.Report?
    requires it.act.stage == if x.PrologXfer? then PrologStage else EpilogStage
    ensures TokenOk(j, l + [it], false, None)
    ensures forall m: Account :: Weigh(m, Some(j), First(l + [it])) == Weigh(m, Some(j), First(l))
  {
    assert l == [] && l + [it] == [it];
  }

  /** A report is queued and only its own job changes, keeping its shares. */
  lemma ReportStep(s: Sys, t: Sys, it: Item)
    requires Inv(s) && t.hosts == s.hosts && t.users == s.users && t.log == s.log && |t.jobs| == |s.jobs|
    requires t.queue == s.queue + [it] && MovesJob(it.act)
    requires forall i: nat | i < |s.jobs| && i != it.job ::
      t.jobs[i] == s.jobs[i] && (i in t.em <==> i in s.em) && TmOf(t, i) == TmOf(s, i)
    requires s.Alive(it.job) <==> t.Alive(it.job)
    requires s.Alive(it.job) ==>
      && Placed(s, t.jobs[it.job].value)
      && TokenOk(t.jobs[it.job].value, TokensOf(s.queue, it.job) + [it], it.job in t.em, TmOf(t, it.job))
      && forall m: Account :: Weigh(m, t.jobs[it.job], First(TokensOf(s.queue, it.job) + [it])) == WeighAt(m, s, it.job)
    ensures Inv(t)
  {
    ReportJoins(s, t, it);
    if it.job < |s.jobs| {
      OneJobStep(s, t, it.job);
    } else {
      QuietStep(s, t);
    }
  }

  lemma EmAnswerShape(s: Sys, id: nat, done: bool, c: Option<nat>)
    requires Enabled(s, EmAnswers(id, done, c))
    ensures var t := Next(s, EmAnswers(id, done, c));
      && t.hosts == s.hosts && t.users == s.users && t.log == s.log && |t.jobs| == |s.jobs| && t.tm == s.tm
      && t.em == s.em - {id} && (s.Alive(id) <==> t.Alive(id))
      && (forall i: nat | i < |s.jobs| && i != id :: t.jobs[i] == s.jobs[i])
      && (s.Alive(id) ==> t.jobs[id] == Some(s.jobs[id].value.(em := if done then EmDone else EmFailed)))
      && |t.queue| == |s.queue| + 1 && t.queue == s.queue + [t.queue[|s.queue|]]
      && t.queue[|s.queue|].job == id && t.queue[|s.queue|].act == Report(WrapperStage, done)
  {
  }

  lemma EmAnswerStep(s: Sys, t: Sys, it: Item, done: bool)
    requires Inv(s) && it.job in s.em && it.act == Report(WrapperStage, done) && t.queue == s.queue + [it]
    requires t.hosts == s.hosts && t.users == s.users && t.log == s.log && |t.jobs| == |s.jobs| && t.tm == s.tm
    requires t.em == s.em - {it.job} && (s.Alive(it.job) <==> t.Alive(it.job))
    requires forall i: nat | i < |s.jobs| && i != it.job :: t.jobs[i] == s.jobs[i]
    requires s.Alive(it.job) ==>
      t.jobs[it.job] == Some(s.jobs[it.job].value.(em := if done then EmDone else EmFailed))
    ensures Inv(t)
  {
    if s.Alive(it.job) {
      assert JobOk(s, it.job) && TmOf(s, it.job) == None;
      ExecutionReported(s.jobs[it.job].value, t.jobs[it.job].value, TokensOf(s.queue, it.job), it);
    }
    ReportStep(s, t, it);
  }

  lemma EmAnswerKeeps(s: Sys, id: nat, done: bool, c: Option<nat>)
    requires Inv(s) && Enabled(s, EmAnswers(id, done, c))
    ensures Inv(Next(s, EmAnswers(id, done, c)))
  {
    var t := Next(s, EmAnswers(id, done, c));
    EmAnswerShape(s, id, done, c);
    EmAnswerStep(s, t, t.queue[|s.queue|], done);
  }

  lemma TmAnswerKeeps(s: Sys, id: nat, x: Xfer, done: bool, c: Option<nat>)
    requires Inv(s) && Enabled(s, TmAnswers(id, x, done, c))
    ensures Inv(Next(s, TmAnswers(id, x, done, c)))
  {
    var t := Next(s, TmAnswers(id, x, done, c));
    var it := t.queue[|s.queue|];
    if s.Alive(id) {
      assert JobOk(s, id) && id !in s.em;
      TransferReported(s.jobs[id].value, TokensOf(s.queue, id), x, it);
    }
    ReportStep(s, t, it);
  }

  // ------------------------------------------------------------------------------------------
  // New jobs
  // ------------------------------------------------------------------------------------------

  /** A job that has just been created owes nothing and holds nothing. */
  lemma Newborn(s: Sys, t: Sys, id: nat)
    requires Vacant(s, id) && t.queue == s.queue && t.em == s.em && t.tm == s.tm && t.users == s.users
        && t.hosts == s.hosts
    requires t.Alive(id) && (t.jobs[id].value.state.Pending? || t.jobs[id].value.state.Hold?)
    requires t.jobs[id].value.history == [] && t.jobs[id].value.user < |s.users|
    ensures JobOk(t, id)
    ensures forall m: Account :: WeighAt(m, t, id) == WeighAt(m, s, id)
  {
  }

  lemma {:induction false} Enrolled(jobs: seq<Option<Job>>, ids: seq<nat>, aid: nat, init: Job)
    requires forall i | 0 <= i < |ids| :: ids[i] < |jobs|
    requires forall i, k | 0 <= i < k < |ids| :: ids[i] != ids[k]
    ensures var r := Enroll(jobs, ids, aid, init);
      && (forall i | 0 <= i < |ids| :: r[ids[i]] == Some(init.(arrayId := aid, taskId := i)))
      && (forall k | 0 <= k < |jobs| && k !in ids :: r[k] == jobs[k])
  {
    if ids != [] {
      var n := |ids| - 1;
      Enrolled(jobs, ids[..n], aid, init);
      var r := Enroll(jobs, ids[..n], aid, init);
      forall i | 0 <= i < n ensures r[ids[i]] == Some(init.(arrayId := aid, taskId := i)) {
        assert ids[..n][i] == ids[i];
      }
    }
  }

  lemma NewJobsKeep(s: Sys, t: Sys, ids: set<nat>)
    requires Inv(s) && |t.jobs| == |s.jobs| && t.hosts == s.hosts && t.users == s.users && t.log == s.log
    requires t.queue == s.queue && t.em == s.em && t.tm == s.tm
    requires forall id | id in ids ::
      Vacant(s, id) && t.Alive(id) && (t.jobs[id].value.state.Pending? || t.jobs[id].value.state.Hold?)
      && t.jobs[id].value.history == [] && t.jobs[id].value.user < |s.users|
    requires forall k: nat | k < |s.jobs| && k !in ids :: t.jobs[k] == s.jobs[k]
    ensures Inv(t)
  {
    forall i: nat | t.Alive(i) ensures JobOk(t, i) {
      if i in ids { Newborn(s, t, i); } else { UndisturbedOk(s, t, i); }
    }
    forall m: Account ensures Balanced(m, t) {
      forall i: nat | i < |s.jobs| ensures WeighAt(m, t, i) == WeighAt(m, s, i) {
        if i in ids { Newborn(s, t, i); } else { UndisturbedOk(s, t, i); }
      }
      SameTotal(m, s, t);
    }
  }

  lemma CreationKeeps(s: Sys, ev: Event)
    requires Inv(s) && Enabled(s, ev) && (ev.NewJob? || ev.NewArray?)
    ensures Inv(Next(s, ev))
  {
    match ev
    case NewJob(id, init) => NewJobsKeep(s, Next(s, ev), {id});
    case NewArray(aid, ids, init) =>
      Enrolled(s.jobs, ids, aid, init);
      var born := set i | 0 <= i < |ids| :: ids[i];
      NewJobsKeep(s, Next(s, ev), born);
  }

  // ------------------------------------------------------------------------------------------
  // Dispatch
  // ------------------------------------------------------------------------------------------

  /** The dispatch of a job takes its slots and running-job entry on the new host, at once. */
  lemma DispatchKeeps(s: Sys, id: nat, host: nat, wrapperBased: bool, add: AddResult)
    requires Inv(s) && Clean(s, Dispatch(id, host, wrapperBased, add))
    ensures Inv(Next(s, Dispatch(id, host, wrapperBased, add)))
  {
    var t := Next(s, Dispatch(id, host, wrapperBased, add));
    if s.Alive(id) && host < |s.hosts| {
      var j := s.jobs[id].value;
      assert JobOk(s, id);
      if !j.state.Pending? && !j.state.Wrapper? {
      } else if CalledOff(j) {
        FlagsKeep(s, id, Unchecked(j));
      } else if add.Unsaved? {
        UnsavedKeeps(s, id, host, wrapperBased);
      } else if add.Added? {
        AddedKeeps(s, id, host, wrapperBased);
      }
    }
  }

  function Pushed(j: Job, host: nat, wrapperBased: bool): Job {
    j.(history := [NewRecord(host, wrapperBased)] + j.history)
  }

  lemma UnsavedKeeps(s: Sys, id: nat, host: nat, wrapperBased: bool)
    requires Inv(s) && s.Alive(id) && host < |s.hosts|
    requires var j := s.jobs[id].value; (j.state.Pending? || j.state.Wrapper?) && !CalledOff(j)
    requires Clean(s, Dispatch(id, host, wrapperBased, Unsaved))
    ensures Inv(SetJob(s, id, Pushed(s.jobs[id].value, host, wrapperBased)))
  {
    var t := SetJob(s, id, Pushed(s.jobs[id].value, host, wrapperBased));
    assert JobOk(s, id);
    PushedWeighs(s.jobs[id].value, host, wrapperBased, TokensOf(s.queue, id), id in s.em, TmOf(s, id));
    OneJobStep(s, t, id);
  }

  lemma PushedWeighs(j: Job, host: nat, wrapperBased: bool, l: seq<Item>, em: bool, tm: Option<Xfer>)
    requires TokenOk(j, l, em, tm) && (j.state.Pending? || j.state.Wrapper?) && !CalledOff(j)
    requires CleanDispatch(j, host, Unsaved, l, em)
    ensures TokenOk(Pushed(j, host, wrapperBased), l, em, tm)
    ensures forall m: Account :: Weigh(m, Some(Pushed(j, host, wrapperBased)), First(l)) == Weigh(m, Some(j), First(l))
  {
  }

  /** The job right after a successful dispatch, its shares of the accounts, and its outstanding work. */
  function Assigned(j: Job, host: nat, wrapperBased: bool): Job {
    if j.state.Pending? then Pushed(j, host, wrapperBased)
    else Pushed(j, host, wrapperBased).(restarted := j.restarted + 1, reschedule := false)
  }

  /** What a dispatch adds to an account. */
  function Gain(m: Account, j: Job, host: nat): int {
    match m
    case Slots(h) => if h == host then j.np else 0
    case Runs(h) => Bit(h == host)
    case User(u) => Bit(u == j.user && j.state.Pending?)
    case _ => 0
  }

  lemma AssignedWeighs(j: Job, host: nat, wrapperBased: bool, l: seq<Item>, em: bool, tm: Option<Xfer>, it: Item)
    requires TokenOk(j, l, em, tm) && (j.state.Pending? || j.state.Wrapper?) && !CalledOff(j)
    requires CleanDispatch(j, host, Added, l, em)
    requires it.act == Go(if j.state.Pending? then Prolog else MigrCancel) && it.from == j.state
    ensures var k := Assigned(j, host, wrapperBased);
      && TokenOk(k, l + [it], em, tm)
      && forall m: Account :: Weigh(m, Some(k), First(l + [it])) == Weigh(m, Some(j), First(l)) + Gain(m, j, host)
  {
    assert l == [] && l + [it] == [it];
    assert [it][1..] == [];
  }

  /** The new host's counters and the user's counter move by what the dispatch adds. */
  lemma AddedBooks(s: Sys, id: nat, host: nat, wrapperBased: bool, m: Account)
    requires s.Alive(id) && host < |s.hosts| && Exists(m, s) && s.jobs[id].value.user < |s.users|
    requires var j := s.jobs[id].value; (j.state.Pending? || j.state.Wrapper?) && !CalledOff(j)
    ensures var t := Assign(s, id, host, wrapperBased, Added);
      Exists(m, t) && Books(m, t) == Books(m, s) + Gain(m, s.jobs[id].value, host)
  {
  }

  /** Only the dispatched job changes, and its transition joins the queue. */
  lemma AddedShape(s: Sys, id: nat, host: nat, wrapperBased: bool)
    requires Inv(s) && s.Alive(id) && host < |s.hosts|
    requires var j := s.jobs[id].value; (j.state.Pending? || j.state.Wrapper?) && !CalledOff(j)
    requires Clean(s, Dispatch(id, host, wrapperBased, Added))
    ensures var t := Assign(s, id, host, wrapperBased, Added);
      && |t.jobs| == |s.jobs| && |t.log.leaks| == |t.users| && t.Alive(id) && JobOk(t, id)
      && (forall i: nat | i < |s.jobs| && i != id :: Undisturbed(s, t, i))
      && forall m: Account :: WeighAt(m, t, id) == WeighAt(m, s, id) + Gain(m, s.jobs[id].value, host)
  {
    var t := Assign(s, id, host, wrapperBased, Added);
    var j := s.jobs[id].value;
    var it := t.queue[|s.queue|];
    assert JobOk(s, id);
    assert t.jobs[id] == Some(Assigned(j, host, wrapperBased));
    ReportJoins(s, t, it);
    AssignedWeighs(j, host, wrapperBased, TokensOf(s.queue, id), id in s.em, TmOf(s, id), it);
  }

  lemma AddedKeeps(s: Sys, id: nat, host: nat, wrapperBased: bool)
    requires Inv(s) && s.Alive(id) && host < |s.hosts|
    requires var j := s.jobs[id].value; (j.state.Pending? || j.state.Wrapper?) && !CalledOff(j)
    requires Clean(s, Dispatch(id, host, wrapperBased, Added))
    ensures Inv(Next(s, Dispatch(id, host, wrapperBased, Added)))
  {
    var t := Assign(s, id, host, wrapperBased, Added);
    AddedShape(s, id, host, wrapperBased);
    OneMoverStep(s, t, id);
    assert JobOk(s, id);
    forall m: Account ensures Balanced(m, t) {
      assert Balanced(m, s);
      if Exists(m, s) { AddedBooks(s, id, host, wrapperBased, m); }
      OneMover(s, t, id, m);
    }
  }

  // ------------------------------------------------------------------------------------------
  // Every step, every run
  // ------------------------------------------------------------------------------------------

  /** An action for a job that does not exist is answered with a failure, so no request stays open. */
  lemma StrayBooks(s: Sys, e: Env, m: Account)
    requires s.queue != [] && !s.Alive(s.queue[0].job) && Exists(m, s)
    ensures var t := Next(s, Handle(e)); Exists(m, t) && Books(m, t) == Books(m, s)
  {
    var a := s.queue[0].act;
    var t := Next(s, Handle(e));
    OpenChange(s.log, a, NoJob(a));
    assert t.log == Noted(s.log, a, NoJob(a));
  }

  lemma StrayTotal(s: Sys, e: Env, m: Account)
    requires Orderly(s) && s.queue != [] && !s.Alive(s.queue[0].job)
    ensures var t := Next(s, Handle(e)); |t.jobs| == |s.jobs| && Total(m, t, |t.jobs|) == Total(m, s, |s.jobs|)
  {
    var t := Next(s, Handle(e));
    forall i: nat | i < |s.jobs| ensures WeighAt(m, t, i) == WeighAt(m, s, i) {
      StrayTokens(s, e, i);
    }
    TotalChange(m, s, t, |s.jobs|, |s.jobs|);
  }

  lemma HandleKeeps(s: Sys, e: Env)
    requires Inv(s) && s.queue != [] && Clean(s, Handle(e))
    ensures Inv(Next(s, Handle(e)))
  {
    HandleKeepsOrder(s, e);
    forall m: Account ensures Balanced(m, Next(s, Handle(e))) {
      assert Balanced(m, s);
      if s.Alive(s.queue[0].job) {
        var j := s.jobs[s.queue[0].job].value;
        CleanIsFair(s, e);
        ConcludeBalances(s, j, React(s.queue[0].act, j, e), e, m);
      } else {
        StrayTotal(s, e, m);
        if Exists(m, s) { StrayBooks(s, e, m); }
      }
    }
  }

  /** Every clean step keeps the invariant, and with it every account: host slots, running jobs, users' counters,
      stop requests and kill requests. */
  lemma StepKeeps(s: Sys, ev: Event)
    requires Inv(s) && Enabled(s, ev) && Clean(s, ev)
    ensures Inv(Next(s, ev))
  {
    match ev
    case Post(sig, id) => PostKeeps(s, sig, id);
    case Handle(e) => HandleKeeps(s, e);
    case Dispatch(id, host, wrapperBased, add) => DispatchKeeps(s, id, host, wrapperBased, add);
    case Uncheck(id) => if s.Alive(id) { FlagsKeep(s, id, Unchecked(s.jobs[id].value)); }
    case Check(id, now, period, ran) => FlagsKeep(s, id, Checked(s.jobs[id].value, now, period, ran));
    case EmNotes(id, em, k, suspension, last) =>
      FlagsKeep(s, id, Noticed(s.jobs[id].value, em, k, suspension, last));
    case EmAnswers(id, done, c) => EmAnswerKeeps(s, id, done, c);
    case TmAnswers(id, x, done, c) => TmAnswerKeeps(s, id, x, done, c);
    case NewJob(_, _) => CreationKeeps(s, ev);
    case NewArray(_, _, _) => CreationKeeps(s, ev);
    case _ => CellsKeep(s, Next(s, ev));
  }

  lemma {:induction false} StartBalances(jobs: nat, hosts: nat, users: nat, arrays: nat, m: Account, n: nat)
    requires n <= jobs
    ensures Total(m, Start(jobs, hosts, users, arrays), n) == 0
  {
    if n > 0 {
      StartBalances(jobs, hosts, users, arrays, m, n - 1);
    }
  }

  lemma StartKeeps(jobs: nat, hosts: nat, users: nat, arrays: nat)
    ensures Inv(Start(jobs, hosts, users, arrays))
  {
    forall m: Account ensures Balanced(m, Start(jobs, hosts, users, arrays)) {
      StartBalances(jobs, hosts, users, arrays, m, jobs);
    }
  }

  /** Conservation over whole runs: after every clean run each host's used slots and running jobs, each user's
      running jobs and the open stop and kill requests are exactly what the jobs add up to. */
  lemma {:induction false} RunsKeep(s: Sys, run: seq<Event>)
    requires Inv(s) && CanRun(s, run) && CleanRun(s, run)
    ensures Inv(After(s, run))
    decreases |run|
  {
    if run != [] {
      StepKeeps(s, run[0]);
      RunsKeep(Next(s, run[0]), run[1..]);
    }
  }
}
