/** The prolog of a job that starts again follows its previous history record for every restart file: that record
    always exists. */
module Restarts {
  import opened Jobs
  import opened Reactions
  import opened Tokens
  import opened TaskTables
  import opened LifeCycle
  import opened Conservation
  import opened Steps

  /** A restarted job has one record more than its present start needs. */
  predicate Recorded(j: Job, first: Option<Action>) {
    && (j.restarted > 0 ==> |j.history| >= if Dispatched(j.state, first) then 2 else 1)
    && (j.state.Stopped? ==> j.history != [])
  }

  lemma SignalRecorded(sig: Signal, j: Job, l: seq<Item>, em: bool, tm: Option<Xfer>)
    requires TokenOk(j, l, em, tm) && CleanAct(Ask(sig), j, First(l)) && Recorded(j, First(l))
    ensures var r := OnSignal(sig, j); r.job.Some? ==> Recorded(r.job.value, First(l))
  {
    TokenMeets(j, l, em, tm);
  }

  lemma ReportRecorded(stage: Stage, done: bool, j: Job, l: seq<Item>, em: bool, tm: Option<Xfer>, e: Env,
      f': Option<Action>)
    requires Turn(Report(stage, done), j, l, em, tm) && CleanAct(Report(stage, done), j, First(l))
        && Recorded(j, First(l))
    ensures var r := React(Report(stage, done), j, e); r.job.Some? ==> Recorded(r.job.value, f')
  {
    TokenMeets(j, l, em, tm);
    assert React(Report(stage, done), j, e).job.value.state == j.state;
  }

  lemma EntryRecorded(to: State, j: Job, l: seq<Item>, em: bool, tm: Option<Xfer>, e: Env, f': Option<Action>)
    requires Turn(Go(to), j, l, em, tm) && CleanAct(Go(to), j, First(l)) && Recorded(j, First(l))
    requires to.Pending? ==> f' != Some(Go(Prolog))
    ensures var r := React(Go(to), j, e); r.job.Some? ==> Recorded(r.job.value, f')
  {
    TokenMeets(j, l, em, tm);
  }

  lemma TurnRecorded(a: Action, j: Job, id: nat, cell: nat, l: seq<Item>, em: bool, tm: Option<Xfer>, e: Env)
    requires Turn(a, j, l, em, tm) && CleanAct(a, j, First(l)) && Recorded(j, First(l))
    ensures var r := React(a, j, e);
      r.job.Some? ==> Recorded(r.job.value, First(TokensAfter(a, j, id, cell, l, r.dest)))
  {
    ReactionShape(a, j, e);
    TokenMeets(j, l, em, tm);
    match a
    case Ask(sig) =>
      assert l + [] == l;
      SignalRecorded(sig, j, l, em, tm);
    case Report(stage, done) =>
      ReportRecorded(stage, done, j, l, em, tm, e, First(TokensAfter(a, j, id, cell, l, React(a, j, e).dest)));
    case Go(to) =>
      assert to.Pending? ==> l[1..] == [];
      EntryRecorded(to, j, l, em, tm, e, First(TokensAfter(a, j, id, cell, l, React(a, j, e).dest)));
  }

  predicate RecordedAt(s: Sys, id: nat)
    requires s.Alive(id)
  { Recorded(s.jobs[id].value, First(TokensOf(s.queue, id))) }

  ghost predicate AllRecorded(s: Sys) { forall id: nat | s.Alive(id) :: RecordedAt(s, id) }

  // ------------------------------------------------------------------------------------------
  // Over runs
  // ------------------------------------------------------------------------------------------

  lemma HandleRecorded(s: Sys, e: Env)
    requires Inv(s) && AllRecorded(s) && s.queue != [] && Clean(s, Handle(e))
    ensures AllRecorded(Next(s, Handle(e)))
  {
    var it := s.queue[0];
    var t := Next(s, Handle(e));
    if s.Alive(it.job) {
      var j := s.jobs[it.job].value;
      var r := React(it.act, j, e);
      ReactionShape(it.act, j, e);
      assert JobOk(s, it.job) && RecordedAt(s, it.job);
      TurnRecorded(it.act, j, it.job, it.cell, TokensOf(s.queue, it.job), it.job in s.em, TmOf(s, it.job), e);
      ConcludeRecorded(s, j, r, e);
    } else {
      forall i: nat | t.Alive(i) ensures RecordedAt(t, i) {
        StrayTokens(s, e, i);
        assert RecordedAt(s, i);
      }
    }
  }

  lemma ConcludeRecorded(s: Sys, j: Job, r: Reaction, e: Env)
    requires AllRecorded(s) && s.queue != [] && s.queue[0].job < |s.jobs|
    requires r.wakes ==> r.job.Some? && !r.job.value.state.Hold?
    requires var it := s.queue[0]; var l := TokensOf(s.queue, it.job);
      && (MovesJob(it.act) ==> l != [])
      && (r.job.Some? ==> Recorded(r.job.value, First(TokensAfter(it.act, j, it.job, it.cell, l, r.dest))))
    requires forall id: nat | s.Alive(id) && s.jobs[id].value.state.Hold? :: TokensOf(s.queue, id) == []
    ensures AllRecorded(Conclude(Popped(s), s.queue[0], j, r, e))
  {
    var it := s.queue[0];
    var t := Conclude(Popped(s), it, j, r, e);
    forall i: nat | t.Alive(i) ensures RecordedAt(t, i) {
      ConcludeTokens(s, j, r, e, i);
      if i != it.job {
        assert RecordedAt(s, i);
      }
    }
  }

  lemma DispatchRecorded(s: Sys, id: nat, host: nat, wrapperBased: bool, add: AddResult)
    requires Inv(s) && AllRecorded(s) && Clean(s, Dispatch(id, host, wrapperBased, add))
    ensures AllRecorded(Next(s, Dispatch(id, host, wrapperBased, add)))
  {
    var t := Assign(s, id, host, wrapperBased, add);
    forall i: nat | t.Alive(i) ensures RecordedAt(t, i) {
      assert RecordedAt(s, i) && JobOk(s, i);
      if t.queue != s.queue {
        TokensAppend(s.queue, t.queue[|s.queue|], i);
      }
    }
  }

  lemma PostRecorded(s: Sys, sig: Signal, id: nat)
    requires AllRecorded(s)
    ensures AllRecorded(Next(s, Post(sig, id)))
  {
    var t := Next(s, Post(sig, id));
    forall i: nat | t.Alive(i) ensures RecordedAt(t, i) {
      assert RecordedAt(s, i);
      TokensAppend(s.queue, t.queue[|s.queue|], i);
    }
  }

  /** A report joins the queue, and its job keeps its state and its records. */
  lemma ReportRecordedLater(s: Sys, t: Sys, it: Item)
    requires Inv(s) && AllRecorded(s) && t.queue == s.queue + [it] && it.act.Report? && |t.jobs| == |s.jobs|
    requires forall i: nat | i < |s.jobs| ::
      && (t.Alive(i) <==> s.Alive(i))
      && (s.Alive(i) ==> && t.jobs[i].value.state == s.jobs[i].value.state
                         && t.jobs[i].value.history == s.jobs[i].value.history
                         && t.jobs[i].value.restarted == s.jobs[i].value.restarted)
    ensures AllRecorded(t)
  {
    forall i: nat | t.Alive(i) ensures RecordedAt(t, i) {
      assert RecordedAt(s, i);
      TokensAppend(s.queue, it, i);
    }
  }

  /** Steps that change flags, free cells, or create a job that was never started. */
  lemma OtherRecorded(s: Sys, ev: Event)
    requires Inv(s) && AllRecorded(s) && Enabled(s, ev)
    requires !ev.Handle? && !ev.Dispatch? && !ev.NewArray? && !ev.Post? && !ev.EmAnswers? && !ev.TmAnswers?
    ensures AllRecorded(Next(s, ev))
  {
    var t := Next(s, ev);
    forall i: nat | t.Alive(i) ensures RecordedAt(t, i) {
      if s.Alive(i) { assert RecordedAt(s, i); }
    }
  }

  lemma ArrayRecorded(s: Sys, aid: nat, ids: seq<nat>, init: Job)
    requires Inv(s) && AllRecorded(s) && Enabled(s, NewArray(aid, ids, init))
    ensures AllRecorded(Next(s, NewArray(aid, ids, init)))
  {
    var t := Next(s, NewArray(aid, ids, init));
    Enrolled(s.jobs, ids, aid, init);
    forall i: nat | t.Alive(i) ensures RecordedAt(t, i) {
      if i !in ids { assert RecordedAt(s, i); }
    }
  }

  lemma StepRecorded(s: Sys, ev: Event)
    requires Inv(s) && AllRecorded(s) && Enabled(s, ev) && Clean(s, ev)
    ensures AllRecorded(Next(s, ev))
  {
    match ev
    case Handle(e) => HandleRecorded(s, e);
    case Dispatch(id, host, wrapperBased, add) => DispatchRecorded(s, id, host, wrapperBased, add);
    case NewArray(aid, ids, init) => ArrayRecorded(s, aid, ids, init);
    case Post(sig, id) => PostRecorded(s, sig, id);
    case EmAnswers(_, _, _) => ReportRecordedLater(s, Next(s, ev), Next(s, ev).queue[|s.queue|]);
    case TmAnswers(_, _, _, _) => ReportRecordedLater(s, Next(s, ev), Next(s, ev).queue[|s.queue|]);
    case _ => OtherRecorded(s, ev);
  }

  lemma {:induction false} RunsRecorded(s: Sys, run: seq<Event>)
    requires Inv(s) && AllRecorded(s) && CanRun(s, run) && CleanRun(s, run)
    ensures AllRecorded(After(s, run)) && Inv(After(s, run))
    decreases |run|
  {
    if run != [] {
      StepKeeps(s, run[0]);
      StepRecorded(s, run[0]);
      RunsRecorded(Next(s, run[0]), run[1..]);
    }
  }

  /** After any clean run of an idle system, a prolog of a restarted job finds a previous record to follow. Which host
      it names is Sources.MigrationSource. */
  lemma RestartRecordExists(jobs: nat, hosts: nat, users: nat, arrays: nat, run: seq<Event>)
    requires var s := Start(jobs, hosts, users, arrays); CanRun(s, run) && CleanRun(s, run)
    ensures var t := After(Start(jobs, hosts, users, arrays), run);
      t.queue != [] && t.Alive(t.queue[0].job) && (t.queue[0].act == Go(Prolog) || t.queue[0].act == Go(MigrProlog)) ==>
        var j := t.jobs[t.queue[0].job].value; j.restarted > 0 ==> |j.history| >= 2
  {
    var s := Start(jobs, hosts, users, arrays);
    StartKeeps(jobs, hosts, users, arrays);
    RunsRecorded(s, run);
    var t := After(s, run);
    if t.queue != [] && t.Alive(t.queue[0].job) {
      assert RecordedAt(t, t.queue[0].job) && JobOk(t, t.queue[0].job);
      var it := t.queue[0];
      TokenMeets(t.jobs[it.job].value, TokensOf(t.queue, it.job), it.job in t.em, TmOf(t, it.job));
    }
  }
}
