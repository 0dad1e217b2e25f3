/** The epilog phase of a job: it ends after at most two reports, and its start is stamped once. */
module EpilogPhase {
  import opened Jobs
  import opened Reactions
  import opened Tokens
  import opened TaskTables
  import opened LifeCycle
  import opened Conservation
  import opened Steps

  /** How many epilog reports a state still waits for. */
  function Rank(st: State): nat { if st.EpilogStd? then 2 else if InEpilog(st) then 1 else 0 }

  /** Both report handlers accept the same states, queue exactly one transition for each, and the state that
      transition leads to has a smaller rank. */
  lemma ReportsAgree(j: Job, e: Env, done: bool)
    ensures var d := OnEpilog(done, j, e).dest;
      && (InEpilog(j.state) <==> d.ToDm?) && (!InEpilog(j.state) <==> d.Drop?)
      && (d.ToDm? ==> d.act.Go? && Goes(j.state, d.act.to) && Rank(d.act.to) < Rank(j.state))
      && (InEpilog(j.state) ==> OnEpilog(done, j, e).job.value.state == j.state)
  {
  }

  /** The rank a job has, or will have when its queued transition is made. */
  function RankOf(j: Job, l: seq<Item>): nat {
    if l != [] && l[0].act.Go? then Rank(l[0].act.to) else Rank(j.state)
  }

  function StartTimes(j: Job): seq<int> { seq(|j.history|,
      k requires 0 <= k < |j.history| => j.history[k].epilogStart) }

  /** The record whose epilog start an epilog entry stamps: of a migration, the one left behind. */
  function EpilogRecord(st: State): nat { if st.MigrEpilog? then 1 else 0 }

  /** Signals and reports neither enter the phase nor stamp times. */
  lemma SignalInPhase(sig: Signal, j: Job)
    ensures var r := OnSignal(sig, j);
      r.job.Some? && (InEpilog(j.state) || InEpilog(r.job.value.state)) ==>
        r.job.value.state == j.state && StartTimes(r.job.value) == StartTimes(j)
  {
  }

  lemma ReportInPhase(stage: Stage, done: bool, j: Job, e: Env)
    ensures var r := React(Report(stage, done), j, e);
      r.job.Some? && r.job.value.state == j.state && StartTimes(r.job.value) == StartTimes(j)
  {
  }

  /** An epilog entry from outside the phase stamps one record, from inside none. */
  lemma EntryInPhase(to: State, j: Job, e: Env)
    requires InEpilog(to) && Goes(j.state, to) && EpilogRecord(to) < |j.history|
    ensures var r := React(Go(to), j, e);
      && r.job.Some? && r.job.value.state == to && !r.dest.ToDm?
      && StartTimes(r.job.value) ==
          (if InEpilog(j.state) then StartTimes(j) else StartTimes(j)[EpilogRecord(to) := e.now])
      && (InEpilog(j.state) ==> Rank(to) < Rank(j.state))
  {
  }

  lemma OtherEntry(to: State, j: Job, e: Env)
    requires !InEpilog(to)
    requires Goes(j.state, to) || (to.Prolog? && j.state.Pending?) || (to.MigrCancel? && j.state.Wrapper?)
    ensures var r := React(Go(to), j, e); r.job.Some? ==> !InEpilog(r.job.value.state)
  {
  }

  /** How a handler moves a job within the phase, or into it. */
  ghost predicate InStep(a: Action, j: Job, r: Reaction, now: int) {
    r.job.Some? && InEpilog(r.job.value.state) ==>
      var k := r.job.value;
      && EpilogRecord(k.state) < |j.history|
      && StartTimes(k) == (if InEpilog(j.state) then StartTimes(j) else StartTimes(j)[EpilogRecord(k.state) := now])
      && (InEpilog(j.state) ==>
            if a.Go? then k.state == a.to && !r.dest.ToDm? && Rank(k.state) < Rank(j.state)
            else k.state == j.state && if a.Ask? then !r.dest.ToDm?
                                       else r.dest.ToDm? && r.dest.act.Go? && Rank(r.dest.act.to) < Rank(j.state))
  }

  lemma StepsIn(a: Action, j: Job, l: seq<Item>, em: bool, tm: Option<Xfer>, e: Env)
    requires Turn(a, j, l, em, tm) && CleanAct(a, j, First(l))
    ensures InStep(a, j, React(a, j, e), e.now)
  {
    TokenMeets(j, l, em, tm);
    match a
    case Ask(sig) =>
      SignalInPhase(sig, j);
      ReactionShape(a, j, e);
    case Report(stage, done) =>
      ReportInPhase(stage, done, j, e);
      ReportsAgree(j, e, done);
    case Go(to) =>
      if InEpilog(to) { EntryInPhase(to, j, e); } else { OtherEntry(to, j, e); }
  }

  lemma RankFalls(a: Action, j: Job, id: nat, cell: nat, l: seq<Item>, em: bool, tm: Option<Xfer>, r: Reaction,
      now: int)
    requires Turn(a, j, l, em, tm) && InStep(a, j, r, now) && InEpilog(j.state)
    ensures var l' := TokensAfter(a, j, id, cell, l, r.dest);
      r.job.Some? && InEpilog(r.job.value.state) ==>
        RankOf(r.job.value, l') + Bit(a.Report? && a.stage.EpilogStage?) <= RankOf(j, l)
  {
    TokenMeets(j, l, em, tm);
    if a.Ask? {
      assert l + [] == l;
    } else {
      assert l[1..] == [];
    }
  }

  // ------------------------------------------------------------------------------------------
  // Over runs
  // ------------------------------------------------------------------------------------------

  predicate InPhase(s: Sys, id: nat) { s.Alive(id) && InEpilog(s.jobs[id].value.state) }

  function RankIn(s: Sys, id: nat): nat
    requires s.Alive(id)
  { RankOf(s.jobs[id].value, TokensOf(s.queue, id)) }

  /** The step handles an epilog report of the job. */
  predicate HandlesReport(s: Sys, ev: Event, id: nat) {
    ev.Handle? && s.queue != [] && s.queue[0].job == id && s.queue[0].act.Report? && s.queue[0].act.stage.EpilogStage?
  }

  ghost predicate InPhaseThroughout(s: Sys, run: seq<Event>, id: nat)
    requires CanRun(s, run)
    decreases |run|
  {
    InPhase(s, id) && (run != [] ==> InPhaseThroughout(Next(s, run[0]), run[1..], id))
  }

  ghost function ReportsHandled(s: Sys, run: seq<Event>, id: nat): nat
    requires CanRun(s, run)
    decreases |run|
  {
    if run == [] then 0 else Bit(HandlesReport(s, run[0], id)) + ReportsHandled(Next(s, run[0]), run[1..], id)
  }

  lemma PhaseOwn(s: Sys, e: Env, r: Reaction)
    requires Inv(s) && s.queue != [] && InPhase(s, s.queue[0].job) && !r.wakes
    requires InStep(s.queue[0].act, s.jobs[s.queue[0].job].value, r, e.now)
    requires r.job.Some? && InEpilog(r.job.value.state)
    ensures var id := s.queue[0].job; var t := Conclude(Popped(s), s.queue[0], s.jobs[id].value, r, e);
      && t.Alive(id) && RankIn(t, id) + Bit(HandlesReport(s, Handle(e), id)) <= RankIn(s, id)
      && StartTimes(t.jobs[id].value) == StartTimes(s.jobs[id].value)
  {
    var it := s.queue[0];
    var j := s.jobs[it.job].value;
    assert JobOk(s, it.job);
    ConcludeTokens(s, j, r, e, it.job);
    RankFalls(it.act, j, it.job, it.cell, TokensOf(s.queue, it.job), it.job in s.em, TmOf(s, it.job), r, e.now);
  }

  lemma PhaseOther(s: Sys, j: Job, r: Reaction, e: Env, id: nat)
    requires s.queue != [] && s.queue[0].job < |s.jobs| && id != s.queue[0].job && InPhase(s, id)
    ensures var t := Conclude(Popped(s), s.queue[0], j, r, e);
      t.Alive(id) && RankIn(t, id) == RankIn(s, id) && t.jobs[id] == s.jobs[id]
  {
    ConcludeTokens(s, j, r, e, id);
  }

  lemma PhaseHandle(s: Sys, e: Env, id: nat)
    requires Inv(s) && s.queue != [] && Clean(s, Handle(e)) && InPhase(s, id) && InPhase(Next(s, Handle(e)), id)
    ensures RankIn(Next(s, Handle(e)), id) + Bit(HandlesReport(s, Handle(e), id)) <= RankIn(s, id)
    ensures StartTimes(Next(s, Handle(e)).jobs[id].value) == StartTimes(s.jobs[id].value)
  {
    var it := s.queue[0];
    if s.Alive(it.job) {
      var j := s.jobs[it.job].value;
      var r := React(it.act, j, e);
      if it.job == id {
        assert JobOk(s, id);
        ReactionShape(it.act, j, e);
        StepsIn(it.act, j, TokensOf(s.queue, id), id in s.em, TmOf(s, id), e);
        PhaseOwn(s, e, r);
      } else {
        PhaseOther(s, j, r, e, id);
      }
    } else {
      StrayTokens(s, e, id);
    }
  }

  lemma DispatchOutOfPhase(s: Sys, id: nat, other: nat, host: nat, wrapperBased: bool, add: AddResult)
    requires InPhase(s, id)
    ensures Assign(s, other, host, wrapperBased, add).jobs[id] == s.jobs[id]
  {
  }

  /** A step other than a handler leaves the record of a job in the phase alone, up to flags and reasons. */
  lemma OtherSteps(s: Sys, ev: Event, id: nat)
    requires Enabled(s, ev) && !ev.Handle? && InPhase(s, id)
    ensures var t := Next(s, ev);
      && t.Alive(id) && t.jobs[id].value.state == s.jobs[id].value.state
      && StartTimes(t.jobs[id].value) == StartTimes(s.jobs[id].value)
  {
    match ev
    case NewArray(aid, ids, init) => Enrolled(s.jobs, ids, aid, init);
    case Dispatch(other, host, wrapperBased, add) => DispatchOutOfPhase(s, id, other, host, wrapperBased, add);
    case _ =>
  }

  /** It adds at most one action to the queue, at its end; for a job in the phase that is a signal or a report. */
  lemma QueueGrows(s: Sys, ev: Event, id: nat)
    requires Enabled(s, ev) && !ev.Handle? && InPhase(s, id)
    ensures var l, l' := TokensOf(s.queue, id), TokensOf(Next(s, ev).queue, id);
      l' == l || (l' != [] && if l == [] then l'[0].act.Report? else l'[0] == l[0])
  {
    var t := Next(s, ev);
    if t.queue != s.queue {
      TokensAppend(s.queue, t.queue[|s.queue|], id);
    }
  }

  lemma PhaseStep(s: Sys, ev: Event, id: nat)
    requires Inv(s) && Enabled(s, ev) && Clean(s, ev) && InPhase(s, id) && InPhase(Next(s, ev), id)
    ensures RankIn(Next(s, ev), id) + Bit(HandlesReport(s, ev, id)) <= RankIn(s, id)
    ensures StartTimes(Next(s, ev).jobs[id].value) == StartTimes(s.jobs[id].value)
  {
    if ev.Handle? {
      PhaseHandle(s, ev.env, id);
    } else {
      OtherSteps(s, ev, id);
      QueueGrows(s, ev, id);
    }
  }

  /** However long a job stays in the epilog phase, at most two epilog reports are handled for it (one, if it is
      past EPILOG_STD), and the start times of its records do not change. */
  lemma {:induction false} PhaseIsShort(s: Sys, run: seq<Event>, id: nat)
    requires Inv(s) && CanRun(s, run) && CleanRun(s, run) && InPhaseThroughout(s, run, id)
    ensures ReportsHandled(s, run, id) <= RankIn(s, id) <= 2
    ensures After(s, run).Alive(id) && StartTimes(After(s, run).jobs[id].value) == StartTimes(s.jobs[id].value)
    decreases |run|
  {
    if run != [] {
      StepKeeps(s, run[0]);
      PhaseStep(s, run[0], id);
      PhaseIsShort(Next(s, run[0]), run[1..], id);
    }
  }

  /** Entering the phase stamps the clock on exactly one record. */
  lemma EntryStamps(s: Sys, e: Env)
    requires Inv(s) && s.queue != [] && Clean(s, Handle(e)) && s.Alive(s.queue[0].job) && !InPhase(s, s.queue[0].job)
    requires InPhase(Next(s, Handle(e)), s.queue[0].job)
    ensures var id := s.queue[0].job; var j := s.jobs[id].value; var k := Next(s, Handle(e)).jobs[id].value;
      && EpilogRecord(k.state) < |j.history|
      && StartTimes(k) == StartTimes(j)[EpilogRecord(k.state) := e.now]
  {
    var it := s.queue[0];
    assert JobOk(s, it.job);
    StepsIn(it.act, s.jobs[it.job].value, TokensOf(s.queue, it.job), it.job in s.em, TmOf(s, it.job), e);
    ReactionShape(it.act, s.jobs[it.job].value, e);
    HandledRecord(s, s.jobs[it.job].value, React(it.act, s.jobs[it.job].value, e), e);
  }

  lemma HandledRecord(s: Sys, j: Job, r: Reaction, e: Env)
    requires s.queue != [] && s.queue[0].job < |s.jobs| && !r.wakes
    ensures Conclude(Popped(s), s.queue[0], j, r, e).jobs == s.jobs[s.queue[0].job := r.job]
  {
  }
}
