/** The run assumptions are exact: a step from a balanced system leaves the host ledger balanced if and only if the
    step is clean. */
module Exactness {
  import opened Jobs
  import opened Reactions
  import opened Tokens
  import opened TaskTables
  import opened LifeCycle
  import opened Conservation
  import opened Steps

  // ------------------------------------------------------------------------------------------
  // Unclean handlers
  // ------------------------------------------------------------------------------------------

  /** On host h, what was held is what is given back plus what is held afterwards. */
  ghost predicate EvenAt(before: Claim, give: Claim, after: Claim, history: seq<Record>, np: nat, h: nat) {
    && SlotsAt(before, history, np, h) == SlotsAt(give, history, np, h) + SlotsAt(after, history, np, h)
    && RunsAt(before, history, h) == RunsAt(give, history, h) + RunsAt(after, history, h)
  }

  ghost predicate Uneven(j: Job, f: Option<Action>, f': Option<Action>, r: Reaction, h: nat) {
    && (exists k | 0 <= k < |j.history| :: j.history[k].host == h)
    && !r.wakes && !EvenAt(Holds(j.state, f), r.give, HoldsAfter(r, f'), j.history, j.np, h)
  }

  lemma UncleanSignal(s: Signal, j: Job, l: seq<Item>, em: bool, tm: Option<Xfer>) returns (h: nat)
    requires TokenOk(j, l, em, tm) && !CleanAct(Ask(s), j, First(l)) && !s.SigKillHard?
    ensures Uneven(j, First(l), First(l), OnSignal(s, j), h)
  {
    h := if j.state.Pending? then j.history[0].host else j.history[1].host;
  }

  /** A hard kill gives back what the state says; when a queued action has moved the holdings, that is too much on
      some host or too little, never both. */
  lemma UncleanHardKill(j: Job, l: seq<Item>, em: bool, tm: Option<Xfer>) returns (h: nat)
    requires TokenOk(j, l, em, tm) && !CleanAct(Ask(SigKillHard), j, First(l))
    ensures Uneven(j, First(l), First(l), OnSignal(SigKillHard, j), h)
  {
    TokenMeets(j, l, em, tm);
    var b, c := Base(j.state), Holds(j.state, First(l));
    h := j.history[if b.run0 != c.run0 || (j.np > 0 && b.slots0 != c.slots0) then 0 else 1].host;
  }

  lemma UncleanMigration(j: Job, l: seq<Item>, em: bool, tm: Option<Xfer>, e: Env) returns (h: nat)
    requires Turn(Go(MigrCancel), j, l, em, tm) && !CleanAct(Go(MigrCancel), j, First(l))
    ensures Uneven(j, First(l), First(l[1..]), Enter(MigrCancel, j, e), h)
  {
    h := j.history[1].host;
  }

  lemma UncleanReport(j: Job, l: seq<Item>, em: bool, tm: Option<Xfer>) returns (h: nat)
    requires Turn(Report(WrapperStage, false), j, l, em, tm) && j.state.MigrCancel?
    ensures Uneven(j, First(l), Some(Go(EpilogFail)), OnWrapper(false, j), h)
  {
    h := j.history[1].host;
  }

  lemma UncleanTurn(a: Action, j: Job, id: nat, cell: nat, l: seq<Item>, em: bool, tm: Option<Xfer>, e: Env)
    returns (h: nat)
    requires Turn(a, j, l, em, tm) && !CleanAct(a, j, First(l))
    ensures var r := React(a, j, e); Uneven(j, First(l), First(TokensAfter(a, j, id, cell, l, r.dest)), r, h)
  {
    match a
    case Ask(s) =>
      assert l + [] == l;
      if s.SigKillHard? { h := UncleanHardKill(j, l, em, tm); } else { h := UncleanSignal(s, j, l, em, tm); }
    case Report(_, _) =>
      assert l[1..] == [];
      h := UncleanReport(j, l, em, tm);
    case Go(_) =>
      assert l[1..] + [] == l[1..];
      h := UncleanMigration(j, l, em, tm, e);
  }

  ghost predicate HostBalanced(s: Sys, h: nat) { Balanced(Slots(h), s) && Balanced(Runs(h), s) }

  /** What a reaction does to the books of one host, against what it does to the shares. */
  lemma HostTurn(s: Sys, j: Job, r: Reaction, e: Env, h: nat)
    requires Orderly(s) && HostBalanced(s, h) && h < |s.hosts|
    requires s.queue != [] && s.queue[0].job < |s.jobs| && s.jobs[s.queue[0].job] == Some(j)
    requires !r.wakes && (r.job.Some? ==> SameRecord(j, r.job.value))
    requires var it := s.queue[0]; var l := TokensOf(s.queue, it.job); MovesJob(it.act) ==> l != [] && l[0] == it
    ensures var it := s.queue[0]; var l := TokensOf(s.queue, it.job); var t := Conclude(Popped(s), it, j, r, e);
      var before := Holds(j.state, First(l));
      var after := HoldsAfter(r, First(TokensAfter(it.act, j, it.job, it.cell, l, r.dest)));
      && |t.hosts| == |s.hosts|
      && t.hosts[h].used - Total(Slots(h), t, |t.jobs|) ==
         SlotsAt(before, j.history, j.np, h) - SlotsAt(r.give, j.history, j.np, h) - SlotsAt(after, j.history, j.np, h)
      && t.hosts[h].running - Total(Runs(h), t, |t.jobs|) ==
         RunsAt(before, j.history, h) - RunsAt(r.give, j.history, h) - RunsAt(after, j.history, h)
  {
    var it := s.queue[0];
    var t := Conclude(Popped(s), it, j, r, e);
    ConcludeTokens(s, j, r, e, it.job);
    OthersBalance(s, j, r, e, t, Slots(h));
    OthersBalance(s, j, r, e, t, Runs(h));
    assert t.jobs[it.job] == r.job;
    assert t.hosts[h] == Host(s.hosts[h].used - SlotsAt(r.give, j.history, j.np, h),
                              s.hosts[h].running - RunsAt(r.give, j.history, h));
    ShareAfter(j, r, First(TokensOf(t.queue, it.job)), h);
  }

  /** Handlers leave the hosts of the history alone, so the share can be read off the old record. */
  lemma ShareAfter(j: Job, r: Reaction, f': Option<Action>, h: nat)
    requires r.job.Some? ==> SameRecord(j, r.job.value)
    ensures Weigh(Slots(h), r.job, f') == SlotsAt(HoldsAfter(r, f'), j.history, j.np, h)
    ensures Weigh(Runs(h), r.job, f') == RunsAt(HoldsAfter(r, f'), j.history, h)
  {
  }

  ghost predicate Reacts(s: Sys, j: Job, r: Reaction) {
    && s.queue != [] && s.queue[0].job < |s.jobs| && s.jobs[s.queue[0].job] == Some(j)
    && !r.wakes && (r.job.Some? ==> SameRecord(j, r.job.value))
    && (MovesJob(s.queue[0].act) ==> JobTokens(s) != [] && JobTokens(s)[0] == s.queue[0])
  }

  /** The queued work of the job whose action is at the head of the queue. */
  function JobTokens(s: Sys): seq<Item>
    requires s.queue != []
  { TokensOf(s.queue, s.queue[0].job) }

  function FirstAfter(s: Sys, j: Job, d: Dest): Option<Action>
    requires s.queue != [] && (MovesJob(s.queue[0].act) ==> JobTokens(s) != [])
  { First(TokensAfter(s.queue[0].act, j, s.queue[0].job, s.queue[0].cell, JobTokens(s), d)) }

  lemma UnevenBreaks(s: Sys, j: Job, r: Reaction, e: Env, h: nat)
    requires Inv(s) && Reacts(s, j, r) && Uneven(j, First(JobTokens(s)), FirstAfter(s, j, r.dest), r, h)
    ensures h < |s.hosts| && !HostBalanced(Conclude(Popped(s), s.queue[0], j, r, e), h)
  {
    assert JobOk(s, s.queue[0].job);
    assert Balanced(Slots(h), s) && Balanced(Runs(h), s);
    HostTurn(s, j, r, e, h);
  }

  lemma UncleanHandle(s: Sys, e: Env) returns (h: nat)
    requires Inv(s) && s.queue != [] && !Clean(s, Handle(e))
    ensures h < |s.hosts| && !HostBalanced(Next(s, Handle(e)), h)
  {
    var it := s.queue[0];
    var j := s.jobs[it.job].value;
    var r := React(it.act, j, e);
    assert JobOk(s, it.job);
    h := UncleanTurn(it.act, j, it.job, it.cell, JobTokens(s), it.job in s.em, TmOf(s, it.job), e);
    ConcludeTokens(s, j, r, e, it.job);
    UnevenBreaks(s, j, r, e, h);
  }

  /** The two steps that lose track of the host a migrating job came from: its cancelled execution is reported as
      failed, or MIGR_CANCEL finds the execution already reported. */
  predicate LosesHost(a: Action, j: Job) {
    || (a == Report(WrapperStage, false) && j.state.MigrCancel?)
    || (a == Go(MigrCancel) && !(j.state.Wrapper? && !j.em.EmDone?))
  }

  lemma LosingTurn(a: Action, j: Job, id: nat, cell: nat, l: seq<Item>, em: bool, tm: Option<Xfer>, e: Env)
    requires Turn(a, j, l, em, tm) && LosesHost(a, j)
    ensures var r := React(a, j, e); var f' := First(TokensAfter(a, j, id, cell, l, r.dest));
      && |j.history| >= 2 && !r.wakes && Holds(j.state, First(l)) == Claim(true, true, true, true)
      && Splits(Claim(true, true, false, false), r.give, HoldsAfter(r, f'), j.np)
  {
    TokenMeets(j, l, em, tm);
    if |l| == 1 {
      assert l[1..] == [];
    }
    assert l[1..] + [] == l[1..];
  }

  lemma LeakOf(s: Sys, j: Job, r: Reaction, e: Env, h: nat)
    requires Inv(s) && Reacts(s, j, r) && h < |s.hosts| && |j.history| >= 2
    requires Holds(j.state, First(JobTokens(s))) == Claim(true, true, true, true)
    requires Splits(Claim(true, true, false, false), r.give, HoldsAfter(r, FirstAfter(s, j, r.dest)), j.np)
    ensures var t := Conclude(Popped(s), s.queue[0], j, r, e);
      && |t.hosts| == |s.hosts|
      && t.hosts[h].used == Total(Slots(h), t, |t.jobs|) + (if j.history[1].host == h then j.np else 0)
      && t.hosts[h].running == Total(Runs(h), t, |t.jobs|) + Bit(j.history[1].host == h)
  {
    assert Balanced(Slots(h), s) && Balanced(Runs(h), s);
    HostTurn(s, j, r, e, h);
  }

  /** Such a step leaves behind exactly one running job and its slots on that host, and nothing elsewhere. */
  lemma MigrationLeaks(s: Sys, e: Env, h: nat)
    requires Inv(s) && s.queue != [] && s.Alive(s.queue[0].job) && h < |s.hosts|
    requires LosesHost(s.queue[0].act, s.jobs[s.queue[0].job].value)
    ensures var t := Next(s, Handle(e)); var j := s.jobs[s.queue[0].job].value;
      && |j.history| >= 2 && |t.hosts| == |s.hosts|
      && t.hosts[h].used == Total(Slots(h), t, |t.jobs|) + (if j.history[1].host == h then j.np else 0)
      && t.hosts[h].running == Total(Runs(h), t, |t.jobs|) + Bit(j.history[1].host == h)
  {
    var it := s.queue[0];
    var j := s.jobs[it.job].value;
    var r := React(it.act, j, e);
    assert JobOk(s, it.job);
    ConcludeTokens(s, j, r, e, it.job);
    LosingTurn(it.act, j, it.job, it.cell, JobTokens(s), it.job in s.em, TmOf(s, it.job), e);
    LeakOf(s, j, r, e, h);
  }

  // ------------------------------------------------------------------------------------------
  // Unclean dispatches
  // ------------------------------------------------------------------------------------------

  /** A dispatch touches one job. */
  lemma DispatchOthers(s: Sys, id: nat, host: nat, wrapperBased: bool, add: AddResult, i: nat)
    requires i < |s.jobs| && i != id
    ensures Undisturbed(s, Assign(s, id, host, wrapperBased, add), i)
  {
    var t := Assign(s, id, host, wrapperBased, add);
    if t.queue != s.queue {
      TokensAppend(s.queue, t.queue[|s.queue|], i);
    }
  }

  /** The record pushed by an unclean dispatch moves the job's claims one host along, away from host h. */
  lemma UncleanPush(j: Job, host: nat, wrapperBased: bool, add: AddResult, l: seq<Item>, em: bool, tm: Option<Xfer>)
    returns (h: nat)
    requires TokenOk(j, l, em, tm) && !CleanDispatch(j, host, add, l, em)
    ensures l != [] || add.Unsaved?
    ensures exists k | 0 <= k < |j.history| :: j.history[k].host == h
    ensures var c := Holds(j.state, First(l));
      RunsAt(c, Pushed(j, host, wrapperBased).history, h) != RunsAt(c, j.history, h) + Bit(add.Added? && h == host)
  {
    TokenMeets(j, l, em, tm);
    h := j.history[if MigrationQueued(l) then 1 else 0].host;
  }

  /** The dispatched job afterwards, and its queued work. */
  lemma DispatchedJob(s: Sys, id: nat, host: nat, wrapperBased: bool, add: AddResult)
    requires s.Alive(id) && host < |s.hosts| && !add.Refused?
    requires var j := s.jobs[id].value; (j.state.Pending? || j.state.Wrapper?) && !CalledOff(j)
    ensures var t := Assign(s, id, host, wrapperBased, add); var j := s.jobs[id].value; var l := TokensOf(s.queue, id);
      && t.Alive(id) && t.jobs[id].value.state == j.state
      && t.jobs[id].value.history == Pushed(j, host, wrapperBased).history
      && (add.Unsaved? || l != [] ==> First(TokensOf(t.queue, id)) == First(l))
      && forall h | 0 <= h < |s.hosts| ::
           |t.hosts| == |s.hosts| && t.hosts[h].running == s.hosts[h].running + Bit(add.Added? && h == host)
  {
    var t := Assign(s, id, host, wrapperBased, add);
    if add.Added? {
      TokensAppend(s.queue, t.queue[|s.queue|], id);
    }
  }

  lemma UncleanDispatch(s: Sys, id: nat, host: nat, wrapperBased: bool, add: AddResult) returns (h: nat)
    requires Inv(s) && !Clean(s, Dispatch(id, host, wrapperBased, add))
    ensures h < |s.hosts| && !Balanced(Runs(h), Assign(s, id, host, wrapperBased, add))
  {
    var t := Assign(s, id, host, wrapperBased, add);
    var j := s.jobs[id].value;
    assert JobOk(s, id);
    h := UncleanPush(j, host, wrapperBased, add, TokensOf(s.queue, id), id in s.em, TmOf(s, id));
    DispatchedJob(s, id, host, wrapperBased, add);
    assert Balanced(Runs(h), s);
    forall i: nat | i < |s.jobs| && i != id ensures Undisturbed(s, t, i) {
      DispatchOthers(s, id, host, wrapperBased, add, i);
    }
    OneMover(s, t, id, Runs(h));
  }

  // ------------------------------------------------------------------------------------------
  // Exactly the clean runs
  // ------------------------------------------------------------------------------------------

  /** Each host's used slots and running jobs are what the jobs hold there. */
  ghost predicate LedgerHolds(s: Sys) { forall h: nat :: HostBalanced(s, h) }

  /** One step keeps the host ledger if and only if it is clean. */
  lemma LedgerIffClean(s: Sys, ev: Event)
    requires Inv(s) && Enabled(s, ev)
    ensures LedgerHolds(Next(s, ev)) <==> Clean(s, ev)
  {
    if Clean(s, ev) {
      StepKeeps(s, ev);
    } else {
      match ev
      case Handle(e) =>
        var h := UncleanHandle(s, e);
        assert !HostBalanced(Next(s, ev), h);
      case Dispatch(id, host, wrapperBased, add) =>
        var h := UncleanDispatch(s, id, host, wrapperBased, add);
        assert !HostBalanced(Next(s, ev), h);
      case _ =>
    }
  }

  ghost predicate LedgerThroughout(s: Sys, run: seq<Event>)
    requires CanRun(s, run)
    decreases |run|
  {
    run != [] ==> LedgerHolds(Next(s, run[0])) && LedgerThroughout(Next(s, run[0]), run[1..])
  }

  /** The host ledger holds after every step of a run if and only if every step is clean. */
  lemma {:induction false} LedgerIffCleanRun(s: Sys, run: seq<Event>)
    requires Inv(s) && CanRun(s, run)
    ensures LedgerThroughout(s, run) <==> CleanRun(s, run)
    decreases |run|
  {
    if run != [] {
      LedgerIffClean(s, run[0]);
      if Clean(s, run[0]) {
        StepKeeps(s, run[0]);
        LedgerIffCleanRun(Next(s, run[0]), run[1..]);
      }
    }
  }
}
