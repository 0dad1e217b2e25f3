/** What the invariant means for the handlers: a hard kill undoes exactly what its job did, queued transitions meet
    the state that queued them, no handler reads a missing history record, every move of a job is one of the life
    cycle's, and no counter goes negative. */
module Consequences {
  import opened Jobs
  import opened Reactions
  import opened Tokens
  import opened TaskTables
  import opened LifeCycle
  import opened Conservation
  import opened Steps
  import opened Exactness

  // ------------------------------------------------------------------------------------------
  // Hard kill
  // ------------------------------------------------------------------------------------------

  /** The same system without the job. */
  function Without(s: Sys, id: nat): Sys
    requires id < |s.jobs|
  { s.(jobs := s.jobs[id := None]) }

  /** The counters a host would have if only the jobs of s used it. */
  function HostFor(s: Sys, h: nat): Host { Host(Total(Slots(h), s, |s.jobs|), Total(Runs(h), s, |s.jobs|)) }

  lemma KilledTotals(s: Sys, e: Env, m: Account)
    requires Inv(s) && s.queue != [] && s.queue[0].act == Ask(SigKillHard) && s.Alive(s.queue[0].job)
    ensures var t := Next(s, Handle(e));
      |t.jobs| == |s.jobs| && Total(m, t, |t.jobs|) == Total(m, Without(s, s.queue[0].job), |s.jobs|)
  {
    var it := s.queue[0];
    var t := Next(s, Handle(e));
    var w := Without(s, it.job);
    var j := s.jobs[it.job].value;
    OthersBalance(s, j, React(it.act, j, e), e, t, m);
    TotalChange(m, s, w, it.job, |s.jobs|);
  }

  lemma LedgerAgrees(t: Sys, w: Sys)
    requires forall m: Account :: Total(m, t, |t.jobs|) == Total(m, w, |w.jobs|)
    ensures LedgerHolds(t) <==> forall h: nat | h < |t.hosts| :: t.hosts[h] == HostFor(w, h)
  {
    forall h: nat ensures HostBalanced(t, h) <==> h < |t.hosts| ==> t.hosts[h] == HostFor(w, h) {
    }
  }

  /** A hard kill leaves every host with the counters of the same system without the job, from any of the twenty
      states, if and only if no queued transition has moved the job's holdings away from what its state says. */
  lemma HardKillIsExactInverse(s: Sys, e: Env)
    requires Inv(s) && s.queue != [] && s.queue[0].act == Ask(SigKillHard) && s.Alive(s.queue[0].job)
    ensures |Next(s, Handle(e)).hosts| == |s.hosts|
    ensures var id := s.queue[0].job; var t := Next(s, Handle(e)); var first := First(TokensOf(s.queue, id));
      (forall h: nat | h < |t.hosts| :: t.hosts[h] == HostFor(Without(s, id), h)) <==>
      !(first.Some? && first.value.Go? && HoldingsMoved(s.jobs[id].value.state, first.value.to, s.jobs[id].value.np))
  {
    var w := Without(s, s.queue[0].job);
    forall m: Account ensures Total(m, Next(s, Handle(e)), |Next(s, Handle(e)).jobs|) == Total(m, w, |w.jobs|) {
      KilledTotals(s, e, m);
    }
    LedgerAgrees(Next(s, Handle(e)), w);
    LedgerIffClean(s, Handle(e));
  }

  /** The host ledger, in every state that a clean run of an idle manager reaches: each host's used slots and running
      jobs are the sum, over all jobs, of what their states and queued transitions say they hold there. */
  lemma ReachableLedger(jobs: nat, hosts: nat, users: nat, arrays: nat, run: seq<Event>, h: nat)
    requires var s := Start(jobs, hosts, users, arrays); CanRun(s, run) && CleanRun(s, run) && h < |After(s, run).hosts|
    ensures var t := After(Start(jobs, hosts, users, arrays), run); t.hosts[h] == HostFor(t, h)
  {
    var s := Start(jobs, hosts, users, arrays);
    StartKeeps(jobs, hosts, users, arrays);
    RunsKeep(s, run);
    assert Balanced(Slots(h), After(s, run)) && Balanced(Runs(h), After(s, run));
  }

  // ------------------------------------------------------------------------------------------
  // Queued transitions
  // ------------------------------------------------------------------------------------------

  /** The transitions whose handlers write the state without looking at it, and ZOMBIE. */
  predicate Unguarded(to: State) { to.Pending? || to.Failed? || to.Stopped? || to.Zombie? }

  lemma AgreementOf(j: Job, l: seq<Item>, em: bool, tm: Option<Xfer>, it: Item)
    requires TokenOk(j, l, em, tm) && it in l && it.act.Go? && Unguarded(it.act.to)
    ensures l == [it] && it.from == j.state && Goes(j.state, it.act.to)
  {
    TokenMeets(j, l, em, tm);
  }

  /** Whatever user signals and refused dispatches are handled in between, a queued PENDING, FAILED, STOPPED or
      ZOMBIE transition finds its job still in the state that queued it, and the transition is one that state may
      queue; so the unchecked writes make legal moves and ZOMBIE never takes its default branch. */
  lemma QueueStateAgreement(s: Sys, k: nat)
    requires Inv(s) && k < |s.queue| && s.queue[k].act.Go? && Unguarded(s.queue[k].act.to) && s.Alive(s.queue[k].job)
    ensures var it := s.queue[k]; var st := s.jobs[it.job].value.state;
      && st == it.from && Goes(st, it.act.to)
      && (it.act.to.Zombie? ==> st.Epilog? || st.KillEpilog?)
      && TokensOf(s.queue, it.job) == [it]
  {
    var it := s.queue[k];
    assert JobOk(s, it.job);
    TokensIn(s.queue, it.job, k);
    AgreementOf(s.jobs[it.job].value, TokensOf(s.queue, it.job), it.job in s.em, TmOf(s, it.job), it);
  }

  /** No handler reads a history record that does not exist. */
  lemma RecordsExist(s: Sys)
    requires Inv(s) && s.queue != [] && s.Alive(s.queue[0].job)
    ensures RecordsRead(s.queue[0].act, s.jobs[s.queue[0].job].value) <= |s.jobs[s.queue[0].job].value.history|
  {
    var it := s.queue[0];
    assert JobOk(s, it.job);
    TokenMeets(s.jobs[it.job].value, TokensOf(s.queue, it.job), it.job in s.em, TmOf(s, it.job));
    HistoryLongEnough(it.act, s.jobs[it.job].value, TokensOf(s.queue, it.job), it.job in s.em, TmOf(s, it.job));
  }

  lemma HistoryLongEnough(a: Action, j: Job, l: seq<Item>, em: bool, tm: Option<Xfer>)
    requires Turn(a, j, l, em, tm)
    ensures RecordsRead(a, j) <= |j.history|
  {
  }

  // ------------------------------------------------------------------------------------------
  // Legal moves
  // ------------------------------------------------------------------------------------------

  /** The moves a user request makes. */
  predicate UserMoves(from: State, to: State) {
    match from
    case Pending => to.Hold?
    case Hold => to.Pending?
    case Wrapper => to.StopCancel? || to.KillCancel?
    case Stopped | Failed => to.Pending?
    case _ => false
  }

  /** The life cycle: the queued transitions, the first transition after a dispatch, and what users ask for. */
  predicate Legal(from: State, to: State) {
    || from == to || Goes(from, to) || UserMoves(from, to)
    || (from.Pending? && to.Prolog?) || (from.Wrapper? && to.MigrCancel?)
  }

  lemma LegalTurn(a: Action, j: Job, l: seq<Item>, em: bool, tm: Option<Xfer>, e: Env)
    requires Turn(a, j, l, em, tm) && CleanAct(a, j, First(l))
    ensures var r := React(a, j, e); r.job.Some? ==> Legal(j.state, r.job.value.state)
  {
    TokenMeets(j, l, em, tm);
  }

  lemma OwnTurnIsLegal(s: Sys, e: Env)
    requires Inv(s) && s.queue != [] && Clean(s, Handle(e)) && s.Alive(s.queue[0].job)
    requires Next(s, Handle(e)).Alive(s.queue[0].job)
    ensures var id := s.queue[0].job; Legal(s.jobs[id].value.state, Next(s, Handle(e)).jobs[id].value.state)
  {
    var it, id := s.queue[0], s.queue[0].job;
    var j := s.jobs[id].value;
    assert JobOk(s, id);
    LegalTurn(it.act, j, TokensOf(s.queue, id), id in s.em, TmOf(s, id), e);
    ReactionShape(it.act, j, e);
  }

  lemma HandleIsLegal(s: Sys, e: Env, id: nat)
    requires Inv(s) && s.queue != [] && Clean(s, Handle(e)) && s.Alive(id) && Next(s, Handle(e)).Alive(id)
    ensures Legal(s.jobs[id].value.state, Next(s, Handle(e)).jobs[id].value.state)
  {
    var it := s.queue[0];
    if s.Alive(it.job) {
      var j := s.jobs[it.job].value;
      var r := React(it.act, j, e);
      if it.job == id {
        OwnTurnIsLegal(s, e);
      } else {
        ConcludeOthers(s, j, r, e, id);
      }
    }
  }

  /** Every clean step moves every job along the life cycle. */
  lemma StepsAreLegal(s: Sys, ev: Event, id: nat)
    requires Inv(s) && Enabled(s, ev) && Clean(s, ev) && s.Alive(id) && Next(s, ev).Alive(id)
    ensures Legal(s.jobs[id].value.state, Next(s, ev).jobs[id].value.state)
  {
    match ev
    case Handle(e) => HandleIsLegal(s, e, id);
    case NewArray(aid, ids, init) => Enrolled(s.jobs, ids, aid, init);
    case _ =>
  }
}
