/** What the accounts say to users: running jobs per user, counters that never go negative, and answers to every
    request. */
module Accounts {
  import opened Jobs
  import opened Reactions
  import opened Tokens
  import opened TaskTables
  import opened LifeCycle
  import opened Conservation
  import opened Steps

  lemma {:induction false} TotalNonnegative(m: Account, s: Sys, n: nat)
    requires n <= |s.jobs|
    ensures Total(m, s, n) >= 0
  {
    if n > 0 {
      TotalNonnegative(m, s, n - 1);
    }
  }

  /** No host or user counter ever goes negative. */
  lemma CountersNonnegative(s: Sys)
    requires Inv(s)
    ensures forall h: nat | h < |s.hosts| :: s.hosts[h].used >= 0 && s.hosts[h].running >= 0
    ensures forall u: nat | u < |s.users| :: s.users[u] >= s.log.leaks[u]
  {
    forall h: nat | h < |s.hosts| ensures s.hosts[h].used >= 0 && s.hosts[h].running >= 0 {
      assert Balanced(Slots(h), s) && Balanced(Runs(h), s);
      TotalNonnegative(Slots(h), s, |s.jobs|);
      TotalNonnegative(Runs(h), s, |s.jobs|);
    }
    forall u: nat | u < |s.users| ensures s.users[u] >= s.log.leaks[u] {
      assert Balanced(User(u), s);
      TotalNonnegative(User(u), s, |s.jobs|);
    }
  }

  // ------------------------------------------------------------------------------------------
  // Users
  // ------------------------------------------------------------------------------------------

  /** How many of a user's jobs are dispatched and not yet back. */
  function DispatchedJobs(s: Sys, u: nat): int { Total(User(u), s, |s.jobs|) }

  /** A hard kill of a running job tells the host but not the user: the counter stays one too high for good. */
  lemma HardKillLeaks(s: Sys, e: Env, u: nat)
    requires Inv(s) && s.queue != [] && s.queue[0].act == Ask(SigKillHard) && s.Alive(s.queue[0].job) && u < |s.users|
    requires Clean(s, Handle(e))
    ensures var t := Next(s, Handle(e)); var j := s.jobs[s.queue[0].job].value;
      t.users == s.users && DispatchedJobs(t, u) == DispatchedJobs(s, u) - Bit(j.user == u && Running(j.state))
  {
    var t := Next(s, Handle(e));
    StepKeeps(s, Handle(e));
    assert JobOk(s, s.queue[0].job);
    assert Balanced(User(u), s) && Balanced(User(u), t);
  }

  /** No hard kill is queued. */
  ghost predicate Gentle(s: Sys) { forall k | 0 <= k < |s.queue| :: s.queue[k].act != Ask(SigKillHard) }

  predicate GentleEvent(ev: Event) { ev.Post? ==> ev.sig != SigKillHard }

  lemma LeakShape(a: Action, j: Job, e: Env)
    ensures React(a, j, e).leakUser ==> a == Ask(SigKillHard)
    ensures React(a, j, e).dest != ToDm(Ask(SigKillHard))
  {
  }

  lemma GentleHandle(s: Sys, e: Env)
    requires s.queue != [] && Gentle(s)
    ensures Gentle(Next(s, Handle(e))) && Next(s, Handle(e)).log.leaks == s.log.leaks
  {
    var it := s.queue[0];
    if s.Alive(it.job) {
      var j := s.jobs[it.job].value;
      LeakShape(it.act, j, e);
      GentleConclude(s, it, j, React(it.act, j, e), e);
    }
  }

  lemma GentleConclude(s: Sys, it: Item, j: Job, r: Reaction, e: Env)
    requires s.queue != [] && Gentle(s) && it.job < |s.jobs| && !r.leakUser && r.dest != ToDm(Ask(SigKillHard))
    ensures Gentle(Conclude(Popped(s), it, j, r, e)) && Conclude(Popped(s), it, j, r, e).log.leaks == s.log.leaks
  {
  }

  lemma GentleDispatch(s: Sys, id: nat, host: nat, wrapperBased: bool, add: AddResult)
    requires Gentle(s)
    ensures var t := Assign(s, id, host, wrapperBased, add); Gentle(t) && t.log.leaks == s.log.leaks
  {
  }

  lemma GentleStep(s: Sys, ev: Event)
    requires Enabled(s, ev) && Gentle(s) && GentleEvent(ev)
    ensures Gentle(Next(s, ev)) && Next(s, ev).log.leaks == s.log.leaks
  {
    match ev
    case Handle(e) => GentleHandle(s, e);
    case Dispatch(id, host, wrapperBased, add) => GentleDispatch(s, id, host, wrapperBased, add);
    case _ =>
  }

  /** The step is a hard kill of a running job of the user. */
  predicate LeaksAt(s: Sys, ev: Event, u: nat) {
    && ev.Handle? && s.queue != [] && s.queue[0].act == Ask(SigKillHard) && s.Alive(s.queue[0].job)
    && s.jobs[s.queue[0].job].value.user == u && Running(s.jobs[s.queue[0].job].value.state)
  }

  lemma LeakTurn(a: Action, j: Job, e: Env)
    ensures React(a, j, e).leakUser <==> a == Ask(SigKillHard) && Running(j.state)
  {
  }

  lemma LeakStep(s: Sys, ev: Event, u: nat)
    requires Enabled(s, ev) && u < |s.log.leaks|
    ensures |Next(s, ev).log.leaks| == |s.log.leaks|
    ensures Next(s, ev).log.leaks[u] == s.log.leaks[u] + Bit(LeaksAt(s, ev, u))
  {
    if ev.Handle? && s.Alive(s.queue[0].job) {
      LeakTurn(s.queue[0].act, s.jobs[s.queue[0].job].value, ev.env);
    }
  }

  /** How many running jobs of the user a run kills hard. */
  ghost function HardKills(s: Sys, run: seq<Event>, u: nat): nat
    requires CanRun(s, run)
    decreases |run|
  {
    if run == [] then 0 else Bit(LeaksAt(s, run[0], u)) + HardKills(Next(s, run[0]), run[1..], u)
  }

  lemma {:induction false} LeaksCount(s: Sys, run: seq<Event>, u: nat)
    requires CanRun(s, run) && u < |s.log.leaks|
    ensures |After(s, run).log.leaks| == |s.log.leaks|
    ensures After(s, run).log.leaks[u] == s.log.leaks[u] + HardKills(s, run, u)
    decreases |run|
  {
    if run != [] {
      LeakStep(s, run[0], u);
      LeaksCount(Next(s, run[0]), run[1..], u);
    }
  }

  /** After every clean run each user's counter is the number of the user's dispatched jobs plus one for every running
      job of the user that was killed hard on the way. */
  lemma UserCounter(s: Sys, run: seq<Event>, u: nat)
    requires Inv(s) && CanRun(s, run) && CleanRun(s, run) && u < |s.users|
    ensures var t := After(s, run);
      u < |t.users| && t.users[u] == DispatchedJobs(t, u) + s.log.leaks[u] + HardKills(s, run, u)
  {
    RunsKeep(s, run);
    LeaksCount(s, run, u);
    assert Balanced(User(u), After(s, run));
  }

  /** So it is exact if and only if no step of the run killed a running job of the user hard. */
  lemma UsersExactIff(s: Sys, run: seq<Event>, u: nat)
    requires Inv(s) && CanRun(s, run) && CleanRun(s, run) && u < |s.users| && s.log.leaks[u] == 0
    ensures var t := After(s, run);
      u < |t.users| && (t.users[u] == DispatchedJobs(t, u) <==> HardKills(s, run, u) == 0)
  {
    UserCounter(s, run, u);
  }

  lemma {:induction false} GentleRun(s: Sys, run: seq<Event>, u: nat)
    requires CanRun(s, run) && Gentle(s) && forall ev <- run :: GentleEvent(ev)
    ensures HardKills(s, run, u) == 0
    decreases |run|
  {
    if run != [] {
      assert run[0] in run;
      GentleStep(s, run[0]);
      GentleRun(Next(s, run[0]), run[1..], u);
    }
  }

  /** In particular when no hard kill is ever posted. */
  lemma UsersExact(s: Sys, run: seq<Event>, u: nat)
    requires Inv(s) && CanRun(s, run) && CleanRun(s, run) && Gentle(s) && forall ev <- run :: GentleEvent(ev)
    requires u < |s.users| && s.log.leaks[u] == 0
    ensures var t := After(s, run); u < |t.users| && t.users[u] == DispatchedJobs(t, u)
  {
    UsersExactIff(s, run, u);
    GentleRun(s, run, u);
  }

  // ------------------------------------------------------------------------------------------
  // Replies
  // ------------------------------------------------------------------------------------------

  /** The requests that are answered at once. */
  predicate Prompt(sig: Signal) { sig.SigHold? || sig.SigRelease? || sig.SigResume? || sig.SigReschedule? }

  lemma PromptTurn(sig: Signal, a: Action, j: Job, e: Env)
    requires Prompt(sig)
    ensures Answers(React(a, j, e).dest, sig) <==> a == Ask(sig)
  {
  }

  lemma NotedAnswers(log: Log, a: Action, d: Dest, sig: Signal)
    ensures Noted(log, a, d).handled[Ask(sig)] - Sent(Noted(log, a, d), sig) ==
            log.handled[Ask(sig)] - Sent(log, sig) + Bit(a == Ask(sig)) - Bit(Answers(d, sig))
  {
    SentChange(log.sent, d, sig);
  }

  /** Requests of this kind that were handled and not answered. */
  function Unanswered(log: Log, sig: Signal): int { log.handled[Ask(sig)] - Sent(log, sig) }

  lemma PromptConclude(s: Sys, j: Job, r: Reaction, e: Env, sig: Signal)
    requires s.queue != [] && s.queue[0].job < |s.jobs| && (Answers(r.dest, sig) <==> s.queue[0].act == Ask(sig))
    ensures Unanswered(Conclude(Popped(s), s.queue[0], j, r, e).log, sig) == Unanswered(s.log, sig)
  {
    NotedAnswers(s.log, s.queue[0].act, r.dest, sig);
    ConcludeLog(s, j, r, e);
  }

  lemma PromptAlive(s: Sys, j: Job, e: Env, sig: Signal)
    requires s.queue != [] && s.queue[0].job < |s.jobs| && Prompt(sig)
    ensures var t := Conclude(Popped(s), s.queue[0], j, React(s.queue[0].act, j, e), e);
      Unanswered(t.log, sig) == Unanswered(s.log, sig)
  {
    PromptTurn(sig, s.queue[0].act, j, e);
    PromptConclude(s, j, React(s.queue[0].act, j, e), e, sig);
  }

  lemma PromptHandle(s: Sys, e: Env, sig: Signal)
    requires s.queue != [] && Prompt(sig)
    ensures Unanswered(Next(s, Handle(e)).log, sig) == Unanswered(s.log, sig)
  {
    var it := s.queue[0];
    if s.Alive(it.job) {
      PromptAlive(s, s.jobs[it.job].value, e, sig);
    } else {
      NotedAnswers(s.log, it.act, NoJob(it.act), sig);
      StrayLog(s, e);
    }
  }

  lemma StrayLog(s: Sys, e: Env)
    requires s.queue != [] && !s.Alive(s.queue[0].job)
    ensures var a := s.queue[0].act; Next(s, Handle(e)).log == Noted(s.log, a, NoJob(a))
  {
  }

  lemma PromptStep(s: Sys, ev: Event, sig: Signal)
    requires Enabled(s, ev) && Prompt(sig)
    ensures Unanswered(Next(s, ev).log, sig) == Unanswered(s.log, sig)
  {
    match ev
    case Handle(e) => PromptHandle(s, e, sig);
    case _ => assert Next(s, ev).log == s.log;
  }

  /** Every hold, release, resume and reschedule request that has been handled was answered exactly once: in
      every run, clean or not, the number left unanswered stays what it was at the start. */
  lemma {:induction false} PromptReplies(s: Sys, run: seq<Event>, sig: Signal)
    requires CanRun(s, run) && Prompt(sig)
    ensures Unanswered(After(s, run).log, sig) == Unanswered(s.log, sig)
    decreases |run|
  {
    if run != [] {
      PromptStep(s, run[0], sig);
      PromptReplies(Next(s, run[0]), run[1..], sig);
    }
  }

  /** Stop requests handled are answered or in progress. */
  ghost predicate StopsConserved(s: Sys) {
    s.log.handled[Ask(SigStop)] == Sent(s.log, SigStop) + Total(Stops, s, |s.jobs|)
  }

  ghost predicate KillsConserved(s: Sys) {
    s.log.handled[Ask(SigKill)] + s.log.handled[Ask(SigKillHard)] == Sent(s.log, SigKill) + Total(Kills, s, |s.jobs|)
  }

  /** The handled action takes the job out of the stop (or kill) states without an answer. */
  predicate Drops(s: Sys, ev: Event, waits: State -> bool) {
    ev.Handle? && s.queue != [] && s.Alive(s.queue[0].job)
    && Overrides(s.queue[0].act) && waits(s.jobs[s.queue[0].job].value.state)
  }

  /** A clean step keeps the conservation of stop and kill requests if and only if it does not run an epilog
      transition, or a hard kill, on a job that is being stopped or killed. */
  lemma RequestsKeptIff(s: Sys, ev: Event)
    requires Inv(s) && Enabled(s, ev) && Clean(s, ev)
    ensures StopsConserved(s) ==> (StopsConserved(Next(s, ev)) <==> !Drops(s, ev, Stopping))
    ensures KillsConserved(s) ==> (KillsConserved(Next(s, ev)) <==> !Drops(s, ev, Killing))
  {
    var t := Next(s, ev);
    StepKeeps(s, ev);
    assert Balanced(Stops, s) && Balanced(Kills, s) && Balanced(Stops, t) && Balanced(Kills, t);
    LostOnly(s, ev);
  }

  lemma LostOnly(s: Sys, ev: Event)
    requires Enabled(s, ev)
    ensures Next(s, ev).log.lostStops == s.log.lostStops + Bit(Drops(s, ev, Stopping))
    ensures Next(s, ev).log.lostKills == s.log.lostKills + Bit(Drops(s, ev, Killing))
  {
  }

  /** How many stops (kills) a run drops. */
  ghost function DropsIn(s: Sys, run: seq<Event>, waits: State -> bool): nat
    requires CanRun(s, run)
    decreases |run|
  {
    if run == [] then 0 else Bit(Drops(s, run[0], waits)) + DropsIn(Next(s, run[0]), run[1..], waits)
  }

  lemma {:induction false} LostCount(s: Sys, run: seq<Event>)
    requires CanRun(s, run)
    ensures After(s, run).log.lostStops == s.log.lostStops + DropsIn(s, run, Stopping)
    ensures After(s, run).log.lostKills == s.log.lostKills + DropsIn(s, run, Killing)
    decreases |run|
  {
    if run != [] {
      LostOnly(s, run[0]);
      LostCount(Next(s, run[0]), run[1..]);
    }
  }

  /** After every clean run the requests handled are those answered, those in progress, and those dropped. */
  lemma RequestsCount(s: Sys, run: seq<Event>)
    requires Inv(s) && CanRun(s, run) && CleanRun(s, run)
    ensures var t := After(s, run);
      && t.log.handled[Ask(SigStop)] ==
         Sent(t.log, SigStop) + Total(Stops, t, |t.jobs|) + s.log.lostStops + DropsIn(s, run, Stopping)
      && t.log.handled[Ask(SigKill)] + t.log.handled[Ask(SigKillHard)] ==
         Sent(t.log, SigKill) + Total(Kills, t, |t.jobs|) + s.log.lostKills + DropsIn(s, run, Killing)
  {
    RunsKeep(s, run);
    LostCount(s, run);
    assert Balanced(Stops, After(s, run)) && Balanced(Kills, After(s, run));
  }

  /** After every clean run of a manager that has lost none, stops (kills) are conserved if and only if no step of the
      run dropped one; a dropped request is never made good. */
  lemma RunsConserveIff(s: Sys, run: seq<Event>)
    requires Inv(s) && CanRun(s, run) && CleanRun(s, run) && s.log.lostStops == 0 && s.log.lostKills == 0
    ensures StopsConserved(After(s, run)) <==> DropsIn(s, run, Stopping) == 0
    ensures KillsConserved(After(s, run)) <==> DropsIn(s, run, Killing) == 0
  {
    RequestsCount(s, run);
  }
}
