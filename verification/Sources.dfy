/** Where a migrating job left its restart files: MIGR_PROLOG fetches them from the host of the previous history
    record, and that is where the execution ran, unless an unsaved record was slipped in between. */
module Sources {
  import opened Jobs
  import opened Reactions
  import opened Tokens
  import opened TaskTables
  import opened LifeCycle
  import opened Conservation
  import opened Steps
  import opened Exactness

  /** The record of the host where the job's last execution was submitted, as the handlers take it. */
  function SourceRecord(st: State, first: Option<Action>): Option<nat> {
    match st
    case PreWrapper | StopCancel | KillCancel => Some(0)
    case Wrapper => Some(if first == Some(Go(MigrCancel)) then 1 else 0)
    case MigrCancel | MigrProlog | MigrEpilog => Some(1)
    case _ => None
  }

  predicate Known(j: Job, first: Option<Action>, ran: Option<nat>) {
    var k := SourceRecord(j.state, first);
    k.Some? ==> k.value < |j.history| && ran == Some(j.history[k.value].host)
  }

  /** The host where the job's last execution was submitted, after a step. */
  function RanOn(s: Sys, ev: Event, id: nat, ran: Option<nat>): Option<nat> {
    if ev.Handle? && s.queue != [] && s.queue[0].job == id && s.Alive(id) then
      RanAt(s.jobs[id].value, React(s.queue[0].act, s.jobs[id].value, ev.env).dest, ran)
    else ran
  }

  function RanAt(j: Job, d: Dest, ran: Option<nat>): Option<nat> {
    if d == ToEm(Submit) && j.history != [] then Some(j.history[0].host) else ran
  }

  /** An unsaved record of another host is linked on top of a queued migration. */
  predicate Shuffles(s: Sys, ev: Event, id: nat) {
    && ev.Dispatch? && ev.job == id && ev.add.Unsaved? && s.Alive(id) && ev.host < |s.hosts|
    && var j := s.jobs[id].value;
       && j.state.Wrapper? && !CalledOff(j) && First(TokensOf(s.queue, id)) == Some(Go(MigrCancel))
       && j.history != [] && j.Head().host != ev.host
  }

  predicate KnownIn(s: Sys, id: nat, ran: Option<nat>) {
    s.Alive(id) ==> Known(s.jobs[id].value, First(TokensOf(s.queue, id)), ran)
  }

  // ------------------------------------------------------------------------------------------
  // Handlers
  // ------------------------------------------------------------------------------------------

  lemma SignalKnown(sig: Signal, j: Job, l: seq<Item>, em: bool, tm: Option<Xfer>, ran: Option<nat>)
    requires TokenOk(j, l, em, tm) && CleanAct(Ask(sig), j, First(l)) && Known(j, First(l), ran)
    ensures var r := OnSignal(sig, j); r.dest != ToEm(Submit) && (r.job.Some? ==> Known(r.job.value, First(l), ran))
  {
  }

  lemma ReportKnown(stage: Stage, done: bool, j: Job, l: seq<Item>, e: Env, f': Option<Action>, ran: Option<nat>)
    requires Known(j, First(l), ran) && First(l) == Some(Report(stage, done)) && f' != Some(Go(MigrCancel))
    ensures var r := React(Report(stage, done), j, e);
      r.dest != ToEm(Submit) && r.job.Some? && Known(r.job.value, f', ran)
  {
    assert React(Report(stage, done), j, e).job.value.state == j.state;
  }

  lemma EntryKnown(to: State, j: Job, l: seq<Item>, em: bool, tm: Option<Xfer>, e: Env, f': Option<Action>,
                   ran: Option<nat>)
    requires Turn(Go(to), j, l, em, tm) && CleanAct(Go(to), j, First(l)) && Known(j, First(l), ran)
    requires f' != Some(Go(MigrCancel))
    ensures var r := React(Go(to), j, e); r.job.Some? ==> Known(r.job.value, f', RanAt(j, r.dest, ran))
  {
    TokenMeets(j, l, em, tm);
  }

  lemma TurnKnown(a: Action, j: Job, id: nat, cell: nat, l: seq<Item>, em: bool, tm: Option<Xfer>, e: Env,
                  ran: Option<nat>)
    requires Turn(a, j, l, em, tm) && CleanAct(a, j, First(l)) && Known(j, First(l), ran)
    ensures var r := React(a, j, e);
      r.job.Some? ==> Known(r.job.value, First(TokensAfter(a, j, id, cell, l, r.dest)), RanAt(j, r.dest, ran))
  {
    ReactionShape(a, j, e);
    TokenMeets(j, l, em, tm);
    var f' := First(TokensAfter(a, j, id, cell, l, React(a, j, e).dest));
    match a
    case Ask(sig) =>
      assert l + [] == l;
      SignalKnown(sig, j, l, em, tm, ran);
    case Report(stage, done) =>
      NoMigrationNext(a, j, l, em, tm, e);
      ReportKnown(stage, done, j, l, e, f', ran);
    case Go(to) =>
      NoMigrationNext(a, j, l, em, tm, e);
      EntryKnown(to, j, l, em, tm, e, f', ran);
  }

  /** Only a dispatch queues MIGR_CANCEL. */
  lemma NoMigrationNext(a: Action, j: Job, l: seq<Item>, em: bool, tm: Option<Xfer>, e: Env)
    requires Turn(a, j, l, em, tm) && MovesJob(a)
    ensures React(a, j, e).dest != ToDm(Go(MigrCancel))
    ensures l != [] && (l[1..] == [] || l[1..][0].act.Report?)
  {
    TokenMeets(j, l, em, tm);
  }

  // ------------------------------------------------------------------------------------------
  // Steps
  // ------------------------------------------------------------------------------------------

  lemma StaysKnown(s: Sys, t: Sys, id: nat, ran: Option<nat>)
    requires Orderly(s) && KnownIn(s, id, ran) && id < |s.jobs| && Undisturbed(s, t, id)
    ensures KnownIn(t, id, ran)
  {
    if s.Alive(id) {
      assert JobOk(s, id);
    }
  }

  lemma ConcludeKnown(s: Sys, j: Job, r: Reaction, e: Env, ran: Option<nat>)
    requires s.queue != [] && s.queue[0].job < |s.jobs| && (r.wakes ==> r.job.Some? && r.job.value.state.Zombie?)
    requires var it := s.queue[0]; var l := TokensOf(s.queue, it.job);
      && (MovesJob(it.act) ==> l != [])
      && (r.job.Some? ==> Known(r.job.value, First(TokensAfter(it.act, j, it.job, it.cell, l, r.dest)), ran))
    ensures KnownIn(Conclude(Popped(s), s.queue[0], j, r, e), s.queue[0].job, ran)
  {
    ConcludeTokens(s, j, r, e, s.queue[0].job);
  }

  lemma HandleKnown(s: Sys, e: Env, id: nat, ran: Option<nat>)
    requires Inv(s) && s.queue != [] && Clean(s, Handle(e)) && KnownIn(s, id, ran)
    ensures KnownIn(Next(s, Handle(e)), id, RanOn(s, Handle(e), id, ran))
  {
    var it := s.queue[0];
    if s.Alive(it.job) {
      var j := s.jobs[it.job].value;
      var r := React(it.act, j, e);
      if it.job == id {
        assert JobOk(s, id);
        ReactionShape(it.act, j, e);
        TurnKnown(it.act, j, id, it.cell, TokensOf(s.queue, id), id in s.em, TmOf(s, id), e, ran);
        ConcludeKnown(s, j, r, e, RanAt(j, r.dest, ran));
      } else if id < |s.jobs| {
        ConcludeOthers(s, j, r, e, id);
        StaysKnown(s, Next(s, Handle(e)), id, ran);
      }
    } else if id < |s.jobs| {
      StrayTokens(s, e, id);
    }
  }

  /** What the pushed record does to the record of the source. */
  lemma PushKnown(j: Job, host: nat, wrapperBased: bool, l: seq<Item>, em: bool, tm: Option<Xfer>, ran: Option<nat>)
    requires TokenOk(j, l, em, tm) && (j.state.Pending? || j.state.Wrapper?) && !CalledOff(j) && Known(j, First(l), ran)
    ensures CleanDispatch(j, host, Unsaved, l, em) ==>
      (Known(Pushed(j, host, wrapperBased), First(l), ran) <==>
       !(j.state.Wrapper? && First(l) == Some(Go(MigrCancel)) && j.Head().host != host))
    ensures CleanDispatch(j, host, Added, l, em) ==>
      l == [] && Known(Assigned(j, host, wrapperBased), Some(Go(if j.state.Pending? then Prolog else MigrCancel)), ran)
  {
  }

  lemma DispatchKnown(s: Sys, id: nat, host: nat, wrapperBased: bool, add: AddResult, ran: Option<nat>)
    requires Inv(s) && s.Alive(id) && Clean(s, Dispatch(id, host, wrapperBased, add)) && KnownIn(s, id, ran)
    ensures var ev := Dispatch(id, host, wrapperBased, add);
      KnownIn(Next(s, ev), id, ran) <==> !Shuffles(s, ev, id)
  {
    assert JobOk(s, id);
    var t := Assign(s, id, host, wrapperBased, add);
    var j := s.jobs[id].value;
    if host < |s.hosts| && (j.state.Pending? || j.state.Wrapper?) && !CalledOff(j) {
      PushKnown(j, host, wrapperBased, TokensOf(s.queue, id), id in s.em, TmOf(s, id), ran);
      if add.Added? {
        TokensAppend(s.queue, t.queue[|s.queue|], id);
      }
    }
  }

  lemma DispatchesKnown(s: Sys, ev: Event, id: nat, ran: Option<nat>)
    requires Inv(s) && ev.Dispatch? && Clean(s, ev) && KnownIn(s, id, ran)
    ensures KnownIn(Next(s, ev), id, ran) <==> !Shuffles(s, ev, id)
  {
    if ev.job != id && id < |s.jobs| {
      DispatchOthers(s, ev.job, ev.host, ev.wrapperBased, ev.add, id);
      StaysKnown(s, Next(s, ev), id, ran);
    } else if s.Alive(id) {
      DispatchKnown(s, id, ev.host, ev.wrapperBased, ev.add, ran);
    }
  }

  lemma JoinsKnown(j: Job, k: Job, l: seq<Item>, it: Item, ran: Option<nat>)
    requires Known(j, First(l), ran) && it.act.Report? && k.state == j.state && k.history == j.history
    ensures Known(k, First(l + [it]), ran)
  {
  }

  lemma ReportsKnown(s: Sys, t: Sys, it: Item, id: nat, ran: Option<nat>)
    requires KnownIn(s, id, ran) && t.queue == s.queue + [it] && it.act.Report?
    requires t.Alive(id) ==>
      && s.Alive(id) && t.jobs[id].value.state == s.jobs[id].value.state
      && t.jobs[id].value.history == s.jobs[id].value.history
    ensures KnownIn(t, id, ran)
  {
    TokensAppend(s.queue, it, id);
    if t.Alive(id) && it.job == id {
      JoinsKnown(s.jobs[id].value, t.jobs[id].value, TokensOf(s.queue, id), it, ran);
    }
  }

  lemma PostKnown(s: Sys, sig: Signal, job: nat, id: nat, ran: Option<nat>)
    requires KnownIn(s, id, ran)
    ensures KnownIn(Next(s, Post(sig, job)), id, ran)
  {
    TokensAppend(s.queue, Item(Ask(sig), job, s.cells.next, Init), id);
  }

  lemma ArrayKnown(s: Sys, aid: nat, ids: seq<nat>, init: Job, id: nat, ran: Option<nat>)
    requires Enabled(s, NewArray(aid, ids, init)) && KnownIn(s, id, ran)
    ensures KnownIn(Next(s, NewArray(aid, ids, init)), id, ran)
  {
    Enrolled(s.jobs, ids, aid, init);
  }

  lemma OthersKnown(s: Sys, ev: Event, id: nat, ran: Option<nat>)
    requires Enabled(s, ev) && KnownIn(s, id, ran)
    requires !ev.Handle? && !ev.Dispatch? && !ev.EmAnswers? && !ev.TmAnswers? && !ev.Post? && !ev.NewArray?
    ensures KnownIn(Next(s, ev), id, ran)
  {
  }

  lemma EmAnswerKnown(s: Sys, job: nat, done: bool, c: Option<nat>, id: nat, ran: Option<nat>)
    requires Enabled(s, EmAnswers(job, done, c)) && KnownIn(s, id, ran)
    ensures KnownIn(Next(s, EmAnswers(job, done, c)), id, ran)
  {
    var t := Next(s, EmAnswers(job, done, c));
    ReportsKnown(s, t, t.queue[|s.queue|], id, ran);
  }

  lemma TmAnswerKnown(s: Sys, job: nat, x: Xfer, done: bool, c: Option<nat>, id: nat, ran: Option<nat>)
    requires Enabled(s, TmAnswers(job, x, done, c)) && KnownIn(s, id, ran)
    ensures KnownIn(Next(s, TmAnswers(job, x, done, c)), id, ran)
  {
    var t := Next(s, TmAnswers(job, x, done, c));
    ReportsKnown(s, t, t.queue[|s.queue|], id, ran);
  }

  lemma QuietKnown(s: Sys, ev: Event, id: nat, ran: Option<nat>)
    requires Inv(s) && Enabled(s, ev) && Clean(s, ev) && KnownIn(s, id, ran) && !ev.Handle?
    ensures KnownIn(Next(s, ev), id, ran) <==> !Shuffles(s, ev, id)
  {
    match ev
    case Dispatch(_, _, _, _) => DispatchesKnown(s, ev, id, ran);
    case NewArray(aid, ids, init) => ArrayKnown(s, aid, ids, init, id, ran);
    case Post(sig, job) => PostKnown(s, sig, job, id, ran);
    case EmAnswers(job, done, c) => EmAnswerKnown(s, job, done, c, id, ran);
    case TmAnswers(job, x, done, c) => TmAnswerKnown(s, job, x, done, c, id, ran);
    case _ => OthersKnown(s, ev, id, ran);
  }

  /** A clean step keeps the source known if and only if it does not slip a record in. */
  lemma StepKnownIff(s: Sys, ev: Event, id: nat, ran: Option<nat>)
    requires Inv(s) && Enabled(s, ev) && Clean(s, ev) && KnownIn(s, id, ran)
    ensures KnownIn(Next(s, ev), id, RanOn(s, ev, id, ran)) <==> !Shuffles(s, ev, id)
  {
    if ev.Handle? {
      HandleKnown(s, ev.env, id, ran);
    } else {
      QuietKnown(s, ev, id, ran);
    }
  }

  // ------------------------------------------------------------------------------------------
  // Over runs
  // ------------------------------------------------------------------------------------------

  ghost function RanOnAfter(s: Sys, run: seq<Event>, id: nat, ran: Option<nat>): Option<nat>
    requires CanRun(s, run)
    decreases |run|
  {
    if run == [] then ran else RanOnAfter(Next(s, run[0]), run[1..], id, RanOn(s, run[0], id, ran))
  }

  ghost predicate KnownThroughout(s: Sys, run: seq<Event>, id: nat, ran: Option<nat>)
    requires CanRun(s, run)
    decreases |run|
  {
    KnownIn(s, id, ran)
    && (run != [] ==> KnownThroughout(Next(s, run[0]), run[1..], id, RanOn(s, run[0], id, ran)))
  }

  ghost predicate NeverShuffles(s: Sys, run: seq<Event>, id: nat)
    requires CanRun(s, run)
    decreases |run|
  {
    run != [] ==> !Shuffles(s, run[0], id) && NeverShuffles(Next(s, run[0]), run[1..], id)
  }

  /** The handlers know the host of the last execution throughout a clean run if and only if no step of it slips an
      unsaved record of another host onto a queued migration of the job. */
  lemma {:induction false} KnownThroughoutIff(s: Sys, run: seq<Event>, id: nat, ran: Option<nat>)
    requires Inv(s) && CanRun(s, run) && CleanRun(s, run) && KnownIn(s, id, ran)
    ensures KnownThroughout(s, run, id, ran) <==> NeverShuffles(s, run, id)
    ensures NeverShuffles(s, run, id) ==> KnownIn(After(s, run), id, RanOnAfter(s, run, id, ran))
    decreases |run|
  {
    if run != [] {
      StepKnownIff(s, run[0], id, ran);
      if !Shuffles(s, run[0], id) {
        StepKeeps(s, run[0]);
        KnownThroughoutIff(Next(s, run[0]), run[1..], id, RanOn(s, run[0], id, ran));
      }
    }
  }

  /** After such a run of an idle manager, MIGR_PROLOG finds in the previous record the host where the execution that
      the migration cancelled was submitted. */
  lemma MigrationSource(jobs: nat, hosts: nat, users: nat, arrays: nat, run: seq<Event>, id: nat)
    requires var s := Start(jobs, hosts, users, arrays); CanRun(s, run) && CleanRun(s, run) && NeverShuffles(s, run, id)
    ensures var s := Start(jobs, hosts, users, arrays); var t := After(s, run);
      t.Alive(id) && t.queue != [] && t.queue[0].job == id && t.queue[0].act == Go(MigrProlog) ==>
        var j := t.jobs[id].value; |j.history| >= 2 && RanOnAfter(s, run, id, None) == Some(j.history[1].host)
  {
    var s := Start(jobs, hosts, users, arrays);
    StartKeeps(jobs, hosts, users, arrays);
    KnownThroughoutIff(s, run, id, None);
    RunsKeep(s, run);
    var t := After(s, run);
    if t.Alive(id) && t.queue != [] && t.queue[0].job == id && t.queue[0].act == Go(MigrProlog) {
      assert JobOk(t, id);
      TokenMeets(t.jobs[id].value, TokensOf(t.queue, id), id in t.em, TmOf(t, id));
    }
  }
}
