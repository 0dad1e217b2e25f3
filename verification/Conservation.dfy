/** The invariant of the Dispatch Manager and the accounts it keeps: host slots, running jobs, users' running jobs,
    stop requests and kill requests. */
module Conservation {
  import opened Jobs
  import opened Reactions
  import opened Tokens
  import opened TaskTables
  import opened LifeCycle

  // ------------------------------------------------------------------------------------------
  // Accounts
  // ------------------------------------------------------------------------------------------

  /** An account: something the manager counts, and that the jobs must add up to. */
  datatype Account = Slots(host: nat) | Runs(host: nat) | User(user: nat) | Stops | Kills

  /** What one pool slot contributes. */
  function Weigh(m: Account, jo: Option<Job>, first: Option<Action>): int {
    if jo.None? then 0 else
    var j := jo.value;
    match m
    case Slots(h) => SlotsAt(Holds(j.state, first), j.history, j.np, h)
    case Runs(h) => RunsAt(Holds(j.state, first), j.history, h)
    case User(u) => Bit(j.user == u && Dispatched(j.state, first))
    case Stops => Bit(Stopping(j.state))
    case Kills => Bit(Killing(j.state))
  }

  function WeighAt(m: Account, s: Sys, i: nat): int
    requires i < |s.jobs|
  { Weigh(m, s.jobs[i], First(TokensOf(s.queue, i))) }

  function Total(m: Account, s: Sys, n: nat): int
    requires n <= |s.jobs|
  { if n == 0 then 0 else Total(m, s, n - 1) + WeighAt(m, s, n - 1) }

  predicate Exists(m: Account, s: Sys) {
    match m
    case Slots(h) => h < |s.hosts|
    case Runs(h) => h < |s.hosts|
    case User(u) => u < |s.users| && |s.log.leaks| == |s.users|
    case _ => true
  }

  /** What the manager's own counters say. A request is open until it is answered or lost. */
  function Books(m: Account, s: Sys): int
    requires Exists(m, s)
  {
    match m
    case Slots(h) => s.hosts[h].used
    case Runs(h) => s.hosts[h].running
    case User(u) => s.users[u] - s.log.leaks[u]
    case Stops => OpenStops(s.log)
    case Kills => OpenKills(s.log)
  }

  function OpenStops(log: Log): int { log.handled[Ask(SigStop)] - Sent(log, SigStop) - log.lostStops }

  function OpenKills(log: Log): int {
    log.handled[Ask(SigKill)] + log.handled[Ask(SigKillHard)] - Sent(log, SigKill) - log.lostKills
  }

  function Sent(log: Log, sig: Signal): nat { log.sent[Answer(sig, true)] + log.sent[Answer(sig, false)] }

  ghost predicate Balanced(m: Account, s: Sys) { Exists(m, s) ==> Books(m, s) == Total(m, s, |s.jobs|) }

  lemma {:induction false} TotalChange(m: Account, s: Sys, t: Sys, k: nat, n: nat)
    requires |s.jobs| == |t.jobs| && n <= |s.jobs|
    requires forall i | 0 <= i < n && i != k :: WeighAt(m, s, i) == WeighAt(m, t, i)
    ensures Total(m, t, n) == Total(m, s, n) + if k < n then WeighAt(m, t, k) - WeighAt(m, s, k) else 0
  {
    if n > 0 {
      TotalChange(m, s, t, k, n - 1);
    }
  }

  // ------------------------------------------------------------------------------------------
  // The invariant
  // ------------------------------------------------------------------------------------------

  function TmOf(s: Sys, id: nat): Option<Xfer> { if id in s.tm then Some(s.tm[id]) else None }

  ghost predicate JobOk(s: Sys, id: nat)
    requires s.Alive(id)
  {
    && TokenOk(s.jobs[id].value, TokensOf(s.queue, id), id in s.em, TmOf(s, id))
    && Placed(s, s.jobs[id].value)
  }

  ghost predicate Placed(s: Sys, j: Job) {
    j.user < |s.users| && forall k | 0 <= k < |j.history| :: j.history[k].host < |s.hosts|
  }

  /** Every live job's outstanding work is in order. */
  ghost predicate Orderly(s: Sys) {
    && |s.log.leaks| == |s.users|
    && forall id: nat | s.Alive(id) :: JobOk(s, id)
  }

  ghost predicate Inv(s: Sys) { Orderly(s) && forall m: Account :: Balanced(m, s) }

  // ------------------------------------------------------------------------------------------
  // Run assumptions
  // ------------------------------------------------------------------------------------------

  /** The assumptions on one step, each a guard on the state the step meets. */
  ghost predicate Clean(s: Sys, ev: Event)
    requires Enabled(s, ev)
  {
    match ev
    case Handle(_) =>
      var it := s.queue[0];
      s.Alive(it.job) ==> CleanAct(it.act, s.jobs[it.job].value, First(TokensOf(s.queue, it.job)))
    case Dispatch(id, host, _, add) =>
      s.Alive(id) && host < |s.hosts| ==>
        CleanDispatch(s.jobs[id].value, host, add, TokensOf(s.queue, id), id in s.em)
    case _ => true
  }

  /** The scheduler assigns a pending job that is not assigned yet, and moves a job whose execution is under way.
      A record that was linked but not saved must not displace the hosts the job holds. */
  predicate CleanDispatch(j: Job, host: nat, add: AddResult, tokens: seq<Item>, em: bool) {
    (j.state.Pending? || j.state.Wrapper?) && !CalledOff(j) && !add.Refused? ==>
      if add.Added? then (if j.state.Pending? then tokens == [] else tokens == [] && em)
      else if j.state.Pending? && tokens == [] then true
      else if j.state.Wrapper? && MigrationQueued(tokens) then |j.history| >= 2 && j.history[1].host == host
      else j.history != [] && j.Head().host == host
  }

  ghost predicate CleanRun(s: Sys, run: seq<Event>)
    requires CanRun(s, run)
    decreases |run|
  {
    run != [] ==> Clean(s, run[0]) && CleanRun(Next(s, run[0]), run[1..])
  }

  // ------------------------------------------------------------------------------------------
  // Handling the head of the queue
  // ------------------------------------------------------------------------------------------

  /** Taking off the head and perhaps adding an item at the end. */
  lemma TokensMoved(q: seq<Item>, tail: seq<Item>, i: nat)
    requires q != [] && |tail| <= 1 && forall it <- tail :: it.job == q[0].job
    ensures i != q[0].job ==> TokensOf(q[1..] + tail, i) == TokensOf(q, i)
    ensures i == q[0].job ==>
      TokensOf(q[1..] + tail, i) ==
      (if MovesJob(q[0].act) then TokensOf(q, i)[1..] else TokensOf(q, i))
      + (if tail != [] && MovesJob(tail[0].act) then tail else [])
  {
    if tail == [] {
      assert q[1..] + tail == q[1..];
    } else {
      TokensAppend(q[1..], tail[0], i);
      assert tail == [tail[0]];
    }
    assert i == q[0].job && MovesJob(q[0].act) ==> TokensOf(q, i)[1..] == TokensOf(q[1..], i);
  }

  /** Only the handled job's own queued actions change, and they change as TokensAfter says. */
  lemma ConcludeTokens(s: Sys, j: Job, r: Reaction, e: Env, i: nat)
    requires s.queue != [] && s.queue[0].job < |s.jobs|
    ensures var it := s.queue[0]; var t := Conclude(Popped(s), it, j, r, e);
      && (i != it.job ==> TokensOf(t.queue, i) == TokensOf(s.queue, i))
      && (MovesJob(it.act) ==> TokensOf(s.queue, it.job) != [] && TokensOf(s.queue, it.job)[0] == it)
      && TokensOf(t.queue, it.job) == TokensAfter(it.act, j, it.job, it.cell, TokensOf(s.queue, it.job), r.dest)
  {
    var it := s.queue[0];
    var tail := if r.dest.ToDm? then [Item(r.dest.act, it.job, it.cell, j.state)] else [];
    TokensMoved(s.queue, tail, i);
    TokensMoved(s.queue, tail, it.job);
  }

  /** An action for a job that does not exist is answered or dropped. */
  lemma StrayTokens(s: Sys, e: Env, i: nat)
    requires s.queue != [] && !s.Alive(s.queue[0].job)
    ensures i != s.queue[0].job ==> TokensOf(Handled(Popped(s), s.queue[0], e).queue, i) == TokensOf(s.queue, i)
  {
    assert s.queue[1..] + [] == s.queue[1..];
  }

  /** The same job in the same state on the same hosts, or no job. */
  ghost predicate Alike(jo: Option<Job>, jo': Option<Job>) {
    if jo.None? then jo'.None?
    else jo'.Some? && SameRecord(jo.value, jo'.value) && jo'.value.state == jo.value.state
  }

  /** A pool slot whose job stays as it is, up to flags, reasons and times, or is only woken. */
  ghost predicate Undisturbed(s: Sys, t: Sys, i: nat)
    requires i < |s.jobs|
  {
    && |t.jobs| == |s.jobs| && |t.hosts| == |s.hosts| && |t.users| == |s.users|
    && TokensOf(t.queue, i) == TokensOf(s.queue, i) && (i in t.em <==> i in s.em) && TmOf(t, i) == TmOf(s, i)
    && (Alike(s.jobs[i], t.jobs[i])
        || (s.Alive(i) && s.jobs[i].value.state.Hold? && t.jobs[i] == Some(s.jobs[i].value.(state := Pending))))
  }

  lemma UndisturbedOk(s: Sys, t: Sys, i: nat)
    requires i < |s.jobs| && Orderly(s) && Undisturbed(s, t, i)
    ensures t.Alive(i) ==> JobOk(t, i)
    ensures forall m :: WeighAt(m, t, i) == WeighAt(m, s, i)
  {
    if t.Alive(i) {
      assert JobOk(s, i);
      var j, k := s.jobs[i].value, t.jobs[i].value;
      if k.state == j.state {
        SameWork(j, k, TokensOf(s.queue, i), i in s.em, TmOf(s, i));
      } else {
        assert TokensOf(s.queue, i) == [];
      }
      forall m ensures WeighAt(m, t, i) == WeighAt(m, s, i) {
      }
    }
  }

  lemma ConcludeOthers(s: Sys, j: Job, r: Reaction, e: Env, i: nat)
    requires s.queue != [] && s.queue[0].job < |s.jobs|
    requires i != s.queue[0].job && i < |s.jobs|
    ensures Undisturbed(s, Conclude(Popped(s), s.queue[0], j, r, e), i)
  {
    ConcludeTokens(s, j, r, e, i);
  }

  /** What a claim is worth on a host, split as the claim is split. */
  lemma SplitsAt(j: Job, k: Job, before: Claim, give: Claim, after: Claim, h: nat)
    requires Splits(before, give, after, j.np) && SameRecord(j, k)
    ensures SlotsAt(before, j.history, j.np, h) ==
            SlotsAt(give, j.history, j.np, h) + SlotsAt(after, k.history, k.np, h)
    ensures RunsAt(before, j.history, h) == RunsAt(give, j.history, h) + RunsAt(after, k.history, h)
  {
  }

  /** The reaction r, to the action at the head of the queue, keeps every account of the job it is for. */
  ghost predicate Fair(s: Sys, j: Job, r: Reaction) {
    && s.queue != [] && s.queue[0].job < |s.jobs| && s.jobs[s.queue[0].job] == Some(j)
    && (r.wakes ==> r.job.Some? && !r.job.value.state.Hold?)
    && (r.job.Some? ==> SameRecord(j, r.job.value))
    && var it := s.queue[0];
       var l := TokensOf(s.queue, it.job);
       && (MovesJob(it.act) ==> l != [] && l[0] == it)
       && var f' := First(TokensAfter(it.act, j, it.job, it.cell, l, r.dest));
          LedgerKept(j, First(l), f', r) && UserKept(j, First(l), f', r) && RequestsKept(it.act, j, r)
  }

  lemma SentChange(sent: multiset<Answer>, d: Dest, sig: Signal)
    ensures var sent' := sent + if d.ToRm? then multiset{d.answer} else multiset{};
      sent'[Answer(sig, true)] + sent'[Answer(sig, false)] ==
      sent[Answer(sig, true)] + sent[Answer(sig, false)] + Bit(Answers(d, sig))
  {
    if Answers(d, sig) {
      assert d.answer == Answer(sig, true) || d.answer == Answer(sig, false);
    }
  }

  /** A handled request opens, an answer closes. */
  function Noted(log: Log, a: Action, d: Dest): Log {
    log.(handled := log.handled + multiset{a},
         sent := log.sent + if d.ToRm? then multiset{d.answer} else multiset{})
  }

  lemma OpenChange(log: Log, a: Action, d: Dest)
    ensures OpenStops(Noted(log, a, d)) == OpenStops(log) + Bit(a == Ask(SigStop)) - Bit(Answers(d, SigStop))
    ensures OpenKills(Noted(log, a, d)) ==
            OpenKills(log) + Bit(a == Ask(SigKill) || a == Ask(SigKillHard)) - Bit(Answers(d, SigKill))
  {
    SentChange(log.sent, d, SigStop);
    SentChange(log.sent, d, SigKill);
  }

  /** The step changes the books of an account by as much as it changes the job's share. */
  ghost predicate Moves(s: Sys, t: Sys, m: Account)
    requires s.queue != [] && s.queue[0].job < |s.jobs| && |t.jobs| == |s.jobs|
  {
    Exists(m, s) && Exists(m, t) ==>
      Books(m, t) - Books(m, s) == WeighAt(m, t, s.queue[0].job) - WeighAt(m, s, s.queue[0].job)
  }

  lemma HostBooks(s: Sys, j: Job, r: Reaction, e: Env, t: Sys, h: nat)
    requires Fair(s, j, r) && h < |s.hosts| && t == Conclude(Popped(s), s.queue[0], j, r, e)
    requires t.jobs[s.queue[0].job] == r.job
    ensures Moves(s, t, Slots(h)) && Moves(s, t, Runs(h))
  {
    var it := s.queue[0];
    ConcludeTokens(s, j, r, e, it.job);
    var f := First(TokensOf(s.queue, it.job));
    var f' := First(TokensOf(t.queue, it.job));
    assert t.hosts[h] == Host(s.hosts[h].used - SlotsAt(r.give, j.history, j.np, h),
                              s.hosts[h].running - RunsAt(r.give, j.history, h));
    SplitsAt(j, if r.job.Some? then r.job.value else j, Holds(j.state, f), r.give, HoldsAfter(r, f'), h);
  }

  lemma UserBooks(s: Sys, j: Job, r: Reaction, e: Env, t: Sys, u: nat)
    requires Fair(s, j, r) && t == Conclude(Popped(s), s.queue[0], j, r, e)
    requires t.jobs[s.queue[0].job] == r.job && j.user < |s.users|
    ensures Moves(s, t, User(u))
  {
    ConcludeTokens(s, j, r, e, s.queue[0].job);
  }

  lemma ConcludeLog(s: Sys, j: Job, r: Reaction, e: Env)
    requires s.queue != [] && s.queue[0].job < |s.jobs|
    ensures var a := s.queue[0].act;
      Conclude(Popped(s), s.queue[0], j, r, e).log == Tally(Noted(s.log, a, r.dest), a, j, r)
  {
  }

  lemma RequestBooks(s: Sys, j: Job, r: Reaction, e: Env, t: Sys)
    requires Fair(s, j, r) && t == Conclude(Popped(s), s.queue[0], j, r, e)
    requires t.jobs[s.queue[0].job] == r.job
    ensures Moves(s, t, Stops) && Moves(s, t, Kills)
  {
    OpenChange(s.log, s.queue[0].act, r.dest);
    ConcludeLog(s, j, r, e);
  }

  lemma OthersBalance(s: Sys, j: Job, r: Reaction, e: Env, t: Sys, m: Account)
    requires Orderly(s) && s.queue != [] && s.queue[0].job < |s.jobs| && t == Conclude(Popped(s), s.queue[0], j, r, e)
    ensures |t.jobs| == |s.jobs|
    ensures var k := s.queue[0].job;
      Total(m, t, |t.jobs|) == Total(m, s, |s.jobs|) + WeighAt(m, t, k) - WeighAt(m, s, k)
  {
    forall i | 0 <= i < |s.jobs| && i != s.queue[0].job ensures WeighAt(m, s, i) == WeighAt(m, t, i) {
      ConcludeOthers(s, j, r, e, i);
      UndisturbedOk(s, t, i);
    }
    TotalChange(m, s, t, s.queue[0].job, |s.jobs|);
  }

  /** Conservation of one account when a fair reaction takes effect. */
  lemma ConcludeBalances(s: Sys, j: Job, r: Reaction, e: Env, m: Account)
    requires Orderly(s) && Balanced(m, s) && Fair(s, j, r)
    ensures Balanced(m, Conclude(Popped(s), s.queue[0], j, r, e))
  {
    var it := s.queue[0];
    var t := Conclude(Popped(s), it, j, r, e);
    OthersBalance(s, j, r, e, t, m);
    assert JobOk(s, it.job);
    assert t.jobs[it.job] == r.job;
    match m
    case Slots(h) => if h < |s.hosts| { HostBooks(s, j, r, e, t, h); }
    case Runs(h) => if h < |s.hosts| { HostBooks(s, j, r, e, t, h); }
    case User(u) => UserBooks(s, j, r, e, t, u);
    case Stops => RequestBooks(s, j, r, e, t);
    case Kills => RequestBooks(s, j, r, e, t);
  }

  // ------------------------------------------------------------------------------------------
  // Clean handlers are fair
  // ------------------------------------------------------------------------------------------

  lemma CleanIsFair(s: Sys, e: Env)
    requires Orderly(s) && s.queue != [] && s.Alive(s.queue[0].job) && Clean(s, Handle(e))
    ensures var j := s.jobs[s.queue[0].job].value; Fair(s, j, React(s.queue[0].act, j, e))
  {
    var it := s.queue[0];
    var j := s.jobs[it.job].value;
    assert JobOk(s, it.job);
    CleanTurn(it.act, j, it.job, it.cell, TokensOf(s.queue, it.job), it.job in s.em, TmOf(s, it.job), e);
  }

  lemma HandledJobOk(s: Sys, j: Job, r: Reaction, e: Env)
    requires Orderly(s) && s.queue != [] && s.Alive(s.queue[0].job) && j == s.jobs[s.queue[0].job].value
    requires r.job.Some? ==> SameRecord(j, r.job.value) && (r.wakes ==> !r.job.value.state.Hold?)
    requires var it := s.queue[0]; var l := TokensOf(s.queue, it.job);
      && (MovesJob(it.act) ==> l != [])
      && TokensKept(TokensAfter(it.act, j, it.job, it.cell, l, r.dest), it.job in s.em, TmOf(s, it.job), r)
    ensures var t := Conclude(Popped(s), s.queue[0], j, r, e); t.Alive(s.queue[0].job) ==> JobOk(t, s.queue[0].job)
  {
    ConcludeTokens(s, j, r, e, s.queue[0].job);
    assert JobOk(s, s.queue[0].job);
  }

  /** A clean handler leaves every job's outstanding work in order. */
  lemma HandleKeepsOrder(s: Sys, e: Env)
    requires Orderly(s) && s.queue != [] && Clean(s, Handle(e))
    ensures Orderly(Next(s, Handle(e)))
  {
    var it := s.queue[0];
    var t := Next(s, Handle(e));
    if s.Alive(it.job) {
      var j := s.jobs[it.job].value;
      var r := React(it.act, j, e);
      assert JobOk(s, it.job);
      CleanTurn(it.act, j, it.job, it.cell, TokensOf(s.queue, it.job), it.job in s.em, TmOf(s, it.job), e);
      HandledJobOk(s, j, r, e);
      forall i: nat | t.Alive(i) ensures JobOk(t, i) {
        if i != it.job {
          ConcludeOthers(s, j, r, e, i);
          UndisturbedOk(s, t, i);
        }
      }
    } else {
      forall i: nat | t.Alive(i) ensures JobOk(t, i) {
        StrayTokens(s, e, i);
        UndisturbedOk(s, t, i);
      }
    }
  }
}
