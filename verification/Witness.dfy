/** Runs of two job slots and two hosts, from the idle manager on: a whole life of a job, which shows that the run
    assumptions can be met, and clean runs that reach each of the states in which a promise is broken. */
module Witness {
  import opened Jobs
  import opened Reactions
  import opened Tokens
  import opened TaskTables
  import opened LifeCycle
  import opened Conservation
  import opened Steps
  import opened Dependencies
  import Accounts
  import Exactness
  import Sources

  /** What the handlers of these runs learn from outside. */
  const ENV := Env(0, true, NoStatus, false, {})

  const H := Handle(ENV)

  /** The end of a job that completes the list of slot 1. */
  const H1 := Handle(ENV.(ready := {1}))

  // ------------------------------------------------------------------------------------------
  // States and steps, as far as the runs look at them
  // ------------------------------------------------------------------------------------------

  /** Slot 1, the dependency list of its job, and the jobs that have ended so far. */
  datatype Beside = Beside(o: Option<Job>, watch: Option<Watch>, ended: seq<nat>)

  /** Slot 0 and what is beside it, the two hosts, the one user, the queue, the next cell, the stops and kills lost and
      the running jobs leaked so far, and the host where job 0 was last submitted for execution. */
  datatype View = View(
    j: Option<Job>, b: Beside, h0: Host, h1: Host, u: int, queue: seq<Item>, em: set<nat>, tm: map<nat, Xfer>,
    next: nat, lost: nat, lostKills: nat, leaked: nat, ran: Option<nat>)

  const ALONE := Beside(None, None, [])

  function Lists(v: View): seq<Option<Watch>> { [None, v.b.watch] }

  predicate Is(s: Sys, v: View) {
    && s.jobs == [v.j, v.b.o] && (v.b.watch.Some? ==> v.b.o.Some?) && s.hosts == [v.h0, v.h1] && s.users == [v.u]
    && s.queue == v.queue && s.em == v.em && s.tm == v.tm && s.cells.next == v.next
    && s.log.lostStops == v.lost && s.log.lostKills == v.lostKills && s.log.leaks == [v.leaked]
  }

  function WokenSlot(o: Option<Job>): Option<Job> {
    if o.Some? && o.value.state.Hold? then Some(o.value.(state := Pending)) else o
  }

  function Repaid(h: Host, c: Claim, j: Job, k: nat): Host {
    Host(h.used - SlotsAt(c, j.history, j.np, k), h.running - RunsAt(c, j.history, k))
  }

  /** The job that an action of the runs names. */
  function Named(v: View, id: nat): Option<Job> { if id == 0 then v.j else v.b.o }

  /** The end of job 0, as slot 1 sees it. */
  predicate Completed(b: Beside) { b.watch.Some? && AllEnded(b.watch.value.list, b.watch.value.since + [0]) }

  function AfterEnd(b: Beside): Beside {
    Beside(if Completed(b) then WokenSlot(b.o) else b.o,
           if b.watch.Some? then Some(b.watch.value.Ended(0)) else None, b.ended + [0])
  }

  function Reacted(v: View, j: Job, r: Reaction): View
    requires v.queue != []
  {
    var it := v.queue[0];
    v.(j := if it.job == 0 then r.job else v.j,
       b := if it.job != 0 then v.b.(o := r.job, watch := if r.job.None? then None else v.b.watch)
            else if r.wakes then AfterEnd(v.b) else v.b,
       h0 := Repaid(v.h0, r.give, j, 0), h1 := Repaid(v.h1, r.give, j, 1), u := v.u - Bit(r.giveUser),
       queue := v.queue[1..] + (if r.dest.ToDm? then [Item(r.dest.act, it.job, it.cell, j.state)] else []),
       em := if r.dest == ToEm(Submit) then v.em + {it.job} else v.em,
       tm := if r.dest.ToTm? then v.tm[it.job := r.dest.xfer] else v.tm,
       lost := v.lost + Bit(Overrides(it.act) && Stopping(j.state)),
       lostKills := v.lostKills + Bit(Overrides(it.act) && Killing(j.state)), leaked := v.leaked + Bit(r.leakUser),
       ran := if it.job == 0 then Sources.RanAt(j, r.dest, v.ran) else v.ran)
  }

  /** A clean handler's turn leads from v to w; at the end of job 0 the slots that are ready are those of the lists. */
  predicate Turns(v: View, e: Env, w: View) {
    && e.(ready := {}) == ENV && v.queue != []
    && TurnsWith(v, e, w)
  }

  predicate TurnsWith(v: View, e: Env, w: View)
    requires v.queue != []
  {
    v.queue[0].job < 2 && Named(v, v.queue[0].job).Some?
    && var it, j := v.queue[0], Named(v, v.queue[0].job).value; var r := React(it.act, j, ENV);
       && j.user == 0 && (r.wakes ==> it.job == 0 && e.ready == if Completed(v.b) then {1} else {})
       && CleanAct(it.act, j, First(TokensOf(v.queue, it.job)))
       && Reacted(v, j, r) == w
  }

  predicate Posts(v: View, sig: Signal, id: nat, w: View) {
    v.(queue := v.queue + [Item(Ask(sig), id, v.next, Init)], next := v.next + 1) == w
  }

  /** The job in slot 0 joins the queue with an action of its own. */
  function Joins(v: View, a: Action, from: State): View {
    v.(queue := v.queue + [Item(a, 0, v.next, from)], next := v.next + 1)
  }

  predicate Executed(v: View, done: bool, w: View) {
    v.j.Some? && v.em == {0}
    && Joins(v.(j := Some(v.j.value.(em := if done then EmDone else EmFailed)), em := {}),
             Report(WrapperStage, done), v.j.value.state) == w
  }

  predicate Transferred(v: View, x: Xfer, w: View) {
    v.j.Some? && v.tm == map[0 := x]
    && Joins(v.(tm := map[]), Report(StageOf(x), true), v.j.value.state) == w
  }

  predicate Signed(v: View, id: nat, init: Job, w: View) {
    && id < 2 && Named(v, id).None? && v.queue == [] && v.em == {} && v.tm == map[]
    && (init.state.Pending? || init.state.Hold?) && init.history == [] && init.user == 0 && init.arrayId == -1
    && init.restarted == 0
    && (if id == 0 then v.(j := Some(init)) else v.(b := v.b.(o := Some(init)))) == w
  }

  function Taken(h: Host, np: nat): Host { Host(h.used + np, h.running + 1) }

  function Assigned(v: View, j: Job, host: nat, add: AddResult): View {
    var k := j.(history := [NewRecord(host, false)] + j.history);
    if add.Unsaved? then v.(j := Some(k))
    else
      var w := v.(h0 := if host == 0 then Taken(v.h0, j.np) else v.h0,
                  h1 := if host == 1 then Taken(v.h1, j.np) else v.h1);
      if j.state.Pending? then Joins(w.(j := Some(k), u := v.u + 1), Go(Prolog), j.state)
      else Joins(w.(j := Some(k.(restarted := j.restarted + 1, reschedule := false))), Go(MigrCancel), j.state)
  }

  predicate Dispatches(v: View, host: nat, add: AddResult, w: View) {
    && v.j.Some? && host < 2 && (v.j.value.state.Pending? || v.j.value.state.Wrapper?) && !CalledOff(v.j.value)
    && v.j.value.user == 0 && !add.Refused? && CleanDispatch(v.j.value, host, add, TokensOf(v.queue, 0), 0 in v.em)
    && Assigned(v, v.j.value, host, add) == w
  }

  predicate Goes(v: View, ev: Event, w: View) {
    match ev
    case Handle(e) => Turns(v, e, w)
    case Post(sig, id) => Posts(v, sig, id, w)
    case EmAnswers(id, done, cell) => id == 0 && cell.None? && Executed(v, done, w)
    case TmAnswers(id, x, done, cell) => id == 0 && done && cell.None? && Transferred(v, x, w)
    case NewJob(id, init) => Signed(v, id, init, w)
    case Dispatch(id, host, wrapperBased, add) => id == 0 && !wrapperBased && Dispatches(v, host, add, w)
    case _ => false
  }

  // ------------------------------------------------------------------------------------------
  // They are states and steps of the system
  // ------------------------------------------------------------------------------------------

  lemma Settles(s: Sys, v: View, j: Job, r: Reaction, e: Env)
    requires Is(s, v) && v.queue != [] && v.queue[0].job < 2 && j.user == 0
    requires r.wakes ==> v.queue[0].job == 0 && r.job.Some? && !r.job.value.state.Hold?
    requires r.wakes ==> e.ready == if Completed(v.b) then {1} else {}
    ensures Is(Settle(Popped(s), v.queue[0], j, r, e),
               Reacted(v, j, r).(queue := v.queue[1..], em := v.em, tm := v.tm))
  {
    SlotsChange(v.j, v.b.o, r.job, e.ready);
    assert [v.u][0 := v.u - 1] == [v.u - 1] && [v.leaked][0 := v.leaked + 1] == [v.leaked + 1];
    HostsChange(v.h0, v.h1, r.give, j);
  }

  lemma SlotsChange(a: Option<Job>, b: Option<Job>, x: Option<Job>, ready: set<nat>)
    ensures [a, b][0 := x] == [x, b] && [a, b][1 := x] == [a, x]
    ensures x.Some? && !x.value.state.Hold? ==> Wake([x, b], ready) == [x, if 1 in ready then WokenSlot(b) else b]
  {
  }

  lemma HostsChange(a: Host, b: Host, c: Claim, j: Job)
    ensures Release([a, b], c, j.history, j.np) == [Repaid(a, c, j, 0), Repaid(b, c, j, 1)]
  {
  }

  lemma Concludes(s: Sys, v: View, j: Job, r: Reaction, e: Env)
    requires Is(s, v) && v.queue != [] && v.queue[0].job < 2 && j.user == 0
    requires r.wakes ==> v.queue[0].job == 0 && r.job.Some? && !r.job.value.state.Hold?
    requires r.wakes ==> e.ready == if Completed(v.b) then {1} else {}
    ensures Is(Conclude(Popped(s), v.queue[0], j, r, e), Reacted(v, j, r))
  {
    Settles(s, v, j, r, e);
    Delivers(Settle(Popped(s), v.queue[0], j, r, e), v, j, r);
  }

  lemma Delivers(t: Sys, v: View, j: Job, r: Reaction)
    requires v.queue != [] && Is(t, Reacted(v, j, r).(queue := v.queue[1..], em := v.em, tm := v.tm))
    ensures Is(Deliver(t, v.queue[0], j.state, r.dest), Reacted(v, j, r))
  {
    assert v.queue[1..] + [] == v.queue[1..];
  }

  /** Which jobs are ready is all that a handler does not look at itself. */
  lemma SameReaction(a: Action, j: Job, e: Env)
    requires e.(ready := {}) == ENV
    ensures var r := React(a, j, e);
      r == React(a, j, ENV) && (r.wakes ==> r.job.Some? && !r.job.value.state.Hold?)
      && (r.wakes <==> a == Go(Zombie) && j.state.Epilog?)
  {
  }

  lemma HandleIs(s: Sys, v: View, e: Env, w: View)
    requires Is(s, v) && Turns(v, e, w)
    ensures var ev := Handle(e);
      Enabled(s, ev) && Clean(s, ev) && Is(Next(s, ev), w) && Sources.RanOn(s, ev, 0, v.ran) == w.ran
  {
    var it, j := v.queue[0], Named(v, v.queue[0].job).value;
    SameReaction(it.act, j, e);
    Concludes(s, v, j, React(it.act, j, e), e);
  }

  lemma DispatchIs(s: Sys, v: View, host: nat, add: AddResult, w: View)
    requires Is(s, v) && Dispatches(v, host, add, w)
    ensures var ev := Dispatch(0, host, false, add); Enabled(s, ev) && Clean(s, ev) && Is(Next(s, ev), w)
  {
    assert [v.j, v.b.o][0 := w.j] == [w.j, v.b.o];
    assert [v.u][0 := v.u + 1] == [v.u + 1];
    assert Acquire(s.hosts, host, v.j.value.np) ==
           [if host == 0 then Taken(v.h0, v.j.value.np) else v.h0,
            if host == 1 then Taken(v.h1, v.j.value.np) else v.h1];
  }

  lemma ExecutedIs(s: Sys, v: View, done: bool, w: View)
    requires Is(s, v) && Executed(v, done, w)
    ensures var ev := EmAnswers(0, done, None); Enabled(s, ev) && Clean(s, ev) && Is(Next(s, ev), w)
  {
    assert [v.j, v.b.o][0 := w.j] == [w.j, v.b.o];
    assert {0} - {0} == {};
  }

  lemma TransferredIs(s: Sys, v: View, x: Xfer, w: View)
    requires Is(s, v) && Transferred(v, x, w)
    ensures var ev := TmAnswers(0, x, true, None); Enabled(s, ev) && Clean(s, ev) && Is(Next(s, ev), w)
  {
    assert map[0 := x] - {0} == map[];
  }

  lemma SignedIs(s: Sys, v: View, id: nat, init: Job, w: View)
    requires Is(s, v) && Signed(v, id, init, w)
    ensures var ev := NewJob(id, init); Enabled(s, ev) && Clean(s, ev) && Is(Next(s, ev), w)
  {
    assert [v.j, v.b.o][0 := Some(init)] == [Some(init), v.b.o] && [v.j, v.b.o][1 := Some(init)] == [v.j, Some(init)];
  }

  lemma StepIs(s: Sys, v: View, ev: Event, w: View)
    requires Is(s, v) && Goes(v, ev, w)
    ensures Enabled(s, ev) && Clean(s, ev) && Is(Next(s, ev), w) && Sources.RanOn(s, ev, 0, v.ran) == w.ran
  {
    match ev
    case Handle(e) => HandleIs(s, v, e, w);
    case Post(_, _) =>
    case EmAnswers(_, done, _) => ExecutedIs(s, v, done, w);
    case TmAnswers(_, x, _, _) => TransferredIs(s, v, x, w);
    case NewJob(id, init) => SignedIs(s, v, id, init, w);
    case Dispatch(_, host, _, add) => DispatchIs(s, v, host, add, w);
  }

  /** With the lists at its side. */
  lemma ListsAre(s: Sys, v: View, ev: Event, w: View)
    requires Is(s, v) && Goes(v, ev, w)
    ensures var a := Step(ev); var lists := Lists(v);
      && Enabled(s, ev) && Clean(s, ev) && Is(Next(s, ev), w)
      && CanAct(s, lists, a) && Acts(s, lists, a) == (Next(s, ev), Lists(w))
      && w.b.ended == v.b.ended + if Ends(s, ev) then [s.queue[0].job] else []
  {
    StepIs(s, v, ev, w);
    if ev.Handle? {
      ListsTurn(s, v, ev.env, w);
    } else {
      assert w.b.watch == v.b.watch && w.b.ended == v.b.ended;
      ListsKept(Next(s, ev), w);
    }
  }

  lemma ListsKept(t: Sys, w: View)
    requires Is(t, w)
    ensures Kept(t, [None, w.b.watch]) == [None, w.b.watch]
  {
  }

  lemma ListsDropped(t: Sys, w: View, watch: Option<Watch>)
    requires Is(t, w) && w.b.o.None?
    ensures Kept(t, [None, watch]) == [None, None]
  {
  }

  lemma EndsBeside(watch: Option<Watch>)
    ensures AllEnd([None, watch], 0) == [None, if watch.Some? then Some(watch.value.Ended(0)) else None]
    ensures ReadySlots(AllEnd([None, watch], 0)) ==
            if watch.Some? && AllEnded(watch.value.list, watch.value.since + [0]) then {1} else {}
  {
    ReadyIff([None, watch], 0, 0);
    ReadyIff([None, watch], 0, 1);
  }

  lemma ListsTurn(s: Sys, v: View, e: Env, w: View)
    requires Is(s, v) && Turns(v, e, w) && Enabled(s, Handle(e)) && Is(Next(s, Handle(e)), w)
    ensures CanAct(s, Lists(v), Step(Handle(e))) && ListsAfter(s, Lists(v), Handle(e)) == Lists(w)
    ensures w.b.ended == v.b.ended + if Ends(s, Handle(e)) then [s.queue[0].job] else []
  {
    var it, j := v.queue[0], Named(v, v.queue[0].job).value;
    SameReaction(it.act, j, e);
    EndsBeside(v.b.watch);
    ListsKept(Next(s, Handle(e)), w);
    if it.job == 1 && React(it.act, j, ENV).job.None? {
      ListsDropped(Next(s, Handle(e)), w, v.b.watch);
    }
  }

  /** From v the events lead to w. */
  ghost predicate Path(v: View, run: seq<Event>, w: View)
    decreases |run|
  {
    if run == [] then v == w else exists x :: Goes(v, run[0], x) && Path(x, run[1..], w)
  }

  /** From s the run is possible and clean, and leads to such a state. */
  ghost predicate Leads(s: Sys, run: seq<Event>, w: View) {
    CanRun(s, run) && CleanRun(s, run) && Is(After(s, run), w)
  }

  lemma {:induction false} PathLeads(s: Sys, v: View, run: seq<Event>, w: View)
    requires Is(s, v) && Path(v, run, w)
    ensures Leads(s, run, w) && Sources.RanOnAfter(s, run, 0, v.ran) == w.ran
    decreases |run|
  {
    if run != [] {
      var x :| Goes(v, run[0], x) && Path(x, run[1..], w);
      StepIs(s, v, run[0], x);
      PathLeads(Next(s, run[0]), x, run[1..], w);
    }
  }

  lemma One(v: View, ev: Event, w: View)
    requires Goes(v, ev, w)
    ensures Path(v, [ev], w)
  {
    assert [ev][1..] == [] && Path(w, [], w);
  }

  lemma Before(v: View, ev: Event, x: View, run: seq<Event>, w: View)
    requires Goes(v, ev, x) && Path(x, run, w)
    ensures Path(v, [ev] + run, w)
  {
    assert ([ev] + run)[1..] == run;
  }

  lemma {:induction false} Join(v: View, a: seq<Event>, x: View, b: seq<Event>, w: View)
    requires Path(v, a, x) && Path(x, b, w)
    ensures Path(v, a + b, w)
    decreases |a|
  {
    if a == [] {
      assert a + b == b;
    } else {
      var y :| Goes(v, a[0], y) && Path(y, a[1..], x);
      Join(y, a[1..], x, b, w);
      Before(v, a[0], y, a[1..] + b, w);
      assert [a[0]] + (a[1..] + b) == a + b;
    }
  }

  lemma Then(v: View, a: seq<Event>, x: View, ev: Event, w: View)
    requires Path(v, a, x) && Goes(x, ev, w)
    ensures Path(v, a + [ev], w)
  {
    One(x, ev, w);
    Join(v, a, x, [ev], w);
  }

  // ------------------------------------------------------------------------------------------
  // A whole life
  // ------------------------------------------------------------------------------------------

  const FREE := Host(0, 0)
  const R0 := NewRecord(0, false)
  const R1 := NewRecord(1, false)

  /** A job of two slots per host. */
  function Made(st: State, em: EmState, history: seq<Record>, restarted: nat): Job {
    Job(st, em, history, 2, 0, -1, -1, restarted, 0, false, false, false, Limits(0, 0, 0), 0)
  }

  const SUBMITTED := Made(Pending, EmInit, [], 0)

  const HELD := Made(Hold, EmInit, [], 0)

  /** Nothing runs; slot 1 and the next cell may be anything. */
  function Idle(b: Beside, c: nat, ran: Option<nat>): View {
    View(None, b, FREE, FREE, 0, [], {}, map[], c, 0, 0, 0, ran)
  }

  /** The job once dispatched to host 0 and not yet executed there. */
  function OnHost(st: State, b: Beside, c: nat, queue: seq<Item>, em: set<nat>, tm: map<nat, Xfer>,
                  ran: Option<nat>): View
  {
    View(Some(Made(st, EmInit, [R0], 0)), b, Host(2, 1), FREE, 1, queue, em, tm, c, 0, 0, 0, ran)
  }

  /** The job once executed, its slots returned. */
  function Spent(st: State, b: Beside, c: nat, queue: seq<Item>, tm: map<nat, Xfer>): View {
    View(Some(Made(st, EmInit, [R0], 0)), b, Host(0, 1), FREE, 1, queue, {}, tm, c, 0, 0, 0, Some(0))
  }

  function Executing(b: Beside, c: nat): View { OnHost(Wrapper, b, c, [], {0}, map[], Some(0)) }

  function Reported(b: Beside, c: nat): View {
    View(Some(Made(Wrapper, EmDone, [R0], 0)), b, Host(2, 1), FREE, 1,
         [Item(Report(WrapperStage, true), 0, c, Wrapper)], {}, map[], c + 1, 0, 0, 0, Some(0))
  }

  function Ended(b: Beside, c: nat): View {
    Idle(b, c, Some(0)).(j := Some(Made(Zombie, EmInit, [R0], 0)))
  }

  lemma Signing(b: Beside, c: nat, ran: Option<nat>)
    ensures Goes(Idle(b, c, ran), NewJob(0, SUBMITTED), Idle(b, c, ran).(j := Some(SUBMITTED)))
  {
  }

  lemma Dispatching(b: Beside, c: nat, ran: Option<nat>)
    ensures Goes(Idle(b, c, ran).(j := Some(SUBMITTED)), Dispatch(0, 0, false, Added),
                 OnHost(Pending, b, c + 1, [Item(Go(Prolog), 0, c, Pending)], {}, map[], ran))
  {
    assert [R0] + [] == [R0];
  }

  lemma Prologs(b: Beside, c: nat, ran: Option<nat>)
    ensures Goes(OnHost(Pending, b, c + 1, [Item(Go(Prolog), 0, c, Pending)], {}, map[], ran), H,
                 OnHost(Prolog, b, c + 1, [], {}, map[0 := PrologXfer], ran))
  {
    Alone(Item(Go(Prolog), 0, c, Pending));
  }

  lemma StagedIn(b: Beside, c: nat, ran: Option<nat>)
    ensures Goes(OnHost(Prolog, b, c, [], {}, map[0 := PrologXfer], ran), TmAnswers(0, PrologXfer, true, None),
                 OnHost(Prolog, b, c + 1, [Item(Report(PrologStage, true), 0, c, Prolog)], {}, map[], ran))
  {
  }

  lemma PrologEnds(b: Beside, c: nat, ran: Option<nat>)
    ensures Goes(OnHost(Prolog, b, c + 1, [Item(Report(PrologStage, true), 0, c, Prolog)], {}, map[], ran), H,
                 OnHost(Prolog, b, c + 1, [Item(Go(Wrapper), 0, c, Prolog)], {}, map[], ran))
  {
    Alone(Item(Report(PrologStage, true), 0, c, Prolog));
  }

  lemma Executes(b: Beside, c: nat, ran: Option<nat>)
    ensures Goes(OnHost(Prolog, b, c + 1, [Item(Go(Wrapper), 0, c, Prolog)], {}, map[], ran), H, Executing(b, c + 1))
  {
    Alone(Item(Go(Wrapper), 0, c, Prolog));
  }

  lemma ExecutionReported(b: Beside, c: nat)
    ensures Goes(Executing(b, c), EmAnswers(0, true, None), Reported(b, c))
  {
  }

  lemma ExecutionEnds(b: Beside, c: nat)
    ensures Goes(Reported(b, c), H, Spent(Wrapper, b, c + 1, [Item(Go(Epilog), 0, c, Wrapper)], map[]))
  {
    Alone(Item(Report(WrapperStage, true), 0, c, Wrapper));
  }

  lemma Epilogs(b: Beside, c: nat)
    ensures Goes(Spent(Wrapper, b, c, [Item(Go(Epilog), 0, c, Wrapper)], map[]), H,
                 Spent(Epilog, b, c, [], map[0 := EpilogXfer]))
  {
    Alone(Item(Go(Epilog), 0, c, Wrapper));
    assert [R0][0 := R0] == [R0];
  }

  lemma StagedOut(b: Beside, c: nat)
    ensures Goes(Spent(Epilog, b, c, [], map[0 := EpilogXfer]), TmAnswers(0, EpilogXfer, true, None),
                 Spent(Epilog, b, c + 1, [Item(Report(EpilogStage, true), 0, c, Epilog)], map[]))
  {
  }

  lemma EpilogEnds(b: Beside, c: nat)
    ensures Goes(Spent(Epilog, b, c + 1, [Item(Report(EpilogStage, true), 0, c, Epilog)], map[]), H,
                 Spent(Epilog, b, c + 1, [Item(Go(Zombie), 0, c, Epilog)], map[]))
  {
    Alone(Item(Report(EpilogStage, true), 0, c, Epilog));
  }

  /** The end of job 0 names slot 1 as ready when it completes the list there. */
  function EndOf(b: Beside): Event { if Completed(b) then H1 else H }

  lemma ZombieEnds(b: Beside, c: nat)
    ensures Goes(Spent(Epilog, b, c + 1, [Item(Go(Zombie), 0, c, Epilog)], map[]), EndOf(b), Ended(AfterEnd(b), c + 1))
  {
    Alone(Item(Go(Zombie), 0, c, Epilog));
    assert [R0][0 := R0] == [R0];
  }

  lemma Alone(it: Item)
    ensures TokensOf([it], it.job) == (if MovesJob(it.act) then [it] else []) && [it][1..] == []
  {
    assert TokensOf([it][1..], it.job) == [];
  }

  const TO_PROLOG: seq<Event> := [NewJob(0, SUBMITTED), Dispatch(0, 0, false, Added), H]

  const TO_WRAPPER: seq<Event> := [TmAnswers(0, PrologXfer, true, None), H, H]

  const TO_EPILOG: seq<Event> := [EmAnswers(0, true, None), H, H]

  function ToZombieOf(b: Beside): seq<Event> { [TmAnswers(0, EpilogXfer, true, None), H, EndOf(b)] }

  /** Submitted, dispatched to host 0, staged in and submitted for execution. */
  const TO_EXECUTION: seq<Event> := TO_PROLOG + TO_WRAPPER

  /** Executed, staged out and ended. */
  function ToEndOf(b: Beside): seq<Event> { TO_EPILOG + ToZombieOf(b) }

  const TO_END: seq<Event> := ToEndOf(ALONE)

  lemma Two(v: View, a: Event, x: View, b: Event, w: View)
    requires Goes(v, a, x) && Goes(x, b, w)
    ensures Path(v, [a, b], w)
  {
    One(v, a, x);
    Then(v, [a], x, b, w);
    assert [a] + [b] == [a, b];
  }

  lemma Three(v: View, a: Event, x: View, b: Event, y: View, c: Event, w: View)
    requires Goes(v, a, x) && Goes(x, b, y) && Goes(y, c, w)
    ensures Path(v, [a, b, c], w)
  {
    One(v, a, x);
    Then(v, [a], x, b, y);
    Then(v, [a] + [b], y, c, w);
    assert [a] + [b] + [c] == [a, b, c];
  }

  lemma ToProlog(b: Beside, c: nat, ran: Option<nat>)
    ensures Path(Idle(b, c, ran), TO_PROLOG, OnHost(Prolog, b, c + 1, [], {}, map[0 := PrologXfer], ran))
  {
    Signing(b, c, ran);
    Dispatching(b, c, ran);
    Prologs(b, c, ran);
    Three(Idle(b, c, ran), TO_PROLOG[0], Idle(b, c, ran).(j := Some(SUBMITTED)), TO_PROLOG[1],
          OnHost(Pending, b, c + 1, [Item(Go(Prolog), 0, c, Pending)], {}, map[], ran), H,
          OnHost(Prolog, b, c + 1, [], {}, map[0 := PrologXfer], ran));
  }

  lemma ToWrapper(b: Beside, c: nat, ran: Option<nat>)
    ensures Path(OnHost(Prolog, b, c, [], {}, map[0 := PrologXfer], ran), TO_WRAPPER, Executing(b, c + 1))
  {
    StagedIn(b, c, ran);
    PrologEnds(b, c, ran);
    Executes(b, c, ran);
    Three(OnHost(Prolog, b, c, [], {}, map[0 := PrologXfer], ran), TO_WRAPPER[0],
          OnHost(Prolog, b, c + 1, [Item(Report(PrologStage, true), 0, c, Prolog)], {}, map[], ran), H,
          OnHost(Prolog, b, c + 1, [Item(Go(Wrapper), 0, c, Prolog)], {}, map[], ran), H, Executing(b, c + 1));
  }

  lemma ToExecution(b: Beside, c: nat, ran: Option<nat>)
    ensures Path(Idle(b, c, ran), TO_EXECUTION, Executing(b, c + 2))
  {
    var x := OnHost(Prolog, b, c + 1, [], {}, map[0 := PrologXfer], ran);
    ToProlog(b, c, ran);
    ToWrapper(b, c + 1, ran);
    Join(Idle(b, c, ran), TO_PROLOG, x, TO_WRAPPER, Executing(b, c + 2));
  }

  lemma ToEpilog(b: Beside, c: nat)
    ensures Path(Executing(b, c), TO_EPILOG, Spent(Epilog, b, c + 1, [], map[0 := EpilogXfer]))
  {
    ExecutionReported(b, c);
    ExecutionEnds(b, c);
    Epilogs(b, c + 1);
    Three(Executing(b, c), TO_EPILOG[0], Reported(b, c), H,
          Spent(Wrapper, b, c + 1, [Item(Go(Epilog), 0, c, Wrapper)], map[]), H,
          Spent(Epilog, b, c + 1, [], map[0 := EpilogXfer]));
  }

  lemma ToZombie(b: Beside, c: nat)
    ensures Path(Spent(Epilog, b, c, [], map[0 := EpilogXfer]), ToZombieOf(b), Ended(AfterEnd(b), c + 1))
  {
    StagedOut(b, c);
    EpilogEnds(b, c);
    ZombieEnds(b, c);
    Three(Spent(Epilog, b, c, [], map[0 := EpilogXfer]), ToZombieOf(b)[0],
          Spent(Epilog, b, c + 1, [Item(Report(EpilogStage, true), 0, c, Epilog)], map[]), H,
          Spent(Epilog, b, c + 1, [Item(Go(Zombie), 0, c, Epilog)], map[]), EndOf(b), Ended(AfterEnd(b), c + 1));
  }

  lemma ToEnd(b: Beside, c: nat)
    ensures Path(Executing(b, c), ToEndOf(b), Ended(AfterEnd(b), c + 2))
  {
    ToEpilog(b, c);
    ToZombie(b, c + 1);
    Join(Executing(b, c), TO_EPILOG, Spent(Epilog, b, c + 1, [], map[0 := EpilogXfer]), ToZombieOf(b),
         Ended(AfterEnd(b), c + 2));
  }

  lemma StartIs()
    ensures Is(LifeCycle.Start(2, 2, 1, 1), Idle(ALONE, 0, None))
  {
  }

  /** A run from the start that begins with the submission of an execution. */
  lemma FromExecution(run: seq<Event>, w: View)
    requires Path(Executing(ALONE, 2), run, w)
    ensures Leads(LifeCycle.Start(2, 2, 1, 1), TO_EXECUTION + run, w)
    ensures Sources.RanOnAfter(LifeCycle.Start(2, 2, 1, 1), TO_EXECUTION + run, 0, None) == w.ran
  {
    StartIs();
    ToExecution(ALONE, 0, None);
    Join(Idle(ALONE, 0, None), TO_EXECUTION, Executing(ALONE, 2), run, w);
    PathLeads(LifeCycle.Start(2, 2, 1, 1), Idle(ALONE, 0, None), TO_EXECUTION + run, w);
  }

  /** A job is submitted, dispatched, staged in, executed, staged out and ended in one clean run; at its end hosts and
      user are as they were at the start. */
  lemma WholeLife()
    ensures var s := LifeCycle.Start(2, 2, 1, 1); var run := TO_EXECUTION + TO_END;
      && CanRun(s, run) && CleanRun(s, run)
      && var t := After(s, run);
         t.hosts == s.hosts && t.users == s.users && t.Alive(0) && t.jobs[0].value.state.Zombie?
         && t.queue == [] && t.em == {} && t.tm == map[]
  {
    ToEnd(ALONE, 2);
    FromExecution(TO_END, Ended(AfterEnd(ALONE), 4));
    StartIs();
  }

  // ------------------------------------------------------------------------------------------
  // A stop, or a kill, that is never answered
  // ------------------------------------------------------------------------------------------

  /** The request arrives between the report of the execution and the transition it queues. */
  function Late(sig: Signal): seq<Event> { LateComing(sig) + [H, H] }

  function LateComing(sig: Signal): seq<Event> { [EmAnswers(0, true, None), Post(sig, 0), H] }

  predicate StopOrKill(sig: Signal) { sig.SigStop? || sig.SigKill? }

  function Marked(sig: Signal): Record { R0.(reason := if sig.SigStop? then StopResume else KillReason) }

  function Asked(sig: Signal): View {
    View(Some(Made(Wrapper, EmDone, [R0], 0)), ALONE, Host(2, 1), FREE, 1,
         [Item(Report(WrapperStage, true), 0, 2, Wrapper), Item(Ask(sig), 0, 3, Init)], {}, map[], 4, 0, 0, 0, Some(0))
  }

  function AskedNext(sig: Signal): View {
    Spent(Wrapper, ALONE, 4, [Item(Ask(sig), 0, 3, Init), Item(Go(Epilog), 0, 2, Wrapper)], map[])
  }

  function Accepted(sig: Signal): View {
    Cancelled(if sig.SigStop? then StopCancel else KillCancel, Marked(sig), [Item(Go(Epilog), 0, 2, Wrapper)])
  }

  function Lost(sig: Signal): View {
    Cancelled(Epilog, Marked(sig), []).(
      tm := map[0 := EpilogXfer], lost := Bit(sig.SigStop?), lostKills := Bit(!sig.SigStop?))
  }

  lemma AskComes(sig: Signal)
    ensures Goes(Reported(ALONE, 2), Post(sig, 0), Asked(sig))
  {
  }

  lemma AskWaits(sig: Signal)
    ensures Goes(Asked(sig), H, AskedNext(sig))
  {
    Alone(Item(Ask(sig), 0, 3, Init));
    assert Asked(sig).queue[1..] == [Item(Ask(sig), 0, 3, Init)];
  }

  lemma AskTaken(sig: Signal)
    requires StopOrKill(sig)
    ensures Goes(AskedNext(sig), H, Accepted(sig))
  {
    Alone(Item(Go(Epilog), 0, 2, Wrapper));
    assert AskedNext(sig).queue[1..] == [Item(Go(Epilog), 0, 2, Wrapper)];
    assert [R0][0 := Marked(sig)] == [Marked(sig)];
  }

  lemma EpilogTurn(st: State, m: Record)
    requires (st.StopCancel? || st.KillCancel?) && m.epilogStart == 0
    ensures React(Go(Epilog), Made(st, EmInit, [m], 0), ENV) == Keep(Made(Epilog, EmInit, [m], 0), ToTm(EpilogXfer))
  {
    assert m.(epilogStart := 0) == m && [m][0 := m] == [m];
  }

  /** A job that has given back its slots, with one action queued. */
  function Cancelled(st: State, m: Record, queue: seq<Item>): View {
    View(Some(Made(st, EmInit, [m], 0)), ALONE, Host(0, 1), FREE, 1, queue, {}, map[], 4, 0, 0, 0, Some(0))
  }

  lemma Overridden(st: State, m: Record)
    requires (st.StopCancel? || st.KillCancel?) && m.epilogStart == 0
    ensures Turns(Cancelled(st, m, [Item(Go(Epilog), 0, 2, Wrapper)]), ENV,
                  Cancelled(Epilog, m, []).(tm := map[0 := EpilogXfer], lost := Bit(Stopping(st)),
                                            lostKills := Bit(Killing(st))))
  {
    Alone(Item(Go(Epilog), 0, 2, Wrapper));
    EpilogTurn(st, m);
  }

  lemma AskOverridden(sig: Signal)
    requires StopOrKill(sig)
    ensures Goes(Accepted(sig), H, Lost(sig))
  {
    Overridden(if sig.SigStop? then StopCancel else KillCancel, Marked(sig));
    HandleGoes(Accepted(sig), ENV, Lost(sig));
  }

  lemma HandleGoes(v: View, e: Env, w: View)
    requires Turns(v, e, w)
    ensures Goes(v, Handle(e), w)
  {
  }

  lemma ToAsk(sig: Signal)
    ensures Path(Executing(ALONE, 2), LateComing(sig), AskedNext(sig))
  {
    ExecutionReported(ALONE, 2);
    AskComes(sig);
    AskWaits(sig);
    Three(Executing(ALONE, 2), EmAnswers(0, true, None), Reported(ALONE, 2), Post(sig, 0), Asked(sig), H,
          AskedNext(sig));
  }

  lemma LateRun(sig: Signal)
    requires StopOrKill(sig)
    ensures Path(Executing(ALONE, 2), Late(sig), Lost(sig))
  {
    ToAsk(sig);
    Two(AskedNext(sig), H, Accepted(sig), H, Lost(sig)) by {
      AskTaken(sig);
      AskOverridden(sig);
    }
    Join(Executing(ALONE, 2), LateComing(sig), AskedNext(sig), [H, H], Lost(sig));
  }

  /** The stop (kill) is accepted, the job ends as if nothing had been asked, and however a clean run goes on, stops
      (kills) stay out of balance: the request is never answered. */
  lemma LostRequest(sig: Signal, rest: seq<Event>)
    requires StopOrKill(sig)
    ensures var s := LifeCycle.Start(2, 2, 1, 1); var run := TO_EXECUTION + Late(sig);
      && CanRun(s, run) && CleanRun(s, run)
      && var t := After(s, run);
         CanRun(t, rest) && CleanRun(t, rest) ==>
           if sig.SigStop? then !Accounts.StopsConserved(After(t, rest)) else !Accounts.KillsConserved(After(t, rest))
  {
    LateRun(sig);
    FromExecution(Late(sig), Lost(sig));
    var s := LifeCycle.Start(2, 2, 1, 1);
    StartKeeps(2, 2, 1, 1);
    RunsKeep(s, TO_EXECUTION + Late(sig));
    var t := After(s, TO_EXECUTION + Late(sig));
    if CanRun(t, rest) && CleanRun(t, rest) {
      Accounts.RequestsCount(t, rest);
    }
  }

  // ------------------------------------------------------------------------------------------
  // A user whose counter never comes down
  // ------------------------------------------------------------------------------------------

  const HARD_KILL: seq<Event> := [Post(SigKillHard, 0), H]

  function KillPosted(): View {
    OnHost(Wrapper, ALONE, 3, [Item(Ask(SigKillHard), 0, 2, Init)], {0}, map[], Some(0))
  }

  function Killed(): View { View(None, ALONE, FREE, FREE, 1, [], {0}, map[], 3, 0, 0, 1, Some(0)) }

  lemma KillComes()
    ensures Goes(Executing(ALONE, 2), Post(SigKillHard, 0), KillPosted())
  {
  }

  lemma KillTaken()
    ensures Goes(KillPosted(), H, Killed())
  {
    Alone(Item(Ask(SigKillHard), 0, 2, Init));
  }

  /** After a hard kill nothing runs any more, and the user's counter still says one. */
  lemma LeakedUser()
    ensures var s := LifeCycle.Start(2, 2, 1, 1); var run := TO_EXECUTION + HARD_KILL;
      && CanRun(s, run) && CleanRun(s, run)
      && var t := After(s, run);
         t.jobs == [None, None] && t.hosts == s.hosts && t.users == [1] && Accounts.DispatchedJobs(t, 0) == 0
  {
    KillComes();
    KillTaken();
    Two(Executing(ALONE, 2), HARD_KILL[0], KillPosted(), H, Killed());
    FromExecution(HARD_KILL, Killed());
    StartIs();
    var s := LifeCycle.Start(2, 2, 1, 1);
    StartKeeps(2, 2, 1, 1);
    Accounts.UserCounter(s, TO_EXECUTION + HARD_KILL, 0);
    RunsKeep(s, TO_EXECUTION + HARD_KILL);
    assert Balanced(User(0), After(s, TO_EXECUTION + HARD_KILL));
  }

  // ------------------------------------------------------------------------------------------
  // Migrations
  // ------------------------------------------------------------------------------------------

  /** The cancelled execution is reported failed. */
  const FAILED_CANCEL: seq<Event> := [Dispatch(0, 1, false, Added), H, EmAnswers(0, false, None)]

  /** The execution ends before MIGR_CANCEL is handled. */
  const LATE_CANCEL: seq<Event> := [Dispatch(0, 1, false, Added), EmAnswers(0, true, None)]

  function Migrating(st: State, em: EmState, next: nat, queue: seq<Item>, ems: set<nat>): View {
    View(Some(Made(st, em, [R1, R0], 1)), ALONE, Host(2, 1), Host(2, 1), 1, queue, ems, map[], next, 0, 0, 0, Some(0))
  }

  function Moving(): View { Migrating(Wrapper, EmInit, 3, [Item(Go(MigrCancel), 0, 2, Wrapper)], {0}) }

  function Cancelling(): View { Migrating(MigrCancel, EmInit, 3, [], {0}) }

  function CancelFailed(): View {
    Migrating(MigrCancel, EmFailed, 4, [Item(Report(WrapperStage, false), 0, 3, MigrCancel)], {})
  }

  function EndedFirst(): View {
    Migrating(Wrapper, EmDone, 4,
              [Item(Go(MigrCancel), 0, 2, Wrapper), Item(Report(WrapperStage, true), 0, 3, Wrapper)], {})
  }

  lemma Migrates()
    ensures Goes(Executing(ALONE, 2), Dispatch(0, 1, false, Added), Moving())
  {
    assert [R1] + [R0] == [R1, R0];
  }

  lemma Cancels()
    ensures Goes(Moving(), H, Cancelling())
  {
    Alone(Item(Go(MigrCancel), 0, 2, Wrapper));
  }

  lemma CancelFails()
    ensures Goes(Cancelling(), EmAnswers(0, false, None), CancelFailed())
  {
  }

  lemma EndsFirst()
    ensures Goes(Moving(), EmAnswers(0, true, None), EndedFirst())
  {
  }

  /** From here on the ledger of host 0 is out of balance: two slots and one running job more than the jobs hold. */
  ghost predicate LosesHostZero(s: Sys, run: seq<Event>) {
    && CanRun(s, run) && CleanRun(s, run) && Enabled(After(s, run), H)
    && var t := Next(After(s, run), H);
       && |t.hosts| == 2
       && t.hosts[0] == Host(Total(Slots(0), t, |t.jobs|) + 2, Total(Runs(0), t, |t.jobs|) + 1)
  }

  lemma LosesIt(run: seq<Event>, v: View)
    requires Path(Executing(ALONE, 2), run, v) && v.j.Some? && v.queue != [] && v.queue[0].job == 0
    requires v.j.value.np == 2 && v.j.value.history == [R1, R0] && Exactness.LosesHost(v.queue[0].act, v.j.value)
    ensures LosesHostZero(LifeCycle.Start(2, 2, 1, 1), TO_EXECUTION + run)
  {
    var s := LifeCycle.Start(2, 2, 1, 1);
    FromExecution(run, v);
    StartKeeps(2, 2, 1, 1);
    RunsKeep(s, TO_EXECUTION + run);
    Exactness.MigrationLeaks(After(s, TO_EXECUTION + run), ENV, 0);
  }

  lemma FailedCancel()
    ensures Path(Executing(ALONE, 2), FAILED_CANCEL, CancelFailed())
  {
    Migrates();
    Cancels();
    CancelFails();
    Three(Executing(ALONE, 2), FAILED_CANCEL[0], Moving(), H, Cancelling(), FAILED_CANCEL[2], CancelFailed());
  }

  lemma LateCancel()
    ensures Path(Executing(ALONE, 2), LATE_CANCEL, EndedFirst())
  {
    Migrates();
    EndsFirst();
    Two(Executing(ALONE, 2), LATE_CANCEL[0], Moving(), LATE_CANCEL[1], EndedFirst());
  }

  /** Two clean runs whose next step loses the old host of a migration: the cancelled execution is reported failed, or
      the execution ends before MIGR_CANCEL is handled. */
  lemma LostHost()
    ensures LosesHostZero(LifeCycle.Start(2, 2, 1, 1), TO_EXECUTION + FAILED_CANCEL)
    ensures LosesHostZero(LifeCycle.Start(2, 2, 1, 1), TO_EXECUTION + LATE_CANCEL)
  {
    FailedCancel();
    LosesIt(FAILED_CANCEL, CancelFailed());
    LateCancel();
    LosesIt(LATE_CANCEL, EndedFirst());
  }

  /** A record of host 1 is linked on top of the running execution on host 0, and could not be saved. */
  const UNSAVED := Dispatch(0, 1, false, Unsaved)

  lemma MovedShares(t: Sys)
    requires t.jobs == [Some(Made(Wrapper, EmInit, [R1, R0], 0)), None] && t.queue == []
    ensures Total(Slots(0), t, 2) == 0 && Total(Runs(0), t, 2) == 0
    ensures Total(Slots(1), t, 2) == 2 && Total(Runs(1), t, 2) == 1
  {
    assert Total(Slots(0), t, 1) == 0 && Total(Runs(0), t, 1) == 0;
    assert Total(Slots(1), t, 1) == 2 && Total(Runs(1), t, 1) == 1;
  }

  /** After a clean run the dispatch is reported as failed, and the two hosts' counters are wrong: the job now holds its
      slots on host 1, which does not count them, and host 0 counts slots that nobody holds. */
  lemma MovedHost()
    ensures var s := LifeCycle.Start(2, 2, 1, 1);
      && CanRun(s, TO_EXECUTION) && CleanRun(s, TO_EXECUTION)
      && var t := After(s, TO_EXECUTION); var u := Next(t, UNSAVED);
         && !Clean(t, UNSAVED) && |u.jobs| == 2 && u.hosts == [Host(2, 1), FREE]
         && Total(Slots(0), u, 2) == 0 && Total(Runs(0), u, 2) == 0
         && Total(Slots(1), u, 2) == 2 && Total(Runs(1), u, 2) == 1
  {
    var s := LifeCycle.Start(2, 2, 1, 1);
    StartIs();
    ToExecution(ALONE, 0, None);
    PathLeads(s, Idle(ALONE, 0, None), TO_EXECUTION, Executing(ALONE, 2));
    var t := After(s, TO_EXECUTION);
    assert [R1] + [R0] == [R1, R0];
    assert t.jobs[0 := Some(Made(Wrapper, EmInit, [R1, R0], 0))] == [Some(Made(Wrapper, EmInit, [R1, R0], 0)), None];
    MovedShares(Next(t, UNSAVED));
  }

  /** An unsaved record of the old host is slipped onto the queued migration. */
  const SHUFFLED: seq<Event> := [Dispatch(0, 1, false, Added), Dispatch(0, 0, false, Unsaved), H] + TO_SOURCE

  const TO_SOURCE: seq<Event> := [EmAnswers(0, true, None), H]

  function Shuffled(st: State, em: EmState, h1: Host, next: nat, queue: seq<Item>, ems: set<nat>): View {
    View(Some(Made(st, em, [R0, R1, R0], 1)), ALONE, Host(2, 1), h1, 1, queue, ems, map[], next, 0, 0, 0, Some(0))
  }

  function ShuffleQueued(): View {
    Shuffled(Wrapper, EmInit, Host(2, 1), 3, [Item(Go(MigrCancel), 0, 2, Wrapper)], {0})
  }

  function ShuffleCancelled(): View { Shuffled(MigrCancel, EmInit, Host(2, 1), 3, [], {0}) }

  function ShuffleReported(): View {
    Shuffled(MigrCancel, EmDone, Host(2, 1), 4, [Item(Report(WrapperStage, true), 0, 3, MigrCancel)], {})
  }

  function ShuffleProlog(): View {
    Shuffled(MigrCancel, EmInit, Host(0, 1), 4, [Item(Go(MigrProlog), 0, 3, MigrCancel)], {})
  }

  lemma Shuffles()
    ensures Goes(Moving(), Dispatch(0, 0, false, Unsaved), ShuffleQueued())
  {
    Alone(Item(Go(MigrCancel), 0, 2, Wrapper));
    assert [R0] + [R1, R0] == [R0, R1, R0];
  }

  lemma ShuffleCancels()
    ensures Goes(ShuffleQueued(), H, ShuffleCancelled())
  {
    Alone(Item(Go(MigrCancel), 0, 2, Wrapper));
  }

  lemma ShuffleReports()
    ensures Goes(ShuffleCancelled(), EmAnswers(0, true, None), ShuffleReported())
  {
  }

  lemma ShuffleProceeds()
    ensures Goes(ShuffleReported(), H, ShuffleProlog())
  {
    Alone(Item(Report(WrapperStage, true), 0, 3, MigrCancel));
  }

  lemma ShuffleComes()
    ensures Path(Executing(ALONE, 2), [Dispatch(0, 1, false, Added), Dispatch(0, 0, false, Unsaved), H],
                 ShuffleCancelled())
  {
    Migrates();
    Shuffles();
    ShuffleCancels();
    Three(Executing(ALONE, 2), Dispatch(0, 1, false, Added), Moving(), Dispatch(0, 0, false, Unsaved),
          ShuffleQueued(), H, ShuffleCancelled());
  }

  lemma ShuffleGoesOn()
    ensures Path(ShuffleCancelled(), TO_SOURCE, ShuffleProlog())
  {
    ShuffleReports();
    ShuffleProceeds();
    Two(ShuffleCancelled(), TO_SOURCE[0], ShuffleReported(), H, ShuffleProlog());
  }

  /** MIGR_PROLOG is about to fetch the restart files from host 1, and the execution ran on host 0. */
  lemma WrongSource()
    ensures var s := LifeCycle.Start(2, 2, 1, 1); var run := TO_EXECUTION + SHUFFLED;
      && CanRun(s, run) && CleanRun(s, run) && Sources.RanOnAfter(s, run, 0, None) == Some(0)
      && var t := After(s, run);
         && t.queue != [] && t.queue[0].job == 0 && t.queue[0].act == Go(MigrProlog) && t.Alive(0)
         && |t.jobs[0].value.history| >= 2 && t.jobs[0].value.history[1].host == 1
  {
    ShuffleComes();
    ShuffleGoesOn();
    Join(Executing(ALONE, 2), [Dispatch(0, 1, false, Added), Dispatch(0, 0, false, Unsaved), H], ShuffleCancelled(),
         TO_SOURCE, ShuffleProlog());
    FromExecution(SHUFFLED, ShuffleProlog());
  }

  // ------------------------------------------------------------------------------------------
  // Dependencies
  // ------------------------------------------------------------------------------------------

  function ActsOf(run: seq<Event>): (r: seq<Act>)
    ensures |r| == |run|
  { seq(|run|, i requires 0 <= i < |run| => Step(run[i])) }

  lemma FirstAct(s: Sys, lists: seq<Option<Watch>>, ev: Event, rest: seq<Act>)
    requires CanAct(s, lists, Step(ev)) && Clean(s, ev)
    requires var (t, after) := Acts(s, lists, Step(ev)); CanActAll(t, after, rest) && CleanActs(t, after, rest)
    ensures var acts := [Step(ev)] + rest; var (t, after) := Acts(s, lists, Step(ev));
      && CanActAll(s, lists, acts) && CleanActs(s, lists, acts)
      && AfterActs(s, lists, acts) == AfterActs(t, after, rest)
  {
    assert ([Step(ev)] + rest)[1..] == rest;
  }

  lemma {:induction false} PathActs(s: Sys, v: View, run: seq<Event>, w: View)
    requires Is(s, v) && Path(v, run, w)
    ensures CanActAll(s, Lists(v), ActsOf(run)) && CleanActs(s, Lists(v), ActsOf(run))
    ensures var (t, lists) := AfterActs(s, Lists(v), ActsOf(run)); Is(t, w) && lists == Lists(w)
    decreases |run|
  {
    if run != [] {
      var x :| Goes(v, run[0], x) && Path(x, run[1..], w);
      ListsAre(s, v, run[0], x);
      PathActs(Next(s, run[0]), x, run[1..], w);
      FirstAct(s, Lists(v), run[0], ActsOf(run[1..]));
      assert ActsOf(run) == [Step(run[0])] + ActsOf(run[1..]);
    }
  }

  lemma {:induction false} PathEnds(s: Sys, v: View, run: seq<Event>, w: View)
    requires Is(s, v) && Path(v, run, w) && CanActAll(s, Lists(v), ActsOf(run))
    ensures w.b.ended == v.b.ended + EndsOf(s, Lists(v), ActsOf(run))
    decreases |run|
  {
    if run == [] {
      assert v.b.ended + [] == v.b.ended;
    } else {
      var x :| Goes(v, run[0], x) && Path(x, run[1..], w);
      ListsAre(s, v, run[0], x);
      assert ActsOf(run)[1..] == ActsOf(run[1..]);
      PathEnds(Next(s, run[0]), x, run[1..], w);
      var first := if Ends(s, run[0]) then [s.queue[0].job] else [];
      Regroup(v.b.ended, first, EndsOf(Next(s, run[0]), Lists(x), ActsOf(run[1..])));
    }
  }

  const NO_LISTS: seq<Option<Watch>> := [None, None]

  /** The acts lead, cleanly, from a state without lists to such a state with such lists. */
  ghost predicate Reaches(s: Sys, acts: seq<Act>, v: View) {
    && CanActAll(s, NO_LISTS, acts) && CleanActs(s, NO_LISTS, acts) && EndsOf(s, NO_LISTS, acts) == v.b.ended
    && Is(AfterActs(s, NO_LISTS, acts).0, v) && AfterActs(s, NO_LISTS, acts).1 == Lists(v)
  }

  lemma ReachesOn(s: Sys, acts: seq<Act>, v: View, more: seq<Act>, w: View)
    requires Reaches(s, acts, v)
    requires var (t, lists) := AfterActs(s, NO_LISTS, acts);
      && CanActAll(t, lists, more) && CleanActs(t, lists, more) && w.b.ended == v.b.ended + EndsOf(t, lists, more)
      && Is(AfterActs(t, lists, more).0, w) && AfterActs(t, lists, more).1 == Lists(w)
    ensures Reaches(s, acts + more, w)
  {
    JoinActs(s, NO_LISTS, acts, more);
    JoinClean(s, NO_LISTS, acts, more);
    JoinEnds(s, NO_LISTS, acts, more);
  }

  lemma ReachesBy(s: Sys, acts: seq<Act>, v: View, run: seq<Event>, w: View)
    requires Reaches(s, acts, v) && Path(v, run, w)
    ensures Reaches(s, acts + ActsOf(run), w)
  {
    PathActs(AfterActs(s, NO_LISTS, acts).0, v, run, w);
    PathEnds(AfterActs(s, NO_LISTS, acts).0, v, run, w);
    ReachesOn(s, acts, v, ActsOf(run), w);
  }

  /** The job in slot 1 gets its list. */
  function Listed(v: View, list: seq<int>): View { v.(b := v.b.(watch := Some(Watch(list, [])))) }

  lemma ReachesSet(s: Sys, acts: seq<Act>, v: View, list: seq<int>)
    requires Reaches(s, acts, v) && v.b.o.Some? && list != []
    ensures Reaches(s, acts + [DepSet(1, list)], Listed(v, list))
  {
    var t := AfterActs(s, NO_LISTS, acts).0;
    assert Lists(v)[1 := Some(Watch(list, []))] == Lists(Listed(v, list));
    assert [DepSet(1, list)][1..] == [];
    assert v.b.ended + [] == v.b.ended;
    ReachesOn(s, acts, v, [DepSet(1, list)], Listed(v, list));
  }

  lemma LifeBeside(b: Beside, c: nat, ran: Option<nat>)
    ensures Path(Idle(b, c, ran), TO_EXECUTION + ToEndOf(b), Ended(AfterEnd(b), c + 4))
  {
    ToExecution(b, c, ran);
    ToEnd(b, c + 2);
    Join(Idle(b, c, ran), TO_EXECUTION, Executing(b, c + 2), ToEndOf(b), Ended(AfterEnd(b), c + 4));
  }

  function Waiting(st: State): Option<Job> { Some(Made(st, EmInit, [], 0)) }

  lemma StartReaches()
    ensures Reaches(LifeCycle.Start(2, 2, 1, 1), [], Idle(ALONE, 0, None))
  {
    StartIs();
  }

  /** A job that depends on job 0 is submitted after job 0 has ended. */
  const LATE_LIST: seq<Act> :=
    [] + ActsOf(TO_EXECUTION + ToEndOf(ALONE)) + ActsOf([NewJob(1, HELD)]) + [DepSet(1, [0])]

  function LateListed(): View { Ended(Beside(Waiting(Hold), Some(Watch([0], [])), [0]), 4) }

  lemma LateListReached()
    ensures Reaches(LifeCycle.Start(2, 2, 1, 1), LATE_LIST, LateListed())
  {
    var s := LifeCycle.Start(2, 2, 1, 1);
    var life := [] + ActsOf(TO_EXECUTION + ToEndOf(ALONE));
    var x := Ended(Beside(None, None, [0]), 4);
    StartReaches();
    LifeBeside(ALONE, 0, None);
    assert AfterEnd(ALONE) == Beside(None, None, [0]);
    ReachesBy(s, [], Idle(ALONE, 0, None), TO_EXECUTION + ToEndOf(ALONE), x);
    var y := Ended(Beside(Waiting(Hold), None, [0]), 4);
    assert Goes(x, NewJob(1, HELD), y);
    One(x, NewJob(1, HELD), y);
    ReachesBy(s, life, x, [NewJob(1, HELD)], y);
    ReachesSet(s, life + ActsOf([NewJob(1, HELD)]), y, [0]);
  }

  /** All jobs on its list have ended, and it waits for ever: however a clean run goes on, as long as no job in slot 0
      ends again and the user does not release it, the job stays on hold. */
  lemma LateList(rest: seq<Act>)
    ensures var s := LifeCycle.Start(2, 2, 1, 1);
      && CanActAll(s, NO_LISTS, LATE_LIST) && CleanActs(s, NO_LISTS, LATE_LIST) && EndsOf(s, NO_LISTS, LATE_LIST) == [0]
      && var (t, lists) := AfterActs(s, NO_LISTS, LATE_LIST);
         && t.Alive(0) && t.jobs[0].value.state.Zombie? && t.Alive(1) && t.jobs[1].value.state.Hold?
         && (CanActAll(t, lists, rest) && CleanActs(t, lists, rest) && KeepsList(t, lists, rest, 1)
             && NoRelease(t, lists, rest, 1) && 0 !in EndsOf(t, lists, rest) ==>
               var u := AfterActs(t, lists, rest).0; u.Alive(1) && u.jobs[1].value.state.Hold?)
  {
    var s := LifeCycle.Start(2, 2, 1, 1);
    LateListReached();
    StartKeeps(2, 2, 1, 1);
    ActsKeep(s, NO_LISTS, LATE_LIST);
    var (t, lists) := AfterActs(s, NO_LISTS, LATE_LIST);
    if CanActAll(t, lists, rest) && CleanActs(t, lists, rest) && KeepsList(t, lists, rest, 1)
       && NoRelease(t, lists, rest, 1) && 0 !in EndsOf(t, lists, rest)
    {
      StaysHeld(t, lists, rest, 1, 0);
    }
  }

  /** The user holds the job in slot 1 again and removes the one it waited for. */
  const HOLD_AGAIN: seq<Event> := [Post(SigHold, 1), H] + [Post(SigKill, 0), H]

  const WAITING := Beside(Some(HELD), Some(Watch([0], [])), [])

  const AGAIN := Beside(Some(HELD), Some(Watch([0], [0])), [0])

  /** A job that waits for job 0 is released by its end, put back on hold by the user, and job 0's slot is used
      again. */
  const HELD_TWICE: seq<Act> :=
    [] + ActsOf([NewJob(1, HELD)]) + [DepSet(1, [0])] + ActsOf(TO_EXECUTION + ToEndOf(WAITING)) + ActsOf(HOLD_AGAIN)

  function Released(): Beside { Beside(Waiting(Pending), Some(Watch([0], [0])), [0]) }

  lemma Holding(c: nat)
    ensures Goes(Ended(Released(), c), Post(SigHold, 1),
                 Ended(Released(), c + 1).(queue := [Item(Ask(SigHold), 1, c, Init)]))
  {
  }

  lemma Held(c: nat)
    ensures Goes(Ended(Released(), c + 1).(queue := [Item(Ask(SigHold), 1, c, Init)]), H, Ended(AGAIN, c + 1))
  {
    Alone(Item(Ask(SigHold), 1, c, Init));
  }

  lemma Removing(c: nat)
    ensures Goes(Ended(AGAIN, c), Post(SigKill, 0), Ended(AGAIN, c + 1).(queue := [Item(Ask(SigKill), 0, c, Init)]))
  {
  }

  lemma Removed(c: nat)
    ensures Goes(Ended(AGAIN, c + 1).(queue := [Item(Ask(SigKill), 0, c, Init)]), H, Idle(AGAIN, c + 1, Some(0)))
  {
    Alone(Item(Ask(SigKill), 0, c, Init));
  }

  lemma HeldAgain(c: nat)
    ensures Path(Ended(Released(), c), HOLD_AGAIN, Idle(AGAIN, c + 2, Some(0)))
  {
    Two(Ended(Released(), c), Post(SigHold, 1), Ended(Released(), c + 1).(queue := [Item(Ask(SigHold), 1, c, Init)]), H,
        Ended(AGAIN, c + 1)) by {
      Holding(c);
      Held(c);
    }
    Two(Ended(AGAIN, c + 1), Post(SigKill, 0), Ended(AGAIN, c + 2).(queue := [Item(Ask(SigKill), 0, c + 1, Init)]), H,
        Idle(AGAIN, c + 2, Some(0))) by {
      Removing(c + 1);
      Removed(c + 1);
    }
    Join(Ended(Released(), c), [Post(SigHold, 1), H], Ended(AGAIN, c + 1), [Post(SigKill, 0), H],
         Idle(AGAIN, c + 2, Some(0)));
  }

  lemma HeldTwice()
    ensures Reaches(LifeCycle.Start(2, 2, 1, 1), HELD_TWICE, Idle(AGAIN, 6, Some(0)))
  {
    var s := LifeCycle.Start(2, 2, 1, 1);
    var x := Idle(Beside(Some(HELD), None, []), 0, None);
    var first := [] + ActsOf([NewJob(1, HELD)]);
    StartReaches();
    assert Goes(Idle(ALONE, 0, None), NewJob(1, HELD), x);
    One(Idle(ALONE, 0, None), NewJob(1, HELD), x);
    ReachesBy(s, [], Idle(ALONE, 0, None), [NewJob(1, HELD)], x);
    ReachesSet(s, first, x, [0]);
    ThenLife(s, first + [DepSet(1, [0])]);
    HeldAgain(4);
    ReachesBy(s, first + [DepSet(1, [0])] + ActsOf(TO_EXECUTION + ToEndOf(WAITING)), Ended(Released(), 4), HOLD_AGAIN,
              Idle(AGAIN, 6, Some(0)));
  }

  lemma ThenLife(s: Sys, acts: seq<Act>)
    requires Reaches(s, acts, Idle(WAITING, 0, None))
    ensures Reaches(s, acts + ActsOf(TO_EXECUTION + ToEndOf(WAITING)), Ended(Released(), 4))
  {
    LifeBeside(WAITING, 0, None);
    assert WAITING.watch.value.since + [0] == [0] && WAITING.ended + [0] == [0];
    assert AfterEnd(WAITING) == Released();
    ReachesBy(s, acts, Idle(WAITING, 0, None), TO_EXECUTION + ToEndOf(WAITING), Ended(Released(), 4));
  }

  /** The hold is in force, no release is asked for, and the end of the next job 0 releases the job again. */
  lemma HoldUndone()
    ensures var s := LifeCycle.Start(2, 2, 1, 1); var life := ActsOf(TO_EXECUTION + ToEndOf(AGAIN));
      && CanActAll(s, NO_LISTS, HELD_TWICE) && CleanActs(s, NO_LISTS, HELD_TWICE)
      && var (t, lists) := AfterActs(s, NO_LISTS, HELD_TWICE);
         && t.Alive(1) && t.jobs[1].value.state.Hold? && CanActAll(t, lists, life) && CleanActs(t, lists, life)
         && var u := AfterActs(t, lists, life).0;
            u.Alive(1) && u.jobs[1].value.state.Pending?
  {
    var s := LifeCycle.Start(2, 2, 1, 1);
    HeldTwice();
    LifeBeside(AGAIN, 6, Some(0));
    PathActs(AfterActs(s, NO_LISTS, HELD_TWICE).0, Idle(AGAIN, 6, Some(0)), TO_EXECUTION + ToEndOf(AGAIN),
             Ended(AfterEnd(AGAIN), 10));
  }
}
