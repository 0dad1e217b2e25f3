/** The queue of the step system is the linked list of the action manager: on every run, whatever other actions are
    triggered in between, the list holds the queued job actions, in order, each with its cell. */
module Queues {
  import opened Jobs
  import opened Reactions
  import opened LifeCycle
  import A = ActionManager

  // ------------------------------------------------------------------------------------------
  // Places in the table
  // ------------------------------------------------------------------------------------------

  /** The table has each job action in its place and nowhere else. */
  lemma OnePlace(a: Action, k: nat)
    requires k < |A.DM_ACTIONS| && A.DM_ACTIONS[k] == A.OfJob(a)
    ensures A.HasHandler(a) && k == A.PlaceOf(a)
  {
  }

  lemma AtPlace(a: Action)
    requires A.HasHandler(a)
    ensures 3 <= A.PlaceOf(a) <= 32 && A.DM_ACTIONS[A.PlaceOf(a)] == A.OfJob(a)
  {
  }

  lemma FoundAt(names: seq<A.Name>, id: A.Name, k: nat)
    requires k < |names| && names[k] == id && forall i | 0 <= i < |names| && names[i] == id :: i == k
    ensures A.IndexOf(names, id) == k
  {
  }

  lemma InPlace(a: Action)
    requires A.HasHandler(a)
    ensures 3 <= A.PlaceOf(a) <= 32 && A.IndexOf(A.DM_ACTIONS, A.OfJob(a)) == A.PlaceOf(a)
  {
    var names := A.DM_ACTIONS;
    forall i | 0 <= i < |names| && names[i] == A.OfJob(a) ensures i == A.PlaceOf(a) {
      OnePlace(a, i);
    }
    AtPlace(a);
    FoundAt(names, A.OfJob(a), A.PlaceOf(a));
  }

  /** An entry that carries a job id. */
  predicate OfJobs(e: A.Entry) { 3 <= e.idx <= 32 }

  /** What the order of the table amounts to. */
  ghost predicate Ordered(names: seq<A.Name>) {
    && (forall k | 0 <= k < |names| :: names[k].OfJob? <==> 3 <= k <= 32)
    && (forall k | 0 <= k < |names| && names[k].Finalize? :: k == 0)
    && forall a | A.HasHandler(a) :: 3 <= A.PlaceOf(a) <= 32 && A.IndexOf(names, A.OfJob(a)) == A.PlaceOf(a)
  }

  lemma OthersAt(k: nat)
    requires k < |A.DM_ACTIONS|
    ensures A.DM_ACTIONS[k].OfJob? <==> 3 <= k <= 32
    ensures A.DM_ACTIONS[k].Finalize? ==> k == 0
  {
  }

  lemma TableOrdered()
    ensures Ordered(A.DM_ACTIONS)
  {
    forall k | 0 <= k < |A.DM_ACTIONS|
      ensures A.DM_ACTIONS[k].OfJob? <==> 3 <= k <= 32
      ensures A.DM_ACTIONS[k].Finalize? ==> k == 0
    {
      OthersAt(k);
    }
    forall a | A.HasHandler(a)
      ensures 3 <= A.PlaceOf(a) <= 32 && A.IndexOf(A.DM_ACTIONS, A.OfJob(a)) == A.PlaceOf(a)
    {
      InPlace(a);
    }
  }

  // ------------------------------------------------------------------------------------------
  // The two queues
  // ------------------------------------------------------------------------------------------

  function JobEntries(q: seq<A.Entry>): seq<A.Entry> {
    if q == [] then [] else (if OfJobs(q[0]) then [q[0]] else []) + JobEntries(q[1..])
  }

  lemma {:induction false} EntryJoins(q: seq<A.Entry>, e: A.Entry)
    ensures JobEntries(q + [e]) == JobEntries(q) + if OfJobs(e) then [e] else []
  {
    if q == [] {
      assert [e][1..] == [];
    } else {
      assert (q + [e])[1..] == q[1..] + [e];
      EntryJoins(q[1..], e);
    }
  }

  /** Every queued action has a handler; its entry has its place in the table and its cell. */
  ghost predicate Registered(q: seq<Item>) { forall k | 0 <= k < |q| :: A.HasHandler(q[k].act) }

  function Entries(q: seq<Item>): (r: seq<A.Entry>)
    requires Registered(q)
    ensures |r| == |q|
  { seq(|q|, k requires 0 <= k < |q| => A.Entry(A.PlaceOf(q[k].act), q[k].cell)) }

  /** The list holds the queue, and nobody has asked the manager to end. */
  ghost predicate Holds(s: Sys, m: A.Machine) {
    && Ordered(m.names) && !m.finished && Registered(s.queue)
    && JobEntries(m.queue) == Entries(s.queue)
    && forall k | 0 <= k < |m.queue| :: !A.IsFinalize(m, m.queue[k])
  }

  // ------------------------------------------------------------------------------------------
  // Steps
  // ------------------------------------------------------------------------------------------

  /** What a step leaves of the queue. */
  function Left(s: Sys, taken: bool): seq<Item>
    requires taken ==> s.queue != []
  { if taken then s.queue[1..] else s.queue }

  /** A step takes the head of the queue, if it is a handler, and adds at most one action, which has a handler. */
  ghost predicate QueueStep(s: Sys, t: Sys, taken: bool) {
    && (taken ==> s.queue != [])
    && |Left(s, taken)| <= |t.queue| <= |Left(s, taken)| + 1
    && t.queue == Left(s, taken) + t.queue[|Left(s, taken)|..]
    && Registered(t.queue[|Left(s, taken)|..])
  }

  lemma AtMostOne(s: Sys, ev: Event)
    requires Enabled(s, ev)
    ensures var t := Next(s, ev); var n := |Left(s, ev.Handle?)|;
      |t.queue| <= n + 1 && t.queue == Left(s, ev.Handle?) + t.queue[n..]
  {
  }

  lemma AddsRegistered(s: Sys, ev: Event)
    requires Enabled(s, ev) && |Next(s, ev).queue| > |Left(s, ev.Handle?)|
    ensures A.HasHandler(Next(s, ev).queue[|Left(s, ev.Handle?)|].act)
  {
    if ev.Handle? && s.Alive(s.queue[0].job) {
      var j := s.jobs[s.queue[0].job].value;
      A.HandlersTriggerRegistered(s.queue[0].act, j, ev.env);
      A.TableHolds(React(s.queue[0].act, j, ev.env).dest.act);
    }
  }

  lemma EventSteps(s: Sys, ev: Event)
    requires Enabled(s, ev)
    ensures QueueStep(s, Next(s, ev), ev.Handle?)
  {
    AtMostOne(s, ev);
    if |Next(s, ev).queue| > |Left(s, ev.Handle?)| {
      AddsRegistered(s, ev);
    }
  }

  /** What a step does to the action manager: a handler takes the head of the list, and what the step adds is
      triggered. */
  function HappeningsTo(s: Sys, t: Sys, taken: bool): seq<A.Happening>
    requires (taken ==> s.queue != []) && |Left(s, taken)| <= |t.queue|
  {
    var added := t.queue[|Left(s, taken)|..];
    (if taken then [A.Dispatches] else [])
    + (if added != [] then [A.Triggers(A.OfJob(added[0].act), added[0].cell)] else [])
  }

  ghost function Happenings(s: Sys, ev: Event): seq<A.Happening>
    requires Enabled(s, ev)
  {
    EventSteps(s, ev);
    HappeningsTo(s, Next(s, ev), ev.Handle?)
  }

  /** The head of the list is the head of the queue, unless it carries no job. */
  lemma HeadsAgree(s: Sys, m: A.Machine)
    requires Holds(s, m) && m.queue != [] && OfJobs(m.queue[0])
    ensures s.queue != [] && m.queue[0] == A.Entry(A.PlaceOf(s.queue[0].act), s.queue[0].cell)
  {
    assert JobEntries(m.queue)[0] == m.queue[0];
  }

  ghost predicate Quiet(m: A.Machine) {
    Ordered(m.names) && !m.finished && forall k | 0 <= k < |m.queue| :: !A.IsFinalize(m, m.queue[k])
  }

  lemma Takes(m: A.Machine)
    requires Quiet(m) && m.queue != []
    ensures var n := A.Dispatched(m);
      && Quiet(n) && A.CanHappen(m, A.Dispatches)
      && JobEntries(n.queue) == if OfJobs(m.queue[0]) then JobEntries(m.queue)[1..] else JobEntries(m.queue)
  {
    var n := A.Dispatched(m);
    forall k | 0 <= k < |n.queue| ensures !A.IsFinalize(n, n.queue[k]) {
      assert n.queue[k] == m.queue[k + 1];
    }
  }

  /** A trigger of a registered name other than FINALIZE joins the list. */
  lemma Accepts(m: A.Machine, id: A.Name, arg: nat)
    requires Quiet(m) && id != A.Finalize
    ensures var k := A.IndexOf(m.names, id); var n := A.Triggered(m, id, arg);
      && Quiet(n)
      && JobEntries(n.queue) == JobEntries(m.queue) + if 3 <= k <= 32 then [A.Entry(k, arg)] else []
  {
    var k := A.IndexOf(m.names, id);
    if k != -1 {
      EntryJoins(m.queue, A.Entry(k, arg));
    }
  }

  lemma AcceptsOurs(m: A.Machine, it: Item)
    requires Quiet(m) && A.HasHandler(it.act)
    ensures var n := A.Triggered(m, A.OfJob(it.act), it.cell);
      Quiet(n) && JobEntries(n.queue) == JobEntries(m.queue) + [A.Entry(A.PlaceOf(it.act), it.cell)]
  {
    Accepts(m, A.OfJob(it.act), it.cell);
  }

  /** The queue as entries, piece by piece. */
  lemma EntriesJoin(q: seq<Item>, it: Item)
    requires Registered(q) && A.HasHandler(it.act)
    ensures Registered(q + [it]) && Entries(q + [it]) == Entries(q) + [A.Entry(A.PlaceOf(it.act), it.cell)]
  {
  }

  lemma EntriesLeave(q: seq<Item>)
    requires Registered(q) && q != []
    ensures Registered(q[1..]) && Entries(q[1..]) == Entries(q)[1..]
  {
  }

  /** The machine after the first half of a step. */
  lemma LeftHolds(s: Sys, m: A.Machine, taken: bool)
    requires Holds(s, m) && (taken ==> s.queue != [] && m.queue != [] && OfJobs(m.queue[0]))
    ensures var n := if taken then A.Dispatched(m) else m;
      Quiet(n) && Registered(Left(s, taken)) && JobEntries(n.queue) == Entries(Left(s, taken))
  {
    if taken {
      Takes(m);
      EntriesLeave(s.queue);
    }
  }

  lemma RunOfTwo(m: A.Machine, hs: seq<A.Happening>, taken: bool, added: seq<Item>)
    requires |added| <= 1 && (taken ==> !m.finished && m.queue != [])
    requires hs == (if taken then [A.Dispatches] else [])
                   + (if added != [] then [A.Triggers(A.OfJob(added[0].act), added[0].cell)] else [])
    ensures var n := if taken then A.Dispatched(m) else m;
      && A.CanRun(m, hs)
      && A.After(m, hs) == if added != [] then A.Triggered(n, A.OfJob(added[0].act), added[0].cell) else n
    decreases taken
  {
    if taken {
      var n := A.Dispatched(m);
      assert hs[0] == A.Dispatches;
      if added != [] {
        assert hs[1..] == [A.Triggers(A.OfJob(added[0].act), added[0].cell)];
        RunOfTwo(n, hs[1..], false, added);
      } else {
        assert hs[1..] == [];
      }
    } else if added != [] {
      assert hs[1..] == [];
    }
  }

  lemma RightHolds(t: Sys, n: A.Machine, left: seq<Item>, added: seq<Item>)
    requires Quiet(n) && Registered(left) && JobEntries(n.queue) == Entries(left)
    requires t.queue == left + added && |added| <= 1 && Registered(added)
    ensures Holds(t, if added != [] then A.Triggered(n, A.OfJob(added[0].act), added[0].cell) else n)
  {
    if added != [] {
      AcceptsOurs(n, added[0]);
      EntriesJoin(left, added[0]);
      assert t.queue == left + [added[0]];
    } else {
      assert t.queue == left;
    }
  }

  lemma HalvesHold(s: Sys, t: Sys, m: A.Machine, taken: bool)
    requires Holds(s, m) && (taken ==> m.queue != [] && OfJobs(m.queue[0])) && QueueStep(s, t, taken)
    ensures A.CanRun(m, HappeningsTo(s, t, taken)) && Holds(t, A.After(m, HappeningsTo(s, t, taken)))
  {
    var added := t.queue[|Left(s, taken)|..];
    LeftHolds(s, m, taken);
    RunOfTwo(m, HappeningsTo(s, t, taken), taken, added);
    RightHolds(t, if taken then A.Dispatched(m) else m, Left(s, taken), added);
  }

  /** Every step of the system is what happens to the action manager, and the list goes on holding the queue. */
  lemma StepHolds(s: Sys, ev: Event, m: A.Machine)
    requires Enabled(s, ev) && Holds(s, m) && (ev.Handle? ==> m.queue != [] && OfJobs(m.queue[0]))
    ensures A.CanRun(m, Happenings(s, ev)) && Holds(Next(s, ev), A.After(m, Happenings(s, ev)))
  {
    EventSteps(s, ev);
    HalvesHold(s, Next(s, ev), m, ev.Handle?);
  }

  // ------------------------------------------------------------------------------------------
  // Runs
  // ------------------------------------------------------------------------------------------

  /** A step of the system, or something that happens to the list for others: the timer, new jobs and arrays. */
  datatype Joint = Ours(ev: Event) | Theirs(h: A.Happening)

  predicate ForOthers(m: A.Machine, h: A.Happening)
    requires A.CanHappen(m, h)
  {
    match h
    case Triggers(id, _) => !id.OfJob? && !id.Finalize?
    case TimesOut(_) => true
    case Dispatches => !OfJobs(m.queue[0])
  }

  lemma OthersHold(s: Sys, m: A.Machine, h: A.Happening)
    requires Holds(s, m) && A.CanHappen(m, h) && ForOthers(m, h)
    ensures Holds(s, A.Happens(m, h))
  {
    match h
    case Triggers(id, arg) =>
      Accepts(m, id, arg);
    case TimesOut(arg) =>
      Accepts(m, A.Timer, arg);
    case Dispatches => Takes(m);
  }

  ghost predicate CanGo(s: Sys, m: A.Machine, x: Joint) {
    match x
    case Ours(ev) => Enabled(s, ev) && A.CanRun(m, Happenings(s, ev))
                     && (ev.Handle? ==> m.queue != [] && OfJobs(m.queue[0]))
    case Theirs(h) => A.CanHappen(m, h) && ForOthers(m, h)
  }

  ghost function Goes(s: Sys, m: A.Machine, x: Joint): (Sys, A.Machine)
    requires CanGo(s, m, x)
  {
    match x
    case Ours(ev) => (Next(s, ev), A.After(m, Happenings(s, ev)))
    case Theirs(h) => (s, A.Happens(m, h))
  }

  lemma JointHolds(s: Sys, m: A.Machine, x: Joint)
    requires Holds(s, m) && CanGo(s, m, x)
    ensures var (t, n) := Goes(s, m, x); Holds(t, n)
  {
    match x
    case Ours(ev) => StepHolds(s, ev, m);
    case Theirs(h) => OthersHold(s, m, h);
  }

  ghost predicate CanRunJointly(s: Sys, m: A.Machine, run: seq<Joint>)
    decreases |run|
  {
    run != [] ==> CanGo(s, m, run[0]) && CanRunJointly(Goes(s, m, run[0]).0, Goes(s, m, run[0]).1, run[1..])
  }

  ghost function AfterJointly(s: Sys, m: A.Machine, run: seq<Joint>): (Sys, A.Machine)
    requires CanRunJointly(s, m, run)
    decreases |run|
  {
    if run == [] then (s, m) else AfterJointly(Goes(s, m, run[0]).0, Goes(s, m, run[0]).1, run[1..])
  }

  /** Over any joint run the list holds the queue: job actions are handled in the order of the list, each with the cell
      it was triggered with, whatever the timer and new jobs do in between. */
  lemma {:induction false} ListHoldsQueue(s: Sys, m: A.Machine, run: seq<Joint>)
    requires Holds(s, m) && CanRunJointly(s, m, run)
    ensures var (t, n) := AfterJointly(s, m, run); Holds(t, n)
    decreases |run|
  {
    if run != [] {
      JointHolds(s, m, run[0]);
      ListHoldsQueue(Goes(s, m, run[0]).0, Goes(s, m, run[0]).1, run[1..]);
    }
  }

  lemma StartHolds(jobs: nat, hosts: nat, users: nat, arrays: nat)
    ensures Holds(Start(jobs, hosts, users, arrays), A.Idle(A.DM_ACTIONS))
  {
    TableOrdered();
  }

  /** In every pair of states that an idle system and an idle action manager reach together: the entries of jobs in the
      list are the queue, and when the head of the list carries a job it is the head of the queue. */
  lemma ReachableQueues(jobs: nat, hosts: nat, users: nat, arrays: nat, run: seq<Joint>)
    requires CanRunJointly(Start(jobs, hosts, users, arrays), A.Idle(A.DM_ACTIONS), run)
    ensures var (t, n) := AfterJointly(Start(jobs, hosts, users, arrays), A.Idle(A.DM_ACTIONS), run);
      && Registered(t.queue) && JobEntries(n.queue) == Entries(t.queue)
      && (n.queue != [] && OfJobs(n.queue[0]) ==>
            t.queue != [] && n.queue[0] == A.Entry(A.PlaceOf(t.queue[0].act), t.queue[0].cell))
  {
    var s, m := Start(jobs, hosts, users, arrays), A.Idle(A.DM_ACTIONS);
    StartHolds(jobs, hosts, users, arrays);
    ListHoldsQueue(s, m, run);
    var (t, n) := AfterJointly(s, m, run);
    if n.queue != [] && OfJobs(n.queue[0]) {
      HeadsAgree(t, n);
    }
  }
}
