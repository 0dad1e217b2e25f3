/** The action manager: a table of registered names, a linked list of pending actions, and a loop that dispatches
    them one by one until FINALIZE. */
module ActionManager {
  import opened Jobs
  import opened Reactions

  /** The names that the Dispatch Manager's table holds: two of the action manager's own, two for new jobs, and
      the actions that carry a job id. */
  datatype Name = Finalize | Timer | AllocateJob | AllocateArray | OfJob(act: Action)

  const GW_ACTION_NUMBER: nat := 40

  datatype Entry = Entry(idx: nat, arg: nat)

  // ------------------------------------------------------------------------------------------
  // Runs of the manager
  // ------------------------------------------------------------------------------------------

  /** The first place of a name in the table, or -1. */
  function IndexOf(names: seq<Name>, id: Name): (k: int)
    ensures -1 <= k < |names|
    ensures k == -1 <==> id !in names
    ensures k != -1 ==> names[k] == id && id !in names[..k]
  {
    if names == [] then -1
    else if names[0] == id then 0
    else var k := IndexOf(names[1..], id);
         if k == -1 then -1 else assert names[..k + 1] == [names[0]] + names[1..][..k]; k + 1
  }

  /** Names in the table, pending actions, and two histories: what was accepted, what was dispatched. */
  datatype Machine = Machine(
    names: seq<Name>, queue: seq<Entry>, accepted: seq<Entry>, dispatched: seq<Entry>, finished: bool)
  {
    predicate FinalizeAtHead() { queue != [] && IndexOf(names, Finalize) == queue[0].idx }

    function Accept(e: Entry): Machine { this.(queue := queue + [e], accepted := accepted + [e]) }
  }

  /** What threads do to the manager: trigger an action, let the loop's wait time out, dispatch the next action. */
  datatype Happening = Triggers(id: Name, arg: nat) | TimesOut(arg: nat) | Dispatches

  predicate CanHappen(m: Machine, h: Happening) {
    match h
    case Triggers(_, _) => true
    case TimesOut(_) => !m.finished && m.queue == []
    case Dispatches => !m.finished && m.queue != []
  }

  function Triggered(m: Machine, id: Name, arg: nat): Machine {
    var k := IndexOf(m.names, id);
    if k == -1 || m.FinalizeAtHead() then m else m.Accept(Entry(k, arg))
  }

  function Dispatched(m: Machine): Machine
    requires m.queue != []
  {
    var e := m.queue[0];
    m.(queue := m.queue[1..], dispatched := m.dispatched + [e],
       finished := e.idx < |m.names| && m.names[e.idx] == Finalize)
  }

  function Happens(m: Machine, h: Happening): Machine
    requires CanHappen(m, h)
  {
    match h
    case Triggers(id, arg) => Triggered(m, id, arg)
    case TimesOut(arg) => var k := IndexOf(m.names, Timer); if k == -1 then m else m.Accept(Entry(k, arg))
    case Dispatches => Dispatched(m)
  }

  predicate IsFinalize(m: Machine, e: Entry) { IndexOf(m.names, Finalize) == e.idx }

  /** Accepted actions are dispatched in order, and FINALIZE is the last of them. */
  ghost predicate InOrder(m: Machine) {
    && m.accepted == m.dispatched + m.queue
    && (forall k | 0 <= k < |m.accepted| ::
          m.accepted[k].idx < |m.names| && IndexOf(m.names, m.names[m.accepted[k].idx]) == m.accepted[k].idx)
    && (m.finished <==> m.dispatched != [] && IsFinalize(m, m.dispatched[|m.dispatched| - 1]))
    && forall k | 0 <= k < |m.dispatched| - 1 :: !IsFinalize(m, m.dispatched[k])
  }

  lemma AcceptInOrder(m: Machine, e: Entry)
    requires InOrder(m) && e.idx < |m.names| && IndexOf(m.names, m.names[e.idx]) == e.idx
    ensures InOrder(m.Accept(e))
  {
    assert m.dispatched + (m.queue + [e]) == m.accepted + [e];
  }

  lemma DispatchInOrder(m: Machine)
    requires InOrder(m) && CanHappen(m, Dispatches)
    ensures InOrder(Dispatched(m))
  {
    var e := m.queue[0];
    assert m.accepted[|m.dispatched|] == e;
    assert m.dispatched + [e] + m.queue[1..] == m.accepted;
    assert IsFinalize(m, e) <==> m.names[e.idx] == Finalize;
  }

  lemma HappensInOrder(m: Machine, h: Happening)
    requires InOrder(m) && CanHappen(m, h)
    ensures InOrder(Happens(m, h)) && Happens(m, h).names == m.names
  {
    match h
    case Triggers(id, arg) =>
      var k := IndexOf(m.names, id);
      if k != -1 { AcceptInOrder(m, Entry(k, arg)); }
    case TimesOut(arg) =>
      var k := IndexOf(m.names, Timer);
      if k != -1 { AcceptInOrder(m, Entry(k, arg)); }
    case Dispatches => DispatchInOrder(m);
  }

  ghost predicate CanRun(m: Machine, run: seq<Happening>)
    decreases |run|
  { run != [] ==> CanHappen(m, run[0]) && CanRun(Happens(m, run[0]), run[1..]) }

  ghost function After(m: Machine, run: seq<Happening>): Machine
    requires CanRun(m, run)
    decreases |run|
  { if run == [] then m else After(Happens(m, run[0]), run[1..]) }

  function Idle(names: seq<Name>): Machine { Machine(names, [], [], [], false) }

  /** Over any interleaving of triggers, time-outs and dispatches: nothing accepted is lost or reordered. */
  lemma {:induction false} RunsInOrder(m: Machine, run: seq<Happening>)
    requires InOrder(m) && CanRun(m, run)
    ensures InOrder(After(m, run)) && After(m, run).names == m.names
    decreases |run|
  {
    if run != [] {
      HappensInOrder(m, run[0]);
      RunsInOrder(Happens(m, run[0]), run[1..]);
    }
  }

  /** The accepted actions up to and including the first FINALIZE; all of them if there is none. */
  function CutAfterFinalize(names: seq<Name>, s: seq<Entry>): seq<Entry> {
    if s == [] then []
    else if IndexOf(names, Finalize) == s[0].idx then [s[0]]
    else [s[0]] + CutAfterFinalize(names, s[1..])
  }

  lemma {:induction false} CutAt(names: seq<Name>, s: seq<Entry>, k: nat)
    requires k < |s| && IndexOf(names, Finalize) == s[k].idx
    requires forall i | 0 <= i < k :: IndexOf(names, Finalize) != s[i].idx
    ensures CutAfterFinalize(names, s) == s[..k + 1]
  {
    if k > 0 {
      CutAt(names, s[1..], k - 1);
      assert s[..k + 1] == [s[0]] + s[1..][..k];
    }
  }

  lemma CutWhenFinished(m: Machine)
    requires InOrder(m) && m.finished
    ensures m.dispatched == CutAfterFinalize(m.names, m.accepted)
  {
    var k := |m.dispatched| - 1;
    assert m.accepted[k] == m.dispatched[k];
    forall i | 0 <= i < k ensures IndexOf(m.names, Finalize) != m.accepted[i].idx {
      assert m.accepted[i] == m.dispatched[i];
    }
    CutAt(m.names, m.accepted, k);
    assert m.accepted[..k + 1] == m.dispatched;
  }

  /** When the loop has ended, the dispatched actions are the accepted ones cut just after the first FINALIZE. */
  lemma EndsAtFinalize(names: seq<Name>, run: seq<Happening>)
    requires CanRun(Idle(names), run) && After(Idle(names), run).finished
    ensures var m := After(Idle(names), run); m.dispatched == CutAfterFinalize(names, m.accepted)
  {
    RunsInOrder(Idle(names), run);
    CutWhenFinished(After(Idle(names), run));
  }

  /** A trigger is turned away exactly when the name is not registered, which its result tells, or when FINALIZE
      heads the queue, which it does not. */
  lemma TurnedAway(m: Machine, id: Name, arg: nat)
    ensures Triggered(m, id, arg).accepted == m.accepted <==> id !in m.names || m.FinalizeAtHead()
  {
    assert |(m.accepted + [Entry(0, arg)])| != |m.accepted|;
  }

  // ------------------------------------------------------------------------------------------
  // The manager in memory
  // ------------------------------------------------------------------------------------------

  /** One pending action. */
  class ListNode {
    const entry: Entry
    var next: ListNode?

    constructor (e: Entry)
      ensures entry == e && next == null
    { entry, next := e, null; }
  }

  /** The nodes of the list that starts at head, in order. */
  ghost predicate Linked(head: ListNode?, nodes: seq<ListNode>)
    reads nodes
  {
    && (head == if nodes == [] then null else nodes[0])
    && (nodes != [] ==> nodes[|nodes| - 1].next == null)
    && (forall i, k | 0 <= i && k == i + 1 < |nodes| :: nodes[i].next == nodes[k])
    && (forall i, k | 0 <= i < k < |nodes| :: nodes[i] != nodes[k])
  }

  lemma LinkedTail(head: ListNode, nodes: seq<ListNode>)
    requires Linked(head, nodes)
    ensures nodes != [] && nodes[0] == head && Linked(head.next, nodes[1..])
  {
    var rest := nodes[1..];
    assert |nodes| > 1 ==> nodes[0].next == nodes[1];
    forall i, k | 0 <= i && k == i + 1 < |rest| ensures rest[i].next == rest[k] {
      assert rest[i] == nodes[i + 1] && rest[k] == nodes[k + 1];
    }
    forall i, k | 0 <= i < k < |rest| ensures rest[i] != rest[k] {
      assert rest[i] == nodes[i + 1] && rest[k] == nodes[k + 1];
    }
  }

  ghost function Entries(nodes: seq<ListNode>): (r: seq<Entry>)
    ensures |r| == |nodes|
  { seq(|nodes|, i requires 0 <= i < |nodes| => nodes[i].entry) }

  /** The new action goes to the end of the list, found by walking down it. */
  method ListAdd(head: ListNode?, ghost nodes: seq<ListNode>, e: Entry)
    returns (first: ListNode, ghost all: seq<ListNode>)
    requires Linked(head, nodes)
    modifies nodes
    ensures |all| == |nodes| + 1 && all[..|nodes|] == nodes && fresh(all[|nodes|]) && all[|nodes|].entry == e
    ensures Linked(first, all)
    decreases |nodes|
  {
    if head == null {
      first := new ListNode(e);
      all := [first];
    } else {
      LinkedTail(head, nodes);
      ghost var rest;
      var tail: ListNode;
      tail, rest := ListAdd(head.next, nodes[1..], e);
      head.next := tail;
      first := head;
      all := [head] + rest;
      assert forall i | 0 < i < |nodes| :: all[i] == rest[i - 1] == nodes[i];
    }
  }

  class Manager {
    const action_rgs: array<Name>
    var registered_actions: nat
    var action_list: ListNode?
    var pending_actions: nat

    ghost var nodes: seq<ListNode>
    ghost var accepted: seq<Entry>
    ghost var dispatched: seq<Entry>
    ghost var finished: bool

    constructor ()
      ensures Valid() && fresh(action_rgs) && fresh(nodes) && View() == Idle([])
    {
      action_rgs := new Name[GW_ACTION_NUMBER](i => Finalize);
      registered_actions, action_list, pending_actions := 0, null, 0;
      nodes, accepted, dispatched, finished := [], [], [], false;
    }

    /** The pending counter is the length of the list. */
    ghost predicate Valid()
      reads this, nodes
    {
      && action_rgs.Length == GW_ACTION_NUMBER && registered_actions <= GW_ACTION_NUMBER
      && Linked(action_list, nodes) && pending_actions == |nodes|
    }

    function Names(): seq<Name>
      requires registered_actions <= action_rgs.Length
      reads this, action_rgs
    { action_rgs[..registered_actions] }

    ghost function View(): Machine
      requires Valid()
      reads this, nodes, action_rgs
    { Machine(Names(), Entries(nodes), accepted, dispatched, finished) }

    /** Zero, or -1 when the table is full. */
    method Register(id: Name) returns (rc: int)
      requires Valid()
      modifies `registered_actions, action_rgs
      ensures Valid() && rc == if old(registered_actions) >= GW_ACTION_NUMBER then -1 else 0
      ensures View() == old(View()).(names := if rc == 0 then old(Names()) + [id] else old(Names()))
    {
      if registered_actions >= GW_ACTION_NUMBER {
        return -1;
      }
      action_rgs[registered_actions] := id;
      registered_actions := registered_actions + 1;
      rc := 0;
      assert Names() == old(Names()) + [id];
    }

    /** The search stops at the last registered name; an empty table has none, and the search would run past the
        end of it. */
    method IsRegistered(id: Name) returns (idx: int)
      requires Valid() && registered_actions > 0
      ensures idx == IndexOf(Names(), id)
    {
      idx := 0;
      var found := false;
      while !found
        invariant 0 <= idx < registered_actions && id !in Names()[..idx]
        invariant found ==> action_rgs[idx] == id
        decreases !found, registered_actions - idx
      {
        if action_rgs[idx] == id {
          found := true;
        } else if idx == registered_actions - 1 {
          assert Names() == Names()[..idx] + [action_rgs[idx]];
          return -1;
        } else {
          assert Names()[..idx + 1] == Names()[..idx] + [action_rgs[idx]];
          idx := idx + 1;
        }
      }
      FirstIndex(Names(), id, idx);
    }

    method PostAction(e: Entry)
      requires Valid()
      modifies this`action_list, this`pending_actions, this`nodes, this`accepted, nodes
      ensures Valid() && fresh(set n | n in nodes && n !in old(nodes))
      ensures View() == old(View()).Accept(e)
    {
      ghost var all;
      action_list, all := ListAdd(action_list, nodes, e);
      assert Entries(all) == Entries(nodes) + [e];
      nodes := all;
      pending_actions := pending_actions + 1;
      accepted := accepted + [e];
    }

    method PopAction()
      requires Valid() && action_list != null
      modifies this`action_list, this`pending_actions, this`nodes
      ensures Valid() && nodes == old(nodes)[1..]
      ensures View() == old(View()).(queue := old(View()).queue[1..])
    {
      LinkedTail(action_list, nodes);
      action_list := action_list.next;
      pending_actions := pending_actions - 1;
      nodes := nodes[1..];
      assert Entries(nodes) == old(Entries(nodes))[1..];
    }

    /** Zero when the name is registered, even if FINALIZE heads the queue and the action is dropped. */
    method Trigger(id: Name, arg: nat) returns (rc: int)
      requires Valid() && registered_actions > 0
      modifies this`action_list, this`pending_actions, this`nodes, this`accepted, nodes
      ensures Valid() && fresh(set n | n in nodes && n !in old(nodes))
      ensures View() == Happens(old(View()), Triggers(id, arg))
      ensures rc == if id in Names() then 0 else -1
    {
      var idx := IsRegistered(id);
      if idx == -1 {
        return -1;
      }
      var finalize := IsRegistered(Finalize);
      rc := 0;
      if finalize != -1 && action_list != null {
        if action_list.entry.idx == finalize {
          return;
        }
      }
      PostAction(Entry(idx, arg));
    }

    /** The wait of an empty queue times out. */
    method TimeOut(arg: nat)
      requires Valid() && registered_actions > 0 && pending_actions == 0 && !finished
      modifies this`action_list, this`pending_actions, this`nodes, this`accepted, nodes
      ensures Valid() && fresh(set n | n in nodes && n !in old(nodes))
      ensures View() == Happens(old(View()), TimesOut(arg))
    {
      var idx := IsRegistered(Timer);
      if idx != -1 {
        PostAction(Entry(idx, arg));
      }
    }

    /** One round of the loop: the action to be handled, and whether it is the last. */
    method DispatchNext() returns (e: Entry, finalize: bool)
      requires Valid() && pending_actions > 0 && !finished && action_list.entry.idx < registered_actions
      modifies this`action_list, this`pending_actions, this`nodes, this`dispatched, this`finished
      ensures Valid() && nodes == old(nodes)[1..]
      ensures old(View()).queue != [] && e == old(View()).queue[0] && finalize == finished
      ensures View() == Happens(old(View()), Dispatches)
    {
      e := action_list.entry;
      var id := action_rgs[e.idx];
      PopAction();
      finalize := id == Finalize;
      dispatched := dispatched + [e];
      finished := finalize;
    }
  }

  method Do(m: Manager, h: Happening)
    requires m.Valid() && m.registered_actions > 0 && InOrder(m.View()) && CanHappen(m.View(), h)
    modifies m`action_list, m`pending_actions, m`nodes, m`accepted, m`dispatched, m`finished, m.nodes
    ensures m.Valid() && fresh(set n | n in m.nodes && n !in old(m.nodes))
    ensures m.View() == Happens(old(m.View()), h)
  {
    match h {
      case Triggers(id, arg) => var rc := m.Trigger(id, arg);
      case TimesOut(arg) => m.TimeOut(arg);
      case Dispatches =>
        assert m.View().accepted[|m.dispatched|] == m.View().queue[0];
        var e, finalize := m.DispatchNext();
    }
  }

  /** What other threads do and when the loop comes round is the script; the manager follows it, and nothing
      accepted is lost or reordered. */
  method Run(m: Manager, script: seq<Happening>)
    requires m.Valid() && m.registered_actions > 0 && InOrder(m.View()) && CanRun(m.View(), script)
    modifies m`action_list, m`pending_actions, m`nodes, m`accepted, m`dispatched, m`finished, m.nodes
    ensures m.Valid() && InOrder(m.View()) && m.View() == After(old(m.View()), script)
  {
    ghost var start := m.View();
    for i := 0 to |script|
      invariant m.Valid() && InOrder(m.View()) && fresh(set n | n in m.nodes && n !in old(m.nodes))
      invariant CanRun(m.View(), script[i..]) && After(m.View(), script[i..]) == After(start, script)
    {
      HappensInOrder(m.View(), script[i]);
      assert script[i..][1..] == script[i + 1..];
      Do(m, script[i]);
    }
  }

  // ------------------------------------------------------------------------------------------
  // The Dispatch Manager's table
  // ------------------------------------------------------------------------------------------

  /** The names gw_dm_init registers, in its order. */
  const DM_ACTIONS: seq<Name> := [
    Finalize, AllocateJob, AllocateArray,
    OfJob(Ask(SigHold)), OfJob(Ask(SigRelease)), OfJob(Ask(SigStop)), OfJob(Ask(SigResume)), OfJob(Ask(SigKill)),
    OfJob(Ask(SigKillHard)), OfJob(Ask(SigWait)), OfJob(Ask(SigReschedule)),
    OfJob(Report(PrologStage, true)), OfJob(Report(PrologStage, false)),
    OfJob(Report(EpilogStage, true)), OfJob(Report(EpilogStage, false)),
    OfJob(Report(WrapperStage, true)), OfJob(Report(WrapperStage, false)),
    OfJob(Go(Prolog)), OfJob(Go(MigrProlog)), OfJob(Go(PreWrapper)), OfJob(Go(Wrapper)),
    OfJob(Go(Epilog)), OfJob(Go(EpilogStd)), OfJob(Go(MigrEpilog)), OfJob(Go(StopEpilog)), OfJob(Go(KillEpilog)),
    OfJob(Go(EpilogFail)), OfJob(Go(EpilogRestart)), OfJob(Go(MigrCancel)),
    OfJob(Go(Pending)), OfJob(Go(Zombie)), OfJob(Go(Failed)), OfJob(Go(Stopped)), Timer]

  /** All of them fit in the table, and none is registered twice. */
  method InitDispatchManager() returns (m: Manager)
    ensures fresh(m) && m.Valid() && m.Names() == DM_ACTIONS
  {
    m := new Manager();
    for i := 0 to |DM_ACTIONS|
      invariant fresh(m) && fresh(m.action_rgs) && m.Valid() && m.View() == Idle(DM_ACTIONS[..i])
    {
      assert |m.View().names| == m.registered_actions == |DM_ACTIONS[..i]| == i;
      var rc := m.Register(DM_ACTIONS[i]);
      assert DM_ACTIONS[..i + 1] == DM_ACTIONS[..i] + [DM_ACTIONS[i]];
    }
    assert m.Names() == m.View().names == DM_ACTIONS[..|DM_ACTIONS|] == DM_ACTIONS;
  }

  /** The actions that carry a job id and have a handler. */
  predicate HasHandler(a: Action) {
    match a
    case Go(to) => !(to.Init? || to.Hold? || to.StopCancel? || to.KillCancel?)
    case _ => true
  }

  /** Where an action is in the table. */
  function PlaceOf(a: Action): nat
    requires HasHandler(a)
  {
    match a
    case Ask(SigHold) => 3 case Ask(SigRelease) => 4 case Ask(SigStop) => 5 case Ask(SigResume) => 6
    case Ask(SigKill) => 7 case Ask(SigKillHard) => 8 case Ask(SigWait) => 9 case Ask(SigReschedule) => 10
    case Report(PrologStage, done) => if done then 11 else 12
    case Report(EpilogStage, done) => if done then 13 else 14
    case Report(WrapperStage, done) => if done then 15 else 16
    case Go(Prolog) => 17 case Go(MigrProlog) => 18 case Go(PreWrapper) => 19 case Go(Wrapper) => 20
    case Go(Epilog) => 21 case Go(EpilogStd) => 22 case Go(MigrEpilog) => 23 case Go(StopEpilog) => 24
    case Go(KillEpilog) => 25 case Go(EpilogFail) => 26 case Go(EpilogRestart) => 27 case Go(MigrCancel) => 28
    case Go(Pending) => 29 case Go(Zombie) => 30 case Go(Failed) => 31 case Go(Stopped) => 32
  }

  lemma TableHolds(a: Action)
    ensures OfJob(a) in DM_ACTIONS <==> HasHandler(a)
  {
    if HasHandler(a) {
      assert DM_ACTIONS[PlaceOf(a)] == OfJob(a);
    }
  }

  /** No handler triggers an action of its own manager that is not registered: every cell sent to the queue
      is in the queue, unless FINALIZE heads it. */
  lemma HandlersTriggerRegistered(a: Action, j: Job, e: Env)
    ensures var d := React(a, j, e).dest; d.ToDm? ==> OfJob(d.act) in DM_ACTIONS
  {
    var d := React(a, j, e).dest;
    if d.ToDm? {
      TableHolds(d.act);
    }
  }

  lemma {:induction false} FirstIndex(names: seq<Name>, id: Name, k: nat)
    requires k < |names| && names[k] == id && id !in names[..k]
    ensures IndexOf(names, id) == k
  {
    if k > 0 {
      assert names[..k] == [names[0]] + names[1..][..k - 1];
      FirstIndex(names[1..], id, k - 1);
    }
  }
}
