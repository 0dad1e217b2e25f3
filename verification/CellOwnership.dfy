/** The heap cells that carry job ids through the queue: in every run, clean or not, each cell ever allocated is in
    exactly one place, or was freed exactly once. */
module CellOwnership {
  import opened Jobs
  import opened Reactions
  import opened Tokens
  import opened TaskTables
  import opened LifeCycle

  function QueueCells(q: seq<Item>): multiset<nat> {
    if q == [] then multiset{} else multiset{q[0].cell} + QueueCells(q[1..])
  }

  lemma {:induction false} CellJoins(q: seq<Item>, it: Item)
    ensures QueueCells(q + [it]) == QueueCells(q) + multiset{it.cell}
  {
    if q == [] {
      assert q + [it] == [it] && [it][1..] == [];
    } else {
      assert (q + [it])[1..] == q[1..] + [it];
      CellJoins(q[1..], it);
    }
  }

  /** With one of the other managers, or freed. */
  function Held(c: Cells): multiset<nat> { c.em + c.tm + c.rm + c.freed }

  /** Every place a cell can be: the queue, one of the other managers, or freed. */
  function Owned(s: Sys): multiset<nat> { QueueCells(s.queue) + Held(s.cells) }

  /** Each cell allocated so far is in one place, once. */
  ghost predicate OneOwner(s: Sys) {
    forall c: nat :: Owned(s)[c] == if c < s.cells.next then 1 else 0
  }

  /** Nothing is gained or lost, except that the next cell may have been allocated. */
  ghost predicate Grown(s: Sys, t: Sys) {
    || (Owned(t) == Owned(s) && t.cells.next == s.cells.next)
    || (Owned(t) == Owned(s) + multiset{s.cells.next} && t.cells.next == s.cells.next + 1)
  }

  lemma HeldMore(c: Cells, cell: nat)
    ensures Held(c.(em := c.em + multiset{cell})) == Held(c) + multiset{cell}
    ensures Held(c.(tm := c.tm + multiset{cell})) == Held(c) + multiset{cell}
    ensures Held(c.(rm := c.rm + multiset{cell})) == Held(c) + multiset{cell}
    ensures Held(c.(freed := c.freed + multiset{cell})) == Held(c) + multiset{cell}
  {
  }

  /** A handler passes the cell of its action on to exactly one place, or frees it. */
  lemma DeliverOwns(s: Sys, it: Item, from: State, d: Dest)
    ensures Owned(Deliver(s, it, from, d)) == Owned(s) + multiset{it.cell}
    ensures Deliver(s, it, from, d).cells.next == s.cells.next
  {
    var t := Deliver(s, it, from, d);
    if d.ToDm? {
      CellJoins(s.queue, Item(d.act, it.job, it.cell, from));
      assert t.cells == s.cells;
    } else {
      HeldMore(s.cells, it.cell);
    }
  }

  lemma HandleOwns(s: Sys, e: Env)
    requires s.queue != []
    ensures Owned(Next(s, Handle(e))) == Owned(s) && Next(s, Handle(e)).cells.next == s.cells.next
  {
    var it := s.queue[0];
    var p := Popped(s);
    if s.Alive(it.job) {
      var j := s.jobs[it.job].value;
      var r := React(it.act, j, e);
      DeliverOwns(Settle(p, it, j, r, e), it, j.state, r.dest);
      assert Owned(Settle(p, it, j, r, e)) == Owned(p);
    } else {
      DeliverOwns(p, it, Init, NoJob(it.act));
    }
  }

  lemma NewCell(s: Sys, a: Action, id: nat, from: State)
    ensures Owned(Enqueue(s, a, id, from)) == Owned(s) + multiset{s.cells.next}
  {
    CellJoins(s.queue, Item(a, id, s.cells.next, from));
  }

  /** An answer in the cell of its request moves that cell from the manager to the queue. */
  lemma OldCell(s: Sys, it: Item, cells: Cells)
    requires Held(cells) + multiset{it.cell} == Held(s.cells)
    ensures Owned(s.(queue := s.queue + [it], cells := cells)) == Owned(s)
  {
    CellJoins(s.queue, it);
  }

  lemma EmAnswerOwns(s: Sys, id: nat, done: bool, c: Option<nat>)
    requires Enabled(s, EmAnswers(id, done, c))
    ensures Grown(s, Next(s, EmAnswers(id, done, c)))
  {
    var t := Next(s, EmAnswers(id, done, c));
    var it := t.queue[|s.queue|];
    if c.Some? {
      OldCell(s, it, s.cells.(em := s.cells.em - multiset{c.value}));
    } else {
      NewCell(s, it.act, id, it.from);
    }
  }

  lemma TmAnswerOwns(s: Sys, id: nat, x: Xfer, done: bool, c: Option<nat>)
    requires Enabled(s, TmAnswers(id, x, done, c))
    ensures Grown(s, Next(s, TmAnswers(id, x, done, c)))
  {
    var t := Next(s, TmAnswers(id, x, done, c));
    var it := t.queue[|s.queue|];
    if c.Some? {
      OldCell(s, it, s.cells.(tm := s.cells.tm - multiset{c.value}));
    } else {
      NewCell(s, it.act, id, it.from);
    }
  }

  lemma QueueOwns(s: Sys, t: Sys, it: Item)
    requires it.cell == s.cells.next && t.queue == s.queue + [it] && t.cells == s.cells.(next := s.cells.next + 1)
    ensures Grown(s, t)
  {
    CellJoins(s.queue, it);
    assert Held(t.cells) == Held(s.cells);
  }

  lemma DispatchOwns(s: Sys, id: nat, host: nat, wrapperBased: bool, add: AddResult)
    ensures Grown(s, Assign(s, id, host, wrapperBased, add))
  {
    var t := Assign(s, id, host, wrapperBased, add);
    if t.queue != s.queue {
      QueueOwns(s, t, t.queue[|s.queue|]);
    }
  }

  lemma StepGrows(s: Sys, ev: Event)
    requires Enabled(s, ev)
    ensures Grown(s, Next(s, ev))
  {
    match ev
    case Handle(e) => HandleOwns(s, e);
    case EmAnswers(id, done, c) => EmAnswerOwns(s, id, done, c);
    case TmAnswers(id, x, done, c) => TmAnswerOwns(s, id, x, done, c);
    case Dispatch(id, host, wrapperBased, add) => DispatchOwns(s, id, host, wrapperBased, add);
    case Post(sig, id) => NewCell(s, Ask(sig), id, Init);
    case _ =>
  }

  /** Over any run, every job-id cell ever allocated is in exactly one queue, handed to exactly one manager, or
      freed exactly once: no cell is freed twice, used after it was freed, or forgotten. */
  lemma {:induction false} EveryCellHasOneOwner(s: Sys, run: seq<Event>)
    requires CanRun(s, run) && OneOwner(s)
    ensures OneOwner(After(s, run))
    decreases |run|
  {
    if run != [] {
      StepGrows(s, run[0]);
      EveryCellHasOneOwner(Next(s, run[0]), run[1..]);
    }
  }

  lemma StartOwns(jobs: nat, hosts: nat, users: nat, arrays: nat)
    ensures OneOwner(Start(jobs, hosts, users, arrays))
  {
  }

  /** No cell in the queue has been freed, and no two queued actions share a cell. */
  lemma QueuedCellsAlive(s: Sys, k: nat, i: nat)
    requires OneOwner(s) && k < i < |s.queue|
    ensures s.queue[k].cell != s.queue[i].cell && s.queue[k].cell !in s.cells.freed
  {
    CellsAt(s.queue, k, i);
    assert QueueCells(s.queue)[s.queue[k].cell] <= Owned(s)[s.queue[k].cell] <= 1;
  }

  lemma QueuedCellAlive(s: Sys, k: nat)
    requires OneOwner(s) && k < |s.queue|
    ensures s.queue[k].cell !in s.cells.freed && s.queue[k].cell < s.cells.next
  {
    CellIn(s.queue, k);
    assert QueueCells(s.queue)[s.queue[k].cell] <= Owned(s)[s.queue[k].cell] <= 1;
  }

  /** In every state that a run of an idle manager reaches, clean or not: every cell has one owner, and the queued
      cells are allocated, different and not freed. */
  lemma ReachableCells(jobs: nat, hosts: nat, users: nat, arrays: nat, run: seq<Event>)
    requires CanRun(Start(jobs, hosts, users, arrays), run)
    ensures var t := After(Start(jobs, hosts, users, arrays), run);
      && OneOwner(t)
      && (forall k | 0 <= k < |t.queue| :: t.queue[k].cell < t.cells.next && t.queue[k].cell !in t.cells.freed)
      && forall k, i | 0 <= k < i < |t.queue| :: t.queue[k].cell != t.queue[i].cell
  {
    var s := Start(jobs, hosts, users, arrays);
    StartOwns(jobs, hosts, users, arrays);
    EveryCellHasOneOwner(s, run);
    var t := After(s, run);
    forall k | 0 <= k < |t.queue| ensures t.queue[k].cell < t.cells.next && t.queue[k].cell !in t.cells.freed {
      QueuedCellAlive(t, k);
    }
    forall k, i | 0 <= k < i < |t.queue| ensures t.queue[k].cell != t.queue[i].cell {
      QueuedCellsAlive(t, k, i);
    }
  }

  lemma {:induction false} CellsAt(q: seq<Item>, k: nat, i: nat)
    requires k < i < |q|
    ensures q[k].cell in QueueCells(q) && q[i].cell in QueueCells(q)
    ensures q[k].cell == q[i].cell ==> QueueCells(q)[q[k].cell] >= 2
  {
    if k > 0 {
      CellsAt(q[1..], k - 1, i - 1);
    } else {
      CellIn(q[1..], i - 1);
    }
  }

  lemma {:induction false} CellIn(q: seq<Item>, k: nat)
    requires k < |q|
    ensures q[k].cell in QueueCells(q)
  {
    if k > 0 {
      CellIn(q[1..], k - 1);
    }
  }
}
