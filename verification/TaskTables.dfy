/** Task tables of job arrays: which job runs each task, and the cyclic search for a free slot. */
module TaskTables {
  import opened Jobs

  const NO_JOB := -1

  /** job_ids, last_task_id and freed_tasks of an array. */
  datatype TaskTable = TaskTable(jobIds: seq<int>, last: int, freed: int)
  {
    function Remaining(): int { |jobIds| - freed }
  }

  function Fresh(n: nat): TaskTable {
    TaskTable(seq(n, i => NO_JOB), -1, 0)
  }

  /** The next task gets the job. The source refuses only when last is already past the table, see
      GuardIsLate. */
  function AddTask(t: TaskTable, job: int): TaskTable
    requires -1 <= t.last < |t.jobIds| - 1
  {
    t.(jobIds := t.jobIds[t.last + 1 := job], last := t.last + 1)
  }

  /** Deleting an entry counts it once: a task that is out of range or already deleted changes nothing. */
  function DelTask(t: TaskTable, task: int): TaskTable {
    if 0 <= task < |t.jobIds| && t.jobIds[task] != NO_JOB then
      t.(jobIds := t.jobIds[task := NO_JOB], freed := t.freed + 1)
    else t
  }

  /** How many entries of a table hold a job. */
  function Live(jobIds: seq<int>): nat {
    if jobIds == [] then 0 else Live(jobIds[..|jobIds| - 1]) + if jobIds[|jobIds| - 1] != NO_JOB then 1 else 0
  }

  lemma {:induction false} LiveUpdate(s: seq<int>, k: nat, v: int)
    requires k < |s|
    ensures Live(s[k := v]) ==
            Live(s) + (if v != NO_JOB then 1 else 0) - (if s[k] != NO_JOB then 1 else 0)
  {
    var n := |s| - 1;
    if k == n {
      assert s[k := v][..n] == s[..n];
    } else {
      assert s[k := v][..n] == s[..n][k := v];
      LiveUpdate(s[..n], k, v);
    }
  }

  lemma {:induction false} LiveNone(s: seq<int>)
    ensures Live(s) == 0 <==> forall k | 0 <= k < |s| :: s[k] == NO_JOB
    ensures Live(s) <= |s|
    ensures Live(s) == |s| <==> forall k | 0 <= k < |s| :: s[k] != NO_JOB
  {
    if s != [] {
      LiveNone(s[..|s| - 1]);
      assert forall k | 0 <= k < |s| - 1 :: s[..|s| - 1][k] == s[k];
    }
  }

  /** freed_tasks and the table agree: the remaining tasks are the live entries. */
  predicate Counts(t: TaskTable) { t.Remaining() == Live(t.jobIds) }

  /** Remaining tasks equal the live entries after every delete, repeated deletes included, and the delete that
      reports zero remaining is the one after which no entry is live. */
  lemma DelTaskCounts(t: TaskTable, task: int)
    requires Counts(t)
    ensures Counts(DelTask(t, task)) && DelTask(DelTask(t, task), task) == DelTask(t, task)
    ensures DelTask(t, task).Remaining() == 0 <==>
            forall k | 0 <= k < |t.jobIds| :: k == task || t.jobIds[k] == NO_JOB
  {
    var u := DelTask(t, task);
    if u != t {
      LiveUpdate(t.jobIds, task, NO_JOB);
    }
    LiveNone(u.jobIds);
    if forall k | 0 <= k < |t.jobIds| :: k == task || t.jobIds[k] == NO_JOB {
      assert forall k | 0 <= k < |t.jobIds| :: u.jobIds[k] == NO_JOB;
    } else {
      var k :| 0 <= k < |t.jobIds| && k != task && t.jobIds[k] != NO_JOB;
      assert u.jobIds[k] != NO_JOB;
    }
  }

  // ------------------------------------------------------------------------------------------
  // Slots
  // ------------------------------------------------------------------------------------------

  /** How many slots of a pool are taken. */
  function Occupied<T>(pool: seq<Option<T>>): nat {
    if pool == [] then 0 else Occupied(pool[..|pool| - 1]) + if pool[|pool| - 1].Some? then 1 else 0
  }

  lemma {:induction false} OccupiedUpdate<T>(pool: seq<Option<T>>, k: nat, v: Option<T>)
    requires k < |pool|
    ensures Occupied(pool[k := v]) == Occupied(pool) + (if v.Some? then 1 else 0) - (if pool[k].Some? then 1 else 0)
  {
    var n := |pool| - 1;
    if k == n {
      assert pool[k := v][..n] == pool[..n];
    } else {
      assert pool[k := v][..n] == pool[..n][k := v];
      OccupiedUpdate(pool[..n], k, v);
    }
  }

  lemma {:induction false} OccupiedBounds<T>(pool: seq<Option<T>>)
    ensures Occupied(pool) <= |pool|
    ensures Occupied(pool) == |pool| <==> forall k | 0 <= k < |pool| :: pool[k].Some?
    ensures Occupied(pool) == 0 <==> forall k | 0 <= k < |pool| :: pool[k].None?
  {
    if pool != [] {
      OccupiedBounds(pool[..|pool| - 1]);
      assert forall k | 0 <= k < |pool| - 1 :: pool[..|pool| - 1][k] == pool[k];
    }
  }

  // ------------------------------------------------------------------------------------------
  // Cyclic search
  // ------------------------------------------------------------------------------------------

  /** The slot d + 1 steps after last in cyclic order. */
  function CyclicSlot(last: int, d: nat, n: nat): (k: nat)
    requires -1 <= last < n && d < n
    ensures k < n
  {
    if last + 1 + d < n then last + 1 + d else last + 1 + d - n
  }

  /** Slot k is the first free one after last in cyclic order. */
  ghost predicate IsNextFree<T>(pool: seq<Option<T>>, last: int, k: nat)
    requires -1 <= last < |pool|
  {
    && k < |pool| && pool[k].None?
    && exists d: nat ::
         && d < |pool| && k == CyclicSlot(last, d, |pool|)
         && forall e: nat | e < d :: pool[CyclicSlot(last, e, |pool|)].Some?
  }

  /** The search has one answer, and it has one unless every slot is taken. */
  lemma NextFreeUnique<T>(pool: seq<Option<T>>, last: int, k: nat, k': nat)
    requires -1 <= last < |pool| && IsNextFree(pool, last, k) && IsNextFree(pool, last, k')
    ensures k == k'
  {
    var d: nat :| d < |pool| && k == CyclicSlot(last, d, |pool|)
                  && forall e: nat | e < d :: pool[CyclicSlot(last, e, |pool|)].Some?;
    var d': nat :| d' < |pool| && k' == CyclicSlot(last, d', |pool|)
                  && forall e: nat | e < d' :: pool[CyclicSlot(last, e, |pool|)].Some?;
    assert d <= d' && d' <= d;
  }

  /** Every slot is some number of steps away. */
  lemma CyclicCovers(last: int, k: nat, n: nat) returns (d: nat)
    requires -1 <= last < n && k < n
    ensures d < n && CyclicSlot(last, d, n) == k
  {
    d := if k >= last + 1 then k - last - 1 else k + n - last - 1;
  }
}
