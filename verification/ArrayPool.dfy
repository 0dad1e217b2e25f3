/** Task arrays and their pool as the source keeps them: tables filled in place, and slots found by a cyclic
    search. */
module ArrayPool {
  import opened Jobs
  import opened TaskTables

  class GwArray {
    const jobIds: array<int>
    var last: int
    var freed: int

    constructor (number_of_tasks: nat)
      ensures Table() == Fresh(number_of_tasks) && fresh(jobIds) && jobIds.Length == number_of_tasks
    {
      jobIds := new int[number_of_tasks];
      last, freed := -1, 0;
      new;
      for i := 0 to number_of_tasks
        invariant forall k | 0 <= k < i :: jobIds[k] == NO_JOB
        invariant last == -1 && freed == 0
        modifies jobIds
      {
        jobIds[i] := NO_JOB;
      }
    }

    function Table(): TaskTable
      reads this, jobIds
    { TaskTable(jobIds[..], last, freed) }

    /** The number of the new task, or -1. */
    method AddTask(job: int) returns (task: int)
      requires -1 <= last && last != jobIds.Length - 1
      modifies `last, jobIds
      ensures old(last) < jobIds.Length ==> task == old(last) + 1 && Table() == TaskTables.AddTask(old(Table()), job)
      ensures old(last) >= jobIds.Length ==> task == -1 && Table() == old(Table())
    {
      task := last;
      if task >= jobIds.Length {
        return -1;
      }
      task := task + 1;
      jobIds[task] := job;
      last := task;
    }

    /** The number of tasks that remain. */
    method DelTask(task: int) returns (remaining: int)
      modifies `freed, jobIds
      ensures Table() == TaskTables.DelTask(old(Table()), task) && remaining == Table().Remaining()
    {
      if 0 <= task < jobIds.Length {
        if jobIds[task] != NO_JOB {
          jobIds[task] := NO_JOB;
          freed := freed + 1;
        }
      }
      remaining := jobIds.Length - freed;
    }
  }

  /** The guard of gw_array_add_task lets a write through. */
  predicate GuardPasses(t: TaskTable) { !(t.last >= |t.jobIds|) }

  /** The guard is one task late: it admits a write outside the table exactly when the table is full. */
  lemma GuardIsLate(t: TaskTable)
    requires -1 <= t.last < |t.jobIds| || t.last == -1
    ensures GuardPasses(t) && !(t.last + 1 < |t.jobIds|) <==> t.last == |t.jobIds| - 1
  {
  }

  lemma CyclicStep(k: int, n: nat)
    requires n > 0 && -1 <= k < n
    ensures (k + 1) % n == if k + 1 < n then k + 1 else 0
  {
  }

  /** The cyclic search for a free slot: it finds the first one after last, and fails only on a full pool. */
  method FindFree<T>(pool: array<Option<T>>, last: int) returns (found: bool, id: nat)
    requires pool.Length > 0 && -1 <= last < pool.Length
    ensures found <==> exists k :: 0 <= k < pool.Length && pool[k].None?
    ensures found ==> IsNextFree(pool[..], last, id)
  {
    CyclicStep(last, pool.Length);
    id := (last + 1) % pool.Length;
    found := false;
    var tries := 0;
    while !found && tries < pool.Length
      invariant tries <= pool.Length
      invariant tries < pool.Length ==> id == CyclicSlot(last, tries, pool.Length)
      invariant found ==> tries < pool.Length && pool[id].None?
      invariant forall e: nat | e < tries :: pool[CyclicSlot(last, e, pool.Length)].Some?
      decreases !found, pool.Length - tries
    {
      found := pool[id].None?;
      if !found {
        CyclicStep(id, pool.Length);
        tries := tries + 1;
        id := (id + 1) % pool.Length;
      }
    }
    if !found {
      forall k | 0 <= k < pool.Length ensures pool[k].Some? {
        var d := CyclicCovers(last, k, pool.Length);
      }
    }
  }

  /** A job's place in an array. */
  datatype Place = Place(arrayId: int, taskId: int, totalTasks: int)

  const NO_PLACE := Place(-1, -1, 0)

  /** The job pool, as far as arrays see it. */
  class JobPool {
    const pool: array<Option<Place>>
    var number_of_jobs: int
    var last: int

    constructor (size: nat)
      ensures Valid() && fresh(pool) && pool.Length == size
    {
      pool := new Option<Place>[size](i => None);
      number_of_jobs, last := 0, -1;
      new;
      OccupiedBounds(pool[..]);
    }

    ghost predicate Valid()
      reads this, pool
    { -1 <= last < pool.Length && number_of_jobs == Occupied(pool[..]) }

    /** The id of a new job, or -1. */
    method Allocate() returns (id: int)
      requires Valid() && pool.Length > 0
      modifies this, pool
      ensures Valid()
      ensures id == -1 <==> old(number_of_jobs) == pool.Length
      ensures id == -1 ==> pool[..] == old(pool[..]) && number_of_jobs == old(number_of_jobs)
      ensures id != -1 ==>
        && 0 <= id && IsNextFree(old(pool[..]), old(last), id) && last == id
        && pool[..] == old(pool[..])[id := Some(NO_PLACE)] && number_of_jobs == old(number_of_jobs) + 1
    {
      OccupiedBounds(pool[..]);
      var found, slot := FindFree(pool, last);
      if !found {
        return -1;
      }
      OccupiedUpdate(pool[..], slot, Some(NO_PLACE));
      pool[slot] := Some(NO_PLACE);
      last := slot;
      number_of_jobs := number_of_jobs + 1;
      id := slot;
    }

    method SetPlace(id: nat, p: Place)
      requires Valid() && id < pool.Length && pool[id].Some?
      modifies pool
      ensures Valid() && pool[..] == old(pool[..])[id := Some(p)]
    {
      OccupiedUpdate(pool[..], id, Some(p));
      pool[id] := Some(p);
    }
  }

  /** Task k of the array is the k-th of the newly allocated jobs, and knows it; other jobs are untouched. */
  ghost predicate Numbered(before: seq<Option<Place>>, after: seq<Option<Place>>, ids: seq<int>, aid: nat, total: nat) {
    && |before| == |after|
    && (forall k | 0 <= k < |ids| ::
          0 <= ids[k] < |before| && before[ids[k]].None? && after[ids[k]] == Some(Place(aid, k, total)))
    && (forall i, k | 0 <= i < k < |ids| :: ids[i] != ids[k])
    && (forall i | 0 <= i < |before| && i !in ids :: after[i] == before[i])
  }

  lemma NumberNext(before: seq<Option<Place>>, mid: seq<Option<Place>>, ids: seq<int>, aid: nat, total: nat, id: int)
    requires Numbered(before, mid, ids, aid, total) && 0 <= id < |mid| && mid[id].None?
    ensures Numbered(before, mid[id := Some(Place(aid, |ids|, total))], ids + [id], aid, total)
  {
    assert id !in ids;
  }

  class Pool {
    const pool: array<Option<GwArray>>
    var number_of_arrays: int
    var last: int

    constructor (size: nat)
      ensures Valid() && fresh(pool) && pool.Length == size
    {
      pool := new Option<GwArray>[size](i => None);
      number_of_arrays, last := 0, -1;
      new;
      OccupiedBounds(pool[..]);
    }

    ghost predicate Valid()
      reads this, pool
    { -1 <= last < pool.Length && number_of_arrays == Occupied(pool[..]) }

    ghost function Fields(a: GwArray): set<object> { {a, a.jobIds} }

    method Free(aid: int)
      requires Valid()
      modifies `number_of_arrays, pool
      ensures Valid()
      ensures pool[..] == if 0 <= aid < pool.Length then old(pool[..])[aid := None] else old(pool[..])
    {
      if 0 <= aid < pool.Length {
        if pool[aid].Some? {
          OccupiedUpdate(pool[..], aid, None);
          number_of_arrays := number_of_arrays - 1;
          pool[aid] := None;
        }
      }
    }

    method GetArray(aid: int) returns (a: Option<GwArray>)
      ensures a == if 0 <= aid < pool.Length then pool[aid] else None
    {
      a := if 0 <= aid < pool.Length then pool[aid] else None;
    }

    /** The task of a job that is freed leaves its array, and the array goes with its last task. */
    method RemoveTask(aid: int, task: int)
      requires Valid()
      modifies `number_of_arrays, pool
      modifies if 0 <= aid < pool.Length && pool[aid].Some? then Fields(pool[aid].value) else {}
      ensures Valid()
      ensures 0 <= aid < pool.Length && old(pool[aid]).Some? ==>
        && old(pool[aid]).value.Table() == TaskTables.DelTask(old(pool[aid].value.Table()), task)
        && var left := old(pool[aid]).value.Table().Remaining();
           pool[..] == old(pool[..])[aid := if left == 0 then None else old(pool[aid])]
      ensures !(0 <= aid < pool.Length && old(pool[aid]).Some?) ==> pool[..] == old(pool[..])
    {
      var found := GetArray(aid);
      if found.Some? {
        var remaining := found.value.DelTask(task);
        if remaining == 0 {
          Free(aid);
        }
      }
    }

    /** Zero and the id of a new array of new jobs, or -1 when the jobs or the arrays do not fit. */
    method Allocate(jobs: JobPool, number_of_tasks: nat) returns (rc: int, aid: nat)
      requires Valid() && jobs.Valid() && pool.Length > 0 && jobs.pool.Length > 0
      modifies this, pool, jobs, jobs.pool
      ensures Valid() && jobs.Valid()
      ensures rc == 0 <==>
        && number_of_tasks + old(jobs.number_of_jobs) <= jobs.pool.Length
        && exists k | 0 <= k < pool.Length :: old(pool[k]).None?
      ensures rc != 0 ==>
        && rc == -1 && pool[..] == old(pool[..]) && number_of_arrays == old(number_of_arrays) && last == old(last)
        && jobs.pool[..] == old(jobs.pool[..]) && jobs.number_of_jobs == old(jobs.number_of_jobs)
      ensures rc == 0 ==>
        && IsNextFree(old(pool[..]), old(last), aid) && last == aid && number_of_arrays == old(number_of_arrays) + 1
        && pool[aid].Some? && fresh(pool[aid].value) && pool[..] == old(pool[..])[aid := pool[aid]]
        && jobs.number_of_jobs == old(jobs.number_of_jobs) + number_of_tasks
        && var t := pool[aid].value.Table();
           && |t.jobIds| == number_of_tasks && t.last == number_of_tasks - 1 && t.freed == 0
           && Numbered(old(jobs.pool[..]), jobs.pool[..], t.jobIds, aid, number_of_tasks)
    {
      if number_of_tasks + jobs.number_of_jobs > jobs.pool.Length {
        return -1, 0;
      }
      var found, slot := FindFree(pool, last);
      if !found {
        return -1, 0;
      }
      aid, last := slot, slot;
      var a := new GwArray(number_of_tasks);
      OccupiedUpdate(pool[..], aid, Some(a));
      pool[aid] := Some(a);
      number_of_arrays := number_of_arrays + 1;
      FillArray(jobs, a, aid, number_of_tasks);
      rc := 0;
    }

    /** One more job for the array. */
    method AddJob(jobs: JobPool, a: GwArray, aid: nat, total: nat) returns (id: nat)
      requires jobs.Valid() && jobs.number_of_jobs < jobs.pool.Length && -1 <= a.last < a.jobIds.Length - 1
      modifies jobs, jobs.pool, a`last, a.jobIds
      ensures jobs.Valid() && jobs.number_of_jobs == old(jobs.number_of_jobs) + 1
      ensures a.last == old(a.last) + 1 && a.jobIds[..] == old(a.jobIds[..])[a.last := id]
      ensures id < jobs.pool.Length && old(jobs.pool[id]).None?
      ensures jobs.pool[..] == old(jobs.pool[..])[id := Some(Place(aid, a.last, total))]
    {
      var jid := jobs.Allocate();
      var task := a.AddTask(jid);
      jobs.SetPlace(jid, Place(aid, task, total));
      id := jid;
    }

    /** The capacity check makes every allocation succeed. */
    method FillArray(jobs: JobPool, a: GwArray, aid: nat, number_of_tasks: nat)
      requires jobs.Valid() && a.Table() == Fresh(number_of_tasks) && a.jobIds.Length == number_of_tasks
      requires number_of_tasks + jobs.number_of_jobs <= jobs.pool.Length
      modifies jobs, jobs.pool, a, a.jobIds
      ensures jobs.Valid() && jobs.number_of_jobs == old(jobs.number_of_jobs) + number_of_tasks
      ensures a.last == number_of_tasks - 1 && a.freed == 0
      ensures Numbered(old(jobs.pool[..]), jobs.pool[..], a.jobIds[..], aid, number_of_tasks)
    {
      ghost var before := jobs.pool[..];
      for i := 0 to number_of_tasks
        invariant jobs.Valid() && jobs.number_of_jobs == old(jobs.number_of_jobs) + i
        invariant a.last == i - 1 && a.freed == 0
        invariant Numbered(before, jobs.pool[..], a.jobIds[..i], aid, number_of_tasks)
      {
        ghost var mid, ids := jobs.pool[..], a.jobIds[..i];
        var id := AddJob(jobs, a, aid, number_of_tasks);
        NumberNext(before, mid, ids, aid, number_of_tasks, id);
        assert a.jobIds[..i + 1] == ids + [id];
      }
      assert a.jobIds[..number_of_tasks] == a.jobIds[..];
    }
  }
}
