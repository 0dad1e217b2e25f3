/** The array pool's allocation is the step that creates an array: what the pool's method does to its slots and to the
    job pool is what the step system does. */
module Allocation {
  import opened Jobs
  import opened Reactions
  import opened TaskTables
  import opened LifeCycle
  import opened Steps
  import opened ArrayPool

  /** The pool has a place for exactly the live jobs, and it names their array and task. */
  ghost predicate Places(pool: seq<Option<Place>>, s: Sys) {
    && |pool| == |s.jobs|
    && forall i | 0 <= i < |pool| ::
         if s.jobs[i].None? then pool[i].None?
         else pool[i].Some? && pool[i].value.arrayId == s.jobs[i].value.arrayId
              && pool[i].value.taskId == s.jobs[i].value.taskId
  }

  /** The same slots are taken. */
  ghost predicate SameSlots<T, U>(pool: seq<Option<T>>, arrays: seq<Option<U>>) {
    |pool| == |arrays| && forall k | 0 <= k < |pool| :: pool[k].None? <==> arrays[k].None?
  }

  /** The search for a free slot looks at nothing but which slots are taken. */
  lemma SameNextFree<T, U>(pool: seq<Option<T>>, arrays: seq<Option<U>>, last: int, id: nat)
    requires SameSlots(pool, arrays) && pool != [] && -1 <= last < |pool|
    ensures IsNextFree(pool, last, id) <==> IsNextFree(arrays, last, id)
  {
  }

  /** Nothing is in flight for the ids. */
  ghost predicate Untouched(s: Sys, ids: seq<nat>) {
    forall k | 0 <= k < |ids| :: TokensOf(s.queue, ids[k]) == [] && ids[k] !in s.em && ids[k] !in s.tm
  }

  /** Jobs numbered by the pool, in a slot found by the pool, are the tasks of the array that the step creates. */
  lemma AllocationIsNewArray<T>(s: Sys, slots: seq<Option<T>>, before: seq<Option<Place>>, after: seq<Option<Place>>,
                                aid: nat, ids: seq<nat>, init: Job)
    requires Places(before, s) && SameSlots(slots, s.arrays) && slots != [] && -1 <= s.lastArray < |slots|
    requires IsNextFree(slots, s.lastArray, aid) && Numbered(before, after, ids, aid, |ids|)
    requires NewbornOk(s, init) && Untouched(s, ids)
    ensures Enabled(s, NewArray(aid, ids, init))
    ensures var t := Next(s, NewArray(aid, ids, init));
      Places(after, t) && t.arrays == s.arrays[aid := Some(TaskTable(ids, |ids| - 1, 0))] && t.lastArray == aid
  {
    SameNextFree(slots, s.arrays, s.lastArray, aid);
    forall i | 0 <= i < |ids| ensures Vacant(s, ids[i]) {
      assert before[ids[i]].None?;
    }
    Enrolled(s.jobs, ids, aid, init);
    var t := Next(s, NewArray(aid, ids, init));
    forall i: nat | i < |after|
      ensures if t.jobs[i].None? then after[i].None?
              else after[i].Some? && after[i].value.arrayId == t.jobs[i].value.arrayId
                   && after[i].value.taskId == t.jobs[i].value.taskId
    {
      if i in ids {
        var k :| 0 <= k < |ids| && ids[k] == i;
        assert after[i] == Some(Place(aid, k, |ids|));
      } else {
        assert after[i] == before[i];
      }
    }
  }

  /** Nothing is in flight for any free id. */
  ghost predicate NothingLeft(s: Sys) {
    forall id: nat | id < |s.jobs| && s.jobs[id].None? :: TokensOf(s.queue, id) == [] && id !in s.em && id !in s.tm
  }

  /** The pools have the slots and the jobs of the state. */
  ghost predicate Mirrors(pool: Pool, jobs: JobPool, s: Sys)
    reads pool, pool.pool, jobs.pool
  {
    Places(jobs.pool[..], s) && SameSlots(pool.pool[..], s.arrays) && s.lastArray == pool.last
  }

  /** An array is allocated: the pools go from mirroring the state to mirroring the next one. */
  method AllocateArray(pool: Pool, jobs: JobPool, number_of_tasks: nat, ghost s: Sys, ghost init: Job)
    returns (rc: int, aid: nat, ghost ids: seq<nat>)
    requires pool.Valid() && jobs.Valid() && pool.pool.Length > 0 && jobs.pool.Length > 0
    requires Mirrors(pool, jobs, s) && NewbornOk(s, init) && NothingLeft(s)
    modifies pool, pool.pool, jobs, jobs.pool
    ensures pool.Valid() && jobs.Valid()
    ensures rc == 0 ==> |ids| == number_of_tasks && Enabled(s, NewArray(aid, ids, init))
    ensures Mirrors(pool, jobs, if rc == 0 then Next(s, NewArray(aid, ids, init)) else s)
  {
    ghost var slots, before := pool.pool[..], jobs.pool[..];
    rc, aid := pool.Allocate(jobs, number_of_tasks);
    ids := [];
    if rc == 0 {
      ghost var listed := pool.pool[aid].value.Table().jobIds;
      ids := seq(number_of_tasks, k requires 0 <= k < number_of_tasks && listed[k] >= 0 => listed[k]);
      assert listed == ids;
      AllocationIsNewArray(s, slots, before, jobs.pool[..], aid, ids, init);
    }
  }
}
