/** Job arrays over runs: the task tables always agree with the jobs, and the kill and zombie handlers dismantle
    them exactly. */
module ArrayTables {
  import opened Jobs
  import opened Reactions
  import opened Tokens
  import opened TaskTables
  import opened LifeCycle
  import opened Conservation
  import opened Steps

  /** Job id is the live job that carries array id aid and task id k. */
  ghost predicate IsTask(s: Sys, id: int, aid: int, k: int) {
    id >= 0 && s.Alive(id) && s.jobs[id].value.arrayId == aid && s.jobs[id].value.taskId == k
  }

  /** The array's entries are exactly its live jobs, it counts them, and it has at least one left unless it never
      had a task. */
  ghost predicate TableOk(s: Sys, aid: nat, t: TaskTable) {
    && Counts(t) && t.last == |t.jobIds| - 1 && (t.Remaining() > 0 || t.jobIds == [])
    && forall k | 0 <= k < |t.jobIds| :: t.jobIds[k] != NO_JOB ==> IsTask(s, t.jobIds[k], aid, k)
  }

  /** A live array job is listed in a live array. */
  ghost predicate Listed(s: Sys, id: nat)
    requires s.Alive(id)
  {
    var j := s.jobs[id].value;
    j.arrayId != -1 ==>
      && 0 <= j.arrayId < |s.arrays| && s.arrays[j.arrayId].Some?
      && 0 <= j.taskId < |s.arrays[j.arrayId].value.jobIds|
      && s.arrays[j.arrayId].value.jobIds[j.taskId] == id
  }

  ghost predicate TablesAgree(s: Sys) {
    && s.arrayCount == Occupied(s.arrays) && -1 <= s.lastArray < |s.arrays|
    && (forall aid: nat | aid < |s.arrays| && s.arrays[aid].Some? :: TableOk(s, aid, s.arrays[aid].value))
    && forall id: nat | s.Alive(id) :: Listed(s, id)
  }

  /** job_ids[k] of a live array is j exactly when job j is live with that array id and task id; the array's slot is
      taken exactly as long as one of its jobs lives. */
  lemma TablesMean(s: Sys, aid: nat, k: nat, id: nat)
    requires TablesAgree(s) && aid < |s.arrays| && s.arrays[aid].Some? && k < |s.arrays[aid].value.jobIds|
    ensures s.arrays[aid].value.jobIds[k] == id <==> IsTask(s, id, aid, k)
    ensures exists j: nat, i: nat :: IsTask(s, j, aid, i)
  {
    var t := s.arrays[aid].value;
    LiveNone(t.jobIds);
    var i :| 0 <= i < |t.jobIds| && t.jobIds[i] != NO_JOB;
    assert IsTask(s, t.jobIds[i], aid, i);
  }

  // ------------------------------------------------------------------------------------------
  // Steps
  // ------------------------------------------------------------------------------------------

  /** Jobs keep their lives and their places in arrays. */
  ghost predicate SamePlaces(s: Sys, t: Sys) {
    && |t.jobs| == |s.jobs| && t.arrays == s.arrays && t.arrayCount == s.arrayCount && t.lastArray == s.lastArray
    && forall id: nat | id < |s.jobs| ::
         && (t.Alive(id) <==> s.Alive(id))
         && (s.Alive(id) ==> t.jobs[id].value.arrayId == s.jobs[id].value.arrayId
                             && t.jobs[id].value.taskId == s.jobs[id].value.taskId)
  }

  lemma PlacesKept(s: Sys, t: Sys)
    requires TablesAgree(s) && SamePlaces(s, t)
    ensures TablesAgree(t)
  {
    forall aid: nat | aid < |t.arrays| && t.arrays[aid].Some? ensures TableOk(t, aid, t.arrays[aid].value) {
      assert TableOk(s, aid, s.arrays[aid].value);
    }
    forall id: nat | t.Alive(id) ensures Listed(t, id) {
      assert Listed(s, id);
    }
  }

  /** Freeing a job removes its entry, and frees the array's slot with the last one. */
  lemma FreeingAgrees(s: Sys, t: Sys, id: nat)
    requires TablesAgree(s) && s.Alive(id)
    requires t.jobs == s.jobs[id := None] && t.lastArray == s.lastArray
    requires var j := s.jobs[id].value;
      (t.arrays, t.arrayCount) == FreeTask(s.arrays, s.arrayCount, j.arrayId, j.taskId)
    ensures TablesAgree(t)
  {
    var j := s.jobs[id].value;
    assert Listed(s, id);
    if j.arrayId == -1 {
      NoTaskGone(s, t, id);
    } else {
      TaskGone(s, t, id);
    }
  }

  lemma NoTaskGone(s: Sys, t: Sys, id: nat)
    requires TablesAgree(s) && s.Alive(id) && s.jobs[id].value.arrayId == -1
    requires t.jobs == s.jobs[id := None] && t.arrays == s.arrays
    requires t.arrayCount == s.arrayCount && t.lastArray == s.lastArray
    ensures TablesAgree(t)
  {
    forall aid: nat | aid < |t.arrays| && t.arrays[aid].Some? ensures TableOk(t, aid, t.arrays[aid].value) {
      assert TableOk(s, aid, s.arrays[aid].value);
    }
    forall i: nat | t.Alive(i) ensures Listed(t, i) {
      assert Listed(s, i);
    }
  }

  /** No other job is in the freed job's place. */
  lemma OthersElsewhere(s: Sys, id: nat, i: nat)
    requires TablesAgree(s) && s.Alive(id) && s.Alive(i) && i != id && s.jobs[id].value.arrayId != -1
    ensures s.jobs[i].value.arrayId != s.jobs[id].value.arrayId || s.jobs[i].value.taskId != s.jobs[id].value.taskId
  {
    assert Listed(s, id) && Listed(s, i);
  }

  lemma TaskGone(s: Sys, t: Sys, id: nat)
    requires TablesAgree(s) && s.Alive(id) && s.jobs[id].value.arrayId != -1
    requires t.jobs == s.jobs[id := None] && t.lastArray == s.lastArray
    requires var j := s.jobs[id].value;
      (t.arrays, t.arrayCount) == FreeTask(s.arrays, s.arrayCount, j.arrayId, j.taskId)
    ensures TablesAgree(t)
  {
    var j := s.jobs[id].value;
    assert Listed(s, id);
    var table := s.arrays[j.arrayId].value;
    assert TableOk(s, j.arrayId, table);
    DelTaskCounts(table, j.taskId);
    OccupiedUpdate(s.arrays, j.arrayId, t.arrays[j.arrayId]);
    forall aid: nat | aid < |t.arrays| && t.arrays[aid].Some? ensures TableOk(t, aid, t.arrays[aid].value) {
      assert TableOk(s, aid, s.arrays[aid].value);
    }
    forall i: nat | t.Alive(i) ensures Listed(t, i) {
      assert Listed(s, i);
      OthersElsewhere(s, id, i);
      if s.jobs[i].value.arrayId == j.arrayId {
        assert table.jobIds[s.jobs[i].value.taskId] == i;
      }
    }
  }

  lemma HandleAgrees(s: Sys, e: Env)
    requires TablesAgree(s) && s.queue != []
    ensures TablesAgree(Next(s, Handle(e)))
  {
    var it := s.queue[0];
    if s.Alive(it.job) {
      var j := s.jobs[it.job].value;
      ReactionShape(it.act, j, e);
      ConcludeAgrees(s, j, React(it.act, j, e), e);
    } else {
      PlacesKept(s, Next(s, Handle(e)));
    }
  }

  lemma ConcludeAgrees(s: Sys, j: Job, r: Reaction, e: Env)
    requires TablesAgree(s) && s.queue != [] && s.queue[0].job < |s.jobs| && s.jobs[s.queue[0].job] == Some(j)
    requires r.wakes ==> r.job.Some?
    requires r.job.Some? ==> SameRecord(j, r.job.value)
    ensures TablesAgree(Conclude(Popped(s), s.queue[0], j, r, e))
  {
    var t := Conclude(Popped(s), s.queue[0], j, r, e);
    if r.job.Some? {
      PlacesKept(s, t);
    } else {
      FreeingAgrees(s, t, s.queue[0].job);
    }
  }

  lemma NewJobAgrees(s: Sys, id: nat, init: Job)
    requires TablesAgree(s) && Enabled(s, NewJob(id, init))
    ensures TablesAgree(Next(s, NewJob(id, init)))
  {
    var t := Next(s, NewJob(id, init));
    forall aid: nat | aid < |t.arrays| && t.arrays[aid].Some? ensures TableOk(t, aid, t.arrays[aid].value) {
      assert TableOk(s, aid, s.arrays[aid].value);
    }
    forall i: nat | t.Alive(i) ensures Listed(t, i) {
      if i != id { assert Listed(s, i); }
    }
  }

  /** A new array goes to a free slot, its tasks are its jobs in order, and nothing else changes. */
  lemma NewArrayAgrees(s: Sys, aid: nat, ids: seq<nat>, init: Job)
    requires TablesAgree(s) && Enabled(s, NewArray(aid, ids, init))
    ensures TablesAgree(Next(s, NewArray(aid, ids, init)))
  {
    var t := Next(s, NewArray(aid, ids, init));
    Enrolled(s.jobs, ids, aid, init);
    OccupiedUpdate(s.arrays, aid, t.arrays[aid]);
    LiveNone(ids);
    forall a: nat | a < |t.arrays| && t.arrays[a].Some? ensures TableOk(t, a, t.arrays[a].value) {
      if a != aid { assert TableOk(s, a, s.arrays[a].value); }
    }
    forall i: nat | t.Alive(i) ensures Listed(t, i) {
      if i in ids {
        var k :| 0 <= k < |ids| && ids[k] == i;
      } else {
        assert Listed(s, i);
      }
    }
  }

  lemma DispatchKeepsPlaces(s: Sys, id: nat, host: nat, wrapperBased: bool, add: AddResult)
    ensures SamePlaces(s, Assign(s, id, host, wrapperBased, add))
  {
  }

  lemma OthersKeepPlaces(s: Sys, ev: Event)
    requires Enabled(s, ev) && !ev.Handle? && !ev.NewJob? && !ev.NewArray?
    ensures SamePlaces(s, Next(s, ev))
  {
    if ev.Dispatch? {
      DispatchKeepsPlaces(s, ev.job, ev.host, ev.wrapperBased, ev.add);
    }
  }

  lemma StepAgrees(s: Sys, ev: Event)
    requires TablesAgree(s) && Enabled(s, ev)
    ensures TablesAgree(Next(s, ev))
  {
    match ev
    case Handle(e) => HandleAgrees(s, e);
    case NewJob(id, init) => NewJobAgrees(s, id, init);
    case NewArray(aid, ids, init) => NewArrayAgrees(s, aid, ids, init);
    case _ =>
      OthersKeepPlaces(s, ev);
      PlacesKept(s, Next(s, ev));
  }

  /** After any run, clean or not, the task tables and the jobs agree, and number_of_arrays is the number of
      occupied slots. */
  lemma {:induction false} TablesAgreeAlways(s: Sys, run: seq<Event>)
    requires CanRun(s, run) && TablesAgree(s)
    ensures TablesAgree(After(s, run))
    decreases |run|
  {
    if run != [] {
      StepAgrees(s, run[0]);
      TablesAgreeAlways(Next(s, run[0]), run[1..]);
    }
  }

  lemma StartAgrees(jobs: nat, hosts: nat, users: nat, arrays: nat)
    ensures TablesAgree(Start(jobs, hosts, users, arrays))
  {
    OccupiedBounds(Start(jobs, hosts, users, arrays).arrays);
  }

  /** In every state that a run of an idle manager reaches, clean or not: entry k of a live array is job id if and only
      if job id is live with that array and task id, every live array has a live job unless it was created empty, and
      number_of_arrays is the number of occupied slots. */
  lemma ReachableTables(jobs: nat, hosts: nat, users: nat, arrays: nat, run: seq<Event>, aid: nat)
    requires var s := Start(jobs, hosts, users, arrays);
      CanRun(s, run) && aid < |After(s, run).arrays| && After(s, run).arrays[aid].Some?
    ensures var t := After(Start(jobs, hosts, users, arrays), run); var ids := t.arrays[aid].value.jobIds;
      && t.arrayCount == Occupied(t.arrays)
      && (forall k: nat, id: nat | k < |ids| :: ids[k] == id <==> IsTask(t, id, aid, k))
      && (ids != [] ==> exists j: nat, i: nat :: IsTask(t, j, aid, i))
  {
    var s := Start(jobs, hosts, users, arrays);
    StartAgrees(jobs, hosts, users, arrays);
    TablesAgreeAlways(s, run);
    var t := After(s, run);
    forall k: nat, id: nat | k < |t.arrays[aid].value.jobIds|
      ensures t.arrays[aid].value.jobIds[k] == id <==> IsTask(t, id, aid, k)
    {
      TablesMean(t, aid, k, id);
    }
    if t.arrays[aid].value.jobIds != [] {
      TablesMean(t, aid, 0, 0);
    }
  }
}
