/** The client's side of job arrays and waits: signalling an array, rebuilding its task table, copying
    dependencies, and matching the answers of a wait to its jobs. */
module Client {
  import opened Jobs
  import opened Reactions
  import opened TaskTables
  import opened LifeCycle
  import opened ArrayTables

  /** What the client's pool knows of a job. */
  datatype PoolJob = PoolJob(id: int, state: State, arrayId: int, taskId: int)

  datatype Rc = RcSuccess | RcFailed | RcBadArrayId | RcTimeout | RcBadJobId

  // ------------------------------------------------------------------------------------------
  // Signalling an array
  // ------------------------------------------------------------------------------------------

  /** The states of the first pass: jobs that wait or have finished. */
  predicate Quick(st: State) {
    match st
    case Init | Pending | Hold | Stopped | Zombie | Failed => true
    case _ => false
  }

  /** The states of the second pass. */
  predicate Active(st: State) {
    match st
    case Prolog | PreWrapper | Wrapper | Epilog | EpilogStd | EpilogRestart | EpilogFail | StopCancel | StopEpilog
       | KillCancel | KillEpilog | MigrCancel | MigrProlog | MigrEpilog => true
    case _ => false
  }

  predicate OfArray(pool: seq<Option<PoolJob>>, i: nat, aid: int) {
    i < |pool| && pool[i].Some? && pool[i].value.arrayId == aid
  }

  predicate Picks(pool: seq<Option<PoolJob>>, i: nat, aid: int, quick: bool) {
    OfArray(pool, i, aid) && if quick then Quick(pool[i].value.state) else Active(pool[i].value.state)
  }

  /** The numbers below n that are wanted, in order. */
  function Chosen(wanted: nat -> bool, n: nat): seq<nat> {
    if n == 0 then [] else if wanted(n - 1) then Chosen(wanted, n - 1) + [n - 1] else Chosen(wanted, n - 1)
  }

  lemma {:induction false} ChosenOnce(wanted: nat -> bool, n: nat, i: nat)
    ensures multiset(Chosen(wanted, n))[i] == if i < n && wanted(i) then 1 else 0
  {
    if n > 0 {
      ChosenOnce(wanted, n - 1, i);
      var last: nat := n - 1;
      assert multiset(Chosen(wanted, n - 1) + [last]) == multiset(Chosen(wanted, n - 1)) + multiset{last};
    }
  }

  /** The jobs among the first n that a pass signals, in pool order. */
  function Picked(pool: seq<Option<PoolJob>>, aid: int, quick: bool, n: nat): seq<nat> {
    Chosen((i: nat) => Picks(pool, i, aid, quick), n)
  }

  lemma PickedOnce(pool: seq<Option<PoolJob>>, aid: int, quick: bool, n: nat, i: nat)
    ensures multiset(Picked(pool, aid, quick, n))[i] == if i < n && Picks(pool, i, aid, quick) then 1 else 0
  {
    ChosenOnce((j: nat) => Picks(pool, j, aid, quick), n, i);
  }

  /** The two passes signal every job of the array exactly once and no other job: the two lists of states cover all
      twenty and overlap in none. */
  lemma EachJobOnce(pool: seq<Option<PoolJob>>, aid: int, i: nat)
    ensures multiset(Picked(pool, aid, true, |pool|) + Picked(pool, aid, false, |pool|))[i] ==
            if OfArray(pool, i, aid) then 1 else 0
  {
    PickedOnce(pool, aid, true, |pool|, i);
    PickedOnce(pool, aid, false, |pool|, i);
  }

  /** The code returned: a bad array id exactly when nothing was signalled. */
  function Verdict(signalled: seq<nat>, succeeds: nat -> bool): Rc {
    if signalled == [] then RcBadArrayId else if forall i <- signalled :: succeeds(i) then RcSuccess else RcFailed
  }

  lemma BadIdIffNoJob(pool: seq<Option<PoolJob>>, aid: int, succeeds: nat -> bool)
    ensures Verdict(Picked(pool, aid, true, |pool|) + Picked(pool, aid, false, |pool|), succeeds) == RcBadArrayId <==>
            forall i: nat :: !OfArray(pool, i, aid)
  {
    var sent := Picked(pool, aid, true, |pool|) + Picked(pool, aid, false, |pool|);
    if sent == [] {
      forall i: nat ensures !OfArray(pool, i, aid) {
        EachJobOnce(pool, aid, i);
      }
    } else {
      EachJobOnce(pool, aid, sent[0]);
      assert sent[0] in multiset(sent);
    }
  }

  /** First the jobs that a signal reaches at once. */
  method FirstPass(pool: array<Option<PoolJob>>, aid: int, succeeds: nat -> bool)
    returns (frc: Rc, signalled: seq<nat>)
    ensures signalled == Picked(pool[..], aid, true, pool.Length)
    ensures frc == if forall k <- signalled :: succeeds(k) then RcSuccess else RcFailed
  {
    frc, signalled := RcSuccess, [];
    for i := 0 to pool.Length
      invariant signalled == Picked(pool[..], aid, true, i)
      invariant frc == if forall k <- signalled :: succeeds(k) then RcSuccess else RcFailed
    {
      if pool[i].Some? && pool[i].value.arrayId == aid {
        match pool[i].value.state {
          case Init | Pending | Hold | Stopped | Zombie | Failed =>
            frc := if succeeds(i) then frc else RcFailed;
            signalled := signalled + [i];
          case _ =>
        }
      }
    }
  }

  /** Then the rest of the array. */
  method SecondPass(pool: array<Option<PoolJob>>, aid: int, succeeds: nat -> bool)
    returns (frc: Rc, signalled: seq<nat>)
    ensures signalled == Picked(pool[..], aid, false, pool.Length)
    ensures frc == if forall k <- signalled :: succeeds(k) then RcSuccess else RcFailed
  {
    frc, signalled := RcSuccess, [];
    for i := 0 to pool.Length
      invariant signalled == Picked(pool[..], aid, false, i)
      invariant frc == if forall k <- signalled :: succeeds(k) then RcSuccess else RcFailed
    {
      if pool[i].Some? && pool[i].value.arrayId == aid {
        match pool[i].value.state {
          case Prolog | PreWrapper | Wrapper | Epilog | EpilogStd | EpilogRestart | EpilogFail | StopCancel | StopEpilog
             | KillCancel | KillEpilog | MigrCancel | MigrProlog | MigrEpilog =>
            frc := if succeeds(i) then frc else RcFailed;
            signalled := signalled + [i];
          case _ =>
        }
      }
    }
  }

  /** signalled lists the jobs in the order they were signalled. A bad array id is returned not only when the array has
      no job, but also whenever the status call fails. */
  method ArraySignal(pool: array<Option<PoolJob>>, statusOk: bool, aid: int, succeeds: nat -> bool)
    returns (frc: Rc, signalled: seq<nat>)
    ensures signalled ==
      if statusOk then Picked(pool[..], aid, true, pool.Length) + Picked(pool[..], aid, false, pool.Length) else []
    ensures frc == Verdict(signalled, succeeds)
    ensures frc == RcBadArrayId <==> !statusOk || forall i: nat :: !OfArray(pool[..], i, aid)
  {
    frc, signalled := RcSuccess, [];
    if statusOk {
      var first, second, rc;
      frc, first := FirstPass(pool, aid, succeeds);
      rc, second := SecondPass(pool, aid, succeeds);
      if rc != RcSuccess {
        frc := RcFailed;
      }
      signalled := first + second;
    }
    if signalled == [] {
      frc := RcBadArrayId;
    }
    BadIdIffNoJob(pool[..], aid, succeeds);
  }

  // ------------------------------------------------------------------------------------------
  // Rebuilding the task table
  // ------------------------------------------------------------------------------------------

  /** The tasks of the array are within the table. */
  ghost predicate TasksFit(pool: seq<Option<PoolJob>>, aid: int, size: nat) {
    forall i: nat | OfArray(pool, i, aid) :: 0 <= pool[i].value.taskId < size
  }

  function Rebuilt(pool: seq<Option<PoolJob>>, aid: int, table: seq<int>, n: nat): (r: seq<int>)
    requires n <= |pool| && TasksFit(pool, aid, |table|)
    ensures |r| == |table|
  {
    if n == 0 then table
    else var r := Rebuilt(pool, aid, table, n - 1);
         if OfArray(pool, n - 1, aid) then r[pool[n - 1].value.taskId := pool[n - 1].value.id] else r
  }

  method RebuildTable(pool: array<Option<PoolJob>>, aid: int, job_ids: array<int>)
    requires TasksFit(pool[..], aid, job_ids.Length)
    modifies job_ids
    ensures job_ids[..] == Rebuilt(pool[..], aid, old(job_ids[..]), pool.Length)
  {
    for i := 0 to pool.Length
      invariant job_ids[..] == Rebuilt(pool[..], aid, old(job_ids[..]), i)
    {
      if pool[i].Some? && pool[i].value.arrayId == aid {
        assert OfArray(pool[..], i, aid);
        job_ids[pool[i].value.taskId] := pool[i].value.id;
      }
    }
  }

  /** The client's pool reports exactly the server's live jobs, in any order. */
  ghost predicate Reports(pool: seq<Option<PoolJob>>, s: Sys) {
    && (forall i: nat | i < |pool| && pool[i].Some? ::
          var p := pool[i].value; IsTask(s, p.id, p.arrayId, p.taskId))
    && (forall id: nat | s.Alive(id) :: exists i: nat :: i < |pool| && pool[i].Some? && pool[i].value.id == id)
  }

  /** Entry k holds the only job it can: job j, once a job of the array with that task was read. */
  lemma {:induction false} RebuiltEntry(pool: seq<Option<PoolJob>>, aid: int, table: seq<int>, n: nat, k: nat, j: int)
    requires n <= |pool| && TasksFit(pool, aid, |table|) && k < |table|
    requires forall i: nat | OfArray(pool, i, aid) && pool[i].value.taskId == k :: pool[i].value.id == j
    ensures Rebuilt(pool, aid, table, n)[k] ==
            if exists i: nat :: i < n && OfArray(pool, i, aid) && pool[i].value.taskId == k then j else table[k]
  {
    if n > 0 {
      RebuiltEntry(pool, aid, table, n - 1, k, j);
      if OfArray(pool, n - 1, aid) && pool[n - 1].value.taskId == k {
        assert n - 1 < n;
      }
    }
  }

  lemma ReportsFit(pool: seq<Option<PoolJob>>, s: Sys, aid: nat)
    requires TablesAgree(s) && aid < |s.arrays| && s.arrays[aid].Some? && Reports(pool, s)
    ensures TasksFit(pool, aid, |s.arrays[aid].value.jobIds|)
  {
    forall i: nat | OfArray(pool, i, aid) ensures 0 <= pool[i].value.taskId < |s.arrays[aid].value.jobIds| {
      assert Listed(s, pool[i].value.id);
    }
  }

  /** End to end: the rebuilt table agrees with the server's on every task that is alive, in whatever order the pool
      holds the jobs, and leaves the others as they were. */
  lemma RebuildsServerTable(pool: seq<Option<PoolJob>>, s: Sys, aid: nat, table: seq<int>, k: nat)
    requires TablesAgree(s) && aid < |s.arrays| && s.arrays[aid].Some? && Reports(pool, s)
    requires |table| == |s.arrays[aid].value.jobIds| && k < |table|
    ensures TasksFit(pool, aid, |table|)
    ensures var j := s.arrays[aid].value.jobIds[k];
      Rebuilt(pool, aid, table, |pool|)[k] == if j == NO_JOB then table[k] else j
  {
    var ids := s.arrays[aid].value.jobIds;
    ReportsFit(pool, s, aid);
    assert TableOk(s, aid, s.arrays[aid].value);
    forall i: nat | OfArray(pool, i, aid) && pool[i].value.taskId == k ensures pool[i].value.id == ids[k] {
      assert Listed(s, pool[i].value.id);
    }
    RebuiltEntry(pool, aid, table, |pool|, k, ids[k]);
    if ids[k] == NO_JOB {
      forall i: nat | OfArray(pool, i, aid) ensures pool[i].value.taskId != k {
        assert Listed(s, pool[i].value.id);
      }
    } else {
      assert IsTask(s, ids[k], aid, k);
      var i: nat :| i < |pool| && pool[i].Some? && pool[i].value.id == ids[k];
      assert OfArray(pool, i, aid) && pool[i].value.taskId == k;
    }
  }

  // ------------------------------------------------------------------------------------------
  // Copying dependencies
  // ------------------------------------------------------------------------------------------

  const GW_JT_DEPS: nat := 50

  /** What an array holds that ends at its first -1. */
  function BeforeEnd(s: seq<int>): (r: seq<int>)
    ensures |r| <= |s| && r == s[..|r|]
  {
    if s == [] || s[0] == -1 then [] else [s[0]] + BeforeEnd(s[1..])
  }

  lemma {:induction false} EndsAt(s: seq<int>, n: nat)
    requires n < |s| && s[n] == -1 && forall k | 0 <= k < n :: s[k] != -1
    ensures BeforeEnd(s) == s[..n]
  {
    if n > 0 {
      EndsAt(s[1..], n - 1);
      assert s[..n] == [s[0]] + s[1..][..n - 1];
    }
  }

  lemma {:induction false} FirstEnd(s: seq<int>) returns (n: nat)
    requires -1 in s
    ensures n < |s| && s[n] == -1 && forall k | 0 <= k < n :: s[k] != -1
  {
    if s[0] == -1 {
      n := 0;
    } else {
      n := FirstEnd(s[1..]);
      n := n + 1;
    }
  }

  lemma MoreToCome(s: seq<int>, n: nat)
    requires n < |s| && -1 in s && -1 !in s[..n] && s[n] != -1
    ensures n + 1 < |s|
  {
    var m := FirstEnd(s);
    assert forall k | 0 <= k < n :: s[..n][k] == s[k];
  }

  /** The number of dependencies of a list. */
  method CountDeps(a: array<int>) returns (n: nat)
    requires -1 in a[..]
    ensures n < a.Length && a[n] == -1 && BeforeEnd(a[..]) == a[..n] && forall k | 0 <= k < n :: a[k] != -1
  {
    n := 0;
    while a[n] != -1
      invariant n < a.Length && forall k | 0 <= k < n :: a[k] != -1
      decreases a.Length - n
    {
      MoreToCome(a[..], n);
      n := n + 1;
    }
    EndsAt(a[..], n);
  }

  /** The copy is cut after 49 dependencies. */
  method DepCopy(src: Option<array<int>>, dst: array<int>)
    requires dst.Length == GW_JT_DEPS && (src.Some? ==> src.value != dst && -1 in src.value[..])
    modifies dst
    ensures var deps := if src.Some? then BeforeEnd(src.value[..]) else [];
      && BeforeEnd(dst[..]) == (if |deps| <= GW_JT_DEPS - 1 then deps else deps[..GW_JT_DEPS - 1])
      && (BeforeEnd(dst[..]) == deps <==> |deps| <= GW_JT_DEPS - 1)
  {
    if src.None? {
      dst[0] := -1;
      return;
    }
    var a := src.value;
    var n := CountDeps(a);
    if n == 0 {
      dst[0] := -1;
    } else {
      var i := 0;
      while a[i] != -1 && i < GW_JT_DEPS - 1
        invariant 0 <= i <= n && i <= GW_JT_DEPS - 1
        invariant forall k | 0 <= k < i :: dst[k] == a[k]
        decreases n - i
      {
        dst[i] := a[i];
        i := i + 1;
      }
      dst[i] := -1;
      EndsAt(dst[..], i);
      assert forall k | 0 <= k < i :: dst[..][..i][k] == a[..n][..i][k];
      assert BeforeEnd(dst[..]) == a[..n][..i];
    }
  }

  // ------------------------------------------------------------------------------------------
  // Waiting for a set
  // ------------------------------------------------------------------------------------------

  datatype WaitAnswer = WaitAnswer(job: int, rc: Rc, code: int)

  /** The place of a job in the list, or -1. */
  function PlaceIn(ids: seq<int>, job: int): (k: int)
    ensures -1 <= k < |ids|
    ensures k == -1 <==> job !in ids
    ensures k >= 0 ==> ids[k] == job
  {
    if ids == [] then -1 else if ids[0] == job then 0
    else var k := PlaceIn(ids[1..], job); if k == -1 then -1 else k + 1
  }

  /** The exit codes after some answers; an answer that succeeds fills the place of its job. */
  function Codes(ids: seq<int>, start: seq<int>, answers: seq<WaitAnswer>): (r: seq<int>)
    requires |start| == |ids|
    ensures |r| == |ids|
  {
    if answers == [] then start
    else var r := Codes(ids, start, answers[..|answers| - 1]);
         var a := answers[|answers| - 1];
         var k := PlaceIn(ids, a.job);
         if a.rc.RcSuccess? && k >= 0 then r[k := a.code] else r
  }

  /** The last failure, if any. */
  function WaitResult(answers: seq<WaitAnswer>): Rc {
    if answers == [] then RcSuccess
    else if answers[|answers| - 1].rc.RcSuccess? then WaitResult(answers[..|answers| - 1])
    else answers[|answers| - 1].rc
  }

  lemma {:induction false} SuccessIffAll(answers: seq<WaitAnswer>)
    ensures WaitResult(answers) == RcSuccess <==> forall a <- answers :: a.rc.RcSuccess?
  {
    if answers != [] {
      SuccessIffAll(answers[..|answers| - 1]);
      assert answers == answers[..|answers| - 1] + [answers[|answers| - 1]];
    }
  }

  lemma {:induction false} PlaceOfDistinct(ids: seq<int>, k: nat)
    requires k < |ids| && forall i | 0 <= i < k :: ids[i] != ids[k]
    ensures PlaceIn(ids, ids[k]) == k
  {
    if k > 0 {
      PlaceOfDistinct(ids[1..], k - 1);
    }
  }

  /** With distinct jobs, each answered once and with success, in any order, exit code k is the code of job k. */
  lemma {:induction false} CodesMatch(ids: seq<int>, start: seq<int>, answers: seq<WaitAnswer>, k: nat, m: nat)
    requires |start| == |ids| && k < |ids| && forall i | 0 <= i < k :: ids[i] != ids[k]
    requires m < |answers| && answers[m].job == ids[k] && answers[m].rc.RcSuccess?
    requires forall i | 0 <= i < |answers| && i != m :: answers[i].job != ids[k]
    ensures Codes(ids, start, answers)[k] == answers[m].code
  {
    var n := |answers| - 1;
    PlaceOfDistinct(ids, k);
    if m < n {
      CodesMatch(ids, start, answers[..n], k, m);
    }
  }

  /** An answer, and how long the wait for it lasts, in microseconds. */
  datatype Arrival = Arrival(delay: nat, answer: WaitAnswer)

  const SECOND: nat := 1_000_000

  /** What the clock, which shows whole seconds, says of a wait that starts now. */
  function Shown(now: nat, delay: nat): nat { (now + delay) / SECOND - now / SECOND }

  /** The next wait ends with a time-out; a negative timeout never does. */
  predicate Late(timeout: int, waited: nat, a: Arrival) { timeout > -1 && a.delay > (timeout - waited) * SECOND }

  /** How many answers come in time. */
  function InTime(timeout: int, now: nat, waited: nat, arrivals: seq<Arrival>): (k: nat)
    ensures k <= |arrivals|
    decreases |arrivals|
  {
    if arrivals == [] || Late(timeout, waited, arrivals[0]) then 0
    else var a := arrivals[0];
         1 + InTime(timeout, now + a.delay, waited + Shown(now, a.delay), arrivals[1..])
  }

  function Lasting(arrivals: seq<Arrival>): nat {
    if arrivals == [] then 0 else arrivals[0].delay + Lasting(arrivals[1..])
  }

  function AnswersOf(arrivals: seq<Arrival>): (r: seq<WaitAnswer>)
    ensures |r| == |arrivals|
  { seq(|arrivals|, k requires 0 <= k < |arrivals| => arrivals[k].answer) }

  /** The seconds left never become negative. */
  lemma ShownWithin(timeout: int, now: nat, waited: nat, a: Arrival)
    requires timeout > -1 && waited <= timeout && !Late(timeout, waited, a)
    ensures waited + Shown(now, a.delay) <= timeout
  {
    var left := timeout - waited;
    assert (now + left * SECOND) / SECOND == now / SECOND + left;
    assert (now + a.delay) / SECOND <= (now + left * SECOND) / SECOND;
  }

  /** What the clock does not show of a time. */
  function Fraction(now: nat): nat { now % SECOND }

  /** How long the whole wait lasts: the waits for the answers that come in time and, if one does not, a last wait for
      as long as there are seconds left. */
  function Total(timeout: int, now: nat, waited: nat, arrivals: seq<Arrival>): int
    decreases |arrivals|
  {
    if arrivals == [] then 0
    else if Late(timeout, waited, arrivals[0]) then (timeout - waited) * SECOND
    else var a := arrivals[0];
         a.delay + Total(timeout, now + a.delay, waited + Shown(now, a.delay), arrivals[1..])
  }

  /** The seconds counted are those that the clock has shown since the start: they add up, whatever the answers. */
  lemma {:induction false} CountedIsShown(timeout: int, now: nat, waited: nat, arrivals: seq<Arrival>)
    requires timeout > -1 && waited <= timeout
    ensures var k := InTime(timeout, now, waited, arrivals); var last := now + Lasting(arrivals[..k]);
      && waited + (last / SECOND - now / SECOND) <= timeout
      && Total(timeout, now, waited, arrivals) ==
         if k < |arrivals| then last - now + (timeout - waited - (last / SECOND - now / SECOND)) * SECOND
         else last - now
    decreases |arrivals|
  {
    var k := InTime(timeout, now, waited, arrivals);
    if k > 0 {
      var a := arrivals[0];
      ShownWithin(timeout, now, waited, a);
      CountedIsShown(timeout, now + a.delay, waited + Shown(now, a.delay), arrivals[1..]);
      assert arrivals[..k][1..] == arrivals[1..][..k - 1];
    } else {
      assert arrivals[..0] == [];
    }
  }

  /** A wait that times out lasts the time-out, and longer or shorter by what the clock hides: the fraction of a second
      at the last answer less the one at the start. A wait that gets all its answers lasts the seconds shown, and the
      same difference. */
  lemma WaitTime(timeout: int, start: nat, arrivals: seq<Arrival>)
    requires timeout > -1
    ensures var k := InTime(timeout, start, 0, arrivals); var last := start + Lasting(arrivals[..k]);
      && last / SECOND - start / SECOND <= timeout
      && Total(timeout, start, 0, arrivals) ==
         (if k < |arrivals| then timeout else last / SECOND - start / SECOND) * SECOND
         + Fraction(last) - Fraction(start)
  {
    CountedIsShown(timeout, start, 0, arrivals);
    var last := start + Lasting(arrivals[..InTime(timeout, start, 0, arrivals)]);
    assert last == last / SECOND * SECOND + Fraction(last) && start == start / SECOND * SECOND + Fraction(start);
  }

  /** A wait overruns its time-out if and only if the clock has shown all its seconds or an answer is late, and the last
      answer came later in its second than the wait started in its own; and always by less than a second in all. */
  lemma OverrunIff(timeout: int, start: nat, arrivals: seq<Arrival>)
    requires timeout > -1
    ensures var k := InTime(timeout, start, 0, arrivals); var last := start + Lasting(arrivals[..k]);
      Total(timeout, start, 0, arrivals) > timeout * SECOND <==>
      (k < |arrivals| || last / SECOND - start / SECOND == timeout) && Fraction(last) > Fraction(start)
    ensures Total(timeout, start, 0, arrivals) < (timeout + 1) * SECOND
  {
    WaitTime(timeout, start, arrivals);
  }

  /** One answer after nine tenths of a second and none after it: with a time-out of one second the wait lasts nearly
      two. */
  lemma Overruns(a: WaitAnswer, b: WaitAnswer)
    ensures var arrivals := [Arrival(900_000, a), Arrival(5_000_000, b)];
      InTime(1, 0, 0, arrivals) == 1 && Total(1, 0, 0, arrivals) == 1_900_000
  {
    var arrivals := [Arrival(900_000, a), Arrival(5_000_000, b)];
    assert arrivals[1..] == [Arrival(5_000_000, b)];
    assert InTime(1, 900_000, 0, arrivals[1..]) == 0 && Total(1, 900_000, 0, arrivals[1..]) == SECOND;
  }

  /** One more answer. */
  method Receive(job_ids: array<int>, exit_codes: array<int>, msg: WaitAnswer, gwrc: Rc,
                 ghost before: seq<int>, ghost answers: seq<WaitAnswer>) returns (rc: Rc)
    requires exit_codes.Length == job_ids.Length == |before| && exit_codes != job_ids
    requires exit_codes[..] == Codes(job_ids[..], before, answers) && gwrc == WaitResult(answers)
    modifies exit_codes
    ensures exit_codes[..] == Codes(job_ids[..], before, answers + [msg]) && rc == WaitResult(answers + [msg])
  {
    assert (answers + [msg])[..|answers|] == answers;
    rc := gwrc;
    if msg.rc.RcSuccess? {
      Match(job_ids, exit_codes, msg);
    } else {
      rc := msg.rc;
    }
  }

  /** The wait without a zero timeout, from a time on: one answer after the other is matched to its job, until one
      comes too late; end is the time of the return. */
  method WaitAll(job_ids: array<int>, exit_codes: array<int>, timeout: int, start: nat, arrivals: seq<Arrival>)
    returns (rc: Rc, ghost end: int)
    requires exit_codes.Length == job_ids.Length == |arrivals| && exit_codes != job_ids
    modifies exit_codes
    ensures var k := InTime(timeout, start, 0, arrivals); var answers := AnswersOf(arrivals[..k]);
      && exit_codes[..] == Codes(job_ids[..], old(exit_codes[..]), answers)
      && rc == (if k < |arrivals| then RcTimeout else WaitResult(answers))
      && end == start + Total(timeout, start, 0, arrivals)
  {
    rc := RcSuccess;
    var the_time: nat, tv_waited: nat := start, 0;
    assert AnswersOf(arrivals[..0]) == [] && arrivals[0..] == arrivals;
    for j := 0 to |arrivals|
      invariant InTime(timeout, start, 0, arrivals) == j + InTime(timeout, the_time, tv_waited, arrivals[j..])
      invariant start + Total(timeout, start, 0, arrivals) ==
                the_time + Total(timeout, the_time, tv_waited, arrivals[j..])
      invariant timeout > -1 ==> tv_waited <= timeout
      invariant exit_codes[..] == Codes(job_ids[..], old(exit_codes[..]), AnswersOf(arrivals[..j]))
      invariant rc == WaitResult(AnswersOf(arrivals[..j]))
    {
      assert arrivals[j..][0] == arrivals[j] && arrivals[j..][1..] == arrivals[j + 1..];
      var a := arrivals[j];
      if timeout > -1 {
        if a.delay > (timeout - tv_waited) * SECOND {
          return RcTimeout, the_time + (timeout - tv_waited) * SECOND;
        }
        ShownWithin(timeout, the_time, tv_waited, a);
      }
      tv_waited, the_time := tv_waited + Shown(the_time, a.delay), the_time + a.delay;
      assert AnswersOf(arrivals[..j + 1]) == AnswersOf(arrivals[..j]) + [a.answer];
      rc := Receive(job_ids, exit_codes, a.answer, rc, old(exit_codes[..]), AnswersOf(arrivals[..j]));
    }
    assert arrivals[..|arrivals|] == arrivals;
    end := the_time;
  }

  /** The first place of the job in the list gets its code. */
  method Match(job_ids: array<int>, exit_codes: array<int>, msg: WaitAnswer)
    requires exit_codes.Length == job_ids.Length && exit_codes != job_ids
    modifies exit_codes
    ensures var k := PlaceIn(job_ids[..], msg.job);
      exit_codes[..] == if k >= 0 then old(exit_codes[..])[k := msg.code] else old(exit_codes[..])
  {
    for k := 0 to job_ids.Length
      invariant msg.job !in job_ids[..k] && exit_codes[..] == old(exit_codes[..])
    {
      if job_ids[k] == msg.job {
        PlaceOfDistinct(job_ids[..], k);
        exit_codes[k] := msg.code;
        return;
      }
      assert job_ids[..k + 1] == job_ids[..k] + [job_ids[k]];
    }
    assert job_ids[..] == job_ids[..job_ids.Length];
  }

  // ------------------------------------------------------------------------------------------
  // Waiting without waiting
  // ------------------------------------------------------------------------------------------

  /** What the server says of one job. */
  datatype Status = Status(rc: Rc, finished: bool, code: int)

  /** The search ends at a job whose status fails, or that has finished (has not finished). */
  predicate Stops(s: Status, finished: bool) { !s.rc.RcSuccess? || s.finished == finished }

  /** The first job in list order that ends the search; the length of the list if there is none. */
  function FirstStop(ids: seq<int>, status: int -> Status, finished: bool): (k: nat)
    ensures k <= |ids| && forall i | 0 <= i < k :: !Stops(status(ids[i]), finished)
    ensures k < |ids| ==> Stops(status(ids[k]), finished)
  {
    if ids == [] || Stops(status(ids[0]), finished) then 0 else 1 + FirstStop(ids[1..], status, finished)
  }

  lemma {:induction false} FirstStopAt(ids: seq<int>, status: int -> Status, finished: bool, k: nat)
    requires k <= |ids| && forall i | 0 <= i < k :: !Stops(status(ids[i]), finished)
    requires k < |ids| ==> Stops(status(ids[k]), finished)
    ensures FirstStop(ids, status, finished) == k
  {
    if k > 0 {
      FirstStopAt(ids[1..], status, finished, k - 1);
    }
  }

  /** Zero time-out, any: the first finished job in list order goes to the front, unless a status fails before it. */
  method TestAny(job_ids: array<int>, exit_codes: array<int>, status: int -> Status) returns (rc: Rc)
    requires -1 in job_ids[..] && exit_codes.Length > 0 && exit_codes != job_ids
    modifies job_ids, exit_codes
    ensures var ids := BeforeEnd(old(job_ids[..])); var k := FirstStop(ids, status, true);
      if k == |ids| then rc == RcTimeout && job_ids[..] == old(job_ids[..])
      else if !status(ids[k]).rc.RcSuccess? then rc == status(ids[k]).rc && job_ids[..] == old(job_ids[..])
      else rc == RcSuccess && job_ids[..] == old(job_ids[..])[0 := ids[k]] && exit_codes[0] == status(ids[k]).code
  {
    var i := 0;
    while job_ids[i] != -1
      invariant i < job_ids.Length && -1 !in job_ids[..i] && job_ids[..] == old(job_ids[..])
      invariant forall k | 0 <= k < i :: !Stops(status(job_ids[k]), true)
      decreases job_ids.Length - i
    {
      StopsHere(job_ids[..], status, true, i);
      var s := status(job_ids[i]);
      if !s.rc.RcSuccess? {
        return s.rc;
      } else if s.finished {
        job_ids[0], exit_codes[0] := job_ids[i], s.code;
        return RcSuccess;
      }
      i := i + 1;
    }
    StopsHere(job_ids[..], status, true, i);
    rc := RcTimeout;
  }

  /** Having passed i jobs of a list that ends at -1. */
  lemma StopsHere(s: seq<int>, status: int -> Status, finished: bool, i: nat)
    requires i < |s| && -1 in s && -1 !in s[..i] && forall k | 0 <= k < i :: !Stops(status(s[k]), finished)
    ensures i <= |BeforeEnd(s)| && forall k | 0 <= k < |BeforeEnd(s)| :: BeforeEnd(s)[k] == s[k]
    ensures s[i] == -1 ==> i == |BeforeEnd(s)| == FirstStop(BeforeEnd(s), status, finished)
    ensures s[i] != -1 ==> i < |BeforeEnd(s)| && i + 1 < |s|
    ensures s[i] != -1 && Stops(status(s[i]), finished) ==> FirstStop(BeforeEnd(s), status, finished) == i
  {
    var n := FirstEnd(s);
    EndsAt(s, n);
    assert s[n] == -1 && forall k | 0 <= k < i :: s[..i][k] != -1;
    if s[i] == -1 || Stops(status(s[i]), finished) {
      FirstStopAt(BeforeEnd(s), status, finished, i);
    }
  }

  /** Zero time-out, all: success exactly when every job has finished. */
  method TestAll(job_ids: array<int>, n: nat, exit_codes: array<int>, status: int -> Status) returns (rc: Rc)
    requires n == exit_codes.Length <= job_ids.Length && exit_codes != job_ids
    modifies exit_codes
    ensures var ids := job_ids[..n]; var k := FirstStop(ids, status, false);
      if k == n then rc == RcSuccess && forall i | 0 <= i < n :: exit_codes[i] == status(ids[i]).code
      else rc == if status(ids[k]).rc.RcSuccess? then RcTimeout else status(ids[k]).rc
    ensures rc == RcSuccess <==> forall i | 0 <= i < n :: !Stops(status(job_ids[i]), false)
  {
    for j := 0 to n
      invariant forall i | 0 <= i < j :: !Stops(status(job_ids[i]), false) && exit_codes[i] == status(job_ids[i]).code
    {
      var s := status(job_ids[j]);
      if Stops(s, false) {
        FirstStopAt(job_ids[..n], status, false, j);
      }
      if !s.rc.RcSuccess? {
        return s.rc;
      } else if !s.finished {
        return RcTimeout;
      }
      exit_codes[j] := s.code;
    }
    FirstStopAt(job_ids[..n], status, false, n);
    rc := RcSuccess;
  }
}
