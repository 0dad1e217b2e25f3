/** The dependency table of the job pool: a list is set when its job is created and goes with it; the end of a job
    crosses it off every list, and a held job is released when its list is all crossed off. */
module Dependencies {
  import opened Jobs
  import opened Reactions
  import opened Tokens
  import opened LifeCycle
  import opened Conservation
  import opened Steps
  import Client
  import Dispatcher

  const DONE := -2

  function CrossOff(deps: seq<int>, job: nat): (r: seq<int>)
    ensures |r| == |deps|
  { seq(|deps|, k requires 0 <= k < |deps| => if deps[k] == job then DONE else deps[k]) }

  predicate AllDone(deps: seq<int>) { forall d <- deps :: d == DONE }

  lemma AllDoneNext(deps: seq<int>, d: int)
    ensures AllDone(deps + [d]) <==> AllDone(deps) && d == DONE
  {
    if AllDone(deps + [d]) {
      assert forall x <- deps :: x in deps + [d];
      assert d in deps + [d];
    }
  }

  /** A list after some jobs have ended, in order. */
  function AfterEnds(deps: seq<int>, ended: seq<nat>): seq<int> {
    if ended == [] then deps else CrossOff(AfterEnds(deps, ended[..|ended| - 1]), ended[|ended| - 1])
  }

  lemma {:induction false} EntryAfter(deps: seq<int>, ended: seq<nat>, k: nat)
    requires k < |deps|
    ensures |AfterEnds(deps, ended)| == |deps|
    ensures AfterEnds(deps, ended)[k] == if deps[k] in ended then DONE else deps[k]
  {
    if ended != [] {
      var n := |ended| - 1;
      EntryAfter(deps, ended[..n], k);
      assert ended == ended[..n] + [ended[n]];
      assert deps[k] in ended <==> deps[k] in ended[..n] || deps[k] == ended[n];
    }
  }

  /** A job is released by exactly the ends that complete its list: its list is all crossed off if and only if every
      job on it has ended, in whatever order and however often. */
  lemma ReleasedWhenAllEnded(deps: seq<int>, ended: seq<nat>)
    ensures AllDone(AfterEnds(deps, ended)) <==> forall d <- deps :: d == DONE || d in ended
  {
    var r := AfterEnds(deps, ended);
    forall k: nat | k < |deps|
      ensures |r| == |deps| && r[k] == if deps[k] in ended then DONE else deps[k]
    {
      EntryAfter(deps, ended, k);
    }
    if deps == [] {
      NothingAfter(ended);
    } else {
      EntryAfter(deps, ended, 0);
      if forall d <- deps :: d == DONE || d in ended {
        forall d | d in r ensures d == DONE {
          var k :| 0 <= k < |r| && r[k] == d;
          assert deps[k] in deps;
        }
      } else {
        var d :| d in deps && d != DONE && d !in ended;
        var k :| 0 <= k < |deps| && deps[k] == d;
        assert r[k] in r;
      }
    }
  }

  lemma {:induction false} NothingAfter(ended: seq<nat>)
    ensures AfterEnds([], ended) == []
  {
    if ended != [] {
      NothingAfter(ended[..|ended| - 1]);
    }
  }

  /** A list that is all crossed off stays so: the end of any other job releases the held job again. */
  lemma ReleasedAgain(deps: seq<int>, job: nat)
    requires AllDone(deps)
    ensures AllDone(CrossOff(deps, job))
  {
    forall d | d in CrossOff(deps, job) ensures d == DONE {
      var k :| 0 <= k < |deps| && CrossOff(deps, job)[k] == d;
      assert deps[k] in deps;
    }
  }

  lemma EndsOnce(deps: seq<int>, ended: seq<nat>, job: nat)
    ensures AfterEnds(deps, ended + [job]) == CrossOff(AfterEnds(deps, ended), job)
  {
    assert (ended + [job])[..|ended|] == ended;
  }

  // ------------------------------------------------------------------------------------------
  // Lists over runs
  // ------------------------------------------------------------------------------------------

  /** A list as it was set, and the jobs that have ended since. */
  datatype Watch = Watch(list: seq<int>, since: seq<nat>)
  {
    predicate Done() { AllDone(AfterEnds(list, since)) }

    function Ended(x: nat): Watch { Watch(list, since + [x]) }
  }

  /** Every job on the list has ended since the list was set. */
  predicate AllEnded(list: seq<int>, since: seq<nat>) { forall d <- list :: d == DONE || d in since }

  /** A list is set for a job that lives, after its creation. */
  datatype Act = Step(ev: Event) | DepSet(job: nat, list: seq<int>)

  /** The step is the normal end of a job. */
  predicate Ends(s: Sys, ev: Event) {
    && ev.Handle? && s.queue != [] && s.queue[0].act == Go(Zombie) && s.Alive(s.queue[0].job)
    && s.jobs[s.queue[0].job].value.state.Epilog?
  }

  /** The lists after the end of job x. */
  function AllEnd(watches: seq<Option<Watch>>, x: nat): (r: seq<Option<Watch>>)
    ensures |r| == |watches|
  {
    seq(|watches|, i requires 0 <= i < |watches| =>
      if watches[i].Some? then Some(watches[i].value.Ended(x)) else None)
  }

  /** A job that is freed takes its list with it. */
  function Kept(s: Sys, watches: seq<Option<Watch>>): (r: seq<Option<Watch>>)
    ensures |r| == |watches|
  { seq(|watches|, i requires 0 <= i < |watches| => if s.Alive(i) then watches[i] else None) }

  /** The slots that have a list with nothing left to wait for. */
  function ReadySlots(watches: seq<Option<Watch>>): set<nat> {
    set i: nat | i < |watches| && watches[i].Some? && watches[i].value.Done()
  }

  function ListsAfter(s: Sys, watches: seq<Option<Watch>>, ev: Event): (r: seq<Option<Watch>>)
    requires Enabled(s, ev)
    ensures |r| == |watches|
  { Kept(Next(s, ev), if Ends(s, ev) then AllEnd(watches, s.queue[0].job) else watches) }

  /** An empty list is none. */
  function SetList(watches: seq<Option<Watch>>, job: nat, list: seq<int>): seq<Option<Watch>>
    requires job < |watches|
  { watches[job := if list == [] then None else Some(Watch(list, []))] }

  /** At the end of a job the slots that are ready are those of the table. */
  ghost predicate CanAct(s: Sys, watches: seq<Option<Watch>>, a: Act) {
    match a
    case Step(ev) => Enabled(s, ev) && (Ends(s, ev) ==> ev.env.ready == ReadySlots(AllEnd(watches, s.queue[0].job)))
    case DepSet(job, _) => s.Alive(job) && job < |watches|
  }

  ghost function Acts(s: Sys, watches: seq<Option<Watch>>, a: Act): (Sys, seq<Option<Watch>>)
    requires CanAct(s, watches, a)
  {
    match a
    case Step(ev) => (Next(s, ev), ListsAfter(s, watches, ev))
    case DepSet(job, list) => (s, SetList(watches, job, list))
  }

  /** Only a live job has a list. */
  predicate ListsBelong(s: Sys, watches: seq<Option<Watch>>) {
    |watches| == |s.jobs| && forall i | 0 <= i < |watches| && watches[i].Some? :: s.Alive(i)
  }

  lemma SameSlots(s: Sys, ev: Event)
    requires Enabled(s, ev)
    ensures |Next(s, ev).jobs| == |s.jobs|
  {
  }

  lemma ActBelongs(s: Sys, watches: seq<Option<Watch>>, a: Act)
    requires ListsBelong(s, watches) && CanAct(s, watches, a)
    ensures var (t, lists) := Acts(s, watches, a); ListsBelong(t, lists)
  {
    if a.Step? {
      SameSlots(s, a.ev);
    }
  }

  /** A new job starts without a list, whatever job had its slot before. */
  lemma NewJobHasNoList(s: Sys, watches: seq<Option<Watch>>, id: nat, init: Job)
    requires ListsBelong(s, watches) && Enabled(s, NewJob(id, init))
    ensures var (t, lists) := Acts(s, watches, Step(NewJob(id, init))); t.Alive(id) && lists[id].None?
  {
  }

  // ------------------------------------------------------------------------------------------
  // Releases
  // ------------------------------------------------------------------------------------------

  /** The user's release of the job is handled. */
  predicate Releases(s: Sys, ev: Event, i: nat) {
    ev.Handle? && s.queue != [] && s.queue[0].job == i && s.queue[0].act == Ask(SigRelease)
  }

  /** The end of a job completes the list of job i. */
  predicate Completes(s: Sys, watches: seq<Option<Watch>>, ev: Event, i: nat)
    requires i < |watches|
  {
    Ends(s, ev) && watches[i].Some? && AllEnded(watches[i].value.list, watches[i].value.since + [s.queue[0].job])
  }

  lemma ReadyIff(watches: seq<Option<Watch>>, x: nat, i: nat)
    requires i < |watches|
    ensures i in ReadySlots(AllEnd(watches, x)) <==>
            watches[i].Some? && AllEnded(watches[i].value.list, watches[i].value.since + [x])
  {
    if watches[i].Some? {
      ReleasedWhenAllEnded(watches[i].value.list, watches[i].value.since + [x]);
    }
  }

  lemma WokenAt(s: Sys, j: Job, r: Reaction, e: Env, i: nat)
    requires s.queue != [] && s.queue[0].job < |s.jobs| && i != s.queue[0].job && s.Alive(i)
    requires s.jobs[i].value.state.Hold?
    ensures var t := Conclude(Popped(s), s.queue[0], j, r, e);
      t.Alive(i) && t.jobs[i].value.state == if r.wakes && i in e.ready then Pending else Hold
  {
  }

  lemma WakesIff(a: Action, j: Job, e: Env)
    ensures React(a, j, e).wakes <==> a == Go(Zombie) && j.state.Epilog?
  {
  }

  lemma HeldSignal(sig: Signal, j: Job, e: Env)
    requires j.state.Hold?
    ensures var r := React(Ask(sig), j, e);
      r.job.Some? ==> r.job.value.state == if sig.SigRelease? then Pending else Hold
  {
  }

  lemma OwnAction(s: Sys, e: Env, i: nat)
    requires Inv(s) && s.queue != [] && s.queue[0].job == i && s.Alive(i) && s.jobs[i].value.state.Hold?
    requires Next(s, Handle(e)).Alive(i)
    ensures Next(s, Handle(e)).jobs[i].value.state == if s.queue[0].act == Ask(SigRelease) then Pending else Hold
  {
    var it, j := s.queue[0], s.jobs[i].value;
    assert JobOk(s, i);
    assert TokensOf(s.queue, i) == [];
    WakesIff(it.act, j, e);
    if it.act.Ask? {
      HeldSignal(it.act.sig, j, e);
    }
  }

  lemma HandleReleases(s: Sys, e: Env, i: nat)
    requires Inv(s) && s.queue != [] && s.Alive(i) && s.jobs[i].value.state.Hold? && Next(s, Handle(e)).Alive(i)
    ensures Next(s, Handle(e)).jobs[i].value.state ==
            if Releases(s, Handle(e), i) || (Ends(s, Handle(e)) && i in e.ready) then Pending else Hold
  {
    var it := s.queue[0];
    if it.job == i {
      OwnAction(s, e, i);
    } else if s.Alive(it.job) {
      var j := s.jobs[it.job].value;
      WakesIff(it.act, j, e);
      WokenAt(s, j, React(it.act, j, e), e, i);
    }
  }

  lemma DispatchHolds(s: Sys, id: nat, host: nat, wrapperBased: bool, add: AddResult, i: nat)
    requires s.Alive(i) && s.jobs[i].value.state.Hold?
    ensures Assign(s, id, host, wrapperBased, add).jobs == s.jobs || id != i
    ensures Assign(s, id, host, wrapperBased, add).Alive(i)
    ensures Assign(s, id, host, wrapperBased, add).jobs[i] == s.jobs[i]
  {
  }

  lemma OthersHold(s: Sys, ev: Event, i: nat)
    requires Enabled(s, ev) && !ev.Handle? && s.Alive(i) && s.jobs[i].value.state.Hold?
    ensures Next(s, ev).Alive(i) && Next(s, ev).jobs[i].value.state.Hold?
  {
    if ev.NewArray? {
      Enrolled(s.jobs, ev.ids, ev.aid, ev.init);
    } else if ev.Dispatch? {
      DispatchHolds(s, ev.job, ev.host, ev.wrapperBased, ev.add, i);
    }
  }

  /** In any step a held job that lives on is released if and only if its user asks for it, or a job ends and every job
      on the list has ended since the list was set. A job without a list is released by its user alone. */
  lemma ReleasedIff(s: Sys, watches: seq<Option<Watch>>, ev: Event, i: nat)
    requires Inv(s) && CanAct(s, watches, Step(ev)) && i < |watches|
    requires s.Alive(i) && s.jobs[i].value.state.Hold? && Next(s, ev).Alive(i)
    ensures Next(s, ev).jobs[i].value.state ==
            if Releases(s, ev, i) || Completes(s, watches, ev, i) then Pending else Hold
  {
    if ev.Handle? {
      HandleReleases(s, ev.env, i);
      if Ends(s, ev) {
        ReadyIff(watches, s.queue[0].job, i);
      }
    } else {
      OthersHold(s, ev, i);
    }
  }

  // ------------------------------------------------------------------------------------------
  // Over runs
  // ------------------------------------------------------------------------------------------

  ghost predicate CanActAll(s: Sys, watches: seq<Option<Watch>>, run: seq<Act>)
    decreases |run|
  {
    run != [] ==>
      CanAct(s, watches, run[0]) && CanActAll(Acts(s, watches, run[0]).0, Acts(s, watches, run[0]).1, run[1..])
  }

  ghost function AfterActs(s: Sys, watches: seq<Option<Watch>>, run: seq<Act>): (Sys, seq<Option<Watch>>)
    requires CanActAll(s, watches, run)
    decreases |run|
  {
    if run == [] then (s, watches)
    else AfterActs(Acts(s, watches, run[0]).0, Acts(s, watches, run[0]).1, run[1..])
  }

  ghost predicate CleanActs(s: Sys, watches: seq<Option<Watch>>, run: seq<Act>)
    requires CanActAll(s, watches, run)
    decreases |run|
  {
    run != [] ==>
      && (run[0].Step? ==> Clean(s, run[0].ev))
      && CleanActs(Acts(s, watches, run[0]).0, Acts(s, watches, run[0]).1, run[1..])
  }

  /** The jobs that end normally in a run, in order. */
  ghost function EndsOf(s: Sys, watches: seq<Option<Watch>>, run: seq<Act>): seq<nat>
    requires CanActAll(s, watches, run)
    decreases |run|
  {
    if run == [] then []
    else (if run[0].Step? && Ends(s, run[0].ev) then [s.queue[0].job] else [])
         + EndsOf(Acts(s, watches, run[0]).0, Acts(s, watches, run[0]).1, run[1..])
  }

  /** Job i lives throughout the run, and no list is set for it. */
  ghost predicate KeepsList(s: Sys, watches: seq<Option<Watch>>, run: seq<Act>, i: nat)
    requires CanActAll(s, watches, run)
    decreases |run|
  {
    s.Alive(i)
    && (run != [] ==>
          && !(run[0].DepSet? && run[0].job == i)
          && KeepsList(Acts(s, watches, run[0]).0, Acts(s, watches, run[0]).1, run[1..], i))
  }

  lemma ListStep(s: Sys, watches: seq<Option<Watch>>, a: Act, i: nat)
    requires CanAct(s, watches, a) && i < |watches| && watches[i].Some? && !(a.DepSet? && a.job == i)
    requires Acts(s, watches, a).0.Alive(i)
    ensures |Acts(s, watches, a).1| == |watches|
    ensures Acts(s, watches, a).1[i] ==
            Some(Watch(watches[i].value.list,
                       watches[i].value.since + if a.Step? && Ends(s, a.ev) then [s.queue[0].job] else []))
  {
    assert watches[i].value.since + [] == watches[i].value.since;
  }

  /** A list remembers exactly the ends since it was set. */
  lemma {:induction false} SinceIs(s: Sys, watches: seq<Option<Watch>>, run: seq<Act>, i: nat)
    requires CanActAll(s, watches, run) && i < |watches| && watches[i].Some? && KeepsList(s, watches, run, i)
    ensures AfterActs(s, watches, run).0.Alive(i)
    ensures var lists := AfterActs(s, watches, run).1;
      && i < |lists|
      && lists[i] == Some(Watch(watches[i].value.list, watches[i].value.since + EndsOf(s, watches, run)))
    decreases |run|
  {
    if run == [] {
      assert watches[i].value.since + [] == watches[i].value.since;
    } else {
      var (t, lists) := Acts(s, watches, run[0]);
      ListStep(s, watches, run[0], i);
      SinceIs(t, lists, run[1..], i);
      var first := if run[0].Step? && Ends(s, run[0].ev) then [s.queue[0].job] else [];
      Regroup(watches[i].value.since, first, EndsOf(t, lists, run[1..]));
    }
  }

  lemma Regroup(a: seq<nat>, b: seq<nat>, c: seq<nat>)
    ensures (a + b) + c == a + (b + c)
  {
  }

  /** A run and the run after it. */
  lemma {:induction false} JoinActs(s: Sys, watches: seq<Option<Watch>>, a: seq<Act>, b: seq<Act>)
    requires CanActAll(s, watches, a)
    requires CanActAll(AfterActs(s, watches, a).0, AfterActs(s, watches, a).1, b)
    ensures CanActAll(s, watches, a + b)
    ensures AfterActs(s, watches, a + b) == AfterActs(AfterActs(s, watches, a).0, AfterActs(s, watches, a).1, b)
    decreases |a|
  {
    if a == [] {
      assert a + b == b;
    } else {
      assert (a + b)[1..] == a[1..] + b;
      JoinActs(Acts(s, watches, a[0]).0, Acts(s, watches, a[0]).1, a[1..], b);
    }
  }

  lemma {:induction false} JoinClean(s: Sys, watches: seq<Option<Watch>>, a: seq<Act>, b: seq<Act>)
    requires CanActAll(s, watches, a) && CanActAll(s, watches, a + b) && CleanActs(s, watches, a)
    requires CanActAll(AfterActs(s, watches, a).0, AfterActs(s, watches, a).1, b)
    requires CleanActs(AfterActs(s, watches, a).0, AfterActs(s, watches, a).1, b)
    ensures CleanActs(s, watches, a + b)
    decreases |a|
  {
    if a == [] {
      assert a + b == b;
    } else {
      assert (a + b)[1..] == a[1..] + b;
      JoinClean(Acts(s, watches, a[0]).0, Acts(s, watches, a[0]).1, a[1..], b);
    }
  }

  lemma {:induction false} JoinEnds(s: Sys, watches: seq<Option<Watch>>, a: seq<Act>, b: seq<Act>)
    requires CanActAll(s, watches, a) && CanActAll(s, watches, a + b)
    requires CanActAll(AfterActs(s, watches, a).0, AfterActs(s, watches, a).1, b)
    ensures EndsOf(s, watches, a + b) ==
            EndsOf(s, watches, a) + EndsOf(AfterActs(s, watches, a).0, AfterActs(s, watches, a).1, b)
    decreases |a|
  {
    if a == [] {
      assert a + b == b;
    } else {
      assert (a + b)[1..] == a[1..] + b;
      var (t, lists) := Acts(s, watches, a[0]);
      JoinEnds(t, lists, a[1..], b);
      Regroup(if a[0].Step? && Ends(s, a[0].ev) then [s.queue[0].job] else [], EndsOf(t, lists, a[1..]),
              EndsOf(AfterActs(s, watches, a).0, AfterActs(s, watches, a).1, b));
    }
  }

  /** In every state that a run of an idle system reaches, only live jobs have lists: no job inherits one with its
      slot. */
  lemma {:induction false} ListsAlwaysBelong(s: Sys, watches: seq<Option<Watch>>, run: seq<Act>)
    requires ListsBelong(s, watches) && CanActAll(s, watches, run)
    ensures ListsBelong(AfterActs(s, watches, run).0, AfterActs(s, watches, run).1)
    decreases |run|
  {
    if run != [] {
      ActBelongs(s, watches, run[0]);
      ListsAlwaysBelong(Acts(s, watches, run[0]).0, Acts(s, watches, run[0]).1, run[1..]);
    }
  }

  lemma {:induction false} ReachableLists(jobs: nat, hosts: nat, users: nat, arrays: nat, run: seq<Act>, none: seq<Option<Watch>>)
    requires |none| == jobs && (forall i | 0 <= i < jobs :: none[i].None?)
    requires CanActAll(Start(jobs, hosts, users, arrays), none, run)
    ensures var (t, lists) := AfterActs(Start(jobs, hosts, users, arrays), none, run); ListsBelong(t, lists)
  {
    ListsAlwaysBelong(Start(jobs, hosts, users, arrays), none, run);
  }

  lemma {:induction false} ActsKeep(s: Sys, watches: seq<Option<Watch>>, run: seq<Act>)
    requires Inv(s) && CanActAll(s, watches, run) && CleanActs(s, watches, run)
    ensures Inv(AfterActs(s, watches, run).0)
    decreases |run|
  {
    if run != [] {
      if run[0].Step? {
        StepKeeps(s, run[0].ev);
      }
      ActsKeep(Acts(s, watches, run[0]).0, Acts(s, watches, run[0]).1, run[1..]);
    }
  }

  lemma EndKeepsOthers(s: Sys, e: Env, i: nat)
    requires Ends(s, Handle(e)) && i != s.queue[0].job && s.Alive(i) && s.jobs[i].value.state.Hold?
    ensures Next(s, Handle(e)).Alive(i)
  {
    var j := s.jobs[s.queue[0].job].value;
    WokenAt(s, j, React(s.queue[0].act, j, e), e, i);
  }

  lemma EndReleases(t: Sys, lists: seq<Option<Watch>>, e: Env, i: nat, w: Watch)
    requires Inv(t) && CanAct(t, lists, Step(Handle(e))) && Ends(t, Handle(e)) && i < |lists| && lists[i] == Some(w)
    requires t.Alive(i) && t.jobs[i].value.state.Hold?
    ensures var u := Next(t, Handle(e));
      u.Alive(i) && u.jobs[i].value.state == if AllEnded(w.list, w.since + [t.queue[0].job]) then Pending else Hold
  {
    EndKeepsOthers(t, e, i);
    ReleasedIff(t, lists, Handle(e), i);
  }

  /** Counting earlier ends makes a difference exactly when every job on the list has ended, but one of them only
      before. */
  lemma PromiseIff(list: seq<int>, before: seq<nat>, since: seq<nat>)
    ensures (AllEnded(list, since) <==> AllEnded(list, before + since)) <==>
            !(AllEnded(list, before + since) && exists d <- list :: d != DONE && d !in since)
  {
  }

  /** A job's list is set, a run follows in which the job lives, and then, the job being held, another job ends: job i
      is released if and only if every job on the list has ended since the list was set. That is as promised, which
      counts the ends before too, unless every job on the list has ended, but one of them only before. */
  lemma {:induction false} ReleasedByEnds(s: Sys, watches: seq<Option<Watch>>, run: seq<Act>, e: Env, i: nat, before: seq<nat>)
    requires Inv(s) && CanActAll(s, watches, run) && CleanActs(s, watches, run) && KeepsList(s, watches, run, i)
    requires i < |watches| && watches[i].Some? && watches[i].value.since == []
    requires var (t, lists) := AfterActs(s, watches, run);
      && CanAct(t, lists, Step(Handle(e))) && Ends(t, Handle(e))
      && t.Alive(i) && t.jobs[i].value.state.Hold?
    ensures var t := AfterActs(s, watches, run).0; var u := Next(t, Handle(e)); var list := watches[i].value.list;
      var since := EndsOf(s, watches, run) + [t.queue[0].job];
      && u.Alive(i) && u.jobs[i].value.state == (if AllEnded(list, since) then Pending else Hold)
      && ((u.jobs[i].value.state.Pending? <==> AllEnded(list, before + since)) <==>
          !(AllEnded(list, before + since) && exists d <- list :: d != DONE && d !in since))
  {
    var (t, lists) := AfterActs(s, watches, run);
    var ends := EndsOf(s, watches, run);
    ActsKeep(s, watches, run);
    SinceIs(s, watches, run, i);
    assert [] + ends == ends;
    EndReleases(t, lists, e, i, Watch(watches[i].value.list, ends));
    PromiseIff(watches[i].value.list, before, ends + [t.queue[0].job]);
  }

  /** In particular it is as promised whenever no job on the list had ended before the list was set. */
  lemma PromisedRelease(list: seq<int>, before: seq<nat>, since: seq<nat>)
    requires forall d <- list :: d !in before
    ensures AllEnded(list, before + since) <==> AllEnded(list, since)
  {
  }

  /** No release of the job is handled in the run. */
  ghost predicate NoRelease(s: Sys, watches: seq<Option<Watch>>, run: seq<Act>, i: nat)
    requires CanActAll(s, watches, run)
    decreases |run|
  {
    run != [] ==>
      && !(run[0].Step? && Releases(s, run[0].ev, i))
      && NoRelease(Acts(s, watches, run[0]).0, Acts(s, watches, run[0]).1, run[1..], i)
  }

  /** A held job with a job on its list that has not ended since the list was set, and does not end in the run, stays on
      hold as long as the user does not release it. */
  lemma {:induction false} StaysHeld(s: Sys, watches: seq<Option<Watch>>, run: seq<Act>, i: nat, d: int)
    requires Inv(s) && CanActAll(s, watches, run) && CleanActs(s, watches, run) && KeepsList(s, watches, run, i)
    requires s.jobs[i].value.state.Hold? && NoRelease(s, watches, run, i)
    requires i < |watches| && watches[i].Some? && d in watches[i].value.list && d != DONE
    requires d !in watches[i].value.since && d !in EndsOf(s, watches, run)
    ensures var t := AfterActs(s, watches, run).0; t.Alive(i) && t.jobs[i].value.state.Hold?
    decreases |run|
  {
    if run != [] {
      var (t, lists) := Acts(s, watches, run[0]);
      ListStep(s, watches, run[0], i);
      if run[0].Step? {
        ReleasedIff(s, watches, run[0].ev, i);
        StepKeeps(s, run[0].ev);
      }
      StaysHeld(t, lists, run[1..], i, d);
    }
  }

  /** A held job without a list, whatever its slot held before, stays on hold as long as the user does not release
      it. */
  lemma {:induction false} UnlistedStaysHeld(s: Sys, watches: seq<Option<Watch>>, run: seq<Act>, i: nat)
    requires Inv(s) && CanActAll(s, watches, run) && CleanActs(s, watches, run) && KeepsList(s, watches, run, i)
    requires s.jobs[i].value.state.Hold? && NoRelease(s, watches, run, i) && i < |watches| && watches[i].None?
    ensures var (t, lists) := AfterActs(s, watches, run);
      t.Alive(i) && t.jobs[i].value.state.Hold? && i < |lists| && lists[i].None?
    decreases |run|
  {
    if run != [] {
      var (t, lists) := Acts(s, watches, run[0]);
      if run[0].Step? {
        ReleasedIff(s, watches, run[0].ev, i);
        StepKeeps(s, run[0].ev);
      }
      UnlistedStaysHeld(t, lists, run[1..], i);
    }
  }

  // ------------------------------------------------------------------------------------------
  // The table
  // ------------------------------------------------------------------------------------------

  /** The table holds the lists, crossed off by the ends since each was set. */
  ghost predicate Tracks(table: seq<Option<seq<int>>>, watches: seq<Option<Watch>>) {
    && |table| == |watches|
    && forall i | 0 <= i < |watches| ::
         if watches[i].None? then table[i].None?
         else table[i] == Some(AfterEnds(watches[i].value.list, watches[i].value.since))
  }

  class DependencyTable {
    const deps: array<Option<seq<int>>>

    constructor (number_of_jobs: nat)
      ensures fresh(deps) && deps.Length == number_of_jobs && forall i | 0 <= i < deps.Length :: deps[i].None?
    {
      deps := new Option<seq<int>>[number_of_jobs](i => None);
    }

    /** Slot i after the end of a job. */
    ghost predicate Crossed(before: Option<seq<int>>, after: Option<seq<int>>, job: nat) {
      if before.None? then after.None? else after == Some(CrossOff(before.value, job))
    }

    /** Crosses the job off one list; true if that leaves nothing to wait for. */
    method Cross(i: nat, job: nat) returns (all_done: bool)
      requires i < deps.Length && deps[i].Some?
      modifies deps
      ensures deps[..] == old(deps[..])[i := Some(CrossOff(old(deps[i]).value, job))]
      ensures all_done == AllDone(CrossOff(old(deps[i]).value, job))
    {
      var list := deps[i].value;
      ghost var was := list;
      ghost var goal := CrossOff(was, job);
      all_done := true;
      for j := 0 to |list|
        invariant |list| == |goal| == |was|
        invariant forall k | 0 <= k < |was| :: list[k] == if k < j then goal[k] else was[k]
        invariant all_done == AllDone(goal[..j])
        invariant deps[..] == old(deps[..])
      {
        assert goal[..j + 1] == goal[..j] + [goal[j]];
        AllDoneNext(goal[..j], goal[j]);
        if list[j] == job {
          list := list[j := DONE];
        } else if list[j] != DONE {
          all_done := false;
        }
      }
      assert list == goal && goal[..|goal|] == goal;
      deps[i] := Some(list);
    }

    /** A list is copied up to its end; an empty one is none. */
    method DepSet(job: int, src: array<int>, ghost watches: seq<Option<Watch>>)
      requires -1 in src[..] && Tracks(deps[..], watches)
      modifies deps
      ensures var inPool := 0 <= job < deps.Length;
        Tracks(deps[..], if inPool then SetList(watches, job, Client.BeforeEnd(src[..])) else watches)
    {
      if 0 <= job < deps.Length {
        var n := 0;
        while src[n] != -1
          invariant n < src.Length && -1 !in src[..n]
          decreases src.Length - n
        {
          assert src[..n + 1] == src[..n] + [src[n]];
          n := n + 1;
        }
        assert forall k | 0 <= k < n :: src[..n][k] != -1;
        Client.EndsAt(src[..], n);
        deps[job] := if n == 0 then None else Some(src[..n]);
      }
    }

    /** The list goes with its job. */
    method DepFree(job: nat)
      requires job < deps.Length
      modifies deps
      ensures deps[..] == old(deps[..])[job := None]
    {
      if deps[job].Some? {
        deps[job] := None;
      }
    }

    /** The end of a job: every list is updated, and the slots with nothing left to wait for are ready. */
    method DepCheck(job: nat, ghost watches: seq<Option<Watch>>) returns (ready: set<nat>)
      requires Tracks(deps[..], watches)
      modifies deps
      ensures Tracks(deps[..], AllEnd(watches, job)) && ready == ReadySlots(AllEnd(watches, job))
    {
      ready := {};
      for i := 0 to deps.Length
        invariant forall k | 0 <= k < i :: Crossed(old(deps[k]), deps[k], job)
        invariant forall k | i <= k < deps.Length :: deps[k] == old(deps[k])
        invariant forall k: nat :: k in ready <==> k < i && deps[k].Some? && AllDone(deps[k].value)
      {
        if deps[i].Some? {
          var all_done := Cross(i, job);
          if all_done {
            ready := ready + {i};
          }
        }
      }
      forall i | 0 <= i < deps.Length && watches[i].Some?
        ensures deps[i] == Some(AfterEnds(watches[i].value.list, watches[i].value.since + [job]))
      {
        assert old(deps[..])[i] == Some(AfterEnds(watches[i].value.list, watches[i].value.since));
        EndsOnce(watches[i].value.list, watches[i].value.since, job);
      }
    }
  }

  /** The environment of a handler, with the slots that the table finds ready. */
  function WithReady(e: Env, ready: set<nat>): Env { e.(ready := ready) }

  lemma SameEnds(s: Sys, e: Env, ready: set<nat>)
    ensures Ends(s, Handle(e)) <==> Ends(s, Handle(WithReady(e, ready)))
  {
  }

  /** After a handler only the slot of its job can have been emptied. */
  lemma OneFreed(s: Sys, watches: seq<Option<Watch>>, e: Env)
    requires s.queue != [] && ListsBelong(s, watches)
    ensures var t := Next(s, Handle(e)); var id := s.queue[0].job;
      && |t.jobs| == |s.jobs|
      && Kept(t, watches) == (if s.Alive(id) && !t.Alive(id) then watches[id := None] else watches)
  {
    OthersLive(s, e);
    KeptBut(s, Next(s, Handle(e)), watches, s.queue[0].job);
  }

  lemma OthersLive(s: Sys, e: Env)
    requires s.queue != []
    ensures var t := Next(s, Handle(e)); var id := s.queue[0].job;
      && |t.jobs| == |s.jobs| && (t.Alive(id) ==> s.Alive(id))
      && forall i: nat | i < |s.jobs| && i != id :: t.Alive(i) <==> s.Alive(i)
  {
  }

  lemma KeptBut(s: Sys, t: Sys, watches: seq<Option<Watch>>, id: nat)
    requires ListsBelong(s, watches) && |t.jobs| == |s.jobs| && (t.Alive(id) ==> s.Alive(id))
    requires forall i: nat | i < |s.jobs| && i != id :: t.Alive(i) <==> s.Alive(i)
    ensures Kept(t, watches) == (if s.Alive(id) && !t.Alive(id) then watches[id := None] else watches)
  {
  }

  /** At the end of a job, the lists after it. */
  function EndLists(s: Sys, watches: seq<Option<Watch>>, e: Env): (r: seq<Option<Watch>>)
    ensures |r| == |watches|
  { if Ends(s, Handle(e)) then AllEnd(watches, s.queue[0].job) else watches }

  /** The table is told of the end of a job, if the head of the queue is one. */
  method Look(dm: Dispatcher.DispatchManager, table: DependencyTable, e: Env, ghost watches: seq<Option<Watch>>)
    returns (ready: set<nat>)
    requires dm.queue != [] && Tracks(table.deps[..], watches)
    modifies table.deps
    ensures Tracks(table.deps[..], EndLists(dm.Snapshot(), watches, e))
    ensures Ends(dm.Snapshot(), Handle(e)) ==> ready == ReadySlots(EndLists(dm.Snapshot(), watches, e))
  {
    var it := dm.queue[0];
    ready := {};
    if it.act == Go(Zombie) && it.job < dm.pool.Length && dm.pool[it.job] != null && dm.pool[it.job].state.Epilog? {
      ready := table.DepCheck(it.job, watches);
    }
  }

  method Drop(table: DependencyTable, id: nat, ghost lists: seq<Option<Watch>>)
    requires Tracks(table.deps[..], lists) && id < table.deps.Length
    modifies table.deps
    ensures Tracks(table.deps[..], lists[id := None])
  {
    table.DepFree(id);
  }

  /** The step that a round takes, with what the table found. */
  lemma RoundActs(s: Sys, t: Sys, watches: seq<Option<Watch>>, e: Env, ready: set<nat>)
    requires s.queue != [] && ListsBelong(s, watches) && t == Next(s, Handle(WithReady(e, ready)))
    requires Ends(s, Handle(e)) ==> ready == ReadySlots(EndLists(s, watches, e))
    ensures var a := Step(Handle(WithReady(e, ready))); var lists := Kept(t, EndLists(s, watches, e));
      && CanAct(s, watches, a) && Acts(s, watches, a) == (t, lists) && ListsBelong(t, lists)
      && var id := s.queue[0].job; var freed := s.Alive(id) && !t.Alive(id);
         lists == if freed then EndLists(s, watches, e)[id := None] else EndLists(s, watches, e)
  {
    SameEnds(s, e, ready);
    OneFreed(s, EndLists(s, watches, e), WithReady(e, ready));
  }

  method Round(dm: Dispatcher.DispatchManager, table: DependencyTable, e: Env, ghost watches: seq<Option<Watch>>)
    returns (ready: set<nat>)
    requires dm.Valid() && dm.queue != [] && dm.HeadReady() && Tracks(table.deps[..], watches)
    modifies dm, dm.pool, dm.pool[..], table.deps
    ensures dm.Valid() && dm.Snapshot() == Next(old(dm.Snapshot()), Handle(WithReady(e, ready)))
    ensures Tracks(table.deps[..], EndLists(old(dm.Snapshot()), watches, e))
    ensures Ends(old(dm.Snapshot()), Handle(e)) ==> ready == ReadySlots(EndLists(old(dm.Snapshot()), watches, e))
  {
    ready := Look(dm, table, e, watches);
    dm.HandleNext(WithReady(e, ready));
  }

  /** One round of the manager's loop with the table at its side: at the end of a job the table releases the jobs that
      have nothing left to wait for, and a job that is freed takes its list with it. */
  method HandleNext(dm: Dispatcher.DispatchManager, table: DependencyTable, e: Env, ghost watches: seq<Option<Watch>>)
    returns (ready: set<nat>, ghost lists: seq<Option<Watch>>)
    requires dm.Valid() && dm.queue != [] && dm.HeadReady()
    requires Tracks(table.deps[..], watches) && ListsBelong(dm.Snapshot(), watches)
    modifies dm, dm.pool, dm.pool[..], table.deps
    ensures dm.Valid() && Tracks(table.deps[..], lists)
    ensures var a := Step(Handle(WithReady(e, ready)));
      && CanAct(old(dm.Snapshot()), watches, a)
      && (dm.Snapshot(), lists) == Acts(old(dm.Snapshot()), watches, a)
      && ListsBelong(dm.Snapshot(), lists)
  {
    ghost var s := dm.Snapshot();
    var id := dm.queue[0].job;
    var lives := id < dm.pool.Length && dm.pool[id] != null;
    ready := Round(dm, table, e, watches);
    ghost var t := dm.Snapshot();
    RoundActs(s, t, watches, e, ready);
    lists := Kept(t, EndLists(s, watches, e));
    if lives && dm.pool[id] == null {
      Drop(table, id, EndLists(s, watches, e));
    }
    assert dm.Snapshot() == t;
  }
}
