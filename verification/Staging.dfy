/** The entries that start transfers, with the lists they start them on: the handlers of the epilog and prolog states
    next to the transfer lists of the job. */
module Staging {
  import opened Jobs
  import opened Reactions
  import opened LifeCycle
  import opened Dispatcher
  import opened Transfers

  /** The template and the directories belong to the job; a job is wrapper-based only if its template has a wrapper. */
  predicate Describes(w: Work, j: Job) {
    && w.restarted == j.restarted && (w.t.preWrapper.Some? <==> j.preWrapper)
    && (WrapperBased(j) ==> w.t.wrapper.Some?)
  }

  predicate WrapperBased(j: Job) { j.history != [] && j.Head().wrapperBased }

  /** The head of the queue enters a state of a live job. */
  ghost predicate Enters(dm: DispatchManager, to: State)
    reads dm, dm.pool, dm.pool[..]
  {
    && dm.Valid() && dm.queue != [] && dm.HeadReady() && dm.queue[0].act == Go(to)
    && dm.queue[0].job < dm.pool.Length && dm.pool[dm.queue[0].job] != null
  }

  lemma EpilogStarts(s: Sys, to: State, e: Env)
    requires s.queue != [] && s.queue[0].act == Go(to) && InEpilog(to) && s.Alive(s.queue[0].job)
    ensures var id := s.queue[0].job; var t := Next(s, Handle(e));
      && t.Alive(id) && t.jobs[id].value.state == to && id in t.tm && t.tm[id] == EpilogXfer
      && WrapperBased(t.jobs[id].value) == WrapperBased(s.jobs[id].value)
      && t.jobs[id].value.restarted == s.jobs[id].value.restarted
  {
  }

  lemma PrologStarts(s: Sys, to: State, e: Env)
    requires s.queue != [] && s.queue[0].act == Go(to) && (to.Prolog? || to.MigrProlog?) && s.Alive(s.queue[0].job)
    ensures var id := s.queue[0].job; var t := Next(s, Handle(e));
      && t.Alive(id) && t.jobs[id].value == s.jobs[id].value.(state := to)
      && (e.environmentOk ==> id in t.tm && t.tm[id] == PrologXfer)
      && (!e.environmentOk ==> t.tm == s.tm)
  {
  }

  /** An epilog entry: the job enters the state, and the Transfer Manager owes it the end of exactly the transfers that
      the state asks for. */
  method StageOut(dm: DispatchManager, to: State, e: Env, w: Work, checkpointed: bool)
    returns (list: TransferList, index: nat)
    requires InEpilog(to) && Enters(dm, to) && Describes(w, dm.pool[dm.queue[0].job].Value())
    modifies dm, dm.pool, dm.pool[..]
    ensures dm.Valid() && dm.Snapshot() == Next(old(dm.Snapshot()), Handle(e))
    ensures var id := old(dm.queue[0].job); var t := dm.Snapshot();
      && t.Alive(id) && t.jobs[id].value.state == to && id in t.tm && t.tm[id] == EpilogXfer
      && Complete(list, index, EpilogFiles(to, w.t, WrapperBased(t.jobs[id].value), checkpointed), w)
      && w.restarted == t.jobs[id].value.restarted
  {
    var job := dm.pool[dm.queue[0].job];
    var wrapperBased := job.history != [] && job.history[0].wrapperBased;
    EpilogStarts(dm.Snapshot(), to, e);
    dm.HandleNext(e);
    list, index := BuildEpilog(to, w, wrapperBased, checkpointed);
  }

  /** A prolog entry: the same, if the job's environment file could be written; otherwise no list is made and nothing is
      started. */
  method StageIn(dm: DispatchManager, to: State, e: Env, w: Work) returns (list: TransferList?, index: nat)
    requires (to.Prolog? || to.MigrProlog?) && Enters(dm, to) && Describes(w, dm.pool[dm.queue[0].job].Value())
    requires w.migrating <==> to.MigrProlog?
    modifies dm, dm.pool, dm.pool[..]
    ensures dm.Valid() && dm.Snapshot() == Next(old(dm.Snapshot()), Handle(e))
    ensures list != null <==> e.environmentOk
    ensures var id := old(dm.queue[0].job); var t := dm.Snapshot();
      && t.Alive(id) && t.jobs[id].value.state == to && w.restarted == t.jobs[id].value.restarted
      && (WrapperBased(t.jobs[id].value) ==> w.t.wrapper.Some?)
      && (list == null ==> t.tm == old(dm.Snapshot()).tm)
      && (list != null ==>
            var files := PrologFiles(w.t, WrapperBased(t.jobs[id].value), w.restarted != 0);
            && id in t.tm && t.tm[id] == PrologXfer && list.work == w && index == list.xfrs.Length
            && list.Holds(files, index) && LimitFronts(list.failure_limit, files))
  {
    var job := dm.pool[dm.queue[0].job];
    var wrapperBased := job.history != [] && job.history[0].wrapperBased;
    PrologStarts(dm.Snapshot(), to, e);
    dm.HandleNext(e);
    list, index := null, 0;
    if e.environmentOk {
      list, index := BuildProlog(w, wrapperBased);
    }
  }
}
