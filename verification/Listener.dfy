/** The two sides of the scheduling flag: the timer's schedule action, which starts a round unless one is going on, and
    the listener thread, which serves the scheduler's messages and ends the round. */
module Listener {
  import opened Jobs
  import opened LifeCycle
  import opened Conservation
  import opened Dispatcher
  import S = Scheduling

  /** A host and whether the job runs wrapper-based there. */
  datatype Resource = Resource(host: nat, wrapperBased: bool)

  datatype Message =
    | ScheduleJob(job: nat, resource: Option<Resource>)
    | ScheduleFailed(job: nat)
    | ScheduleEnd
    | Unknown

  /** A timer thread starts a round if none is being prepared or outstanding: every job is checked and the round is
      written to the scheduler. Otherwise it changes nothing. */
  method Schedule(dm: DispatchManager, round: S.Scheduler, thread: nat, now: int, period: int, ran: nat -> int)
    requires dm.Valid() && thread !in round.inside
    modifies dm.pool[..], round
    ensures dm.Valid() && (old(Inv(dm.Snapshot())) ==> Inv(dm.Snapshot()))
    ensures round.View() == if old(round.scheduling) then old(round.View())
                            else S.After(S.After(old(round.View()), S.TestAndSet(thread)), S.Write(thread))
    ensures dm.Snapshot() == if old(round.scheduling) then old(dm.Snapshot())
                             else old(dm.Snapshot()).(
                               jobs := CheckedFrom(old(dm.JobsNow()), dm.pool.Length, now, period, ran))
    ensures old(S.Exclusive(round.View())) ==>
      && round.View() == (if old(round.scheduling) then old(round.View()) else S.Rounds(true, {}, 1))
      && (old(round.scheduling) <==> old(round.inside) != {} || old(round.outstanding) == 1)
  {
    var entered := round.TryEnter(thread);
    if entered {
      dm.CheckJobs(now, period, ran);
      round.WriteRound(thread);
    }
  }

  /** A job is dispatched, or its rescheduling flag cleared; a bad resource or an unknown message changes nothing; the
      end of the round clears the flag, and only that does. */
  method OnMessage(dm: DispatchManager, round: S.Scheduler, m: Message, add: AddResult, heap: CellHeap)
    requires dm.Valid() && heap.next == dm.book.cells.next
    modifies dm, dm.pool[..], round, heap
    ensures dm.Valid() && heap.next == dm.book.cells.next
    ensures dm.Snapshot() ==
      match m
      case ScheduleJob(id, Some(r)) => Next(old(dm.Snapshot()), Event.Dispatch(id, r.host, r.wrapperBased, add))
      case ScheduleFailed(id) => Next(old(dm.Snapshot()), Event.Uncheck(id))
      case _ => old(dm.Snapshot())
    ensures round.View() == if m.ScheduleEnd? then S.After(old(round.View()), S.End) else old(round.View())
  {
    match m {
      case ScheduleJob(id, resource) =>
        if resource.Some? {
          var rc := dm.DispatchJob(id, resource.value.host, resource.value.wrapperBased, add, heap);
        }
      case ScheduleFailed(id) => dm.UncheckJob(id);
      case ScheduleEnd => round.EndRound();
      case Unknown =>
    }
  }
}
