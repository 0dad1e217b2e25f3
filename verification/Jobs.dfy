/** The job record of the Dispatch Manager, the names of its queued actions, and the ledger:
    what a job holds on its current host and on the host before it. */
module Jobs {

  datatype Option<+T> = None | Some(value: T)

  /** The twenty job states, in the order of the source. */
  datatype State =
    | Init | Pending | Hold | Prolog | PreWrapper | Wrapper | Epilog | EpilogStd | EpilogRestart | EpilogFail
    | StopCancel | StopEpilog | Stopped | KillCancel | KillEpilog | MigrCancel | MigrProlog | MigrEpilog
    | Zombie | Failed

  datatype EmState = EmInit | EmPending | EmSuspended | EmActive | EmFailed | EmDone | EmHardKill

  datatype Reason =
    | ReasonNone | UserRequested | SuspensionTime | ReschedulingTimeout | SelfMigration | Performance
    | StopResume | ExecutionError | KillReason

  datatype Signal = SigHold | SigRelease | SigStop | SigResume | SigKill | SigKillHard | SigWait | SigReschedule

  datatype Stage = PrologStage | WrapperStage | EpilogStage

  /** The Dispatch Manager's actions that carry a job id: user signals (GW_DM_HOLD, ...), reports of the other
      managers (GW_DM_PROLOG_DONE, ...) and state transitions (GW_DM_STATE_PENDING, ...). */
  datatype Action = Ask(sig: Signal) | Report(stage: Stage, done: bool) | Go(to: State)

  /** Reports and transitions move the job along; signals come from users. */
  predicate MovesJob(a: Action) { !a.Ask? }

  /** One history record, with the suspension statistics that the Execution Manager keeps in it. The newest record is
      the head of the job's history list. */
  datatype Record = Record(
    host: nat, reason: Reason, epilogStart: int, wrapperBased: bool, suspension: int, lastSuspension: int)

  function NewRecord(host: nat, wrapperBased: bool): Record { Record(host, ReasonNone, 0, wrapperBased, 0, 0) }

  /** A template's limits, in seconds; zero is no limit. */
  datatype Limits = Limits(suspensionTimeout: int, reschedulingInterval: int, reschedulingThreshold: int)

  datatype Job = Job(
    state: State, em: EmState, history: seq<Record>, np: nat, user: nat, arrayId: int, taskId: int,
    restarted: nat, waiting: nat, reschedule: bool, preWrapper: bool, rescheduleOnFailure: bool,
    limits: Limits, lastRescheduling: int)
  {
    function Head(): Record
      requires history != []
    { history[0] }

    function WithReason(r: Reason): (j: Job)
      ensures SameHosts(j) && j == this.(history := j.history)
    {
      if history == [] then this else this.(history := history[0 := history[0].(reason := r)])
    }

    function Stamped(k: nat, now: int): (j: Job)
      ensures SameHosts(j) && j == this.(history := j.history)
    {
      if k < |history| then this.(history := history[k := history[k].(epilogStart := now)]) else this
    }

    /** Both histories name the same hosts in the same places. */
    ghost predicate SameHosts(j: Job) {
      |j.history| == |history| && forall k | 0 <= k < |history| :: j.history[k].host == history[k].host
    }
  }

  /** A queued action, the heap cell that carries the job id, and the job's state when it was queued. */
  datatype Item = Item(act: Action, job: nat, cell: nat, from: State)

  // ------------------------------------------------------------------------------------------
  // The ledger
  // ------------------------------------------------------------------------------------------

  /** What a job holds: slots (np of them) and one running job on the head record's host (0) and on the
      next record's host (1). */
  datatype Claim = Claim(slots0: bool, run0: bool, slots1: bool, run1: bool)

  const NOTHING := Claim(false, false, false, false)

  /** One running job on the head record's host, its slots already returned. */
  const LAST_RUN := Claim(false, true, false, false)

  function SlotsAt(c: Claim, history: seq<Record>, np: nat, h: nat): nat {
    (if c.slots0 && |history| > 0 && history[0].host == h then np else 0)
    + (if c.slots1 && |history| > 1 && history[1].host == h then np else 0)
  }

  function RunsAt(c: Claim, history: seq<Record>, h: nat): nat {
    (if c.run0 && |history| > 0 && history[0].host == h then 1 else 0)
    + (if c.run1 && |history| > 1 && history[1].host == h then 1 else 0)
  }

  /** What the state alone says the job holds. */
  function Base(st: State): Claim {
    match st
    case Prolog | PreWrapper | Wrapper | StopCancel | KillCancel => Claim(true, true, false, false)
    case Epilog | EpilogStd | EpilogRestart | EpilogFail | StopEpilog | KillEpilog => LAST_RUN
    case MigrCancel => Claim(true, true, true, true)
    case MigrProlog | MigrEpilog => Claim(true, true, false, true)
    case _ => NOTHING
  }

  /** The first queued life-cycle action of a job. */
  function First(tokens: seq<Item>): Option<Action> {
    if tokens == [] then None else Some(tokens[0].act)
  }

  /** What the job really holds: its first queued life-cycle action may already have taken the slots of a new
      host or given back slots of the present one, while the state still says otherwise. */
  function Holds(st: State, first: Option<Action>): Claim {
    if first.None? || !first.value.Go? then Base(st) else
    match first.value.to
    case Prolog => if st.Pending? then Claim(true, true, false, false) else Base(st)
    case MigrCancel => if st.Wrapper? then Claim(true, true, true, true) else Base(st)
    case MigrProlog => if st.MigrCancel? then Claim(true, true, false, true) else Base(st)
    case Wrapper => if st.MigrEpilog? then Claim(true, true, false, false) else Base(st)
    case EpilogFail => LAST_RUN
    case EpilogStd | Epilog | StopEpilog | KillEpilog =>
      if st.Wrapper? || st.StopCancel? || st.KillCancel? then LAST_RUN else Base(st)
    case Pending | Failed => if st.Prolog? || st.MigrProlog? then LAST_RUN else Base(st)
    case _ => Base(st)
  }

  /** States in which the user's running-job counter includes the job. */
  predicate Running(st: State) {
    !(st.Init? || st.Pending? || st.Hold? || st.Stopped? || st.Zombie? || st.Failed?)
  }

  /** Dispatched and not yet back in PENDING, FAILED, STOPPED or finished. */
  predicate Dispatched(st: State, first: Option<Action>) {
    Running(st) || (st.Pending? && first == Some(Go(Prolog)))
  }

  predicate Stopping(st: State) { st.StopCancel? || st.StopEpilog? }

  predicate Killing(st: State) { st.KillCancel? || st.KillEpilog? }

  /** The seven epilog states. */
  predicate InEpilog(st: State) {
    st.Epilog? || st.EpilogStd? || st.EpilogRestart? || st.EpilogFail? || st.StopEpilog? || st.KillEpilog?
    || st.MigrEpilog?
  }
}
