/** How the handlers of the Dispatch Manager treat one job: for each action, the job afterwards, what is given
    back to hosts and user, and the one place the job-id cell goes. */
module Reactions {
  import opened Jobs

  datatype EmRequest = Submit | Cancel
  datatype Xfer = PrologXfer | EpilogXfer

  /** The wrapper's standard output: it cannot be opened, it has no exit status, or it has this one. */
  datatype WrapperOutput = Unopened | NoStatus | Status(text: string)

  /** What an exit status stands for. */
  datatype Outcome = Exited | AsksMigration | Slowdown | Unreadable

  /** The first letter of the exit status decides. */
  function OutcomeOf(o: WrapperOutput): Outcome {
    match o
    case Status(text) => if text != [] && text[0] == 'S' then AsksMigration
                         else if text != [] && text[0] == 'P' then Slowdown else Exited
    case _ => Unreadable
  }

  /** What a handler learns from outside: the clock, whether the job environment could be written, the wrapper's
      output, the dispose option, and the held jobs whose dependencies are met. */
  datatype Env = Env(now: int, environmentOk: bool, output: WrapperOutput, dispose: bool, ready: set<nat>)

  /** An answer of the Request Manager: which request it answers and whether it succeeded. */
  datatype Answer = Answer(to: Signal, ok: bool)

  /** Where the cell of a handled action goes: exactly one place. */
  datatype Dest = Drop | ToDm(act: Action) | ToEm(req: EmRequest) | ToTm(xfer: Xfer) | ToRm(answer: Answer)

  datatype Reaction = Reaction(
    job: Option<Job>, give: Claim, giveUser: bool, leakUser: bool, dest: Dest, wakes: bool)

  function Keep(j: Job, dest: Dest): Reaction {
    Reaction(Some(j), NOTHING, false, false, dest, false)
  }

  /** The job stays and gives back c. */
  function Give(j: Job, c: Claim, dest: Dest): Reaction {
    Reaction(Some(j), c, false, false, dest, false)
  }

  /** The job leaves its host: the last running-job entry goes back to host and user. */
  function Leave(j: Job, dest: Dest): Reaction {
    Reaction(Some(j), LAST_RUN, true, false, dest, false)
  }

  function Reply(s: Signal, ok: bool): Dest { ToRm(Answer(s, ok)) }

  /** PENDING when the template asks for rescheduling on failure, FAILED otherwise. */
  function AfterFailure(j: Job): Dest { ToDm(Go(if j.rescheduleOnFailure then Pending else Failed)) }

  /** The action named a job that does not exist. */
  function NoJob(a: Action): Dest {
    if !a.Ask? then Drop else Reply(if a.sig.SigKillHard? then SigKill else a.sig, false)
  }

  /** The same job on the same hosts: what the ledger and the array tables refer to. No handler
      rewrites any of it. */
  ghost predicate SameRecord(j: Job, k: Job) {
    j.SameHosts(k) && k.np == j.np && k.user == j.user && k.arrayId == j.arrayId && k.taskId == j.taskId
  }

  function React(a: Action, j: Job, e: Env): (r: Reaction)
    ensures r.job.Some? ==> SameRecord(j, r.job.value)
  {
    match a
    case Ask(s) => OnSignal(s, j)
    case Report(PrologStage, done) => OnProlog(done, j)
    case Report(WrapperStage, done) => OnWrapper(done, j)
    case Report(EpilogStage, done) => OnEpilog(done, j, e)
    case Go(to) => if InEpilog(to) then EnterEpilog(to, j, e) else Enter(to, j, e)
  }

  function OnSignal(s: Signal, j: Job): (r: Reaction)
    ensures r.job.Some? ==> SameRecord(j, r.job.value)
  {
    match s
    case SigHold =>
      if j.state.Pending? then Keep(j.(state := Hold), Reply(s, true)) else Keep(j, Reply(s, false))
    case SigRelease =>
      if j.state.Hold? then Keep(j.(state := Pending), Reply(s, true)) else Keep(j, Reply(s, false))
    case SigStop =>
      if j.state.Wrapper? then
        Keep(j.WithReason(StopResume).(state := StopCancel, reschedule := false), ToEm(Cancel))
      else Keep(j, Reply(s, false))
    case SigResume =>
      if j.state.Stopped? then
        Keep(j.(state := Pending, em := EmInit, restarted := j.restarted + 1), Reply(s, true))
      else Keep(j, Reply(s, false))
    case SigKill =>
      (match j.state
       case Init | Pending | Hold | Stopped | Failed | Zombie =>
         Reaction(None, NOTHING, false, false, Reply(s, true), false)
       case Wrapper => Keep(j.WithReason(KillReason).(state := KillCancel, reschedule := false), ToEm(Cancel))
       case _ => Keep(j, Reply(s, false)))
    case SigKillHard =>
      Reaction(None, Base(j.state), false, Running(j.state), Reply(SigKill, true), false)
    case SigWait =>
      Keep(j.(waiting := j.waiting + 1), if j.state.Zombie? || j.state.Failed? then Reply(s, true) else Drop)
    case SigReschedule =>
      (match j.state
       case Wrapper => Keep(j.WithReason(UserRequested).(reschedule := true), Reply(s, true))
       case Failed =>
         Keep(j.WithReason(UserRequested).(state := Pending, em := EmInit, restarted := j.restarted + 1),
              Reply(s, true))
       case _ => Keep(j, Reply(s, false)))
  }

  function OnProlog(done: bool, j: Job): (r: Reaction)
    ensures r.job.Some? ==> SameRecord(j, r.job.value)
  {
    if !done then
      Give(j.WithReason(ExecutionError), Claim(true, false, false, j.state.MigrProlog?), AfterFailure(j))
    else
      match j.state
      case Prolog => Keep(j, ToDm(Go(if j.preWrapper then PreWrapper else Wrapper)))
      case MigrProlog => Keep(j, ToDm(Go(MigrEpilog)))
      case _ => Keep(j, Drop)
  }

  function OnWrapper(done: bool, j: Job): (r: Reaction)
    ensures r.job.Some? ==> SameRecord(j, r.job.value)
  {
    var k := j.(em := EmInit);
    if !done then
      Give(k.WithReason(ExecutionError).(reschedule := j.reschedule && !j.state.Wrapper?),
           Claim(true, false, false, false), ToDm(Go(EpilogFail)))
    else
      match j.state
      case PreWrapper => Keep(k, ToDm(Go(Wrapper)))
      case Wrapper =>
        Give(k.(reschedule := false), Claim(true, false, false, false),
             ToDm(Go(if j.history != [] && j.Head().wrapperBased then EpilogStd else Epilog)))
      case StopCancel => Give(k, Claim(true, false, false, false), ToDm(Go(StopEpilog)))
      case KillCancel => Give(k, Claim(true, false, false, false), ToDm(Go(KillEpilog)))
      case MigrCancel => Give(k, Claim(false, false, true, false), ToDm(Go(MigrProlog)))
      case _ => Keep(k, Drop)
  }

  function OnEpilog(done: bool, j: Job, e: Env): (r: Reaction)
    ensures r.job.Some? ==> SameRecord(j, r.job.value)
  {
    match j.state
    case Epilog => if done then Keep(j, ToDm(Go(Zombie))) else Keep(j.WithReason(ExecutionError), AfterFailure(j))
    case KillEpilog => Keep(j, ToDm(Go(Zombie)))
    case MigrEpilog => Give(j, Claim(false, false, false, true), ToDm(Go(Wrapper)))
    case StopEpilog => Keep(j, ToDm(Go(Stopped)))
    case EpilogFail => Keep(if done then j else j.WithReason(ExecutionError), AfterFailure(j))
    case EpilogRestart =>
      if j.history != [] && (j.Head().reason.Performance? || j.Head().reason.SelfMigration?)
      then Keep(j, ToDm(Go(Pending))) else Keep(j, AfterFailure(j))
    case EpilogStd =>
      if done && OutcomeOf(e.output).Exited? then Keep(j, ToDm(Go(Epilog)))
      else
        var reason := if !done || OutcomeOf(e.output).Unreadable? then ExecutionError
                      else if OutcomeOf(e.output).AsksMigration? then SelfMigration else Performance;
        Keep(j.WithReason(reason), ToDm(Go(EpilogRestart)))
    case _ => Keep(j, Drop)
  }

  /** An epilog entry sets the state, stamps the epilog's start unless the state says it was stamped before, and
      starts the transfers. */
  function EnterEpilog(to: State, j: Job, e: Env): (r: Reaction)
    ensures r.job.Some? ==> SameRecord(j, r.job.value)
  {
    var stamps := j.state != to && !to.EpilogRestart? && !(to.Epilog? && j.state.EpilogStd?);
    var k := if stamps then j.Stamped(if to.MigrEpilog? then 1 else 0, e.now) else j;
    Keep(k.(state := to), ToTm(EpilogXfer))
  }

  /** The other transitions; PENDING, FAILED and STOPPED write the state without looking at it. */
  function Enter(to: State, j: Job, e: Env): (r: Reaction)
    ensures r.job.Some? ==> SameRecord(j, r.job.value)
  {
    match to
    case Prolog | MigrProlog =>
      Keep(j.(state := to), if e.environmentOk then ToTm(PrologXfer) else ToDm(Report(PrologStage, false)))
    case PreWrapper | Wrapper => Keep(j.(state := to, em := EmInit), ToEm(Submit))
    case MigrCancel =>
      if j.state.Wrapper? && !j.em.EmDone? then Keep(j.(state := to), ToEm(Cancel)) else Keep(j, Drop)
    case Pending => Leave(j.(state := to, restarted := j.restarted + 1), Drop)
    case Failed => Leave(j.(state := to), if j.waiting > 0 then Reply(SigWait, true) else Drop)
    case Stopped => Leave(j.(state := to), Reply(SigStop, true))
    case Zombie =>
      (match j.state
       case Epilog =>
         Leave(j.WithReason(ReasonNone).(state := to),
               if j.waiting > 0 then Reply(SigWait, true) else if e.dispose then ToDm(Ask(SigKill)) else Drop)
         .(wakes := true)
       case KillEpilog => Reaction(None, LAST_RUN, true, false, Reply(SigKill, true), false)
       case _ => Keep(j, Drop))
    // no handler is registered under the remaining names
    case _ => Keep(j, Drop)
  }

  /** How many history records the handler reads through the job's history pointer. */
  function RecordsRead(a: Action, j: Job): nat {
    match a
    case Ask(SigKillHard) =>
      if j.state.MigrCancel? || j.state.MigrProlog? || j.state.MigrEpilog? then 2 else if Running(j.state) then 1 else 0
    case Ask(SigReschedule) => if j.state.Wrapper? || j.state.Failed? then 1 else 0
    case Ask(_) => 0
    case Report(PrologStage, _) => 1
    case Report(WrapperStage, done) =>
      if done && j.state.MigrCancel? then 2 else if Running(j.state) then 1 else 0
    case Report(EpilogStage, _) => if j.state.MigrEpilog? then 2 else if InEpilog(j.state) then 1 else 0
    case Go(MigrEpilog) => 2
    case Go(MigrCancel) => if j.state.Wrapper? then 1 else 0
    case Go(Zombie) => if j.state.Epilog? || j.state.KillEpilog? then 1 else 0
    case Go(_) => 1
  }
}

/** Which queued actions, execution requests and transfers can be outstanding for a job in each state, and what
    every handler does to that and to the ledger. */
module Tokens {
  import opened Jobs
  import opened Reactions

  /** The transitions that may be queued for a job in each state. */
  predicate Goes(st: State, to: State) {
    match st
    case Prolog => to.PreWrapper? || to.Wrapper? || to.Pending? || to.Failed?
    case PreWrapper => to.Wrapper? || to.EpilogFail?
    case Wrapper => to.EpilogStd? || to.Epilog? || to.EpilogFail?
    case StopCancel => to.StopEpilog? || to.EpilogStd? || to.Epilog? || to.EpilogFail?
    case KillCancel => to.KillEpilog? || to.EpilogStd? || to.Epilog? || to.EpilogFail?
    case MigrCancel => to.MigrProlog?
    case MigrProlog => to.MigrEpilog? || to.Pending? || to.Failed?
    case MigrEpilog => to.Wrapper?
    case EpilogStd => to.Epilog? || to.EpilogRestart?
    case Epilog => to.Zombie? || to.Pending? || to.Failed?
    case EpilogRestart | EpilogFail => to.Pending? || to.Failed?
    case StopEpilog => to.Stopped?
    case KillEpilog => to.Zombie?
    case _ => false
  }

  /** One transfer outstanding, or its report queued, or a transition queued by the job in this very state. */
  predicate ByTransfer(st: State, l: seq<Item>, em: bool, tm: Option<Xfer>, x: Xfer) {
    !em && if l == [] then tm == Some(x)
           else tm.None? && |l| == 1
                && match l[0].act
                   case Report(stage, _) => stage == (if x.PrologXfer? then PrologStage else EpilogStage)
                   case Go(to) => Goes(st, to) && l[0].from == st
                   case Ask(_) => false
  }

  /** One execution outstanding, or its report queued, or (goes) a transition queued. */
  predicate ByExecution(st: State, l: seq<Item>, em: bool, tm: Option<Xfer>, goes: bool) {
    tm.None? && if l == [] then em
                else !em && |l| == 1
                     && match l[0].act
                        case Report(stage, _) => stage.WrapperStage?
                        case Go(to) => goes && Goes(st, to)
                        case Ask(_) => false
  }

  predicate MigrationQueued(l: seq<Item>) { l != [] && l[0].act == Go(MigrCancel) }

  /** The inductive invariant of one job: l are its queued life-cycle actions in order, em says that the Execution
      Manager owes it an answer, tm that the Transfer Manager does. */
  predicate TokenOk(j: Job, l: seq<Item>, em: bool, tm: Option<Xfer>) {
    match j.state
    case Init | Hold | Stopped | Zombie => l == [] && !em && tm.None?
    case Failed => l == [] && !em && tm.None? && |j.history| >= 1
    case Pending =>
      !em && tm.None? && (l == [] || (|l| == 1 && l[0].act == Go(Prolog) && l[0].from.Pending? && |j.history| >= 1))
    case Prolog => |j.history| >= 1 && ByTransfer(Prolog, l, em, tm, PrologXfer)
    case MigrProlog => |j.history| >= 2 && ByTransfer(MigrProlog, l, em, tm, PrologXfer)
    case PreWrapper | StopCancel | KillCancel => |j.history| >= 1 && ByExecution(j.state, l, em, tm, true)
    case MigrCancel => |j.history| >= 2 && ByExecution(MigrCancel, l, em, tm, true)
    case Wrapper =>
      |j.history| >= 1
      && if MigrationQueued(l) then |j.history| >= 2 && l[0].from.Wrapper?
          && ByExecution(Wrapper, l[1..], em, tm, false)
         else ByExecution(Wrapper, l, em, tm, true)
    case MigrEpilog => |j.history| >= 2 && ByTransfer(MigrEpilog, l, em, tm, EpilogXfer)
    case _ => |j.history| >= 1 && ByTransfer(j.state, l, em, tm, EpilogXfer)
  }

  /** The transition that is queued has already moved the job's holdings away from what its state says. */
  predicate HoldingsMoved(st: State, to: State, np: nat) {
    match to
    case Prolog => st.Pending?
    case MigrCancel => st.Wrapper?
    case MigrProlog => st.MigrCancel? && np > 0
    case Wrapper => st.MigrEpilog?
    case EpilogFail => np > 0
    case EpilogStd | Epilog | StopEpilog | KillEpilog => (st.Wrapper? || st.StopCancel? || st.KillCancel?) && np > 0
    case Pending | Failed => st.MigrProlog? || (st.Prolog? && np > 0)
    case _ => false
  }

  /** The run assumptions on a handled action, each a guard on the state it meets; first is the first life-cycle
      action queued for the job. */
  predicate CleanAct(a: Action, j: Job, first: Option<Action>) {
    match a
    // no hold or kill between a dispatch and its queued PROLOG; no stop or kill before a queued MIGR_CANCEL
    case Ask(SigHold) => !(j.state.Pending? && first.Some?)
    case Ask(SigStop) => !(j.state.Wrapper? && first == Some(Go(MigrCancel)))
    case Ask(SigKill) => !(j.state.Pending? && first.Some?) && !(j.state.Wrapper? && first == Some(Go(MigrCancel)))
    // no hard kill while a queued action has moved the job's holdings away from what its state says
    case Ask(SigKillHard) => !(first.Some? && first.value.Go? && HoldingsMoved(j.state, first.value.to, j.np))
    // MIGR_CANCEL finds its guard true, and a cancelled execution is reported done
    case Go(MigrCancel) => j.state.Wrapper? && !j.em.EmDone?
    case Report(WrapperStage, false) => !j.state.MigrCancel?
    case _ => true
  }

  /** What the queue holds for the job after action a, at its head, was handled. */
  function TokensAfter(a: Action, j: Job, id: nat, cell: nat, l: seq<Item>, d: Dest): seq<Item>
    requires MovesJob(a) ==> l != []
  {
    (if MovesJob(a) then l[1..] else l)
    + (if d.ToDm? && MovesJob(d.act) then [Item(d.act, id, cell, j.state)] else [])
  }

  function EmAfter(em: bool, d: Dest): bool { em || d == ToEm(Submit) }

  function TmAfter(tm: Option<Xfer>, d: Dest): Option<Xfer> { if d.ToTm? then Some(d.xfer) else tm }

  ghost predicate Turn(a: Action, j: Job, l: seq<Item>, em: bool, tm: Option<Xfer>) {
    TokenOk(j, l, em, tm) && (MovesJob(a) ==> l != [] && l[0].act == a)
  }

  ghost predicate Splits(before: Claim, give: Claim, after: Claim, np: nat) {
    && !(give.run0 && after.run0) && !(give.run1 && after.run1)
    && before.run0 == (give.run0 || after.run0) && before.run1 == (give.run1 || after.run1)
    && (np == 0 || (
      && !(give.slots0 && after.slots0) && !(give.slots1 && after.slots1)
      && before.slots0 == (give.slots0 || after.slots0) && before.slots1 == (give.slots1 || after.slots1)))
  }

  function HoldsAfter(r: Reaction, first: Option<Action>): Claim {
    if r.job.None? then NOTHING else Holds(r.job.value.state, first)
  }

  function Bit(b: bool): nat { if b then 1 else 0 }

  /** A stop or kill request is lost when its job is taken out of the stop or kill states by something else. */
  predicate Overrides(a: Action) {
    a == Go(Epilog) || a == Go(EpilogStd) || a == Go(EpilogFail) || a == Ask(SigKillHard)
  }

  /** A clean handler leaves the job's outstanding work in order. */
  ghost predicate TokensKept(l': seq<Item>, em: bool, tm: Option<Xfer>, r: Reaction) {
    r.job.Some? ==> TokenOk(r.job.value, l', EmAfter(em, r.dest), TmAfter(tm, r.dest))
  }

  /** What the job held is what the handler gives back plus what the job holds now. */
  ghost predicate LedgerKept(j: Job, f: Option<Action>, f': Option<Action>, r: Reaction) {
    Splits(Holds(j.state, f), r.give, HoldsAfter(r, f'), j.np)
  }

  /** The user's count moves with the job. */
  ghost predicate UserKept(j: Job, f: Option<Action>, f': Option<Action>, r: Reaction) {
    Bit(Dispatched(j.state, f)) ==
    Bit(r.giveUser) + Bit(r.leakUser) + Bit(r.job.Some? && Dispatched(r.job.value.state, f'))
  }

  /** A stop or kill in progress is answered, still in progress, or lost. */
  ghost predicate RequestsKept(a: Action, j: Job, r: Reaction) {
    && Bit(Stopping(j.state)) + Bit(a == Ask(SigStop)) ==
       Bit(r.job.Some? && Stopping(r.job.value.state)) + Bit(Answers(r.dest, SigStop))
       + Bit(Overrides(a) && Stopping(j.state))
    && Bit(Killing(j.state)) + Bit(a == Ask(SigKill) || a == Ask(SigKillHard)) ==
       Bit(r.job.Some? && Killing(r.job.value.state)) + Bit(Answers(r.dest, SigKill))
       + Bit(Overrides(a) && Killing(j.state))
  }

  predicate Answers(d: Dest, s: Signal) { d.ToRm? && d.answer.to == s }

  /** The first queued action of a job in state st. */
  predicate Meets(st: State, f: Option<Action>) {
    f.Some? ==>
      match f.value
      case Ask(_) => false
      case Report(PrologStage, _) => st.Prolog? || st.MigrProlog?
      case Report(WrapperStage, _) =>
        st.PreWrapper? || st.Wrapper? || st.StopCancel? || st.KillCancel? || st.MigrCancel?
      case Report(EpilogStage, _) => InEpilog(st)
      case Go(to) => Goes(st, to) || (to.Prolog? && st.Pending?) || (to.MigrCancel? && st.Wrapper?)
  }

  ghost predicate LedgerTurn(a: Action, j: Job, f: Option<Action>, f': Option<Action>, d: Dest) {
    && Meets(j.state, f)
    && CleanAct(a, j, f)
    && if a.Ask? then f' == f
       else f == Some(a) && if d.ToDm? && MovesJob(d.act) then f' == Some(d.act)
                            else f'.None? || (a == Go(MigrCancel) && f'.value.Report? && f'.value.stage.WrapperStage?)
  }

  // The groups of handlers keep the tokens, the ledger and the counts.

  predicate Control(s: Signal) { s.SigHold? || s.SigRelease? || s.SigStop? || s.SigResume? }

  /** Outstanding work is judged by the state and the length of the history alone. */
  lemma SameWork(j: Job, k: Job, l: seq<Item>, em: bool, tm: Option<Xfer>)
    requires TokenOk(j, l, em, tm) && j.state == k.state && |j.history| == |k.history|
    ensures TokenOk(k, l, em, tm)
  {
  }

  lemma ControlSignalKeepTokens(s: Signal, j: Job, id: nat, cell: nat, l: seq<Item>, em: bool, tm: Option<Xfer>)
    requires Control(s)
    requires Turn(Ask(s), j, l, em, tm) && CleanAct(Ask(s), j, First(l))
    ensures TokensKept(TokensAfter(Ask(s), j, id, cell, l, OnSignal(s, j).dest), em, tm, OnSignal(s, j))
  {
    assert l + [] == l;
  }

  lemma ControlSignalKeepLedger(s: Signal, j: Job, f: Option<Action>, f': Option<Action>)
    requires Control(s)
    requires LedgerTurn(Ask(s), j, f, f', OnSignal(s, j).dest)
    ensures LedgerKept(j, f, f', OnSignal(s, j))
  {
  }

  lemma ControlSignalKeepCounts(s: Signal, j: Job, f: Option<Action>, f': Option<Action>)
    requires Control(s)
    requires LedgerTurn(Ask(s), j, f, f', OnSignal(s, j).dest)
    ensures UserKept(j, f, f', OnSignal(s, j)) && RequestsKept(Ask(s), j, OnSignal(s, j))
  {
  }

  lemma KillSignalKeepTokens(s: Signal, j: Job, id: nat, cell: nat, l: seq<Item>, em: bool, tm: Option<Xfer>)
    requires s.SigKill?
    requires Turn(Ask(s), j, l, em, tm) && CleanAct(Ask(s), j, First(l))
    ensures TokensKept(TokensAfter(Ask(s), j, id, cell, l, OnSignal(s, j).dest), em, tm, OnSignal(s, j))
  {
    assert l + [] == l;
    var r := OnSignal(s, j);
    if r.job.Some? && r.job.value.state == j.state {
      SameWork(j, r.job.value, l, em, tm);
    }
  }

  lemma OtherSignalKeepTokens(s: Signal, j: Job, id: nat, cell: nat, l: seq<Item>, em: bool, tm: Option<Xfer>)
    requires s.SigKillHard? || s.SigWait? || s.SigReschedule?
    requires Turn(Ask(s), j, l, em, tm) && CleanAct(Ask(s), j, First(l))
    ensures TokensKept(TokensAfter(Ask(s), j, id, cell, l, OnSignal(s, j).dest), em, tm, OnSignal(s, j))
  {
    assert l + [] == l;
    var r := OnSignal(s, j);
    if r.job.Some? && r.job.value.state == j.state {
      SameWork(j, r.job.value, l, em, tm);
    }
  }

  /** A hard kill gives back what the state says, which is what the job holds unless a transition moved it. */
  lemma HardKillKeepLedger(j: Job, f: Option<Action>, f': Option<Action>)
    requires LedgerTurn(Ask(SigKillHard), j, f, f', OnSignal(SigKillHard, j).dest)
    ensures LedgerKept(j, f, f', OnSignal(SigKillHard, j))
  {
  }

  lemma OtherSignalKeepLedger(s: Signal, j: Job, f: Option<Action>, f': Option<Action>)
    requires !Control(s) && !s.SigKillHard?
    requires LedgerTurn(Ask(s), j, f, f', OnSignal(s, j).dest)
    ensures LedgerKept(j, f, f', OnSignal(s, j))
  {
  }

  lemma OtherSignalKeepCounts(s: Signal, j: Job, f: Option<Action>, f': Option<Action>)
    requires !Control(s)
    requires LedgerTurn(Ask(s), j, f, f', OnSignal(s, j).dest)
    ensures UserKept(j, f, f', OnSignal(s, j)) && RequestsKept(Ask(s), j, OnSignal(s, j))
  {
  }

  lemma PrologKeepTokens(done: bool, j: Job, id: nat, cell: nat, l: seq<Item>, em: bool, tm: Option<Xfer>)
    requires Turn(Report(PrologStage, done), j, l, em, tm) && CleanAct(Report(PrologStage, done), j, First(l))
    ensures TokensKept(TokensAfter(Report(PrologStage, done), j, id, cell, l, OnProlog(done, j).dest), em, tm,
        OnProlog(done, j))
  {
  }

  lemma PrologKeepLedger(done: bool, j: Job, f: Option<Action>, f': Option<Action>)
    requires LedgerTurn(Report(PrologStage, done), j, f, f', OnProlog(done, j).dest)
    ensures LedgerKept(j, f, f', OnProlog(done, j))
  {
  }

  lemma PrologKeepCounts(done: bool, j: Job, f: Option<Action>, f': Option<Action>)
    requires LedgerTurn(Report(PrologStage, done), j, f, f', OnProlog(done, j).dest)
    ensures UserKept(j, f, f', OnProlog(done, j)) && RequestsKept(Report(PrologStage, done), j, OnProlog(done, j))
  {
  }

  lemma WrapperKeepTokens(done: bool, j: Job, id: nat, cell: nat, l: seq<Item>, em: bool, tm: Option<Xfer>)
    requires Turn(Report(WrapperStage, done), j, l, em, tm) && CleanAct(Report(WrapperStage, done), j, First(l))
    ensures TokensKept(TokensAfter(Report(WrapperStage, done), j, id, cell, l, OnWrapper(done, j).dest), em, tm,
        OnWrapper(done, j))
  {
  }

  lemma WrapperKeepLedger(done: bool, j: Job, f: Option<Action>, f': Option<Action>)
    requires LedgerTurn(Report(WrapperStage, done), j, f, f', OnWrapper(done, j).dest)
    ensures LedgerKept(j, f, f', OnWrapper(done, j))
  {
  }

  lemma WrapperKeepCounts(done: bool, j: Job, f: Option<Action>, f': Option<Action>)
    requires LedgerTurn(Report(WrapperStage, done), j, f, f', OnWrapper(done, j).dest)
    ensures UserKept(j, f, f', OnWrapper(done, j)) && RequestsKept(Report(WrapperStage, done), j, OnWrapper(done, j))
  {
  }

  lemma EpilogReportKeepTokens(done: bool, j: Job, id: nat, cell: nat, l: seq<Item>, em: bool, tm: Option<Xfer>, e: Env)
    requires Turn(Report(EpilogStage, done), j, l, em, tm) && CleanAct(Report(EpilogStage, done), j, First(l))
    ensures TokensKept(TokensAfter(Report(EpilogStage, done), j, id, cell, l, OnEpilog(done, j, e).dest), em, tm,
        OnEpilog(done, j, e))
  {
    assert InEpilog(j.state) && OnEpilog(done, j, e).job.value.state == j.state;
  }

  lemma EpilogReportKeepLedger(done: bool, j: Job, f: Option<Action>, f': Option<Action>, e: Env)
    requires LedgerTurn(Report(EpilogStage, done), j, f, f', OnEpilog(done, j, e).dest)
    ensures LedgerKept(j, f, f', OnEpilog(done, j, e))
  {
    assert OnEpilog(done, j, e).job.value.state == j.state;
  }

  lemma EpilogReportKeepCounts(done: bool, j: Job, f: Option<Action>, f': Option<Action>, e: Env)
    requires LedgerTurn(Report(EpilogStage, done), j, f, f', OnEpilog(done, j, e).dest)
    ensures UserKept(j, f, f', OnEpilog(done, j, e)) && RequestsKept(Report(EpilogStage, done), j, OnEpilog(done, j, e))
  {
  }

  lemma EpilogEntryKeepTokens(to: State, j: Job, id: nat, cell: nat, l: seq<Item>, em: bool, tm: Option<Xfer>, e: Env)
    requires InEpilog(to)
    requires Turn(Go(to), j, l, em, tm) && CleanAct(Go(to), j, First(l))
    ensures TokensKept(TokensAfter(Go(to), j, id, cell, l, EnterEpilog(to, j, e).dest), em, tm, EnterEpilog(to, j, e))
  {
  }

  lemma EpilogEntryKeepLedger(to: State, j: Job, f: Option<Action>, f': Option<Action>, e: Env)
    requires InEpilog(to)
    requires LedgerTurn(Go(to), j, f, f', EnterEpilog(to, j, e).dest)
    ensures LedgerKept(j, f, f', EnterEpilog(to, j, e))
  {
  }

  lemma EpilogEntryKeepCounts(to: State, j: Job, f: Option<Action>, f': Option<Action>, e: Env)
    requires InEpilog(to)
    requires LedgerTurn(Go(to), j, f, f', EnterEpilog(to, j, e).dest)
    ensures UserKept(j, f, f', EnterEpilog(to, j, e)) && RequestsKept(Go(to), j, EnterEpilog(to, j, e))
  {
  }

  lemma EntryKeepTokens(to: State, j: Job, id: nat, cell: nat, l: seq<Item>, em: bool, tm: Option<Xfer>, e: Env)
    requires !InEpilog(to)
    requires Turn(Go(to), j, l, em, tm) && CleanAct(Go(to), j, First(l))
    ensures TokensKept(TokensAfter(Go(to), j, id, cell, l, Enter(to, j, e).dest), em, tm, Enter(to, j, e))
  {
  }

  lemma EntryKeepLedger(to: State, j: Job, f: Option<Action>, f': Option<Action>, e: Env)
    requires !InEpilog(to)
    requires LedgerTurn(Go(to), j, f, f', Enter(to, j, e).dest)
    ensures LedgerKept(j, f, f', Enter(to, j, e))
  {
  }

  lemma EntryKeepCounts(to: State, j: Job, f: Option<Action>, f': Option<Action>, e: Env)
    requires !InEpilog(to)
    requires LedgerTurn(Go(to), j, f, f', Enter(to, j, e).dest)
    ensures UserKept(j, f, f', Enter(to, j, e)) && RequestsKept(Go(to), j, Enter(to, j, e))
  {
  }

  lemma HandlersKeepTokens(a: Action, j: Job, id: nat, cell: nat, l: seq<Item>, em: bool, tm: Option<Xfer>, e: Env)
    requires Turn(a, j, l, em, tm) && CleanAct(a, j, First(l))
    ensures TokensKept(TokensAfter(a, j, id, cell, l, React(a, j, e).dest), em, tm, React(a, j, e))
  {
    match a
    case Ask(s) => if Control(s) { ControlSignalKeepTokens(s, j, id, cell, l, em, tm); }
      else if s.SigKill? { KillSignalKeepTokens(s, j, id, cell, l, em, tm); }
      else { OtherSignalKeepTokens(s, j, id, cell, l, em, tm); }
    case Report(PrologStage, done) => PrologKeepTokens(done, j, id, cell, l, em, tm);
    case Report(WrapperStage, done) => WrapperKeepTokens(done, j, id, cell, l, em, tm);
    case Report(EpilogStage, done) => EpilogReportKeepTokens(done, j, id, cell, l, em, tm, e);
    case Go(to) =>
      if InEpilog(to) {
        EpilogEntryKeepTokens(to, j, id, cell, l, em, tm, e);
      } else {
        EntryKeepTokens(to, j, id, cell, l, em, tm, e);
      }
  }

  lemma HandlersKeepLedger(a: Action, j: Job, f: Option<Action>, f': Option<Action>, e: Env)
    requires LedgerTurn(a, j, f, f', React(a, j, e).dest)
    ensures LedgerKept(j, f, f', React(a, j, e))
  {
    match a
    case Ask(s) =>
      if Control(s) {
        ControlSignalKeepLedger(s, j, f, f');
      } else if s.SigKillHard? {
        HardKillKeepLedger(j, f, f');
      } else {
        OtherSignalKeepLedger(s, j, f, f');
      }
    case Report(PrologStage, done) => PrologKeepLedger(done, j, f, f');
    case Report(WrapperStage, done) => WrapperKeepLedger(done, j, f, f');
    case Report(EpilogStage, done) => EpilogReportKeepLedger(done, j, f, f', e);
    case Go(to) =>
      if InEpilog(to) {
        EpilogEntryKeepLedger(to, j, f, f', e);
      } else {
        EntryKeepLedger(to, j, f, f', e);
      }
  }

  lemma HandlersKeepCounts(a: Action, j: Job, f: Option<Action>, f': Option<Action>, e: Env)
    requires LedgerTurn(a, j, f, f', React(a, j, e).dest)
    ensures UserKept(j, f, f', React(a, j, e)) && RequestsKept(a, j, React(a, j, e))
  {
    match a
    case Ask(s) => if Control(s) { ControlSignalKeepCounts(s, j, f, f'); } else { OtherSignalKeepCounts(s, j, f, f'); }
    case Report(PrologStage, done) => PrologKeepCounts(done, j, f, f');
    case Report(WrapperStage, done) => WrapperKeepCounts(done, j, f, f');
    case Report(EpilogStage, done) => EpilogReportKeepCounts(done, j, f, f', e);
    case Go(to) =>
      if InEpilog(to) {
        EpilogEntryKeepCounts(to, j, f, f', e);
      } else {
        EntryKeepCounts(to, j, f, f', e);
      }
  }

  lemma TokenMeets(j: Job, l: seq<Item>, em: bool, tm: Option<Xfer>)
    requires TokenOk(j, l, em, tm)
    ensures Meets(j.state, First(l))
    ensures |l| <= 1 || (|l| == 2 && l[0].act == Go(MigrCancel) && l[1].act.Report? && l[1].act.stage.WrapperStage?)
  {
  }

  /** What a reaction looks like from outside. */
  lemma ReactionShape(a: Action, j: Job, e: Env)
    ensures var r := React(a, j, e);
      && (r.wakes ==> r.job.Some? && r.job.value.state.Zombie?)
      && (a.Ask? ==> !r.dest.ToDm?)
      && (a == Go(MigrCancel) && j.state.Wrapper? && !j.em.EmDone? ==> r.dest == ToEm(Cancel))
  {
  }

  /** A clean step takes its turn in the ledger. */
  lemma TurnInLedger(a: Action, j: Job, id: nat, cell: nat, l: seq<Item>, em: bool, tm: Option<Xfer>, d: Dest)
    requires Turn(a, j, l, em, tm) && CleanAct(a, j, First(l))
    requires a.Ask? ==> !d.ToDm?
    requires a == Go(MigrCancel) ==> d == ToEm(Cancel)
    ensures LedgerTurn(a, j, First(l), First(TokensAfter(a, j, id, cell, l, d)), d)
  {
    TokenMeets(j, l, em, tm);
    if MovesJob(a) && |l| == 1 {
      assert l[1..] == [];
    }
    assert l + [] == l;
  }

  /** A clean handler keeps everything: the job's outstanding work, the ledger, the user's count and the open
      requests. */
  lemma CleanTurn(a: Action, j: Job, id: nat, cell: nat, l: seq<Item>, em: bool, tm: Option<Xfer>, e: Env)
    requires Turn(a, j, l, em, tm) && CleanAct(a, j, First(l))
    ensures var r := React(a, j, e);
      var l' := TokensAfter(a, j, id, cell, l, r.dest);
      && (r.wakes ==> r.job.Some? && !r.job.value.state.Hold?)
      && TokensKept(l', em, tm, r)
      && LedgerKept(j, First(l), First(l'), r) && UserKept(j, First(l), First(l'), r) && RequestsKept(a, j, r)
  {
    var d := React(a, j, e).dest;
    var f' := First(TokensAfter(a, j, id, cell, l, d));
    ReactionShape(a, j, e);
    TurnInLedger(a, j, id, cell, l, em, tm, d);
    HandlersKeepTokens(a, j, id, cell, l, em, tm, e);
    HandlersKeepLedger(a, j, First(l), f', e);
    HandlersKeepCounts(a, j, First(l), f', e);
  }
}
