/** The scheduling flag: any number of timer threads test and set it, write a round to the scheduler, and the
    listener clears it when the scheduler reports the end of the round. */
module Scheduling {

  /** inside: threads between their test-and-set and their SCHEDULE write; outstanding: written rounds whose
      SCHEDULE_END has not been read. */
  datatype Rounds = Rounds(scheduling: bool, inside: set<nat>, outstanding: nat)

  datatype Step = TestAndSet(thread: nat) | Write(thread: nat) | End

  /** A thread tests the flag from outside and writes from inside; the scheduler may send SCHEDULE_END at any time. */
  predicate CanStep(r: Rounds, s: Step) {
    match s
    case TestAndSet(t) => t !in r.inside
    case Write(t) => t in r.inside
    case End => true
  }

  function After(r: Rounds, s: Step): Rounds
    requires CanStep(r, s)
  {
    match s
    case TestAndSet(t) => if r.scheduling then r else r.(scheduling := true, inside := r.inside + {t})
    case Write(t) => r.(inside := r.inside - {t}, outstanding := r.outstanding + 1)
    case End => r.(scheduling := false, outstanding := if r.outstanding > 0 then r.outstanding - 1 else 0)
  }

  /** The flag is true exactly when one thread is inside or one written round is outstanding, never both. */
  ghost predicate Exclusive(r: Rounds) {
    |r.inside| + r.outstanding == if r.scheduling then 1 else 0
  }

  /** The scheduler ends a round that was written, or repeats itself while nothing is going on. */
  predicate Answers(r: Rounds, s: Step) { s.End? ==> r.outstanding > 0 || !r.scheduling }

  /** A step keeps mutual exclusion if and only if a SCHEDULE_END does not arrive while a thread is still inside. */
  lemma ExclusiveIffAnswers(r: Rounds, s: Step)
    requires Exclusive(r) && CanStep(r, s)
    ensures Exclusive(After(r, s)) <==> Answers(r, s)
  {
  }

  ghost predicate CanRun(r: Rounds, run: seq<Step>)
    decreases |run|
  { run != [] ==> CanStep(r, run[0]) && CanRun(After(r, run[0]), run[1..]) }

  ghost predicate AnswersAll(r: Rounds, run: seq<Step>)
    requires CanRun(r, run)
    decreases |run|
  { run != [] ==> Answers(r, run[0]) && AnswersAll(After(r, run[0]), run[1..]) }

  ghost function Finally(r: Rounds, run: seq<Step>): Rounds
    requires CanRun(r, run)
    decreases |run|
  { if run == [] then r else Finally(After(r, run[0]), run[1..]) }

  /** Over any interleaving of any number of threads, at most one round is ever being prepared or outstanding. */
  lemma {:induction false} OneRoundAtATime(r: Rounds, run: seq<Step>)
    requires Exclusive(r) && CanRun(r, run) && AnswersAll(r, run)
    ensures var f := Finally(r, run);
      Exclusive(f) && |f.inside| <= 1 && f.outstanding <= 1 && (f.scheduling <==> f.inside != {} || f.outstanding == 1)
    decreases |run|
  {
    if run != [] {
      ExclusiveIffAnswers(r, run[0]);
      OneRoundAtATime(After(r, run[0]), run[1..]);
    }
  }

  /** The shared flag and the two histories that tell what it stands for. */
  class Scheduler {
    var scheduling: bool
    ghost var inside: set<nat>
    ghost var outstanding: nat

    constructor ()
      ensures View() == Rounds(false, {}, 0) && Exclusive(View())
    { scheduling, inside, outstanding := false, {}, 0; }

    ghost function View(): Rounds
      reads this
    { Rounds(scheduling, inside, outstanding) }

    /** Under the mutex: true if the caller now owns the round. */
    method TryEnter(thread: nat) returns (entered: bool)
      requires CanStep(View(), TestAndSet(thread))
      modifies this
      ensures View() == After(old(View()), TestAndSet(thread)) && entered == (thread in inside)
    {
      if !scheduling {
        scheduling := true;
        inside := inside + {thread};
        return true;
      }
      return false;
    }

    method WriteRound(thread: nat)
      requires CanStep(View(), Write(thread))
      modifies `inside, `outstanding
      ensures View() == After(old(View()), Write(thread))
    {
      inside, outstanding := inside - {thread}, outstanding + 1;
    }

    /** The listener reads SCHEDULE_END. */
    method EndRound()
      modifies this
      ensures View() == After(old(View()), End)
    {
      scheduling := false;
      outstanding := if outstanding > 0 then outstanding - 1 else 0;
    }
  }
}
