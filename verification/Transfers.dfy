/** The transfer lists that prolog and epilog handlers build, slot by slot through an index, and where restart files
    are put and looked for. */
module Transfers {
  import opened Jobs
  import opened Numbers

  /** A local name, and a remote one if the template gives it. */
  datatype FilePair = FilePair(local: string, remote: Option<string>)

  /** What a slot of a transfer list is for. */
  datatype File =
    | Output(pair: FilePair) | StdOut(url: string) | StdErr(url: string) | PreOut | PreErr | MonitorOut | MonitorErr
    | WrapperOut | WrapperErr | Saved(name: string)
    | Input(pair: FilePair) | Environment | Executable(path: string) | StdIn(path: string)
    | PreWrapperFile(path: string) | WrapperFile(path: string) | MonitorFile(path: string) | Fetched(name: string)

  datatype Template = Template(
    outputs: seq<FilePair>, restarts: seq<string>, inputs: seq<FilePair>, stdoutFile: Option<string>,
    stderrFile: Option<string>, stdinFile: Option<string>, executable: Option<string>, preWrapper: Option<string>,
    wrapper: Option<string>, monitor: Option<string>, checkpointUrl: string)

  /** What the handlers know of the job: its template, its directory on the server, how often it was restarted, the
      remote directory of the previous history record, and whether it is in MIGR_PROLOG. */
  datatype Work = Work(t: Template, directory: string, restarted: nat, previous: string, migrating: bool)

  /** The source of a transfer, its target if that has a name of its own, another source to try when the first one
      fails, and, in a prolog, whether the file is made executable. */
  datatype Transfer = Transfer(src: string, dst: Option<string>, alt: Option<string>, mode: Option<char>)

  // ------------------------------------------------------------------------------------------
  // The lists, as the templates promise them
  // ------------------------------------------------------------------------------------------

  const URL_SIZE: nat := 512

  /** What snprintf leaves of a text in a buffer of that size. */
  function Cut(s: string): (r: string)
    ensures |r| < URL_SIZE && r <= s
  { if |s| < URL_SIZE then s else s[..URL_SIZE - 1] }

  /** A log of this start of the job, in the job's directory. */
  function LogUrl(w: Work, name: string): string {
    Cut("file://" + w.directory + "/" + name + "." + Decimal(w.restarted))
  }

  function Carried(f: File, w: Work): Transfer {
    match f
    case Output(p) => Transfer(p.local, p.remote, None, None)
    case StdOut(url) => Transfer("stdout.execution", Some(url), None, None)
    case StdErr(url) => Transfer("stderr.execution", Some(url), None, None)
    case PreOut => Transfer("stdout.pre_wrapper", Some(LogUrl(w, "stdout.pre_wrapper")), None, None)
    case PreErr => Transfer("stderr.pre_wrapper", Some(LogUrl(w, "stderr.pre_wrapper")), None, None)
    case MonitorOut => Transfer("stdout.monitor", Some(LogUrl(w, "stdout.monitor")), None, None)
    case MonitorErr => Transfer("stderr.monitor", Some(LogUrl(w, "stderr.monitor")), None, None)
    case WrapperOut => Transfer("stdout.wrapper", Some(LogUrl(w, "stdout.wrapper")), None, None)
    case WrapperErr => Transfer("stderr.wrapper", Some(LogUrl(w, "stderr.wrapper")), None, None)
    case Saved(name) => Transfer(name, Some(Cut(w.t.checkpointUrl + "/" + name)), None, None)
    case Input(p) => Transfer(p.local, p.remote, None, Some('-'))
    case Environment => Transfer(Cut("file://" + w.directory + "/job.env"), None, None, Some('-'))
    case Executable(path) => Transfer(path, None, None, Some('X'))
    case StdIn(path) => Transfer(path, Some("stdin.execution"), None, Some('-'))
    case PreWrapperFile(path) => Transfer(path, None, None, Some('X'))
    case WrapperFile(path) => Transfer(Cut("file://" + path), Some(".wrapper"), None, Some('X'))
    case MonitorFile(path) => Transfer(Cut("file://" + path), Some(".monitor"), None, Some('X'))
    case Fetched(name) =>
      if w.migrating then Transfer(Cut(w.previous + name), None, Some(Cut(w.t.checkpointUrl + name)), Some('-'))
      else Transfer(Cut(w.t.checkpointUrl + name), None, None, Some('-'))
  }

  function If<T>(b: bool, s: seq<T>): seq<T> { if b then s else [] }

  function OutputsOf(t: Template): seq<File> {
    seq(|t.outputs|, k requires 0 <= k < |t.outputs| => Output(t.outputs[k]))
  }

  function SavedOf(t: Template): seq<File> {
    seq(|t.restarts|, k requires 0 <= k < |t.restarts| => Saved(t.restarts[k]))
  }

  function FetchedOf(t: Template): seq<File> {
    seq(|t.restarts|, k requires 0 <= k < |t.restarts| => Fetched(t.restarts[k]))
  }

  function InputsOf(t: Template): seq<File> {
    seq(|t.inputs|, k requires 0 <= k < |t.inputs| => Input(t.inputs[k]))
  }

  function ExecutionOf(t: Template): seq<File> {
    (if t.stdoutFile.Some? then [StdOut(t.stdoutFile.value)] else [])
    + (if t.stderrFile.Some? then [StdErr(t.stderrFile.value)] else [])
  }

  function StdOf(t: Template): seq<File> {
    ExecutionOf(t) + If(t.preWrapper.Some?, [PreOut, PreErr]) + If(t.monitor.Some?, [MonitorOut, MonitorErr])
  }

  /** What each epilog state transfers; checkpointed says that the restart files are on the checkpoint server
      already. */
  function EpilogFiles(st: State, t: Template, wrapperBased: bool, checkpointed: bool): seq<File>
    requires InEpilog(st)
  {
    match st
    case EpilogStd => [WrapperOut, WrapperErr]
    case MigrEpilog => StdOf(t)
    case StopEpilog => StdOf(t) + If(!checkpointed, SavedOf(t))
    case Epilog => OutputsOf(t) + StdOf(t)
    case EpilogRestart => OutputsOf(t) + StdOf(t) + If(!checkpointed, SavedOf(t))
    case KillEpilog | EpilogFail => If(wrapperBased, [WrapperOut, WrapperErr])
  }

  function ExecutableOf(t: Template): (r: seq<File>)
    ensures |r| <= 1
  { if t.executable.Some? then [Executable(t.executable.value)] else [] }

  function StdInOf(t: Template): (r: seq<File>)
    ensures |r| <= 1
  { if t.stdinFile.Some? then [StdIn(t.stdinFile.value)] else [] }

  function PreWrapperOf(t: Template): (r: seq<File>)
    ensures |r| <= 1
  { if t.preWrapper.Some? then [PreWrapperFile(t.preWrapper.value)] else [] }

  function JobFiles(t: Template, wrapperBased: bool): seq<File> {
    If(wrapperBased, [Environment]) + ExecutableOf(t) + StdInOf(t) + PreWrapperOf(t)
  }

  function WrapperFiles(t: Template, wrapperBased: bool): seq<File>
    requires wrapperBased ==> t.wrapper.Some?
  {
    (if wrapperBased then [WrapperFile(t.wrapper.value)] else [])
    + (if wrapperBased && t.monitor.Some? then [MonitorFile(t.monitor.value)] else [])
  }

  function FrontFiles(t: Template, wrapperBased: bool): seq<File>
    requires wrapperBased ==> t.wrapper.Some?
  { InputsOf(t) + JobFiles(t, wrapperBased) + WrapperFiles(t, wrapperBased) }

  function PrologFiles(t: Template, wrapperBased: bool, restarted: bool): seq<File>
    requires wrapperBased ==> t.wrapper.Some?
  { FrontFiles(t, wrapperBased) + If(restarted, FetchedOf(t)) }

  /** The files without which an epilog fails: output files, the execution's stdout and stderr, and the wrapper's
      stdout. */
  predicate Required(f: File) { f.Output? || f.StdOut? || f.StdErr? || f.WrapperOut? }

  function Filled(files: seq<File>, w: Work): (r: seq<Option<Transfer>>)
    ensures |r| == |files|
  { seq(|files|, k requires 0 <= k < |files| => Some(Carried(files[k], w))) }

  // ------------------------------------------------------------------------------------------
  // Building a list
  // ------------------------------------------------------------------------------------------

  class TransferList {
    const xfrs: array<Option<Transfer>>
    const work: Work
    var failure_limit: int

    /** An empty list of the given size. */
    constructor (number_of_xfrs: nat, w: Work)
      ensures fresh(xfrs) && xfrs.Length == number_of_xfrs && failure_limit == 0 && work == w
      ensures forall k | 0 <= k < xfrs.Length :: xfrs[k].None?
    {
      xfrs := new Option<Transfer>[number_of_xfrs](k => None);
      work := w;
      failure_limit := 0;
    }

    /** The slots before index carry these files, and no other slot was written. */
    ghost predicate Holds(files: seq<File>, index: nat)
      reads this, xfrs
    {
      && index == |files| <= xfrs.Length
      && xfrs[..index] == Filled(files, work)
      && forall k | index <= k < xfrs.Length :: xfrs[k].None?
    }

    /** A slot that was never written is written. */
    method Put(index: nat, f: File, ghost files: seq<File>) returns (next: nat)
      requires Holds(files, index) && index < xfrs.Length
      modifies xfrs
      ensures Holds(files + [f], next)
    {
      xfrs[index] := Some(Carried(f, work));
      next := index + 1;
    }

    method Pair(index: nat, f: File, g: File, ghost files: seq<File>) returns (next: nat)
      requires Holds(files, index) && index + 2 <= xfrs.Length
      modifies xfrs
      ensures Holds(files + [f, g], next)
    {
      next := Put(index, f, files);
      next := Put(next, g, files + [f]);
      assert files + [f] + [g] == files + [f, g];
    }

    method PairIf(wanted: bool, index: nat, f: File, g: File, ghost files: seq<File>) returns (next: nat)
      requires Holds(files, index) && index + (if wanted then 2 else 0) <= xfrs.Length
      modifies xfrs
      ensures Holds(files + If(wanted, [f, g]), next)
    {
      next := index;
      if wanted {
        next := Pair(index, f, g, files);
      } else {
        assert files + [] == files;
      }
    }

    method StdWrapperFiles(index: nat, ghost files: seq<File>) returns (next: nat)
      requires Holds(files, index) && index + 2 <= xfrs.Length
      modifies this, xfrs
      ensures Holds(files + [WrapperOut, WrapperErr], next) && failure_limit == index
    {
      failure_limit := index;
      next := Pair(index, WrapperOut, WrapperErr, files);
    }

    /** The execution's stdout and stderr. */
    method ExecutionFiles(index: nat, ghost files: seq<File>) returns (next: nat)
      requires Holds(files, index) && index + |ExecutionOf(work.t)| <= xfrs.Length
      modifies this, xfrs
      ensures Holds(files + ExecutionOf(work.t), next)
      ensures failure_limit == if ExecutionOf(work.t) == [] then old(failure_limit) else next - 1
    {
      next := index;
      if work.t.stdoutFile.Some? {
        failure_limit := next;
        next := Put(next, StdOut(work.t.stdoutFile.value), files);
      }
      ghost var now := files + if work.t.stdoutFile.Some? then [StdOut(work.t.stdoutFile.value)] else [];
      assert work.t.stdoutFile.None? ==> now == files;
      if work.t.stderrFile.Some? {
        failure_limit := next;
        next := Put(next, StdErr(work.t.stderrFile.value), now);
      }
      assert files + ExecutionOf(work.t) ==
             now + if work.t.stderrFile.Some? then [StdErr(work.t.stderrFile.value)] else [];
      assert work.t.stderrFile.None? ==> files + ExecutionOf(work.t) == now;
    }

    method StdFiles(index: nat, ghost files: seq<File>) returns (next: nat)
      requires Holds(files, index) && index + |StdOf(work.t)| <= xfrs.Length
      modifies this, xfrs
      ensures Holds(files + StdOf(work.t), next)
      ensures failure_limit == if ExecutionOf(work.t) == [] then old(failure_limit)
                               else index + |ExecutionOf(work.t)| - 1
    {
      ghost var f1 := files + ExecutionOf(work.t);
      ghost var f2 := f1 + If(work.t.preWrapper.Some?, [PreOut, PreErr]);
      next := ExecutionFiles(index, files);
      next := PairIf(work.t.preWrapper.Some?, next, PreOut, PreErr, f1);
      next := PairIf(work.t.monitor.Some?, next, MonitorOut, MonitorErr, f2);
      assert f2 + If(work.t.monitor.Some?, [MonitorOut, MonitorErr]) == files + StdOf(work.t);
    }

    /** One slot for each of a list of files. */
    method PutAll(index: nat, more: seq<File>, ghost files: seq<File>) returns (next: nat)
      requires Holds(files, index) && index + |more| <= xfrs.Length
      modifies xfrs
      ensures Holds(files + more, next)
    {
      assert files + more[..0] == files;
      for i := 0 to |more|
        invariant Holds(files + more[..i], index + i)
      {
        var _ := Put(index + i, more[i], files + more[..i]);
        assert files + more[..i] + [more[i]] == files + more[..i + 1];
      }
      assert more[..|more|] == more;
      next := index + |more|;
    }

    method OutputFiles(index: nat, ghost files: seq<File>) returns (next: nat)
      requires Holds(files, index) && index + |work.t.outputs| <= xfrs.Length
      modifies this, xfrs
      ensures Holds(files + OutputsOf(work.t), next) && failure_limit == |work.t.outputs| - 1
    {
      next := PutAll(index, OutputsOf(work.t), files);
      failure_limit := |work.t.outputs| - 1;
    }

    method RestartFiles(index: nat, ghost files: seq<File>) returns (next: nat)
      requires Holds(files, index) && index + |work.t.restarts| <= xfrs.Length
      modifies xfrs
      ensures Holds(files + SavedOf(work.t), next)
    {
      next := PutAll(index, SavedOf(work.t), files);
    }
  }

  function Count(b: bool): nat { if b then 1 else 0 }

  function NumStd(t: Template): (n: nat)
    ensures n == |StdOf(t)|
  {
    0 + Count(t.stdoutFile.Some?) + Count(t.stderrFile.Some?) + 2 * Count(t.preWrapper.Some?)
    + 2 * Count(t.monitor.Some?)
  }

  /** The number of transfers that each epilog handler computes before it fills the list. */
  function NumXfrs(st: State, t: Template, wrapperBased: bool, checkpointed: bool): (n: nat)
    requires InEpilog(st)
    ensures n == |EpilogFiles(st, t, wrapperBased, checkpointed)|
  {
    match st
    case EpilogStd => 2
    case MigrEpilog => NumStd(t)
    case StopEpilog => NumStd(t) + if checkpointed then 0 else |t.restarts|
    case Epilog => NumStd(t) + |t.outputs|
    case EpilogRestart => NumStd(t) + |t.outputs| + if checkpointed then 0 else |t.restarts|
    case KillEpilog | EpilogFail => if wrapperBased then 2 else 0
  }

  /** A slot's index is at most the limit exactly when its file is required. */
  ghost predicate LimitSplits(limit: int, files: seq<File>) {
    forall k | 0 <= k < |files| :: k <= limit <==> Required(files[k])
  }

  /** A finished list: every slot written exactly once, the final index is the number of transfers. */
  ghost predicate Complete(list: TransferList, index: nat, files: seq<File>, w: Work)
    reads list, list.xfrs
  { index == list.xfrs.Length && list.xfrs[..] == Filled(files, w) && LimitSplits(list.failure_limit, files) }

  lemma Finished(list: TransferList, index: nat, files: seq<File>)
    requires list.Holds(files, index) && index == list.xfrs.Length && LimitSplits(list.failure_limit, files)
    ensures Complete(list, index, files, list.work)
  {
    assert list.xfrs[..] == list.xfrs[..index];
  }

  /** The wrapper's files: EPILOG_STD, and KILL_EPILOG and EPILOG_FAIL of a wrapper-based job. */
  method BuildWrapperList(w: Work) returns (list: TransferList, index: nat)
    ensures fresh(list) && fresh(list.xfrs) && Complete(list, index, [WrapperOut, WrapperErr], w)
  {
    list := new TransferList(2, w);
    list.failure_limit := -1;
    index := list.StdWrapperFiles(0, []);
    assert [] + [WrapperOut, WrapperErr] == [WrapperOut, WrapperErr];
    Finished(list, index, [WrapperOut, WrapperErr]);
  }

  /** The limit that the execution's files leave, when before slots come first and all of them are required. */
  function LimitAfter(t: Template, before: nat): int { before + |ExecutionOf(t)| - 1 }

  lemma StdRequired(t: Template, k: nat)
    requires k < |StdOf(t)|
    ensures k < |ExecutionOf(t)| <==> Required(StdOf(t)[k])
  {
  }

  lemma StdLimit(t: Template, before: nat, rest: seq<File>, k: nat)
    requires (forall f <- rest :: !Required(f)) && k < |StdOf(t) + rest|
    ensures before + k <= LimitAfter(t, before) <==> Required((StdOf(t) + rest)[k])
  {
    if k < |StdOf(t)| {
      StdRequired(t, k);
    } else {
      assert (StdOf(t) + rest)[k] == rest[k - |StdOf(t)|];
    }
  }

  lemma OutputLimit(t: Template, outputs: seq<File>, rest: seq<File>)
    requires (forall f <- outputs :: Required(f)) && forall f <- rest :: !Required(f)
    ensures LimitSplits(LimitAfter(t, |outputs|), outputs + StdOf(t) + rest)
  {
    var files := outputs + StdOf(t) + rest;
    assert files == outputs + (StdOf(t) + rest);
    forall k | 0 <= k < |files| ensures k <= LimitAfter(t, |outputs|) <==> Required(files[k]) {
      if k >= |outputs| {
        StdLimit(t, |outputs|, rest, k - |outputs|);
        assert files[k] == (StdOf(t) + rest)[k - |outputs|];
      } else {
        assert files[k] == outputs[k];
      }
    }
  }

  lemma NoneRequired(t: Template, restarts: bool)
    ensures forall f <- If(restarts, SavedOf(t)) :: !Required(f)
    ensures forall f <- OutputsOf(t) :: Required(f)
  {
  }

  /** The execution's files: MIGR_EPILOG, and STOP_EPILOG with the restart files. */
  method BuildStdList(w: Work, restarts: bool) returns (list: TransferList, index: nat)
    ensures fresh(list) && fresh(list.xfrs) && Complete(list, index, StdOf(w.t) + If(restarts, SavedOf(w.t)), w)
  {
    list := new TransferList(NumStd(w.t) + if restarts then |w.t.restarts| else 0, w);
    list.failure_limit := -1;
    index := list.StdFiles(0, []);
    assert [] + StdOf(w.t) == StdOf(w.t) && StdOf(w.t) + [] == StdOf(w.t);
    if restarts {
      index := list.RestartFiles(index, StdOf(w.t));
    }
    NoneRequired(w.t, restarts);
    OutputLimit(w.t, [], If(restarts, SavedOf(w.t)));
    Finished(list, index, StdOf(w.t) + If(restarts, SavedOf(w.t)));
  }

  /** All output files: EPILOG, and EPILOG_RESTART with the restart files. */
  method BuildOutputList(w: Work, restarts: bool) returns (list: TransferList, index: nat)
    ensures fresh(list) && fresh(list.xfrs)
    ensures Complete(list, index, OutputsOf(w.t) + StdOf(w.t) + If(restarts, SavedOf(w.t)), w)
  {
    list := new TransferList(NumStd(w.t) + |w.t.outputs| + if restarts then |w.t.restarts| else 0, w);
    list.failure_limit := -1;
    index := list.OutputFiles(0, []);
    assert [] + OutputsOf(w.t) == OutputsOf(w.t);
    index := list.StdFiles(index, OutputsOf(w.t));
    if restarts {
      index := list.RestartFiles(index, OutputsOf(w.t) + StdOf(w.t));
    }
    assert OutputsOf(w.t) + StdOf(w.t) + [] == OutputsOf(w.t) + StdOf(w.t);
    NoneRequired(w.t, restarts);
    OutputLimit(w.t, OutputsOf(w.t), If(restarts, SavedOf(w.t)));
    Finished(list, index, OutputsOf(w.t) + StdOf(w.t) + If(restarts, SavedOf(w.t)));
  }

  /** Every slot of the list is written exactly once, with the source and target of the file the state asks for; the
      final index is the number computed beforehand; and a slot is at most failure_limit exactly when it is
      required. */
  method BuildEpilog(st: State, w: Work, wrapperBased: bool, checkpointed: bool)
    returns (list: TransferList, index: nat)
    requires InEpilog(st)
    ensures fresh(list) && Complete(list, index, EpilogFiles(st, w.t, wrapperBased, checkpointed), w)
    ensures index == NumXfrs(st, w.t, wrapperBased, checkpointed)
  {
    if st.EpilogStd? || ((st.KillEpilog? || st.EpilogFail?) && wrapperBased) {
      list, index := BuildWrapperList(w);
    } else if st.KillEpilog? || st.EpilogFail? {
      list := new TransferList(0, w);
      index := 0;
    } else if st.Epilog? || st.EpilogRestart? {
      list, index := BuildOutputList(w, st.EpilogRestart? && !checkpointed);
      assert OutputsOf(w.t) + StdOf(w.t) + [] == OutputsOf(w.t) + StdOf(w.t);
    } else {
      list, index := BuildStdList(w, st.StopEpilog? && !checkpointed);
      assert StdOf(w.t) + [] == StdOf(w.t);
    }
  }

  // ------------------------------------------------------------------------------------------
  // The prolog's list
  // ------------------------------------------------------------------------------------------

  /** The number of transfers of a prolog. A wrapper-based job has a wrapper. */
  function NumProlog(t: Template, wrapperBased: bool, restarted: bool): (n: nat)
    requires wrapperBased ==> t.wrapper.Some?
    ensures n == |PrologFiles(t, wrapperBased, restarted)|
  {
    (if wrapperBased then
       |t.inputs| + 1 + Count(t.executable.Some?) + Count(t.stdinFile.Some?) + Count(t.preWrapper.Some?)
       + Count(t.wrapper.Some?) + Count(t.monitor.Some?)
     else
       |t.inputs| + Count(t.executable.Some?) + Count(t.stdinFile.Some?) + Count(t.preWrapper.Some?))
    + if restarted && |t.restarts| > 0 then |t.restarts| else 0
  }

  /** One slot if there is a file for it. */
  method PutIf(list: TransferList, file: seq<File>, index: nat, ghost files: seq<File>) returns (next: nat)
    requires list.Holds(files, index) && |file| <= 1 && index + |file| <= list.xfrs.Length
    modifies list.xfrs
    ensures list.Holds(files + file, next)
  {
    next := index;
    if file != [] {
      next := list.Put(index, file[0], files);
      assert [file[0]] == file;
    } else {
      assert files + [] == files;
    }
  }

  method PutPair(list: TransferList, f: seq<File>, g: seq<File>, index: nat, ghost files: seq<File>)
    returns (next: nat)
    requires list.Holds(files, index) && |f| <= 1 && |g| <= 1 && index + |f| + |g| <= list.xfrs.Length
    modifies list.xfrs
    ensures list.Holds(files + f + g, next)
  {
    next := PutIf(list, f, index, files);
    next := PutIf(list, g, next, files + f);
  }

  method PutJobFiles(list: TransferList, wrapperBased: bool, index: nat, ghost files: seq<File>)
    returns (next: nat)
    requires list.Holds(files, index) && index + |JobFiles(list.work.t, wrapperBased)| <= list.xfrs.Length
    modifies list.xfrs
    ensures list.Holds(files + JobFiles(list.work.t, wrapperBased), next)
  {
    var t := list.work.t;
    var first := If(wrapperBased, [Environment]);
    next := PutPair(list, first, ExecutableOf(t), index, files);
    next := PutPair(list, StdInOf(t), PreWrapperOf(t), next, files + first + ExecutableOf(t));
    assert files + first + ExecutableOf(t) + StdInOf(t) + PreWrapperOf(t) == files + JobFiles(t, wrapperBased);
  }

  method PutWrapperFiles(list: TransferList, wrapperBased: bool, index: nat, ghost files: seq<File>)
    returns (next: nat)
    requires wrapperBased ==> list.work.t.wrapper.Some?
    requires list.Holds(files, index) && index + |WrapperFiles(list.work.t, wrapperBased)| <= list.xfrs.Length
    modifies list.xfrs
    ensures list.Holds(files + WrapperFiles(list.work.t, wrapperBased), next)
  {
    var t := list.work.t;
    var a := if wrapperBased then [WrapperFile(t.wrapper.value)] else [];
    var b := if wrapperBased && t.monitor.Some? then [MonitorFile(t.monitor.value)] else [];
    next := PutPair(list, a, b, index, files);
    assert files + a + b == files + WrapperFiles(t, wrapperBased);
  }

  lemma FrontHasNoRestart(t: Template, wrapperBased: bool, f: File)
    requires wrapperBased ==> t.wrapper.Some?
    requires f in FrontFiles(t, wrapperBased)
    ensures !f.Fetched?
  {
    assert f in InputsOf(t) || f in JobFiles(t, wrapperBased) || f in WrapperFiles(t, wrapperBased);
  }

  /** A slot's index is below the limit exactly when its file is not a restart file. */
  ghost predicate LimitFronts(limit: int, files: seq<File>) {
    forall k | 0 <= k < |files| :: k < limit <==> !files[k].Fetched?
  }

  lemma PrologLimit(t: Template, wrapperBased: bool, restarted: bool)
    requires wrapperBased ==> t.wrapper.Some?
    ensures LimitFronts(|FrontFiles(t, wrapperBased)|, PrologFiles(t, wrapperBased, restarted))
  {
    var front := FrontFiles(t, wrapperBased);
    var files := PrologFiles(t, wrapperBased, restarted);
    forall k | 0 <= k < |files| ensures k < |front| <==> !files[k].Fetched? {
      if k < |front| {
        assert files[k] == front[k];
        FrontHasNoRestart(t, wrapperBased, files[k]);
      } else {
        assert files[k] == FetchedOf(t)[k - |front|];
      }
    }
  }

  /** The list of a prolog without its restart files. */
  method PutFront(list: TransferList, wrapperBased: bool) returns (index: nat)
    requires wrapperBased ==> list.work.t.wrapper.Some?
    requires list.Holds([], 0) && |FrontFiles(list.work.t, wrapperBased)| <= list.xfrs.Length
    modifies list.xfrs
    ensures list.Holds(FrontFiles(list.work.t, wrapperBased), index)
  {
    var t := list.work.t;
    index := list.PutAll(0, InputsOf(t), []);
    assert [] + InputsOf(t) == InputsOf(t);
    index := PutJobFiles(list, wrapperBased, index, InputsOf(t));
    index := PutWrapperFiles(list, wrapperBased, index, InputsOf(t) + JobFiles(t, wrapperBased));
  }

  /** A prolog's list is filled exactly too. Its limit counts differently: every file before it is required, and
      those are all but the restart files. */
  method BuildProlog(w: Work, wrapperBased: bool) returns (list: TransferList, index: nat)
    requires wrapperBased ==> w.t.wrapper.Some?
    ensures fresh(list) && list.work == w && index == list.xfrs.Length == NumProlog(w.t, wrapperBased, w.restarted != 0)
    ensures list.Holds(PrologFiles(w.t, wrapperBased, w.restarted != 0), index)
    ensures LimitFronts(list.failure_limit, PrologFiles(w.t, wrapperBased, w.restarted != 0))
  {
    list := new TransferList(NumProlog(w.t, wrapperBased, w.restarted != 0), w);
    index := PutFront(list, wrapperBased);
    list.failure_limit := index;
    if w.restarted != 0 && |w.t.restarts| > 0 {
      index := list.PutAll(index, FetchedOf(w.t), FrontFiles(w.t, wrapperBased));
    } else {
      assert FrontFiles(w.t, wrapperBased) + [] == FrontFiles(w.t, wrapperBased);
    }
    PrologLimit(w.t, wrapperBased, w.restarted != 0);
  }

  // ------------------------------------------------------------------------------------------
  // Restart files
  // ------------------------------------------------------------------------------------------

  /** The file a URL names: repeated slashes count once. */
  function Squeezed(s: string): (r: string)
    ensures |r| <= |s| && (s != [] ==> r != [] && r[0] == s[0])
  {
    if |s| <= 1 then s
    else if s[0] == '/' && s[1] == '/' then Squeezed(s[1..])
    else [s[0]] + Squeezed(s[1..])
  }

  predicate EndsInSlash(s: string) { s != [] && s[|s| - 1] == '/' }

  predicate StartsWithSlash(s: string) { s != [] && s[0] == '/' }

  /** What a text adds to one that ends, or does not end, in a slash. */
  lemma {:induction false} SqueezedJoin(a: string, b: string)
    ensures |Squeezed(a + b)| == |Squeezed(a)| + |Squeezed(b)| - if EndsInSlash(a) && StartsWithSlash(b) then 1 else 0
  {
    if a == [] {
      assert a + b == b;
    } else if |a| == 1 {
      assert (a + b)[1..] == b;
    } else {
      assert (a + b)[1..] == a[1..] + b;
      SqueezedJoin(a[1..], b);
    }
  }

  /** A slash after a slash, or before one, adds nothing. */
  lemma {:induction false} SlashAfter(a: string, b: string, sb: string)
    requires EndsInSlash(a) && sb == ['/'] + b
    ensures Squeezed(a + sb) == Squeezed(a + b)
  {
    if |a| == 1 {
      assert (a + sb)[1..] == sb == a + b;
    } else {
      assert (a + sb)[1..] == a[1..] + sb && (a + b)[1..] == a[1..] + b;
      SlashAfter(a[1..], b, sb);
    }
  }

  lemma {:induction false} SlashBefore(a: string, b: string, sb: string)
    requires StartsWithSlash(b) && sb == ['/'] + b
    ensures Squeezed(a + sb) == Squeezed(a + b)
  {
    if a == [] {
      assert a + sb == sb && sb[1..] == b && a + b == b;
    } else {
      assert (a + sb)[1..] == a[1..] + sb && (a + b)[1..] == a[1..] + b;
      SlashBefore(a[1..], b, sb);
    }
  }

  /** Epilogs and checkpoints put a slash between the checkpoint URL and the name of a restart file, prologs do not:
      they mean the same file if and only if the URL ends in a slash or the name starts with one. */
  lemma SameFileIff(url: string, name: string)
    ensures Squeezed(url + "/" + name) == Squeezed(url + name) <==> EndsInSlash(url) || StartsWithSlash(name)
  {
    assert url + "/" + name == url + (['/'] + name);
    if EndsInSlash(url) {
      SlashAfter(url, name, ['/'] + name);
    } else if StartsWithSlash(name) {
      SlashBefore(url, name, ['/'] + name);
    } else {
      SqueezedJoin(url + "/", name);
      SqueezedJoin(url, "/");
      SqueezedJoin(url, name);
    }
  }

  /** Neither of the two has a slash: the epilog saves one file, the prolog looks for another. */
  lemma SlashMissing()
    ensures Squeezed("gsiftp://host/dir" + "/" + "state") != Squeezed("gsiftp://host/dir" + "state")
  {
    SameFileIff("gsiftp://host/dir", "state");
  }

  /** The sources that a transfer tries, in order. */
  function SourcesOf(x: Transfer): seq<string> { [x.src] + if x.alt.Some? then [x.alt.value] else [] }

  /** Where a restarted job looks for a restart file: a migrating one first on the host before, in the directory of that
      execution, and all of them last, or at once, on the checkpoint server. What they look for there is what the epilog
      of the last start saved, as long as the buffer does not cut the URL, if and only if the checkpoint URL ends in a
      slash or the file's name starts with one. */
  lemma RestartFound(w: Work, w': Work, name: string)
    requires w'.t.checkpointUrl == w.t.checkpointUrl && |w.t.checkpointUrl| + 1 + |name| < URL_SIZE
    ensures var saved, sources := Carried(Saved(name), w), SourcesOf(Carried(Fetched(name), w'));
      && sources == (if w'.migrating then [Cut(w'.previous + name)] else []) + [w'.t.checkpointUrl + name]
      && saved.src == name && saved.dst.Some?
      && (Squeezed(saved.dst.value) == Squeezed(sources[|sources| - 1]) <==>
          EndsInSlash(w.t.checkpointUrl) || StartsWithSlash(name))
  {
    SameFileIff(w.t.checkpointUrl, name);
  }
}
