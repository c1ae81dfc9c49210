/**
 * The quantification runner: it queues measurements under unique names,
 * starts a fixed pool of quantification workers, and reports the number of
 * completed quantifications with the progress of one active worker.  The
 * newer runner also splits its processes between a simulation runner and the
 * quantification pool.
 */
module QuantRunner {
  import opened Wrappers
  import TaskQueue

  /** A measurement, identified by the name of its options. */
  datatype Measurement = Measurement(name: string)

  /** What the runner can observe of a quantification worker thread. */
  datatype WorkerView = WorkerView(alive: bool, progress: real, status: string)

  /** The `report()` tuple: completed quantifications, then one active worker's progress and status. */
  datatype Report = Report(completed: int, progress: real, status: string)

  /** A worker is active when its progress lies strictly between 0 and 1. */
  predicate Active(w: WorkerView)
  {
    0.0 < w.progress < 1.0
  }

  /** The index of the first active worker, if any. */
  function FirstActive(workers: seq<WorkerView>): (r: Option<nat>)
    ensures r.Some? ==> r.value < |workers| && Active(workers[r.value])
                        && forall j :: 0 <= j < r.value ==> !Active(workers[j])
    ensures r.None? ==> forall j :: 0 <= j < |workers| ==> !Active(workers[j])
  {
    if workers == [] then None
    else if Active(workers[0]) then Some(0)
    else
      var rest := FirstActive(workers[1..]);
      if rest.Some? then Some(rest.value + 1) else None
  }

  /**
   * The loop of `report`: the first worker whose progress is strictly
   * between 0 and 1 is returned with the completed count; without one the
   * progress is 0 and the status empty.
   */
  method ReportOf(completed: int, workers: seq<WorkerView>) returns (r: Report)
    ensures FirstActive(workers).Some? ==>
              r == Report(completed, workers[FirstActive(workers).value].progress,
                          workers[FirstActive(workers).value].status)
    ensures FirstActive(workers).None? ==> r == Report(completed, 0.0, "")
  {
    var i := 0;
    while i < |workers|
      invariant 0 <= i <= |workers|
      invariant forall j :: 0 <= j < i ==> !Active(workers[j])
    {
      if 0.0 < workers[i].progress && workers[i].progress < 1.0 {
        return Report(completed, workers[i].progress, workers[i].status);
      }
      i := i + 1;
    }
    r := Report(completed, 0.0, "");
  }

  /** Python 2 integer division of a non-negative number by two. */
  function Half(n: nat): nat
  {
    n / 2
  }

  function Max(a: int, b: int): int
  {
    if a >= b then a else b
  }

  function Min(a: int, b: int): int
  {
    if a <= b then a else b
  }

  /** The number of simulation processes and of quantification workers for `nbprocesses`. */
  datatype Split = Split(simulation: nat, quantification: nat)

  /**
   * The process split of the constructor: ValueError below one process,
   * otherwise `max(1, n/2)` and `max(1, n - that)`, the larger one for
   * quantification.
   */
  function SplitProcesses(nbprocesses: int): (r: Result<Split>)
    ensures nbprocesses < 1 <==> r == Err(ValueError)
    ensures r.Ok? ==> 1 <= r.value.simulation <= r.value.quantification
  {
    if nbprocesses < 1 then Err(ValueError)
    else
      var n1 := Max(1, Half(nbprocesses));
      var n2 := Max(1, nbprocesses - n1);
      Ok(Split(Min(n1, n2), Max(n1, n2)))
  }

  /**
   * For two processes or more the pools share them exactly, with the extra
   * one of an odd count going to quantification; a single process is used
   * by both pools.
   */
  lemma SplitSharesProcesses(n: int)
    requires n >= 1
    ensures var s := SplitProcesses(n).value;
            (n >= 2 ==> s.simulation + s.quantification == n && s.simulation == n / 2
                        && s.quantification == n - n / 2)
            && (n == 1 ==> s == Split(1, 1))
  {
  }

  class Runner {
    const nbprocesses: nat
    const simProcesses: nat
    const overwrite: bool
    const queue: TaskQueue.Queue<Measurement>
    var names: seq<string>
    var workers: seq<WorkerView>
    var simRunnerStopped: bool

    /** Every recorded name was put once, and the queue never counts more unfinished tasks than names. */
    ghost predicate Valid()
      reads this, queue
    {
      && nbprocesses >= 1
      && (forall i, j :: 0 <= i < j < |names| ==> names[i] != names[j])
      && queue.unfinished <= |names|
    }

    constructor (split: Split, overwrite: bool, queue: TaskQueue.Queue<Measurement>)
      requires split.quantification >= 1 && queue.unfinished == 0
      ensures Valid()
      ensures nbprocesses == split.quantification && simProcesses == split.simulation
      ensures this.overwrite == overwrite && this.queue == queue
      ensures names == [] && workers == [] && !simRunnerStopped
    {
      nbprocesses := split.quantification;
      simProcesses := split.simulation;
      this.overwrite := overwrite;
      this.queue := queue;
      names := [];
      workers := [];
      simRunnerStopped := false;
    }

    /** `Runner(..., nbprocesses)`: ValueError below one process, else the split pools and empty state. */
    static method Create(nbprocesses: int, overwrite: bool) returns (r: Result<Runner>)
      ensures r.Err? <==> nbprocesses < 1
      ensures r.Err? ==> r.error == ValueError
      ensures r.Ok? ==> && fresh(r.value) && fresh(r.value.queue) && r.value.Valid()
                        && r.value.nbprocesses == SplitProcesses(nbprocesses).value.quantification
                        && r.value.simProcesses == SplitProcesses(nbprocesses).value.simulation
                        && r.value.names == [] && r.value.workers == []
                        && r.value.queue.items == [] && r.value.queue.excInfo == None
    {
      var split := SplitProcesses(nbprocesses);
      if split.Err? {
        return Err(split.error);
      }
      var q := new TaskQueue.Queue<Measurement>();
      var runner := new Runner(split.value, overwrite, q);
      return Ok(runner);
    }

    /** `start`: RuntimeError when workers exist, else exactly `nbprocesses` fresh workers. */
    method Start(initial: WorkerView) returns (r: Result<()>)
      requires Valid()
      modifies this`workers
      ensures Valid()
      ensures old(workers) != [] ==> r == Err(RuntimeError) && workers == old(workers)
      ensures old(workers) == [] ==> r == Ok(()) && |workers| == nbprocesses
                                     && forall i :: 0 <= i < |workers| ==> workers[i] == initial
    {
      if workers != [] {
        return Err(RuntimeError);
      }
      workers := seq(nbprocesses, _ => initial);
      r := Ok(());
    }

    /**
     * `put`: a name already recorded raises ValueError and changes nothing;
     * otherwise the measurement is enqueued once and its name recorded.
     */
    method Put(m: Measurement) returns (r: Result<()>)
      requires Valid()
      modifies this`names, queue`items, queue`unfinished
      ensures Valid()
      ensures m.name in old(names) ==>
                r == Err(ValueError) && names == old(names)
                && queue.items == old(queue.items) && queue.unfinished == old(queue.unfinished)
      ensures m.name !in old(names) ==>
                r == Ok(()) && names == old(names) + [m.name]
                && queue.items == old(queue.items) + [m] && queue.unfinished == old(queue.unfinished) + 1
    {
      if m.name in names {
        return Err(ValueError);
      }
      queue.Put(m);
      names := names + [m.name];
      r := Ok(());
    }

    /** `stop`: stops the simulation runner and every worker, and forgets the workers so that `start` is allowed again. */
    method Stop()
      modifies this`workers, this`simRunnerStopped
      ensures workers == [] && simRunnerStopped
    {
      simRunnerStopped := true;
      workers := [];
    }

    /** `is_alive`: a recorded exception is re-raised; otherwise every worker is alive and some measurement is unfinished. */
    function IsAlive(): (r: Result<bool>)
      reads this, queue
      ensures queue.excInfo.Some? <==> r.Err?
      ensures r.Ok? ==> (r.value <==> (forall i :: 0 <= i < |workers| ==> workers[i].alive) && queue.unfinished != 0)
    {
      var allAlive := forall i :: 0 <= i < |workers| ==> workers[i].alive;
      var done := queue.AreAllTasksDone();
      if done.Err? then Err(done.error) else Ok(allAlive && !done.value)
    }

    /** `join`: wait for the queue to drain, then `stop`; a re-raised exception skips the stop. */
    method Join(rounds: seq<TaskQueue.WaitRound>) returns (outcome: TaskQueue.JoinOutcome)
      modifies this`workers, this`simRunnerStopped, queue`unfinished, queue`excInfo
      ensures TaskQueue.JoinSpec(old(queue.unfinished), old(queue.excInfo), rounds)
              == TaskQueue.JoinState(outcome, queue.unfinished, queue.excInfo)
      ensures outcome == TaskQueue.Returned ==> workers == [] && simRunnerStopped
      ensures outcome != TaskQueue.Returned ==> workers == old(workers) && simRunnerStopped == old(simRunnerStopped)
    {
      outcome := queue.Join(rounds);
      if outcome == TaskQueue.Returned {
        Stop();
      }
    }

    /** `report`: completed = recorded names − unfinished tasks, with the first active worker. */
    method GetReport() returns (r: Report)
      requires Valid()
      ensures 0 <= r.completed <= |names|
      ensures r.completed == |names| - queue.unfinished
      ensures FirstActive(workers).Some? ==>
                r.progress == workers[FirstActive(workers).value].progress
                && r.status == workers[FirstActive(workers).value].status
      ensures FirstActive(workers).None? ==> r.progress == 0.0 && r.status == ""
    {
      r := ReportOf(|names| - queue.unfinished, workers);
    }
  }
}
