/**
 * The older quantification runner: the whole process count goes to the
 * quantification pool, the constructor checks the directories itself, and
 * `join` clears the recorded names instead of stopping the workers.
 */
module QuantRunnerOld {
  import opened Wrappers
  import TaskQueue
  import QuantRunner

  /** The constructor's checks, in order: process count, output directory, work directory. */
  function CheckArguments(nbprocesses: int, outputdir: string, workdir: Option<string>, dirs: set<string>): (r: Option<Error>)
    ensures r.None? <==> nbprocesses >= 1 && outputdir in dirs && (workdir.None? || workdir.value in dirs)
    ensures r.Some? ==> r.value == ValueError
  {
    if nbprocesses < 1 then Some(ValueError)
    else if outputdir !in dirs then Some(ValueError)
    else if workdir.Some? && workdir.value !in dirs then Some(ValueError)
    else None
  }

  class Runner {
    const nbprocesses: nat
    const outputdir: string
    const workdir: Option<string>
    const queue: TaskQueue.Queue<QuantRunner.Measurement>
    var names: seq<string>
    var workers: seq<QuantRunner.WorkerView>

    ghost predicate Valid()
      reads this, queue
    {
      && nbprocesses >= 1
      && (forall i, j :: 0 <= i < j < |names| ==> names[i] != names[j])
      && queue.unfinished <= |names|
    }

    constructor (nbprocesses: nat, outputdir: string, workdir: Option<string>, queue: TaskQueue.Queue<QuantRunner.Measurement>)
      requires nbprocesses >= 1 && queue.unfinished == 0
      ensures Valid()
      ensures this.nbprocesses == nbprocesses && this.outputdir == outputdir && this.workdir == workdir
      ensures this.queue == queue && names == [] && workers == []
    {
      this.nbprocesses := nbprocesses;
      this.outputdir := outputdir;
      this.workdir := workdir;
      this.queue := queue;
      names := [];
      workers := [];
    }

    /** `Runner(..., outputdir, workdir, ..., nbprocesses)`: the pool size is `nbprocesses` itself. */
    static method Create(nbprocesses: int, outputdir: string, workdir: Option<string>, dirs: set<string>)
      returns (r: Result<Runner>)
      ensures r.Err? <==> CheckArguments(nbprocesses, outputdir, workdir, dirs).Some?
      ensures r.Err? ==> r.error == ValueError
      ensures r.Ok? ==> && fresh(r.value) && r.value.Valid() && r.value.nbprocesses == nbprocesses
                        && r.value.outputdir == outputdir && r.value.workdir == workdir
                        && r.value.names == [] && r.value.workers == []
    {
      var check := CheckArguments(nbprocesses, outputdir, workdir, dirs);
      if check.Some? {
        return Err(check.value);
      }
      var q := new TaskQueue.Queue<QuantRunner.Measurement>();
      var runner := new Runner(nbprocesses, outputdir, workdir, q);
      return Ok(runner);
    }

    /** `start`: RuntimeError when workers exist, else exactly `nbprocesses` fresh workers. */
    method Start(initial: QuantRunner.WorkerView) returns (r: Result<()>)
      requires Valid()
      modifies this`workers
      ensures Valid()
      ensures old(workers) != [] ==> r == Err(RuntimeError) && workers == old(workers)
      ensures old(workers) == [] ==> r == Ok(()) && |workers| == nbprocesses
                                     && forall i :: 0 <= i < |workers| ==> workers[i] == initial
    {
      if workers != [] {
        return Err(RuntimeError);
      }
      workers := seq(nbprocesses, _ => initial);
      r := Ok(());
    }

    /** `put`: a duplicate name raises ValueError with no state change; otherwise enqueue once and record the name. */
    method Put(m: QuantRunner.Measurement) returns (r: Result<()>)
      requires Valid()
      modifies this`names, queue`items, queue`unfinished
      ensures Valid()
      ensures m.name in old(names) ==>
                r == Err(ValueError) && names == old(names)
                && queue.items == old(queue.items) && queue.unfinished == old(queue.unfinished)
      ensures m.name !in old(names) ==>
                r == Ok(()) && names == old(names) + [m.name]
                && queue.items == old(queue.items) + [m] && queue.unfinished == old(queue.unfinished) + 1
    {
      if m.name in names {
        return Err(ValueError);
      }
      queue.Put(m);
      names := names + [m.name];
      r := Ok(());
    }

    /** `stop`: every worker is stopped and forgotten; the recorded names stay. */
    method Stop()
      modifies this`workers
      ensures workers == [] && names == old(names)
    {
      workers := [];
    }

    function IsAlive(): (r: Result<bool>)
      reads this, queue
      ensures queue.excInfo.Some? <==> r.Err?
      ensures r.Ok? ==> (r.value <==> (forall i :: 0 <= i < |workers| ==> workers[i].alive) && queue.unfinished != 0)
    {
      var allAlive := forall i :: 0 <= i < |workers| ==> workers[i].alive;
      var done := queue.AreAllTasksDone();
      if done.Err? then Err(done.error) else Ok(allAlive && !done.value)
    }

    /**
     * `join`: wait for the queue to drain, then clear the recorded names so
     * that the same names can be put again; the workers keep running.
     */
    method Join(rounds: seq<TaskQueue.WaitRound>) returns (outcome: TaskQueue.JoinOutcome)
      requires Valid()
      modifies this`names, queue`unfinished, queue`excInfo
      ensures Valid()
      ensures TaskQueue.JoinSpec(old(queue.unfinished), old(queue.excInfo), rounds)
              == TaskQueue.JoinState(outcome, queue.unfinished, queue.excInfo)
      ensures outcome == TaskQueue.Returned ==> names == []
      ensures outcome != TaskQueue.Returned ==> names == old(names)
      ensures workers == old(workers)
    {
      TaskQueue.JoinNeverAddsTasks(queue.unfinished, queue.excInfo, rounds);
      TaskQueue.JoinReturnsOnlyWhenDrained(queue.unfinished, queue.excInfo, rounds);
      outcome := queue.Join(rounds);
      if outcome == TaskQueue.Returned {
        names := [];
      }
    }

    /** `report`: the same completed count and active-worker rule as the newer runner. */
    method GetReport() returns (r: QuantRunner.Report)
      requires Valid()
      ensures 0 <= r.completed <= |names|
      ensures r.completed == |names| - queue.unfinished
      ensures QuantRunner.FirstActive(workers).Some? ==>
                r.progress == workers[QuantRunner.FirstActive(workers).value].progress
                && r.status == workers[QuantRunner.FirstActive(workers).value].status
      ensures QuantRunner.FirstActive(workers).None? ==> r.progress == 0.0 && r.status == ""
    {
      r := QuantRunner.ReportOf(|names| - queue.unfinished, workers);
    }
  }
}
