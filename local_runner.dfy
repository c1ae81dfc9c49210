/**
 * The local runner: an options dispatcher that runs one simulation per
 * dequeued job and hands the results to a results dispatcher, which saves
 * them as `<name>.h5` in the output directory.  Each dispatcher loop
 * iteration is modelled as one or two step methods; the file system is an
 * object holding the set of existing paths and directories.
 */
module LocalRunner {
  import opened Wrappers
  import TaskQueue

  datatype Program = Program(alias: string, autorun: bool)
  datatype Options = Options(name: string, programs: seq<Program>)

  /** The program-specific output of one simulation; its content is not modelled. */
  datatype Container = Container(id: nat)

  datatype Results = Results(options: Options, containers: seq<Container>)

  /** A program-specific worker, seen through its `progress` and `status` properties. */
  datatype Worker = Worker(program: Program, progress: real, status: string)

  /** One queued job: the options as the user gave them and the options to simulate. */
  datatype Job = Job(baseOptions: Options, options: Options)

  /** The events fired by the dispatchers, in firing order. */
  datatype Event =
    | OptionsRunning(options: Options)
    | OptionsSimulated(options: Options)
    | OptionsError(options: Options, error: Error)
    | ResultsSaved(results: Results)
    | ResultsError(results: Results, error: Error)

  /** How an HDF5 results file was produced. */
  datatype Write = Appended(path: string, results: Results) | Written(path: string, results: Results)

  /** Where a dispatcher is inside one iteration of its loop: idle, or with its worker running a job. */
  datatype Phase = Idle | Running(job: Job, workdir: string)

  /** What the first half of an options-dispatcher iteration did. */
  datatype BeginOutcome = QueueEmpty | Finished | Started

  /** POSIX `os.path.join` of two components. */
  function JoinPath(dir: string, name: string): (p: string)
    ensures |name| > 0 && name[0] == '/' ==> p == name
    ensures (|name| == 0 || name[0] != '/') ==>
              |p| >= |dir| + |name| && p[|p| - |name|..] == name && p[..|dir|] == dir
  {
    if |name| > 0 && name[0] == '/' then name
    else if dir == [] || dir[|dir| - 1] == '/' then dir + name
    else dir + "/" + name
  }

  /** The results file of a simulation named `name`. */
  function H5Path(outputdir: string, name: string): string
  {
    JoinPath(outputdir, name + ".h5")
  }

  /** The lock file that the HDF5 writer keeps beside a results file. */
  function LockPath(h5: string): string
  {
    h5 + ".lock"
  }

  /** The directories and files that exist. */
  class FileSystem {
    var dirs: set<string>
    var files: set<string>

    constructor (dirs: set<string>, files: set<string>)
      ensures this.dirs == dirs && this.files == files
    {
      this.dirs := dirs;
      this.files := files;
    }
  }

  /** The dispatcher that takes jobs from the options queue and runs them through the program's worker. */
  class OptionsDispatcher {
    const queueOptions: TaskQueue.Queue<Job>
    const queueResults: TaskQueue.Queue<Results>
    const outputdir: string
    const workdir: Option<string>
    const userDefinedWorkdir: bool
    const fs: FileSystem
    var worker: Option<Worker>
    var options: Option<Options>
    var phase: Phase
    var events: seq<Event>

    /**
     * The worker exists exactly while a job runs, and every queued or running
     * job is still counted as unfinished, so `task_done` never fails.
     */
    ghost predicate Valid()
      reads this, queueOptions
    {
      && (queueOptions as object) != (queueResults as object)
      && userDefinedWorkdir == workdir.Some?
      && (worker.Some? <==> phase.Running?)
      && (phase.Running? ==> phase.job.options.programs != [] && worker.value.program == phase.job.options.programs[0])
      && queueOptions.unfinished >= |queueOptions.items| + (if phase.Running? then 1 else 0)
    }

    constructor (queueOptions: TaskQueue.Queue<Job>, queueResults: TaskQueue.Queue<Results>,
                 outputdir: string, workdir: Option<string>, fs: FileSystem)
      requires (queueOptions as object) != (queueResults as object)
      requires queueOptions.unfinished >= |queueOptions.items|
      ensures Valid()
      ensures this.queueOptions == queueOptions && this.queueResults == queueResults && this.fs == fs
      ensures this.outputdir == outputdir && this.workdir == workdir
      ensures userDefinedWorkdir == workdir.Some?
      ensures worker == None && options == None && phase == Idle && events == []
    {
      this.queueOptions := queueOptions;
      this.queueResults := queueResults;
      this.outputdir := outputdir;
      this.workdir := workdir;
      this.userDefinedWorkdir := workdir.Some?;
      this.fs := fs;
      worker := None;
      options := None;
      phase := Idle;
      events := [];
    }

    /** The options being simulated, as `current_options` reports them. */
    function CurrentOptions(): Option<Options>
      reads this
    {
      options
    }

    /** 0.0 while no worker is active, else the worker's own progress. */
    function Progress(): (p: real)
      reads this
      ensures worker.None? ==> p == 0.0
      ensures worker.Some? ==> p == worker.value.progress
    {
      if worker.None? then 0.0 else worker.value.progress
    }

    /** The empty string while no worker is active, else the worker's own status. */
    function Status(): (s: string)
      reads this
      ensures worker.None? ==> s == ""
      ensures worker.Some? ==> s == worker.value.status
    {
      if worker.None? then "" else worker.value.status
    }

    /** The running worker reports new progress and status. */
    method WorkerReports(progress: real, status: string)
      requires Valid() && worker.Some?
      modifies this`worker
      ensures Valid()
      ensures worker == Some(old(worker.value).(progress := progress, status := status))
    {
      worker := Some(worker.value.(progress := progress, status := status));
    }

    /**
     * First half of one loop iteration, up to the call of the worker's
     * `run`: dequeue a job (nothing happens when the queue is empty), pick
     * the work directory (`tempDir` is the directory `mkdtemp` creates when
     * none was given), fire `options_running`, record the options and start
     * the worker of the first program, whose `progress`/`status` after
     * `reset()` are given.  With no program, the iteration ends here through
     * the error path.
     */
    method BeginStep(tempDir: string, resetProgress: real, resetStatus: string) returns (outcome: BeginOutcome)
      requires Valid() && phase == Idle
      modifies this`worker, this`options, this`phase, this`events, queueOptions`items, queueOptions`unfinished, fs`dirs
      ensures Valid()
      ensures old(queueOptions.items) == [] ==>
                outcome == QueueEmpty && queueOptions.items == [] && events == old(events)
                && queueOptions.unfinished == old(queueOptions.unfinished)
                && phase == Idle && worker == None && options == old(options) && fs.dirs == old(fs.dirs)
      ensures old(queueOptions.items) != [] ==>
                var job := old(queueOptions.items)[0];
                var dir := if userDefinedWorkdir then workdir.value else tempDir;
                && queueOptions.items == old(queueOptions.items)[1..]
                && options == Some(job.options)
                && fs.dirs == (if userDefinedWorkdir then old(fs.dirs) else old(fs.dirs) + {tempDir})
                && (job.options.programs == [] ==>
                      && outcome == Finished && phase == Idle && worker == None
                      && events == old(events) + [OptionsRunning(job.options), OptionsError(job.options, StopIteration)]
                      && queueOptions.unfinished == old(queueOptions.unfinished) - 1)
                && (job.options.programs != [] ==>
                      && outcome == Started && phase == Running(job, dir)
                      && worker == Some(Worker(job.options.programs[0], resetProgress, resetStatus))
                      && events == old(events) + [OptionsRunning(job.options)]
                      && queueOptions.unfinished == old(queueOptions.unfinished))
    {
      var item := queueOptions.Get();
      if item.None? {
        return QueueEmpty;
      }
      var job := item.value;
      var dir;
      if !userDefinedWorkdir {
        dir := tempDir;
        fs.dirs := fs.dirs + {tempDir};
      } else {
        dir := workdir.value;
      }
      events := events + [OptionsRunning(job.options)];
      options := Some(job.options);
      if job.options.programs == [] {
        events := events + [OptionsError(job.options, StopIteration)];
        worker := None;
        var done := queueOptions.TaskDone();
        return Finished;
      }
      worker := Some(Worker(job.options.programs[0], resetProgress, resetStatus));
      phase := Running(job, dir);
      outcome := Started;
    }

    /**
     * Second half of the iteration, once the worker's `run` returned a
     * container or raised: on success clear the current options, fire
     * `options_simulated`, remove a temporary work directory and push exactly
     * one `Results(base_options, [container])`; on failure fire
     * `options_error` only.  Either way the worker is dropped and the job is
     * marked done.
     */
    method FinishStep(run: Result<Container>)
      requires Valid() && phase.Running?
      modifies this`worker, this`options, this`phase, this`events, queueOptions`items, queueOptions`unfinished, queueResults`items, queueResults`unfinished, fs`dirs
      ensures Valid()
      ensures phase == Idle && worker == None
      ensures queueOptions.items == old(queueOptions.items)
      ensures queueOptions.unfinished == old(queueOptions.unfinished) - 1
      ensures var job := old(phase).job;
              match run
              case Ok(c) =>
                && options == None
                && events == old(events) + [OptionsSimulated(job.options)]
                && queueResults.items == old(queueResults.items) + [Results(job.baseOptions, [c])]
                && queueResults.unfinished == old(queueResults.unfinished) + 1
                && fs.dirs == (if userDefinedWorkdir then old(fs.dirs) else old(fs.dirs) - {old(phase).workdir})
              case Err(e) =>
                && options == old(options)
                && events == old(events) + [OptionsError(job.options, e)]
                && queueResults.items == old(queueResults.items)
                && queueResults.unfinished == old(queueResults.unfinished)
                && fs.dirs == old(fs.dirs)
    {
      var job := phase.job;
      match run {
        case Ok(c) =>
          options := None;
          events := events + [OptionsSimulated(job.options)];
          if !userDefinedWorkdir {
            fs.dirs := fs.dirs - {phase.workdir};
          }
          queueResults.Put(Results(job.baseOptions, [c]));
        case Err(e) =>
          events := events + [OptionsError(job.options, e)];
      }
      worker := None;
      phase := Idle;
      var done := queueOptions.TaskDone();
    }
  }

  /** The dispatcher that saves each dequeued `Results` into `outputdir/<name>.h5`. */
  class ResultsDispatcher {
    const queueResults: TaskQueue.Queue<Results>
    const outputdir: string
    const fs: FileSystem
    var writes: seq<Write>
    var events: seq<Event>

    ghost predicate Valid()
      reads this, queueResults
    {
      queueResults.unfinished >= |queueResults.items|
    }

    constructor (queueResults: TaskQueue.Queue<Results>, outputdir: string, fs: FileSystem)
      requires queueResults.unfinished >= |queueResults.items|
      ensures Valid()
      ensures this.queueResults == queueResults && this.outputdir == outputdir && this.fs == fs
      ensures writes == [] && events == []
    {
      this.queueResults := queueResults;
      this.outputdir := outputdir;
      this.fs := fs;
      writes := [];
      events := [];
    }

    /**
     * One loop iteration: dequeue results (nothing happens when the queue is
     * empty), append them to the existing results file or write a new one,
     * and fire `results_saved`; when the write raises `failure`, fire
     * `results_error` instead.  The item is always marked done.
     */
    method Step(failure: Option<Error>) returns (processed: bool)
      requires Valid()
      modifies this`writes, this`events, queueResults`items, queueResults`unfinished, fs`files
      ensures Valid()
      ensures processed <==> old(queueResults.items) != []
      ensures !processed ==>
                && queueResults.items == old(queueResults.items)
                && queueResults.unfinished == old(queueResults.unfinished)
                && writes == old(writes) && events == old(events) && fs.files == old(fs.files)
      ensures processed ==>
                var r := old(queueResults.items)[0];
                var h5 := H5Path(outputdir, r.options.name);
                && queueResults.items == old(queueResults.items)[1..]
                && queueResults.unfinished == old(queueResults.unfinished) - 1
                && (failure.None? ==>
                      && writes == old(writes) + [if h5 in old(fs.files) then Appended(h5, r) else Written(h5, r)]
                      && fs.files == old(fs.files) + {h5}
                      && events == old(events) + [ResultsSaved(r)])
                && (failure.Some? ==>
                      && writes == old(writes) && fs.files == old(fs.files)
                      && events == old(events) + [ResultsError(r, failure.value)])
    {
      var item := queueResults.Get();
      if item.None? {
        return false;
      }
      var r := item.value;
      var h5 := H5Path(outputdir, r.options.name);
      if failure.None? {
        if h5 in fs.files {
          writes := writes + [Appended(h5, r)];
        } else {
          writes := writes + [Written(h5, r)];
          fs.files := fs.files + {h5};
        }
        events := events + [ResultsSaved(r)];
      } else {
        events := events + [ResultsError(r, failure.value)];
      }
      var done := queueResults.TaskDone();
      processed := true;
    }
  }

  /**
   * The constructor's checks: the output directory must be a directory, and
   * the work directory must be absent or a directory.
   */
  function CheckDirectories(outputdir: string, workdir: Option<string>, dirs: set<string>): (r: Option<Error>)
    ensures r.None? <==> outputdir in dirs && (workdir.None? || workdir.value in dirs)
    ensures r.Some? ==> r.value == ValueError
  {
    if outputdir !in dirs then Some(ValueError)
    else if workdir.Some? && workdir.value !in dirs then Some(ValueError)
    else None
  }

  /** The runner the user talks to: it validates directories and enqueues options. */
  class LocalRunner {
    const outputdir: string
    const workdir: Option<string>
    const overwrite: bool
    const maxWorkers: int
    const fs: FileSystem
    const queueOptions: TaskQueue.Queue<Job>

    constructor (outputdir: string, workdir: Option<string>, overwrite: bool, maxWorkers: int,
                 fs: FileSystem, queueOptions: TaskQueue.Queue<Job>)
      ensures this.outputdir == outputdir && this.workdir == workdir && this.overwrite == overwrite
      ensures this.maxWorkers == maxWorkers && this.fs == fs && this.queueOptions == queueOptions
    {
      this.outputdir := outputdir;
      this.workdir := workdir;
      this.overwrite := overwrite;
      this.maxWorkers := maxWorkers;
      this.fs := fs;
      this.queueOptions := queueOptions;
    }

    /** `LocalRunner(outputdir, workdir, overwrite, max_workers)`, raising ValueError on a bad directory. */
    static method Create(outputdir: string, workdir: Option<string>, overwrite: bool, maxWorkers: int,
                         fs: FileSystem, queueOptions: TaskQueue.Queue<Job>) returns (r: Result<LocalRunner>)
      ensures r.Err? <==> CheckDirectories(outputdir, workdir, fs.dirs).Some?
      ensures r.Err? ==> r.error == ValueError
      ensures r.Ok? ==> && fresh(r.value)
                        && r.value.outputdir == outputdir && r.value.workdir == workdir
                        && r.value.overwrite == overwrite && r.value.maxWorkers == maxWorkers
                        && r.value.fs == fs && r.value.queueOptions == queueOptions
    {
      var check := CheckDirectories(outputdir, workdir, fs.dirs);
      if check.Some? {
        return Err(check.value);
      }
      var runner := new LocalRunner(outputdir, workdir, overwrite, maxWorkers, fs, queueOptions);
      return Ok(runner);
    }

    /**
     * `put`: an existing results file is removed together with its lock file
     * when overwriting is on, and makes `put` raise IOError, enqueueing
     * nothing, when it is off.  Otherwise the options are enqueued, as the
     * base runner's `put` does, as their own base options.
     */
    method Put(options: Options) returns (r: Result<()>)
      modifies fs`files, queueOptions`items, queueOptions`unfinished
      ensures var h5 := H5Path(outputdir, options.name);
              if h5 in old(fs.files) && !overwrite then
                && r == Err(IOError) && fs.files == old(fs.files)
                && queueOptions.items == old(queueOptions.items)
                && queueOptions.unfinished == old(queueOptions.unfinished)
              else
                && r == Ok(())
                && fs.files == (if h5 in old(fs.files) then old(fs.files) - {h5, LockPath(h5)} else old(fs.files))
                && queueOptions.items == old(queueOptions.items) + [Job(options, options)]
                && queueOptions.unfinished == old(queueOptions.unfinished) + 1
    {
      var h5 := H5Path(outputdir, options.name);
      if h5 in fs.files {
        if overwrite {
          fs.files := fs.files - {h5};
          var lock := LockPath(h5);
          if lock in fs.files {
            fs.files := fs.files - {lock};
          }
        } else {
          return Err(IOError);
        }
      }
      queueOptions.Put(Job(options, options));
      r := Ok(());
    }
  }

  /** The importer's dispatcher: like the options dispatcher, but autorun programs produce no results here. */
  class ImporterOptionsDispatcher {
    const queueOptions: TaskQueue.Queue<Job>
    const queueResults: TaskQueue.Queue<Results>
    const outputdir: string
    var worker: Option<Worker>
    var options: Option<Options>
    var phase: Phase
    var events: seq<Event>

    ghost predicate Valid()
      reads this, queueOptions
    {
      && (queueOptions as object) != (queueResults as object)
      && (worker.Some? <==> phase.Running?)
      && queueOptions.unfinished >= |queueOptions.items| + (if phase.Running? then 1 else 0)
    }

    constructor (queueOptions: TaskQueue.Queue<Job>, queueResults: TaskQueue.Queue<Results>, outputdir: string)
      requires (queueOptions as object) != (queueResults as object)
      requires queueOptions.unfinished >= |queueOptions.items|
      ensures Valid()
      ensures this.queueOptions == queueOptions && this.queueResults == queueResults && this.outputdir == outputdir
      ensures worker == None && options == None && phase == Idle && events == []
    {
      this.queueOptions := queueOptions;
      this.queueResults := queueResults;
      this.outputdir := outputdir;
      worker := None;
      options := None;
      phase := Idle;
      events := [];
    }

    function Progress(): (p: real)
      reads this
      ensures worker.None? ==> p == 0.0
      ensures worker.Some? ==> p == worker.value.progress
    {
      if worker.None? then 0.0 else worker.value.progress
    }

    function Status(): (s: string)
      reads this
      ensures worker.None? ==> s == ""
      ensures worker.Some? ==> s == worker.value.status
    {
      if worker.None? then "" else worker.value.status
    }

    /**
     * First half of one loop iteration: dequeue a job, fire
     * `options_running` and record the options.  A job without programs
     * ends through the error path; a job whose first program runs
     * automatically ends at once with no result; any other job starts the
     * program's worker to import the results.
     */
    method BeginStep(resetProgress: real, resetStatus: string) returns (outcome: BeginOutcome)
      requires Valid() && phase == Idle
      modifies this`worker, this`options, this`phase, this`events, queueOptions`items, queueOptions`unfinished
      ensures Valid()
      ensures old(queueOptions.items) == [] ==>
                outcome == QueueEmpty && queueOptions.items == [] && events == old(events)
                && queueOptions.unfinished == old(queueOptions.unfinished)
                && phase == Idle && worker == None && options == old(options)
      ensures old(queueOptions.items) != [] ==>
                var job := old(queueOptions.items)[0];
                && queueOptions.items == old(queueOptions.items)[1..]
                && options == Some(job.options)
                && (job.options.programs == [] ==>
                      && outcome == Finished && phase == Idle && worker == None
                      && events == old(events) + [OptionsRunning(job.options), OptionsError(job.options, StopIteration)]
                      && queueOptions.unfinished == old(queueOptions.unfinished) - 1)
                && (job.options.programs != [] && job.options.programs[0].autorun ==>
                      && outcome == Finished && phase == Idle && worker == None
                      && events == old(events) + [OptionsRunning(job.options)]
                      && queueOptions.unfinished == old(queueOptions.unfinished) - 1)
                && (job.options.programs != [] && !job.options.programs[0].autorun ==>
                      && outcome == Started && phase == Running(job, outputdir)
                      && worker == Some(Worker(job.options.programs[0], resetProgress, resetStatus))
                      && events == old(events) + [OptionsRunning(job.options)]
                      && queueOptions.unfinished == old(queueOptions.unfinished))
    {
      var item := queueOptions.Get();
      if item.None? {
        return QueueEmpty;
      }
      var job := item.value;
      events := events + [OptionsRunning(job.options)];
      options := Some(job.options);
      if job.options.programs == [] {
        events := events + [OptionsError(job.options, StopIteration)];
        var done := queueOptions.TaskDone();
        return Finished;
      }
      var program := job.options.programs[0];
      if program.autorun {
        var done := queueOptions.TaskDone();
        return Finished;
      }
      worker := Some(Worker(program, resetProgress, resetStatus));
      phase := Running(job, outputdir);
      outcome := Started;
    }

    /**
     * Second half, once the worker's `import_` returned or raised: on
     * success clear the options, fire `options_simulated` and push one
     * `Results(base_options, [container])`; on failure fire `options_error`.
     * The worker is dropped and the job marked done either way.
     */
    method FinishStep(imported: Result<Container>)
      requires Valid() && phase.Running?
      modifies this`worker, this`options, this`phase, this`events, queueOptions`items, queueOptions`unfinished, queueResults`items, queueResults`unfinished
      ensures Valid()
      ensures phase == Idle && worker == None
      ensures queueOptions.items == old(queueOptions.items)
      ensures queueOptions.unfinished == old(queueOptions.unfinished) - 1
      ensures var job := old(phase).job;
              match imported
              case Ok(c) =>
                && options == None
                && events == old(events) + [OptionsSimulated(job.options)]
                && queueResults.items == old(queueResults.items) + [Results(job.baseOptions, [c])]
                && queueResults.unfinished == old(queueResults.unfinished) + 1
              case Err(e) =>
                && options == old(options)
                && events == old(events) + [OptionsError(job.options, e)]
                && queueResults.items == old(queueResults.items)
                && queueResults.unfinished == old(queueResults.unfinished)
    {
      var job := phase.job;
      match imported {
        case Ok(c) =>
          options := None;
          events := events + [OptionsSimulated(job.options)];
          queueResults.Put(Results(job.baseOptions, [c]));
        case Err(e) =>
          events := events + [OptionsError(job.options, e)];
      }
      worker := None;
      phase := Idle;
      var done := queueOptions.TaskDone();
    }
  }

  /** `LocalImporter(outputdir)`: ValueError unless the output directory is a directory. */
  function CheckImporterDirectory(outputdir: string, dirs: set<string>): (r: Option<Error>)
    ensures r.None? <==> outputdir in dirs
    ensures r == CheckDirectories(outputdir, None, dirs)
  {
    if outputdir in dirs then None else Some(ValueError)
  }
}
