/**
 * The job queue of the runners: a FIFO queue with the standard library's
 * unfinished-task counter, extended with one recorded exception that a
 * worker can deposit and that `are_all_tasks_done` and `join` re-raise.
 */
module TaskQueue {
  import opened Wrappers

  /**
   * What the joining thread observes across one `wait(1)` round: the number
   * of tasks that other threads marked done meanwhile, and the exception a
   * worker recorded meanwhile, if any.
   */
  datatype WaitRound = WaitRound(doneByOthers: nat, raised: Option<Error>)

  /** How `join` ends: it returns, it re-raises, or it is still waiting when the observed rounds run out. */
  datatype JoinOutcome = Returned | Raised(error: Error) | StillWaiting

  datatype JoinState = JoinState(outcome: JoinOutcome, unfinished: nat, excInfo: Option<Error>)

  function Decrease(n: nat, k: nat): nat
  {
    if k <= n then n - k else 0
  }

  /** The exception recorded after a round: a newly raised one replaces the old one. */
  function AfterRound(excInfo: Option<Error>, round: WaitRound): Option<Error>
  {
    if round.raised.Some? then round.raised else excInfo
  }

  /**
   * The effect of `join` on the counter and the recorded exception: the loop
   * runs while tasks are unfinished; after every wait it re-raises a recorded
   * exception.
   */
  function JoinSpec(unfinished: nat, excInfo: Option<Error>, rounds: seq<WaitRound>): JoinState
    decreases |rounds|
  {
    if unfinished == 0 then JoinState(Returned, unfinished, excInfo)
    else if rounds == [] then JoinState(StillWaiting, unfinished, excInfo)
    else
      var u := Decrease(unfinished, rounds[0].doneByOthers);
      var e := AfterRound(excInfo, rounds[0]);
      if e.Some? then JoinState(Raised(e.value), u, e)
      else JoinSpec(u, e, rounds[1..])
  }

  /**
   * `join` returns only once no task is unfinished and no exception was
   * recorded during its waits; it is still waiting only while tasks remain.
   */
  lemma {:induction false} JoinReturnsOnlyWhenDrained(unfinished: nat, excInfo: Option<Error>, rounds: seq<WaitRound>)
    ensures var s := JoinSpec(unfinished, excInfo, rounds);
            (s.outcome == Returned ==> s.unfinished == 0 && s.excInfo == excInfo) &&
            (s.outcome == StillWaiting ==> s.unfinished > 0 && s.excInfo == excInfo)
    decreases |rounds|
  {
    if unfinished != 0 && rounds != [] {
      var u := Decrease(unfinished, rounds[0].doneByOthers);
      var e := AfterRound(excInfo, rounds[0]);
      if e.None? {
        JoinReturnsOnlyWhenDrained(u, e, rounds[1..]);
      }
    }
  }

  /**
   * `join` re-raises exactly the exception it leaves recorded, and a raise
   * never happens without a wait round: when nothing is unfinished it
   * returns at once even if an exception is recorded.
   */
  lemma {:induction false} JoinRaisesRecorded(unfinished: nat, excInfo: Option<Error>, rounds: seq<WaitRound>)
    ensures var s := JoinSpec(unfinished, excInfo, rounds);
            s.outcome.Raised? ==> unfinished > 0 && |rounds| > 0 && s.excInfo == Some(s.outcome.error)
    ensures unfinished == 0 ==> JoinSpec(unfinished, excInfo, rounds).outcome == Returned
    decreases |rounds|
  {
    if unfinished != 0 && rounds != [] {
      var u := Decrease(unfinished, rounds[0].doneByOthers);
      var e := AfterRound(excInfo, rounds[0]);
      if e.None? {
        JoinRaisesRecorded(u, e, rounds[1..]);
      }
    }
  }

  /** With an exception already recorded and tasks unfinished, `join` raises it after the first round instead of waiting further. */
  lemma JoinRaisesAfterFirstRound(unfinished: nat, e: Error, rounds: seq<WaitRound>)
    requires unfinished > 0 && |rounds| > 0 && rounds[0].raised.None?
    ensures JoinSpec(unfinished, Some(e), rounds).outcome == Raised(e)
    ensures JoinSpec(unfinished, Some(e), rounds).unfinished == Decrease(unfinished, rounds[0].doneByOthers)
  {
  }

  /** Waiting never adds tasks: the counter `join` leaves is at most the one it started from. */
  lemma {:induction false} JoinNeverAddsTasks(unfinished: nat, excInfo: Option<Error>, rounds: seq<WaitRound>)
    ensures JoinSpec(unfinished, excInfo, rounds).unfinished <= unfinished
    decreases |rounds|
  {
    if unfinished != 0 && rounds != [] {
      var u := Decrease(unfinished, rounds[0].doneByOthers);
      var e := AfterRound(excInfo, rounds[0]);
      if e.None? {
        JoinNeverAddsTasks(u, e, rounds[1..]);
      }
    }
  }

  class Queue<T> {
    var items: seq<T>
    var unfinished: nat
    var excInfo: Option<Error>

    /** A fresh queue is empty, has no unfinished task and no recorded exception. */
    constructor ()
      ensures items == [] && unfinished == 0 && excInfo == None
    {
      items := [];
      unfinished := 0;
      excInfo := None;
    }

    /** The standard library's `put`: append one item and count one more unfinished task. */
    method Put(x: T)
      modifies this`items, this`unfinished
      ensures items == old(items) + [x]
      ensures unfinished == old(unfinished) + 1
    {
      items := items + [x];
      unfinished := unfinished + 1;
    }

    /** The standard library's non-blocking `get`: the oldest item, or nothing when the queue is empty. */
    method Get() returns (r: Option<T>)
      modifies this`items
      ensures old(items) == [] ==> r == None && items == []
      ensures old(items) != [] ==> r == Some(old(items)[0]) && items == old(items)[1..]
    {
      if items == [] {
        r := None;
      } else {
        r := Some(items[0]);
        items := items[1..];
      }
    }

    /** The standard library's `task_done`: ValueError when called more often than `put`. */
    method TaskDone() returns (r: Result<()>)
      modifies this`unfinished
      ensures old(unfinished) == 0 ==> r == Err(ValueError) && unfinished == 0
      ensures old(unfinished) > 0 ==> r == Ok(()) && unfinished == old(unfinished) - 1
    {
      if unfinished == 0 {
        r := Err(ValueError);
      } else {
        unfinished := unfinished - 1;
        r := Ok(());
      }
    }

    /** A recorded exception is re-raised before the counter is consulted; otherwise true iff nothing is unfinished. */
    function AreAllTasksDone(): (r: Result<bool>)
      reads this
      ensures excInfo.Some? ==> r == Err(excInfo.value)
      ensures excInfo.None? ==> r.Ok? && (r.value <==> unfinished == 0)
    {
      if excInfo.Some? then Err(excInfo.value) else Ok(unfinished == 0)
    }

    /** Records the exception currently being handled by a worker. */
    method RaiseException(e: Error)
      modifies this`excInfo
      ensures excInfo == Some(e)
    {
      excInfo := Some(e);
    }

    /**
     * `join`, one loop iteration per observed wait round: other threads'
     * `task_done` and `raise_exception` calls during the round are applied,
     * then a recorded exception is re-raised.
     */
    method Join(rounds: seq<WaitRound>) returns (outcome: JoinOutcome)
      modifies this`unfinished, this`excInfo
      ensures JoinSpec(old(unfinished), old(excInfo), rounds)
              == JoinState(outcome, unfinished, excInfo)
    {
      var i := 0;
      outcome := StillWaiting;
      while unfinished != 0
        invariant 0 <= i <= |rounds|
        invariant JoinSpec(old(unfinished), old(excInfo), rounds) == JoinSpec(unfinished, excInfo, rounds[i..])
        decreases |rounds| - i
      {
        if i == |rounds| {
          return;
        }
        unfinished := Decrease(unfinished, rounds[i].doneByOthers);
        excInfo := AfterRound(excInfo, rounds[i]);
        if excInfo.Some? {
          outcome := Raised(excInfo.value);
          return;
        }
        assert rounds[i..][1..] == rounds[i + 1..];
        i := i + 1;
      }
      outcome := Returned;
    }
  }
}
