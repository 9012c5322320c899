/**
 The trainer's nested loop over epochs and tasks, which saves its progress after
 every task and can be resumed from what it saved.
 */
module TrainingRun {
  import opened Wrappers

  /** One task done, as the progress history records it. */
  datatype Saved = Saved(epoch: nat, task: nat, success: bool)

  /** What is on disk to resume from. */
  datatype RunState = RunState(nextEpoch: nat, nextTask: nat, completed: nat, processed: nat, successes: nat)

  datatype Outcome = Finished(total: nat, success: nat) | Crashed | NothingToResume

  function Successes(history: seq<Saved>): nat {
    if |history| == 0 then 0
    else Successes(history[..|history| - 1]) + if history[|history| - 1].success then 1 else 0
  }

  /** Every task was saved with the ending it had. */
  ghost predicate Ended(history: seq<Saved>, endings: seq<bool>) {
    |history| <= |endings| && forall k :: 0 <= k < |history| ==> history[k].success == endings[k]
  }

  lemma EndedNext(history: seq<Saved>, before: seq<bool>, succeeds: seq<bool>, next: nat, s: Saved)
    requires Ended(history, before + succeeds) && |history| == |before| + next && next < |succeeds|
    requires s.success == succeeds[next]
    ensures Ended(history + [s], before + succeeds)
  {
  }

  function Endings(history: seq<Saved>): (endings: seq<bool>)
    ensures |endings| == |history| && forall k :: 0 <= k < |history| ==> endings[k] == history[k].success
  {
    if |history| == 0 then [] else Endings(history[..|history| - 1]) + [history[|history| - 1].success]
  }

  /** The place of an epoch's task in the schedule, counting from 0. */
  function Place(epoch: nat, task: nat, tasks: nat): nat {
    if epoch == 0 then task else Place(epoch - 1, task, tasks) + tasks
  }

  lemma {:induction false} PlaceIsProduct(epoch: nat, task: nat, tasks: nat)
    ensures Place(epoch, task, tasks) == epoch * tasks + task
  {
    if epoch > 0 {
      PlaceIsProduct(epoch - 1, task, tasks);
    }
  }

  lemma {:induction false} PlaceInEpoch(epoch: nat, task: nat, tasks: nat)
    ensures Place(epoch, task, tasks) == Place(epoch, 0, tasks) + task
  {
    if epoch > 0 {
      PlaceInEpoch(epoch - 1, task, tasks);
    }
  }

  lemma PlaceOfNextEpoch(epoch: nat, tasks: nat)
    ensures Place(epoch + 1, 0, tasks) == Place(epoch, tasks, tasks)
  {
    PlaceInEpoch(epoch, tasks, tasks);
  }

  lemma {:induction false} PlaceGrows(early: nat, late: nat, tasks: nat)
    requires early <= late
    ensures Place(early, 0, tasks) <= Place(late, 0, tasks)
  {
    if early < late {
      PlaceGrows(early, late - 1, tasks);
    }
  }

  /** The history is the start of the schedule: every epoch's tasks in order, none left out, none twice. */
  ghost predicate OnSchedule(history: seq<Saved>, tasks: nat) {
    forall k :: 0 <= k < |history| ==>
      history[k].task < tasks && Place(history[k].epoch, history[k].task, tasks) == k
  }

  /** The state on disk says exactly where the history ends. */
  ghost predicate Matches(disk: Option<RunState>, history: seq<Saved>, tasks: nat) {
    match disk
    case None => history == []
    case Some(s) =>
      && |history| > 0 && s.nextTask < tasks
      && s.completed == s.processed == |history| == Place(s.nextEpoch, s.nextTask, tasks)
      && s.successes == Successes(history)
  }

  lemma EarlierEpochEarlierPlace(e: nat, i: nat, e': nat, i': nat, tasks: nat)
    requires e < e' && i < tasks
    ensures Place(e, i, tasks) < Place(e', i', tasks)
  {
    PlaceInEpoch(e, i, tasks);
    PlaceOfNextEpoch(e, tasks);
    PlaceInEpoch(e, tasks, tasks);
    PlaceGrows(e + 1, e', tasks);
    PlaceInEpoch(e', i', tasks);
  }

  /** A place determines its epoch and task, so the schedule has no repeats. */
  lemma PlaceIsUnique(e: nat, i: nat, e': nat, i': nat, tasks: nat)
    requires i < tasks && i' < tasks && Place(e, i, tasks) == Place(e', i', tasks)
    ensures e == e' && i == i'
  {
    if e < e' {
      EarlierEpochEarlierPlace(e, i, e', i', tasks);
    } else if e' < e {
      EarlierEpochEarlierPlace(e', i', e, i, tasks);
    }
    PlaceInEpoch(e, i, tasks);
    PlaceInEpoch(e', i', tasks);
  }

  /** On schedule, earlier entries come lexicographically before later ones. */
  lemma ScheduleIsLexicographic(history: seq<Saved>, tasks: nat, j: nat, k: nat)
    requires OnSchedule(history, tasks) && j < k < |history|
    ensures history[j].epoch < history[k].epoch
      || (history[j].epoch == history[k].epoch && history[j].task < history[k].task)
  {
    var a, b := history[j], history[k];
    PlaceInEpoch(a.epoch, a.task, tasks);
    PlaceInEpoch(b.epoch, b.task, tasks);
    if b.epoch < a.epoch {
      EarlierEpochEarlierPlace(b.epoch, b.task, a.epoch, a.task, tasks);
    }
  }

  class Trainer {
    const numEpochs: nat
    const tasks: nat

    var disk: Option<RunState>        // run_state.json
    var history: seq<Saved>           // progress_history.jsonl

    constructor (numEpochs: nat, tasks: nat)
      ensures this.numEpochs == numEpochs && this.tasks == tasks && Valid() && history == []
    {
      this.numEpochs, this.tasks := numEpochs, tasks;
      disk, history := None, [];
    }

    ghost predicate Valid()
      reads this
    {
      && OnSchedule(history, tasks) && Matches(disk, history, tasks)
      && |history| <= Place(numEpochs, 0, tasks)
    }

    /** Record a finished task and where to go on from. */
    method SaveProgress(epoch: nat, task: nat, completed: nat, processed: nat, successes: nat, success: bool)
      requires OnSchedule(history, tasks) && task < tasks
      requires Place(epoch, task, tasks) == |history| && completed == processed == |history| + 1
      requires successes == Successes(history) + if success then 1 else 0
      modifies this`disk, this`history
      ensures history == old(history) + [Saved(epoch, task, success)]
      ensures OnSchedule(history, tasks) && Matches(disk, history, tasks)
    {
      PlaceInEpoch(epoch, task, tasks);
      PlaceInEpoch(epoch, task + 1, tasks);
      var nextEpoch, nextTask := epoch, task + 1;
      if nextTask >= tasks {
        nextEpoch, nextTask := epoch + 1, 0;
        PlaceOfNextEpoch(epoch, tasks);
      }
      disk := Some(RunState(nextEpoch, nextTask, completed, processed, successes));
      history := history + [Saved(epoch, task, success)];
      assert history[..|history| - 1] == old(history);
    }

    /** The counters agree with the history, and so does the disk. */
    ghost predicate Counted(completed: nat, processed: nat, successes: nat)
      reads this
    {
      && OnSchedule(history, tasks) && Matches(disk, history, tasks)
      && completed == processed == |history| && successes == Successes(history)
    }

    /** One task, ending as it does. */
    method RunTask(
      epoch: nat, task: nat, completed: nat, processed: nat, successes: nat, success: bool, ghost before: seq<bool>,
      ghost succeeds: seq<bool>, ghost next: nat)
      returns (completed': nat, processed': nat, successes': nat)
      requires Counted(completed, processed, successes) && task < tasks && Place(epoch, task, tasks) == |history|
      requires next < |succeeds| && |history| == |before| + next && Ended(history, before + succeeds) && success == succeeds[next]
      modifies this`disk, this`history
      ensures Counted(completed', processed', successes') && Ended(history, before + succeeds)
      ensures old(history) <= history && |history| == |old(history)| + 1
    {
      EndedNext(history, before, succeeds, next, Saved(epoch, task, success));
      successes' := if success then successes + 1 else successes;
      processed', completed' := processed + 1, completed + 1;
      SaveProgress(epoch, task, completed', processed', successes', success);
    }

    /** The tasks of an epoch from `first` on, up to a crash when the listed endings are used up. */
    method RunEpoch(
      epoch: nat, first: nat, completed: nat, processed: nat, successes: nat, succeeds: seq<bool>, next: nat,
      ghost before: seq<bool>)
      returns (crashed: bool, completed': nat, processed': nat, successes': nat, next': nat)
      requires Counted(completed, processed, successes) && first <= tasks && Place(epoch, first, tasks) == |history|
      requires next <= |succeeds| && |history| == |before| + next && Ended(history, before + succeeds)
      modifies this`disk, this`history
      ensures Counted(completed', processed', successes') && old(history) <= history
      ensures next' <= |succeeds| && |history| == |before| + next' && Ended(history, before + succeeds)
      ensures if crashed then next' == |succeeds| && |history| < Place(epoch, tasks, tasks)
              else |history| == Place(epoch, tasks, tasks)
    {
      completed', processed', successes', next' := completed, processed, successes, next;
      PlaceInEpoch(epoch, tasks, tasks);
      for task := first to tasks
        invariant Counted(completed', processed', successes') && old(history) <= history
        invariant Place(epoch, task, tasks) == |history|
        invariant next' <= |succeeds| && |history| == |before| + next' && Ended(history, before + succeeds)
      {
        PlaceInEpoch(epoch, task, tasks);
        PlaceInEpoch(epoch, task + 1, tasks);
        if next' == |succeeds| {
          return true, completed', processed', successes', next';
        }
        completed', processed', successes' :=
          RunTask(epoch, task, completed', processed', successes', succeeds[next'], before, succeeds, next');
        next' := next' + 1;
      }
      crashed := false;
    }

    /**
     A session, fresh or resumed. It crashes after as many tasks as `succeeds`
     lists, unless the run is finished before; each task is saved with the ending
     it had.
     */
    method Train(resume: bool, succeeds: seq<bool>) returns (outcome: Outcome)
      requires Valid() && (!resume ==> history == [])
      modifies this`disk, this`history
      ensures Valid() && old(history) <= history
      ensures outcome.NothingToResume? <==> resume && old(disk).None?
      ensures outcome.NothingToResume? ==> history == old(history)
      ensures Ended(history, old(Endings(history)) + succeeds)
      ensures outcome.Crashed? ==>
        |history| == |old(history)| + |succeeds| && |history| < Place(numEpochs, 0, tasks)
      ensures outcome.Finished? ==>
        && |history| <= |old(history)| + |succeeds|
        && |history| == Place(numEpochs, 0, tasks) == outcome.total && outcome.success == Successes(history)
    {
      if resume && disk.None? {
        return NothingToResume;
      }
      var start := if resume then disk.value else RunState(0, 0, 0, 0, 0);
      var completed, processed, successes := start.completed, start.processed, start.successes;
      ghost var before := Endings(history);
      var next, first: nat := 0, start.nextTask;
      if start.nextEpoch >= numEpochs {
        PlaceInEpoch(start.nextEpoch, start.nextTask, tasks);
        PlaceGrows(numEpochs, start.nextEpoch, tasks);
      }
      var epoch: nat := start.nextEpoch;
      while epoch < numEpochs
        invariant Counted(completed, processed, successes) && |history| <= Place(numEpochs, 0, tasks)
        invariant first <= tasks && Place(epoch, first, tasks) == |history|
        invariant epoch >= numEpochs ==> |history| == Place(numEpochs, 0, tasks)
        invariant old(history) <= history
        invariant 0 <= next <= |succeeds| && |history| == |before| + next && Ended(history, before + succeeds)
      {
        PlaceOfNextEpoch(epoch, tasks);
        PlaceGrows(epoch + 1, numEpochs, tasks);
        var crashed;
        crashed, completed, processed, successes, next :=
          RunEpoch(epoch, first, completed, processed, successes, succeeds, next, before);
        if crashed {
          return Crashed;
        }
        epoch, first := epoch + 1, 0;
      }
      return Finished(processed, successes);
    }

    /**
     One session after another, each resuming what the one before it saved, each
     crashing after as many tasks as it lists. However often that happens, the
     history is the start of the schedule, and a finished run has all of it.
     */
    method TrainThroughCrashes(sessions: seq<seq<bool>>) returns (finished: bool)
      requires Valid()
      modifies this`disk, this`history
      ensures Valid() && old(history) <= history
      ensures finished ==> |history| == Place(numEpochs, 0, tasks)
    {
      finished := false;
      for i := 0 to |sessions|
        invariant Valid() && old(history) <= history
        invariant !finished
      {
        var outcome := Train(disk.Some?, sessions[i]);
        if outcome.Finished? {
          return true;
        }
      }
    }
  }
}
