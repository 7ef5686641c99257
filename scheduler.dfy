/** The scheduler of tasks/scheduler.go, one trigger at a time: `Start` either
    runs the task at once or arms a trigger; each trigger draws a random delay
    and either runs the task or is cancelled by `Stop`. The cron library, the
    watcher goroutine and the timers are reduced to the steps below. */
module Scheduler {
  import opened Wrappers
  import Effects
  import Tasks
  import Sources
  import Stores

  /** The task a scheduler was built for. */
  datatype Job =
    | BackupJob(source: Sources.Source, store: Stores.Backend)
    | RestoreJob(source: Sources.Source, store: Stores.Backend)

  /** The `quit` channel: nil until a scheduled start, then open with room for
      one value, closed once the watcher has taken a value from it. */
  datatype Quit = Nil | Open(pending: bool) | Closed

  datatype Mode = Idle | Direct | Scheduled

  /** What one trigger did. */
  datatype Trigger = RanAtOnce | Cancelled | RanAfter(seconds: nat)

  /** A schedule that means "run once, now". */
  predicate Immediate(schedule: string)
  {
    schedule == "" || schedule == "none"
  }

  /** The bound of the random draw: a delay of zero or less counts as one. */
  function EffectiveDelay(delay: int): (bound: nat)
    ensures bound >= 1
    ensures delay > 0 ==> bound == delay
    ensures delay <= 0 ==> bound == 1
  {
    if delay <= 0 then 1 else delay
  }

  /** The decision of one trigger that drew `seconds`: a zero draw runs the
      task without waiting; otherwise a value waiting in `quit`, or a closed
      `quit`, cancels it, and the task runs once the delay has passed. The
      closed case is a trigger already waiting when the watcher closes `quit`:
      `Fire` itself runs only while the cron runner does, before that close. */
  function Decide(seconds: nat, quit: Quit): (t: Trigger)
    ensures t.Cancelled? <==> seconds > 0 && (quit.Closed? || quit == Open(true))
    ensures t.RanAfter? ==> t.seconds == seconds
  {
    if seconds == 0 then RanAtOnce
    else if quit.Closed? || quit == Open(true) then Cancelled
    else RanAfter(seconds)
  }

  /** The `quit` channel after a trigger: a cancelling trigger takes the
      waiting value. */
  function QuitAfter(seconds: nat, quit: Quit): (q: Quit)
    ensures q == Open(false) <==> quit == Open(false) || (seconds > 0 && quit == Open(true))
    ensures !(seconds > 0 && quit == Open(true)) ==> q == quit
  {
    if seconds > 0 && quit == Open(true) then Open(false) else quit
  }

  /** The calls of a completed run of the job. */
  predicate JobTrace(job: Job, c: Tasks.Config, calls: seq<Tasks.Call>)
  {
    match job
    case BackupJob(_, _) => Tasks.BackupTrace(calls, c.maxBackups)
    case RestoreJob(_, _) => Tasks.RestoreTrace(calls, c.restoreFile)
  }

  class Scheduler {
    const cfg: Tasks.Config
    const job: Job
    const schedule: string
    var mode: Mode
    var quit: Quit
    /** Whether the cron runner is firing triggers. */
    var cronRunning: bool
    /** How many times the task has run. */
    var runs: nat

    /** `NewScheduler`: the schedule is copied from the configuration now. */
    constructor(c: Tasks.Config, job: Job)
      ensures cfg == c && this.job == job && schedule == c.schedule
      ensures mode == Idle && quit == Nil && !cronRunning && runs == 0
    {
      cfg := c;
      this.job := job;
      schedule := c.schedule;
      mode := Idle;
      quit := Nil;
      cronRunning := false;
      runs := 0;
    }

    /** Run the task once; its error is returned to the caller. */
    method RunJob(w: Effects.World) returns (err: Option<Error>, calls: seq<Tasks.Call>)
      modifies Stores.Objects(job.store)
      ensures JobTrace(job, cfg, calls)
      ensures err == Tasks.LastStageError(calls)
    {
      var acts;
      match job
      case BackupJob(source, store) =>
        err, calls, acts := Tasks.BackupTask(cfg, source, store, w);
      case RestoreJob(source, store) =>
        err, calls, acts := Tasks.RestoreTask(cfg, source, store, w);
    }

    /** `Start`: an immediate schedule runs the task and returns its result
        without creating `quit`; any other schedule creates `quit`, arms the
        trigger and returns nil without running the task. */
    method Start(w: Effects.World) returns (r: Option<Error>, calls: seq<Tasks.Call>)
      requires mode == Idle
      modifies this, Stores.Objects(job.store)
      ensures Immediate(schedule) ==>
        mode == Direct && quit == old(quit) && cronRunning == old(cronRunning)
        && runs == old(runs) + 1 && JobTrace(job, cfg, calls) && r == Tasks.LastStageError(calls)
      ensures !Immediate(schedule) ==>
        mode == Scheduled && quit == Open(false) && cronRunning
        && runs == old(runs) && r.None? && calls == []
    {
      if schedule == "" || schedule == "none" {
        mode := Direct;
        r, calls := RunJob(w);
        runs := runs + 1;
        return;
      }
      mode := Scheduled;
      quit := Open(false);
      cronRunning := true;
      r, calls := None, [];
    }

    /** One trigger whose random draw was `seconds`; errors of the task are
        only logged, so none is returned. */
    method Fire(seconds: nat, w: Effects.World) returns (t: Trigger, calls: seq<Tasks.Call>)
      requires mode == Scheduled && cronRunning
      requires seconds < EffectiveDelay(cfg.randomDelay)
      modifies this, Stores.Objects(job.store)
      ensures t == Decide(seconds, old(quit))
      ensures quit == QuitAfter(seconds, old(quit))
      ensures runs == old(runs) + (if t.Cancelled? then 0 else 1)
      ensures t.Cancelled? ==> calls == []
      ensures !t.Cancelled? ==> JobTrace(job, cfg, calls)
      ensures mode == old(mode) && cronRunning == old(cronRunning)
    {
      var delay := cfg.randomDelay;
      if delay <= 0 {
        delay := 1;
      }
      assert seconds < delay;
      var err;
      if seconds == 0 {
        err, calls := RunJob(w);
        runs := runs + 1;
        return RanAtOnce, calls;
      }
      if quit.Closed? || quit == Open(true) {
        if quit == Open(true) {
          quit := Open(false);
        }
        return Cancelled, [];
      }
      err, calls := RunJob(w);
      runs := runs + 1;
      t := RanAfter(seconds);
    }

    /** `Stop`: send one value on `quit`. The send completes on an open channel
        with room for it, and panics on a closed channel (once the watcher has
        taken a value). Before a scheduled `Start` the channel is nil and the
        send blocks forever. With a value already waiting, the send waits until
        the watcher takes that value and then completes; this interleaving is
        not a single step here, so that case is excluded. */
    method Stop() returns (panicked: bool)
      requires mode == Scheduled && (quit == Open(false) || quit.Closed?)
      modifies this
      ensures panicked <==> old(quit).Closed?
      ensures quit == (if panicked then old(quit) else Open(true))
      ensures mode == old(mode) && cronRunning == old(cronRunning) && runs == old(runs)
    {
      if quit.Closed? {
        return true;
      }
      quit := Open(true);
      return false;
    }

    /** The watcher goroutine: once it takes the value from `quit` it closes
        the channel and stops the cron runner. */
    method Watch()
      requires quit == Open(true)
      modifies this
      ensures quit == Closed && !cronRunning
      ensures mode == old(mode) && runs == old(runs)
    {
      quit := Closed;
      cronRunning := false;
    }
  }

  /** `ScheduleBackup`: a scheduler, not yet started, for the backup task. */
  method ScheduleBackup(c: Tasks.Config, source: Sources.Source, store: Stores.Backend) returns (s: Scheduler)
    ensures fresh(s) && s.job == BackupJob(source, store) && s.cfg == c && s.schedule == c.schedule
    ensures s.mode == Idle && s.quit == Nil && !s.cronRunning && s.runs == 0
  {
    s := new Scheduler(c, BackupJob(source, store));
  }

  /** `ScheduleRestore`: a scheduler, not yet started, for the restore task. */
  method ScheduleRestore(c: Tasks.Config, source: Sources.Source, store: Stores.Backend) returns (s: Scheduler)
    ensures fresh(s) && s.job == RestoreJob(source, store) && s.cfg == c && s.schedule == c.schedule
    ensures s.mode == Idle && s.quit == Nil && !s.cronRunning && s.runs == 0
  {
    s := new Scheduler(c, RestoreJob(source, store));
  }

  /** A delay of zero or less is coerced to one, so every draw is zero: every
      trigger runs the task at once, none is cancelled, and a pending `Stop`
      stays in `quit` for the watcher. */
  lemma NonPositiveDelayRunsAtOnce(delay: int, seconds: nat, quit: Quit)
    requires delay <= 0 && seconds < EffectiveDelay(delay)
    ensures seconds == 0
    ensures Decide(seconds, quit) == RanAtOnce && QuitAfter(seconds, quit) == quit
  {
  }

  /** With the default configuration every draw is zero, so every trigger runs
      the task at once and none can be cancelled. */
  lemma DefaultsRunAtOnce(seconds: nat, quit: Quit)
    requires seconds < EffectiveDelay(Tasks.Defaults.randomDelay)
    ensures Decide(seconds, quit) == RanAtOnce
  {
  }

  /** A `Stop` taken by a trigger that is waiting out its delay cancels that
      trigger only: the value is gone, so the watcher keeps waiting and the
      cron runner keeps firing. */
  lemma StopTakenByWaitingTrigger(seconds: nat)
    requires seconds > 0
    ensures Decide(seconds, Open(true)) == Cancelled
    ensures QuitAfter(seconds, Open(true)) == Open(false)
  {
  }
}
