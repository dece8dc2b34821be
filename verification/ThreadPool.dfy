/** The class itself: every method is one critical section, or a loop of them between which the
    other threads run; the trace records every step. */
module ThreadPool {
  import opened Wrappers
  import opened ThreadPoolSteps
  import opened ThreadPoolTheorems

  class ThreadPool {
    const threadNum: nat
    const waiterNum: nat

    var idleNum: int
    var stopped: bool
    var jobs: seq<Job>

    // where the threads are, and the history
    var workers: seq<Worker>
    var waiters: seq<Waiter>
    var pushed: nat
    var taken: seq<Job>
    var finished: set<Job>

    ghost var trace: seq<Action>

    function St(): State
      reads this
    {
      State(jobs, idleNum, stopped, workers, waiters, pushed, taken, finished)
    }

    ghost predicate Valid()
      reads this
    {
      Runs(threadNum, waiterNum, trace, St())
    }

    twostate predicate Did(a: Action)
      reads this
    {
      && Enabled(old(St()), a) && St() == Apply(old(St()), a)
      && trace == old(trace) + [a]
    }

    constructor (threads: nat, callers: nat)
      ensures Valid() && threadNum == threads && waiterNum == callers && St() == Init(threads, callers)
    {
      threadNum, waiterNum := threads, callers;
      idleNum, stopped, jobs := threads, false, [];
      workers, waiters := seq(threads, i => AtCheck), seq(callers, i => Outside);
      pushed, taken, finished, trace := 0, [], {}, [];
    }

    lemma Extends(s: State, a: Action)
      requires Runs(threadNum, waiterNum, trace, s) && Enabled(s, a)
      ensures Runs(threadNum, waiterNum, trace + [a], Apply(s, a))
    {
      ExecStep(Init(threadNum, waiterNum), trace, a);
    }

    // notify_one on new_job_cv_: some sleeper, if there is one.
    method NotifyWorker() returns (wake: Option<nat>)
      ensures WakesWorker(workers, wake)
    {
      if w :| 0 <= w < |workers| && workers[w].Sleeping? {
        wake := Some(w);
      } else {
        wake := None;
      }
    }

    // notify_one on job_completion_cv_.
    method NotifyWaiter() returns (wake: Option<nat>)
      ensures WakesWaiter(waiters, wake)
    {
      if t :| 0 <= t < |waiters| && waiters[t].Asleep? {
        wake := Some(t);
      } else {
        wake := None;
      }
    }

    // Appends the job and wakes one sleeper; the job's number is its place in push order.
    method Push() returns (job: Job)
      requires Valid()
      modifies this
      ensures Valid() && exists wake :: Did(Action.Push(wake))
      ensures job == old(pushed) && jobs == old(jobs) + [job]
    {
      var wake := NotifyWorker();
      Extends(St(), Action.Push(wake));
      job := pushed;
      jobs := jobs + [job];
      pushed := pushed + 1;
      workers := Wake(workers, wake);
      trace := trace + [Action.Push(wake)];
      assert Did(Action.Push(wake));
    }

    // A worker's first critical section: take a job, sleep, or return.
    method WorkerCheck(w: nat) returns (job: Option<Job>)
      requires Valid() && w < |workers| && workers[w].AtCheck?
      modifies this
      ensures Valid() && Did(Check(w))
      ensures job == if old(stopped) || old(jobs) == [] then None else Some(old(jobs)[0])
    {
      ghost var s := St();
      Extends(s, Check(w));
      trace := trace + [Check(w)];
      if stopped {
        workers := workers[w := Exited];
        return None;
      } else if jobs == [] {
        workers := workers[w := Sleeping];
        return None;
      } else {
        job := Some(jobs[0]);
        jobs := jobs[1..];
        taken := taken + [job.value];
        workers := workers[w := Running(job.value)];
        idleNum := idleNum - 1;
        return;
      }
    }

    // The job itself, outside the lock.
    method WorkerExecute(w: nat)
      requires Valid() && w < |workers| && workers[w].Running?
      modifies this
      ensures Valid() && Did(Execute(w))
    {
      Extends(St(), Execute(w));
      finished := finished + {workers[w].job};
      workers := workers[w := Completed(workers[w].job)];
      trace := trace + [Execute(w)];
    }

    // A worker's second critical section.
    method WorkerRestore(w: nat)
      requires Valid() && w < |workers| && workers[w].Completed?
      modifies this
      ensures Valid() && exists wake :: Did(Restore(w, wake))
    {
      var wake := NotifyWaiter();
      Extends(St(), Restore(w, wake));
      workers := workers[w := AtCheck];
      idleNum := idleNum + 1;
      waiters := WakeWaiter(waiters, wake);
      trace := trace + [Restore(w, wake)];
      assert Did(Restore(w, wake));
    }

    // Any one step.
    method OneStep(a: Action)
      requires Valid() && Enabled(St(), a)
      modifies this
      ensures Valid() && Did(a)
    {
      Extends(St(), a);
      var s := Apply(St(), a);
      jobs, idleNum, stopped, workers, waiters := s.jobs, s.idle, s.stopped, s.workers, s.waiters;
      pushed, taken, finished := s.pushed, s.taken, s.finished;
      trace := trace + [a];
    }

    // Everybody but caller t of Wait runs for a while.
    method OthersRun(t: nat)
      requires Valid() && t < |waiters| && !waiters[t].Outside?
      modifies this
      ensures Valid() && t < |waiters| && !waiters[t].Outside?
      ensures old(pushed) <= pushed
    {
      var steps: int := *;
      while steps > 0
        invariant Valid() && t < |waiters| && !waiters[t].Outside? && old(pushed) <= pushed
      {
        var a: Action := *;
        if Enabled(St(), a) && !(a.CheckWait? && a.t == t) {
          WaiterKept(St(), a, t);
          OneStep(a);
        }
        steps := steps - 1;
      }
    }

    lemma AllFinished()
      requires Valid() && Quiet(St()) && !stopped
      ensures forall j :: 0 <= j < pushed ==> j in finished
    {
      RunInv(threadNum, waiterNum, trace, St());
      assert |Busy(workers)| == 0;
      forall w | 0 <= w < |workers| ensures !workers[w].Running? { assert w !in Busy(workers); }
      assert forall j :: !IsRunning(workers, j);
    }

    /** Blocks until the pool is stopped or every job has finished: in the second case that is
        every job pushed before the return, from whatever thread. When the caller's patience runs
        out first, it is still in Wait. */
    method Wait(t: nat, patience: nat) returns (returned: bool)
      requires Valid() && t < |waiters| && waiters[t].Outside?
      modifies this
      ensures Valid()
      ensures t < |waiters| && (returned <==> waiters[t].Outside?)
      ensures returned ==> stopped || forall j :: 0 <= j < pushed ==> j in finished
      ensures old(pushed) <= pushed
    {
      OneStep(EnterWait(t));
      for i := 0 to patience
        invariant Valid() && t < |waiters| && !waiters[t].Outside? && old(pushed) <= pushed
      {
        OthersRun(t);
        if waiters[t].Checking? {
          var quiet := Quiet(St());
          OneStep(CheckWait(t));
          if quiet {
            if !stopped {
              AllFinished();
            }
            return true;
          }
        }
      }
      returned := false;
    }

    // A stopped pool's other threads run for a while.
    method OthersRunStopped()
      requires Valid() && stopped
      modifies this
      ensures Valid() && stopped && taken == old(taken) && Remaining(St()) <= old(Remaining(St()))
    {
      var steps: int := *;
      while steps > 0
        invariant Valid() && stopped && taken == old(taken) && Remaining(St()) <= old(Remaining(St()))
      {
        var a: Action := *;
        if Enabled(St(), a) {
          RunInv(threadNum, waiterNum, trace, St());
          ShutdownProgress(St(), a);
          OneStep(a);
        }
        steps := steps - 1;
      }
    }

    // A worker of a stopped pool takes its next step.
    method WorkerProceeds(w: nat)
      requires Valid() && stopped && w < |workers| && workers[w] != Exited
      modifies this
      ensures Valid() && stopped && taken == old(taken) && Remaining(St()) < old(Remaining(St()))
    {
      RunInv(threadNum, waiterNum, trace, St());
      WorkersCanExit(St(), w);
      var a := if workers[w].AtCheck? then Check(w) else Execute(w);
      if workers[w].Completed? {
        var wake := NotifyWaiter();
        a := Restore(w, wake);
      }
      ShutdownProgress(St(), a);
      OneStep(a);
    }

    /** The destructor: after the stop no queued job starts, every worker returns, and the joins
        terminate. */
    method Destroy()
      requires Valid() && !stopped
      modifies this
      ensures Valid() && stopped && taken == old(taken)
      ensures forall w :: 0 <= w < |workers| ==> workers[w] == Exited
    {
      OneStep(Stop);
      while exists w :: 0 <= w < |workers| && workers[w] != Exited
        invariant Valid() && stopped && taken == old(taken)
        decreases Remaining(St())
      {
        OthersRunStopped();
        if w :| 0 <= w < |workers| && workers[w] != Exited {
          WorkerProceeds(w);
        } else {
          break;
        }
      }
    }
  }

  lemma WaiterKept(s: State, a: Action, t: nat)
    requires Enabled(s, a) && t < |s.waiters| && !s.waiters[t].Outside? && a != CheckWait(t)
    ensures t < |Apply(s, a).waiters| && !Apply(s, a).waiters[t].Outside? && s.pushed <= Apply(s, a).pushed
  {
    if a.Check? {
      if s.stopped { return; } else if s.jobs == [] { return; } else { return; }
    }
  }
}
