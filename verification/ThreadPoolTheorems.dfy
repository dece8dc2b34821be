/** What ThreadPool promises, for every run of any number of workers, pushers and waiters. */
module ThreadPoolTheorems {
  import opened Wrappers
  import opened Sums
  import opened ThreadPoolSteps

  // ---------- The invariant ----------

  function Ready(workers: seq<Worker>): set<nat> {
    set w {:trigger workers[w]} | 0 <= w < |workers| && workers[w].AtCheck?
  }

  predicate AnySleeping(workers: seq<Worker>) {
    exists w :: 0 <= w < |workers| && workers[w].Sleeping?
  }

  // idle_num_ and the workers between pop and re-increment make up all workers.
  predicate IdleCount(idle: int, workers: seq<Worker>) {
    idle + |Busy(workers)| == |workers|
  }

  // Jobs are taken in the order of the pushes.
  predicate InOrder(jobs: seq<Job>, taken: seq<Job>, pushed: nat) {
    && |taken| + |jobs| == pushed
    && (forall i :: 0 <= i < |taken| ==> taken[i] == i)
    && (forall i :: 0 <= i < |jobs| ==> jobs[i] == |taken| + i)
  }

  predicate IsRunning(workers: seq<Worker>, j: Job) {
    exists w :: 0 <= w < |workers| && workers[w] == Running(j)
  }

  // Each taken job is being executed by one worker, or finished.
  ghost predicate Accounted(workers: seq<Worker>, taken: nat, finished: set<Job>) {
    && (forall j :: j in finished ==> j < taken)
    && (forall w {:trigger workers[w]} :: 0 <= w < |workers| ==>
          && (workers[w].Running? ==> workers[w].job < taken && workers[w].job !in finished)
          && (workers[w].Completed? ==> workers[w].job in finished))
    && (forall v, w :: 0 <= v < w < |workers| && workers[v].Running? && workers[w].Running? ==>
          workers[v].job != workers[w].job)
    && (forall j :: 0 <= j < taken && j !in finished ==> IsRunning(workers, j))
  }

  // A job never waits beside a sleeper without an awake worker heading for it.
  predicate Conserving(stopped: bool, jobs: seq<Job>, workers: seq<Worker>) {
    !stopped && AnySleeping(workers) ==> |jobs| <= |Ready(workers)|
  }

  ghost predicate OnlyWaiter(s: State) {
    |s.waiters| <= 1 && !s.stopped ==>
      forall t :: 0 <= t < |s.waiters| && s.waiters[t].Asleep? ==> !Quiet(s)
  }

  ghost predicate Inv(s: State) {
    && IdleCount(s.idle, s.workers)
    && InOrder(s.jobs, s.taken, s.pushed)
    && Accounted(s.workers, |s.taken|, s.finished)
    && Conserving(s.stopped, s.jobs, s.workers)
    && (s.stopped ==> !AnySleeping(s.workers))
    && OnlyWaiter(s)
  }

  lemma BusyUpdate(workers: seq<Worker>, w: nat, next: Worker)
    requires w < |workers|
    ensures Busy(workers[w := next])
            == if next.Running? || next.Completed? then Busy(workers) + {w} else Busy(workers) - {w}
    ensures Ready(workers[w := next]) == if next.AtCheck? then Ready(workers) + {w} else Ready(workers) - {w}
  {
  }

  // A worker without a job changes its place.
  lemma AccountedMove(workers: seq<Worker>, w: nat, next: Worker, taken: nat, finished: set<Job>)
    requires Accounted(workers, taken, finished) && w < |workers|
    requires !workers[w].Running? && !next.Running? && !next.Completed?
    ensures Accounted(workers[w := next], taken, finished)
  {
    forall j | IsRunning(workers, j) ensures IsRunning(workers[w := next], j) {
      var v :| 0 <= v < |workers| && workers[v] == Running(j);
      assert workers[w := next][v] == Running(j);
    }
  }

  lemma AccountedTake(workers: seq<Worker>, w: nat, taken: nat, finished: set<Job>)
    requires Accounted(workers, taken, finished) && w < |workers| && !workers[w].Running?
    ensures Accounted(workers[w := Running(taken)], taken + 1, finished)
  {
    var later := workers[w := Running(taken)];
    forall j | 0 <= j < taken + 1 && j !in finished ensures IsRunning(later, j) {
      if j == taken {
        assert later[w] == Running(j);
      } else {
        var v :| 0 <= v < |workers| && workers[v] == Running(j);
        assert later[v] == Running(j);
      }
    }
  }

  lemma AccountedExecute(workers: seq<Worker>, w: nat, taken: nat, finished: set<Job>)
    requires Accounted(workers, taken, finished) && w < |workers| && workers[w].Running?
    ensures var j := workers[w].job; Accounted(workers[w := Completed(j)], taken, finished + {j})
  {
    var later := workers[w := Completed(workers[w].job)];
    forall j | 0 <= j < taken && j !in finished && j != workers[w].job ensures IsRunning(later, j) {
      var v :| 0 <= v < |workers| && workers[v] == Running(j);
      assert later[v] == Running(j);
    }
  }

  lemma AccountedStop(workers: seq<Worker>, taken: nat, finished: set<Job>)
    requires Accounted(workers, taken, finished)
    ensures Accounted(WakeAll(workers), taken, finished)
    ensures Busy(WakeAll(workers)) == Busy(workers) && !AnySleeping(WakeAll(workers))
  {
    forall j | IsRunning(workers, j) ensures IsRunning(WakeAll(workers), j) {
      var v :| 0 <= v < |workers| && workers[v] == Running(j);
      assert WakeAll(workers)[v] == Running(j);
    }
  }

  lemma ConservingPush(s: State, wake: Option<nat>)
    requires Conserving(s.stopped, s.jobs, s.workers) && WakesWorker(s.workers, wake)
    ensures Conserving(s.stopped, s.jobs + [s.pushed], Wake(s.workers, wake))
  {
    if wake.Some? { BusyUpdate(s.workers, wake.value, AtCheck); }
  }

  lemma PushInOrder(jobs: seq<Job>, taken: seq<Job>, pushed: nat)
    requires InOrder(jobs, taken, pushed)
    ensures InOrder(jobs + [pushed], taken, pushed + 1)
  {
  }

  lemma WokenWorker(s: State, w: nat)
    requires IdleCount(s.idle, s.workers) && w < |s.workers| && s.workers[w].Sleeping?
    ensures IdleCount(s.idle, s.workers[w := AtCheck]) && AnySleeping(s.workers)
  {
    BusyUpdate(s.workers, w, AtCheck);
    assert w !in Busy(s.workers);
  }

  lemma KeepPush(s: State, wake: Option<nat>)
    requires Inv(s) && Enabled(s, Push(wake))
    ensures Inv(Apply(s, Push(wake)))
  {
    hide IdleCount, InOrder, Accounted, Conserving, AnySleeping;
    ConservingPush(s, wake);
    PushInOrder(s.jobs, s.taken, s.pushed);
    if wake.Some? {
      WokenWorker(s, wake.value);
      AccountedMove(s.workers, wake.value, AtCheck, |s.taken|, s.finished);
      return;
    } else {
      return;
    }
  }

  lemma CheckConserving(s: State, w: nat)
    requires Conserving(s.stopped, s.jobs, s.workers) && w < |s.workers| && s.workers[w].AtCheck?
    ensures Conserving(DoCheck(s, w).stopped, DoCheck(s, w).jobs, DoCheck(s, w).workers)
    ensures s.stopped && !AnySleeping(s.workers) ==> !AnySleeping(DoCheck(s, w).workers)
  {
    BusyUpdate(s.workers, w, DoCheck(s, w).workers[w]);
    if s.stopped { return; } else if s.jobs == [] { return; } else { return; }
  }

  lemma KeepExit(s: State, w: nat)
    requires Inv(s) && w < |s.workers| && s.workers[w].AtCheck? && s.stopped
    ensures Inv(DoCheck(s, w))
  {
    CheckConserving(s, w);
    BusyUpdate(s.workers, w, Exited);
    AccountedMove(s.workers, w, Exited, |s.taken|, s.finished);
    hide Accounted, Conserving, AnySleeping;
  }

  lemma KeepSleep(s: State, w: nat)
    requires Inv(s) && w < |s.workers| && s.workers[w].AtCheck? && !s.stopped && s.jobs == []
    ensures Inv(DoCheck(s, w))
  {
    CheckConserving(s, w);
    BusyUpdate(s.workers, w, Sleeping);
    AccountedMove(s.workers, w, Sleeping, |s.taken|, s.finished);
    hide Accounted, Conserving, AnySleeping;
  }

  lemma TakeInOrder(jobs: seq<Job>, taken: seq<Job>, pushed: nat)
    requires InOrder(jobs, taken, pushed) && jobs != []
    ensures jobs[0] == |taken| && InOrder(jobs[1..], taken + [jobs[0]], pushed)
  {
  }

  lemma TakeIdleCount(idle: int, workers: seq<Worker>, w: nat, j: Job)
    requires IdleCount(idle, workers) && w < |workers| && workers[w].AtCheck?
    ensures IdleCount(idle - 1, workers[w := Running(j)]) && idle <= |workers|
  {
    BusyUpdate(workers, w, Running(j));
    assert w !in Busy(workers);
  }

  lemma KeepTake(s: State, w: nat)
    requires Inv(s) && w < |s.workers| && s.workers[w].AtCheck? && !s.stopped && s.jobs != []
    ensures Inv(DoCheck(s, w))
  {
    hide IdleCount, InOrder, Accounted, Conserving, AnySleeping;
    CheckConserving(s, w);
    TakeInOrder(s.jobs, s.taken, s.pushed);
    TakeIdleCount(s.idle, s.workers, w, s.jobs[0]);
    AccountedTake(s.workers, w, |s.taken|, s.finished);
  }

  lemma SpuriousConserving(s: State, w: nat)
    requires Conserving(s.stopped, s.jobs, s.workers) && w < |s.workers| && s.workers[w].Sleeping?
    ensures Conserving(s.stopped, s.jobs, s.workers[w := AtCheck]) && AnySleeping(s.workers)
  {
    BusyUpdate(s.workers, w, AtCheck);
    assert w !in Ready(s.workers);
  }

  lemma KeepSpuriousWorker(s: State, w: nat)
    requires Inv(s) && Enabled(s, SpuriousWorker(w))
    ensures Inv(Apply(s, SpuriousWorker(w)))
  {
    hide IdleCount, InOrder, Accounted, Conserving, AnySleeping;
    WokenWorker(s, w);
    SpuriousConserving(s, w);
    AccountedMove(s.workers, w, AtCheck, |s.taken|, s.finished);
  }

  lemma BusyStays(workers: seq<Worker>, w: nat, next: Worker)
    requires w < |workers| && HoldsJob(workers[w]) && HoldsJob(next)
    ensures Busy(workers[w := next]) == Busy(workers) && Ready(workers[w := next]) == Ready(workers)
    ensures AnySleeping(workers[w := next]) ==> AnySleeping(workers)
  {
    BusyUpdate(workers, w, next);
    var later := workers[w := next];
    if v :| 0 <= v < |later| && later[v].Sleeping? {
      assert workers[v].Sleeping?;
    }
  }

  lemma KeepExecute(s: State, w: nat)
    requires Inv(s) && Enabled(s, Execute(w))
    ensures Inv(Apply(s, Execute(w)))
  {
    hide InOrder, Accounted, AnySleeping, Busy, Ready;
    BusyStays(s.workers, w, Completed(s.workers[w].job));
    AccountedExecute(s.workers, w, |s.taken|, s.finished);
  }

  lemma KeepRestore(s: State, w: nat, wake: Option<nat>)
    requires Inv(s) && Enabled(s, Restore(w, wake))
    ensures Inv(Apply(s, Restore(w, wake)))
  {
    BusyUpdate(s.workers, w, AtCheck);
    AccountedMove(s.workers, w, AtCheck, |s.taken|, s.finished);
    hide Accounted;
    assert w in Busy(s.workers);
  }

  lemma KeepStop(s: State)
    requires Inv(s) && Enabled(s, Stop)
    ensures Inv(Apply(s, Stop))
  {
    AccountedStop(s.workers, |s.taken|, s.finished);
    hide Accounted;
  }

  lemma KeepInv(s: State, a: Action)
    requires Inv(s) && Enabled(s, a)
    ensures Inv(Apply(s, a))
  {
    match a
    case Push(wake) => KeepPush(s, wake);
    case Check(w) =>
      if s.stopped { KeepExit(s, w); } else if s.jobs == [] { KeepSleep(s, w); } else { KeepTake(s, w); }
    case SpuriousWorker(w) => KeepSpuriousWorker(s, w);
    case Execute(w) => KeepExecute(s, w);
    case Restore(w, wake) => KeepRestore(s, w, wake);
    case EnterWait(t) =>
    case CheckWait(t) =>
    case SpuriousWaiter(t) =>
    case Stop => KeepStop(s);
  }

  lemma InitInv(threadNum: nat, waiterNum: nat)
    ensures Inv(Init(threadNum, waiterNum))
  {
    assert Busy(Init(threadNum, waiterNum).workers) == {};
  }

  lemma {:induction false} RunInv(threadNum: nat, waiterNum: nat, acts: seq<Action>, s: State)
    requires Runs(threadNum, waiterNum, acts, s)
    ensures Inv(s)
  {
    if acts == [] {
      InitInv(threadNum, waiterNum);
    } else {
      var before := Exec(Init(threadNum, waiterNum), acts[..|acts| - 1]).value;
      RunInv(threadNum, waiterNum, acts[..|acts| - 1], before);
      KeepInv(before, acts[|acts| - 1]);
    }
  }

  // ---------- Theorems ----------

  /** Work-conserving: while the pool runs, a job is never left in the queue beside a sleeping
      worker unless an awake worker of its own is heading for it. */
  lemma WorkConserving(threadNum: nat, waiterNum: nat, acts: seq<Action>, s: State)
    requires Runs(threadNum, waiterNum, acts, s) && !s.stopped && AnySleeping(s.workers)
    ensures |s.jobs| <= |Ready(s.workers)|
  {
    RunInv(threadNum, waiterNum, acts, s);
  }

  /** Every job pushed is queued, being executed by exactly one worker, or finished; jobs are
      taken in push order; and idle_num_ plus the workers holding a job is the worker count. */
  lemma JobsAccounted(threadNum: nat, waiterNum: nat, acts: seq<Action>, s: State, j: Job)
    requires Runs(threadNum, waiterNum, acts, s) && j < s.pushed
    ensures (j in s.jobs) != (IsRunning(s.workers, j) || j in s.finished)
    ensures !(IsRunning(s.workers, j) && j in s.finished)
    ensures forall v, w :: 0 <= v < w < |s.workers| ==> s.workers[v] != Running(j) || s.workers[w] != Running(j)
    ensures s.taken == seq(|s.taken|, i => i) && s.jobs == seq(|s.jobs|, i => |s.taken| + i)
    ensures 0 <= s.idle && s.idle + |Busy(s.workers)| == |s.workers|
  {
    RunInv(threadNum, waiterNum, acts, s);
    BusyBound(s.workers, |s.workers|);
    if j >= |s.taken| {
      assert s.jobs[j - |s.taken|] == j;
    }
  }

  lemma BusyBound(workers: seq<Worker>, n: nat)
    requires n == |workers|
    ensures |Busy(workers)| <= n
  {
    IntervalSize(n);
    SubsetSize(Busy(workers), Interval(n));
  }

  /** The meaning of Wait: it returns from a pool that was not stopped exactly when every job
      pushed so far has finished and every worker has let go of its job. */
  lemma WaitMeansFinished(threadNum: nat, waiterNum: nat, acts: seq<Action>, s: State, t: nat)
    requires Runs(threadNum, waiterNum, acts, s) && Enabled(s, CheckWait(t)) && !s.stopped
    ensures Apply(s, CheckWait(t)).waiters[t].Outside?
            <==> (forall j :: 0 <= j < s.pushed ==> j in s.finished) && Busy(s.workers) == {}
  {
    RunInv(threadNum, waiterNum, acts, s);
    if s.jobs != [] {
      assert |s.taken| < s.pushed && |s.taken| !in s.finished;
    }
    assert |Busy(s.workers)| == 0 <==> Busy(s.workers) == {};
    if Busy(s.workers) == {} {
      forall w | 0 <= w < |s.workers| ensures !s.workers[w].Running? { assert w !in Busy(s.workers); }
      assert forall j :: !IsRunning(s.workers, j);
      assert forall j :: 0 <= j < |s.taken| ==> j in s.finished;
    }
  }

  /** With a single caller of Wait, no completion is missed while the pool runs: it never sleeps
      while its predicate holds. */
  lemma SingleWaiterNeverMisses(threadNum: nat, acts: seq<Action>, s: State)
    requires Runs(threadNum, 1, acts, s) && !s.stopped
    ensures |s.waiters| == 1 && (s.waiters[0].Asleep? ==> !Quiet(s))
  {
    RunInv(threadNum, 1, acts, s);
    WaiterCount(threadNum, 1, acts, s);
  }

  lemma {:induction false} WaiterCount(threadNum: nat, waiterNum: nat, acts: seq<Action>, s: State)
    requires Runs(threadNum, waiterNum, acts, s)
    ensures |s.waiters| == waiterNum && |s.workers| == threadNum
  {
    if acts == [] {
    } else {
      var before := Exec(Init(threadNum, waiterNum), acts[..|acts| - 1]).value;
      WaiterCount(threadNum, waiterNum, acts[..|acts| - 1], before);
      SameCounts(before, acts[|acts| - 1]);
    }
  }

  lemma SameCounts(s: State, a: Action)
    requires Enabled(s, a)
    ensures |Apply(s, a).waiters| == |s.waiters| && |Apply(s, a).workers| == |s.workers|
  {
    hide DoCheck;
  }

  predicate AnyAsleep(waiters: seq<Waiter>) {
    exists t :: 0 <= t < |waiters| && waiters[t].Asleep?
  }

  /** With several callers it may be missed, and exactly so: the step that completes the work
      leaves a waiter asleep just when two of them were asleep. */
  lemma MissedExactlyByTwo(s: State, w: nat, wake: Option<nat>)
    requires Enabled(s, Restore(w, wake)) && Quiet(Apply(s, Restore(w, wake)))
    ensures AnyAsleep(Apply(s, Restore(w, wake)).waiters)
            <==> exists t, u :: 0 <= t < u < |s.waiters| && s.waiters[t].Asleep? && s.waiters[u].Asleep?
  {
    var later := Apply(s, Restore(w, wake)).waiters;
    if AnyAsleep(later) {
      var t :| 0 <= t < |later| && later[t].Asleep?;
      assert s.waiters[t].Asleep? && wake.Some? && wake.value != t;
      if t < wake.value { assert s.waiters[wake.value].Asleep?; } else { assert s.waiters[wake.value].Asleep?; }
    }
    if t, u :| 0 <= t < u < |s.waiters| && s.waiters[t].Asleep? && s.waiters[u].Asleep? {
      assert wake.Some?;
      assert later[t].Asleep? || later[u].Asleep?;
    }
  }

  // No other step of a running pool makes Wait's predicate true.
  lemma QuietOnlyByRestore(s: State, a: Action)
    requires Inv(s) && Enabled(s, a) && !a.Restore? && !a.Stop? && !Quiet(s)
    ensures !Quiet(Apply(s, a))
  {
    if a.Check? {
      if s.jobs == [] { return; } else { BusyBound(s.workers, |s.workers|); return; }
    }
  }

  // ---------- Shutdown ----------

  // How many more steps of its own a worker can take once the pool is stopped.
  function Rank(w: Worker): nat {
    match w
    case Running(_) => 3
    case Completed(_) => 2
    case AtCheck => 1
    case Sleeping => 1
    case Exited => 0
  }

  function Ranks(workers: seq<Worker>): seq<nat> {
    seq(|workers|, w requires 0 <= w < |workers| => Rank(workers[w]))
  }

  function Remaining(s: State): nat {
    Sum(Ranks(s.workers))
  }

  predicate IsWorkerStep(a: Action) {
    a.Check? || a.Execute? || a.Restore?
  }

  lemma RanksUpdate(workers: seq<Worker>, w: nat, next: Worker)
    requires w < |workers|
    ensures Sum(Ranks(workers[w := next])) == Sum(Ranks(workers)) - Rank(workers[w]) + Rank(next)
  {
    assert Ranks(workers[w := next]) == Ranks(workers)[w := Rank(next)];
    SumUpdate(Ranks(workers), w, Rank(next));
  }

  /** After a stop no queued job starts, and every step of a worker brings the join nearer: at
      most three steps per worker remain, whatever pushers and waiters do. */
  lemma ShutdownProgress(s: State, a: Action)
    requires Inv(s) && s.stopped && Enabled(s, a)
    ensures var t := Apply(s, a);
            && t.stopped && t.taken == s.taken && |t.workers| == |s.workers|
            && (if IsWorkerStep(a) then Remaining(t) + 1 == Remaining(s) else t.workers == s.workers)
  {
    assert forall w :: 0 <= w < |s.workers| ==> !s.workers[w].Sleeping?;
    match a
    case Check(w) => RanksUpdate(s.workers, w, Exited);
    case Execute(w) => RanksUpdate(s.workers, w, Completed(s.workers[w].job));
    case Restore(w, wake) => RanksUpdate(s.workers, w, AtCheck);
    case _ =>
  }

  // Somebody to be notified, if anybody sleeps.
  ghost function SomeWaiter(waiters: seq<Waiter>): (wake: Option<nat>)
    ensures WakesWaiter(waiters, wake)
  {
    if t :| 0 <= t < |waiters| && waiters[t].Asleep? then Some(t) else None
  }

  /** A worker of a stopped pool that has not returned can always take a step, so the joins
      return. */
  lemma WorkersCanExit(s: State, w: nat)
    requires Inv(s) && s.stopped && w < |s.workers| && s.workers[w] != Exited
    ensures Enabled(s, Check(w)) || Enabled(s, Execute(w)) || Enabled(s, Restore(w, SomeWaiter(s.waiters)))
  {
    assert !s.workers[w].Sleeping?;
  }

  lemma RemainingBound(s: State)
    ensures Remaining(s) <= 3 * |s.workers|
  {
    SumBound(Ranks(s.workers), 3);
  }

  // No waiter wakes for no reason.
  predicate NoneSpurious(acts: seq<Action>) {
    forall i :: 0 <= i < |acts| ==> !acts[i].SpuriousWaiter?
  }

  function AsleepIn(waiters: seq<Waiter>): set<nat> {
    set t {:trigger waiters[t]} | 0 <= t < |waiters| && waiters[t].Asleep?
  }

  lemma AsleepUpdate(waiters: seq<Waiter>, t: nat, next: Waiter)
    requires t < |waiters|
    ensures AsleepIn(waiters[t := next]) == if next.Asleep? then AsleepIn(waiters) + {t} else AsleepIn(waiters) - {t}
  {
  }

  // The callers of Wait that no worker holding a job is left to notify.
  function Stranded(workers: seq<Worker>, waiters: seq<Waiter>): nat {
    var asleep, busy := |AsleepIn(waiters)|, |Busy(workers)|;
    if asleep <= busy then 0 else asleep - busy
  }

  lemma RestoreStranded(workers: seq<Worker>, waiters: seq<Waiter>, w: nat, wake: Option<nat>)
    requires w < |workers| && workers[w].Completed? && WakesWaiter(waiters, wake)
    ensures Stranded(workers[w := AtCheck], WakeWaiter(waiters, wake)) == Stranded(workers, waiters)
  {
    BusyUpdate(workers, w, AtCheck);
    assert w in Busy(workers);
    match wake
    case Some(t) =>
      AsleepUpdate(waiters, t, Checking);
      assert t in AsleepIn(waiters);
    case None => assert AsleepIn(waiters) == {};
  }

  lemma WorkerStranded(workers: seq<Worker>, waiters: seq<Waiter>, w: nat, next: Worker)
    requires w < |workers| && (HoldsJob(workers[w]) <==> HoldsJob(next))
    ensures Stranded(workers[w := next], waiters) == Stranded(workers, waiters)
  {
    BusyUpdate(workers, w, next);
    assert Busy(workers[w := next]) == Busy(workers);
  }

  lemma WaiterStranded(workers: seq<Worker>, waiters: seq<Waiter>, t: nat, next: Waiter)
    requires t < |waiters| && !waiters[t].Asleep? && !next.Asleep?
    ensures Stranded(workers, waiters[t := next]) == Stranded(workers, waiters)
  {
    AsleepUpdate(waiters, t, next);
    assert AsleepIn(waiters[t := next]) == AsleepIn(waiters);
  }

  // Each step of a stopped pool leaves their number as it is.
  lemma StoppedStep(s: State, a: Action)
    requires s.stopped && Enabled(s, a) && !a.SpuriousWaiter?
    ensures var t := Apply(s, a); t.stopped && Stranded(t.workers, t.waiters) == Stranded(s.workers, s.waiters)
  {
    hide Stranded;
    match a
    case Push(wake) =>
      if wake.Some? { WorkerStranded(s.workers, s.waiters, wake.value, AtCheck); return; } else { return; }
    case Check(w) => WorkerStranded(s.workers, s.waiters, w, Exited);
    case SpuriousWorker(w) => WorkerStranded(s.workers, s.waiters, w, AtCheck);
    case Execute(w) => WorkerStranded(s.workers, s.waiters, w, Completed(s.workers[w].job));
    case Restore(w, wake) => RestoreStranded(s.workers, s.waiters, w, wake);
    case EnterWait(t) => WaiterStranded(s.workers, s.waiters, t, Checking);
    case CheckWait(t) => WaiterStranded(s.workers, s.waiters, t, Outside);
  }

  lemma {:induction false} StoppedRun(s: State, acts: seq<Action>, t: State)
    requires s.stopped && Exec(s, acts) == Some(t) && NoneSpurious(acts)
    ensures t.stopped && Stranded(t.workers, t.waiters) == Stranded(s.workers, s.waiters)
  {
    if acts == [] {
    } else {
      var before := Exec(s, acts[..|acts| - 1]).value;
      StoppedRun(s, acts[..|acts| - 1], before);
      StoppedStep(before, acts[|acts| - 1]);
    }
  }

  lemma StopStranded(s: State)
    requires Enabled(s, Stop)
    ensures var t := Apply(s, Stop); t.stopped && Stranded(t.workers, t.waiters) == Stranded(s.workers, s.waiters)
  {
    assert Busy(WakeAll(s.workers)) == Busy(s.workers);
  }

  predicate AllExited(workers: seq<Worker>) {
    forall w :: 0 <= w < |workers| ==> workers[w] == Exited
  }

  /** Shutdown, for any number of callers of Wait: once every worker has returned, just as many
      callers are left asleep as exceeded, at the stop, the workers holding a job. Only a worker
      that finishes a job notifies, one caller each, and the destructor notifies none. */
  lemma StrandedCount(s: State, acts: seq<Action>, t: State)
    requires Enabled(s, Stop) && Exec(Apply(s, Stop), acts) == Some(t) && NoneSpurious(acts)
    requires AllExited(t.workers)
    ensures var asleep, busy := |AsleepIn(s.waiters)|, |Busy(s.workers)|;
            |AsleepIn(t.waiters)| == if asleep <= busy then 0 else asleep - busy
  {
    StopStranded(s);
    StoppedRun(Apply(s, Stop), acts, t);
    assert Busy(t.workers) == {};
  }

  /** So nobody is left asleep if and only if, at the stop, no more callers were asleep than
      workers held a job. */
  lemma StrandedExactly(s: State, acts: seq<Action>, t: State)
    requires Enabled(s, Stop) && Exec(Apply(s, Stop), acts) == Some(t) && NoneSpurious(acts)
    requires AllExited(t.workers)
    ensures !AnyAsleep(t.waiters) <==> |AsleepIn(s.waiters)| <= |Busy(s.workers)|
  {
    StrandedCount(s, acts, t);
    if u :| 0 <= u < |t.waiters| && t.waiters[u].Asleep? {
      assert u in AsleepIn(t.waiters);
    }
    assert |AsleepIn(t.waiters)| == 0 <==> AsleepIn(t.waiters) == {};
  }

  /** A lone caller: left asleep if and only if no worker held a job at the stop. */
  lemma LoneCallerStranded(s: State, acts: seq<Action>, t: State)
    requires Enabled(s, Stop) && Exec(Apply(s, Stop), acts) == Some(t) && NoneSpurious(acts)
    requires AllExited(t.workers) && |s.waiters| == 1 && s.waiters[0].Asleep?
    ensures AnyAsleep(t.waiters) <==> Busy(s.workers) == {}
  {
    StrandedExactly(s, acts, t);
    assert AsleepIn(s.waiters) == {0};
  }

  // ---------- Runs ----------

  ghost predicate Reachable(threadNum: nat, waiterNum: nat, s: State) {
    exists acts :: Runs(threadNum, waiterNum, acts, s)
  }

  lemma StepReachable(threadNum: nat, waiterNum: nat, s: State, a: Action)
    requires Reachable(threadNum, waiterNum, s) && Enabled(s, a)
    ensures Reachable(threadNum, waiterNum, Apply(s, a))
  {
    var acts :| Runs(threadNum, waiterNum, acts, s);
    ExecStep(Init(threadNum, waiterNum), acts, a);
    assert Runs(threadNum, waiterNum, acts + [a], Apply(s, a));
  }

  lemma InitReachable(threadNum: nat, waiterNum: nat)
    ensures Reachable(threadNum, waiterNum, Init(threadNum, waiterNum))
  {
    assert Runs(threadNum, waiterNum, [], Init(threadNum, waiterNum));
  }

  // Worker 0 has the only job, and callers 0 and 1 of Wait are asleep.
  lemma BothAsleep(threadNum: nat, waiterNum: nat) returns (s: State)
    requires threadNum >= 1 && waiterNum >= 2
    ensures Reachable(threadNum, waiterNum, s) && |s.workers| == threadNum && |s.waiters| == waiterNum
    ensures s.workers[0].Running? && s.waiters[0].Asleep? && s.waiters[1].Asleep?
    ensures forall t :: 2 <= t < waiterNum ==> s.waiters[t].Outside?
    ensures !s.stopped && s.jobs == [] && s.idle == threadNum - 1
  {
    InitReachable(threadNum, waiterNum);
    s := Init(threadNum, waiterNum);
    StepReachable(threadNum, waiterNum, s, Push(None));
    s := Apply(s, Push(None));
    StepReachable(threadNum, waiterNum, s, Check(0));
    s := Apply(s, Check(0));
    StepReachable(threadNum, waiterNum, s, EnterWait(0));
    s := Apply(s, EnterWait(0));
    StepReachable(threadNum, waiterNum, s, CheckWait(0));
    s := Apply(s, CheckWait(0));
    StepReachable(threadNum, waiterNum, s, EnterWait(1));
    s := Apply(s, EnterWait(1));
    StepReachable(threadNum, waiterNum, s, CheckWait(1));
    s := Apply(s, CheckWait(1));
  }

  // The job finishes and caller 0 is notified.
  lemma FirstNotified(threadNum: nat, waiterNum: nat) returns (s: State)
    requires threadNum >= 1 && waiterNum >= 2
    ensures Reachable(threadNum, waiterNum, s) && |s.workers| == threadNum && |s.waiters| == waiterNum
    ensures s.waiters[0].Checking? && s.waiters[1].Asleep?
    ensures forall t :: 2 <= t < waiterNum ==> s.waiters[t].Outside?
    ensures !s.stopped && s.jobs == [] && s.idle == threadNum
  {
    s := BothAsleep(threadNum, waiterNum);
    hide Reachable;
    StepReachable(threadNum, waiterNum, s, Execute(0));
    s := Apply(s, Execute(0));
    StepReachable(threadNum, waiterNum, s, Restore(0, Some(0)));
    s := Apply(s, Restore(0, Some(0)));
  }

  // It returns, and caller 1 sleeps on.
  lemma SecondWaiterMissed(threadNum: nat, waiterNum: nat)
    requires threadNum >= 1 && waiterNum >= 2
    ensures exists s :: Reachable(threadNum, waiterNum, s) && Missed(s)
  {
    var s := FirstNotified(threadNum, waiterNum);
    hide Reachable;
    StepReachable(threadNum, waiterNum, s, CheckWait(0));
    s := Apply(s, CheckWait(0));
    assert s.waiters[1].Asleep?;
    assert Missed(s);
  }

  // The pool runs, everything has finished, and yet somebody sleeps in Wait.
  predicate Missed(s: State) {
    !s.stopped && Quiet(s) && AnyAsleep(s.waiters) && forall t :: 0 <= t < |s.waiters| ==> !s.waiters[t].Checking?
  }

  /** A completion can be missed exactly when two threads or more may call Wait. */
  lemma MissedExactly(threadNum: nat, waiterNum: nat)
    requires threadNum >= 1
    ensures (exists s :: Reachable(threadNum, waiterNum, s) && Missed(s)) <==> waiterNum >= 2
  {
    if waiterNum >= 2 {
      SecondWaiterMissed(threadNum, waiterNum);
    } else if s :| Reachable(threadNum, waiterNum, s) && Missed(s) {
      var acts :| Runs(threadNum, waiterNum, acts, s);
      RunInv(threadNum, waiterNum, acts, s);
      WaiterCount(threadNum, waiterNum, acts, s);
      assert false;
    }
  }

  /** With two callers asleep, one worker's job in hand at the stop does not save them both. */
  lemma JobInHandStrandsOne()
    ensures exists s, acts, t ::
              && Reachable(1, 2, s) && !s.stopped && |Busy(s.workers)| == 1
              && Exec(Apply(s, Stop), acts) == Some(t) && NoneSpurious(acts) && AllExited(t.workers)
              && AnyAsleep(t.waiters)
  {
    var s := BothAsleep(1, 2);
    assert Busy(s.workers) == {0} && AsleepIn(s.waiters) == {0, 1};
    var acts, t := FinishStopped(s);
    hide Reachable, Apply;
    StrandedExactly(s, acts, t);
  }

  // The only worker of a stopped pool finishes its job and returns.
  lemma FinishStopped(s: State) returns (acts: seq<Action>, t: State)
    requires !s.stopped && |s.workers| == 1 && s.workers[0].Running? && |s.waiters| == 2 && s.waiters[0].Asleep?
    ensures Exec(Apply(s, Stop), acts) == Some(t) && NoneSpurious(acts) && AllExited(t.workers)
  {
    t := Apply(s, Stop);
    acts := [];
    acts, t := OneMore(Apply(s, Stop), acts, t, Execute(0));
    acts, t := OneMore(Apply(s, Stop), acts, t, Restore(0, Some(0)));
    acts, t := OneMore(Apply(s, Stop), acts, t, Check(0));
  }

  lemma OneMore(s: State, acts: seq<Action>, t: State, a: Action) returns (more: seq<Action>, u: State)
    requires Exec(s, acts) == Some(t) && Enabled(t, a) && !a.SpuriousWaiter? && NoneSpurious(acts)
    ensures Exec(s, more) == Some(u) && u == Apply(t, a) && NoneSpurious(more)
  {
    ExecStep(s, acts, a);
    more, u := acts + [a], Apply(t, a);
  }

  /** If no worker holds a job when the pool is stopped, its single waiter stays asleep although
      the pool is dead: the destructor does not notify job_completion_cv_. */
  lemma ShutdownStrandsWaiter()
    ensures exists s :: && Reachable(1, 1, s) && s.stopped && Quiet(s)
                        && s.workers == [Exited] && s.waiters == [Asleep]
  {
    InitReachable(1, 1);
    var s := Init(1, 1);
    StepReachable(1, 1, s, Push(None));
    s := Apply(s, Push(None));
    StepReachable(1, 1, s, EnterWait(0));
    s := Apply(s, EnterWait(0));
    StepReachable(1, 1, s, CheckWait(0));
    s := Apply(s, CheckWait(0));
    StepReachable(1, 1, s, Stop);
    assert Busy(s.workers) == {};
    s := Apply(s, Stop);
    StepReachable(1, 1, s, Check(0));
    s := Apply(s, Check(0));
    assert s.workers == [Exited] && s.waiters == [Asleep];
  }
}
