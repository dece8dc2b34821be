/** ThreadPool as an interleaved step system. Each critical section under the mutex is one step;
    a condition variable holds its sleepers, notify_one wakes exactly one of them when there is
    any, and any sleeper may also wake for no reason. */
module ThreadPoolSteps {
  import opened Wrappers

  // Jobs are numbered in the order of the Push calls.
  type Job = nat

  // Heading for the queue check (at the start, or woken); asleep on new_job_cv_; executing;
  // done executing, with the idle count still to be restored; returned.
  datatype Worker = AtCheck | Sleeping | Running(job: Job) | Completed(job: Job) | Exited

  // Not in Wait; heading for the predicate; asleep on job_completion_cv_.
  datatype Waiter = Outside | Checking | Asleep

  // taken: jobs popped, in order.
  datatype State = State(
    jobs: seq<Job>, idle: int, stopped: bool,
    workers: seq<Worker>, waiters: seq<Waiter>,
    pushed: nat, taken: seq<Job>, finished: set<Job>)

  datatype Action =
    | Push(wake: Option<nat>)
    | Check(w: nat) | SpuriousWorker(w: nat) | Execute(w: nat) | Restore(w: nat, wake: Option<nat>)
    | EnterWait(t: nat) | CheckWait(t: nat) | SpuriousWaiter(t: nat)
    | Stop

  function Init(threadNum: nat, waiterNum: nat): State {
    State([], threadNum, false, seq(threadNum, i => AtCheck), seq(waiterNum, i => Outside),
          0, [], {})
  }

  predicate HoldsJob(w: Worker) {
    w.Running? || w.Completed?
  }

  function Busy(workers: seq<Worker>): set<nat> {
    set w {:trigger workers[w]} | 0 <= w < |workers| && HoldsJob(workers[w])
  }

  // Wait's predicate.
  predicate Quiet(s: State) {
    s.stopped || (s.idle == |s.workers| && s.jobs == [])
  }

  // notify_one: wake names a sleeper if there is one.
  predicate WakesWorker(workers: seq<Worker>, wake: Option<nat>) {
    match wake
    case Some(w) => w < |workers| && workers[w].Sleeping?
    case None => forall w :: 0 <= w < |workers| ==> !workers[w].Sleeping?
  }

  predicate WakesWaiter(waiters: seq<Waiter>, wake: Option<nat>) {
    match wake
    case Some(t) => t < |waiters| && waiters[t].Asleep?
    case None => forall t :: 0 <= t < |waiters| ==> !waiters[t].Asleep?
  }

  predicate Enabled(s: State, a: Action) {
    match a
    case Push(wake) => WakesWorker(s.workers, wake)
    case Check(w) => w < |s.workers| && s.workers[w].AtCheck?
    case SpuriousWorker(w) => w < |s.workers| && s.workers[w].Sleeping?
    case Execute(w) => w < |s.workers| && s.workers[w].Running?
    case Restore(w, wake) => w < |s.workers| && s.workers[w].Completed? && WakesWaiter(s.waiters, wake)
    case EnterWait(t) => t < |s.waiters| && s.waiters[t].Outside?
    case CheckWait(t) => t < |s.waiters| && s.waiters[t].Checking?
    case SpuriousWaiter(t) => t < |s.waiters| && s.waiters[t].Asleep?
    case Stop => !s.stopped
  }

  function Wake(workers: seq<Worker>, wake: Option<nat>): seq<Worker> {
    match wake
    case Some(w) => if w < |workers| then workers[w := AtCheck] else workers
    case None => workers
  }

  function WakeAll(workers: seq<Worker>): (woken: seq<Worker>)
    ensures |woken| == |workers|
    ensures forall w :: 0 <= w < |workers| ==>
              woken[w] == if workers[w].Sleeping? then AtCheck else workers[w]
  {
    seq(|workers|, w requires 0 <= w < |workers| => if workers[w].Sleeping? then AtCheck else workers[w])
  }

  function WakeWaiter(waiters: seq<Waiter>, wake: Option<nat>): seq<Waiter> {
    match wake
    case Some(t) => if t < |waiters| then waiters[t := Checking] else waiters
    case None => waiters
  }

  function Apply(s: State, a: Action): State
    requires Enabled(s, a)
  {
    match a
    case Push(wake) =>
      s.(jobs := s.jobs + [s.pushed], pushed := s.pushed + 1, workers := Wake(s.workers, wake))
    case Check(w) => DoCheck(s, w)
    case SpuriousWorker(w) => s.(workers := s.workers[w := AtCheck])
    case Execute(w) =>
      s.(workers := s.workers[w := Completed(s.workers[w].job)], finished := s.finished + {s.workers[w].job})
    case Restore(w, wake) =>
      s.(workers := s.workers[w := AtCheck], idle := s.idle + 1, waiters := WakeWaiter(s.waiters, wake))
    case EnterWait(t) => s.(waiters := s.waiters[t := Checking])
    case CheckWait(t) => s.(waiters := s.waiters[t := if Quiet(s) then Outside else Asleep])
    case SpuriousWaiter(t) => s.(waiters := s.waiters[t := Checking])
    case Stop => s.(stopped := true, workers := WakeAll(s.workers))
  }

  // The wait on new_job_cv_: sleep while there is no job and no stop; a stop comes first.
  function DoCheck(s: State, w: nat): (t: State)
    requires w < |s.workers|
    ensures |t.workers| == |s.workers| && t.waiters == s.waiters
  {
    if s.stopped then s.(workers := s.workers[w := Exited])
    else if s.jobs == [] then s.(workers := s.workers[w := Sleeping])
    else s.(workers := s.workers[w := Running(s.jobs[0])], jobs := s.jobs[1..],
            idle := s.idle - 1, taken := s.taken + [s.jobs[0]])
  }

  // All actions enabled in turn.
  function Exec(s: State, acts: seq<Action>): Option<State> {
    if acts == [] then Some(s)
    else
      match Exec(s, acts[..|acts| - 1])
      case Some(t) => if Enabled(t, acts[|acts| - 1]) then Some(Apply(t, acts[|acts| - 1])) else None
      case None => None
  }

  predicate Runs(threadNum: nat, waiterNum: nat, acts: seq<Action>, s: State) {
    Exec(Init(threadNum, waiterNum), acts) == Some(s)
  }

  lemma ExecStep(s: State, acts: seq<Action>, a: Action)
    ensures Exec(s, acts + [a])
            == match Exec(s, acts)
               case Some(t) => if Enabled(t, a) then Some(Apply(t, a)) else None
               case None => None
  {
    assert (acts + [a])[..|acts|] == acts;
  }
}
