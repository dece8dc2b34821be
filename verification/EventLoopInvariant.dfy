/** What every reachable state of the event loop satisfies: one predicate per concern, over just
    the parts of the state it speaks about, so that a step keeps the others for free. */
module EventLoopInvariant {
  import opened Wrappers
  import opened RequestInfo
  import opened TimerFd
  import opened Sums
  import opened EventLoop

  // The request popped from the queue and not yet in the multi.
  function Hand(bg: BgPc): seq<Req> {
    if bg.InHand? || bg.Inserted? || bg.Adding? then [bg.r] else []
  }

  // In ongoing_requests, not yet in the multi.
  function Entering(bg: BgPc): seq<Req> {
    if bg.Inserted? || bg.Adding? then [bg.r] else []
  }

  // Promise set, entry not yet erased: the window in which the client may already run on.
  function Leaving(bg: BgPc): seq<Req> {
    if bg.Settled? || bg.Removed? then [bg.r] else []
  }

  // Response built (and the body moved out of the object), promise not yet set.
  function Answering(bg: BgPc): seq<Req> {
    if bg.Filled? then [bg.r] else []
  }

  predicate InDrain(bg: BgPc) {
    bg.Draining? || bg.InHand? || bg.Inserted? || bg.Adding?
  }

  // A DONE message has been read and its handle is still in the multi.
  predicate Handling(bg: BgPc) {
    bg.GotMsg? || bg.Filled? || bg.Settled?
  }

  function Handled(bg: BgPc): set<Easy> {
    if Handling(bg) then {bg.easy} else {}
  }

  predicate InCheckMulti(bg: BgPc) {
    bg.Checking? || Handling(bg) || bg.Removed? || bg.Clearing?
  }

  // The handles in exactly one of ongoing_requests and the multi.
  function Halfway(bg: BgPc, reqs: seq<Request>): set<Easy> {
    if (bg.Inserted? || bg.Adding?) && bg.r < |reqs| then {reqs[bg.r].easy}
    else if bg.Removed? then {bg.easy} else {}
  }

  predicate IsOngoing(ongoing: map<Easy, Req>, reqs: seq<Request>, r: Req) {
    r < |reqs| && reqs[r].easy in ongoing && ongoing[reqs[r].easy] == r
  }

  ghost predicate NoDup(xs: seq<Req>) {
    forall i, j :: 0 <= i < j < |xs| ==> xs[i] != xs[j]
  }

  ghost predicate Below(xs: seq<Req>, bound: nat) {
    forall i :: 0 <= i < |xs| ==> xs[i] < bound
  }

  ghost predicate HasDone(msgs: seq<Msg>, easy: Easy) {
    exists i :: 0 <= i < |msgs| && msgs[i].Done? && msgs[i].easy == easy
  }

  // Each thread works on one request of its own, and has returned from all its others.
  ghost predicate Threads(n: nat, clients: seq<ClientPc>, reqs: seq<Request>) {
    && |clients| == n
    && (forall c {:trigger clients[c]} :: 0 <= c < n && !clients[c].Idle? ==>
          clients[c].r < |reqs| && reqs[clients[c].r].client == c)
    && (forall r {:trigger reqs[r].client} :: 0 <= r < |reqs| ==>
          reqs[r].client < n)
    && (forall r {:trigger reqs[r].received} :: 0 <= r < |reqs| ==>
          (reqs[r].received.None? <==>
             !clients[reqs[r].client].Idle? && clients[reqs[r].client].r == r))
    && (forall r {:trigger reqs[r].received} :: 0 <= r < |reqs| && reqs[r].received.Some? ==>
          reqs[r].promise == reqs[r].received)
  }

  // Pushes come out in lock order, each once.
  ghost predicate Fifo(pushed: seq<Req>, added: seq<Req>, hand: seq<Req>, pending: seq<Req>) {
    pushed == added + hand + pending && NoDup(pushed)
  }

  ghost predicate Submitted(pushed: seq<Req>, clients: seq<ClientPc>, reqs: seq<Request>) {
    && Below(pushed, |reqs|)
    && (forall r {:trigger r in pushed} :: 0 <= r < |reqs| ==>
          reqs[r].client < |clients| && (r in pushed <==> clients[reqs[r].client] != Built(r)))
  }

  // ongoing_requests is keyed by easy handle, and holds what was added and not yet erased.
  ghost predicate Places(ongoing: map<Easy, Req>, retired: seq<Req>, added: seq<Req>,
                         entering: seq<Req>, reqs: seq<Request>) {
    && (forall e :: e in ongoing ==> ongoing[e] < |reqs| && reqs[ongoing[e]].easy == e)
    && (forall r {:trigger r in added} {:trigger r in retired} {:trigger IsOngoing(ongoing, reqs, r)} ::
          0 <= r < |reqs| ==>
            && (IsOngoing(ongoing, reqs, r) || r in retired <==> r in added || r in entering)
            && !(IsOngoing(ongoing, reqs, r) && r in retired))
    && (forall i :: 0 <= i < |entering| ==> IsOngoing(ongoing, reqs, entering[i]))
    && NoDup(retired) && Below(retired, |reqs|)
  }

  // A promise is set exactly for erased requests and the one being erased.
  ghost predicate Promises(reqs: seq<Request>, retired: seq<Req>, leaving: seq<Req>) {
    forall r {:trigger reqs[r].promise} :: 0 <= r < |reqs| ==>
      (reqs[r].promise.Some? <==> r in retired || r in leaving)
  }

  // CheckMulti works on the entry of the handle whose message it read.
  predicate OnEntry(bg: BgPc, ongoing: map<Easy, Req>) {
    && (Handling(bg) || bg.Removed? ==> bg.easy in ongoing)
    && (bg.Filled? || bg.Settled? || bg.Removed? ==> ongoing[bg.easy] == bg.r)
  }

  // The multi, ongoing_requests and libcurl's own books name the same handles.
  ghost predicate Tables(ongoing: map<Easy, Req>, multi: set<Easy>, running: set<Easy>,
                         job: map<Easy, Req>, half: set<Easy>) {
    && multi == ongoing.Keys - half && half <= ongoing.Keys
    && running <= multi
    && (forall e :: e in multi ==> e in job && job[e] == ongoing[e])
  }

  // PRIVATE and the callback data of a handle name its unfinished request.
  ghost predicate Pointers(reqs: seq<Request>, priv: map<Easy, Req>, target: map<Easy, Req>) {
    forall r {:trigger reqs[r].promise} :: 0 <= r < |reqs| && reqs[r].promise.None? ==>
      var e := reqs[r].easy;
      e in priv && priv[e] == r && e in target && target[e] == r
  }

  // One DONE message for each handle that is done and not yet handled.
  ghost predicate Messages(msgs: seq<Msg>, multi: set<Easy>, running: set<Easy>, handled: set<Easy>) {
    && (forall i :: 0 <= i < |msgs| && msgs[i].Done? ==>
          msgs[i].easy in multi && msgs[i].easy !in running && msgs[i].easy !in handled)
    && (forall i, j :: 0 <= i < j < |msgs| && msgs[i].Done? && msgs[j].Done? ==>
          msgs[i].easy != msgs[j].easy)
    && (forall e :: e in multi && e !in running && e !in handled ==> HasDone(msgs, e))
    && handled <= multi && handled !! running
  }

  // The response made from what the network sent for this very request.
  predicate IsAnswer(q: Request, resp: Response) {
    match (AbsorbAll(NewInfo(q.url), q.wire), q.outcome)
    case (Ok(info), Some(o)) => resp == ManagedResponse(info.(code := o.code % 0x1_0000), o.result)
    case _ => false
  }

  predicate Faithful(q: Request) {
    AbsorbAll(NewInfo(q.url), q.wire) == Ok(q.info)
  }

  // The object behind each unfinished request holds exactly what its own transfer received.
  ghost predicate Contents(reqs: seq<Request>, answering: seq<Req>) {
    forall r {:trigger Faithful(reqs[r])} :: 0 <= r < |reqs| && reqs[r].promise.None? && r !in answering ==>
      Faithful(reqs[r])
  }

  predicate IsOutcome(reqs: seq<Request>, httpCode: map<Easy, nat>, job: map<Easy, Req>,
                      easy: Easy, result: nat) {
    && easy in job && job[easy] < |reqs| && easy in httpCode
    && reqs[job[easy]].outcome == Some(Outcome(result, httpCode[easy]))
  }

  ghost predicate Outcomes(msgs: seq<Msg>, reqs: seq<Request>, httpCode: map<Easy, nat>, job: map<Easy, Req>) {
    forall i :: 0 <= i < |msgs| && msgs[i].Done? ==>
      IsOutcome(reqs, httpCode, job, msgs[i].easy, msgs[i].result)
  }

  predicate InProgress(bg: BgPc, reqs: seq<Request>, httpCode: map<Easy, nat>, job: map<Easy, Req>) {
    && (bg.GotMsg? ==> IsOutcome(reqs, httpCode, job, bg.easy, bg.result))
    && (bg.Filled? ==> bg.r < |reqs| && IsAnswer(reqs[bg.r], bg.resp))
  }

  ghost predicate Answers(reqs: seq<Request>) {
    forall r {:trigger reqs[r].promise} :: 0 <= r < |reqs| && reqs[r].promise.Some? ==>
      IsAnswer(reqs[r], reqs[r].promise.value)
  }

  // A queued request has its wake-up: the drain is on, the counter is up, or its client has
  // still to write.
  ghost predicate WakeUps(pending: seq<Req>, clients: seq<ClientPc>, reqs: seq<Request>, awake: bool) {
    forall i :: 0 <= i < |pending| ==>
      && pending[i] < |reqs| && reqs[pending[i]].client < |clients|
      && (awake || clients[reqs[pending[i]].client] == Pushed(pending[i]))
  }

  predicate Awake(s: State) {
    InDrain(s.bg) || s.counter > 0
  }

  // How many eventfd writes a client at this point can have made since the last read.
  function Allowance(pc: ClientPc, drain: bool, pending: seq<Req>, reqs: seq<Request>): nat {
    match pc
    case Idle => if drain then 1 else 2
    case Built(_) => if drain then 1 else 2
    case Pushed(r) => WritesBefore(r, drain, pending, reqs)
    case WriteFailed(r) => WritesBefore(r, drain, pending, reqs)
    case Blocked(r) => WritesBefore(r, drain, pending, reqs) + 1
  }

  // A request pushed before the last read and already answered leaves no room for an earlier
  // write; one pushed since the drain ended may be the client's third.
  function WritesBefore(r: Req, drain: bool, pending: seq<Req>, reqs: seq<Request>): nat {
    if drain then (if r < |reqs| && reqs[r].promise.Some? then 0 else 1)
    else if r in pending then 2 else 1
  }

  ghost predicate Credits(counter: nat, writes: seq<nat>, n: nat) {
    |writes| == n && counter == Sum(writes)
  }

  ghost predicate Allowed(writes: seq<nat>, clients: seq<ClientPc>, drain: bool,
                          pending: seq<Req>, reqs: seq<Request>) {
    && |writes| == |clients|
    && (forall c {:trigger writes[c]} {:trigger clients[c]} ::
          0 <= c < |writes| ==> writes[c] <= Allowance(clients[c], drain, pending, reqs))
  }

  // What a batch promises about the descriptors still to be dispatched.
  ghost predicate Batch(rest: seq<Event>, counter: nat, timer: Timer, rearmed: bool, expired: bool) {
    && (forall i, j :: 0 <= i < j < |rest| ==> rest[i] != rest[j])
    && (QueueReady in rest ==> counter > 0)
    && (TimerReady in rest ==> (timer.ticks == 0 <==> rearmed && !expired))
  }

  // Between the return of curl_multi_socket_action and the end of CheckMulti's loop.
  predicate MayHoldMessages(bg: BgPc) {
    bg.Action? || bg.Checking? || Handling(bg) || bg.Removed? || bg.Failed?
  }

  predicate Counts(bg: BgPc, stillRunning: int, running: set<Easy>, msgs: seq<Msg>) {
    && (InCheckMulti(bg) ==> stillRunning == |running|)
    && (MayHoldMessages(bg) || msgs == [])
  }

  predicate TimerAgrees(value: Itimerspec, cleared: bool, asked: Option<int>) {
    value == if cleared then DISARMED
             else match asked case None => FIRST case Some(ms) => Spec(ms)
  }

  // No assertion has fired, except perhaps the one on the timer read.
  predicate Sound(bg: BgPc) {
    bg.Failed? ==> bg.why == TimerRead
  }

  ghost predicate Inv(s: State, n: nat) {
    && Threads(n, s.clients, s.reqs)
    && Fifo(s.pushed, s.added, Hand(s.bg), s.pending)
    && Submitted(s.pushed, s.clients, s.reqs)
    && Places(s.ongoing, s.retired, s.added, Entering(s.bg), s.reqs)
    && Promises(s.reqs, s.retired, Leaving(s.bg))
    && OnEntry(s.bg, s.ongoing)
    && Tables(s.ongoing, s.multi, s.running, s.job, Halfway(s.bg, s.reqs))
    && Pointers(s.reqs, s.priv, s.target)
    && Messages(s.msgs, s.multi, s.running, Handled(s.bg))
    && Contents(s.reqs, Answering(s.bg))
    && Outcomes(s.msgs, s.reqs, s.httpCode, s.job)
    && InProgress(s.bg, s.reqs, s.httpCode, s.job)
    && Answers(s.reqs)
    && WakeUps(s.pending, s.clients, s.reqs, Awake(s))
    && Credits(s.counter, s.writes, n)
    && Allowed(s.writes, s.clients, InDrain(s.bg), s.pending, s.reqs)
    && Batch(s.rest, s.counter, s.timer, s.rearmed, s.expired)
    && Counts(s.bg, s.stillRunning, s.running, s.msgs)
    && TimerAgrees(s.timer.value, s.cleared, s.asked)
    && Sound(s.bg)
  }
}
