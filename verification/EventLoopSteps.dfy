/** Every step of the event loop keeps its invariant, action by action. For each action, small
    lemmas re-establish the parts it touches; the others speak about components that did not
    change. */
module EventLoopSteps {
  import opened Wrappers
  import opened RequestInfo
  import opened TimerFd
  import opened Sums
  import opened EventLoop
  import opened EventLoopInvariant

  // ---------- Facts about reachable states ----------

  lemma NoDupParts(pushed: seq<Req>, added: seq<Req>, hand: seq<Req>, pending: seq<Req>)
    requires Fifo(pushed, added, hand, pending)
    ensures forall r :: r in pushed <==> r in added || r in hand || r in pending
    ensures forall r :: r in hand ==> r !in added && r !in pending
    ensures forall r :: r in added ==> r !in pending
    ensures NoDup(pending)
  {
    assert forall i :: 0 <= i < |added| ==> pushed[i] == added[i];
    assert forall i :: 0 <= i < |hand| ==> pushed[|added| + i] == hand[i];
    assert forall i :: 0 <= i < |pending| ==> pushed[|added| + |hand| + i] == pending[i];
  }

  // Two unfinished requests of one handle are the same request: PRIVATE names it.
  lemma OnePerHandle(reqs: seq<Request>, priv: map<Easy, Req>, target: map<Easy, Req>, r: Req, q: Req)
    requires Pointers(reqs, priv, target)
    requires r < |reqs| && q < |reqs| && reqs[r].promise.None? && reqs[q].promise.None?
    requires reqs[r].easy == reqs[q].easy
    ensures r == q
  {
  }

  lemma HandUnfinished(s: State, n: nat)
    requires Inv(s, n) && (s.bg.InHand? || s.bg.Inserted? || s.bg.Adding?)
    ensures s.bg.r < |s.reqs| && s.reqs[s.bg.r].promise.None? && s.bg.r !in s.added && s.bg.r !in s.retired
  {
    NoDupParts(s.pushed, s.added, Hand(s.bg), s.pending);
    assert s.bg.r in Hand(s.bg);
    assert s.bg.r in s.pushed;
    if !s.bg.InHand? {
      assert IsOngoing(s.ongoing, s.reqs, Entering(s.bg)[0]);
    }
  }

  // The handle of a request just popped is not ongoing, although its previous request may
  // have been completed only moments ago.
  lemma HandleFree(s: State, n: nat)
    requires Inv(s, n) && s.bg.InHand?
    ensures s.bg.r < |s.reqs| && s.reqs[s.bg.r].easy !in s.ongoing
  {
    HandUnfinished(s, n);
    var r := s.bg.r;
    if s.reqs[r].easy in s.ongoing {
      var q := s.ongoing[s.reqs[r].easy];
      assert IsOngoing(s.ongoing, s.reqs, q);
      OnePerHandle(s.reqs, s.priv, s.target, r, q);
    }
  }

  // PRIVATE of a handle whose message was just read names its ongoing request.
  lemma MessageRequest(s: State, n: nat)
    requires Inv(s, n) && s.bg.GotMsg?
    ensures var e := s.bg.easy;
            && e in s.ongoing && s.ongoing[e] < |s.reqs| && e in s.job && s.job[e] == s.ongoing[e]
            && e in s.priv && s.priv[e] == s.ongoing[e]
            && s.reqs[s.ongoing[e]].promise.None?
            && s.reqs[s.ongoing[e]].easy == e && e in s.httpCode
  {
    assert s.bg.easy in Handled(s.bg);
    assert IsOngoing(s.ongoing, s.reqs, s.ongoing[s.bg.easy]);
  }

  // So do PRIVATE, the callback data and the job of a handle still running.
  lemma RunningRequest(s: State, easy: Easy, n: nat)
    requires Inv(s, n) && easy in s.running && s.bg.Action?
    ensures && easy in s.ongoing && s.ongoing[easy] < |s.reqs| && easy in s.multi
            && easy in s.job && s.job[easy] == s.ongoing[easy]
            && easy in s.target && s.target[easy] == s.ongoing[easy]
            && s.reqs[s.ongoing[easy]].promise.None?
  {
    assert IsOngoing(s.ongoing, s.reqs, s.ongoing[easy]);
  }

  // ---------- Client threads ----------

  lemma BuildRequests(s: State, c: nat, easy: Easy, url: string, n: nat)
    requires c < n && c < |s.clients| && s.clients[c].Idle?
    requires Threads(n, s.clients, s.reqs) && Fifo(s.pushed, s.added, Hand(s.bg), s.pending)
    requires Submitted(s.pushed, s.clients, s.reqs)
    requires WakeUps(s.pending, s.clients, s.reqs, Awake(s))
    ensures var t := DoBuild(s, c, easy, url);
            && Threads(n, t.clients, t.reqs) && Submitted(t.pushed, t.clients, t.reqs)
            && WakeUps(t.pending, t.clients, t.reqs, Awake(t))
  {
    NoDupParts(s.pushed, s.added, Hand(s.bg), s.pending);
  }

  lemma BuildPlaces(s: State, q: Request, n: nat)
    requires Fifo(s.pushed, s.added, Hand(s.bg), s.pending) && Submitted(s.pushed, s.clients, s.reqs)
    requires Places(s.ongoing, s.retired, s.added, Entering(s.bg), s.reqs)
    requires Promises(s.reqs, s.retired, Leaving(s.bg)) && OnEntry(s.bg, s.ongoing)
    requires q.promise.None?
    ensures Places(s.ongoing, s.retired, s.added, Entering(s.bg), s.reqs + [q])
    ensures Promises(s.reqs + [q], s.retired, Leaving(s.bg))
    ensures Halfway(s.bg, s.reqs + [q]) == Halfway(s.bg, s.reqs)
  {
    NoDupParts(s.pushed, s.added, Hand(s.bg), s.pending);
    assert forall i :: 0 <= i < |Entering(s.bg)| ==> Entering(s.bg)[i] in Hand(s.bg);
    forall r | 0 <= r < |s.reqs| + 1
      ensures IsOngoing(s.ongoing, s.reqs + [q], r) <==> IsOngoing(s.ongoing, s.reqs, r)
    {
      assert r == |s.reqs| ==> forall e :: e in s.ongoing ==> s.ongoing[e] != r;
    }
    assert s.bg.Settled? || s.bg.Removed? ==> s.ongoing[s.bg.easy] < |s.reqs|;
  }

  lemma BuildData(s: State, c: nat, easy: Easy, url: string, n: nat)
    requires c < n && c < |s.clients| && s.clients[c].Idle? && AllAnswered(s.reqs, easy)
    requires Threads(n, s.clients, s.reqs)
    requires Pointers(s.reqs, s.priv, s.target) && Contents(s.reqs, Answering(s.bg))
    requires Outcomes(s.msgs, s.reqs, s.httpCode, s.job) && InProgress(s.bg, s.reqs, s.httpCode, s.job)
    requires Answers(s.reqs)
    ensures var t := DoBuild(s, c, easy, url);
            && Pointers(t.reqs, t.priv, t.target) && Contents(t.reqs, Answering(t.bg))
            && Outcomes(t.msgs, t.reqs, t.httpCode, t.job) && InProgress(t.bg, t.reqs, t.httpCode, t.job)
            && Answers(t.reqs)
  {
    var t := DoBuild(s, c, easy, url);
    assert Faithful(t.reqs[|s.reqs|]);
    forall r | 0 <= r < |s.reqs| ensures t.reqs[r] == s.reqs[r] {}
    assert forall r :: 0 <= r < |s.reqs| && s.reqs[r].promise.None? ==> s.reqs[r].easy != easy;
  }

  lemma BuildAllowed(writes: seq<nat>, clients: seq<ClientPc>, drain: bool, pending: seq<Req>,
                     reqs: seq<Request>, c: nat, q: Request, n: nat)
    requires Threads(n, clients, reqs)
    requires Allowed(writes, clients, drain, pending, reqs) && c < |clients| && clients[c].Idle?
    ensures Allowed(writes, clients[c := Built(|reqs|)], drain, pending, reqs + [q])
  {
  }

  lemma KeepBuild(s: State, c: nat, easy: Easy, url: string, n: nat)
    requires Inv(s, n) && c < n && c < |s.clients| && s.clients[c].Idle? && AllAnswered(s.reqs, easy)
    ensures Inv(DoBuild(s, c, easy, url), n)
  {
    hide Threads, Fifo, Submitted, Places, Promises, Tables, Pointers, Messages, Contents, Outcomes,
         Answers, WakeUps, Credits, Allowed, Batch;
    BuildRequests(s, c, easy, url, n);
    BuildPlaces(s, Request(easy, c, NewInfo(url), None, url, [], None, None), n);
    BuildData(s, c, easy, url, n);
    BuildAllowed(s.writes, s.clients, InDrain(s.bg), s.pending, s.reqs, c,
                 Request(easy, c, NewInfo(url), None, url, [], None, None), n);
  }

  lemma PushQueue(s: State, c: nat, n: nat)
    requires c < n && c < |s.clients| && s.clients[c].Built?
    requires Threads(n, s.clients, s.reqs) && Submitted(s.pushed, s.clients, s.reqs)
    requires Fifo(s.pushed, s.added, Hand(s.bg), s.pending)
    requires WakeUps(s.pending, s.clients, s.reqs, Awake(s))
    ensures var t := DoPush(s, c);
            && Threads(n, t.clients, t.reqs) && Submitted(t.pushed, t.clients, t.reqs)
            && Fifo(t.pushed, t.added, Hand(t.bg), t.pending)
            && WakeUps(t.pending, t.clients, t.reqs, Awake(t))
  {
    NoDupParts(s.pushed, s.added, Hand(s.bg), s.pending);
    assert s.clients[c].r !in s.pushed;
  }

  lemma PushAllowed(s: State, c: nat, n: nat)
    requires c < n && c < |s.clients| && s.clients[c].Built?
    requires Threads(n, s.clients, s.reqs)
    requires Promises(s.reqs, s.retired, Leaving(s.bg)) && Submitted(s.pushed, s.clients, s.reqs)
    requires Fifo(s.pushed, s.added, Hand(s.bg), s.pending)
    requires Places(s.ongoing, s.retired, s.added, Entering(s.bg), s.reqs) && OnEntry(s.bg, s.ongoing)
    requires Allowed(s.writes, s.clients, InDrain(s.bg), s.pending, s.reqs)
    ensures var t := DoPush(s, c); Allowed(t.writes, t.clients, InDrain(t.bg), t.pending, t.reqs)
  {
    NoDupParts(s.pushed, s.added, Hand(s.bg), s.pending);
    var r := s.clients[c].r;
    assert r !in s.pushed && r !in s.retired;
    assert s.reqs[r].promise.None? by {
      if r in Leaving(s.bg) { assert IsOngoing(s.ongoing, s.reqs, r); }
    }
  }

  lemma KeepPush(s: State, c: nat, n: nat)
    requires Inv(s, n) && c < n && c < |s.clients| && s.clients[c].Built?
    ensures Inv(DoPush(s, c), n)
  {
    hide Threads, Fifo, Submitted, Places, Promises, Tables, Pointers, Messages, Contents, Outcomes,
         Answers, WakeUps, Credits, Allowed, Batch;
    PushQueue(s, c, n);
    PushAllowed(s, c, n);
  }

  lemma WriteClients(s: State, n: nat, c: nat, pc: ClientPc)
    requires Threads(n, s.clients, s.reqs) && Submitted(s.pushed, s.clients, s.reqs)
    requires WakeUps(s.pending, s.clients, s.reqs, Awake(s))
    requires c < n && c < |s.clients| && s.clients[c].Pushed?
    requires (pc.Blocked? || pc.WriteFailed?) && pc.r == s.clients[c].r
    ensures Threads(n, s.clients[c := pc], s.reqs) && Submitted(s.pushed, s.clients[c := pc], s.reqs)
    ensures WakeUps(s.pending, s.clients[c := pc], s.reqs, true)
  {
  }

  lemma WriteCredits(s: State, n: nat, c: nat)
    requires Credits(s.counter, s.writes, n) && c < n
    requires Allowed(s.writes, s.clients, InDrain(s.bg), s.pending, s.reqs) && s.clients[c].Pushed?
    ensures var r := s.clients[c].r;
            && Credits(s.counter + 1, s.writes[c := s.writes[c] + 1], n)
            && Allowed(s.writes[c := s.writes[c] + 1], s.clients[c := Blocked(r)], InDrain(s.bg), s.pending, s.reqs)
            && Allowed(s.writes, s.clients[c := WriteFailed(r)], InDrain(s.bg), s.pending, s.reqs)
  {
    SumUpdate(s.writes, c, s.writes[c] + 1);
  }

  lemma WriteBatch(rest: seq<Event>, counter: nat, more: nat, timer: Timer, rearmed: bool, expired: bool)
    requires Batch(rest, counter, timer, rearmed, expired) && more > 0
    ensures Batch(rest, more, timer, rearmed, expired)
  {
  }

  lemma KeepWriteFailing(s: State, c: nat, n: nat)
    requires Inv(s, n) && c < n && c < |s.clients| && c < |s.writes| && s.clients[c].Pushed?
    requires s.counter + 1 > EVENTFD_MAX
    ensures Inv(DoWrite(s, c), n)
  {
    hide Threads, Fifo, Submitted, Places, Promises, Tables, Pointers, Messages, Contents, Outcomes,
         Answers, WakeUps, Credits, Allowed, Batch;
    WriteCredits(s, n, c);
    WriteClients(s, n, c, WriteFailed(s.clients[c].r));
  }

  lemma KeepWrite(s: State, c: nat, n: nat)
    requires Inv(s, n) && c < n && c < |s.clients| && c < |s.writes| && s.clients[c].Pushed?
    requires s.counter + 1 <= EVENTFD_MAX
    ensures Inv(DoWrite(s, c), n)
  {
    hide Threads, Fifo, Submitted, Places, Promises, Tables, Pointers, Messages, Contents, Outcomes,
         Answers, WakeUps, Credits, Allowed, Batch;
    WriteCredits(s, n, c);
    WriteClients(s, n, c, Blocked(s.clients[c].r));
    WriteBatch(s.rest, s.counter, s.counter + 1, s.timer, s.rearmed, s.expired);
  }

  lemma ReturnParts(s: State, c: nat, n: nat)
    requires c < n && c < |s.clients| && s.clients[c].Blocked? && s.clients[c].r < |s.reqs|
    requires s.reqs[s.clients[c].r].promise.Some?
    requires Threads(n, s.clients, s.reqs) && Submitted(s.pushed, s.clients, s.reqs)
    ensures var t := DoReturn(s, c);
            Threads(n, t.clients, t.reqs) && Submitted(t.pushed, t.clients, t.reqs)
  {
  }

  lemma ReturnWakeUps(s: State, c: nat, n: nat)
    requires c < n && c < |s.clients| && s.clients[c].Blocked? && s.clients[c].r < |s.reqs|
    requires Threads(n, s.clients, s.reqs)
    requires WakeUps(s.pending, s.clients, s.reqs, Awake(s))
    ensures var t := DoReturn(s, c); WakeUps(t.pending, t.clients, t.reqs, Awake(t))
  {
  }

  lemma ReturnAllowed(s: State, c: nat, n: nat)
    requires c < n && c < |s.clients| && s.clients[c].Blocked? && s.clients[c].r < |s.reqs|
    requires s.reqs[s.clients[c].r].promise.Some?
    requires Promises(s.reqs, s.retired, Leaving(s.bg)) && OnEntry(s.bg, s.ongoing)
    requires Fifo(s.pushed, s.added, Hand(s.bg), s.pending)
    requires Places(s.ongoing, s.retired, s.added, Entering(s.bg), s.reqs)
    requires Allowed(s.writes, s.clients, InDrain(s.bg), s.pending, s.reqs)
    ensures var t := DoReturn(s, c); Allowed(t.writes, t.clients, InDrain(t.bg), t.pending, t.reqs)
  {
    AnsweredNotPending(s, s.clients[c].r);
  }

  // An answered request has left the queue.
  lemma AnsweredNotPending(s: State, r: Req)
    requires r < |s.reqs| && s.reqs[r].promise.Some?
    requires Promises(s.reqs, s.retired, Leaving(s.bg)) && OnEntry(s.bg, s.ongoing)
    requires Fifo(s.pushed, s.added, Hand(s.bg), s.pending)
    requires Places(s.ongoing, s.retired, s.added, Entering(s.bg), s.reqs)
    ensures r !in s.pending && r !in Hand(s.bg)
  {
    NoDupParts(s.pushed, s.added, Hand(s.bg), s.pending);
    if r in Leaving(s.bg) {
      assert IsOngoing(s.ongoing, s.reqs, r);
    }
    assert r in s.retired || IsOngoing(s.ongoing, s.reqs, r);
  }

  lemma KeepReturn(s: State, c: nat, n: nat)
    requires Inv(s, n) && c < n && c < |s.clients| && s.clients[c].Blocked? && s.clients[c].r < |s.reqs|
    requires s.reqs[s.clients[c].r].promise.Some?
    ensures Inv(DoReturn(s, c), n)
  {
    hide Threads, Fifo, Submitted, Places, Promises, Tables, Pointers, Messages, Contents, Outcomes,
         Answers, WakeUps, Credits, Allowed, Batch;
    var t := DoReturn(s, c);
    ReturnParts(s, c, n);
    ReturnWakeUps(s, c, n);
    ReturnAllowed(s, c, n);
    SameRequests(s, t.reqs);
    SameData(s, t.reqs);
  }

  // ---------- Changes inside the request objects ----------

  // The objects agree on everything but what a transfer received and what its client got.
  ghost predicate SameButData(reqs: seq<Request>, later: seq<Request>) {
    && |later| == |reqs|
    && forall r {:trigger later[r]} {:trigger reqs[r]} :: 0 <= r < |reqs| ==>
         && later[r].easy == reqs[r].easy && later[r].client == reqs[r].client
         && later[r].promise == reqs[r].promise
  }

  lemma SameRequests(s: State, later: seq<Request>)
    requires SameButData(s.reqs, later)
    requires Places(s.ongoing, s.retired, s.added, Entering(s.bg), s.reqs)
    requires Promises(s.reqs, s.retired, Leaving(s.bg)) && Pointers(s.reqs, s.priv, s.target)
    ensures Places(s.ongoing, s.retired, s.added, Entering(s.bg), later)
    ensures Promises(later, s.retired, Leaving(s.bg)) && Pointers(later, s.priv, s.target)
    ensures Halfway(s.bg, later) == Halfway(s.bg, s.reqs)
  {
    forall r ensures IsOngoing(s.ongoing, later, r) <==> IsOngoing(s.ongoing, s.reqs, r) {}
  }

  lemma SameThreads(s: State, later: seq<Request>, n: nat)
    requires SameButData(s.reqs, later)
    requires forall r {:trigger later[r]} :: 0 <= r < |s.reqs| ==> later[r].received == s.reqs[r].received
    requires Threads(n, s.clients, s.reqs) && Submitted(s.pushed, s.clients, s.reqs)
    requires WakeUps(s.pending, s.clients, s.reqs, Awake(s))
    requires Allowed(s.writes, s.clients, InDrain(s.bg), s.pending, s.reqs)
    ensures Threads(n, s.clients, later) && Submitted(s.pushed, s.clients, later)
    ensures WakeUps(s.pending, s.clients, later, Awake(s))
    ensures Allowed(s.writes, s.clients, InDrain(s.bg), s.pending, later)
  {
  }

  lemma SameData(s: State, later: seq<Request>)
    requires SameButData(s.reqs, later)
    requires forall r {:trigger later[r]} :: 0 <= r < |s.reqs| ==>
               && later[r].info == s.reqs[r].info && later[r].url == s.reqs[r].url
               && later[r].wire == s.reqs[r].wire && later[r].outcome == s.reqs[r].outcome
    requires Contents(s.reqs, Answering(s.bg)) && Answers(s.reqs)
    requires Outcomes(s.msgs, s.reqs, s.httpCode, s.job) && InProgress(s.bg, s.reqs, s.httpCode, s.job)
    ensures Contents(later, Answering(s.bg)) && Answers(later)
    ensures Outcomes(s.msgs, later, s.httpCode, s.job) && InProgress(s.bg, later, s.httpCode, s.job)
  {
    forall r | 0 <= r < |s.reqs|
      ensures Faithful(later[r]) == Faithful(s.reqs[r])
      ensures forall resp :: IsAnswer(later[r], resp) == IsAnswer(s.reqs[r], resp)
    {
    }
  }

  // ---------- Time and the batch ----------

  lemma KeepTick(s: State, n: nat)
    requires Inv(s, n) && Enabled(s, Tick)
    ensures Inv(Apply(s, Tick), n)
  {
    hide Threads, Fifo, Submitted, Places, Promises, Tables, Pointers, Messages, Contents, Outcomes,
         Answers, WakeUps, Credits, Allowed, Batch;
    TickBatch(s);
  }

  lemma TickBatch(s: State)
    requires Batch(s.rest, s.counter, s.timer, s.rearmed, s.expired) && s.timer.pending
    ensures Batch(s.rest, s.counter, Expire(s.timer), s.rearmed, true)
  {
  }

  lemma WaitBatch(s: State, batch: seq<Event>)
    requires IsBatch(s, batch)
    ensures Batch(batch, s.counter, s.timer, false, false)
  {
  }

  lemma KeepWait(s: State, batch: seq<Event>, n: nat)
    requires Inv(s, n) && s.bg.Waiting? && IsBatch(s, batch)
    ensures Inv(Apply(s, Wait(batch)), n)
  {
    hide Threads, Fifo, Submitted, Places, Promises, Tables, Pointers, Messages, Contents, Outcomes,
         Answers, WakeUps, Credits, Allowed, Batch;
    WaitBatch(s, batch);
  }

  lemma RearmedBatch(s: State, timer: Timer)
    requires Batch(s.rest, s.counter, s.timer, s.rearmed, s.expired) && timer.ticks == 0
    ensures Batch(s.rest, s.counter, timer, true, false)
  {
  }

  lemma KeepClear(s: State, n: nat)
    requires Inv(s, n) && s.bg.Clearing?
    ensures Inv(DoClear(s), n)
  {
    hide Threads, Fifo, Submitted, Places, Promises, Tables, Pointers, Messages, Contents, Outcomes,
         Answers, WakeUps, Credits, Allowed, Batch;
    if s.stillRunning <= 0 {
      RearmedBatch(s, SetTime(DISARMED));
      return;
    } else {
      return;
    }
  }

  lemma KeepTimerRequest(s: State, ms: int, n: nat)
    requires Enabled(s, TimerRequest(ms)) && Inv(s, n)
    ensures Inv(Apply(s, TimerRequest(ms)), n)
  {
    hide Threads, Fifo, Submitted, Places, Promises, Tables, Pointers, Messages, Contents, Outcomes,
         Answers, WakeUps, Credits, Allowed, Batch;
    RearmedBatch(s, SetTime(Spec(ms)));
  }

  lemma NextBatch(s: State)
    requires Batch(s.rest, s.counter, s.timer, s.rearmed, s.expired) && s.rest != []
    ensures Batch(s.rest[1..], s.counter, s.timer, s.rearmed, s.expired)
    ensures s.rest[0].TimerReady? ==>
              Batch(s.rest[1..], s.counter, s.timer.(ticks := 0), s.rearmed, s.expired)
    ensures s.rest[0].QueueReady? ==> s.counter > 0 && Batch(s.rest[1..], 0, s.timer, s.rearmed, s.expired)
  {
    assert forall x :: x in s.rest[1..] ==> x in s.rest;
    assert s.rest[0] !in s.rest[1..];
  }

  lemma ReadCredits(s: State, n: nat)
    requires Credits(s.counter, s.writes, n)
    requires Allowed(s.writes, s.clients, InDrain(s.bg), s.pending, s.reqs)
    ensures var zeros: seq<nat> := seq(|s.writes|, i => 0);
            Credits(0, zeros, n) && Allowed(zeros, s.clients, true, s.pending, s.reqs)
  {
    SumZeros(seq(|s.writes|, i => 0));
  }

  lemma DrainWakeUps(s: State)
    requires WakeUps(s.pending, s.clients, s.reqs, Awake(s))
    ensures WakeUps(s.pending, s.clients, s.reqs, true)
  {
  }

  lemma KeepReadEvent(s: State, n: nat)
    requires Inv(s, n) && s.bg.Dispatch? && s.rest != [] && s.rest[0].QueueReady?
    ensures Inv(DoNext(s), n)
  {
    hide Threads, Fifo, Submitted, Places, Promises, Tables, Pointers, Messages, Contents, Outcomes,
         Answers, WakeUps, Credits, Allowed, Batch;
    NextBatch(s);
    ReadCredits(s, n);
    DrainWakeUps(s);
  }

  lemma KeepReadTimer(s: State, n: nat)
    requires Inv(s, n) && s.bg.Dispatch? && s.rest != [] && s.rest[0].TimerReady? && s.timer.ticks > 0
    ensures Inv(DoNext(s), n)
  {
    hide Threads, Fifo, Submitted, Places, Promises, Tables, Pointers, Messages, Contents, Outcomes,
         Answers, WakeUps, Credits, Allowed, Batch;
    NextBatch(s);
  }

  lemma KeepTimerFailure(s: State, n: nat)
    requires Inv(s, n) && s.bg.Dispatch? && s.rest != [] && s.rest[0].TimerReady? && s.timer.ticks == 0
    ensures Inv(DoNext(s), n)
  {
    hide Threads, Fifo, Submitted, Places, Promises, Tables, Pointers, Messages, Contents, Outcomes,
         Answers, WakeUps, Credits, Allowed, Batch;
    NextBatch(s);
  }

  lemma KeepNext(s: State, n: nat)
    requires Inv(s, n) && s.bg.Dispatch? && (s.rest == [] || s.rest[0].SocketReady?)
    ensures Inv(DoNext(s), n)
  {
    hide Threads, Fifo, Submitted, Places, Promises, Tables, Pointers, Messages, Contents, Outcomes,
         Answers, WakeUps, Credits, Allowed, Batch;
    if s.rest == [] {
      return;
    } else {
      NextBatch(s);
      return;
    }
  }

  // ---------- The drain ----------

  // The drain ends only with an empty queue.
  lemma PopParts(s: State, n: nat)
    requires s.bg.Draining? && Fifo(s.pushed, s.added, Hand(s.bg), s.pending)
    requires WakeUps(s.pending, s.clients, s.reqs, Awake(s))
    requires Places(s.ongoing, s.retired, s.added, Entering(s.bg), s.reqs)
    ensures var t := DoPop(s);
            && Fifo(t.pushed, t.added, Hand(t.bg), t.pending)
            && WakeUps(t.pending, t.clients, t.reqs, Awake(t))
            && Places(t.ongoing, t.retired, t.added, Entering(t.bg), t.reqs)
  {
    if s.pending == [] {
    } else {
      assert s.added + [] + s.pending == s.added + [s.pending[0]] + s.pending[1..];
    }
  }

  lemma PopAllowed(s: State)
    requires s.bg.Draining?
    requires Allowed(s.writes, s.clients, InDrain(s.bg), s.pending, s.reqs)
    ensures var t := DoPop(s); Allowed(t.writes, t.clients, InDrain(t.bg), t.pending, t.reqs)
  {
    if s.pending == [] {} else {}
  }

  lemma KeepPopLast(s: State, n: nat)
    requires Inv(s, n) && s.bg.Draining? && s.pending == []
    ensures Inv(DoPop(s), n)
  {
    hide Threads, Fifo, Submitted, Places, Promises, Tables, Pointers, Messages, Contents, Outcomes,
         Answers, WakeUps, Credits, Allowed, Batch;
    PopParts(s, n);
    PopAllowed(s);
  }

  lemma KeepPop(s: State, n: nat)
    requires Inv(s, n) && s.bg.Draining? && s.pending != []
    ensures Inv(DoPop(s), n)
  {
    hide Threads, Fifo, Submitted, Places, Promises, Tables, Pointers, Messages, Contents, Outcomes,
         Answers, WakeUps, Credits, Allowed, Batch;
    PopParts(s, n);
    PopAllowed(s);
  }

  lemma InsertPlaces(s: State)
    requires s.bg.InHand? && s.bg.r < |s.reqs| && s.reqs[s.bg.r].easy !in s.ongoing && s.bg.r !in s.retired
    requires Places(s.ongoing, s.retired, s.added, Entering(s.bg), s.reqs)
    requires Tables(s.ongoing, s.multi, s.running, s.job, Halfway(s.bg, s.reqs))
    ensures var t := DoInsert(s);
            && Places(t.ongoing, t.retired, t.added, Entering(t.bg), t.reqs)
            && Tables(t.ongoing, t.multi, t.running, t.job, Halfway(t.bg, t.reqs))
  {
    var t := DoInsert(s);
    forall r ensures IsOngoing(t.ongoing, t.reqs, r) <==> r == s.bg.r || IsOngoing(s.ongoing, s.reqs, r) {}
  }

  lemma KeepInsert(s: State, n: nat)
    requires Inv(s, n) && s.bg.InHand? && s.bg.r < |s.reqs|
    ensures Inv(DoInsert(s), n)
  {
    hide Threads, Fifo, Submitted, Places, Promises, Tables, Pointers, Messages, Contents, Outcomes,
         Answers, WakeUps, Credits, Allowed, Batch;
    HandUnfinished(s, n);
    HandleFree(s, n);
    InsertPlaces(s);
  }

  lemma PrivateAlreadySet(s: State, n: nat)
    requires Inv(s, n) && s.bg.Inserted?
    ensures s.bg.r < |s.reqs| && s.priv[s.reqs[s.bg.r].easy := s.bg.r] == s.priv
  {
    HandUnfinished(s, n);
  }

  lemma KeepSetPrivate(s: State, n: nat)
    requires s.bg.Inserted? && s.bg.r < |s.reqs| && Enabled(s, SetPrivate) && Inv(s, n)
    ensures Inv(Apply(s, SetPrivate), n)
  {
    hide Threads, Fifo, Submitted, Places, Promises, Tables, Pointers, Messages, Contents, Outcomes,
         Answers, WakeUps, Credits, Allowed, Batch;
    PrivateAlreadySet(s, n);
  }

  lemma AddParts(s: State, n: nat)
    requires s.bg.Adding? && s.bg.r < |s.reqs| && IsOngoing(s.ongoing, s.reqs, s.bg.r)
    requires Fifo(s.pushed, s.added, Hand(s.bg), s.pending)
    requires Places(s.ongoing, s.retired, s.added, Entering(s.bg), s.reqs)
    requires Tables(s.ongoing, s.multi, s.running, s.job, Halfway(s.bg, s.reqs))
    ensures var t := DoAddHandle(s);
            && s.reqs[s.bg.r].easy !in s.multi
            && Fifo(t.pushed, t.added, Hand(t.bg), t.pending)
            && Places(t.ongoing, t.retired, t.added, Entering(t.bg), t.reqs)
            && Tables(t.ongoing, t.multi, t.running, t.job, Halfway(t.bg, t.reqs))
  {
    assert s.reqs[s.bg.r].easy in Halfway(s.bg, s.reqs);
  }

  lemma AddMessages(s: State, n: nat)
    requires s.bg.Adding? && s.bg.r < |s.reqs| && s.reqs[s.bg.r].easy !in s.multi
    requires Messages(s.msgs, s.multi, s.running, Handled(s.bg))
    requires Outcomes(s.msgs, s.reqs, s.httpCode, s.job)
    ensures var t := DoAddHandle(s);
            && Messages(t.msgs, t.multi, t.running, Handled(t.bg))
            && Outcomes(t.msgs, t.reqs, t.httpCode, t.job)
  {
  }

  lemma AddingOngoing(s: State, n: nat)
    requires Inv(s, n) && s.bg.Adding?
    ensures IsOngoing(s.ongoing, s.reqs, s.bg.r)
  {
    assert IsOngoing(s.ongoing, s.reqs, Entering(s.bg)[0]);
  }

  lemma KeepAddHandle(s: State, n: nat)
    requires Inv(s, n) && s.bg.Adding? && s.bg.r < |s.reqs|
    ensures Inv(DoAddHandle(s), n)
  {
    hide Threads, Fifo, Submitted, Places, Promises, Tables, Pointers, Messages, Contents, Outcomes,
         Answers, WakeUps, Credits, Allowed, Batch;
    AddingOngoing(s, n);
    AddParts(s, n);
    AddMessages(s, n);
  }

  // ---------- CheckMulti ----------

  lemma KeepLeave(s: State, n: nat)
    requires Inv(s, n) && s.bg.Action?
    ensures Inv(Apply(s, Leave), n)
  {
    hide Threads, Fifo, Submitted, Places, Promises, Tables, Pointers, Messages, Contents, Outcomes,
         Answers, WakeUps, Credits, Allowed, Batch;
  }

  lemma ReadMessages(msgs: seq<Msg>, multi: set<Easy>, running: set<Easy>)
    requires Messages(msgs, multi, running, {}) && msgs != []
    ensures Messages(msgs[1..], multi, running, if msgs[0].Done? then {msgs[0].easy} else {})
  {
    var left := if msgs[0].Done? then {msgs[0].easy} else {};
    forall e | e in multi && e !in running && e !in left ensures HasDone(msgs[1..], e) {
      assert HasDone(msgs, e);
      var i :| 0 <= i < |msgs| && msgs[i].Done? && msgs[i].easy == e;
      assert msgs[1..][i - 1] == msgs[i];
    }
  }

  lemma ReadOutcomes(s: State)
    requires s.msgs != [] && Outcomes(s.msgs, s.reqs, s.httpCode, s.job)
    ensures Outcomes(s.msgs[1..], s.reqs, s.httpCode, s.job)
    ensures s.msgs[0].Done? ==> IsOutcome(s.reqs, s.httpCode, s.job, s.msgs[0].easy, s.msgs[0].result)
  {
  }

  lemma ReadEntry(s: State)
    requires s.bg.Checking? && s.msgs != [] && s.msgs[0].Done?
    requires Messages(s.msgs, s.multi, s.running, Handled(s.bg))
    requires Tables(s.ongoing, s.multi, s.running, s.job, Halfway(s.bg, s.reqs))
    ensures s.msgs[0].easy in s.ongoing
  {
  }

  lemma KeepReadDone(s: State, n: nat)
    requires Inv(s, n) && s.bg.Checking? && s.msgs != [] && s.msgs[0].Done?
    ensures Inv(DoReadMsg(s), n)
  {
    hide Threads, Fifo, Submitted, Places, Promises, Tables, Pointers, Messages, Contents, Outcomes,
         Answers, WakeUps, Credits, Allowed, Batch;
    ReadMessages(s.msgs, s.multi, s.running);
    ReadOutcomes(s);
    ReadEntry(s);
  }

  lemma KeepReadOther(s: State, n: nat)
    requires Inv(s, n) && s.bg.Checking? && s.msgs != [] && s.msgs[0].OtherMsg?
    ensures Inv(DoReadMsg(s), n)
  {
    hide Threads, Fifo, Submitted, Places, Promises, Tables, Pointers, Messages, Contents, Outcomes,
         Answers, WakeUps, Credits, Allowed, Batch;
    ReadMessages(s.msgs, s.multi, s.running);
    ReadOutcomes(s);
  }

  lemma KeepReadNoneSocket(s: State, n: nat)
    requires Inv(s, n) && s.bg == Checking(FromSocket) && s.msgs == []
    ensures Inv(DoReadMsg(s), n)
  {
    hide Threads, Fifo, Submitted, Places, Promises, Tables, Pointers, Messages, Contents, Outcomes,
         Answers, WakeUps, Credits, Allowed, Batch;
    assert DoReadMsg(s) == s.(bg := Clearing);
  }

  lemma KeepReadNoneTimer(s: State, n: nat)
    requires Inv(s, n) && s.bg == Checking(FromTimer) && s.msgs == []
    ensures Inv(DoReadMsg(s), n)
  {
    hide Threads, Fifo, Submitted, Places, Promises, Tables, Pointers, Messages, Contents, Outcomes,
         Answers, WakeUps, Credits, Allowed, Batch;
    assert DoReadMsg(s) == s.(bg := Dispatch);
  }

  lemma KeepReadNone(s: State, n: nat)
    requires Inv(s, n) && s.bg.Checking? && s.msgs == []
    ensures Inv(DoReadMsg(s), n)
  {
    hide Inv, DoReadMsg;
    if s.bg.k.FromSocket? { KeepReadNoneSocket(s, n); } else { KeepReadNoneTimer(s, n); }
  }

  lemma FillData(s: State, n: nat)
    requires s.bg.GotMsg? && s.bg.easy in s.httpCode && s.bg.easy in s.priv && s.priv[s.bg.easy] < |s.reqs|
    requires s.bg.easy in s.job && s.job[s.bg.easy] == s.priv[s.bg.easy]
    requires s.reqs[s.priv[s.bg.easy]].promise.None?
    requires Contents(s.reqs, Answering(s.bg)) && Answers(s.reqs)
    requires Outcomes(s.msgs, s.reqs, s.httpCode, s.job) && InProgress(s.bg, s.reqs, s.httpCode, s.job)
    ensures var t := DoFill(s);
            && SameButData(s.reqs, t.reqs)
            && (forall r {:trigger t.reqs[r]} :: 0 <= r < |s.reqs| ==> t.reqs[r].received == s.reqs[r].received)
            && Contents(t.reqs, Answering(t.bg)) && Answers(t.reqs)
            && Outcomes(t.msgs, t.reqs, t.httpCode, t.job) && InProgress(t.bg, t.reqs, t.httpCode, t.job)
  {
    var t := DoFill(s);
    var q := s.priv[s.bg.easy];
    assert Faithful(s.reqs[q]);
    forall r | 0 <= r < |s.reqs| && r != q ensures t.reqs[r] == s.reqs[r] {}
    assert IsAnswer(t.reqs[q], t.bg.resp);
  }

  lemma KeepFill(s: State, n: nat)
    requires Inv(s, n) && s.bg.GotMsg? && s.bg.easy in s.httpCode
    requires s.bg.easy in s.priv ==> s.priv[s.bg.easy] < |s.reqs|
    ensures Inv(DoFill(s), n)
  {
    hide Threads, Fifo, Submitted, Places, Promises, Tables, Pointers, Messages, Contents, Outcomes,
         Answers, WakeUps, Credits, Allowed, Batch;
    MessageRequest(s, n);
    FillData(s, n);
    SameRequests(s, DoFill(s).reqs);
    SameThreads(s, DoFill(s).reqs, n);
  }

  lemma SetValueThreads(s: State, n: nat)
    requires s.bg.Filled? && s.bg.r < |s.reqs| && s.reqs[s.bg.r].promise.None?
    requires Threads(n, s.clients, s.reqs) && Submitted(s.pushed, s.clients, s.reqs)
    ensures var t := DoSetValue(s); Threads(n, t.clients, t.reqs) && Submitted(t.pushed, t.clients, t.reqs)
  {
    assert s.reqs[s.bg.r].received.None?;
  }

  lemma SetValueWakeUps(s: State, n: nat)
    requires s.bg.Filled? && s.bg.r < |s.reqs| && s.reqs[s.bg.r].promise.None?
    requires WakeUps(s.pending, s.clients, s.reqs, Awake(s))
    ensures var t := DoSetValue(s); WakeUps(t.pending, t.clients, t.reqs, Awake(t))
  {
  }

  lemma SetValuePointers(s: State, n: nat)
    requires s.bg.Filled? && s.bg.r < |s.reqs| && s.reqs[s.bg.r].promise.None?
    requires Promises(s.reqs, s.retired, Leaving(s.bg)) && Pointers(s.reqs, s.priv, s.target)
    ensures var t := DoSetValue(s);
            Promises(t.reqs, t.retired, Leaving(t.bg)) && Pointers(t.reqs, t.priv, t.target)
  {
  }

  lemma SetValueAllowed(s: State, n: nat)
    requires s.bg.Filled? && s.bg.r < |s.reqs| && s.reqs[s.bg.r].promise.None?
    requires Allowed(s.writes, s.clients, InDrain(s.bg), s.pending, s.reqs)
    ensures var t := DoSetValue(s); Allowed(t.writes, t.clients, InDrain(t.bg), t.pending, t.reqs)
  {
  }

  lemma SetValuePlaces(s: State, n: nat)
    requires s.bg.Filled? && s.bg.r < |s.reqs| && s.reqs[s.bg.r].promise.None?
    requires Places(s.ongoing, s.retired, s.added, Entering(s.bg), s.reqs)
    ensures var t := DoSetValue(s); Places(t.ongoing, t.retired, t.added, Entering(t.bg), t.reqs)
  {
    var t := DoSetValue(s);
    forall r ensures IsOngoing(t.ongoing, t.reqs, r) <==> IsOngoing(s.ongoing, s.reqs, r) {}
  }

  lemma SetValueData(s: State, n: nat)
    requires s.bg.Filled? && s.bg.r < |s.reqs| && s.reqs[s.bg.r].promise.None?
    requires Contents(s.reqs, Answering(s.bg)) && Answers(s.reqs)
    requires Outcomes(s.msgs, s.reqs, s.httpCode, s.job) && InProgress(s.bg, s.reqs, s.httpCode, s.job)
    ensures var t := DoSetValue(s);
            && Contents(t.reqs, Answering(t.bg)) && Answers(t.reqs)
            && Outcomes(t.msgs, t.reqs, t.httpCode, t.job) && InProgress(t.bg, t.reqs, t.httpCode, t.job)
  {
    var t := DoSetValue(s);
    forall r | 0 <= r < |s.reqs| && r != s.bg.r ensures t.reqs[r] == s.reqs[r] {}
    assert IsAnswer(t.reqs[s.bg.r], s.bg.resp);
  }

  // The request being answered is still unanswered.
  lemma FilledUnanswered(s: State, n: nat)
    requires Inv(s, n) && s.bg.Filled?
    ensures s.bg.r < |s.reqs| && s.reqs[s.bg.r].promise.None?
  {
    assert IsOngoing(s.ongoing, s.reqs, s.ongoing[s.bg.easy]);
  }

  lemma KeepSetValue(s: State, n: nat)
    requires Inv(s, n) && s.bg.Filled? && s.bg.r < |s.reqs|
    ensures Inv(DoSetValue(s), n)
  {
    hide Threads, Fifo, Submitted, Places, Promises, Tables, Pointers, Messages, Contents, Outcomes,
         Answers, WakeUps, Credits, Allowed, Batch;
    FilledUnanswered(s, n);
    SetValueThreads(s, n);
    SetValueWakeUps(s, n);
    SetValuePointers(s, n);
    SetValueAllowed(s, n);
    SetValuePlaces(s, n);
    SetValueData(s, n);
  }

  lemma RemoveParts(s: State, n: nat)
    requires s.bg.Settled?
    requires Tables(s.ongoing, s.multi, s.running, s.job, Halfway(s.bg, s.reqs))
    requires Messages(s.msgs, s.multi, s.running, Handled(s.bg))
    ensures var t := Apply(s, RemoveHandle);
            && Tables(t.ongoing, t.multi, t.running, t.job, Halfway(t.bg, t.reqs))
            && Messages(t.msgs, t.multi, t.running, Handled(t.bg))
            && t.running == s.running
  {
    assert s.bg.easy in Handled(s.bg);
  }

  lemma KeepRemoveHandle(s: State, n: nat)
    requires s.bg.Settled? && Enabled(s, RemoveHandle) && Inv(s, n)
    ensures Inv(Apply(s, RemoveHandle), n)
  {
    hide Threads, Fifo, Submitted, Places, Promises, Tables, Pointers, Messages, Contents, Outcomes,
         Answers, WakeUps, Credits, Allowed, Batch;
    RemoveParts(s, n);
  }

  lemma ErasePlaces(s: State, n: nat)
    requires s.bg.Removed? && OnEntry(s.bg, s.ongoing)
    requires Places(s.ongoing, s.retired, s.added, Entering(s.bg), s.reqs)
    requires Tables(s.ongoing, s.multi, s.running, s.job, Halfway(s.bg, s.reqs))
    requires Promises(s.reqs, s.retired, Leaving(s.bg))
    ensures var t := DoErase(s);
            && Places(t.ongoing, t.retired, t.added, Entering(t.bg), t.reqs)
            && Tables(t.ongoing, t.multi, t.running, t.job, Halfway(t.bg, t.reqs))
            && Promises(t.reqs, t.retired, Leaving(t.bg))
  {
    var t := DoErase(s);
    assert IsOngoing(s.ongoing, s.reqs, s.bg.r);
    forall r ensures IsOngoing(t.ongoing, t.reqs, r) <==> r != s.bg.r && IsOngoing(s.ongoing, s.reqs, r) {}
    assert forall r :: r in t.retired <==> r in s.retired || r == s.bg.r;
  }

  lemma KeepErase(s: State, n: nat)
    requires Inv(s, n) && s.bg.Removed?
    ensures Inv(DoErase(s), n)
  {
    hide Threads, Fifo, Submitted, Places, Promises, Tables, Pointers, Messages, Contents, Outcomes,
         Answers, WakeUps, Credits, Allowed, Batch;
    ErasePlaces(s, n);
  }

  // ---------- libcurl ----------

  lemma DeliverData(s: State, easy: Easy, chunk: Chunk, n: nat)
    requires easy in s.target && easy in s.job && s.target[easy] == s.job[easy] < |s.reqs|
    requires Absorb(s.reqs[s.target[easy]].info, chunk).Ok? && s.reqs[s.target[easy]].promise.None?
    requires s.bg.Action?
    requires Contents(s.reqs, Answering(s.bg)) && Answers(s.reqs)
    requires Outcomes(s.msgs, s.reqs, s.httpCode, s.job)
    ensures var t := DoDeliver(s, easy, chunk);
            && SameButData(s.reqs, t.reqs)
            && (forall r {:trigger t.reqs[r]} :: 0 <= r < |s.reqs| ==> t.reqs[r].received == s.reqs[r].received)
            && Contents(t.reqs, Answering(t.bg)) && Answers(t.reqs)
            && Outcomes(t.msgs, t.reqs, t.httpCode, t.job)
  {
    var t := DoDeliver(s, easy, chunk);
    var q := s.target[easy];
    assert Faithful(s.reqs[q]);
    AbsorbAllStep(NewInfo(s.reqs[q].url), s.reqs[q].wire, chunk);
    forall r | 0 <= r < |s.reqs| && r != q ensures t.reqs[r] == s.reqs[r] {}
    assert Faithful(t.reqs[q]);
  }

  lemma KeepDeliver(s: State, easy: Easy, chunk: Chunk, n: nat)
    requires Inv(s, n) && Enabled(s, Deliver(easy, chunk))
    ensures Inv(DoDeliver(s, easy, chunk), n)
  {
    hide Threads, Fifo, Submitted, Places, Promises, Tables, Pointers, Messages, Contents, Outcomes,
         Answers, WakeUps, Credits, Allowed, Batch;
    RunningRequest(s, easy, n);
    DeliverData(s, easy, chunk, n);
    SameRequests(s, DoDeliver(s, easy, chunk).reqs);
    SameThreads(s, DoDeliver(s, easy, chunk).reqs, n);
  }

  lemma FinishMessages(s: State, easy: Easy, result: nat, code: nat)
    requires s.bg.Action? && easy in s.running && easy in s.job && s.job[easy] < |s.reqs|
    requires Messages(s.msgs, s.multi, s.running, Handled(s.bg))
    requires Tables(s.ongoing, s.multi, s.running, s.job, Halfway(s.bg, s.reqs))
    ensures var t := DoFinish(s, easy, result, code);
            && Messages(t.msgs, t.multi, t.running, Handled(t.bg))
            && Tables(t.ongoing, t.multi, t.running, t.job, Halfway(t.bg, t.reqs))
  {
    var t := DoFinish(s, easy, result, code);
    forall e | e in s.multi && e !in t.running ensures HasDone(t.msgs, e) {
      if e == easy {
        assert t.msgs[|s.msgs|] == Done(easy, result);
      } else {
        assert HasDone(s.msgs, e);
        var i :| 0 <= i < |s.msgs| && s.msgs[i].Done? && s.msgs[i].easy == e;
        assert t.msgs[i] == s.msgs[i];
      }
    }
  }

  lemma FinishData(s: State, easy: Easy, result: nat, code: nat)
    requires s.bg.Action? && easy in s.running && easy in s.job && s.job[easy] < |s.reqs|
    requires s.reqs[s.job[easy]].promise.None? && easy in s.ongoing && s.job[easy] == s.ongoing[easy]
    requires Messages(s.msgs, s.multi, s.running, Handled(s.bg))
    requires Tables(s.ongoing, s.multi, s.running, s.job, Halfway(s.bg, s.reqs))
    requires Places(s.ongoing, s.retired, s.added, Entering(s.bg), s.reqs)
    requires Contents(s.reqs, Answering(s.bg)) && Answers(s.reqs)
    requires Outcomes(s.msgs, s.reqs, s.httpCode, s.job)
    ensures var t := DoFinish(s, easy, result, code);
            && SameButData(s.reqs, t.reqs)
            && (forall r {:trigger t.reqs[r]} :: 0 <= r < |s.reqs| ==> t.reqs[r].received == s.reqs[r].received)
            && Contents(t.reqs, Answering(t.bg)) && Answers(t.reqs)
            && Outcomes(t.msgs, t.reqs, t.httpCode, t.job)
  {
    var t := DoFinish(s, easy, result, code);
    var q := s.job[easy];
    forall r | 0 <= r < |s.reqs| && r != q ensures t.reqs[r] == s.reqs[r] {}
    assert Faithful(t.reqs[q]) == Faithful(s.reqs[q]);
  }

  lemma KeepFinish(s: State, easy: Easy, result: nat, code: nat, n: nat)
    requires Inv(s, n) && Enabled(s, Finish(easy, result, code))
    ensures Inv(DoFinish(s, easy, result, code), n)
  {
    hide Threads, Fifo, Submitted, Places, Promises, Tables, Pointers, Messages, Contents, Outcomes,
         Answers, WakeUps, Credits, Allowed, Batch;
    RunningRequest(s, easy, n);
    FinishMessages(s, easy, result, code);
    FinishData(s, easy, result, code);
    SameRequests(s, DoFinish(s, easy, result, code).reqs);
    SameThreads(s, DoFinish(s, easy, result, code).reqs, n);
  }

  lemma OtherMessages(s: State)
    requires Messages(s.msgs, s.multi, s.running, Handled(s.bg))
    requires Outcomes(s.msgs, s.reqs, s.httpCode, s.job)
    ensures Messages(s.msgs + [OtherMsg], s.multi, s.running, Handled(s.bg))
    ensures Outcomes(s.msgs + [OtherMsg], s.reqs, s.httpCode, s.job)
  {
    forall e | HasDone(s.msgs, e) ensures HasDone(s.msgs + [OtherMsg], e) {
      var i :| 0 <= i < |s.msgs| && s.msgs[i].Done? && s.msgs[i].easy == e;
      assert (s.msgs + [OtherMsg])[i] == s.msgs[i];
    }
  }

  lemma KeepEnqueueOther(s: State, n: nat)
    requires Inv(s, n) && s.bg.Action?
    ensures Inv(Apply(s, EnqueueOther), n)
  {
    hide Threads, Fifo, Submitted, Places, Promises, Tables, Pointers, Messages, Contents, Outcomes,
         Answers, WakeUps, Credits, Allowed, Batch;
    OtherMessages(s);
  }

  // ---------- All together ----------

  lemma InitThreads(n: nat)
    ensures var s := Init(n);
            && Threads(n, s.clients, s.reqs) && Submitted(s.pushed, s.clients, s.reqs)
            && Credits(s.counter, s.writes, n) && Allowed(s.writes, s.clients, InDrain(s.bg), s.pending, s.reqs)
  {
    SumZeros(Init(n).writes);
  }

  lemma InitTables(n: nat)
    ensures var s := Init(n);
            && Fifo(s.pushed, s.added, Hand(s.bg), s.pending)
            && Places(s.ongoing, s.retired, s.added, Entering(s.bg), s.reqs)
            && Promises(s.reqs, s.retired, Leaving(s.bg))
            && Tables(s.ongoing, s.multi, s.running, s.job, Halfway(s.bg, s.reqs))
            && Pointers(s.reqs, s.priv, s.target) && WakeUps(s.pending, s.clients, s.reqs, Awake(s))
  {
  }

  lemma InitData(n: nat)
    ensures var s := Init(n);
            && Messages(s.msgs, s.multi, s.running, Handled(s.bg))
            && Contents(s.reqs, Answering(s.bg)) && Answers(s.reqs)
            && Outcomes(s.msgs, s.reqs, s.httpCode, s.job)
            && Batch(s.rest, s.counter, s.timer, s.rearmed, s.expired)
  {
  }

  lemma InitInv(n: nat)
    ensures Inv(Init(n), n)
  {
    hide Threads, Fifo, Submitted, Places, Promises, Tables, Pointers, Messages, Contents, Outcomes,
         Answers, WakeUps, Credits, Allowed, Batch;
    InitThreads(n);
    InitTables(n);
    InitData(n);
  }

  lemma Sizes(s: State, n: nat)
    requires Inv(s, n)
    ensures |s.clients| == |s.writes| == n
  {
  }

  lemma KeepClient(s: State, a: Action, n: nat)
    requires Inv(s, n) && Enabled(s, a) && Disciplined(s, a)
    requires a.Build? || a.Push? || a.Write? || a.Return?
    ensures Inv(Apply(s, a), n)
  {
    hide Threads, Fifo, Submitted, Places, Promises, Tables, Pointers, Messages, Contents, Outcomes,
         Answers, WakeUps, Credits, Allowed, Batch;
    Sizes(s, n);
    match a
    case Build(c, easy, url) => KeepBuild(s, c, easy, url, n);
    case Push(c) => KeepPush(s, c, n);
    case Write(c) => if s.counter + 1 > EVENTFD_MAX { KeepWriteFailing(s, c, n); } else { KeepWrite(s, c, n); }
    case Return(c) => KeepReturn(s, c, n);
  }

  lemma KeepDrain(s: State, a: Action, n: nat)
    requires Inv(s, n) && Enabled(s, a)
    requires a.Next? || a.Pop? || a.Insert? || a.SetPrivate? || a.AddHandle?
    ensures Inv(Apply(s, a), n)
  {
    hide Threads, Fifo, Submitted, Places, Promises, Tables, Pointers, Messages, Contents, Outcomes,
         Answers, WakeUps, Credits, Allowed, Batch;
    match a
    case Next =>
      if s.rest == [] || s.rest[0].SocketReady? { KeepNext(s, n); }
      else if s.rest[0].QueueReady? { KeepReadEvent(s, n); }
      else if s.timer.ticks > 0 { KeepReadTimer(s, n); }
      else { KeepTimerFailure(s, n); }
    case Pop => if s.pending == [] { KeepPopLast(s, n); } else { KeepPop(s, n); }
    case Insert => KeepInsert(s, n);
    case SetPrivate => KeepSetPrivate(s, n);
    case AddHandle => KeepAddHandle(s, n);
  }

  lemma KeepCheck(s: State, a: Action, n: nat)
    requires Inv(s, n) && Enabled(s, a)
    requires a.Leave? || a.ReadMsg? || a.Fill? || a.SetValue? || a.RemoveHandle? || a.Erase? || a.Clear?
    ensures Inv(Apply(s, a), n)
  {
    hide Threads, Fifo, Submitted, Places, Promises, Tables, Pointers, Messages, Contents, Outcomes,
         Answers, WakeUps, Credits, Allowed, Batch;
    match a
    case Leave => KeepLeave(s, n);
    case ReadMsg =>
      if s.msgs == [] { KeepReadNone(s, n); }
      else if s.msgs[0].Done? { KeepReadDone(s, n); }
      else { KeepReadOther(s, n); }
    case Fill => KeepFill(s, n);
    case SetValue => KeepSetValue(s, n);
    case RemoveHandle => KeepRemoveHandle(s, n);
    case Erase => KeepErase(s, n);
    case Clear => KeepClear(s, n);
  }

  lemma KeepCurl(s: State, a: Action, n: nat)
    requires Inv(s, n) && Enabled(s, a)
    requires a.Tick? || a.Wait? || a.TimerRequest? || a.Deliver? || a.Finish? || a.EnqueueOther?
    ensures Inv(Apply(s, a), n)
  {
    hide Threads, Fifo, Submitted, Places, Promises, Tables, Pointers, Messages, Contents, Outcomes,
         Answers, WakeUps, Credits, Allowed, Batch;
    match a
    case Tick => KeepTick(s, n);
    case Wait(batch) => KeepWait(s, batch, n);
    case TimerRequest(ms) => KeepTimerRequest(s, ms, n);
    case Deliver(easy, chunk) => KeepDeliver(s, easy, chunk, n);
    case Finish(easy, result, code) => KeepFinish(s, easy, result, code, n);
    case EnqueueOther => KeepEnqueueOther(s, n);
  }

  lemma KeepInv(s: State, a: Action, n: nat)
    requires Inv(s, n) && Enabled(s, a) && Disciplined(s, a)
    ensures Inv(Apply(s, a), n)
  {
    hide Threads, Fifo, Submitted, Places, Promises, Tables, Pointers, Messages, Contents, Outcomes,
         Answers, WakeUps, Credits, Allowed, Batch;
    if a.Build? || a.Push? || a.Write? || a.Return? {
      KeepClient(s, a, n);
    } else if a.Next? || a.Pop? || a.Insert? || a.SetPrivate? || a.AddHandle? {
      KeepDrain(s, a, n);
    } else if a.Leave? || a.ReadMsg? || a.Fill? || a.SetValue? || a.RemoveHandle? || a.Erase? || a.Clear? {
      KeepCheck(s, a, n);
    } else {
      KeepCurl(s, a, n);
    }
  }

  /** The invariant holds after every run of any number of threads, in any interleaving. */
  lemma {:induction false} RunInv(n: nat, acts: seq<Action>, s: State)
    requires Runs(n, acts, s) && AllDisciplined(Init(n), acts)
    ensures Inv(s, n)
  {
    if acts == [] {
      InitInv(n);
    } else {
      var before := Exec(Init(n), acts[..|acts| - 1]).value;
      DisciplinedSplit(Init(n), acts);
      RunInv(n, acts[..|acts| - 1], before);
      KeepInv(before, acts[|acts| - 1], n);
    }
  }
}
