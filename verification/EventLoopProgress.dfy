/** No client is ever stranded: from every state in which the loop waits, the run can go on so
    that each call of HandleRequest returns. */
module EventLoopProgress {
  import opened Wrappers
  import opened EventLoop
  import opened EventLoopInvariant
  import opened EventLoopSteps
  import opened EventLoopTheorems
  import opened EventLoopRuns

  // The loop is in epoll_wait and no write has failed.
  ghost predicate AtRest(s: State, n: nat) {
    && s.bg == Waiting && |s.clients| == n
    && forall c :: 0 <= c < n ==> !s.clients[c].WriteFailed?
  }

  // How far a client is with its request.
  function Stage(pc: ClientPc, reqs: seq<Request>): nat {
    match pc
    case Built(_) => 4
    case Pushed(_) => 3
    case WriteFailed(_) => 3
    case Blocked(r) => if r < |reqs| && reqs[r].promise.Some? then 1 else 2
    case Idle => 0
  }

  // The first k clients are past some stage.
  ghost predicate Past(clients: seq<ClientPc>, reqs: seq<Request>, k: nat, stage: nat) {
    k <= |clients| && forall c :: 0 <= c < k ==> Stage(clients[c], reqs) <= stage
  }

  lemma OwnRequest(s: State, n: nat, c: nat)
    requires Inv(s, n) && c < n && c < |s.clients| && !s.clients[c].Idle?
    ensures s.clients[c].r < |s.reqs| && s.reqs[s.clients[c].r].client == c
  {
  }

  lemma PushOne(o: State, n: nat, s: State, c: nat) returns (t: State)
    requires Follows(o, n, s) && AtRest(s, n) && c < n
    ensures Follows(o, n, t) && AtRest(t, n) && t.reqs == s.reqs
    ensures t.clients == s.clients[c := t.clients[c]] && Stage(t.clients[c], t.reqs) <= 3
  {
    hide Inv, Leads;
    t := s;
    if s.clients[c].Built? {
      StepFollows(o, n, s, Push(c));
      t := DoPush(s, c);
    }
  }

  lemma {:induction false} PushAll(o: State, n: nat, s: State, k: nat) returns (t: State)
    requires Follows(o, n, s) && AtRest(s, n) && k <= n
    ensures Follows(o, n, t) && AtRest(t, n) && Past(t.clients, t.reqs, k, 3)
  {
    hide Inv, Leads;
    if k == 0 {
      t := s;
    } else {
      var m := PushAll(o, n, s, k - 1);
      t := PushOne(o, n, m, k - 1);
    }
  }

  lemma WriteOne(o: State, n: nat, s: State, c: nat) returns (t: State)
    requires Follows(o, n, s) && AtRest(s, n) && c < n && 3 * n <= EVENTFD_MAX && Stage(s.clients[c], s.reqs) <= 3
    ensures Follows(o, n, t) && AtRest(t, n) && t.reqs == s.reqs
    ensures t.clients == s.clients[c := t.clients[c]] && Stage(t.clients[c], t.reqs) <= 2
  {
    hide Inv, Leads;
    FollowsInv(o, n, s);
    t := s;
    if s.clients[c].Pushed? {
      RoomToWrite(s, n, c);
      t := WriteNow(o, n, s, c);
    }
  }

  lemma {:induction false} WriteAll(o: State, n: nat, s: State, k: nat) returns (t: State)
    requires Follows(o, n, s) && AtRest(s, n) && k <= n && 3 * n <= EVENTFD_MAX && Past(s.clients, s.reqs, n, 3)
    ensures Follows(o, n, t) && AtRest(t, n) && Past(t.clients, t.reqs, n, 3) && Past(t.clients, t.reqs, k, 2)
  {
    hide Inv, Leads;
    if k == 0 {
      t := s;
    } else {
      var m := WriteAll(o, n, s, k - 1);
      t := WriteOne(o, n, m, k - 1);
    }
  }

  // With nobody about to write, a queued request keeps the eventfd readable.
  lemma Readable(s: State, n: nat)
    requires Inv(s, n) && AtRest(s, n) && Past(s.clients, s.reqs, n, 2) && s.pending != []
    ensures s.counter > 0
  {
    assert s.reqs[s.pending[0]].client < |s.clients|;
  }

  lemma StageKept(clients: seq<ClientPc>, reqs: seq<Request>, later: seq<Request>, k: nat, stage: nat)
    requires Past(clients, reqs, k, stage) && |later| == |reqs|
    requires forall r :: 0 <= r < |reqs| ==> (reqs[r].promise.Some? ==> later[r].promise.Some?)
    ensures Past(clients, later, k, stage)
  {
    forall c | 0 <= c < k ensures Stage(clients[c], later) <= stage {
      assert Stage(clients[c], later) <= Stage(clients[c], reqs);
    }
  }

  lemma DrainQueue(o: State, n: nat, s: State) returns (t: State)
    requires Follows(o, n, s) && AtRest(s, n) && Past(s.clients, s.reqs, n, 2)
    ensures Follows(o, n, t) && AtRest(t, n) && Past(t.clients, t.reqs, n, 2) && t.pending == []
  {
    hide Inv, Leads, Past;
    FollowsInv(o, n, s);
    if s.pending == [] {
      t := s;
    } else {
      Readable(s, n);
      t := Wake(o, n, s);
      t := ServeAll(o, n, t);
      t := EndDrain(o, n, t);
      StageKept(s.clients, s.reqs, t.reqs, n, 2);
    }
  }

  // With the queue empty, an unanswered request whose client waits is running in libcurl.
  lemma OpenIsRunning(s: State, n: nat, r: Req)
    requires Inv(s, n) && s.bg == Waiting && s.pending == []
    requires r < |s.reqs| && s.reqs[r].promise.None? && s.reqs[r].client < |s.clients|
    requires s.clients[s.reqs[r].client] != Built(r)
    ensures s.reqs[r].easy in s.running && s.msgs == []
  {
    NoDupParts(s.pushed, s.added, Hand(s.bg), s.pending);
    assert r in s.pushed && IsOngoing(s.ongoing, s.reqs, r);
    assert !HasDone(s.msgs, s.reqs[r].easy);
  }

  lemma AnswerOne(o: State, n: nat, s: State, c: nat) returns (t: State)
    requires Follows(o, n, s) && AtRest(s, n) && c < n && s.pending == [] && Stage(s.clients[c], s.reqs) <= 2
    ensures Follows(o, n, t) && AtRest(t, n) && t.pending == [] && t.clients == s.clients && |t.reqs| == |s.reqs|
    ensures forall r :: 0 <= r < |s.reqs| ==> (s.reqs[r].promise.Some? ==> t.reqs[r].promise.Some?)
    ensures Stage(t.clients[c], t.reqs) <= 1
  {
    hide Inv, Leads;
    FollowsInv(o, n, s);
    t := s;
    if s.clients[c].Blocked? {
      OwnRequest(s, n, c);
      var r := s.clients[c].r;
      if s.reqs[r].promise.None? {
        OpenIsRunning(s, n, r);
        t := Complete(o, n, s, r);
      }
    }
  }

  lemma {:induction false} AnswerAll(o: State, n: nat, s: State, k: nat) returns (t: State)
    requires Follows(o, n, s) && AtRest(s, n) && k <= n && s.pending == [] && Past(s.clients, s.reqs, n, 2)
    ensures Follows(o, n, t) && AtRest(t, n) && t.pending == []
    ensures Past(t.clients, t.reqs, n, 2) && Past(t.clients, t.reqs, k, 1)
  {
    hide Inv, Leads;
    if k == 0 {
      t := s;
    } else {
      var m := AnswerAll(o, n, s, k - 1);
      t := AnswerOne(o, n, m, k - 1);
      StageKept(m.clients, m.reqs, t.reqs, n, 2);
      StageKept(m.clients, m.reqs, t.reqs, k - 1, 1);
    }
  }

  lemma ReturnOne(o: State, n: nat, s: State, c: nat) returns (t: State)
    requires Follows(o, n, s) && AtRest(s, n) && c < n && Stage(s.clients[c], s.reqs) <= 1
    ensures Follows(o, n, t) && AtRest(t, n) && |t.reqs| == |s.reqs|
    ensures forall r :: 0 <= r < |s.reqs| ==> t.reqs[r].promise == s.reqs[r].promise
    ensures t.clients == s.clients[c := Idle]
  {
    hide Inv, Leads;
    t := s;
    if s.clients[c].Blocked? {
      t := ReturnNow(o, n, s, c);
    }
  }

  lemma {:induction false} ReturnAll(o: State, n: nat, s: State, k: nat) returns (t: State)
    requires Follows(o, n, s) && AtRest(s, n) && k <= n && Past(s.clients, s.reqs, n, 1)
    ensures Follows(o, n, t) && AtRest(t, n) && Past(t.clients, t.reqs, n, 1)
    ensures forall c :: 0 <= c < k ==> t.clients[c].Idle?
  {
    hide Inv, Leads;
    if k == 0 {
      t := s;
    } else {
      var m := ReturnAll(o, n, s, k - 1);
      t := ReturnOne(o, n, m, k - 1);
      StageKept(m.clients, m.reqs, t.reqs, n, 1);
      assert forall c :: 0 <= c < n ==> Stage(t.clients[c], t.reqs) <= Stage(m.clients[c], t.reqs);
    }
  }

  lemma NoFailedWrite(n: nat, s: State)
    requires Reachable(n, s) && 3 * n <= EVENTFD_MAX
    ensures |s.clients| == n && forall c :: 0 <= c < n ==> !s.clients[c].WriteFailed?
  {
    hide Inv;
    var acts :| Exec(Init(n), acts) == Some(s) && AllDisciplined(Init(n), acts);
    WritesSucceed(n, acts, s);
  }

  // Every client can be brought out of HandleRequest.
  ghost predicate AllCanReturn(s: State, n: nat) {
    exists t :: Leads(s, t) && t.bg == Waiting && |t.clients| == n && forall c :: 0 <= c < n ==> t.clients[c].Idle?
  }

  /** Whatever has happened before, when the loop is back in epoll_wait some continuation brings
      every client out of HandleRequest: there is no deadlock, and no lost request. */
  lemma EveryCallCanReturn(n: nat, s: State)
    requires Reachable(n, s) && s.bg.Waiting? && 3 * n <= EVENTFD_MAX
    ensures AllCanReturn(s, n)
  {
    hide Inv, Leads, Past;
    NoFailedWrite(n, s);
    InitFollows(n);
    FollowsInv(Init(n), n, s);
    StartFollows(s, n);
    var t := PushAll(s, n, s, n);
    t := WriteAll(s, n, t, n);
    t := DrainQueue(s, n, t);
    t := AnswerAll(s, n, t, n);
    t := ReturnAll(s, n, t, n);
  }
}
