/** How far the eventfd counter really goes: three per client with two clients or more, and
    one with a single client. */
module EventfdExtremes {
  import opened Wrappers
  import opened EventLoop
  import opened EventLoopInvariant
  import opened EventLoopSteps
  import opened EventLoopTheorems
  import opened EventLoopRuns

  // ---------- Rounds of all clients ----------

  // The handle client c uses.
  function Handle(c: nat): Easy {
    Easy(c)
  }

  // The loop has nothing in hand but what is in the queue.
  predicate Quiet(s: State) {
    s.rest == [] && s.msgs == []
  }

  predicate IsAnswered(reqs: seq<Request>, r: Req) {
    r < |reqs| && reqs[r].promise.Some?
  }

  predicate IsOpen(reqs: seq<Request>, r: Req) {
    r < |reqs| && reqs[r].promise.None?
  }

  // Old requests are as before.
  ghost predicate Grown(reqs: seq<Request>, later: seq<Request>) {
    && |reqs| <= |later|
    && forall r :: 0 <= r < |reqs| ==> later[r].promise == reqs[r].promise && later[r].easy == reqs[r].easy
  }

  // Every client uses its own handle.
  ghost predicate Own(reqs: seq<Request>) {
    forall r :: 0 <= r < |reqs| ==> reqs[r].easy == Handle(reqs[r].client)
  }

  // Then the handle of an idle client is free.
  lemma FreeHandle(s: State, n: nat, c: nat)
    requires Inv(s, n) && Own(s.reqs) && c < |s.clients| && s.clients[c].Idle?
    ensures AllAnswered(s.reqs, Handle(c))
  {
    forall r | 0 <= r < |s.reqs| && s.reqs[r].easy == Handle(c) ensures s.reqs[r].promise.Some? {
      assert s.reqs[r].client == c && s.reqs[r].received.Some?;
    }
  }

  lemma SubmitOwn(o: State, n: nat, s: State, c: nat) returns (t: State)
    requires Follows(o, n, s) && !s.bg.Failed? && c < |s.clients| && s.clients[c].Idle? && Own(s.reqs)
    ensures Follows(o, n, t) && SameLoop(s, t) && t.counter == s.counter
    ensures t.clients == s.clients[c := Pushed(|s.reqs|)] && t.pending == s.pending + [|s.reqs|]
    ensures |t.reqs| == |s.reqs| + 1 && Grown(s.reqs, t.reqs) && Own(t.reqs)
    ensures t.reqs[|s.reqs|].easy == Handle(c) && t.reqs[|s.reqs|].promise.None?
  {
    hide Inv, Leads;
    FollowsInv(o, n, s);
    FreeHandle(s, n, c);
    t := Submit(o, n, s, c, Handle(c));
  }

  // The queued requests are open and on handles of their own.
  ghost predicate OpenQueue(pending: seq<Req>, reqs: seq<Request>) {
    && (forall i :: 0 <= i < |pending| ==> IsOpen(reqs, pending[i]))
    && (forall i, j :: 0 <= i < j < |pending| ==> reqs[pending[i]].easy != reqs[pending[j]].easy)
  }

  lemma {:induction false} CompleteAll(o: State, n: nat, s: State, rs: seq<Req>) returns (t: State)
    requires Follows(o, n, s) && s.bg == Waiting && s.msgs == [] && OpenQueue(rs, s.reqs)
    requires forall i :: 0 <= i < |rs| ==> s.reqs[rs[i]].easy in s.running
    ensures Follows(o, n, t) && t.bg == Waiting && t.msgs == [] && t.pending == s.pending
    ensures t.counter == s.counter && t.clients == s.clients && |t.reqs| == |s.reqs|
    ensures forall q :: 0 <= q < |s.reqs| ==>
              SameRequest(s.reqs[q], t.reqs[q]) && (q !in rs ==> t.reqs[q].promise == s.reqs[q].promise)
    ensures forall i :: 0 <= i < |rs| ==> IsAnswered(t.reqs, rs[i])
    ensures forall e :: e in s.running && (forall i :: 0 <= i < |rs| ==> s.reqs[rs[i]].easy != e) ==> e in t.running
    decreases |rs|
  {
    hide Leads, Inv;
    if rs == [] {
      return s;
    }
    var last := |rs| - 1;
    var m := CompleteAll(o, n, s, rs[..last]);
    assert rs[last] !in rs[..last];
    t := Complete(o, n, m, rs[last]);
  }

  // A whole drain and the transfers it started: everything queued gets its answer.
  lemma Round(o: State, n: nat, s: State) returns (t: State)
    requires Follows(o, n, s) && s.bg == Draining && Quiet(s) && OpenQueue(s.pending, s.reqs)
    ensures Follows(o, n, t) && t.bg == Waiting && t.msgs == [] && t.pending == []
    ensures t.counter == s.counter && t.clients == s.clients && |t.reqs| == |s.reqs|
    ensures Own(s.reqs) ==> Own(t.reqs)
    ensures forall q :: 0 <= q < |s.reqs| && s.reqs[q].promise.Some? ==> t.reqs[q].promise.Some?
    ensures forall i :: 0 <= i < |s.pending| ==> IsAnswered(t.reqs, s.pending[i])
  {
    hide Leads, Inv;
    var m := ServeAll(o, n, s);
    var m' := EndDrain(o, n, m);
    t := CompleteAll(o, n, m', s.pending);
    forall q | 0 <= q < |s.reqs| && s.reqs[q].promise.Some? ensures t.reqs[q].promise.Some? {
      assert q !in s.pending;
    }
  }

  // Client c, whose request was answered before its write, writes, returns and queues another.
  lemma Resubmit(o: State, n: nat, s: State, c: nat) returns (t: State)
    requires Follows(o, n, s) && !s.bg.Failed? && s.counter < EVENTFD_MAX
    requires c < |s.clients| && s.clients[c].Pushed? && IsAnswered(s.reqs, s.clients[c].r) && Own(s.reqs)
    ensures Follows(o, n, t) && SameLoop(s, t) && t.counter == s.counter + 1
    ensures t.clients == s.clients[c := Pushed(|s.reqs|)] && t.pending == s.pending + [|s.reqs|]
    ensures |t.reqs| == |s.reqs| + 1 && Grown(s.reqs, t.reqs) && Own(t.reqs)
    ensures t.reqs[|s.reqs|].easy == Handle(c) && t.reqs[|s.reqs|].promise.None?
  {
    hide Leads, Inv;
    var m := WriteNow(o, n, s, c);
    var m' := ReturnNow(o, n, m, c);
    t := SubmitOwn(o, n, m', c);
  }

  // The same for a client that has written already.
  lemma ReturnAndSubmit(o: State, n: nat, s: State, c: nat) returns (t: State)
    requires Follows(o, n, s) && !s.bg.Failed?
    requires c < |s.clients| && s.clients[c].Blocked? && IsAnswered(s.reqs, s.clients[c].r) && Own(s.reqs)
    ensures Follows(o, n, t) && SameLoop(s, t) && t.counter == s.counter
    ensures t.clients == s.clients[c := Pushed(|s.reqs|)] && t.pending == s.pending + [|s.reqs|]
    ensures |t.reqs| == |s.reqs| + 1 && Grown(s.reqs, t.reqs) && Own(t.reqs)
    ensures t.reqs[|s.reqs|].easy == Handle(c) && t.reqs[|s.reqs|].promise.None?
  {
    hide Leads, Inv;
    var m := ReturnNow(o, n, s, c);
    t := SubmitOwn(o, n, m, c);
  }

  // Every client has an answered request whose write is still to come.
  ghost predicate AllLate(n: nat, clients: seq<ClientPc>, reqs: seq<Request>, from: nat) {
    |clients| == n && forall c :: from <= c < n ==> clients[c].Pushed? && IsAnswered(reqs, clients[c].r)
  }

  // The first k clients have queued their next requests, numbered from m.
  ghost predicate Requeued(clients: seq<ClientPc>, reqs: seq<Request>, pending: seq<Req>, m: nat, k: nat) {
    && k <= |clients| && |reqs| == m + k && |pending| == k
    && forall c :: 0 <= c < k ==> clients[c] == Pushed(m + c) && pending[c] == m + c
                                  && reqs[m + c].promise.None? && reqs[m + c].easy == Handle(c)
  }

  // Client k - 1 follows the k - 1 before it.
  lemma RequeuedNext(n: nat, clients: seq<ClientPc>, reqs: seq<Request>, pending: seq<Req>, m: nat, k: nat,
                     later: seq<Request>)
    requires 0 < k <= n && AllLate(n, clients, reqs, k - 1) && Requeued(clients, reqs, pending, m, k - 1)
    requires Grown(reqs, later) && |later| == |reqs| + 1
    requires later[|reqs|].easy == Handle(k - 1) && later[|reqs|].promise.None?
    ensures AllLate(n, clients[k - 1 := Pushed(|reqs|)], later, k)
    ensures Requeued(clients[k - 1 := Pushed(|reqs|)], later, pending + [|reqs|], m, k)
  {
  }

  lemma LateAt(n: nat, clients: seq<ClientPc>, reqs: seq<Request>, from: nat, c: nat)
    requires AllLate(n, clients, reqs, from) && from <= c < n
    ensures c < |clients| && clients[c].Pushed? && IsAnswered(reqs, clients[c].r)
  {
  }

  lemma {:induction false} ResubmitAll(o: State, n: nat, s: State, k: nat) returns (t: State)
    requires Follows(o, n, s) && s.bg == Draining && s.pending == [] && k <= n
    requires Own(s.reqs) && AllLate(n, s.clients, s.reqs, 0) && s.counter + k <= EVENTFD_MAX
    ensures Follows(o, n, t) && SameLoop(s, t) && t.counter == s.counter + k
    ensures Own(t.reqs) && AllLate(n, t.clients, t.reqs, k)
    ensures Requeued(t.clients, t.reqs, t.pending, |s.reqs|, k)
  {
    hide Leads, Inv, AllLate, Requeued, Grown, Own, IsAnswered;
    if k == 0 {
      NoneRequeued(s.clients, s.reqs);
      t := s;
    } else {
      var m := ResubmitAll(o, n, s, k - 1);
      t := ResubmitNext(o, n, m, |s.reqs|, k);
    }
  }

  lemma NoneRequeued(clients: seq<ClientPc>, reqs: seq<Request>)
    ensures Requeued(clients, reqs, [], |reqs|, 0)
  {
  }

  lemma ResubmitNext(o: State, n: nat, s: State, m: nat, k: nat) returns (t: State)
    requires Follows(o, n, s) && s.bg == Draining && 0 < k <= n && s.counter < EVENTFD_MAX
    requires Own(s.reqs) && AllLate(n, s.clients, s.reqs, k - 1)
    requires Requeued(s.clients, s.reqs, s.pending, m, k - 1)
    ensures Follows(o, n, t) && SameLoop(s, t) && t.counter == s.counter + 1
    ensures Own(t.reqs) && AllLate(n, t.clients, t.reqs, k) && Requeued(t.clients, t.reqs, t.pending, m, k)
  {
    hide Leads, Inv, AllLate, Requeued, Grown, Own, IsAnswered;
    LateAt(n, s.clients, s.reqs, k - 1, k - 1);
    t := Resubmit(o, n, s, k - 1);
    RequeuedNext(n, s.clients, s.reqs, s.pending, m, k, t.reqs);
  }

  // Once requeued by everybody, the queue is fit for a round, and after it everybody is late.
  lemma RequeuedRound(n: nat, clients: seq<ClientPc>, reqs: seq<Request>, pending: seq<Req>, m: nat)
    requires Requeued(clients, reqs, pending, m, n) && |clients| == n
    ensures OpenQueue(pending, reqs)
    ensures forall later: seq<Request> {:trigger AllLate(n, clients, later, 0)} ::
              (forall i :: 0 <= i < |pending| ==> IsAnswered(later, pending[i])) ==> AllLate(n, clients, later, 0)
  {
    forall later: seq<Request> | forall i :: 0 <= i < |pending| ==> IsAnswered(later, pending[i])
      ensures AllLate(n, clients, later, 0)
    {
      forall c | 0 <= c < n ensures clients[c].Pushed? && IsAnswered(later, clients[c].r) {
        assert clients[c].r == pending[c];
      }
    }
  }

  // Client c writes late, returns, queues another request and writes for it.
  lemma WriteTwice(o: State, n: nat, s: State, c: nat) returns (t: State)
    requires Follows(o, n, s) && s.bg == Waiting && s.counter + 2 <= EVENTFD_MAX
    requires c < |s.clients| && s.clients[c].Pushed? && IsAnswered(s.reqs, s.clients[c].r) && Own(s.reqs)
    ensures Follows(o, n, t) && t.bg == Waiting && t.counter == s.counter + 2 && Grown(s.reqs, t.reqs) && Own(t.reqs)
    ensures |t.clients| == |s.clients| && forall d :: 0 <= d < |s.clients| && d != c ==> t.clients[d] == s.clients[d]
  {
    hide Leads, Inv;
    var m := Resubmit(o, n, s, c);
    t := WriteNow(o, n, m, c);
  }

  lemma {:induction false} WriteTwiceAll(o: State, n: nat, s: State, k: nat) returns (t: State)
    requires Follows(o, n, s) && s.bg == Waiting && k <= n
    requires Own(s.reqs) && AllLate(n, s.clients, s.reqs, 0) && s.counter + 2 * k <= EVENTFD_MAX
    ensures Follows(o, n, t) && t.bg == Waiting && t.counter == s.counter + 2 * k
    ensures Own(t.reqs) && AllLate(n, t.clients, t.reqs, k)
  {
    hide Leads, Inv;
    if k == 0 {
      return s;
    }
    var m := WriteTwiceAll(o, n, s, k - 1);
    t := WriteTwice(o, n, m, k - 1);
  }

  // From a state with everybody late and a write due: three writes by every client.
  lemma ThreeEach(o: State, n: nat, s: State) returns (t: State)
    requires Follows(o, n, s) && s.bg == Waiting && s.msgs == [] && s.pending == [] && s.counter > 0
    requires Own(s.reqs) && AllLate(n, s.clients, s.reqs, 0) && 3 * n <= EVENTFD_MAX
    ensures Follows(o, n, t) && t.counter == 3 * n
  {
    var m := Wake(o, n, s);
    assert Own(m.reqs) && AllLate(n, m.clients, m.reqs, 0);
    hide Leads, Inv, Own, AllLate, Requeued, OpenQueue;
    var m' := ResubmitAll(o, n, m, n);
    FollowsInv(o, n, m');
    RequeuedRound(n, m'.clients, m'.reqs, m'.pending, |m.reqs|);
    var m'' := Round(o, n, m');
    assert AllLate(n, m''.clients, m''.reqs, 0);
    t := WriteTwiceAll(o, n, m'', n);
  }

  // ---------- Getting everybody late ----------

  // In a drain, clients 1 to k - 1 queue their first requests.
  lemma {:induction false} SubmitOthers(o: State, n: nat, s: State, k: nat) returns (t: State)
    requires Follows(o, n, s) && s.bg == Draining && s.pending == [0] && |s.clients| == n && 1 <= k <= n
    requires |s.reqs| == 1 && IsOpen(s.reqs, 0) && s.reqs[0].easy == Handle(0) && Own(s.reqs)
    requires forall c :: 1 <= c < n ==> s.clients[c].Idle?
    ensures Follows(o, n, t) && SameLoop(s, t) && t.counter == s.counter && |t.clients| == n
    ensures Own(t.reqs) && |t.reqs| == |t.pending| == k && t.clients[0] == s.clients[0]
    ensures forall c :: k <= c < n ==> t.clients[c].Idle?
    ensures forall c :: 1 <= c < k ==> t.clients[c] == Pushed(c)
    ensures forall c :: 0 <= c < k ==> t.pending[c] == c && t.reqs[c].promise.None? && t.reqs[c].easy == Handle(c)
  {
    hide Leads, Inv;
    if k == 1 {
      return s;
    }
    var m := SubmitOthers(o, n, s, k - 1);
    t := SubmitOwn(o, n, m, k - 1);
  }

  // Client 0 has written for its request and all others have not; all are answered.
  lemma OthersLate(n: nat) returns (t: State)
    requires n >= 2
    ensures Follows(Init(n), n, t) && t.bg == Waiting && t.msgs == [] && t.pending == [] && t.counter == 0
    ensures Own(t.reqs) && AllLate(n, t.clients, t.reqs, 1)
    ensures t.clients[0].Blocked? && IsAnswered(t.reqs, t.clients[0].r)
  {
    hide Inv, Leads;
    var o := Init(n);
    InitFollows(n);
    var s := SubmitOwn(o, n, o, 0);
    s := WriteNow(o, n, s, 0);
    s := Wake(o, n, s);
    s := SubmitOthers(o, n, s, n);
    t := Round(o, n, s);
  }

  // Client 1's late write starts a drain in which clients 0 and 1 queue again without writing.
  lemma BothUnwritten(o: State, n: nat, s: State) returns (t: State)
    requires n >= 2 && Follows(o, n, s) && s.bg == Waiting && s.msgs == [] && s.pending == [] && s.counter == 0
    requires Own(s.reqs) && AllLate(n, s.clients, s.reqs, 1)
    requires s.clients[0].Blocked? && IsAnswered(s.reqs, s.clients[0].r)
    ensures Follows(o, n, t) && t.bg == Waiting && t.msgs == [] && t.pending == [] && t.counter == 0
    ensures Own(t.reqs) && AllLate(n, t.clients, t.reqs, 0)
  {
    hide Leads, Inv;
    var m := WriteNow(o, n, s, 1);
    m := Wake(o, n, m);
    m := ReturnAndSubmit(o, n, m, 1);
    m := ReturnAndSubmit(o, n, m, 0);
    assert m.clients[1] == Pushed(m.pending[0]) && m.clients[0] == Pushed(m.pending[1]);
    assert AllLate(n, m.clients, m.reqs, 2);
    t := Round(o, n, m);
  }

  // Once more, with a late write by client 0 in the drain, which leaves the counter up.
  lemma LateAndDue(o: State, n: nat, s: State) returns (t: State)
    requires n >= 2 && Follows(o, n, s) && s.bg == Waiting && s.msgs == [] && s.pending == [] && s.counter == 0
    requires Own(s.reqs) && AllLate(n, s.clients, s.reqs, 0)
    ensures Follows(o, n, t) && t.bg == Waiting && t.msgs == [] && t.pending == [] && t.counter == 1
    ensures Own(t.reqs) && AllLate(n, t.clients, t.reqs, 0)
  {
    hide Leads, Inv;
    var m := WriteNow(o, n, s, 1);
    m := Wake(o, n, m);
    m := ReturnAndSubmit(o, n, m, 1);
    m := Resubmit(o, n, m, 0);
    assert m.clients[1] == Pushed(m.pending[0]) && m.clients[0] == Pushed(m.pending[1]);
    assert AllLate(n, m.clients, m.reqs, 2);
    t := Round(o, n, m);
  }

  /** The bound of three is reached by every number of clients from two on: a client may first
      make the late write of a request already answered, then have one popped in the same
      drain, then queue another after it. */
  lemma ThreePerClientReached(n: nat)
    requires n >= 2 && 3 * n <= EVENTFD_MAX
    ensures exists s :: Reachable(n, s) && s.counter == 3 * n
  {
    hide Inv, Leads;
    var o := Init(n);
    var s := OthersLate(n);
    s := BothUnwritten(o, n, s);
    s := LateAndDue(o, n, s);
    s := ThreeEach(o, n, s);
    assert Reachable(n, s);
  }

  // ---------- A single client ----------

  // The only client has never more than one write outstanding, and none while it drains.
  predicate Solo(pc: ClientPc, counter: nat, drain: bool, pending: seq<Req>, reqs: seq<Request>) {
    match pc
    case Idle => counter == 0 && !drain
    case Built(_) => counter == 0 && !drain
    case Pushed(r) => counter == 0 && !drain && r in pending
    case Blocked(r) =>
      && (drain ==> counter == 0 && IsOpen(reqs, r))
      && (counter == 0 || (counter == 1 && r in pending))
    case WriteFailed(_) => false
  }

  predicate SoloState(s: State) {
    |s.clients| == 1 && Solo(s.clients[0], s.counter, InDrain(s.bg), s.pending, s.reqs)
  }

  // A queued request is open.
  lemma QueuedOpen(s: State, n: nat, r: Req)
    requires Inv(s, n) && r in s.pending
    ensures IsOpen(s.reqs, r)
  {
    PendingClient(s, n, r);
  }

  lemma SoloSubmits(s: State, a: Action)
    requires SoloState(s) && Enabled(s, a) && (a.Build? || a.Push?)
    ensures SoloState(Apply(s, a))
  {
    if a.Build? { return; } else { return; }
  }

  lemma SoloWrites(s: State, c: nat)
    requires SoloState(s) && Enabled(s, Write(c))
    ensures SoloState(Apply(s, Write(c)))
  {
  }

  lemma SoloReturns(s: State, c: nat)
    requires SoloState(s) && Enabled(s, Return(c))
    requires s.counter == 1 ==> IsOpen(s.reqs, s.clients[0].r)
    ensures SoloState(Apply(s, Return(c)))
  {
  }

  lemma SoloClientStep(s: State, a: Action)
    requires Inv(s, 1) && SoloState(s) && Enabled(s, a) && IsClientAction(a)
    ensures SoloState(Apply(s, a))
  {
    if s.clients[0].Blocked? && s.counter == 1 {
      QueuedOpen(s, 1, s.clients[0].r);
    }
    hide Inv, Apply, SoloState, InDrain;
    match a
    case Build(c, easy, url) => SoloSubmits(s, a);
    case Push(c) => SoloSubmits(s, a);
    case Write(c) => SoloWrites(s, c);
    case Return(c) => SoloReturns(s, c);
  }

  // What the background thread can do to the counter, the queue and being in a drain.
  lemma LoopStep(s: State, a: Action)
    requires Enabled(s, a) && !IsClientAction(a)
    ensures var t := Apply(s, a);
            && (!a.Next? ==> t.counter == s.counter && (InDrain(t.bg) ==> InDrain(s.bg)))
            && (a.Next? ==> t.counter == if InDrain(t.bg) then 0 else s.counter)
            && (a.Next? && InDrain(t.bg) ==> s.counter > 0)
            && (!a.Pop? ==> t.pending == s.pending)
            && (InDrain(s.bg) ==> t.reqs == s.reqs)
  {
    hide DoNext, DoPop, DoInsert, DoAddHandle, DoReadMsg, DoFill, DoSetValue, DoErase, DoClear;
    match a
    case Tick => return;
    case Wait(batch) => return;
    case Next => return;
    case Leave => return;
    case RemoveHandle => return;
    case TimerRequest(ms) => return;
    case Deliver(easy, chunk) => return;
    case Finish(easy, result, code) => return;
    case EnqueueOther => return;
    case _ => return;
  }

  lemma SoloLoopStep(s: State, a: Action)
    requires Inv(s, 1) && SoloState(s) && Enabled(s, a) && !IsClientAction(a)
    ensures SoloState(Apply(s, a))
  {
    if s.clients[0].Blocked? && s.counter == 1 {
      QueuedOpen(s, 1, s.clients[0].r);
    }
    LoopStep(s, a);
    hide Inv;
  }

  lemma {:induction false} SoloRun(acts: seq<Action>, s: State)
    requires Runs(1, acts, s) && AllDisciplined(Init(1), acts)
    ensures SoloState(s)
  {
    if acts == [] {
    } else {
      var before, a := Exec(Init(1), acts[..|acts| - 1]).value, acts[|acts| - 1];
      DisciplinedSplit(Init(1), acts);
      SoloRun(acts[..|acts| - 1], before);
      RunInv(1, acts[..|acts| - 1], before);
      if IsClientAction(a) { SoloClientStep(before, a); } else { SoloLoopStep(before, a); }
    }
  }

  lemma SingleClientOneWrite(s: State)
    requires Reachable(1, s)
    ensures s.counter <= 1
  {
    var acts :| Exec(Init(1), acts) == Some(s) && AllDisciplined(Init(1), acts);
    SoloRun(acts, s);
  }

  /** Two writes per client between reads is a bound for at most one client, and for no more. */
  lemma TwoPerClientExactly(n: nat)
    requires 3 * n <= EVENTFD_MAX
    ensures (forall s :: Reachable(n, s) ==> s.counter <= 2 * n) <==> n <= 1
  {
    if n >= 2 {
      ThreePerClientReached(n);
    } else {
      forall s | Reachable(n, s) ensures s.counter <= 2 * n {
        if n == 0 {
          var acts :| Exec(Init(n), acts) == Some(s) && AllDisciplined(Init(n), acts);
          EventfdBound(n, acts, s);
        } else {
          SingleClientOneWrite(s);
        }
      }
    }
  }
}
