/** Concrete runs of the event loop that show where a stronger promise fails, and that the
    delicate window is really entered. */
module EventLoopRuns {
  import opened Wrappers
  import opened EventLoop
  import opened EventLoopInvariant
  import opened EventLoopSteps

  // A disciplined run leads from o to s.
  ghost predicate Leads(o: State, s: State) {
    exists acts :: Exec(o, acts) == Some(s) && AllDisciplined(o, acts)
  }

  ghost predicate Reachable(n: nat, s: State) {
    Leads(Init(n), s)
  }

  // The same from any state that satisfies the invariant.
  ghost predicate Follows(o: State, n: nat, s: State) {
    Inv(o, n) && Leads(o, s)
  }

  lemma StartFollows(o: State, n: nat)
    requires Inv(o, n)
    ensures Follows(o, n, o)
  {
    assert Exec(o, []) == Some(o) && AllDisciplined(o, []);
  }

  lemma InitFollows(n: nat)
    ensures Follows(Init(n), n, Init(n))
  {
    InitInv(n);
    StartFollows(Init(n), n);
  }

  lemma StepLeads(o: State, s: State, a: Action)
    requires Leads(o, s) && Enabled(s, a) && Disciplined(s, a)
    ensures Leads(o, Apply(s, a))
  {
    hide Inv, AllDisciplined, Exec, Disciplined;
    var acts :| Exec(o, acts) == Some(s) && AllDisciplined(o, acts);
    ExecStep(o, acts, a);
  }

  // The second run after the first.
  lemma {:induction false} DisciplinedConcat(o: State, first: seq<Action>, s: State, second: seq<Action>)
    requires Exec(o, first) == Some(s) && AllDisciplined(o, first) && AllDisciplined(s, second)
    ensures AllDisciplined(o, first + second)
  {
    hide Apply, Enabled, Disciplined, AllDisciplined;
    if second == [] {
      assert first + second == first;
    } else {
      var init, last := second[..|second| - 1], second[|second| - 1];
      assert first + second == (first + init) + [last] && second == init + [last];
      ExecStep(s, init, last);
      DisciplinedConcat(o, first, s, init);
      ExecConcat(o, first, init);
      ExecStep(o, first + init, last);
    }
  }

  lemma LeadsOn(o: State, s: State, t: State)
    requires Leads(o, s) && Leads(s, t)
    ensures Leads(o, t)
  {
    hide Apply, Enabled, Disciplined, AllDisciplined;
    var first :| Exec(o, first) == Some(s) && AllDisciplined(o, first);
    var second :| Exec(s, second) == Some(t) && AllDisciplined(s, second);
    ExecConcat(o, first, second);
    DisciplinedConcat(o, first, s, second);
  }

  lemma {:induction false} InvAlong(o: State, n: nat, acts: seq<Action>, s: State)
    requires Inv(o, n) && Exec(o, acts) == Some(s) && AllDisciplined(o, acts)
    ensures Inv(s, n)
  {
    hide Inv, Leads;
    if acts == [] {
    } else {
      var before := Exec(o, acts[..|acts| - 1]).value;
      DisciplinedSplit(o, acts);
      InvAlong(o, n, acts[..|acts| - 1], before);
      KeepInv(before, acts[|acts| - 1], n);
    }
  }

  lemma FollowsInv(o: State, n: nat, s: State)
    requires Follows(o, n, s)
    ensures Inv(s, n) && |s.clients| == |s.writes| == n
  {
    hide Inv;
    var acts :| Exec(o, acts) == Some(s) && AllDisciplined(o, acts);
    InvAlong(o, n, acts, s);
    Sizes(s, n);
  }

  lemma StepFollows(o: State, n: nat, s: State, a: Action)
    requires Follows(o, n, s) && Enabled(s, a) && Disciplined(s, a)
    ensures Follows(o, n, Apply(s, a)) && Inv(Apply(s, a), n)
  {
    hide Inv, Leads;
    StepLeads(o, s, a);
    FollowsInv(o, n, Apply(s, a));
  }

  // ---------- Stretches of a run ----------

  // What client threads' steps leave alone.
  ghost predicate SameLoop(s: State, t: State) {
    t.bg == s.bg && t.msgs == s.msgs && t.rest == s.rest && t.timer == s.timer && t.running == s.running
    && t.ongoing == s.ongoing
  }

  // What the background thread's steps leave alone.
  ghost predicate SameThreadsAs(s: State, t: State) {
    t.clients == s.clients && SamePromises(s.reqs, t.reqs)
  }

  // Client c constructs a request on its handle and queues it.
  lemma Submit(o: State, n: nat, s: State, c: nat, easy: Easy) returns (t: State)
    requires Follows(o, n, s) && !s.bg.Failed? && c < |s.clients| && s.clients[c].Idle?
    requires AllAnswered(s.reqs, easy)
    ensures Follows(o, n, t) && SameLoop(s, t) && t.counter == s.counter
    ensures t.clients == s.clients[c := Pushed(|s.reqs|)] && t.pending == s.pending + [|s.reqs|]
    ensures |t.reqs| == |s.reqs| + 1
    ensures forall r :: 0 <= r < |s.reqs| ==>
              t.reqs[r].promise == s.reqs[r].promise && SameRequest(s.reqs[r], t.reqs[r])
    ensures var q := t.reqs[|s.reqs|]; q.easy == easy && q.client == c && q.promise.None?
  {
    hide Inv, Leads;
    StepFollows(o, n, s, Build(c, easy, ""));
    var m := DoBuild(s, c, easy, "");
    StepFollows(o, n, m, Push(c));
    t := DoPush(m, c);
  }

  lemma WriteFits(s: State, c: nat)
    requires Enabled(s, Write(c)) && s.counter < EVENTFD_MAX
    ensures var t := Apply(s, Write(c));
            && SameLoop(s, t) && t.counter == s.counter + 1 && t.pending == s.pending && t.reqs == s.reqs
            && t.clients == s.clients[c := Blocked(s.clients[c].r)]
  {
  }

  // Client c makes its eventfd write.
  lemma WriteNow(o: State, n: nat, s: State, c: nat) returns (t: State)
    requires Follows(o, n, s) && !s.bg.Failed? && c < |s.clients| && s.clients[c].Pushed?
    requires s.counter < EVENTFD_MAX
    ensures Follows(o, n, t) && SameLoop(s, t) && t.counter == s.counter + 1
    ensures t.clients == s.clients[c := Blocked(s.clients[c].r)] && t.pending == s.pending && t.reqs == s.reqs
  {
    FollowsInv(o, n, s);
    hide Inv, Leads;
    WriteFits(s, c);
    StepFollows(o, n, s, Write(c));
    t := Apply(s, Write(c));
  }

  // Client c wakes from its future.
  lemma ReturnNow(o: State, n: nat, s: State, c: nat) returns (t: State)
    requires Follows(o, n, s) && !s.bg.Failed? && c < |s.clients| && s.clients[c].Blocked?
    requires s.clients[c].r < |s.reqs| && s.reqs[s.clients[c].r].promise.Some?
    ensures Follows(o, n, t) && SameLoop(s, t) && t.counter == s.counter && t.pending == s.pending
    ensures t.clients == s.clients[c := Idle] && SamePromises(s.reqs, t.reqs)
  {
    hide Inv, Leads;
    StepFollows(o, n, s, Return(c));
    t := DoReturn(s, c);
  }

  // epoll_wait reports the eventfd, and the loop reads it.
  lemma Wake(o: State, n: nat, s: State) returns (t: State)
    requires Follows(o, n, s) && s.bg.Waiting? && s.counter > 0
    ensures Follows(o, n, t) && SameThreadsAs(s, t) && t.bg == Draining && t.rest == [] && t.counter == 0
    ensures t.msgs == s.msgs && t.running == s.running && t.pending == s.pending && t.ongoing == s.ongoing
  {
    hide Inv, Leads;
    StepFollows(o, n, s, Wait([QueueReady]));
    var m := Apply(s, Wait([QueueReady]));
    StepFollows(o, n, m, Next);
    t := DoNext(m);
  }

  // The drain pops one request and adds its handle.
  lemma ServeFirstHalf(o: State, n: nat, s: State) returns (t: State)
    requires Follows(o, n, s) && s.bg.Draining? && s.pending != []
    ensures Follows(o, n, t) && SameThreadsAs(s, t) && t.bg == Inserted(s.pending[0]) && s.pending[0] < |t.reqs|
    ensures t.rest == s.rest && t.counter == s.counter && t.msgs == s.msgs && t.running == s.running
    ensures t.pending == s.pending[1..]
    ensures t.ongoing == s.ongoing[s.reqs[s.pending[0]].easy := s.pending[0]]
  {
    hide Inv, Leads;
    StepFollows(o, n, s, Pop);
    var m := DoPop(s);
    HandleFree(m, n);
    StepFollows(o, n, m, Insert);
    t := DoInsert(m);
  }

  lemma Serve(o: State, n: nat, s: State) returns (t: State)
    requires Follows(o, n, s) && s.bg.Draining? && s.pending != []
    ensures Follows(o, n, t) && SameThreadsAs(s, t) && t.bg == Draining && t.rest == s.rest
    ensures s.pending[0] < |s.reqs| && t.running == s.running + {s.reqs[s.pending[0]].easy}
    ensures t.counter == s.counter && t.msgs == s.msgs && t.pending == s.pending[1..]
  {
    hide Inv, Leads;
    var m := ServeFirstHalf(o, n, s);
    StepFollows(o, n, m, SetPrivate);
    var m' := Apply(m, SetPrivate);
    AddingFree(m', n);
    StepFollows(o, n, m', AddHandle);
    t := DoAddHandle(m');
  }

  lemma AddingFree(s: State, n: nat)
    requires Inv(s, n) && s.bg.Adding?
    ensures s.bg.r < |s.reqs| && s.reqs[s.bg.r].easy !in s.multi
  {
    AddingOngoing(s, n);
    AddParts(s, n);
  }

  // The drain takes everything that is queued.
  lemma {:induction false} ServeAll(o: State, n: nat, s: State) returns (t: State)
    requires Follows(o, n, s) && s.bg == Draining
    ensures Follows(o, n, t) && t.bg == Draining && t.pending == [] && t.rest == s.rest && t.msgs == s.msgs
    ensures t.counter == s.counter && SameThreadsAs(s, t) && s.running <= t.running
    ensures forall i :: 0 <= i < |s.pending| ==>
              s.pending[i] < |s.reqs| && s.reqs[s.pending[i]].easy in t.running
    decreases |s.pending|
  {
    hide Leads, Inv;
    if s.pending == [] {
      return s;
    }
    var m := Serve(o, n, s);
    t := ServeAll(o, n, m);
    forall i | 0 <= i < |s.pending| ensures s.pending[i] < |s.reqs| && s.reqs[s.pending[i]].easy in t.running {
      if i > 0 { assert m.pending[i - 1] == s.pending[i]; }
    }
  }

  // The drain sees an empty queue, and the loop goes back to epoll_wait.
  lemma EndDrain(o: State, n: nat, s: State) returns (t: State)
    requires Follows(o, n, s) && s.bg.Draining? && s.pending == [] && s.rest == []
    ensures Follows(o, n, t) && SameThreadsAs(s, t) && t.bg == Waiting
    ensures t.counter == s.counter && t.msgs == s.msgs && t.pending == [] && t.running == s.running
  {
    hide Inv, Leads;
    StepFollows(o, n, s, Pop);
    var m := DoPop(s);
    StepFollows(o, n, m, Next);
    t := DoNext(m);
  }

  // Request r is being transferred and nothing else is going on in the loop.
  ghost predicate InTransfer(s: State, r: Req) {
    r < |s.reqs| && s.reqs[r].promise.None? && s.reqs[r].easy in s.running && s.msgs == []
  }

  lemma EnterAction(o: State, n: nat, s: State) returns (t: State)
    requires Follows(o, n, s) && s.bg.Waiting?
    ensures Follows(o, n, t) && t.bg == Action(FromSocket) && t.rest == [] && t.reqs == s.reqs
    ensures t.clients == s.clients && t.msgs == s.msgs && t.running == s.running
    ensures t.counter == s.counter && t.pending == s.pending
  {
    hide Inv, Leads;
    StepFollows(o, n, s, Wait([SocketReady(7)]));
    var m := Apply(s, Wait([SocketReady(7)]));
    StepFollows(o, n, m, Next);
    t := DoNext(m);
  }

  lemma TransferJob(o: State, n: nat, s: State, easy: Easy)
    requires Follows(o, n, s) && easy in s.running && s.bg.Action?
    ensures easy in s.job && s.job[easy] < |s.reqs|
  {
    FollowsInv(o, n, s);
    RunningRequest(s, easy, n);
  }

  lemma ArriveMessage(o: State, n: nat, s: State, r: Req) returns (t: State)
    requires Follows(o, n, s) && s.bg.Waiting? && InTransfer(s, r)
    ensures Follows(o, n, t) && SameThreadsAs(s, t) && t.bg == Checking(FromSocket) && t.rest == []
    ensures t.msgs == [Done(s.reqs[r].easy, 0)] && t.running == s.running - {s.reqs[r].easy}
    ensures t.counter == s.counter && t.pending == s.pending
  {
    var m := EnterAction(o, n, s);
    m := FinishNow(o, n, m, s.reqs[r].easy);
    t := LeaveNow(o, n, m);
  }

  lemma FinishNow(o: State, n: nat, s: State, easy: Easy) returns (t: State)
    requires Follows(o, n, s) && s.bg == Action(FromSocket) && easy in s.running
    ensures Follows(o, n, t) && SameThreadsAs(s, t) && t.bg == s.bg && t.rest == s.rest
    ensures t.msgs == s.msgs + [Done(easy, 0)] && t.running == s.running - {easy}
    ensures t.counter == s.counter && t.pending == s.pending
  {
    hide Inv, Leads;
    TransferJob(o, n, s, easy);
    StepFollows(o, n, s, Finish(easy, 0, 200));
    t := DoFinish(s, easy, 0, 200);
  }

  lemma LeaveNow(o: State, n: nat, s: State) returns (t: State)
    requires Follows(o, n, s) && s.bg == Action(FromSocket)
    ensures Follows(o, n, t) && t.bg == Checking(FromSocket) && t.rest == s.rest && t.reqs == s.reqs
    ensures t.clients == s.clients && t.msgs == s.msgs && t.running == s.running
    ensures t.counter == s.counter && t.pending == s.pending
  {
    hide Inv, Leads;
    StepFollows(o, n, s, Leave);
    t := Apply(s, Leave);
  }

  // The ongoing request of a handle with an unfinished one is that one.
  lemma SameOngoing(s: State, n: nat, r: Req)
    requires Inv(s, n) && s.bg.GotMsg? && r < |s.reqs| && s.reqs[r].promise.None? && s.reqs[r].easy == s.bg.easy
    ensures s.bg.easy in s.priv && s.priv[s.bg.easy] == r && s.bg.easy in s.httpCode
  {
    MessageRequest(s, n);
  }

  lemma FillAnswer(o: State, n: nat, s: State, r: Req) returns (t: State)
    requires Follows(o, n, s) && s.bg == Checking(FromSocket) && s.rest == []
    requires r < |s.reqs| && s.reqs[r].promise.None? && s.msgs == [Done(s.reqs[r].easy, 0)]
    ensures Follows(o, n, t) && SameThreadsAs(s, t) && t.bg.Filled? && t.bg.k == FromSocket && t.bg.r == r
    ensures t.rest == [] && t.msgs == [] && t.running == s.running
    ensures t.bg.easy == s.reqs[r].easy
    ensures t.counter == s.counter && t.pending == s.pending
  {
    hide Inv, Leads;
    StepFollows(o, n, s, ReadMsg);
    var m := DoReadMsg(s);
    SameOngoing(m, n, r);
    StepFollows(o, n, m, Fill);
    t := DoFill(m);
  }

  // CheckMulti has just set the promise of r: its client may run on from here.
  lemma Answer(o: State, n: nat, s: State, r: Req) returns (t: State)
    requires Follows(o, n, s) && s.bg.Waiting? && InTransfer(s, r)
    ensures Follows(o, n, t) && t.bg == Settled(FromSocket, s.reqs[r].easy, r) && t.rest == []
    ensures t.msgs == [] && t.running == s.running - {s.reqs[r].easy} && t.clients == s.clients
    ensures t.counter == s.counter && t.pending == s.pending && |t.reqs| == |s.reqs|
    ensures forall q :: 0 <= q < |s.reqs| ==>
              SameRequest(s.reqs[q], t.reqs[q]) && (q != r ==> t.reqs[q].promise == s.reqs[q].promise)
    ensures t.reqs[r].promise.Some?
  {
    hide Inv, Leads;
    var m := ArriveMessage(o, n, s, r);
    var m' := FillAnswer(o, n, m, r);
    StepFollows(o, n, m', SetValue);
    t := DoSetValue(m');
  }

  lemma EntryOngoing(s: State, n: nat)
    requires Inv(s, n) && (s.bg.Settled? || s.bg.Removed?)
    ensures s.bg.easy in s.ongoing && s.ongoing[s.bg.easy] == s.bg.r
  {
  }

  lemma Retire(o: State, n: nat, s: State) returns (t: State)
    requires Follows(o, n, s) && s.bg.Settled? && s.bg.k == FromSocket && s.rest == [] && s.msgs == []
    requires s.bg.easy !in s.running
    ensures Follows(o, n, t) && SameThreadsAs(s, t) && t.bg == Checking(FromSocket)
    ensures t.msgs == [] && t.rest == [] && t.running == s.running
    ensures t.counter == s.counter && t.pending == s.pending
  {
    hide Inv, Leads;
    StepFollows(o, n, s, RemoveHandle);
    var m := Apply(s, RemoveHandle);
    EntryOngoing(m, n);
    StepFollows(o, n, m, Erase);
    t := DoErase(m);
  }

  lemma BackToWait(o: State, n: nat, s: State) returns (t: State)
    requires Follows(o, n, s) && s.bg == Checking(FromSocket) && s.rest == [] && s.msgs == []
    ensures Follows(o, n, t) && SameThreadsAs(s, t) && t.bg == Waiting
    ensures t.msgs == [] && t.running == s.running && t.counter == s.counter && t.pending == s.pending
  {
    hide Inv, Leads;
    StepFollows(o, n, s, ReadMsg);
    var m := DoReadMsg(s);
    StepFollows(o, n, m, Clear);
    var m' := DoClear(m);
    ClearRest(m);
    StepFollows(o, n, m', Next);
    t := DoNext(m');
  }

  lemma ClearRest(s: State)
    ensures DoClear(s).bg == Dispatch && DoClear(s).rest == s.rest && DoClear(s).msgs == s.msgs
    ensures DoClear(s).running == s.running && DoClear(s).counter == s.counter
  {
    if s.stillRunning <= 0 { return; } else { return; }
  }

  // One whole transfer: r's message arrives, is handled, and the loop waits again.
  lemma Complete(o: State, n: nat, s: State, r: Req) returns (t: State)
    requires Follows(o, n, s) && s.bg.Waiting? && InTransfer(s, r)
    ensures Follows(o, n, t) && t.bg == Waiting && t.msgs == [] && t.running == s.running - {s.reqs[r].easy}
    ensures t.clients == s.clients && t.counter == s.counter && t.pending == s.pending && |t.reqs| == |s.reqs|
    ensures forall q :: 0 <= q < |s.reqs| ==>
              SameRequest(s.reqs[q], t.reqs[q]) && (q != r ==> t.reqs[q].promise == s.reqs[q].promise)
    ensures t.reqs[r].promise.Some?
  {
    var m := Answer(o, n, s, r);
    var m' := Retire(o, n, m);
    t := BackToWait(o, n, m');
  }

  // ---------- The window ----------

  /** The window exists: a client woken by set_value has a new request of the same easy handle
      in the queue while the old one is still in ongoing_requests and in the multi. */
  lemma HandleReusedInWindow()
    ensures exists s :: && Reachable(1, s) && s.bg.Settled? && |s.pending| == 1
                        && s.pending[0] != s.bg.r < |s.reqs| && s.pending[0] < |s.reqs|
                        && IsOngoing(s.ongoing, s.reqs, s.bg.r) && s.reqs[s.bg.r].easy in s.multi
                        && s.reqs[s.pending[0]].easy == s.reqs[s.bg.r].easy
  {
    hide Inv, Leads;
    var o, e := Init(1), Easy(0);
    InitFollows(1);
    var s := Submit(o, 1, o, 0, e);
    s := WriteNow(o, 1, s, 0);
    s := Wake(o, 1, s);
    s := Serve(o, 1, s);
    s := EndDrain(o, 1, s);
    s := Answer(o, 1, s, 0);
    s := ReturnNow(o, 1, s, 0);
    s := Submit(o, 1, s, 0, e);
    FollowsInv(o, 1, s);
    WindowTables(1, s);
    assert s.pending == [1] && s.bg == Settled(FromSocket, e, 0);
  }

  lemma WindowTables(n: nat, s: State)
    requires Inv(s, n) && s.bg.Settled? && s.bg.r < |s.reqs| && s.reqs[s.bg.r].easy == s.bg.easy
    ensures IsOngoing(s.ongoing, s.reqs, s.bg.r) && s.bg.easy in s.multi
  {
    assert s.bg.easy in Handled(s.bg);
  }

  // ---------- The timer ----------

  /** A request arrives together with an expiry of the timer: libcurl sets the timer while the
      handle is added, and the read of the expiry, next in the batch, finds nothing. */
  lemma TimerReadCanFail()
    ensures exists s :: Reachable(1, s) && s.bg == Failed(TimerRead)
  {
    var o := Init(1);
    var s := TimerAndRequest(o);
    s := ServeSettingTimer(o, s);
    FailTimerRead(o, s);
  }

  lemma TimerAndRequest(o: State) returns (t: State)
    requires o == Init(1)
    ensures Follows(o, 1, t) && t.bg == Draining && t.pending == [0] && t.rest == [TimerReady]
  {
    hide Inv, Leads;
    InitFollows(1);
    StepFollows(o, 1, o, Tick);
    var s := Submit(o, 1, Apply(o, Tick), 0, Easy(0));
    s := WriteNow(o, 1, s, 0);
    t := FetchBoth(o, s);
  }

  lemma FetchBoth(o: State, s: State) returns (t: State)
    requires Follows(o, 1, s) && s.bg.Waiting? && s.counter > 0 && s.timer.ticks > 0
    ensures Follows(o, 1, t) && t.bg == Draining && t.pending == s.pending && t.rest == [TimerReady]
  {
    hide Inv, Leads;
    var batch := [QueueReady, TimerReady];
    StepFollows(o, 1, s, Wait(batch));
    var m := Apply(s, Wait(batch));
    StepFollows(o, 1, m, Next);
    t := DoNext(m);
  }

  lemma ServeSettingTimer(o: State, s: State) returns (t: State)
    requires Follows(o, 1, s) && s.bg == Draining && s.pending == [0] && s.rest == [TimerReady]
    ensures Follows(o, 1, t) && t.bg == Draining && t.pending == [] && t.rest == [TimerReady] && t.timer.ticks == 0
  {
    hide Inv, Leads;
    var m := ServeFirstHalf(o, 1, s);
    m := SetTimerNow(o, m);
    AddingFree(m, 1);
    StepFollows(o, 1, m, AddHandle);
    t := DoAddHandle(m);
  }

  lemma SetTimerNow(o: State, s: State) returns (t: State)
    requires Follows(o, 1, s) && s.bg.Inserted? && s.bg.r < |s.reqs|
    ensures Follows(o, 1, t) && Inv(t, 1) && t.bg == Adding(s.bg.r) && t.reqs == s.reqs && t.pending == s.pending
    ensures t.rest == s.rest && t.timer.ticks == 0
  {
    hide Inv, Leads;
    StepFollows(o, 1, s, SetPrivate);
    var m := Apply(s, SetPrivate);
    StepFollows(o, 1, m, TimerRequest(200));
    t := Apply(m, TimerRequest(200));
  }

  lemma FailTimerRead(o: State, s: State)
    requires o == Init(1) && Follows(o, 1, s)
    requires s.bg == Draining && s.pending == [] && s.rest == [TimerReady] && s.timer.ticks == 0
    ensures exists t :: Reachable(1, t) && t.bg == Failed(TimerRead)
  {
    hide Inv, Leads;
    StepFollows(o, 1, s, Pop);
    var m := DoPop(s);
    StepFollows(o, 1, m, Next);
    assert DoNext(m).bg == Failed(TimerRead) && Reachable(1, DoNext(m));
  }
}
