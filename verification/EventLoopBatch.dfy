/** One batch of events: how the background thread gets through it, and exactly which batches can
    make the timer read fail. */
module EventLoopBatch {
  import opened Wrappers
  import opened EventLoop
  import opened EventLoopInvariant
  import opened EventLoopSteps
  import opened EventLoopTheorems
  import opened EventLoopRuns
  import opened EventLoopProgress

  // A disciplined run leads from o to s without another epoll_wait.
  predicate NoWait(acts: seq<Action>) {
    forall i :: 0 <= i < |acts| ==> !acts[i].Wait?
  }

  ghost predicate Stays(o: State, s: State) {
    exists acts :: Exec(o, acts) == Some(s) && AllDisciplined(o, acts) && NoWait(acts)
  }

  lemma StaysHere(o: State)
    ensures Stays(o, o)
  {
    assert Exec(o, []) == Some(o) && AllDisciplined(o, []) && NoWait([]);
  }

  lemma StaysLeads(o: State, s: State)
    requires Stays(o, s)
    ensures Leads(o, s)
  {
  }

  lemma StepStays(o: State, n: nat, s: State, a: Action)
    requires Stays(o, s) && Inv(s, n) && Enabled(s, a) && Disciplined(s, a) && !a.Wait?
    ensures Stays(o, Apply(s, a)) && Inv(Apply(s, a), n)
  {
    hide Inv, AllDisciplined, Exec, Disciplined;
    var acts :| Exec(o, acts) == Some(s) && AllDisciplined(o, acts) && NoWait(acts);
    ExecStep(o, acts, a);
    assert NoWait(acts + [a]);
    KeepInv(s, a, n);
  }

  // ---------- The background thread's own way through a batch ----------

  function Rank(bg: BgPc): nat {
    match bg
    case Waiting => 0
    case Failed(_) => 0
    case Dispatch => 0
    case Clearing => 1
    case Checking(_) => 2
    case Removed(_, _, _) => 3
    case Settled(_, _, _) => 4
    case Filled(_, _, _, _) => 5
    case GotMsg(_, _, _) => 6
    case Action(_) => 7
    case Draining => 1
    case Adding(_) => 2
    case Inserted(_) => 3
    case InHand(_) => 4
  }

  predicate IsTimerNext(s: State) {
    s.bg.Dispatch? && s.rest != [] && s.rest[0] == TimerReady
  }

  // The timer was set since the batch was fetched, and has not expired.
  predicate IsRearmed(s: State) {
    s.rearmed && !s.expired
  }

  // What one step of its own does: it brings the end of the batch nearer, and fails at most on
  // the timer read.
  ghost predicate OwnMove(s: State, t: State) {
    && t.rest == (if s.bg.Dispatch? && s.rest != [] then s.rest[1..] else s.rest)
    && (t.bg.Waiting? <==> s.bg.Dispatch? && s.rest == [])
    && (IsRearmed(s) ==> IsRearmed(t))
    && (t.bg == Failed(TimerRead) ==> IsTimerNext(s))
    && (t.bg.Waiting? || t.bg.Failed? || |t.rest| < |s.rest| || OwnSmaller(s, t))
  }

  ghost predicate OwnSmaller(s: State, t: State) {
    |t.pending| < |s.pending|
    || (|t.pending| == |s.pending|
        && (|t.msgs| < |s.msgs| || (|t.msgs| == |s.msgs| && Rank(t.bg) < Rank(s.bg))))
  }

  lemma EndMoves(s: State)
    requires s.bg.Dispatch? && s.rest == []
    ensures OwnMove(s, DoNext(s))
  {
  }

  lemma TimerMoves(s: State)
    requires IsTimerNext(s) && s.timer.ticks > 0
    ensures OwnMove(s, DoNext(s))
  {
  }

  lemma TimerFails(s: State)
    requires IsTimerNext(s) && s.timer.ticks == 0
    ensures OwnMove(s, DoNext(s))
  {
  }

  lemma QueueMoves(s: State)
    requires s.bg.Dispatch? && s.rest != [] && s.rest[0] == QueueReady && s.counter > 0
    ensures OwnMove(s, DoNext(s))
  {
  }

  lemma SocketMoves(s: State)
    requires s.bg.Dispatch? && s.rest != [] && s.rest[0].SocketReady?
    ensures OwnMove(s, DoNext(s))
  {
  }

  lemma QueueReadable(s: State, n: nat)
    requires Inv(s, n) && s.rest != [] && s.rest[0] == QueueReady
    ensures s.counter > 0
  {
    assert QueueReady in s.rest;
  }

  lemma NextMoves(s: State, n: nat)
    requires Inv(s, n) && s.bg.Dispatch?
    ensures OwnMove(s, DoNext(s))
  {
    hide Inv, OwnMove, DoNext;
    if s.rest == [] {
      EndMoves(s);
    } else if s.rest[0].TimerReady? {
      if s.timer.ticks > 0 { TimerMoves(s); } else { TimerFails(s); }
    } else if s.rest[0].QueueReady? {
      QueueReadable(s, n);
      QueueMoves(s);
    } else {
      SocketMoves(s);
    }
  }

  lemma PopMoves(s: State)
    requires s.bg.Draining?
    ensures OwnMove(s, DoPop(s))
  {
    if s.pending == [] { return; } else { return; }
  }

  lemma InsertMoves(s: State)
    requires s.bg.InHand? && s.bg.r < |s.reqs| && s.reqs[s.bg.r].easy !in s.ongoing
    ensures OwnMove(s, DoInsert(s))
  {
  }

  lemma AddMoves(s: State)
    requires s.bg.Adding? && s.bg.r < |s.reqs| && s.reqs[s.bg.r].easy !in s.multi
    ensures OwnMove(s, DoAddHandle(s))
  {
  }

  lemma ReadMoves(s: State)
    requires s.bg.Checking?
    ensures OwnMove(s, DoReadMsg(s))
  {
    if s.msgs == [] { return; } else { return; }
  }

  lemma FillMoves(s: State)
    requires s.bg.GotMsg? && s.bg.easy in s.httpCode && s.bg.easy in s.priv && s.priv[s.bg.easy] < |s.reqs|
    ensures OwnMove(s, DoFill(s))
  {
  }

  lemma SetValueMoves(s: State)
    requires s.bg.Filled? && s.bg.r < |s.reqs| && s.reqs[s.bg.r].promise.None?
    ensures OwnMove(s, DoSetValue(s))
  {
  }

  lemma EraseMoves(s: State)
    requires s.bg.Removed? && s.bg.easy in s.ongoing
    ensures OwnMove(s, DoErase(s))
  {
  }

  lemma ClearMoves(s: State)
    requires s.bg.Clearing?
    ensures OwnMove(s, DoClear(s))
  {
    if s.stillRunning <= 0 { return; } else { return; }
  }

  lemma DrainStep(s: State, n: nat)
    requires Inv(s, n) && InDrain(s.bg) && Enabled(s, NextAction(s.bg))
    ensures OwnMove(s, Apply(s, NextAction(s.bg)))
  {
    hide Inv, OwnMove, DoNext, DoPop, DoInsert, DoAddHandle, DoReadMsg, DoFill, DoSetValue, DoErase, DoClear;
    match s.bg
    case Draining => PopMoves(s);
    case InHand(_) =>
      HandleFree(s, n);
      InsertMoves(s);
    case Inserted(_) => PrivateMoves(s);
    case Adding(_) =>
      AddingFree(s, n);
      AddMoves(s);
  }

  lemma CheckStep(s: State, n: nat)
    requires Inv(s, n) && InCheckMulti(s.bg) && Enabled(s, NextAction(s.bg))
    ensures OwnMove(s, Apply(s, NextAction(s.bg)))
  {
    hide Inv, OwnMove, DoNext, DoPop, DoInsert, DoAddHandle, DoReadMsg, DoFill, DoSetValue, DoErase, DoClear;
    match s.bg
    case Checking(_) => ReadMoves(s);
    case GotMsg(_, _, _) =>
      MessageRequest(s, n);
      FillMoves(s);
    case Filled(_, _, _, _) =>
      FilledUnanswered(s, n);
      SetValueMoves(s);
    case Settled(_, _, _) => RemoveMoves(s);
    case Removed(_, _, _) =>
      EntryOngoing(s, n);
      EraseMoves(s);
    case Clearing => ClearMoves(s);
  }

  lemma OwnStep(s: State, n: nat)
    requires Inv(s, n) && !s.bg.Waiting? && !s.bg.Failed?
    ensures Enabled(s, NextAction(s.bg)) && OwnMove(s, Apply(s, NextAction(s.bg)))
  {
    StepEnabled(s, n);
    hide Inv, OwnMove, Enabled, DoNext;
    if InDrain(s.bg) {
      DrainStep(s, n);
    } else if InCheckMulti(s.bg) {
      CheckStep(s, n);
    } else if s.bg.Action? {
      LeaveMoves(s);
    } else {
      NextMoves(s, n);
    }
  }

  lemma PrivateMoves(s: State)
    requires s.bg.Inserted? && Enabled(s, SetPrivate)
    ensures OwnMove(s, Apply(s, SetPrivate))
  {
  }

  lemma LeaveMoves(s: State)
    requires s.bg.Action? && Enabled(s, Leave)
    ensures OwnMove(s, Apply(s, Leave))
  {
  }

  lemma RemoveMoves(s: State)
    requires s.bg.Settled? && Enabled(s, RemoveHandle)
    ensures OwnMove(s, Apply(s, RemoveHandle))
  {
  }

  // A timer event met while the timer is re-armed fails.
  lemma RearmedFails(s: State, n: nat)
    requires Inv(s, n) && IsTimerNext(s) && IsRearmed(s)
    ensures DoNext(s).bg == Failed(TimerRead)
  {
    assert TimerReady in s.rest;
  }

  lemma OwnFacts(s: State, t: State)
    requires OwnMove(s, t) && (t.bg.Failed? ==> t.bg == Failed(TimerRead))
    ensures TimerReady !in s.rest ==> TimerReady !in t.rest && !t.bg.Failed?
    ensures TimerReady in s.rest && IsRearmed(s) && !IsTimerNext(s) ==>
              TimerReady in t.rest && IsRearmed(t) && !t.bg.Waiting?
    ensures |t.rest| <= |s.rest|
    ensures t.bg.Waiting? || t.bg.Failed? || |t.rest| < |s.rest| || OwnSmaller(s, t)
  {
    assert s.rest != [] ==> s.rest == [s.rest[0]] + s.rest[1..];
  }

  /** Left to itself the background thread gets to the end of the batch, or to a failing timer
      read; to the end if no timer event is left, to the failure if one is and the timer stays
      re-armed. */
  lemma {:induction false} OwnRun(o: State, n: nat, s: State) returns (t: State)
    requires Stays(o, s) && Inv(s, n) && !s.bg.Failed?
    ensures Stays(o, t) && Inv(t, n) && t.clients == s.clients
    ensures t.bg.Waiting? || t.bg == Failed(TimerRead)
    ensures TimerReady !in s.rest ==> t.bg.Waiting?
    ensures TimerReady in s.rest && IsRearmed(s) && !s.bg.Waiting? ==> t.bg.Failed?
    decreases |s.rest|, |s.pending|, |s.msgs|, Rank(s.bg)
  {
    hide Inv, Stays, OwnMove, IsRearmed;
    if s.bg.Waiting? {
      t := s;
    } else {
      var m := OwnStepTaken(o, n, s);
      if m.bg.Failed? {
        t := m;
      } else if m.bg.Waiting? {
        t := m;
      } else {
        t := OwnRun(o, n, m);
      }
    }
  }

  lemma OwnStepTaken(o: State, n: nat, s: State) returns (t: State)
    requires Stays(o, s) && Inv(s, n) && !s.bg.Failed? && !s.bg.Waiting?
    ensures Stays(o, t) && Inv(t, n) && t.clients == s.clients && (t.bg.Failed? ==> t.bg == Failed(TimerRead))
    ensures TimerReady !in s.rest ==> TimerReady !in t.rest && !t.bg.Failed?
    ensures TimerReady in s.rest && IsRearmed(s) ==>
              t.bg.Failed? || (TimerReady in t.rest && IsRearmed(t) && !t.bg.Waiting?)
    ensures |t.rest| <= |s.rest|
    ensures t.bg.Waiting? || t.bg.Failed? || |t.rest| < |s.rest| || OwnSmaller(s, t)
  {
    hide Inv, Stays, OwnMove, Enabled, DoNext, DoPop, DoInsert, DoAddHandle, DoReadMsg, DoFill, DoSetValue, DoErase,
         DoClear, IsRearmed;
    OwnStep(s, n);
    NotWait(s.bg, s);
    StepStays(o, n, s, NextAction(s.bg));
    t := Apply(s, NextAction(s.bg));
    FailsOnTimer(t, n);
    OwnFacts(s, t);
    if IsTimerNext(s) {
      if s.rearmed && !s.expired { RearmedFails(s, n); }
      NotRearmed(s);
    }
  }

  lemma NotRearmed(s: State)
    ensures IsRearmed(s) <==> s.rearmed && !s.expired
  {
  }

  lemma NotWait(bg: BgPc, s: State)
    requires !bg.Waiting? && !bg.Failed?
    ensures !NextAction(bg).Wait? && Disciplined(s, NextAction(bg)) && !IsClientAction(NextAction(bg))
  {
  }

  lemma FailsOnTimer(s: State, n: nat)
    requires Inv(s, n)
    ensures s.bg.Failed? ==> s.bg == Failed(TimerRead)
  {
  }

  // ---------- Progress from anywhere ----------

  lemma ReachableOn(n: nat, s: State, t: State)
    requires Reachable(n, s) && Leads(s, t)
    ensures Reachable(n, t) && Inv(s, n) && Inv(t, n)
  {
    hide Inv, Leads;
    LeadsOn(Init(n), s, t);
    InitFollows(n);
    FollowsInv(Init(n), n, s);
    FollowsInv(Init(n), n, t);
  }

  lemma SelfLeads(s: State)
    ensures Leads(s, s)
  {
    StaysHere(s);
    StaysLeads(s, s);
  }

  lemma ReturnOn(n: nat, s: State, t: State)
    requires Leads(s, t) && AllCanReturn(t, n)
    ensures AllCanReturn(s, n)
  {
    hide Leads;
    var u :| Leads(t, u) && u.bg == Waiting && |u.clients| == n && forall c :: 0 <= c < n ==> u.clients[c].Idle?;
    LeadsOn(s, t, u);
  }

  /** From every state that has not failed and whose batch has no timer event left, every client
      can still be brought out of HandleRequest. */
  lemma ReturnWithoutTimer(n: nat, s: State)
    requires Reachable(n, s) && !s.bg.Failed? && TimerReady !in s.rest && 3 * n <= EVENTFD_MAX
    ensures AllCanReturn(s, n)
  {
    hide Inv, Leads, Stays, AllCanReturn;
    SelfLeads(s);
    ReachableOn(n, s, s);
    StaysHere(s);
    var t := OwnRun(s, n, s);
    StaysLeads(s, t);
    ReachableOn(n, s, t);
    EveryCallCanReturn(n, t);
    ReturnOn(n, s, t);
  }

  // The batch is done, or its timer event is behind.
  predicate PastTimer(s: State) {
    !s.bg.Failed? && (s.bg.Waiting? || TimerReady !in s.rest)
  }

  /** Nothing but the timer read can strand a client: from a state that has not failed every
      client can be brought back if and only if the run can get past the timer event of the
      current batch at all. */
  lemma OnlyTimerReadStrands(n: nat, s: State)
    requires Reachable(n, s) && 3 * n <= EVENTFD_MAX
    ensures AllCanReturn(s, n) <==> exists t :: Leads(s, t) && PastTimer(t)
  {
    hide Inv, Leads;
    if t :| Leads(s, t) && PastTimer(t) {
      ReachableOn(n, s, t);
      if t.bg.Waiting? { EveryCallCanReturn(n, t); } else { ReturnWithoutTimer(n, t); }
      ReturnOn(n, s, t);
    }
    if AllCanReturn(s, n) {
      var t :| Leads(s, t) && t.bg == Waiting && |t.clients| == n && forall c :: 0 <= c < n ==> t.clients[c].Idle?;
      assert PastTimer(t);
    }
  }

  // The next event is the timer's, it has no expiry to read, and none can come.
  predicate IsDoomed(s: State) {
    s.bg == Failed(TimerRead) || (IsTimerNext(s) && s.timer.ticks == 0 && !s.timer.pending)
  }

  lemma DoomedStep(s: State, a: Action)
    requires IsDoomed(s) && Enabled(s, a)
    ensures IsDoomed(Apply(s, a))
  {
    if IsClientAction(a) {
      hide DoNext, DoPop, DoInsert, DoAddHandle, DoReadMsg, DoFill, DoSetValue, DoErase, DoClear;
      match a
      case Build(c, easy, url) => return;
      case Push(c) => return;
      case Write(c) => DoomedWrite(s, c);
      case Return(c) => return;
    } else {
      assert a == Next;
    }
  }

  lemma DoomedWrite(s: State, c: nat)
    requires IsDoomed(s) && Enabled(s, Write(c))
    ensures IsDoomed(Apply(s, Write(c)))
  {
    if s.counter + 1 > EVENTFD_MAX { return; } else { return; }
  }

  lemma {:induction false} DoomedRun(s: State, acts: seq<Action>, t: State)
    requires IsDoomed(s) && Exec(s, acts) == Some(t)
    ensures IsDoomed(t)
  {
    hide IsDoomed, Apply, Enabled;
    if acts == [] {
    } else {
      var before := Exec(s, acts[..|acts| - 1]).value;
      DoomedRun(s, acts[..|acts| - 1], before);
      DoomedStep(before, acts[|acts| - 1]);
    }
  }

  lemma TickNow(o: State, n: nat, s: State) returns (t: State)
    requires Follows(o, n, s) && IsTimerNext(s) && s.timer.pending
    ensures Follows(o, n, t) && t.bg == s.bg && t.rest == s.rest && t.timer.ticks > 0
  {
    hide Inv, Leads;
    StepFollows(o, n, s, Tick);
    t := Apply(s, Tick);
  }

  lemma ReadNow(o: State, n: nat, s: State) returns (t: State)
    requires Follows(o, n, s) && IsTimerNext(s) && s.timer.ticks > 0
    ensures Follows(o, n, t) && t.bg == Action(FromTimer) && t.rest == s.rest[1..]
  {
    hide Inv, Leads;
    StepFollows(o, n, s, Next);
    t := DoNext(s);
  }

  lemma OneTimerEvent(s: State, n: nat)
    requires Inv(s, n) && s.rest != [] && s.rest[0] == TimerReady
    ensures TimerReady !in s.rest[1..]
  {
  }

  /** When the timer event is the next of the batch, every client can be brought back if and only
      if the timer has expired, or is set and can still expire: it must not have been switched
      off in this batch. */
  lemma NextTimerExactly(n: nat, s: State)
    requires Reachable(n, s) && IsTimerNext(s) && 3 * n <= EVENTFD_MAX
    ensures AllCanReturn(s, n) <==> s.timer.ticks > 0 || s.timer.pending
  {
    hide Inv;
    if s.timer.ticks == 0 && !s.timer.pending {
      forall t | Leads(s, t) ensures t.bg != Waiting {
        var acts :| Exec(s, acts) == Some(t) && AllDisciplined(s, acts);
        DoomedRun(s, acts, t);
      }
    } else {
      NextTimerPasses(n, s);
    }
  }

  lemma NextTimerPasses(n: nat, s: State)
    requires Reachable(n, s) && IsTimerNext(s) && 3 * n <= EVENTFD_MAX
    requires s.timer.ticks > 0 || s.timer.pending
    ensures AllCanReturn(s, n)
  {
    hide Inv, Leads, AllCanReturn;
    SelfLeads(s);
    ReachableOn(n, s, s);
    OneTimerEvent(s, n);
    var m := s;
    if s.timer.ticks == 0 {
      m := TickNow(s, n, s);
    }
    var t := ReadNow(s, n, m);
    ReachableOn(n, s, t);
    ReturnWithoutTimer(n, t);
    ReturnOn(n, s, t);
  }

  // ---------- Which batches can fail ----------

  // The timer read of the current batch can fail.
  ghost predicate CanFailHere(s: State) {
    exists t :: Stays(s, t) && t.bg == Failed(TimerRead)
  }

  // The timer event is not first, and something before it can set the timer: a socket, or the
  // queue when a request is or can be in it.
  predicate MayRearm(s: State, batch: seq<Event>) {
    exists i :: 0 < i < |batch| && batch[i] == TimerReady && (batch[..i] != [QueueReady] || Quota(s) > 0)
  }

  // Nothing ahead of the timer event can set the timer.
  ghost predicate IsSafe(bg: BgPc, rest: seq<Event>, rearmed: bool, quota: nat) {
    || TimerReady !in rest
    || (bg.Dispatch? && !rearmed && rest[0] == TimerReady)
    || (bg.Dispatch? && !rearmed && |rest| >= 2 && rest[0] == QueueReady && rest[1] == TimerReady && quota == 0)
    || (bg.Draining? && !rearmed && rest[0] == TimerReady && quota == 0)
  }

  ghost predicate SafeState(s: State) {
    s.bg != Failed(TimerRead) && IsSafe(s.bg, s.rest, s.rearmed, Quota(s))
  }

  // Steps of other threads and of the clock.
  lemma OthersKeepBatch(s: State, a: Action)
    requires Enabled(s, a) && (IsClientAction(a) || a.Tick?)
    ensures var t := Apply(s, a); t.bg == s.bg && t.rest == s.rest && t.rearmed == s.rearmed
  {
    if a.Write? {
      WriteKeepsBatch(s, a.c);
    } else {
      hide DoWrite, DoNext, DoPop, DoInsert, DoAddHandle, DoReadMsg, DoFill, DoSetValue, DoErase, DoClear;
    }
  }

  lemma WriteKeepsBatch(s: State, c: nat)
    requires Enabled(s, Write(c))
    ensures var t := Apply(s, Write(c)); t.bg == s.bg && t.rest == s.rest && t.rearmed == s.rearmed
  {
    if s.counter + 1 > EVENTFD_MAX { return; } else { return; }
  }

  lemma SafeOthers(s: State, a: Action, n: nat)
    requires Inv(s, n) && SafeState(s) && Enabled(s, a) && (IsClientAction(a) || a.Tick?)
    ensures SafeState(Apply(s, a))
  {
    OthersKeepBatch(s, a);
    if IsClientAction(a) { QuotaClientStep(s, a, n); }
    hide Inv, Apply, Enabled, Quota;
  }

  lemma ReadExactly(s: State, n: nat)
    requires Inv(s, n) && IsTimerNext(s)
    ensures DoNext(s).bg == Failed(TimerRead) <==> IsRearmed(s)
  {
    assert TimerReady in s.rest;
  }

  // Where the dispatch of the next event leads.
  ghost predicate Dispatched(s: State, t: State) {
    t.rest == (if s.rest == [] then [] else s.rest[1..]) && t.rearmed == s.rearmed && Quota(t) == Quota(s)
  }

  lemma EndPlace(s: State)
    requires s.bg.Dispatch? && s.rest == []
    ensures Dispatched(s, DoNext(s)) && DoNext(s).bg == Waiting
  {
    hide MayPush;
  }

  lemma TimerPlace(s: State)
    requires IsTimerNext(s)
    ensures Dispatched(s, DoNext(s))
  {
    hide MayPush;
    if s.timer.ticks == 0 { return; } else { return; }
  }

  lemma QueuePlace(s: State)
    requires s.bg.Dispatch? && s.rest != [] && s.rest[0] == QueueReady && s.counter > 0
    ensures Dispatched(s, DoNext(s)) && DoNext(s).bg == Draining
  {
    hide MayPush;
  }

  lemma SocketPlace(s: State)
    requires s.bg.Dispatch? && s.rest != [] && s.rest[0].SocketReady?
    ensures Dispatched(s, DoNext(s)) && DoNext(s).bg == Action(FromSocket)
  {
    hide MayPush;
  }

  lemma SafeNext(s: State, n: nat)
    requires Inv(s, n) && SafeState(s) && Enabled(s, Next)
    ensures SafeState(DoNext(s))
  {
    hide Inv, DoNext, Quota;
    if s.rest == [] {
      EndPlace(s);
    } else if s.rest[0].TimerReady? {
      TimerPlace(s);
      ReadExactly(s, n);
      OneTimerEvent(s, n);
    } else if s.rest[0].QueueReady? {
      QueueReadable(s, n);
      QueuePlace(s);
      assert s.rest == [QueueReady] + s.rest[1..];
    } else {
      SocketPlace(s);
      assert s.rest == [s.rest[0]] + s.rest[1..];
    }
  }

  lemma SafePop(s: State)
    requires SafeState(s) && s.bg.Draining?
    ensures SafeState(DoPop(s))
  {
    hide MayPush;
    if s.pending == [] { return; } else { return; }
  }

  // Everything else happens only while no timer event is left.
  lemma SafeElse(s: State, a: Action)
    requires SafeState(s) && Enabled(s, a) && !a.Wait? && !a.Next? && !a.Pop? && !IsClientAction(a) && !a.Tick?
    ensures SafeState(Apply(s, a))
  {
    hide Quota;
    ElseKeepsRest(s, a);
    hide Apply;
    assert TimerReady !in s.rest;
  }

  ghost predicate SameBatch(s: State, t: State) {
    t.rest == s.rest && t.bg != Failed(TimerRead)
  }

  lemma ClearKeepsRest(s: State)
    ensures SameBatch(s, DoClear(s))
  {
    if s.stillRunning <= 0 { return; } else { return; }
  }

  lemma ElseKeepsRest(s: State, a: Action)
    requires Enabled(s, a) && !a.Wait? && !a.Next? && !a.Pop? && !IsClientAction(a) && !a.Tick?
    ensures SameBatch(s, Apply(s, a))
  {
    hide DoInsert, DoAddHandle, DoFill, DoSetValue, DoErase, DoClear;
    match a
    case Insert => InsertKeepsTimer(s);
    case Fill => FillKeepsTimer(s);
    case SetValue => SetValueKeepsTimer(s);
    case Erase => EraseKeepsTimer(s);
    case Clear => ClearKeepsRest(s);
    case _ =>
  }

  lemma SafeStep(s: State, a: Action, n: nat)
    requires Inv(s, n) && SafeState(s) && Enabled(s, a) && !a.Wait?
    ensures SafeState(Apply(s, a))
  {
    hide Inv, SafeState, DoNext, DoPop;
    if IsClientAction(a) || a.Tick? {
      SafeOthers(s, a, n);
    } else if a.Next? {
      SafeNext(s, n);
    } else if a.Pop? {
      SafePop(s);
    } else {
      SafeElse(s, a);
    }
  }

  lemma {:induction false} SafeRun(o: State, n: nat, acts: seq<Action>, s: State)
    requires Inv(o, n) && SafeState(o) && Exec(o, acts) == Some(s) && AllDisciplined(o, acts) && NoWait(acts)
    ensures Inv(s, n) && SafeState(s)
  {
    hide Inv, SafeState, Apply, Enabled;
    if acts == [] {
    } else {
      var init, last := acts[..|acts| - 1], acts[|acts| - 1];
      var before := Exec(o, init).value;
      DisciplinedSplit(o, acts);
      SafeRun(o, n, init, before);
      SafeStep(before, last, n);
      KeepInv(before, last, n);
    }
  }

  lemma Fetched(n: nat, s: State, batch: seq<Event>)
    requires Reachable(n, s) && s.bg.Waiting? && IsBatch(s, batch)
    ensures var b := Apply(s, Wait(batch));
            && Enabled(s, Wait(batch)) && Inv(b, n) && b.bg == Dispatch && b.rest == batch && !b.rearmed
            && b.clients == s.clients && Quota(b) == Quota(s)
  {
    hide Inv, Leads;
    InitFollows(n);
    StepFollows(Init(n), n, s, Wait(batch));
    hide MayPush;
  }

  lemma SafeBatch(n: nat, s: State, batch: seq<Event>)
    requires Reachable(n, s) && s.bg.Waiting? && IsBatch(s, batch) && !MayRearm(s, batch)
    ensures !CanFailHere(Apply(s, Wait(batch)))
  {
    hide Inv, Quota;
    Fetched(n, s, batch);
    var b := Apply(s, Wait(batch));
    if TimerReady in batch {
      var i :| 0 <= i < |batch| && batch[i] == TimerReady;
      if i > 0 {
        assert batch[..i] == [QueueReady] && Quota(s) == 0;
        assert |batch[..i]| == 1 && batch[0] == batch[..i][0];
      }
    }
    assert SafeState(b);
    hide SafeState;
    forall t | Stays(b, t) ensures t.bg != Failed(TimerRead) {
      var acts :| Exec(b, acts) == Some(t) && AllDisciplined(b, acts) && NoWait(acts);
      SafeRun(b, n, acts, t);
      SafeNotFailed(t);
    }
  }

  lemma SafeNotFailed(s: State)
    requires SafeState(s)
    ensures s.bg != Failed(TimerRead)
  {
  }

  // ---------- The runs that fail ----------

  lemma RearmNow(o: State, n: nat, s: State) returns (t: State)
    requires Stays(o, s) && Inv(s, n) && (s.bg.Action? || s.bg.Adding?)
    ensures Stays(o, t) && Inv(t, n) && t.bg == s.bg && t.rest == s.rest && IsRearmed(t)
  {
    hide Inv, Stays;
    StepStays(o, n, s, TimerRequest(200));
    t := Apply(s, TimerRequest(200));
  }

  // In a socket's action or while a handle is added, libcurl sets the timer: the read fails.
  lemma FailFrom(o: State, n: nat, s: State)
    requires Stays(o, s) && Inv(s, n) && (s.bg.Action? || s.bg.Adding?) && TimerReady in s.rest
    ensures CanFailHere(o)
  {
    hide Inv, Stays;
    var m := RearmNow(o, n, s);
    var t := OwnRun(o, n, m);
  }

  lemma SocketFails(o: State, n: nat, s: State)
    requires Stays(o, s) && Inv(s, n) && s.bg.Dispatch? && TimerReady in s.rest && s.rest[0].SocketReady?
    ensures CanFailHere(o)
  {
    hide Inv, Stays, Quota;
    StepStays(o, n, s, Next);
    SocketPlace(s);
    hide DoNext;
    assert s.rest == [s.rest[0]] + s.rest[1..];
    FailFrom(o, n, DoNext(s));
  }

  lemma QueueNow(o: State, n: nat, s: State) returns (t: State)
    requires Stays(o, s) && Inv(s, n) && s.bg.Dispatch? && s.rest != [] && s.rest[0] == QueueReady
    ensures Stays(o, t) && Inv(t, n) && t.bg == Draining && t.rest == s.rest[1..] && t.clients == s.clients
    ensures Quota(t) == Quota(s)
  {
    hide Inv, Stays, Quota;
    QueueReadable(s, n);
    StepStays(o, n, s, Next);
    QueuePlace(s);
    t := DoNext(s);
  }

  lemma EmptyQueueNow(o: State, n: nat, s: State) returns (t: State)
    requires Stays(o, s) && Inv(s, n) && s.bg.Draining? && s.pending == []
    ensures Stays(o, t) && Inv(t, n) && t.bg == Dispatch && t.rest == s.rest
  {
    hide Inv, Stays;
    StepStays(o, n, s, Pop);
    t := DoPop(s);
  }

  // The first request of the queue is taken up to the call that adds its handle.
  lemma ServeUpToAdd(o: State, n: nat, s: State) returns (t: State)
    requires Stays(o, s) && Inv(s, n) && s.bg.Draining? && s.pending != []
    ensures Stays(o, t) && Inv(t, n) && t.bg.Adding? && t.rest == s.rest
  {
    hide Inv, Stays, Apply, Enabled;
    var m := TakeFront(o, n, s);
    t := PointNow(o, n, m);
  }

  lemma PointNow(o: State, n: nat, s: State) returns (t: State)
    requires Stays(o, s) && Inv(s, n) && s.bg.Inserted? && s.bg.r < |s.reqs|
    ensures Stays(o, t) && Inv(t, n) && t.bg.Adding? && t.rest == s.rest
  {
    hide Inv, Stays;
    StepStays(o, n, s, SetPrivate);
    t := Apply(s, SetPrivate);
  }

  lemma TakeFront(o: State, n: nat, s: State) returns (t: State)
    requires Stays(o, s) && Inv(s, n) && s.bg.Draining? && s.pending != []
    ensures Stays(o, t) && Inv(t, n) && t.bg.Inserted? && t.bg.r < |t.reqs| && t.rest == s.rest
  {
    hide Inv, Stays;
    StepStays(o, n, s, Pop);
    var m := DoPop(s);
    HandleFree(m, n);
    StepStays(o, n, m, Insert);
    t := DoInsert(m);
  }

  lemma {:induction false} HandleIds(reqs: seq<Request>) returns (bound: nat)
    ensures forall r :: 0 <= r < |reqs| ==> reqs[r].easy.id < bound
  {
    bound := 0;
    if reqs != [] {
      var last := |reqs| - 1;
      bound := HandleIds(reqs[..last]);
      assert forall r :: 0 <= r < last ==> reqs[r] == reqs[..last][r];
      if bound <= reqs[last].easy.id { bound := reqs[last].easy.id + 1; }
    }
  }

  lemma QueueBuilt(o: State, n: nat, s: State, c: nat) returns (t: State)
    requires Stays(o, s) && Inv(s, n) && s.bg.Draining? && c < |s.clients| && s.clients[c].Built?
    ensures Stays(o, t) && Inv(t, n) && t.bg == Draining && t.rest == s.rest && t.pending != []
  {
    hide Inv, Stays;
    StepStays(o, n, s, Push(c));
    t := DoPush(s, c);
  }

  lemma QueueIdle(o: State, n: nat, s: State, c: nat) returns (t: State)
    requires Stays(o, s) && Inv(s, n) && s.bg.Draining? && c < |s.clients| && s.clients[c].Idle?
    ensures Stays(o, t) && Inv(t, n) && t.bg == Draining && t.rest == s.rest && t.pending != []
  {
    hide Inv, Stays;
    var bound := HandleIds(s.reqs);
    StepStays(o, n, s, Build(c, Easy(bound), ""));
    t := QueueBuilt(o, n, DoBuild(s, c, Easy(bound), ""), c);
  }

  lemma QueueBlocked(o: State, n: nat, s: State, c: nat) returns (t: State)
    requires Stays(o, s) && Inv(s, n) && s.bg.Draining? && c < |s.clients| && s.clients[c].Blocked?
    requires s.clients[c].r < |s.reqs| && s.reqs[s.clients[c].r].promise.Some?
    ensures Stays(o, t) && Inv(t, n) && t.bg == Draining && t.rest == s.rest && t.pending != []
  {
    hide Inv, Stays;
    StepStays(o, n, s, Return(c));
    t := QueueIdle(o, n, DoReturn(s, c), c);
  }

  lemma QueuePushed(o: State, n: nat, s: State, c: nat) returns (t: State)
    requires Stays(o, s) && Inv(s, n) && s.bg.Draining? && c < |s.clients| && s.clients[c].Pushed?
    requires s.clients[c].r < |s.reqs| && s.reqs[s.clients[c].r].promise.Some? && 3 * n <= EVENTFD_MAX
    ensures Stays(o, t) && Inv(t, n) && t.bg == Draining && t.rest == s.rest && t.pending != []
  {
    Sizes(s, n);
    hide Inv, Stays;
    RoomToWrite(s, n, c);
    WriteFits(s, c);
    StepStays(o, n, s, Write(c));
    hide Apply, Enabled;
    t := QueueBlocked(o, n, Apply(s, Write(c)), c);
  }

  // A client not waiting for an answer gets a request into the queue while the drain runs.
  lemma QueueFrom(o: State, n: nat, s: State, c: nat) returns (t: State)
    requires Stays(o, s) && Inv(s, n) && s.bg.Draining? && 3 * n <= EVENTFD_MAX
    requires c < n && c < |s.clients| && !s.clients[c].WriteFailed? && !AwaitsAnswer(s.clients[c], s.reqs)
    ensures Stays(o, t) && Inv(t, n) && t.bg == Draining && t.rest == s.rest && t.pending != []
  {
    hide Inv, Stays;
    match s.clients[c]
    case Idle => t := QueueIdle(o, n, s, c);
    case Built(_) => t := QueueBuilt(o, n, s, c);
    case Pushed(_) =>
      OwnRequest(s, n, c);
      t := QueuePushed(o, n, s, c);
    case Blocked(_) =>
      OwnRequest(s, n, c);
      t := QueueBlocked(o, n, s, c);
  }

  lemma QueueSome(o: State, n: nat, s: State) returns (t: State)
    requires Stays(o, s) && Inv(s, n) && s.bg.Draining? && 3 * n <= EVENTFD_MAX && Quota(s) > 0
    requires |s.clients| == n && forall c :: 0 <= c < n ==> !s.clients[c].WriteFailed?
    ensures Stays(o, t) && Inv(t, n) && t.bg == Draining && t.rest == s.rest && t.pending != []
  {
    hide Inv, Stays;
    if s.pending != [] {
      t := s;
    } else {
      assert MayPush(s.clients, s.reqs) != {};
      var c :| c in MayPush(s.clients, s.reqs);
      t := QueueFrom(o, n, s, c);
    }
  }

  // The eventfd is read before the timer, and a request is or gets into the queue.
  lemma QueueFails(o: State, n: nat, s: State)
    requires Stays(o, s) && Inv(s, n) && s.bg.Dispatch? && s.rest != [] && s.rest[0] == QueueReady
    requires TimerReady in s.rest && 3 * n <= EVENTFD_MAX && Quota(s) > 0
    requires |s.clients| == n && forall c :: 0 <= c < n ==> !s.clients[c].WriteFailed?
    ensures CanFailHere(o)
  {
    hide Inv, Stays, Quota, Apply, Enabled;
    assert s.rest == [QueueReady] + s.rest[1..];
    var t := QueueNow(o, n, s);
    t := QueueSome(o, n, t);
    t := ServeUpToAdd(o, n, t);
    FailFrom(o, n, t);
  }

  // The eventfd is read with nothing to come, and a socket is handled before the timer.
  lemma EmptyQueueFails(o: State, n: nat, s: State)
    requires Stays(o, s) && Inv(s, n) && s.bg.Dispatch? && |s.rest| >= 2 && s.rest[0] == QueueReady
    requires s.rest[1].SocketReady? && TimerReady in s.rest && Quota(s) == 0
    ensures CanFailHere(o)
  {
    hide Inv, Stays, Quota, Apply, Enabled;
    assert s.rest == [QueueReady] + s.rest[1..];
    var t := QueueNow(o, n, s);
    NoneQueued(t);
    t := EmptyQueueNow(o, n, t);
    SocketFails(o, n, t);
  }

  lemma NoneQueued(s: State)
    requires Quota(s) == 0
    ensures s.pending == []
  {
  }

  lemma RearmingBatch(n: nat, s: State, batch: seq<Event>)
    requires Reachable(n, s) && s.bg.Waiting? && IsBatch(s, batch) && MayRearm(s, batch) && 3 * n <= EVENTFD_MAX
    ensures CanFailHere(Apply(s, Wait(batch)))
  {
    hide Inv, Stays, Quota, Leads, CanFailHere;
    Fetched(n, s, batch);
    NoFailedWrite(n, s);
    var i :| 0 < i < |batch| && batch[i] == TimerReady && (batch[..i] != [QueueReady] || Quota(s) > 0);
    var b := Apply(s, Wait(batch));
    hide Apply, Enabled;
    StaysHere(b);
    assert batch[0] != batch[i];
    if batch[0].SocketReady? {
      SocketFails(b, n, b);
    } else if Quota(s) > 0 {
      QueueFails(b, n, b);
    } else {
      assert batch[..i] != [QueueReady] && batch[0] == QueueReady;
      assert i != 1;
      assert batch[1] != batch[0] && batch[1] != batch[i];
      EmptyQueueFails(b, n, b);
    }
  }

  /** Which batches can make the timer read fail, by what epoll_wait returned and whether a
      request is or can be on its way: those with a socket before the timer, and those with the
      eventfd before it, unless it is the eventfd alone and nothing is queued and every client
      waits for an answer. The others cannot, whatever other threads do meanwhile. */
  lemma BatchFailsExactly(n: nat, s: State, batch: seq<Event>)
    requires Reachable(n, s) && s.bg.Waiting? && IsBatch(s, batch) && 3 * n <= EVENTFD_MAX
    ensures CanFailHere(Apply(s, Wait(batch))) <==> MayRearm(s, batch)
  {
    if MayRearm(s, batch) { RearmingBatch(n, s, batch); } else { SafeBatch(n, s, batch); }
  }
}
