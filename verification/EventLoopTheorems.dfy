/** What MultiCurlManager promises, for every run of any number of client threads. */
module EventLoopTheorems {
  import opened Wrappers
  import opened RequestInfo
  import opened TimerFd
  import opened Sums
  import opened EventLoop
  import opened EventLoopInvariant
  import opened EventLoopSteps

  // ---------- Exactly once ----------

  function Count(b: bool): nat {
    if b then 1 else 0
  }

  /** Every request ever queued is in exactly one place: queued, popped and in hand, in
      ongoing_requests, or erased; and it is queued and erased at most once. */
  lemma ExactlyOnePlace(n: nat, acts: seq<Action>, s: State, r: Req)
    requires Runs(n, acts, s) && AllDisciplined(Init(n), acts) && r in s.pushed
    ensures Count(r in s.pending) + Count(s.bg.InHand? && s.bg.r == r)
            + Count(IsOngoing(s.ongoing, s.reqs, r)) + Count(r in s.retired) == 1
    ensures NoDup(s.pushed) && NoDup(s.pending) && NoDup(s.retired)
  {
    hide Runs, AllDisciplined;
    RunInv(n, acts, s);
    NoDupParts(s.pushed, s.added, Hand(s.bg), s.pending);
    assert r < |s.reqs|;
    assert r in Hand(s.bg) <==> (s.bg.InHand? && s.bg.r == r) || r in Entering(s.bg);
  }

  /** Only CheckMulti's set_value changes a promise, and only one that was not yet set. */
  lemma PromiseSetOnce(s: State, a: Action, r: Req)
    requires Enabled(s, a) && r < |s.reqs|
    ensures var t := Apply(s, a);
            && r < |t.reqs| && SameRequest(s.reqs[r], t.reqs[r])
            && (t.reqs[r].promise != s.reqs[r].promise ==>
                  && a.SetValue? && r == s.bg.r && s.reqs[r].promise.None?
                  && t.reqs[r].promise == Some(s.bg.resp))
  {
    hide DoWrite, DoNext, DoPop, DoInsert, DoAddHandle, DoReadMsg, DoFill, DoSetValue, DoErase, DoClear;
    if ChangesRequests(a) {
      match a
      case Build(c, easy, url) =>
      case Return(c) =>
      case Fill =>
      case SetValue =>
      case Deliver(easy, chunk) =>
      case Finish(easy, result, code) =>
    }
  }

  /** Once set, a promise keeps its value to the end of the run. */
  lemma {:induction false} PromiseKept(s: State, acts: seq<Action>, t: State, r: Req)
    requires Exec(s, acts) == Some(t) && r < |s.reqs| && s.reqs[r].promise.Some?
    ensures r < |t.reqs| && t.reqs[r].promise == s.reqs[r].promise
  {
    if acts == [] {
    } else {
      var before := Exec(s, acts[..|acts| - 1]).value;
      PromiseKept(s, acts[..|acts| - 1], before, r);
      PromiseSetOnce(before, acts[|acts| - 1], r);
    }
  }

  // Field by field.
  predicate IsOwnResponse(q: Request, resp: Response) {
    q.outcome.Some? && IsManaged(resp, q.url, q.wire, q.outcome.value.code, q.outcome.value.result)
  }

  lemma AnswerFields(q: Request, resp: Response)
    requires IsAnswer(q, resp)
    ensures IsOwnResponse(q, resp)
  {
    hide IsManaged;
    ManagedExactly(resp, q.url, q.wire, q.outcome.value.code, q.outcome.value.result);
  }

  /** A client that returns got the response made from its own transfer: its url and that
      transfer's code whatever the result; on success all the body bytes the network sent for
      this very request, in order and nothing else, and the pairs of its last block; on failure
      the error of that transfer. */
  lemma OwnResponse(n: nat, acts: seq<Action>, s: State, r: Req)
    requires Runs(n, acts, s) && AllDisciplined(Init(n), acts)
    requires r < |s.reqs| && s.reqs[r].received.Some?
    ensures var q := s.reqs[r];
            && IsOwnResponse(q, q.received.value)
            && q.promise == q.received
  {
    hide Runs, AllDisciplined;
    RunInv(n, acts, s);
    assert IsAnswer(s.reqs[r], s.reqs[r].promise.value);
    hide IsAnswer;
    AnswerFields(s.reqs[r], s.reqs[r].promise.value);
  }

  /** Requests reach the multi in the order of the pushes; the rest are in hand or queued. */
  lemma FirstInFirstOut(n: nat, acts: seq<Action>, s: State)
    requires Runs(n, acts, s) && AllDisciplined(Init(n), acts)
    ensures s.pushed == s.added + Hand(s.bg) + s.pending
  {
    hide Runs, AllDisciplined;
    RunInv(n, acts, s);
  }

  // ---------- Assertions and tables ----------

  /** No assertion of the background thread fires, no PRIVATE pointer is null and no promise
      is set twice, although a woken client may queue a handle again before its old entry is
      erased. The one exception is the timer read: see TimerReadExactly. */
  lemma AssertionsHold(n: nat, acts: seq<Action>, s: State)
    requires Runs(n, acts, s) && AllDisciplined(Init(n), acts)
    ensures s.bg.Failed? ==> s.bg.why == TimerRead
  {
    hide Runs, AllDisciplined;
    RunInv(n, acts, s);
  }

  /** ongoing_requests and the multi hold the same handles except inside the two steps that
      change both; PRIVATE and the callback data of an unanswered entry name its request; and
      libcurl never refuses a handle. */
  lemma TablesAgree(n: nat, acts: seq<Action>, s: State)
    requires Runs(n, acts, s) && AllDisciplined(Init(n), acts)
    ensures !s.bg.Inserted? && !s.bg.Adding? && !s.bg.Removed? ==> s.multi == s.ongoing.Keys
    ensures forall e :: e in s.ongoing ==>
              && s.ongoing[e] < |s.reqs| && s.reqs[s.ongoing[e]].easy == e
              && (s.reqs[s.ongoing[e]].promise.None? ==>
                    && e in s.priv && s.priv[e] == s.ongoing[e]
                    && e in s.target && s.target[e] == s.ongoing[e])
    ensures s.bg.Adding? ==> s.bg.r < |s.reqs| && s.reqs[s.bg.r].easy !in s.multi
  {
    hide Runs, AllDisciplined;
    RunInv(n, acts, s);
    if s.bg.Adding? {
      AddingOngoing(s, n);
      AddParts(s, n);
    }
  }

  // The background thread's own next step, outside epoll_wait and libcurl.
  function NextAction(bg: BgPc): Action
    requires !bg.Waiting? && !bg.Failed?
  {
    match bg
    case Dispatch => Next
    case Draining => Pop
    case InHand(_) => Insert
    case Inserted(_) => SetPrivate
    case Adding(_) => AddHandle
    case Action(_) => Leave
    case Checking(_) => ReadMsg
    case GotMsg(_, _, _) => Fill
    case Filled(_, _, _, _) => SetValue
    case Settled(_, _, _) => RemoveHandle
    case Removed(_, _, _) => Erase
    case Clearing => Clear
  }

  /** Outside epoll_wait the background thread can always take its next step, and in
      epoll_wait a queued request whose client has finished writing can always wake it. */
  lemma NeverStuck(n: nat, acts: seq<Action>, s: State)
    requires Runs(n, acts, s) && AllDisciplined(Init(n), acts) && !s.bg.Failed?
    ensures !s.bg.Waiting? ==> Enabled(s, NextAction(s.bg))
    ensures s.bg.Waiting? && s.pending != [] ==>
              && s.pending[0] < |s.reqs| && s.reqs[s.pending[0]].client < |s.clients|
              && (Enabled(s, Wait([QueueReady]))
                  || s.clients[s.reqs[s.pending[0]].client] == Pushed(s.pending[0]))
  {
    hide Runs, AllDisciplined;
    RunInv(n, acts, s);
    if s.bg.Waiting? {
      if s.pending != [] {
        NoLostWakeUp(n, acts, s, 0);
      }
    } else {
      StepEnabled(s, n);
    }
  }

  lemma StepEnabled(s: State, n: nat)
    requires Inv(s, n) && !s.bg.Waiting? && !s.bg.Failed?
    ensures Enabled(s, NextAction(s.bg))
  {
    if s.bg.InHand? || s.bg.Inserted? || s.bg.Adding? {
      hide Inv;
      HandUnfinished(s, n);
    } else if s.bg.GotMsg? {
      hide Inv;
      MessageRequest(s, n);
    } else if s.bg.Filled? {
      hide Inv;
      FilledUnanswered(s, n);
    } else {
      hide Inv;
    }
  }

  // ---------- Wake-ups ----------

  /** No wake-up is lost: when the loop is blocked with requests queued, the eventfd is
      readable, or the client of each queued request has still to write it. */
  lemma NoLostWakeUp(n: nat, acts: seq<Action>, s: State, i: nat)
    requires Runs(n, acts, s) && AllDisciplined(Init(n), acts)
    requires i < |s.pending| && !InDrain(s.bg)
    ensures s.counter > 0
            || (s.pending[i] < |s.reqs| && s.reqs[s.pending[i]].client < |s.clients|
                && s.clients[s.reqs[s.pending[i]].client] == Pushed(s.pending[i]))
  {
    hide Runs, AllDisciplined;
    RunInv(n, acts, s);
  }

  lemma WritesAtMostThree(s: State, n: nat)
    requires Inv(s, n)
    ensures forall c :: 0 <= c < n ==> s.writes[c] <= 3
  {
    Sizes(s, n);
    forall c | 0 <= c < n ensures s.writes[c] <= 3 {
      assert s.writes[c] <= Allowance(s.clients[c], InDrain(s.bg), s.pending, s.reqs);
    }
  }

  /** The eventfd counter never exceeds three per client thread. */
  lemma EventfdBound(n: nat, acts: seq<Action>, s: State)
    requires Runs(n, acts, s) && AllDisciplined(Init(n), acts)
    ensures s.counter <= 3 * n
  {
    hide Runs, AllDisciplined;
    RunInv(n, acts, s);
    Sizes(s, n);
    WritesAtMostThree(s, n);
    SumBound(s.writes, 3);
  }

  // A client about to write has made at most two writes since the last read.
  lemma PusherWrites(s: State, n: nat, c: nat)
    requires Inv(s, n) && c < n && c < |s.clients| && s.clients[c].Pushed?
    ensures |s.writes| == n && s.counter == Sum(s.writes) && s.writes[c] <= 2
    ensures forall d :: 0 <= d < n ==> s.writes[d] <= 3
  {
    Sizes(s, n);
    WritesAtMostThree(s, n);
    assert s.writes[c] <= Allowance(s.clients[c], InDrain(s.bg), s.pending, s.reqs) <= 2;
  }

  lemma SumWithRoom(writes: seq<nat>, c: nat)
    requires c < |writes| && writes[c] <= 2 && forall d :: 0 <= d < |writes| ==> writes[d] <= 3
    ensures Sum(writes) + 1 <= 3 * |writes|
  {
    SumUpdate(writes, c, writes[c] + 1);
    SumBound(writes[c := writes[c] + 1], 3);
  }

  lemma RoomToWrite(s: State, n: nat, c: nat)
    requires Inv(s, n) && c < n && c < |s.clients| && s.clients[c].Pushed?
    ensures s.counter + 1 <= 3 * n
  {
    hide Inv;
    PusherWrites(s, n, c);
    SumWithRoom(s.writes, c);
  }

  // A write that fits leaves no client with a failed one.
  lemma StepWrites(s: State, a: Action, n: nat)
    requires Enabled(s, a) && |s.clients| == n
    requires forall c :: 0 <= c < n ==> !s.clients[c].WriteFailed?
    requires a.Write? ==> s.counter + 1 <= EVENTFD_MAX
    ensures |Apply(s, a).clients| == n
    ensures forall c :: 0 <= c < n ==> !Apply(s, a).clients[c].WriteFailed?
  {
    if IsClientAction(a) {
      match a
      case Build(c, easy, url) =>
      case Push(c) =>
      case Write(c) =>
      case Return(c) =>
    }
  }

  /** So with at most a third of the eventfd's range in client threads, the assertion on the
      client's write never fires. */
  lemma {:induction false} WritesSucceed(n: nat, acts: seq<Action>, s: State)
    requires Runs(n, acts, s) && AllDisciplined(Init(n), acts) && 3 * n <= EVENTFD_MAX
    ensures |s.clients| == n && forall c :: 0 <= c < n ==> !s.clients[c].WriteFailed?
  {
    if acts == [] {
    } else {
      var before, a := Exec(Init(n), acts[..|acts| - 1]).value, acts[|acts| - 1];
      DisciplinedSplit(Init(n), acts);
      WritesSucceed(n, acts[..|acts| - 1], before);
      RunInv(n, acts[..|acts| - 1], before);
      if a.Write? {
        RoomToWrite(before, n, a.c);
      }
      StepWrites(before, a, n);
    }
  }

  // ---------- Timer ----------

  // With no message left and none in hand, whatever is in the multi is running.
  lemma NoneLeft(ongoing: map<Easy, Req>, multi: set<Easy>, running: set<Easy>, job: map<Easy, Req>, msgs: seq<Msg>)
    requires Tables(ongoing, multi, running, job, {}) && Messages(msgs, multi, running, {}) && msgs == []
    ensures running == multi == ongoing.Keys
  {
    assert forall e :: !HasDone(msgs, e);
  }

  lemma TimerFacts(s: State, n: nat)
    requires Inv(s, n)
    ensures TimerAgrees(s.timer.value, s.cleared, s.asked)
    ensures s.bg.Clearing? ==> (s.stillRunning <= 0 <==> s.ongoing == map[])
    ensures s.bg.Clearing? ==> s.multi == s.running == s.ongoing.Keys
  {
    if s.bg.Clearing? {
      NoneLeft(s.ongoing, s.multi, s.running, s.job, s.msgs);
      assert s.running == {} <==> |s.running| == 0;
    }
  }

  /** The timer is programmed as libcurl last asked, unless EventCallback switched it off since;
      and when EventCallback is about to, nothing is ongoing and libcurl holds no handle. */
  lemma TimerFollowsRequests(n: nat, acts: seq<Action>, s: State)
    requires Runs(n, acts, s) && AllDisciplined(Init(n), acts)
    ensures !s.cleared ==> s.timer.value == match s.asked case None => Itimerspec(1, 0) case Some(ms) => Spec(ms)
    ensures s.bg.Clearing? ==> (s.stillRunning <= 0 <==> s.ongoing == map[])
    ensures s.bg.Clearing? ==> s.multi == s.running == s.ongoing.Keys
  {
    hide Runs, AllDisciplined, Inv;
    RunInv(n, acts, s);
    TimerFacts(s, n);
  }

  /** The assertion on the timer read fails exactly when the timer was set again after this
      batch was fetched, by libcurl or by EventCallback, and has not expired since. */
  lemma TimerReadExactly(n: nat, acts: seq<Action>, s: State)
    requires Runs(n, acts, s) && AllDisciplined(Init(n), acts)
    requires s.bg.Dispatch? && s.rest != [] && s.rest[0].TimerReady?
    ensures Apply(s, Next).bg == Failed(TimerRead) <==> s.rearmed && !s.expired
  {
    hide Runs, AllDisciplined;
    RunInv(n, acts, s);
    assert TimerReady in s.rest;
  }

  // ---------- What changes the timer ----------

  // On whose behalf curl_multi_socket_action and CheckMulti run.
  function CallerOf(bg: BgPc): Option<Caller> {
    if bg.Action? || bg.Checking? || bg.GotMsg? || bg.Filled? || bg.Settled? || bg.Removed? then Some(bg.k) else None
  }

  predicate CallerKept(before: BgPc, after: BgPc) {
    CallerOf(after).Some? ==> CallerOf(after) == CallerOf(before)
  }

  // The setting after one step.
  function SettingAfter(s: State, a: Action): Itimerspec {
    match a
    case TimerRequest(ms) => Spec(ms)
    case Clear => if s.ongoing == map[] then Itimerspec(0, 0) else s.timer.value
    case _ => s.timer.value
  }

  // The step by which CheckMulti ends, called from EventCallback.
  predicate EndsSocketCheck(s: State, a: Action) {
    a.ReadMsg? && s.bg == Checking(FromSocket) && s.msgs == []
  }

  ghost predicate TimerKept(s: State, t: State) {
    t.timer.value == s.timer.value && !t.bg.Clearing?
  }

  // Nor the rest of the batch, and the step does not fail on the timer.
  ghost predicate BatchKept(s: State, t: State) {
    TimerKept(s, t) && CallerKept(s.bg, t.bg) && t.rest == s.rest && t.bg != Failed(TimerRead)
  }

  lemma EndKeepsTimer(s: State)
    requires s.bg.Dispatch? && s.rest == []
    ensures TimerKept(s, DoNext(s))
  {
  }

  lemma TicksKeepTimer(s: State)
    requires s.bg.Dispatch? && s.rest != [] && s.rest[0].TimerReady?
    ensures TimerKept(s, DoNext(s))
  {
    if s.timer.ticks == 0 { return; } else { return; }
  }

  lemma QueueKeepsTimer(s: State)
    requires s.bg.Dispatch? && s.rest != [] && s.rest[0].QueueReady?
    ensures TimerKept(s, DoNext(s))
  {
    if s.counter == 0 { return; } else { return; }
  }

  lemma SocketKeepsTimer(s: State)
    requires s.bg.Dispatch? && s.rest != [] && s.rest[0].SocketReady?
    ensures TimerKept(s, DoNext(s))
  {
  }

  lemma NextKeepsTimer(s: State)
    requires s.bg.Dispatch?
    ensures TimerKept(s, DoNext(s))
  {
    hide DoNext, TimerKept;
    if s.rest == [] {
      EndKeepsTimer(s);
    } else if s.rest[0].TimerReady? {
      TicksKeepTimer(s);
    } else if s.rest[0].QueueReady? {
      QueueKeepsTimer(s);
    } else {
      SocketKeepsTimer(s);
    }
  }

  lemma PopKeepsTimer(s: State)
    ensures TimerKept(s, DoPop(s)) && CallerKept(s.bg, DoPop(s).bg)
  {
    if s.pending == [] { return; } else { return; }
  }

  lemma InsertedKeepsTimer(s: State)
    requires s.bg.InHand? && s.bg.r < |s.reqs| && s.reqs[s.bg.r].easy !in s.ongoing
    ensures BatchKept(s, DoInsert(s))
  {
  }

  lemma InsertKeepsTimer(s: State)
    requires s.bg.InHand? && s.bg.r < |s.reqs|
    ensures BatchKept(s, DoInsert(s))
  {
    if s.reqs[s.bg.r].easy !in s.ongoing {
      hide DoInsert;
      InsertedKeepsTimer(s);
    }
  }

  lemma AddKeepsTimer(s: State)
    requires s.bg.Adding? && s.bg.r < |s.reqs|
    ensures TimerKept(s, DoAddHandle(s))
  {
    if s.reqs[s.bg.r].easy in s.multi { return; } else { return; }
  }

  lemma FilledKeepsTimer(s: State)
    requires Enabled(s, Fill) && s.bg.easy in s.priv
    ensures BatchKept(s, DoFill(s))
  {
    hide ManagedResponse, MovedOut;
  }

  lemma FillKeepsTimer(s: State)
    requires Enabled(s, Fill)
    ensures BatchKept(s, DoFill(s))
  {
    if s.bg.easy in s.priv {
      hide DoFill;
      FilledKeepsTimer(s);
    }
  }

  lemma SetKeepsTimer(s: State)
    requires s.bg.Filled? && s.bg.r < |s.reqs| && s.reqs[s.bg.r].promise.None?
    ensures BatchKept(s, DoSetValue(s))
  {
  }

  lemma SetValueKeepsTimer(s: State)
    requires s.bg.Filled? && s.bg.r < |s.reqs|
    ensures BatchKept(s, DoSetValue(s))
  {
    if s.reqs[s.bg.r].promise.None? {
      hide DoSetValue;
      SetKeepsTimer(s);
    }
  }

  lemma EraseKeepsTimer(s: State)
    requires s.bg.Removed?
    ensures BatchKept(s, DoErase(s))
  {
    if s.bg.easy !in s.ongoing { return; } else { return; }
  }

  lemma ClearSets(s: State)
    ensures DoClear(s).timer.value == if s.stillRunning <= 0 then Itimerspec(0, 0) else s.timer.value
    ensures DoClear(s).bg == Dispatch
  {
    if s.stillRunning <= 0 { return; } else { return; }
  }

  lemma ReadKeepsTimer(s: State)
    requires s.bg.Checking?
    ensures DoReadMsg(s).timer == s.timer && CallerKept(s.bg, DoReadMsg(s).bg)
    ensures DoReadMsg(s).bg.Clearing? <==> s.bg == Checking(FromSocket) && s.msgs == []
  {
    if s.msgs == [] { return; } else if s.msgs[0].OtherMsg? { return; } else { return; }
  }

  lemma WriteKeepsTimer(s: State, c: nat)
    requires c < |s.clients| && c < |s.writes| && s.clients[c].Pushed?
    ensures DoWrite(s, c).timer == s.timer && DoWrite(s, c).bg == s.bg
  {
    if s.counter + 1 > EVENTFD_MAX { return; } else { return; }
  }

  lemma LoopKeepsTimer(s: State, a: Action)
    requires Enabled(s, a) && (a.Next? || a.Pop? || a.Insert? || a.AddHandle? || a.Fill? || a.SetValue? || a.Erase?)
    ensures TimerKept(s, Apply(s, a)) && !s.bg.Clearing?
  {
    hide DoNext, DoPop, DoInsert, DoAddHandle, DoReadMsg, DoFill, DoSetValue, DoErase, DoClear;
    match a
    case Next => NextKeepsTimer(s);
    case Pop => PopKeepsTimer(s);
    case Insert => InsertKeepsTimer(s);
    case AddHandle => AddKeepsTimer(s);
    case Fill => FillKeepsTimer(s);
    case SetValue => SetValueKeepsTimer(s);
    case Erase => EraseKeepsTimer(s);
  }

  // The setting, and whether EventCallback is about to look at it.
  lemma TimerStep(s: State, a: Action)
    requires Enabled(s, a) && (s.bg.Clearing? ==> (s.stillRunning <= 0 <==> s.ongoing == map[]))
    ensures Apply(s, a).timer.value == SettingAfter(s, a)
    ensures Apply(s, a).bg.Clearing? <==> EndsSocketCheck(s, a) || (s.bg.Clearing? && !a.Clear?)
  {
    hide DoWrite, DoNext, DoPop, DoInsert, DoAddHandle, DoReadMsg, DoFill, DoSetValue, DoErase, DoClear, Spec;
    match a
    case Write(c) => WriteKeepsTimer(s, c);
    case ReadMsg => ReadKeepsTimer(s);
    case Clear => ClearSets(s);
    case Next => LoopKeepsTimer(s, a);
    case Pop => LoopKeepsTimer(s, a);
    case Insert => LoopKeepsTimer(s, a);
    case AddHandle => LoopKeepsTimer(s, a);
    case Fill => LoopKeepsTimer(s, a);
    case SetValue => LoopKeepsTimer(s, a);
    case Erase => LoopKeepsTimer(s, a);
    case _ =>
  }

  /** Nothing changes the timer's setting but libcurl's requests and EventCallback: it switches
      the timer off when its CheckMulti leaves nothing ongoing, and otherwise leaves it alone;
      TimerCallback never does. */
  lemma TimerChangesExactly(n: nat, acts: seq<Action>, s: State, a: Action)
    requires Runs(n, acts, s) && AllDisciplined(Init(n), acts) && Enabled(s, a)
    ensures Apply(s, a).timer.value == SettingAfter(s, a)
    ensures Apply(s, a).bg.Clearing? <==> EndsSocketCheck(s, a) || (s.bg.Clearing? && !a.Clear?)
  {
    hide Runs, AllDisciplined, Apply, Enabled;
    TimerFollowsRequests(n, acts, s);
    TimerStep(s, a);
  }

  // Started by the event at the head of the batch.
  predicate StartedBy(s: State, a: Action, k: Caller) {
    a.Next? && s.rest != [] && if k.FromTimer? then s.rest[0].TimerReady? else s.rest[0].SocketReady?
  }

  lemma NextCaller(s: State)
    requires s.bg.Dispatch? && CallerOf(DoNext(s).bg).Some?
    ensures StartedBy(s, Next, CallerOf(DoNext(s).bg).value)
  {
    assert s.rest != [] && !s.rest[0].QueueReady?;
    if s.rest[0].TimerReady? { assert s.timer.ticks > 0; return; } else { return; }
  }

  /** CheckMulti runs for EventCallback on account of a socket event only, and for TimerCallback
      on account of the timer's only. */
  lemma CallerFollowsEvent(s: State, a: Action)
    requires Enabled(s, a) && CallerOf(Apply(s, a).bg).Some?
    ensures CallerOf(Apply(s, a).bg) == CallerOf(s.bg) || StartedBy(s, a, CallerOf(Apply(s, a).bg).value)
  {
    hide DoWrite, DoNext, DoPop, DoInsert, DoAddHandle, DoReadMsg, DoFill, DoSetValue, DoErase, DoClear;
    match a
    case Write(c) => WriteKeepsTimer(s, c);
    case Next => NextCaller(s);
    case ReadMsg => ReadKeepsTimer(s);
    case Fill => FillKeepsTimer(s);
    case SetValue => SetValueKeepsTimer(s);
    case Erase => EraseKeepsTimer(s);
    case Pop => PopKeepsTimer(s);
    case Insert => InsertKeepsTimer(s);
    case Clear => ClearSets(s);
    case _ =>
  }

  // ---------- The drain ----------

  // The clients that can still push during this drain: those not waiting for an answer.
  function MayPush(clients: seq<ClientPc>, reqs: seq<Request>): set<nat> {
    set c {:trigger clients[c]} | 0 <= c < |clients| && !AwaitsAnswer(clients[c], reqs)
  }

  predicate AwaitsAnswer(pc: ClientPc, reqs: seq<Request>) {
    && (pc.Pushed? || pc.Blocked? || pc.WriteFailed?)
    && pc.r < |reqs| && reqs[pc.r].promise.None?
  }

  // The drain's decreasing measure, under whatever other threads do.
  function Quota(s: State): nat {
    |s.pending| + |MayPush(s.clients, s.reqs)|
  }

  lemma QuotaClientStep(s: State, a: Action, n: nat)
    requires Inv(s, n) && Enabled(s, a) && IsClientAction(a)
    ensures Quota(Apply(s, a)) <= Quota(s)
  {
    Sizes(s, n);
    hide Inv, DoWrite, MayPush, AwaitsAnswer;
    match a
    case Build(c, easy, url) => QuotaBuild(s, c, easy, url);
    case Push(c) => QuotaPush(s, c, n);
    case Write(c) => QuotaWrite(s, c);
    case Return(c) => QuotaReturn(s, c);
  }

  lemma QuotaBuild(s: State, c: nat, easy: Easy, url: string)
    requires c < |s.clients| && s.clients[c].Idle?
    ensures Quota(DoBuild(s, c, easy, url)) <= Quota(s)
  {
    QuotaMove(s, c, Built(|s.reqs|), DoBuild(s, c, easy, url).reqs);
  }

  lemma QuotaWrite(s: State, c: nat)
    requires c < |s.clients| && c < |s.writes| && s.clients[c].Pushed?
    ensures Quota(DoWrite(s, c)) <= Quota(s)
  {
    hide DoWrite;
    QuotaMove(s, c, WriteFailed(s.clients[c].r), s.reqs);
    QuotaMove(s, c, Blocked(s.clients[c].r), s.reqs);
  }

  lemma QuotaReturn(s: State, c: nat)
    requires c < |s.clients| && s.clients[c].Blocked? && s.clients[c].r < |s.reqs|
    requires s.reqs[s.clients[c].r].promise.Some?
    ensures Quota(DoReturn(s, c)) <= Quota(s)
  {
    QuotaMove(s, c, Idle, DoReturn(s, c).reqs);
  }

  lemma QuotaDrainStep(s: State, a: Action)
    requires Enabled(s, a) && !IsClientAction(a) && !ChangesRequests(a) && (a.Pop? ==> s.bg.Draining?)
    requires InDrain(s.bg) && InDrain(Apply(s, a).bg)
    ensures Quota(Apply(s, a)) + Count(a.Pop?) == Quota(s)
  {
    hide Apply, Enabled, MayPush;
    if a.Pop? {
      QuotaPop(s);
    }
  }

  lemma QuotaPop(s: State)
    requires s.bg.Draining? && Enabled(s, Pop) && InDrain(Apply(s, Pop).bg)
    ensures Quota(Apply(s, Pop)) + 1 == Quota(s)
  {
    hide MayPush;
    if s.pending == [] { return; } else { return; }
  }

  lemma QuotaStep(s: State, a: Action, n: nat)
    requires Inv(s, n) && Enabled(s, a)
    requires InDrain(s.bg) && InDrain(Apply(s, a).bg)
    ensures Quota(Apply(s, a)) + Count(a.Pop?) <= Quota(s)
  {
    hide Inv, Apply, Quota;
    if IsClientAction(a) { QuotaClientStep(s, a, n); } else { QuotaDrainStep(s, a); }
  }

  lemma QuotaMove(s: State, c: nat, pc: ClientPc, later: seq<Request>)
    requires c < |s.clients| && |later| >= |s.reqs|
    requires forall r :: 0 <= r < |s.reqs| ==> later[r].promise == s.reqs[r].promise
    requires AwaitsAnswer(s.clients[c], s.reqs) ==> AwaitsAnswer(pc, later)
    ensures |MayPush(s.clients[c := pc], later)| <= |MayPush(s.clients, s.reqs)|
  {
    SubsetSize(MayPush(s.clients[c := pc], later), MayPush(s.clients, s.reqs));
  }

  lemma QuotaPush(s: State, c: nat, n: nat)
    requires Inv(s, n) && c < n && c < |s.clients| && s.clients[c].Built?
    ensures Quota(DoPush(s, c)) <= Quota(s)
  {
    var t := DoPush(s, c);
    PushAnswerless(s, c, n);
    assert c in MayPush(s.clients, s.reqs);
    forall d | d in MayPush(t.clients, t.reqs) ensures d in MayPush(s.clients, s.reqs) - {c} {}
    SubsetSize(MayPush(t.clients, t.reqs), MayPush(s.clients, s.reqs) - {c});
  }

  // A request not yet queued has no answer yet.
  lemma PushAnswerless(s: State, c: nat, n: nat)
    requires Inv(s, n) && c < n && c < |s.clients| && s.clients[c].Built?
    ensures s.clients[c].r < |s.reqs| && s.reqs[s.clients[c].r].promise.None?
  {
    NoDupParts(s.pushed, s.added, Hand(s.bg), s.pending);
    var r := s.clients[c].r;
    assert s.reqs[r].client == c;
    assert r !in s.pushed && r !in s.retired;
    if r in Leaving(s.bg) { assert IsOngoing(s.ongoing, s.reqs, r); }
  }

  lemma MayPushBelow(clients: seq<ClientPc>, reqs: seq<Request>)
    ensures MayPush(clients, reqs) <= Interval(|clients|)
    ensures forall c: nat :: c < |clients| && AwaitsAnswer(clients[c], reqs) ==> c !in MayPush(clients, reqs)
  {
  }

  // Each queued request keeps one client waiting.
  lemma QuotaBound(s: State, n: nat)
    requires Inv(s, n)
    ensures Quota(s) <= n
  {
    hide Inv, MayPush, AwaitsAnswer, NoDup;
    Sizes(s, n);
    PendingDistinct(s, n);
    MayPushBelow(s.clients, s.reqs);
    forall i | 0 <= i < |s.pending|
      ensures s.pending[i] < |s.reqs| && s.reqs[s.pending[i]].client < n
      ensures s.clients[s.reqs[s.pending[i]].client] != Idle
      ensures s.clients[s.reqs[s.pending[i]].client].r == s.pending[i]
      ensures s.reqs[s.pending[i]].client !in MayPush(s.clients, s.reqs)
    {
      PendingClient(s, n, s.pending[i]);
    }
    ImageSize(s, |s.pending|);
    IntervalSize(n);
    var waiting := Waiting(s, |s.pending|);
    SubsetSize(waiting + MayPush(s.clients, s.reqs), Interval(n));
    assert |waiting + MayPush(s.clients, s.reqs)| == |waiting| + |MayPush(s.clients, s.reqs)|;
  }

  lemma PendingDistinct(s: State, n: nat)
    requires Inv(s, n)
    ensures NoDup(s.pending)
  {
    NoDupParts(s.pushed, s.added, Hand(s.bg), s.pending);
  }

  lemma PendingClient(s: State, n: nat, r: Req)
    requires Inv(s, n) && r in s.pending
    ensures r < |s.reqs| && s.reqs[r].client < n && s.reqs[r].client < |s.clients|
    ensures s.clients[s.reqs[r].client] != Idle && s.clients[s.reqs[r].client].r == r
    ensures AwaitsAnswer(s.clients[s.reqs[r].client], s.reqs)
  {
    NoDupParts(s.pushed, s.added, Hand(s.bg), s.pending);
    assert r in s.pushed;
    assert s.reqs[r].client < n;
    if s.reqs[r].promise.Some? {
      AnsweredNotPending(s, r);
    }
    assert s.reqs[r].received.None?;
  }

  // The clients of the first k queued requests.
  ghost function Waiting(s: State, k: nat): set<nat>
    requires k <= |s.pending| && forall i :: 0 <= i < k ==> s.pending[i] < |s.reqs|
  {
    set i | 0 <= i < k :: s.reqs[s.pending[i]].client
  }

  lemma {:induction false} ImageSize(s: State, k: nat)
    requires k <= |s.pending| && NoDup(s.pending)
    requires forall i :: 0 <= i < |s.pending| ==>
               && s.pending[i] < |s.reqs| && s.reqs[s.pending[i]].client < |s.clients|
               && s.clients[s.reqs[s.pending[i]].client] != Idle
               && s.clients[s.reqs[s.pending[i]].client].r == s.pending[i]
    ensures |Waiting(s, k)| == k
  {
    if k == 0 {
    } else {
      ImageSize(s, k - 1);
      var c := s.reqs[s.pending[k - 1]].client;
      assert Waiting(s, k) == Waiting(s, k - 1) + {c};
      assert c !in Waiting(s, k - 1);
    }
  }

  function Pops(acts: seq<Action>): nat {
    if acts == [] then 0 else Pops(acts[..|acts| - 1]) + Count(acts[|acts| - 1].Pop?)
  }

  // The background thread stays inside one call of ProcessPendingRequests throughout.
  predicate StaysInDrain(s: State, acts: seq<Action>) {
    forall k :: 0 <= k <= |acts| ==>
      Exec(s, acts[..k]).Some? && InDrain(Exec(s, acts[..k]).value.bg)
  }

  lemma {:induction false} DrainMeasure(s: State, acts: seq<Action>, n: nat)
    requires Inv(s, n) && AllDisciplined(s, acts) && StaysInDrain(s, acts)
    ensures Exec(s, acts).Some? && Inv(Exec(s, acts).value, n)
    ensures Pops(acts) + Quota(Exec(s, acts).value) <= Quota(s)
  {
    if acts == [] {
    } else {
      var init, a := acts[..|acts| - 1], acts[|acts| - 1];
      assert acts[..|acts|] == acts;
      forall k | 0 <= k <= |init|
        ensures Exec(s, init[..k]).Some? && InDrain(Exec(s, init[..k]).value.bg)
      {
        assert init[..k] == acts[..k];
      }
      DisciplinedSplit(s, acts);
      DrainMeasure(s, init, n);
      var t := Exec(s, init).value;
      QuotaStep(t, a, n);
      KeepInv(t, a, n);
    }
  }

  /** One call of ProcessPendingRequests takes at most n requests from the queue, however the
      n client threads keep pushing meanwhile. */
  lemma DrainBounded(n: nat, before: seq<Action>, s: State, acts: seq<Action>)
    requires Runs(n, before, s) && AllDisciplined(Init(n), before)
    requires AllDisciplined(s, acts) && StaysInDrain(s, acts)
    ensures Pops(acts) <= n
  {
    RunInv(n, before, s);
    DrainMeasure(s, acts, n);
    QuotaBound(s, n);
  }
}
