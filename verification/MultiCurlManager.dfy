/** The class itself, statement by statement. Between any two of its statements other threads
    run; the trace records every step, and each method is proved to follow the step system. */
module MultiCurlManager {
  import opened Wrappers
  import opened RequestInfo
  import opened TimerFd
  import opened EventLoop
  import opened EventLoopInvariant
  import opened EventLoopSteps
  import opened EventLoopTheorems

  // The steps that other threads and the clock take while the background thread is elsewhere.
  predicate IsOthers(a: Action) {
    IsClientAction(a) || a.Tick?
  }

  // What those steps leave alone.
  ghost predicate LoopUntouched(s: State, t: State) {
    && t.bg == s.bg && t.rest == s.rest && t.ongoing == s.ongoing && t.stillRunning == s.stillRunning
    && t.multi == s.multi && t.running == s.running && t.msgs == s.msgs
    && t.added == s.added && t.retired == s.retired && t.rearmed == s.rearmed
    && s.pushed <= t.pushed && |s.reqs| <= |t.reqs|
  }

  lemma OthersStep(s: State, a: Action)
    requires Enabled(s, a) && IsOthers(a)
    ensures LoopUntouched(s, Apply(s, a))
  {
    if a.Write? {
      WriteUntouched(s, a.c);
    } else {
      hide DoWrite, DoNext, DoPop, DoInsert, DoAddHandle, DoReadMsg, DoFill, DoSetValue, DoErase, DoClear;
    }
  }

  lemma WriteUntouched(s: State, c: nat)
    requires Enabled(s, Write(c))
    ensures LoopUntouched(s, Apply(s, Write(c)))
  {
    if s.counter + 1 > EVENTFD_MAX { return; } else { return; }
  }

  lemma Extends(n: nat, trace: seq<Action>, s: State, a: Action)
    requires Runs(n, trace, s) && AllDisciplined(Init(n), trace) && Enabled(s, a) && Disciplined(s, a)
    ensures Runs(n, trace + [a], Apply(s, a)) && AllDisciplined(Init(n), trace + [a]) && Inv(Apply(s, a), n)
    ensures Pops(trace + [a]) == Pops(trace) + Count(a.Pop?)
  {
    ExtendsRun(n, trace, s, a);
    hide *;
    RunInv(n, trace + [a], Apply(s, a));
    PopsStep(trace, a);
  }

  lemma ExtendsRun(n: nat, trace: seq<Action>, s: State, a: Action)
    requires Runs(n, trace, s) && AllDisciplined(Init(n), trace) && Enabled(s, a) && Disciplined(s, a)
    ensures Runs(n, trace + [a], Apply(s, a)) && AllDisciplined(Init(n), trace + [a])
  {
    hide Inv, Apply, Enabled, Init;
    ExecStep(Init(n), trace, a);
  }

  lemma PopsStep(trace: seq<Action>, a: Action)
    ensures Pops(trace + [a]) == Pops(trace) + Count(a.Pop?)
  {
    assert (trace + [a])[..|trace|] == trace;
  }

  class MultiCurlManager {
    const threads: nat

    // MultiCurlManager and GlobalInfo
    var pendingRequests: seq<Req>
    var ongoingRequests: map<Easy, Req>
    var stillRunning: int

    // the request objects, libcurl, the kernel, the threads' positions and the history
    var world: State

    ghost var trace: seq<Action>

    function St(): State
      reads this
    {
      world.(pending := pendingRequests, ongoing := ongoingRequests, stillRunning := stillRunning)
    }

    ghost predicate Valid()
      reads this
    {
      Runs(threads, trace, St()) && AllDisciplined(Init(threads), trace)
    }

    // Exactly one step was taken.
    twostate predicate Did(a: Action)
      reads this
    {
      && Enabled(old(St()), a) && St() == Apply(old(St()), a)
      && trace == old(trace) + [a]
    }

    constructor (n: nat)
      ensures Valid() && threads == n && St() == Init(n) && trace == []
    {
      threads := n;
      pendingRequests, ongoingRequests, stillRunning := [], map[], 0;
      world := Init(n);
      trace := [];
    }

    // Any one step, taken by whoever it belongs to.
    method Perform(a: Action)
      requires Valid() && Enabled(St(), a) && Disciplined(St(), a)
      modifies this
      ensures Valid() && Did(a)
      ensures Pops(trace) == Pops(old(trace)) + Count(a.Pop?)
    {
      hide Runs, Inv, Pops, Apply, Enabled, AllDisciplined;
      Extends(threads, trace, St(), a);
      var t := Apply(St(), a);
      pendingRequests, ongoingRequests, stillRunning, world := t.pending, t.ongoing, t.stillRunning, t;
      trace := trace + [a];
    }

    // The other threads run for a while.
    method OthersRun()
      requires Valid()
      modifies this
      ensures Valid() && old(trace) <= trace && LoopUntouched(old(St()), St())
      ensures world.bg == old(world.bg) && old(world.pushed) <= world.pushed
      ensures world.rest == old(world.rest) && world.msgs == old(world.msgs) && world.rearmed == old(world.rearmed)
      ensures stillRunning == old(stillRunning) && ongoingRequests == old(ongoingRequests)
      ensures Pops(trace) == Pops(old(trace))
      ensures InDrain(world.bg) ==> Quota(St()) <= old(Quota(St()))
    {
      var steps: int := *;
      while steps > 0
        invariant Valid() && old(trace) <= trace && LoopUntouched(old(St()), St())
        invariant Pops(trace) == Pops(old(trace))
        invariant InDrain(world.bg) ==> Quota(St()) <= old(Quota(St()))
      {
        var a: Action := *;
        if Enabled(St(), a) && Disciplined(St(), a) && IsOthers(a) {
          hide Valid, Quota, Pops, Enabled, Disciplined;
          OtherStep(a);
        }
        steps := steps - 1;
      }
    }

    method OtherStep(a: Action)
      requires Valid() && Enabled(St(), a) && Disciplined(St(), a) && IsOthers(a)
      modifies this
      ensures Valid() && old(trace) <= trace && LoopUntouched(old(St()), St())
      ensures Pops(trace) == Pops(old(trace))
      ensures InDrain(world.bg) ==> Quota(St()) <= old(Quota(St()))
    {
      OtherFacts(a);
      hide Valid, Apply, Enabled, Quota, Pops, Disciplined;
      Perform(a);
    }

    lemma OtherFacts(a: Action)
      requires Valid() && Enabled(St(), a) && Disciplined(St(), a) && IsOthers(a)
      ensures LoopUntouched(St(), Apply(St(), a)) && Count(a.Pop?) == 0
      ensures InDrain(Apply(St(), a).bg) ==> Quota(Apply(St(), a)) <= Quota(St())
    {
      OthersStep(St(), a);
      RunInv(threads, trace, St());
      hide Valid, Apply, Enabled, Quota, Inv, Runs;
      if InDrain(world.bg) {
        QuotaStep(St(), a, threads);
      }
    }

    // ---------- ProcessPendingRequests ----------

    // Under the lock: take the front request, or see the queue empty.
    method PopRequest() returns (r: Option<Req>)
      requires Valid() && world.bg.Draining?
      modifies this
      ensures Valid() && Did(Pop) && old(trace) <= trace && Pops(trace) == Pops(old(trace)) + 1
      ensures world.rest == old(world.rest)
      ensures world.pushed == old(world.pushed)
      ensures old(pendingRequests) == [] ==> r == None && world.bg == Dispatch && pendingRequests == []
      ensures old(pendingRequests) != [] ==>
                && r == Some(old(pendingRequests)[0]) && world.bg == InHand(r.value)
                && pendingRequests == old(pendingRequests)[1..] && Quota(St()) + 1 == old(Quota(St()))
    {
      hide Valid, Did;
      if pendingRequests == [] {
        SeeEmpty();
        r := None;
      } else {
        var front := TakeFront();
        r := Some(front);
      }
    }

    method SeeEmpty()
      requires Valid() && world.bg.Draining? && pendingRequests == []
      modifies this
      ensures Valid() && Did(Pop) && old(trace) <= trace && Pops(trace) == Pops(old(trace)) + 1
      ensures world.rest == old(world.rest)
      ensures world.pushed == old(world.pushed) && world.bg == Dispatch && pendingRequests == []
    {
      hide Runs, Inv, Pops;
      Extends(threads, trace, St(), Pop);
      world := world.(bg := Dispatch);
      trace := trace + [Pop];
    }

    method TakeFront() returns (r: Req)
      requires Valid() && world.bg.Draining? && pendingRequests != []
      modifies this
      ensures Valid() && Did(Pop) && old(trace) <= trace && Pops(trace) == Pops(old(trace)) + 1
      ensures world.rest == old(world.rest)
      ensures world.pushed == old(world.pushed) && r == old(pendingRequests)[0] && world.bg == InHand(r)
      ensures pendingRequests == old(pendingRequests)[1..] && Quota(St()) + 1 == old(Quota(St()))
    {
      hide Runs, Inv, Pops, MayPush;
      Extends(threads, trace, St(), Pop);
      r := pendingRequests[0];
      pendingRequests := pendingRequests[1..];
      world := world.(bg := InHand(r));
      trace := trace + [Pop];
    }

    lemma HandleNotOngoing(r: Req)
      requires Valid() && world.bg == InHand(r)
      ensures r < |world.reqs| && world.reqs[r].easy !in ongoingRequests
    {
      RunInv(threads, trace, St());
      HandleFree(St(), threads);
    }

    // The assertion that the handle is not ongoing, and the new entry.
    method InsertRequest(r: Req)
      requires Valid() && world.bg == InHand(r)
      modifies this
      ensures Valid() && Did(Insert) && old(trace) <= trace && Pops(trace) == Pops(old(trace))
      ensures world.rest == old(world.rest)
      ensures world.bg == Inserted(r) && world.pushed == old(world.pushed) && Quota(St()) == old(Quota(St()))
    {
      hide Runs, Inv, Pops, MayPush;
      HandleNotOngoing(r);
      Extends(threads, trace, St(), Insert);
      var easy := world.reqs[r].easy;
      assert easy !in ongoingRequests;
      ongoingRequests := ongoingRequests[easy := r];
      world := world.(bg := Inserted(r));
      trace := trace + [Insert];
    }

    lemma NextEnabled()
      requires Valid() && !world.bg.Waiting? && !world.bg.Failed?
      ensures Enabled(St(), NextAction(world.bg))
    {
      RunInv(threads, trace, St());
      StepEnabled(St(), threads);
    }

    // PRIVATE points at the request once more.
    method SetPrivatePointer(r: Req)
      requires Valid() && world.bg == Inserted(r)
      modifies this
      ensures Valid() && Did(SetPrivate) && old(trace) <= trace && Pops(trace) == Pops(old(trace))
      ensures world.rest == old(world.rest)
      ensures world.bg == Adding(r) && world.pushed == old(world.pushed) && Quota(St()) == old(Quota(St()))
      ensures r < |world.reqs| && world.reqs == old(world.reqs)
      ensures world.priv == old(world.priv)[world.reqs[r].easy := r]
    {
      hide Runs, Inv, Pops, MayPush;
      NextEnabled();
      Extends(threads, trace, St(), SetPrivate);
      world := world.(bg := Adding(r), priv := world.priv[world.reqs[r].easy := r]);
      trace := trace + [SetPrivate];
    }

    // The setting for a timeout in milliseconds.
    static method TimerSetting(timeoutMs: int) returns (its: Itimerspec)
      ensures its == Spec(timeoutMs)
    {
      its := DISARMED;
      if timeoutMs > 0 {
        its := Itimerspec(timeoutMs / 1000, timeoutMs % 1000 * 1000 * 1000);
      } else if timeoutMs == 0 {
        its := Itimerspec(0, 1);
      }
    }

    // libcurl's timer callback, from inside a call of the background thread.
    method MultiTimerCallback(timeoutMs: int)
      requires Valid() && (world.bg.Adding? || world.bg.Action? || world.bg.Settled?)
      modifies this
      ensures Valid() && Did(TimerRequest(timeoutMs)) && old(trace) <= trace && Pops(trace) == Pops(old(trace))
      ensures world.rest == old(world.rest) && world.msgs == old(world.msgs)
      ensures world.bg == old(world.bg) && world.pushed == old(world.pushed) && Quota(St()) == old(Quota(St()))
      ensures world.timer.value == Spec(timeoutMs)
    {
      hide Runs, Inv, Pops, MayPush, Spec;
      Extends(threads, trace, St(), TimerRequest(timeoutMs));
      var its := TimerSetting(timeoutMs);
      world := world.(timer := SetTime(its), rearmed := true, expired := false,
                      asked := Some(timeoutMs), cleared := false);
      trace := trace + [TimerRequest(timeoutMs)];
    }

    // Inside a libcurl call the timer may be set any number of times, while other threads run.
    method TimerRequests()
      requires Valid() && (world.bg.Adding? || world.bg.Settled?)
      modifies this
      ensures Valid() && old(trace) <= trace && Pops(trace) == Pops(old(trace))
      ensures world.rest == old(world.rest) && world.msgs == old(world.msgs) && world.bg == old(world.bg)
      ensures old(world.pushed) <= world.pushed
      ensures InDrain(world.bg) ==> Quota(St()) <= old(Quota(St()))
    {
      hide Valid, Did, LoopUntouched, Quota, Pops;
      OthersRun();
      var steps: int := *;
      while steps > 0
        invariant Valid() && old(trace) <= trace && Pops(trace) == Pops(old(trace))
        invariant world.rest == old(world.rest) && world.msgs == old(world.msgs) && world.bg == old(world.bg)
        invariant old(world.pushed) <= world.pushed
        invariant InDrain(world.bg) ==> Quota(St()) <= old(Quota(St()))
      {
        var timeoutMs: int := *;
        MultiTimerCallback(timeoutMs);
        OthersRun();
        steps := steps - 1;
      }
    }

    // curl_multi_add_handle: libcurl may set the timer, and takes the handle.
    method AddToMulti(r: Req)
      requires Valid() && world.bg == Adding(r)
      modifies this
      ensures Valid() && old(trace) <= trace && Pops(trace) == Pops(old(trace))
      ensures world.rest == old(world.rest)
      ensures world.bg == Draining && old(world.pushed) <= world.pushed && Quota(St()) <= old(Quota(St()))
    {
      hide Valid, Did, LoopUntouched, Quota, Pops;
      TimerRequests();
      TakeHandle(r);
    }

    method TakeHandle(r: Req)
      requires Valid() && world.bg == Adding(r)
      modifies this
      ensures Valid() && Did(AddHandle) && old(trace) <= trace && Pops(trace) == Pops(old(trace))
      ensures world.rest == old(world.rest)
      ensures world.bg == Draining && world.pushed == old(world.pushed) && Quota(St()) == old(Quota(St()))
    {
      hide Runs, Inv, Pops, DoAddHandle, MayPush;
      NextEnabled();
      Perform(AddHandle);
    }

    /** Takes every queued request to the multi, terminates however other threads keep pushing,
        and none of its assertions fires: at the end everything pushed so far has been added. */
    method ProcessPendingRequests()
      requires Valid() && world.bg.Draining?
      modifies this
      ensures Valid() && old(trace) <= trace && world.bg == Dispatch
      ensures world.rest == old(world.rest)
      ensures pendingRequests == [] && world.added == world.pushed && old(world.pushed) <= world.pushed
      ensures Pops(trace) <= Pops(old(trace)) + threads + 1
    {
      hide Valid, Did, LoopUntouched, Quota, Pops;
      DrainQuota();
      while true
        invariant Valid() && old(trace) <= trace && world.bg == Draining
        invariant Pops(trace) + Quota(St()) <= Pops(old(trace)) + threads
        invariant old(world.pushed) <= world.pushed && world.rest == old(world.rest)
        decreases Quota(St())
      {
        OthersRun();
        var r := PopRequest();
        if r.None? {
          break;
        }
        AdmitRequest(r.value);
      }
      AllAdded();
    }

    // The popped request: into ongoing_requests, then into the multi.
    method AdmitRequest(r: Req)
      requires Valid() && world.bg == InHand(r)
      modifies this
      ensures Valid() && old(trace) <= trace && world.bg == Draining && old(world.pushed) <= world.pushed
      ensures world.rest == old(world.rest)
      ensures Pops(trace) == Pops(old(trace)) && Quota(St()) <= old(Quota(St()))
    {
      hide Valid, Did, LoopUntouched, Quota, Pops;
      OthersRun();
      InsertRequest(r);
      OthersRun();
      SetPrivatePointer(r);
      OthersRun();
      AddToMulti(r);
    }

    lemma AllAdded()
      requires Valid() && world.bg == Dispatch && pendingRequests == []
      ensures world.added == world.pushed
    {
      RunInv(threads, trace, St());
      assert world.added + [] + [] == world.added;
    }

    lemma DrainQuota()
      requires Valid()
      ensures Quota(St()) <= threads
    {
      RunInv(threads, trace, St());
      QuotaBound(St(), threads);
    }

    // ---------- CheckMulti ----------

    // curl_multi_info_read: false when no message is left.
    method ReadMessage(k: Caller) returns (more: bool)
      requires Valid() && world.bg == Checking(k)
      modifies this
      ensures Valid() && old(trace) <= trace && world.rest == old(world.rest)
      ensures more <==> old(world.msgs) != []
      ensures !more ==> world.bg == AfterCheck(k) && world.msgs == []
      ensures more ==> |world.msgs| < |old(world.msgs)|
                       && (world.bg == Checking(k) || (world.bg.GotMsg? && world.bg.k == k))
    {
      hide Valid;
      if world.msgs == [] {
        SeeNoMessage(k);
        more := false;
      } else if world.msgs[0].OtherMsg? {
        SkipMessage(k);
        more := true;
      } else {
        TakeMessage(k);
        more := true;
      }
    }

    method SeeNoMessage(k: Caller)
      requires Valid() && world.bg == Checking(k) && world.msgs == []
      modifies this
      ensures Valid() && Did(ReadMsg) && old(trace) <= trace && world.rest == old(world.rest)
      ensures world.bg == AfterCheck(k) && world.msgs == []
    {
      hide Runs, Inv, Pops;
      Extends(threads, trace, St(), ReadMsg);
      world := world.(bg := AfterCheck(k));
      trace := trace + [ReadMsg];
    }

    method SkipMessage(k: Caller)
      requires Valid() && world.bg == Checking(k) && world.msgs != [] && world.msgs[0].OtherMsg?
      modifies this
      ensures Valid() && Did(ReadMsg) && old(trace) <= trace && world.rest == old(world.rest)
      ensures world.msgs == old(world.msgs)[1..] && world.bg == Checking(k)
    {
      hide Runs, Inv, Pops;
      Extends(threads, trace, St(), ReadMsg);
      world := world.(msgs := world.msgs[1..]);
      trace := trace + [ReadMsg];
    }

    method TakeMessage(k: Caller)
      requires Valid() && world.bg == Checking(k) && world.msgs != [] && world.msgs[0].Done?
      modifies this
      ensures Valid() && Did(ReadMsg) && old(trace) <= trace && world.rest == old(world.rest)
      ensures world.msgs == old(world.msgs)[1..]
      ensures world.bg == GotMsg(k, old(world.msgs)[0].easy, old(world.msgs)[0].result)
    {
      hide Runs, Inv, Pops;
      Extends(threads, trace, St(), ReadMsg);
      world := world.(bg := GotMsg(k, world.msgs[0].easy, world.msgs[0].result), msgs := world.msgs[1..]);
      trace := trace + [ReadMsg];
    }

    // The request behind PRIVATE is the entry of this handle, still unanswered.
    lemma MessageEntry()
      requires Valid() && world.bg.GotMsg?
      ensures var e := world.bg.easy;
              && e in world.priv && world.priv[e] < |world.reqs| && e in world.httpCode
              && e in ongoingRequests && ongoingRequests[e] == world.priv[e]
    {
      RunInv(threads, trace, St());
      MessageRequest(St(), threads);
    }

    // The response is built from the request that PRIVATE names.
    method BuildResponse(k: Caller, easy: Easy, result: nat) returns (r: Req, resp: Response)
      requires Valid() && world.bg == GotMsg(k, easy, result)
      modifies this
      ensures Valid() && Did(Fill) && old(trace) <= trace
      ensures world.rest == old(world.rest) && world.msgs == old(world.msgs) && world.bg == Filled(k, easy, r, resp)
      ensures r < |world.reqs| && IsOwnResponse(world.reqs[r], resp)
      ensures result == CURLE_OK ==> world.reqs[r].info.body == ""
    {
      hide Runs, Inv, Pops, ManagedResponse, MovedOut;
      MessageEntry();
      Extends(threads, trace, St(), Fill);
      r := world.priv[easy];
      var info := world.reqs[r].info.(code := world.httpCode[easy] % 0x1_0000);
      resp := MakeResponse(info, result);
      world := world.(bg := Filled(k, easy, r, resp),
                      reqs := world.reqs[r := world.reqs[r].(info := MovedOut(info, result))]);
      trace := trace + [Fill];
      BodyTaken(info, result);
      FilledAnswer(r);
    }

    lemma FilledAnswer(r: Req)
      requires Valid() && world.bg.Filled? && world.bg.r == r
      ensures r < |world.reqs| && IsOwnResponse(world.reqs[r], world.bg.resp)
    {
      RunInv(threads, trace, St());
      hide Valid, IsAnswer, IsOwnResponse;
      FillingAnswer(St(), threads);
      AnswerFields(world.reqs[r], world.bg.resp);
    }

    // The response object, filled in from the request's own.
    method MakeResponse(info: Info, result: nat) returns (resp: Response)
      ensures resp == ManagedResponse(info, result)
    {
      resp := Response(info.code, info.url, "", None, []);
      if result != CURLE_OK {
        resp := resp.(error := Some(ErrorText(info, result)));
        return;
      }
      resp := resp.(body := info.body);
      if info.headers != [] {
        var back := info.headers[|info.headers| - 1];
        for i := 0 to |back|
          invariant resp == Response(info.code, info.url, info.body, None, Without(back[..i], STATUS_KEY))
        {
          WithoutNext(back, i);
          if back[i].name != STATUS_KEY {
            resp := resp.(headers := resp.headers + [back[i]]);
          }
        }
        assert back[..|back|] == back;
      }
    }

    lemma WithoutNext(headers: Headers, i: nat)
      requires i < |headers|
      ensures Without(headers[..i + 1], STATUS_KEY)
              == Without(headers[..i], STATUS_KEY) + (if headers[i].name == STATUS_KEY then [] else [headers[i]])
    {
      WithoutExactly(headers[..i], headers[i], [], STATUS_KEY);
      assert headers[..i + 1] == headers[..i] + [headers[i]] + [];
    }

    lemma Unanswered(r: Req)
      requires Valid() && world.bg.Filled? && world.bg.r == r
      ensures r < |world.reqs| && world.reqs[r].promise.None?
    {
      RunInv(threads, trace, St());
      FilledUnanswered(St(), threads);
    }

    // response.set_value, which would throw on a promise already set.
    method SetPromise(k: Caller, easy: Easy, r: Req, resp: Response)
      requires Valid() && world.bg == Filled(k, easy, r, resp)
      modifies this
      ensures Valid() && Did(SetValue) && old(trace) <= trace
      ensures world.rest == old(world.rest) && world.msgs == old(world.msgs) && world.bg == Settled(k, easy, r)
    {
      hide Runs, Inv, Pops;
      Unanswered(r);
      Extends(threads, trace, St(), SetValue);
      assert world.reqs[r].promise.None?;
      world := world.(bg := Settled(k, easy, r),
                      reqs := world.reqs[r := world.reqs[r].(promise := Some(resp))]);
      trace := trace + [SetValue];
    }

    method RemoveFromMulti(k: Caller, easy: Easy, r: Req)
      requires Valid() && world.bg == Settled(k, easy, r)
      modifies this
      ensures Valid() && Did(RemoveHandle) && old(trace) <= trace
      ensures world.rest == old(world.rest) && world.msgs == old(world.msgs) && world.bg == Removed(k, easy, r)
    {
      hide Runs, Inv, Pops;
      Extends(threads, trace, St(), RemoveHandle);
      world := world.(bg := Removed(k, easy, r), multi := world.multi - {easy}, running := world.running - {easy});
      trace := trace + [RemoveHandle];
    }

    lemma StillOngoing(easy: Easy)
      requires Valid() && world.bg.Removed? && world.bg.easy == easy
      ensures easy in ongoingRequests
    {
      RunInv(threads, trace, St());
    }

    // The assertion that the handle is ongoing, and the end of its entry.
    method EraseRequest(k: Caller, easy: Easy, r: Req)
      requires Valid() && world.bg == Removed(k, easy, r)
      modifies this
      ensures Valid() && Did(Erase) && old(trace) <= trace
      ensures world.rest == old(world.rest) && world.msgs == old(world.msgs) && world.bg == Checking(k)
    {
      hide Runs, Inv, Pops;
      StillOngoing(easy);
      Extends(threads, trace, St(), Erase);
      assert easy in ongoingRequests;
      world := world.(bg := Checking(k), retired := world.retired + [ongoingRequests[easy]]);
      ongoingRequests := ongoingRequests - {easy};
      trace := trace + [Erase];
    }

    /** Handles every message, terminates, and none of its assertions fires: at the end each
        ongoing request is still running in libcurl, and every one that was done is answered. */
    method CheckMulti(k: Caller)
      requires Valid() && world.bg == Checking(k)
      modifies this
      ensures Valid() && old(trace) <= trace && world.rest == old(world.rest)
      ensures world.bg == AfterCheck(k) && world.msgs == []
      ensures world.running == world.multi == ongoingRequests.Keys
    {
      hide Valid, Did, LoopUntouched, Pops, Quota;
      while true
        invariant Valid() && old(trace) <= trace && world.bg == Checking(k) && world.rest == old(world.rest)
        decreases |world.msgs|
      {
        OthersRun();
        var more := ReadMessage(k);
        if !more {
          break;
        }
        if world.bg.GotMsg? {
          HandleMessage(k, world.bg.easy, world.bg.result);
        }
      }
      AllHandled(k);
    }

    // One DONE message: answer the client, then take the handle and the entry out.
    method HandleMessage(k: Caller, easy: Easy, result: nat)
      requires Valid() && world.bg == GotMsg(k, easy, result)
      modifies this
      ensures Valid() && old(trace) <= trace && world.rest == old(world.rest)
      ensures world.bg == Checking(k) && world.msgs == old(world.msgs)
    {
      hide Valid, Did, LoopUntouched, Pops, Quota;
      OthersRun();
      var r, resp := BuildResponse(k, easy, result);
      OthersRun();
      SetPromise(k, easy, r, resp);
      TimerRequests();
      RemoveFromMulti(k, easy, r);
      OthersRun();
      EraseRequest(k, easy, r);
    }

    lemma AllHandled(k: Caller)
      requires Valid() && world.bg == AfterCheck(k) && world.msgs == []
      ensures world.running == world.multi == ongoingRequests.Keys
    {
      RunInv(threads, trace, St());
      NoneLeft(ongoingRequests, world.multi, world.running, world.job, world.msgs);
    }

    // ---------- curl_multi_socket_action ----------

    // libcurl reads, writes and calls back: data and completions for handles in the multi.
    method CurlRuns(k: Caller)
      requires Valid() && world.bg == Action(k)
      modifies this
      ensures Valid() && old(trace) <= trace && world.bg == Action(k) && world.rest == old(world.rest)
    {
      hide Valid, Did, LoopUntouched, Pops, Quota;
      var steps: int := *;
      while steps > 0
        invariant Valid() && old(trace) <= trace && world.bg == Action(k) && world.rest == old(world.rest)
      {
        OthersRun();
        var a: Action := *;
        if IsCurl(a) && Enabled(St(), a) {
          CurlStep(a, k);
        }
        steps := steps - 1;
      }
    }

    method CurlStep(a: Action, k: Caller)
      requires Valid() && world.bg == Action(k) && IsCurl(a) && Enabled(St(), a)
      modifies this
      ensures Valid() && old(trace) <= trace && world.bg == Action(k) && world.rest == old(world.rest)
    {
      hide Runs, Inv, Pops, Apply, Enabled;
      CurlKeeps(St(), a);
      Perform(a);
    }

    // The call returns, having stored the number of handles not yet done.
    method SocketAction(k: Caller)
      requires Valid() && world.bg == Action(k)
      modifies this
      ensures Valid() && old(trace) <= trace && world.bg == Checking(k) && world.rest == old(world.rest)
    {
      CurlRuns(k);
      OthersRun();
      LeaveCurl(k);
    }

    method LeaveCurl(k: Caller)
      requires Valid() && world.bg == Action(k)
      modifies this
      ensures Valid() && Did(Leave) && old(trace) <= trace
      ensures world.bg == Checking(k) && world.rest == old(world.rest) && stillRunning == |world.running|
    {
      hide Runs, Inv, Pops;
      Extends(threads, trace, St(), Leave);
      stillRunning := |world.running|;
      world := world.(bg := Checking(k));
      trace := trace + [Leave];
    }

    // ---------- Event callbacks ----------

    lemma TimerReadable()
      requires Valid() && world.bg.Dispatch? && world.rest != [] && world.rest[0] == TimerReady
      ensures world.timer.ticks == 0 <==> world.rearmed && !world.expired
    {
      RunInv(threads, trace, St());
      assert TimerReady in world.rest;
    }

    /** The read of the timer, and its assertion: it holds exactly when the timer was not set
        again since the batch was fetched, or has expired since. */
    method ReadTimer() returns (ok: bool)
      requires Valid() && world.bg.Dispatch? && world.rest != [] && world.rest[0] == TimerReady
      modifies this
      ensures Valid() && Did(Next) && old(trace) <= trace && world.rest == old(world.rest)[1..]
      ensures ok <==> !(old(world.rearmed) && !old(world.expired))
      ensures world.bg == if ok then Action(FromTimer) else Failed(TimerRead)
    {
      hide Valid, Did;
      TimerReadable();
      ok := world.timer.ticks != 0;
      if ok { TakeTicks(); } else { MissTicks(); }
    }

    method TakeTicks()
      requires Valid() && world.bg.Dispatch? && world.rest != [] && world.rest[0] == TimerReady
      requires world.timer.ticks != 0
      modifies this
      ensures Valid() && Did(Next) && old(trace) <= trace && world.rest == old(world.rest)[1..]
      ensures world.bg == Action(FromTimer)
    {
      hide Runs, Inv, Pops;
      Extends(threads, trace, St(), Next);
      world := world.(bg := Action(FromTimer), rest := world.rest[1..], timer := world.timer.(ticks := 0));
      trace := trace + [Next];
    }

    method MissTicks()
      requires Valid() && world.bg.Dispatch? && world.rest != [] && world.rest[0] == TimerReady
      requires world.timer.ticks == 0
      modifies this
      ensures Valid() && Did(Next) && old(trace) <= trace && world.rest == old(world.rest)[1..]
      ensures world.bg == Failed(TimerRead)
    {
      hide Runs, Inv, Pops;
      Extends(threads, trace, St(), Next);
      world := world.(bg := Failed(TimerRead), rest := world.rest[1..]);
      trace := trace + [Next];
    }

    method TimerCallback() returns (ok: bool)
      requires Valid() && world.bg.Dispatch? && world.rest != [] && world.rest[0] == TimerReady
      modifies this
      ensures Valid() && old(trace) <= trace && world.rest == old(world.rest)[1..]
      ensures ok <==> !(old(world.rearmed) && !old(world.expired))
      ensures world.bg == if ok then Dispatch else Failed(TimerRead)
      ensures ok ==> world.running == world.multi == ongoingRequests.Keys
    {
      hide Valid, Did;
      ok := ReadTimer();
      if ok {
        OthersRun();
        SocketAction(FromTimer);
        CheckMulti(FromTimer);
      }
    }

    method StartSocket(fd: int)
      requires Valid() && world.bg.Dispatch? && world.rest != [] && world.rest[0] == SocketReady(fd)
      modifies this
      ensures Valid() && Did(Next) && old(trace) <= trace
      ensures world.rest == old(world.rest)[1..] && world.bg == Action(FromSocket)
    {
      hide Runs, Inv, Pops;
      Extends(threads, trace, St(), Next);
      world := world.(bg := Action(FromSocket), rest := world.rest[1..]);
      trace := trace + [Next];
    }

    // The timer is switched off when libcurl has nothing running.
    method ClearTimer()
      requires Valid() && world.bg.Clearing?
      modifies this
      ensures Valid() && Did(Clear) && old(trace) <= trace && world.bg == Dispatch && world.rest == old(world.rest)
      ensures ongoingRequests == old(ongoingRequests) && stillRunning == old(stillRunning)
      ensures stillRunning <= 0 ==> world.timer == SetTime(DISARMED)
      ensures stillRunning > 0 ==> world.timer == old(world.timer)
    {
      hide Valid, Did;
      if stillRunning <= 0 { DisarmTimer(); } else { LeaveTimer(); }
    }

    method DisarmTimer()
      requires Valid() && world.bg.Clearing? && stillRunning <= 0
      modifies this
      ensures Valid() && Did(Clear) && old(trace) <= trace && world.bg == Dispatch && world.rest == old(world.rest)
      ensures ongoingRequests == old(ongoingRequests) && stillRunning == old(stillRunning)
      ensures world.timer == SetTime(DISARMED)
    {
      hide Runs, Inv, Pops;
      Extends(threads, trace, St(), Clear);
      world := world.(bg := Dispatch, timer := SetTime(DISARMED), rearmed := true, expired := false, cleared := true);
      trace := trace + [Clear];
    }

    method LeaveTimer()
      requires Valid() && world.bg.Clearing? && stillRunning > 0
      modifies this
      ensures Valid() && Did(Clear) && old(trace) <= trace && world.bg == Dispatch && world.rest == old(world.rest)
      ensures ongoingRequests == old(ongoingRequests) && stillRunning == old(stillRunning)
      ensures world.timer == old(world.timer)
    {
      hide Runs, Inv, Pops;
      Extends(threads, trace, St(), Clear);
      world := world.(bg := Dispatch);
      trace := trace + [Clear];
    }

    lemma RunningCount()
      requires Valid() && world.bg.Clearing?
      ensures stillRunning <= 0 <==> ongoingRequests == map[]
    {
      TimerFollowsRequests(threads, trace, St());
    }

    /** Handles one socket: the timer is switched off exactly when no request is ongoing. */
    method EventCallback(fd: int)
      requires Valid() && world.bg.Dispatch? && world.rest != [] && world.rest[0] == SocketReady(fd)
      modifies this
      ensures Valid() && old(trace) <= trace && world.rest == old(world.rest)[1..] && world.bg == Dispatch
      ensures stillRunning <= 0 <==> ongoingRequests == map[]
      ensures ongoingRequests == map[] ==> world.timer == SetTime(DISARMED)
    {
      hide Valid, Did;
      StartSocket(fd);
      SocketAction(FromSocket);
      CheckMulti(FromSocket);
      OthersRun();
      RunningCount();
      ClearTimer();
    }

    lemma QueueReadable()
      requires Valid() && world.bg.Dispatch? && world.rest != [] && world.rest[0] == QueueReady
      ensures world.counter > 0
    {
      RunInv(threads, trace, St());
      assert QueueReady in world.rest;
    }

    // The read of the eventfd, whose assertion holds.
    method ReadEvent()
      requires Valid() && world.bg.Dispatch? && world.rest != [] && world.rest[0] == QueueReady
      modifies this
      ensures Valid() && Did(Next) && old(trace) <= trace
      ensures world.rest == old(world.rest)[1..] && world.bg == Draining && world.counter == 0
      ensures world.pushed == old(world.pushed)
    {
      hide Runs, Inv, Pops;
      QueueReadable();
      Extends(threads, trace, St(), Next);
      assert world.counter > 0;
      world := world.(bg := Draining, rest := world.rest[1..], counter := 0, writes := seq(|world.writes|, i => 0));
      trace := trace + [Next];
    }

    method QueueCallback()
      requires Valid() && world.bg.Dispatch? && world.rest != [] && world.rest[0] == QueueReady
      modifies this
      ensures Valid() && old(trace) <= trace && world.rest == old(world.rest)[1..] && world.bg == Dispatch
      ensures world.added == world.pushed && old(world.pushed) <= world.pushed
    {
      hide Valid, Did;
      ReadEvent();
      ProcessPendingRequests();
    }

    method Fetch(batch: seq<Event>)
      requires Valid() && world.bg.Waiting? && IsBatch(St(), batch)
      modifies this
      ensures Valid() && Did(Wait(batch)) && old(trace) <= trace
      ensures world.bg == Dispatch && world.rest == batch && !world.rearmed
    {
      hide Runs, Inv, Pops;
      Extends(threads, trace, St(), Wait(batch));
      world := world.(bg := Dispatch, rest := batch, rearmed := false, expired := false);
      trace := trace + [Wait(batch)];
    }

    method EndBatch()
      requires Valid() && world.bg.Dispatch? && world.rest == []
      modifies this
      ensures Valid() && Did(Next) && old(trace) <= trace && world.bg == Waiting
    {
      hide Runs, Inv, Pops;
      Extends(threads, trace, St(), Next);
      world := world.(bg := Waiting);
      trace := trace + [Next];
    }

    /** One turn of HandleEvent: from epoll_wait's return to the next call, every batch is
        dispatched to the end, unless the assertion on the timer read fires. */
    method HandleEvents(batch: seq<Event>) returns (ok: bool)
      requires Valid() && world.bg.Waiting? && IsBatch(St(), batch)
      modifies this
      ensures Valid() && old(trace) <= trace
      ensures world.bg == if ok then Waiting else Failed(TimerRead)
      ensures TimerReady !in batch || batch[0] == TimerReady ==> ok
    {
      hide Valid, Did, LoopUntouched, Pops, Quota;
      Fetch(batch);
      ok := true;
      while ok && world.rest != []
        invariant Valid() && old(trace) <= trace
        invariant world.bg == if ok then Dispatch else Failed(TimerRead)
        invariant TimerReady !in batch ==> ok && TimerReady !in world.rest
        invariant batch[0] == TimerReady ==>
                    ok && (TimerReady !in world.rest || (world.rest == batch && !world.rearmed))
        decreases |world.rest|
      {
        OthersRun();
        match world.rest[0]
        case TimerReady => ok := TimerCallback();
        case QueueReady => QueueCallback();
        case SocketReady(fd) => EventCallback(fd);
      }
      if ok {
        OthersRun();
        EndBatch();
      }
    }

    // ---------- HandleRequest ----------

    // Everyone but client c runs for a while, the background thread and libcurl included.
    method AllOthersRun(c: nat)
      requires Valid() && c < |world.clients|
      modifies this
      ensures Valid() && old(trace) <= trace && OthersOnly(old(St()), St(), c)
    {
      var steps: int := *;
      while steps > 0
        invariant Valid() && old(trace) <= trace && OthersOnly(old(St()), St(), c)
      {
        var a: Action := *;
        if Enabled(St(), a) && Disciplined(St(), a) && !IsOf(a, c) {
          StepOthersOnly(old(St()), St(), a, c);
          Perform(a);
        }
        steps := steps - 1;
      }
    }

    /** What HandleRequest, called on a request just constructed, gives back: if it returns, the
        response is the one made from this very request's own transfer. It gives nothing back only
        when the background thread has died, when the eventfd write has failed, or when the client
        is still blocked after its patience, the number of looks at the future, has run out. */
    method HandleRequest(c: nat, easy: Easy, url: string, patience: nat)
      returns (resp: Option<Response>, ghost r: Req)
      requires Valid() && c < |world.clients| && world.clients[c].Idle? && AllAnswered(world.reqs, easy)
      modifies this
      ensures Valid() && old(trace) <= trace
      ensures resp.Some? ==>
                && |old(world.reqs)| <= r < |world.reqs| && IsFor(world.reqs[r], c, easy, url)
                && world.reqs[r].received == resp && IsOwnResponse(world.reqs[r], resp.value)
      ensures resp.None? ==> world.bg.Failed? || (c < |world.clients| && GivesUp(world.clients[c]))
    {
      hide Valid, OthersOnly;
      var sent;
      sent, r := SendRequest(c, easy, url);
      if sent {
        resp := AwaitAnswer(c, r, patience);
      } else {
        resp := None;
      }
    }

    // Constructs the request, queues it under the lock, and writes the eventfd.
    method SendRequest(c: nat, easy: Easy, url: string) returns (sent: bool, ghost r: Req)
      requires Valid() && c < |world.clients| && world.clients[c].Idle? && AllAnswered(world.reqs, easy)
      modifies this
      ensures Valid() && old(trace) <= trace
      ensures sent ==>
                && |old(world.reqs)| <= r < |world.reqs| && c < |world.clients| && world.clients[c] == Blocked(r)
                && IsFor(world.reqs[r], c, easy, url)
      ensures !sent ==> world.bg.Failed? || (c < |world.clients| && GivesUp(world.clients[c]))
    {
      hide Valid, Did;
      r := |world.reqs|;
      if world.bg.Failed? {
        return false, r;
      }
      ConstructRequest(c, easy, url);
      AllOthersRun(c);
      if world.bg.Failed? {
        return false, r;
      }
      PushRequest(c);
      AllOthersRun(c);
      if world.bg.Failed? {
        return false, r;
      }
      sent := WriteEvent(c);
    }

    method ConstructRequest(c: nat, easy: Easy, url: string)
      requires Valid() && !world.bg.Failed?
      requires c < |world.clients| && world.clients[c].Idle? && AllAnswered(world.reqs, easy)
      modifies this
      ensures Valid() && Did(Build(c, easy, url)) && old(trace) <= trace
      ensures |world.clients| == |old(world.clients)| && world.clients[c] == Built(|old(world.reqs)|)
      ensures |world.reqs| == |old(world.reqs)| + 1 && IsFor(world.reqs[|old(world.reqs)|], c, easy, url)
    {
      hide Runs, Inv, Pops;
      ghost var a := Build(c, easy, url);
      Extends(threads, trace, St(), a);
      var r := |world.reqs|;
      world := world.(reqs := world.reqs + [Request(easy, c, NewInfo(url), None, url, [], None, None)],
                      priv := world.priv[easy := r], target := world.target[easy := r],
                      clients := world.clients[c := Built(r)]);
      trace := trace + [a];
    }

    method PushRequest(c: nat)
      requires Valid() && !world.bg.Failed? && c < |world.clients| && world.clients[c].Built?
      modifies this
      ensures Valid() && Did(Push(c)) && old(trace) <= trace && world.reqs == old(world.reqs)
      ensures world.clients == old(world.clients)[c := Pushed(old(world.clients)[c].r)]
      ensures pendingRequests == old(pendingRequests) + [old(world.clients)[c].r]
    {
      hide Runs, Inv, Pops;
      ghost var a := Push(c);
      Extends(threads, trace, St(), a);
      var r := world.clients[c].r;
      pendingRequests := pendingRequests + [r];
      world := world.(pushed := world.pushed + [r], clients := world.clients[c := Pushed(r)]);
      trace := trace + [a];
    }

    lemma WriterCounted(c: nat)
      requires Valid() && c < |world.clients| && world.clients[c].Pushed?
      ensures c < |world.writes| && (3 * threads <= EVENTFD_MAX ==> world.counter + 1 <= EVENTFD_MAX)
    {
      RunInv(threads, trace, St());
      Sizes(St(), threads);
      RoomToWrite(St(), threads, c);
    }

    // The write and its assertion, which holds for any number of threads the kernel can count.
    method WriteEvent(c: nat) returns (ok: bool)
      requires Valid() && !world.bg.Failed? && c < |world.clients| && world.clients[c].Pushed?
      modifies this
      ensures Valid() && Did(Write(c)) && old(trace) <= trace && world.reqs == old(world.reqs)
      ensures |world.clients| == |old(world.clients)|
      ensures world.clients[c] == if ok then Blocked(old(world.clients)[c].r)
                                  else WriteFailed(old(world.clients)[c].r)
      ensures ok <==> old(world.counter) + 1 <= 0xFFFF_FFFF_FFFF_FFFE
      ensures 3 * threads <= EVENTFD_MAX ==> ok
    {
      hide Valid, Did;
      WriterCounted(c);
      ok := world.counter + 1 <= EVENTFD_MAX;
      if ok {
        AddToCounter(c);
      } else {
        RefuseWrite(c);
      }
    }

    method AddToCounter(c: nat)
      requires Valid() && !world.bg.Failed? && c < |world.clients| && c < |world.writes|
      requires world.clients[c].Pushed? && world.counter + 1 <= EVENTFD_MAX
      modifies this
      ensures Valid() && Did(Write(c)) && old(trace) <= trace && world.reqs == old(world.reqs)
      ensures world.clients == old(world.clients)[c := Blocked(old(world.clients)[c].r)]
    {
      hide Runs, Inv, Pops;
      ghost var a := Write(c);
      Extends(threads, trace, St(), a);
      world := world.(counter := world.counter + 1, writes := world.writes[c := world.writes[c] + 1],
                      clients := world.clients[c := Blocked(world.clients[c].r)]);
      trace := trace + [a];
    }

    method RefuseWrite(c: nat)
      requires Valid() && !world.bg.Failed? && c < |world.clients| && c < |world.writes|
      requires world.clients[c].Pushed? && world.counter + 1 > EVENTFD_MAX
      modifies this
      ensures Valid() && Did(Write(c)) && old(trace) <= trace && world.reqs == old(world.reqs)
      ensures world.clients == old(world.clients)[c := WriteFailed(old(world.clients)[c].r)]
    {
      hide Runs, Inv, Pops;
      ghost var a := Write(c);
      Extends(threads, trace, St(), a);
      world := world.(clients := world.clients[c := WriteFailed(world.clients[c].r)]);
      trace := trace + [a];
    }

    lemma AnswerIsOwn(r: Req)
      requires Valid() && r < |world.reqs| && world.reqs[r].received.Some?
      ensures IsOwnResponse(world.reqs[r], world.reqs[r].received.value)
    {
      hide AllDisciplined;
      OwnResponse(threads, trace, St(), r);
    }

    // resp_fut.get(): look at the promise until it is set.
    method AwaitAnswer(c: nat, ghost r: Req, patience: nat) returns (resp: Option<Response>)
      requires Valid() && c < |world.clients| && world.clients[c] == Blocked(r) && r < |world.reqs|
      modifies this
      ensures Valid() && old(trace) <= trace && r < |world.reqs| && SameRequest(old(world.reqs)[r], world.reqs[r])
      ensures resp.Some? ==> world.reqs[r].received == resp && IsOwnResponse(world.reqs[r], resp.value)
      ensures resp.None? ==> c < |world.clients| && world.clients[c] == Blocked(r)
    {
      for i := 0 to patience
        invariant Valid() && old(trace) <= trace && c < |world.clients| && world.clients[c] == Blocked(r)
        invariant r < |world.reqs| && SameRequest(old(world.reqs)[r], world.reqs[r])
      {
        hide Valid;
        AllOthersRun(c);
        if !world.bg.Failed? && world.reqs[world.clients[c].r].promise.Some? {
          resp := TakeAnswer(c);
          return;
        }
      }
      resp := None;
    }

    method TakeAnswer(c: nat) returns (resp: Option<Response>)
      requires Valid() && !world.bg.Failed? && c < |world.clients| && world.clients[c].Blocked?
      requires world.clients[c].r < |world.reqs| && world.reqs[world.clients[c].r].promise.Some?
      modifies this
      ensures Valid() && Did(Return(c)) && old(trace) <= trace
      ensures var r := old(world.clients)[c].r;
              && r < |world.reqs| && SameRequest(old(world.reqs)[r], world.reqs[r]) && resp.Some?
              && world.reqs[r].received == resp && IsOwnResponse(world.reqs[r], resp.value)
    {
      hide Runs, Inv, Pops;
      ghost var a := Return(c);
      Extends(threads, trace, St(), a);
      var r := world.clients[c].r;
      resp := world.reqs[r].promise;
      world := world.(reqs := world.reqs[r := world.reqs[r].(received := resp)], clients := world.clients[c := Idle]);
      trace := trace + [a];
      AnswerIsOwn(r);
    }
  }

  lemma BodyTaken(info: Info, result: nat)
    ensures result == CURLE_OK ==> MovedOut(info, result).body == ""
  {
  }

  lemma FillingAnswer(s: State, n: nat)
    requires Inv(s, n) && s.bg.Filled?
    ensures s.bg.r < |s.reqs| && IsAnswer(s.reqs[s.bg.r], s.bg.resp)
  {
  }

  // libcurl's own steps leave the background thread where it is.
  lemma CurlKeeps(s: State, a: Action)
    requires Enabled(s, a) && IsCurl(a)
    ensures Apply(s, a).bg == s.bg && Apply(s, a).rest == s.rest
  {
    hide DoWrite, DoNext, DoPop, DoInsert, DoAddHandle, DoReadMsg, DoFill, DoSetValue, DoErase, DoClear;
    match a
    case TimerRequest(ms) => return;
    case Deliver(easy, chunk) => return;
    case Finish(easy, result, code) => return;
    case EnqueueOther => return;
  }

  // The eventfd write has failed, or the future is still not ready.
  predicate GivesUp(pc: ClientPc) {
    pc.WriteFailed? || pc.Blocked?
  }

  predicate IsFor(q: Request, c: nat, easy: Easy, url: string) {
    q.easy == easy && q.client == c && q.url == url
  }

  // The steps of client c.
  predicate IsOf(a: Action, c: nat) {
    IsClientAction(a) && a.c == c
  }

  // What client c still relies on after others' steps.
  ghost predicate OthersOnly(s: State, t: State, c: nat)
    requires c < |s.clients|
  {
    && |t.clients| == |s.clients| && t.clients[c] == s.clients[c] && |s.reqs| <= |t.reqs|
    && (forall r :: 0 <= r < |s.reqs| ==> SameRequest(s.reqs[r], t.reqs[r]))
  }

  lemma StepOthersOnly(s: State, t: State, a: Action, c: nat)
    requires c < |s.clients| && OthersOnly(s, t, c)
    requires Enabled(t, a) && !IsOf(a, c)
    ensures OthersOnly(s, Apply(t, a), c)
  {
    ClientsStep(t, a, c);
    hide Apply, Enabled;
    forall r | 0 <= r < |t.reqs|
      ensures r < |Apply(t, a).reqs| && SameRequest(t.reqs[r], Apply(t, a).reqs[r])
    {
      PromiseSetOnce(t, a, r);
    }
    if |t.reqs| > 0 {
      PromiseSetOnce(t, a, |t.reqs| - 1);
    }
  }

  lemma ClientsStep(s: State, a: Action, c: nat)
    requires c < |s.clients| && Enabled(s, a) && !IsOf(a, c)
    ensures |Apply(s, a).clients| == |s.clients| && Apply(s, a).clients[c] == s.clients[c]
  {
    hide DoNext, DoPop, DoInsert, DoAddHandle, DoReadMsg, DoFill, DoSetValue, DoErase, DoClear, DoWrite;
    if IsClientAction(a) {
      match a
      case Build(d, easy, url) =>
      case Push(d) =>
      case Write(d) =>
      case Return(d) =>
    }
  }

  predicate IsCurl(a: Action) {
    a.TimerRequest? || a.Deliver? || a.Finish? || a.EnqueueOther?
  }

  // Where CheckMulti returns to.
  function AfterCheck(k: Caller): BgPc {
    if k.FromSocket? then Clearing else Dispatch
  }
}
