/** SocketCallback and its helpers over kqueue, where a change of action only ever adds
    filters. */
module KqueueReactor {
  import opened Wrappers
  import opened SocketCalls
  import Epoll = EpollReactor

  datatype Filter = Read | Write

  datatype Change = Add(fd: nat, filter: Filter) | Delete(fd: nat, filter: Filter)

  // A filter registered for a descriptor.
  type Registered = set<(nat, Filter)>

  // CURL_POLL_IN is bit 0, CURL_POLL_OUT bit 1.
  predicate Asks(action: nat, filter: Filter) {
    match filter case Read => action % 2 == 1 case Write => action / 2 % 2 == 1
  }

  // kevent with no room for results: a deletion of what is not there fails, and stopsEarly says
  // whether the rest of the list is then dropped. Its result is not looked at.
  function Kevent(kq: Registered, changes: seq<Change>, stopsEarly: bool): Registered
    decreases |changes|
  {
    if changes == [] then kq
    else
      match changes[0]
      case Add(fd, filter) => Kevent(kq + {(fd, filter)}, changes[1..], stopsEarly)
      case Delete(fd, filter) =>
        if (fd, filter) !in kq && stopsEarly then kq
        else Kevent(kq - {(fd, filter)}, changes[1..], stopsEarly)
  }

  datatype Tables = Tables(kq: Registered, infos: map<nat, Info>)

  function AddChanges(s: nat, action: nat): seq<Change> {
    (if AsksIn(action) then [Add(s, Read)] else []) + (if AsksOut(action) then [Add(s, Write)] else [])
  }

  function OnCall(t: Tables, call: Call, stopsEarly: bool): Tables {
    if call.what == POLL_REMOVE then
      if call.sock !in t.infos then t
      else
        var fd := t.infos[call.sock].sockfd;
        Tables(if fd != 0 then Kevent(t.kq, [Delete(fd, Read), Delete(fd, Write)], stopsEarly) else t.kq,
               t.infos - {call.sock})
    else
      Tables(Kevent(t.kq, AddChanges(call.sock, call.what), stopsEarly),
             t.infos[call.sock := Info(call.sock, call.easy, call.what)])
  }

  function Replay(calls: seq<Call>, stopsEarly: bool): Tables {
    if calls == [] then Tables({}, map[])
    else OnCall(Replay(calls[..|calls| - 1], stopsEarly), calls[|calls| - 1], stopsEarly)
  }

  // Call j takes the filters of s away: a REMOVE of a nonzero socket does, unless the kernel
  // stops early and no call since the REMOVE before it asked to read.
  predicate Clears(calls: seq<Call>, s: nat, j: nat, stopsEarly: bool)
    requires j < |calls|
  {
    && calls[j].sock == s != 0 && calls[j].what == POLL_REMOVE
    && (stopsEarly ==> AskedSince(calls[..j], s, Read))
  }

  // Some call since the last REMOVE asked for the filter (since ever, for descriptor 0).
  predicate AskedSince(calls: seq<Call>, s: nat, filter: Filter) {
    calls != [] &&
    var init, last := calls[..|calls| - 1], calls[|calls| - 1];
    if last.sock != s then AskedSince(init, s, filter)
    else if last.what == POLL_REMOVE then s == 0 && AskedSince(init, s, filter)
    else Asks(last.what, filter) || AskedSince(init, s, filter)
  }

  // Call i asked for the filter, and no later call took it away.
  predicate Stands(calls: seq<Call>, s: nat, f: Filter, stopsEarly: bool, i: nat) {
    && i < |calls| && calls[i].sock == s && calls[i].what != POLL_REMOVE && Asks(calls[i].what, f)
    && forall j :: i < j < |calls| ==> !Clears(calls, s, j, stopsEarly)
  }

  ghost predicate Standing(calls: seq<Call>, s: nat, f: Filter, stopsEarly: bool) {
    exists i: nat :: Stands(calls, s, f, stopsEarly, i)
  }

  lemma AfterCall(calls: seq<Call>, call: Call, stopsEarly: bool)
    ensures Replay(calls + [call], stopsEarly) == OnCall(Replay(calls, stopsEarly), call, stopsEarly)
    ensures forall s, f {:trigger AskedSince(calls + [call], s, f)} ::
              AskedSince(calls + [call], s, f)
              <==> (if call.sock == s && call.what == POLL_REMOVE then s == 0 && AskedSince(calls, s, f)
                    else AskedSince(calls, s, f) || (call.sock == s && Asks(call.what, f)))
  {
    assert (calls + [call])[..|calls|] == calls;
  }

  // One more call: what it asks for stands, and what it clears does not.
  lemma StandingAfter(calls: seq<Call>, call: Call, s: nat, f: Filter, stopsEarly: bool)
    ensures Standing(calls + [call], s, f, stopsEarly)
            <==> || (call.sock == s && call.what != POLL_REMOVE && Asks(call.what, f))
                 || (Standing(calls, s, f, stopsEarly) && !Clears(calls + [call], s, |calls|, stopsEarly))
  {
    var later, last := calls + [call], |calls|;
    forall j | 0 <= j < last ensures Clears(later, s, j, stopsEarly) <==> Clears(calls, s, j, stopsEarly) {
      assert later[..j] == calls[..j];
    }
    if i: nat :| Stands(later, s, f, stopsEarly, i) {
      if i < last { assert Stands(calls, s, f, stopsEarly, i); }
    }
    if i: nat :| Stands(calls, s, f, stopsEarly, i) {
      if !Clears(later, s, last, stopsEarly) { assert Stands(later, s, f, stopsEarly, i); }
    }
    if call.sock == s && call.what != POLL_REMOVE && Asks(call.what, f) {
      assert Stands(later, s, f, stopsEarly, last);
    }
  }

  // A read filter, and any filter on a kernel that goes on, stands exactly since the last REMOVE.
  lemma {:induction false} StandingIsSince(calls: seq<Call>, s: nat, f: Filter, stopsEarly: bool)
    requires f.Read? || !stopsEarly
    ensures Standing(calls, s, f, stopsEarly) <==> AskedSince(calls, s, f)
  {
    if calls == [] {
    } else {
      var init, last := calls[..|calls| - 1], calls[|calls| - 1];
      assert init + [last] == calls;
      StandingIsSince(init, s, f, stopsEarly);
      StandingAfter(init, last, s, f, stopsEarly);
    }
  }

  lemma {:induction false} InfosFollowAlways(calls: seq<Call>, stopsEarly: bool)
    ensures InfosFollow(Replay(calls, stopsEarly).infos, calls)
  {
    if calls == [] {
    } else {
      var init, last := calls[..|calls| - 1], calls[|calls| - 1];
      InfosFollowAlways(init, stopsEarly);
      var t := Replay(init, stopsEarly);
      assert last.sock !in t.infos ==> t.infos - {last.sock} == t.infos;
      InfosAfter(t.infos, init, last, OnCall(t, last, stopsEarly).infos);
      assert init + [last] == calls;
    }
  }

  lemma KeventOne(kq: Registered, change: Change, rest: seq<Change>, stopsEarly: bool)
    ensures Kevent(kq, [change] + rest, stopsEarly)
            == if change.Add? then Kevent(kq + {(change.fd, change.filter)}, rest, stopsEarly)
               else if (change.fd, change.filter) !in kq && stopsEarly then kq
               else Kevent(kq - {(change.fd, change.filter)}, rest, stopsEarly)
  {
    assert ([change] + rest)[1..] == rest;
  }

  lemma KeventAdds(kq: Registered, s: nat, action: nat, stopsEarly: bool)
    ensures forall fd: nat, f: Filter ::
              (fd, f) in Kevent(kq, AddChanges(s, action), stopsEarly)
              <==> (fd, f) in kq || (fd == s && Asks(action, f))
  {
    KeventOne(kq, Add(s, Write), [], stopsEarly);
    KeventOne(kq, Add(s, Read), if AsksOut(action) then [Add(s, Write)] else [], stopsEarly);
    KeventOne(kq + {(s, Read)}, Add(s, Write), [], stopsEarly);
    assert [Add(s, Read)] + [] == [Add(s, Read)] && [Add(s, Write)] + [] == [Add(s, Write)];
    assert [] + [Add(s, Write)] == [Add(s, Write)];
  }

  lemma KeventDeletesAll(kq: Registered, s: nat)
    ensures Kevent(kq, [Delete(s, Read), Delete(s, Write)], false) == kq - {(s, Read), (s, Write)}
  {
    hide Kevent;
    var less := kq - {(s, Read)};
    KeventNothing(less - {(s, Write)}, false);
    assert [Delete(s, Write)] + [] == [Delete(s, Write)];
    assert [Delete(s, Read)] + [Delete(s, Write)] == [Delete(s, Read), Delete(s, Write)];
    KeventOne(less, Delete(s, Write), [], false);
    KeventOne(kq, Delete(s, Read), [Delete(s, Write)], false);
    assert less - {(s, Write)} == kq - {(s, Read), (s, Write)};
  }

  lemma KeventDeletesSome(kq: Registered, s: nat)
    ensures Kevent(kq, [Delete(s, Read), Delete(s, Write)], true)
            == if (s, Read) in kq then kq - {(s, Read), (s, Write)} else kq
  {
    hide Kevent;
    var less := kq - {(s, Read)};
    KeventNothing(less - {(s, Write)}, true);
    assert [Delete(s, Write)] + [] == [Delete(s, Write)];
    assert [Delete(s, Read)] + [Delete(s, Write)] == [Delete(s, Read), Delete(s, Write)];
    KeventOne(less, Delete(s, Write), [], true);
    KeventOne(kq, Delete(s, Read), [Delete(s, Write)], true);
    assert less - {(s, Write)} == kq - {(s, Read), (s, Write)};
    assert (s, Write) !in less ==> less == kq - {(s, Read), (s, Write)};
  }

  lemma KeventNothing(kq: Registered, stopsEarly: bool)
    ensures Kevent(kq, [], stopsEarly) == kq
  {
  }

  // ---------- What is registered ----------

  // Nothing has been asked of a socket since its REMOVE.
  lemma {:induction false} NothingAskedNothingSince(calls: seq<Call>, s: nat, f: Filter)
    requires s != 0 && LastAsked(calls, s).None?
    ensures !AskedSince(calls, s, f)
  {
    if calls == [] {
    } else if calls[|calls| - 1].sock != s {
      NothingAskedNothingSince(calls[..|calls| - 1], s, f);
    }
  }

  lemma KeventDeletes(kq: Registered, s: nat, stopsEarly: bool)
    ensures Kevent(kq, [Delete(s, Read), Delete(s, Write)], stopsEarly)
            == if (s, Read) in kq || !stopsEarly then kq - {(s, Read), (s, Write)} else kq
  {
    if stopsEarly { KeventDeletesSome(kq, s); } else { KeventDeletesAll(kq, s); }
  }

  // One call does to the table what it does to the standing filters.
  lemma CallKeepsStanding(calls: seq<Call>, call: Call, s: nat, f: Filter, stopsEarly: bool)
    requires (s, f) in Replay(calls, stopsEarly).kq <==> Standing(calls, s, f, stopsEarly)
    requires (s, Read) in Replay(calls, stopsEarly).kq <==> Standing(calls, s, Read, stopsEarly)
    ensures (s, f) in Replay(calls + [call], stopsEarly).kq <==> Standing(calls + [call], s, f, stopsEarly)
  {
    var t := Replay(calls, stopsEarly);
    AfterCall(calls, call, stopsEarly);
    StandingAfter(calls, call, s, f, stopsEarly);
    InfosFollowAlways(calls, stopsEarly);
    hide Standing, AskedSince, Kevent, Replay, LastAsked;
    if call.what == POLL_REMOVE {
      RemoveClears(calls, call, s, f, stopsEarly);
      KeventDeletes(t.kq, call.sock, stopsEarly);
      assert call.sock in t.infos <==> LastAsked(calls, call.sock).Some?;
    } else {
      KeventAdds(t.kq, call.sock, call.what, stopsEarly);
    }
  }

  lemma RemoveClears(calls: seq<Call>, call: Call, s: nat, f: Filter, stopsEarly: bool)
    requires call.what == POLL_REMOVE
    ensures Clears(calls + [call], s, |calls|, stopsEarly)
            <==> call.sock == s != 0 && (stopsEarly ==> Standing(calls, s, Read, stopsEarly))
    ensures s != 0 && LastAsked(calls, s).None? && (f.Read? || !stopsEarly) ==> !Standing(calls, s, f, stopsEarly)
    ensures s != 0 && LastAsked(calls, s).None? ==> !Standing(calls, s, Read, stopsEarly)
  {
    assert (calls + [call])[..|calls|] == calls;
    StandingIsSince(calls, s, Read, stopsEarly);
    if f.Read? || !stopsEarly { StandingIsSince(calls, s, f, stopsEarly); }
    if s != 0 && LastAsked(calls, s).None? {
      NothingAskedNothingSince(calls, s, Read);
      NothingAskedNothingSince(calls, s, f);
    }
  }

  /** On either kernel a filter is registered if and only if some call asked for it and no call
      has taken it away since: a REMOVE of a nonzero socket takes all its filters on a kernel
      that goes on after a failing change, and only those of a socket asked to read on one that
      stops. */
  lemma {:induction false} FiltersExactly(calls: seq<Call>, s: nat, f: Filter, stopsEarly: bool)
    ensures (s, f) in Replay(calls, stopsEarly).kq <==> Standing(calls, s, f, stopsEarly)
    decreases |calls|, f.Write?
  {
    if calls == [] {
    } else {
      var init, last := calls[..|calls| - 1], calls[|calls| - 1];
      assert init + [last] == calls;
      FiltersExactly(init, s, f, stopsEarly);
      FiltersExactly(init, s, Read, stopsEarly);
      CallKeepsStanding(init, last, s, f, stopsEarly);
    }
  }

  // The last action's own filters.
  predicate AskedLast(calls: seq<Call>, s: nat, f: Filter) {
    LastAsked(calls, s).Some? && Asks(LastAsked(calls, s).value, f)
  }

  lemma {:induction false} LastStands(calls: seq<Call>, s: nat, f: Filter, stopsEarly: bool)
    requires AskedLast(calls, s, f)
    ensures Standing(calls, s, f, stopsEarly)
  {
    var init, last := calls[..|calls| - 1], calls[|calls| - 1];
    assert init + [last] == calls;
    if last.sock != s {
      LastStands(init, s, f, stopsEarly);
    }
    StandingAfter(init, last, s, f, stopsEarly);
  }

  /** So on either kernel every socket is watched for all it last asked for; and on a kernel that
      goes on after a failing change, a nonzero socket is not watched at all after a REMOVE. */
  lemma WatchesAtLeast(calls: seq<Call>, s: nat, f: Filter, stopsEarly: bool)
    ensures AskedLast(calls, s, f) ==> (s, f) in Replay(calls, stopsEarly).kq
    ensures s != 0 && LastAsked(calls, s).None? && !stopsEarly ==> (s, f) !in Replay(calls, stopsEarly).kq
  {
    FiltersExactly(calls, s, f, stopsEarly);
    if AskedLast(calls, s, f) {
      LastStands(calls, s, f, stopsEarly);
    }
    if s != 0 && LastAsked(calls, s).None? && !stopsEarly {
      StandingIsSince(calls, s, f, stopsEarly);
      NothingAskedNothingSince(calls, s, f);
    }
  }

  // An epoll event mask asks for what the filter stands for.
  predicate Covers(events: nat, f: Filter) {
    match f
    case Read => events % 2 == 1
    case Write => events / 4 % 2 == 1
  }

  /** The two platforms side by side, after the same callbacks: what epoll watches a nonzero
      socket for is registered on either kernel, and a socket that epoll does not watch is not
      registered on a kernel that goes on after a failing change. */
  lemma AtLeastEpoll(timerFd: nat, eventFd: nat, calls: seq<Call>, s: nat, f: Filter, stopsEarly: bool)
    requires Epoll.Apart(calls, timerFd, eventFd) && s != 0 && s != timerFd && s != eventFd
    ensures Epoll.Replay(Epoll.Start(timerFd, eventFd), calls).Ok?
    ensures match Epoll.Entry(Epoll.Replay(Epoll.Start(timerFd, eventFd), calls).value.epoll, s)
            case None => !stopsEarly ==> (s, f) !in Replay(calls, stopsEarly).kq
            case Some(events) =>
              && (Covers(events, f) <==> AskedLast(calls, s, f))
              && (Covers(events, f) ==> (s, f) in Replay(calls, stopsEarly).kq)
  {
    Epoll.InterestMatches(timerFd, eventFd, calls, s);
    WatchesAtLeast(calls, s, f, stopsEarly);
  }

  // ---------- A kernel that stops at the first failing change ----------

  // The two kernels hold the same filters for s after the first k calls.
  predicate SameFilters(calls: seq<Call>, s: nat, k: nat)
    requires k <= |calls|
  {
    var t, u := Replay(calls[..k], true).kq, Replay(calls[..k], false).kq;
    ((s, Read) in t <==> (s, Read) in u) && ((s, Write) in t <==> (s, Write) in u)
  }

  // The call removes a socket that has a write filter and no read filter.
  predicate RemovesWriteOnly(calls: seq<Call>, s: nat, i: nat)
    requires i < |calls|
  {
    && calls[i].sock == s && calls[i].what == POLL_REMOVE
    && AskedSince(calls[..i], s, Write) && !AskedSince(calls[..i], s, Read)
  }

  lemma OneMoreCall(calls: seq<Call>, s: nat, k: nat)
    requires s != 0 && k < |calls| && SameFilters(calls, s, k)
    ensures SameFilters(calls, s, k + 1) <==> !RemovesWriteOnly(calls, s, k)
  {
    var init, last := calls[..k], calls[k];
    assert calls[..k + 1] == init + [last] && (init + [last])[..k] == init;
    forall f: Filter, stops: bool
      ensures (s, f) in Replay(init, stops).kq <==> Standing(init, s, f, stops)
      ensures (s, f) in Replay(init + [last], stops).kq <==> Standing(init + [last], s, f, stops)
    {
      FiltersExactly(init, s, f, stops);
      FiltersExactly(init + [last], s, f, stops);
    }
    StandingIsSince(init, s, Read, false);
    StandingIsSince(init, s, Read, true);
    StandingIsSince(init, s, Write, false);
    hide Standing, AskedSince, Replay;
    forall f: Filter, stops: bool
      ensures Standing(init + [last], s, f, stops)
              <==> || (last.sock == s && last.what != POLL_REMOVE && Asks(last.what, f))
                   || (Standing(init, s, f, stops) && !Clears(init + [last], s, k, stops))
    {
      StandingAfter(init, last, s, f, stops);
    }
  }

  lemma {:induction false} SameSoFar(calls: seq<Call>, s: nat, k: nat)
    requires s != 0 && k <= |calls|
    requires forall i :: 0 <= i < |calls| ==> !RemovesWriteOnly(calls, s, i)
    ensures SameFilters(calls, s, k)
  {
    if k == 0 {
    } else {
      SameSoFar(calls, s, k - 1);
      OneMoreCall(calls, s, k - 1);
    }
  }

  /** If kevent stops at the first failing change, a nonzero socket is still watched as above,
      all the way, exactly when no REMOVE meets a socket registered for writing only: such a
      socket stays registered. */
  lemma EarlyStopExactly(calls: seq<Call>, s: nat)
    requires s != 0
    ensures (forall k :: 0 <= k <= |calls| ==> SameFilters(calls, s, k))
            <==> (forall i :: 0 <= i < |calls| ==> !RemovesWriteOnly(calls, s, i))
  {
    if forall i :: 0 <= i < |calls| ==> !RemovesWriteOnly(calls, s, i) {
      forall k | 0 <= k <= |calls| ensures SameFilters(calls, s, k) {
        SameSoFar(calls, s, k);
      }
    } else if forall k :: 0 <= k <= |calls| ==> SameFilters(calls, s, k) {
      var i :| 0 <= i < |calls| && RemovesWriteOnly(calls, s, i);
      assert SameFilters(calls, s, i) && SameFilters(calls, s, i + 1);
      OneMoreCall(calls, s, i);
      assert false;
    }
  }

  /** For example, a socket that only waited to write is still registered after its REMOVE. */
  lemma WriteOnlyStays(easy: nat, s: nat)
    requires s != 0
    ensures var calls := [Call(easy, s, 2), Call(easy, s, POLL_REMOVE)];
            LastAsked(calls, s) == None && (s, Write) in Replay(calls, true).kq
  {
    var calls := [Call(easy, s, 2), Call(easy, s, POLL_REMOVE)];
    assert calls[..1] == [Call(easy, s, 2)] && calls[..1][..0] == [];
    assert !AskedSince(calls[..1], s, Read);
    assert Stands(calls, s, Write, true, 0);
    FiltersExactly(calls, s, Write, true);
  }

  // ---------- The class ----------

  class Reactor {
    const stopsEarly: bool
    var kq: Registered
    var pointers: map<nat, SockInfo>

    ghost predicate Valid()
      reads this
    {
      Separate(pointers)
    }

    ghost function View(): Tables
      reads this, pointers.Values
    {
      Tables(kq, Views(pointers))
    }

    constructor (stops: bool)
      ensures Valid() && stopsEarly == stops && pointers == map[] && View() == Replay([], stops)
    {
      stopsEarly, kq, pointers := stops, {}, map[];
    }

    // The kernel goes through the change list.
    method KeventCall(changes: seq<Change>)
      modifies this`kq
      ensures kq == Kevent(old(kq), changes, stopsEarly)
    {
      for i := 0 to |changes|
        invariant Kevent(kq, changes[i..], stopsEarly) == Kevent(old(kq), changes, stopsEarly)
      {
        assert changes[i..][1..] == changes[i + 1..];
        match changes[i]
        case Add(fd, filter) => kq := kq + {(fd, filter)};
        case Delete(fd, filter) =>
          if (fd, filter) !in kq && stopsEarly {
            return;
          }
          kq := kq - {(fd, filter)};
      }
    }

    // Frees f; the caller's pointer to it goes too.
    method RemoveSockInfo(f: SockInfo?)
      modifies this`kq
      ensures kq == if f != null && f.sockfd != 0
                    then Kevent(old(kq), [Delete(f.sockfd, Read), Delete(f.sockfd, Write)], stopsEarly)
                    else old(kq)
    {
      if f == null {
        return;
      }
      if f.sockfd != 0 {
        KeventCall([Delete(f.sockfd, Read), Delete(f.sockfd, Write)]);
      }
    }

    method SetSockInfo(f: SockInfo, s: nat, e: nat, act: nat)
      modifies this`kq, f
      ensures f.View() == Info(s, e, act) && kq == Kevent(old(kq), AddChanges(s, act), stopsEarly)
    {
      f.sockfd := s;
      f.action := act;
      f.easy := e;
      var ev := [];
      if AsksIn(act) {
        ev := ev + [Add(s, Read)];
      }
      if AsksOut(act) {
        ev := ev + [Add(s, Write)];
      }
      assert ev == AddChanges(s, act);
      if |ev| > 0 {
        KeventCall(ev);
      }
    }

    method AddSockInfo(s: nat, easy: nat, action: nat)
      requires Valid() && s !in pointers && action != POLL_REMOVE
      modifies this
      ensures Valid() && s in pointers && fresh(pointers[s]) && pointers == old(pointers)[s := pointers[s]]
      ensures View() == OnCall(old(View()), Call(easy, s, action), stopsEarly)
    {
      var fdp := new SockInfo();
      SetSockInfo(fdp, s, easy, action);
      pointers := pointers[s := fdp];
      assert Views(pointers) == old(Views(pointers))[s := fdp.View()];
    }

    /** One callback, with the pointer libcurl holds for the socket: the tables become what
        OnCall says. */
    method SocketCallback(e: nat, s: nat, what: nat)
      requires Valid()
      modifies this, pointers.Values
      ensures Valid() && fresh(pointers.Values - old(pointers.Values))
      ensures View() == OnCall(old(View()), Call(e, s, what), stopsEarly)
    {
      var fdp: SockInfo? := if s in pointers then pointers[s] else null;
      if what == POLL_REMOVE {
        RemoveSockInfo(fdp);
        pointers := pointers - {s};
        assert Views(pointers) == old(Views(pointers)) - {s};
        return;
      }
      if fdp == null {
        AddSockInfo(s, e, what);
        return;
      }
      SetSockInfo(fdp, s, e, what);
      assert Views(pointers) == old(Views(pointers))[s := Info(s, e, what)];
    }
  }

  /** The class over any sequence of callbacks, on either kernel: every socket is watched for all
      it last asked for. */
  method HandleAll(calls: seq<Call>, stops: bool) returns (reactor: Reactor)
    ensures fresh(reactor) && reactor.View() == Replay(calls, stops)
    ensures forall s: nat, f: Filter :: AskedLast(calls, s, f) ==> (s, f) in reactor.kq
  {
    reactor := new Reactor(stops);
    for i := 0 to |calls|
      invariant fresh(reactor) && reactor.Valid() && fresh(reactor.pointers.Values)
      invariant reactor.stopsEarly == stops && reactor.View() == Replay(calls[..i], stops)
    {
      assert calls[..i + 1][..i] == calls[..i];
      reactor.SocketCallback(calls[i].easy, calls[i].sock, calls[i].what);
    }
    assert calls[..|calls|] == calls;
    forall s: nat, f: Filter | AskedLast(calls, s, f) ensures (s, f) in reactor.kq {
      WatchesAtLeast(calls, s, f, stops);
    }
  }
}
