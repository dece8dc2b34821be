/** SocketCallback and its helpers over epoll: the kernel's interest set against what libcurl
    last asked for. */
module EpollReactor {
  import opened Wrappers
  import opened SocketCalls

  const EPOLLIN := 1
  const EPOLLOUT := 4

  datatype Errno = Enoent | Eexist

  // epoll: the kernel's interest set; infos: the pointers libcurl holds; refused: how many
  // EPOLL_CTL_ADD failed unnoticed.
  datatype Tables = Tables(epoll: map<nat, nat>, infos: map<nat, Info>, refused: nat)

  function Kind(action: nat): nat {
    (if AsksIn(action) then EPOLLIN else 0) + (if AsksOut(action) then EPOLLOUT else 0)
  }

  function EpollAdd(epoll: map<nat, nat>, fd: nat, events: nat): Result<map<nat, nat>, Errno> {
    if fd in epoll then Err(Eexist) else Ok(epoll[fd := events])
  }

  function EpollDel(epoll: map<nat, nat>, fd: nat): Result<map<nat, nat>, Errno> {
    if fd in epoll then Ok(epoll - {fd}) else Err(Enoent)
  }

  // The first DEL of SetSockInfo and the one of RemoveSockInfo: only for a nonzero descriptor.
  function Unwatch(epoll: map<nat, nat>, fd: nat): Result<map<nat, nat>, Errno> {
    if fd != 0 then EpollDel(epoll, fd) else Ok(epoll)
  }

  // One call of SocketCallback with the pointer libcurl holds; an error is thrown.
  function OnCall(t: Tables, call: Call): Result<Tables, Errno> {
    if call.what == POLL_REMOVE then
      if call.sock !in t.infos then Ok(t)
      else
        match Unwatch(t.epoll, t.infos[call.sock].sockfd)
        case Ok(epoll) => Ok(Tables(epoll, t.infos - {call.sock}, t.refused))
        case Err(e) => Err(e)
    else
      match Unwatch(t.epoll, if call.sock in t.infos then t.infos[call.sock].sockfd else 0)
      case Err(e) => Err(e)
      case Ok(epoll) =>
        var infos := t.infos[call.sock := Info(call.sock, call.easy, call.what)];
        match EpollAdd(epoll, call.sock, Kind(call.what))
        case Ok(added) => Ok(Tables(added, infos, t.refused))
        case Err(_) => Ok(Tables(epoll, infos, t.refused + 1))
  }

  function Replay(t: Tables, calls: seq<Call>): Result<Tables, Errno> {
    if calls == [] then Ok(t)
    else
      match Replay(t, calls[..|calls| - 1])
      case Ok(u) => OnCall(u, calls[|calls| - 1])
      case Err(e) => Err(e)
  }

  // As the constructor leaves it: the timerfd and the eventfd, and no socket.
  function Start(timerFd: nat, eventFd: nat): Tables {
    Tables(map[timerFd := EPOLLIN, eventFd := EPOLLIN], map[], 0)
  }

  // Sockets are open descriptors of their own.
  predicate Apart(calls: seq<Call>, timerFd: nat, eventFd: nat) {
    forall i :: 0 <= i < |calls| ==> calls[i].sock != timerFd && calls[i].sock != eventFd
  }

  function Events(asked: Option<nat>): Option<nat> {
    match asked case Some(action) => Some(Kind(action)) case None => None
  }

  // The kernel watches for reading (EPOLLIN, bit 0) exactly if CURL_POLL_IN (bit 0) was asked for,
  // for writing (EPOLLOUT, bit 2) exactly if CURL_POLL_OUT (bit 1) was, for nothing else, and not
  // at all if nothing is asked for.
  predicate IsAsAsked(entry: Option<nat>, asked: Option<nat>) {
    match (entry, asked)
    case (Some(events), Some(what)) =>
      && (events % 2 == 1 <==> what % 2 == 1) && (events / 4 % 2 == 1 <==> what / 2 % 2 == 1)
      && events / 2 % 2 == 0 && events < 8
    case (None, None) => true
    case _ => false
  }

  lemma EventsAsAsked(asked: Option<nat>)
    ensures IsAsAsked(Events(asked), asked)
  {
    if asked.Some? {
      BitsOfKind(asked.value);
    }
  }

  lemma BitsOfKind(what: nat)
    ensures IsAsAsked(Some(Kind(what)), Some(what))
  {
  }

  function Entry(epoll: map<nat, nat>, fd: nat): Option<nat> {
    if fd in epoll then Some(epoll[fd]) else None
  }

  // Every action on descriptor 0 but the first.
  function LaterOnZero(calls: seq<Call>): nat {
    if calls == [] then 0
    else
      var last := calls[|calls| - 1];
      LaterOnZero(calls[..|calls| - 1])
      + if last.sock == 0 && last.what != POLL_REMOVE && FirstAsked(calls[..|calls| - 1], 0).Some? then 1 else 0
  }

  ghost predicate EpollFollows(epoll: map<nat, nat>, calls: seq<Call>, timerFd: nat, eventFd: nat) {
    && Entry(epoll, timerFd) == Entry(epoll, eventFd) == Some(EPOLLIN)
    && forall s: nat {:trigger Entry(epoll, s)} :: s != timerFd && s != eventFd ==>
         Entry(epoll, s) == Events(if s == 0 then FirstAsked(calls, s) else LastAsked(calls, s))
  }

  lemma AfterCall(calls: seq<Call>, call: Call)
    ensures forall s {:trigger FirstAsked(calls + [call], s)} ::
              FirstAsked(calls + [call], s)
              == if FirstAsked(calls, s).None? && call.sock == s && call.what != POLL_REMOVE then Some(call.what)
                 else FirstAsked(calls, s)
    ensures LaterOnZero(calls + [call])
            == LaterOnZero(calls)
               + if call.sock == 0 && call.what != POLL_REMOVE && FirstAsked(calls, 0).Some? then 1 else 0
  {
    assert (calls + [call])[..|calls|] == calls;
  }

  // One callback keeps everything in agreement, and throws nothing.
  lemma CallFollows(t: Tables, calls: seq<Call>, call: Call, timerFd: nat, eventFd: nat)
    requires EpollFollows(t.epoll, calls, timerFd, eventFd) && InfosFollow(t.infos, calls)
    requires call.sock != timerFd && call.sock != eventFd
    ensures OnCall(t, call).Ok?
    ensures var u := OnCall(t, call).value;
            && EpollFollows(u.epoll, calls + [call], timerFd, eventFd) && InfosFollow(u.infos, calls + [call])
            && u.refused - t.refused == LaterOnZero(calls + [call]) - LaterOnZero(calls)
  {
    AfterCall(calls, call);
    LastAfter(calls, call);
    assert call.sock in t.infos <==> LastAsked(calls, call.sock).Some?;
    assert call.sock != 0 ==> Entry(t.epoll, call.sock) == Events(LastAsked(calls, call.sock));
    assert call.sock == 0 ==> Entry(t.epoll, call.sock) == Events(FirstAsked(calls, call.sock));
    var u := OnCall(t, call).value;
    assert call.sock !in t.infos ==> t.infos - {call.sock} == t.infos;
    InfosAfter(t.infos, calls, call, u.infos);
    forall s: nat | s != call.sock ensures Entry(u.epoll, s) == Entry(t.epoll, s) {}
    if call.sock == 0 {
      assert Entry(u.epoll, 0) == Events(FirstAsked(calls + [call], 0));
    } else {
      assert Entry(u.epoll, call.sock) == Events(LastAsked(calls + [call], call.sock));
    }
  }

  lemma {:induction false} ReplayFollows(timerFd: nat, eventFd: nat, calls: seq<Call>)
    requires Apart(calls, timerFd, eventFd)
    ensures Replay(Start(timerFd, eventFd), calls).Ok?
    ensures var t := Replay(Start(timerFd, eventFd), calls).value;
            && EpollFollows(t.epoll, calls, timerFd, eventFd) && InfosFollow(t.infos, calls)
            && t.refused == LaterOnZero(calls)
  {
    if calls == [] {
    } else {
      var init, last := calls[..|calls| - 1], calls[|calls| - 1];
      ReplayFollows(timerFd, eventFd, init);
      CallFollows(Replay(Start(timerFd, eventFd), init).value, init, last, timerFd, eventFd);
      assert init + [last] == calls;
    }
  }

  // ---------- Theorems ----------

  /** After any sequence of callbacks the kernel watches every nonzero socket for reading and for
      writing exactly if its last action asks for it, for nothing else, and not at all after a
      REMOVE; the timerfd and the eventfd stay watched for reading; no EPOLL_CTL_DEL fails. */
  lemma InterestMatches(timerFd: nat, eventFd: nat, calls: seq<Call>, s: nat)
    requires Apart(calls, timerFd, eventFd) && s != 0 && s != timerFd && s != eventFd
    ensures Replay(Start(timerFd, eventFd), calls).Ok?
    ensures var epoll := Replay(Start(timerFd, eventFd), calls).value.epoll;
            && IsAsAsked(Entry(epoll, s), LastAsked(calls, s))
            && Entry(epoll, timerFd) == Entry(epoll, eventFd) == Some(1)
  {
    ReplayFollows(timerFd, eventFd, calls);
    EventsAsAsked(LastAsked(calls, s));
  }

  predicate ActionOnZero(call: Call) {
    call.sock == 0 && call.what != POLL_REMOVE
  }

  lemma {:induction false} LaterOnZeroCounts(calls: seq<Call>)
    ensures FirstAsked(calls, 0).Some? <==> exists i :: 0 <= i < |calls| && ActionOnZero(calls[i])
    ensures LaterOnZero(calls) > 0
            <==> exists i, j :: 0 <= i < j < |calls| && ActionOnZero(calls[i]) && ActionOnZero(calls[j])
  {
    if calls == [] {
    } else {
      var last := |calls| - 1;
      var init := calls[..last];
      LaterOnZeroCounts(init);
      if i :| 0 <= i < |init| && ActionOnZero(init[i]) { assert ActionOnZero(calls[i]); }
      if i, j :| 0 <= i < j < |init| && ActionOnZero(init[i]) && ActionOnZero(init[j]) {
        assert ActionOnZero(calls[i]) && ActionOnZero(calls[j]);
      }
      if i, j :| 0 <= i < j < |calls| && ActionOnZero(calls[i]) && ActionOnZero(calls[j]) {
        assert ActionOnZero(init[i]);
        if j < last { assert ActionOnZero(init[j]); }
      }
    }
  }

  /** An EPOLL_CTL_ADD meets a descriptor already watched exactly when two actions name
      descriptor 0. */
  lemma AddRefusedExactly(timerFd: nat, eventFd: nat, calls: seq<Call>)
    requires Apart(calls, timerFd, eventFd)
    ensures Replay(Start(timerFd, eventFd), calls).Ok?
    ensures Replay(Start(timerFd, eventFd), calls).value.refused > 0
            <==> exists i, j :: 0 <= i < j < |calls| && ActionOnZero(calls[i]) && ActionOnZero(calls[j])
  {
    ReplayFollows(timerFd, eventFd, calls);
    LaterOnZeroCounts(calls);
  }

  // After the first k callbacks descriptor 0 is watched as last asked.
  predicate ZeroAgrees(timerFd: nat, eventFd: nat, calls: seq<Call>, k: nat)
    requires k <= |calls|
  {
    match Replay(Start(timerFd, eventFd), calls[..k])
    case Ok(t) => IsAsAsked(Entry(t.epoll, 0), LastAsked(calls[..k], 0))
    case Err(_) => false
  }

  // After its first action descriptor 0 is never removed and never asked for other events.
  ghost predicate SteadyOnZero(calls: seq<Call>) {
    forall i, j :: 0 <= i < j < |calls| && ActionOnZero(calls[i]) && calls[j].sock == 0 ==>
      ActionOnZero(calls[j]) && calls[j].what % 4 == calls[i].what % 4
  }

  // The first action on 0, if there is one, is some element; the last call on 0 decides LastAsked.
  lemma {:induction false} FirstIsElement(calls: seq<Call>)
    requires FirstAsked(calls, 0).Some?
    ensures exists i :: 0 <= i < |calls| && ActionOnZero(calls[i]) && calls[i].what == FirstAsked(calls, 0).value
  {
    var init := calls[..|calls| - 1];
    if FirstAsked(init, 0).Some? {
      FirstIsElement(init);
      var i :| 0 <= i < |init| && ActionOnZero(init[i]) && init[i].what == FirstAsked(init, 0).value;
      assert ActionOnZero(calls[i]);
    } else {
      assert ActionOnZero(calls[|calls| - 1]);
    }
  }

  lemma {:induction false} SteadyAsks(calls: seq<Call>)
    requires SteadyOnZero(calls)
    ensures Events(FirstAsked(calls, 0)) == Events(LastAsked(calls, 0))
  {
    if calls == [] {
    } else {
      var last := |calls| - 1;
      var init := calls[..last];
      SteadyAsks(init);
      if FirstAsked(init, 0).Some? {
        FirstIsElement(init);
        var i :| 0 <= i < |init| && ActionOnZero(init[i]) && init[i].what == FirstAsked(init, 0).value;
        assert ActionOnZero(calls[i]);
      }
    }
  }

  /** Descriptor 0 is watched as libcurl asks, all the way, exactly when libcurl never removes
      it and never changes its events after the first action. */
  lemma ZeroAgreesExactly(timerFd: nat, eventFd: nat, calls: seq<Call>)
    requires Apart(calls, timerFd, eventFd) && timerFd != 0 && eventFd != 0
    ensures (forall k :: 0 <= k <= |calls| ==> ZeroAgrees(timerFd, eventFd, calls, k)) <==> SteadyOnZero(calls)
  {
    if SteadyOnZero(calls) {
      forall k | 0 <= k <= |calls| ensures ZeroAgrees(timerFd, eventFd, calls, k) {
        ReplayFollows(timerFd, eventFd, calls[..k]);
        SteadyAsks(calls[..k]);
      }
    } else if forall k :: 0 <= k <= |calls| ==> ZeroAgrees(timerFd, eventFd, calls, k) {
      var i, j :| 0 <= i < j < |calls| && ActionOnZero(calls[i]) && calls[j].sock == 0
                  && !(ActionOnZero(calls[j]) && calls[j].what % 4 == calls[i].what % 4);
      FirstKindAt(timerFd, eventFd, calls, i, j);
      FirstKindAt(timerFd, eventFd, calls, i, i);
      assert false;
    }
  }

  // If 0 always agrees, each later call on it asks for the events of the first action.
  lemma FirstKindAt(timerFd: nat, eventFd: nat, calls: seq<Call>, i: nat, j: nat)
    requires Apart(calls, timerFd, eventFd) && timerFd != 0 && eventFd != 0
    requires i <= j < |calls| && ActionOnZero(calls[i]) && calls[j].sock == 0
    requires ZeroAgrees(timerFd, eventFd, calls, j + 1)
    ensures FirstAsked(calls[..i + 1], 0).Some? && ActionOnZero(calls[j])
    ensures calls[j].what % 4 == FirstAsked(calls[..i + 1], 0).value % 4
  {
    ReplayFollows(timerFd, eventFd, calls[..j + 1]);
    assert calls[..i + 1][..i] == calls[..i] && calls[..j + 1][..j] == calls[..j];
    FirstStays(calls, i + 1, j + 1);
  }

  lemma {:induction false} FirstStays(calls: seq<Call>, k: nat, m: nat)
    requires k <= m <= |calls| && FirstAsked(calls[..k], 0).Some?
    ensures FirstAsked(calls[..m], 0) == FirstAsked(calls[..k], 0)
  {
    if k == m {
    } else {
      FirstStays(calls, k, m - 1);
      assert calls[..m][..m - 1] == calls[..m - 1];
    }
  }

  /** For example, the kernel goes on watching descriptor 0 after libcurl removed it. */
  lemma ZeroStaysAfterRemove(timerFd: nat, eventFd: nat, easy: nat)
    requires timerFd != 0 && eventFd != 0
    ensures var calls := [Call(easy, 0, 1), Call(easy, 0, POLL_REMOVE)];
            && LastAsked(calls, 0) == None && Replay(Start(timerFd, eventFd), calls).Ok?
            && Entry(Replay(Start(timerFd, eventFd), calls).value.epoll, 0) == Some(1)
  {
    var calls := [Call(easy, 0, 1), Call(easy, 0, POLL_REMOVE)];
    ReplayFollows(timerFd, eventFd, calls);
    assert calls[..1] == [Call(easy, 0, 1)] && calls[..1][..0] == [];
    assert FirstAsked(calls[..1], 0) == Some(1);
  }

  // ---------- The class ----------

  // GlobalInfo as the socket callbacks see it; pointers is libcurl's, set by curl_multi_assign.
  class Reactor {
    var epoll: map<nat, nat>
    var pointers: map<nat, SockInfo>
    var refused: nat

    ghost predicate Valid()
      reads this
    {
      Separate(pointers)
    }

    ghost function View(): Tables
      reads this, pointers.Values
    {
      Tables(epoll, Views(pointers), refused)
    }

    constructor (timerFd: nat, eventFd: nat)
      ensures Valid() && pointers == map[] && View() == Start(timerFd, eventFd)
    {
      epoll, pointers, refused := map[timerFd := EPOLLIN, eventFd := EPOLLIN], map[], 0;
    }

    method EpollCtlDel(fd: nat) returns (thrown: bool)
      modifies this`epoll
      ensures thrown == EpollDel(old(epoll), fd).Err?
      ensures epoll == if thrown then old(epoll) else EpollDel(old(epoll), fd).value
    {
      thrown := fd !in epoll;
      epoll := epoll - {fd};
    }

    // The result of EPOLL_CTL_ADD is not looked at.
    method EpollCtlAdd(fd: nat, events: nat)
      modifies this`epoll, this`refused
      ensures match EpollAdd(old(epoll), fd, events)
              case Ok(added) => epoll == added && refused == old(refused)
              case Err(_) => epoll == old(epoll) && refused == old(refused) + 1
    {
      if fd in epoll {
        refused := refused + 1;
      } else {
        epoll := epoll[fd := events];
      }
    }

    // Frees f; the caller's pointer to it goes too.
    method RemoveSockInfo(f: SockInfo?) returns (thrown: bool)
      modifies this`epoll
      ensures f == null ==> !thrown && epoll == old(epoll)
      ensures f != null ==> match Unwatch(old(epoll), f.sockfd)
                            case Ok(after) => !thrown && epoll == after
                            case Err(_) => thrown && epoll == old(epoll)
    {
      if f == null {
        return false;
      }
      thrown := false;
      if f.sockfd != 0 {
        thrown := EpollCtlDel(f.sockfd);
      }
    }

    method SetSockInfo(f: SockInfo, s: nat, e: nat, act: nat) returns (thrown: bool)
      modifies this`epoll, this`refused, f
      ensures match Unwatch(old(epoll), old(f.sockfd))
              case Err(_) => thrown && epoll == old(epoll) && refused == old(refused) && f.View() == old(f.View())
              case Ok(after) =>
                && !thrown && f.View() == Info(s, e, act)
                && match EpollAdd(after, s, Kind(act))
                   case Ok(added) => epoll == added && refused == old(refused)
                   case Err(_) => epoll == after && refused == old(refused) + 1
      ensures !thrown && refused == old(refused) ==> IsAsAsked(Entry(epoll, s), Some(act))
    {
      BitsOfKind(act);
      var kind := (if AsksIn(act) then EPOLLIN else 0) + (if AsksOut(act) then EPOLLOUT else 0);
      if f.sockfd != 0 {
        thrown := EpollCtlDel(f.sockfd);
        if thrown {
          return;
        }
      }
      f.sockfd := s;
      f.action := act;
      f.easy := e;
      EpollCtlAdd(s, kind);
      thrown := false;
    }

    method AddSockInfo(s: nat, easy: nat, action: nat)
      requires Valid() && s !in pointers && action != POLL_REMOVE
      modifies this
      ensures Valid() && s in pointers && fresh(pointers[s]) && pointers == old(pointers)[s := pointers[s]]
      ensures Ok(View()) == OnCall(old(View()), Call(easy, s, action))
    {
      var fdp := new SockInfo();
      var thrown := SetSockInfo(fdp, s, easy, action);
      pointers := pointers[s := fdp];
      assert Views(pointers) == old(Views(pointers))[s := fdp.View()];
    }

    method Forget(f: SockInfo, s: nat) returns (thrown: bool)
      requires Valid() && s in pointers && f == pointers[s]
      modifies this
      ensures Valid() && pointers.Values <= old(pointers.Values)
      ensures match OnCall(old(View()), Call(0, s, POLL_REMOVE))
              case Ok(after) => !thrown && View() == after
              case Err(_) => thrown && View() == old(View())
    {
      thrown := RemoveSockInfo(f);
      if thrown {
        return;
      }
      pointers := pointers - {s};
      assert Views(pointers) == old(Views(pointers)) - {s};
    }

    method Change(f: SockInfo, e: nat, s: nat, what: nat) returns (thrown: bool)
      requires Valid() && s in pointers && f == pointers[s] && what != POLL_REMOVE
      modifies this`epoll, this`refused, f
      ensures Valid()
      ensures match OnCall(old(View()), Call(e, s, what))
              case Ok(after) => !thrown && View() == after
              case Err(_) => thrown && View() == old(View())
    {
      thrown := SetSockInfo(f, s, e, what);
      if thrown {
        assert Views(pointers) == old(Views(pointers));
        return;
      }
      assert Views(pointers) == old(Views(pointers))[s := Info(s, e, what)];
    }

    /** One callback, with the pointer libcurl holds for the socket: the tables become what
        OnCall says, and an error is thrown exactly where OnCall has one. */
    method SocketCallback(e: nat, s: nat, what: nat) returns (thrown: bool)
      requires Valid()
      modifies this, pointers.Values
      ensures Valid() && fresh(pointers.Values - old(pointers.Values))
      ensures match OnCall(old(View()), Call(e, s, what))
              case Ok(after) => !thrown && View() == after
              case Err(_) => thrown && View() == old(View())
    {
      var fdp: SockInfo? := if s in pointers then pointers[s] else null;
      if what == POLL_REMOVE {
        thrown := false;
        if fdp == null {
          thrown := RemoveSockInfo(fdp);
        } else {
          thrown := Forget(fdp, s);
        }
        return;
      }
      if fdp == null {
        AddSockInfo(s, e, what);
        return false;
      }
      thrown := Change(fdp, e, s, what);
    }
  }

  /** The class over any sequence of callbacks: it never throws, and ends with every nonzero
      socket watched as last asked. */
  method HandleAll(timerFd: nat, eventFd: nat, calls: seq<Call>) returns (reactor: Reactor)
    requires Apart(calls, timerFd, eventFd)
    ensures fresh(reactor) && reactor.Valid()
    ensures Ok(reactor.View()) == Replay(Start(timerFd, eventFd), calls)
    ensures forall s: nat :: s != 0 && s != timerFd && s != eventFd ==>
              IsAsAsked(Entry(reactor.epoll, s), LastAsked(calls, s))
  {
    reactor := new Reactor(timerFd, eventFd);
    for i := 0 to |calls|
      invariant fresh(reactor) && reactor.Valid() && fresh(reactor.pointers.Values)
      invariant Ok(reactor.View()) == Replay(Start(timerFd, eventFd), calls[..i])
    {
      assert calls[..i + 1][..i] == calls[..i];
      ReplayFollows(timerFd, eventFd, calls[..i + 1]);
      var thrown := reactor.SocketCallback(calls[i].easy, calls[i].sock, calls[i].what);
    }
    assert calls[..|calls|] == calls;
    forall s: nat | s != 0 && s != timerFd && s != eventFd
      ensures IsAsAsked(Entry(reactor.epoll, s), LastAsked(calls, s))
    {
      InterestMatches(timerFd, eventFd, calls, s);
    }
  }
}
