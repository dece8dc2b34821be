/** The calls libcurl makes to SocketCallback, and what they ask for. */
module SocketCalls {
  import opened Wrappers

  // what: CURL_POLL_IN and CURL_POLL_OUT bits, or CURL_POLL_REMOVE.
  datatype Call = Call(easy: nat, sock: nat, what: nat)

  const POLL_REMOVE := 4

  predicate AsksIn(what: nat) {
    what % 2 == 1
  }

  predicate AsksOut(what: nat) {
    what / 2 % 2 == 1
  }

  // The action libcurl last asked for on a socket; none before the first and after a REMOVE.
  function LastAsked(calls: seq<Call>, s: nat): Option<nat> {
    if calls == [] then None
    else
      var last := calls[|calls| - 1];
      if last.sock != s then LastAsked(calls[..|calls| - 1], s)
      else if last.what == POLL_REMOVE then None
      else Some(last.what)
  }

  // Call i is the last on the socket, and asks for this action; CURL_POLL_REMOVE, which is 4,
  // asks for none.
  predicate AsksLast(calls: seq<Call>, s: nat, what: nat, i: nat) {
    && i < |calls| && calls[i].sock == s && calls[i].what == what != 4
    && forall j :: i < j < |calls| ==> calls[j].sock != s
  }

  lemma AsksLastAfter(calls: seq<Call>, call: Call, s: nat, what: nat)
    ensures (exists i: nat :: AsksLast(calls + [call], s, what, i))
            <==> if call.sock == s then call.what == what != 4 else exists i: nat :: AsksLast(calls, s, what, i)
  {
    var later, last := calls + [call], |calls|;
    if i: nat :| AsksLast(later, s, what, i) {
      assert later[last] == call;
      assert forall j :: 0 <= j < last ==> later[j] == calls[j];
      if i < last { assert AsksLast(calls, s, what, i); }
    }
    if call.sock == s && call.what == what != 4 { assert AsksLast(later, s, what, last); }
    if i: nat :| AsksLast(calls, s, what, i) {
      if call.sock != s { assert AsksLast(later, s, what, i); }
    }
  }

  /** What was last asked for is what the last call on the socket asks for. */
  lemma {:induction false} LastAskedExactly(calls: seq<Call>, s: nat, what: nat)
    ensures LastAsked(calls, s) == Some(what) <==> exists i: nat :: AsksLast(calls, s, what, i)
  {
    hide AsksLast;
    if calls == [] {
      NoneAskLast(s, what);
    } else {
      var init, last := calls[..|calls| - 1], calls[|calls| - 1];
      assert init + [last] == calls;
      LastAskedExactly(init, s, what);
      AsksLastAfter(init, last, s, what);
    }
  }

  lemma NoneAskLast(s: nat, what: nat)
    ensures forall i: nat :: !AsksLast([], s, what, i)
  {
  }

  // The easy handle of the last call on a socket.
  function LastEasy(calls: seq<Call>, s: nat): nat {
    if calls == [] then 0
    else
      var last := calls[|calls| - 1];
      if last.sock != s then LastEasy(calls[..|calls| - 1], s) else last.easy
  }

  // The first action ever asked for on a socket.
  function FirstAsked(calls: seq<Call>, s: nat): Option<nat> {
    if calls == [] then None
    else
      var last := calls[|calls| - 1];
      match FirstAsked(calls[..|calls| - 1], s)
      case Some(what) => Some(what)
      case None => if last.sock == s && last.what != POLL_REMOVE then Some(last.what) else None
  }

  // The object behind the pointer that the program gives to curl_multi_assign.
  datatype Info = Info(sockfd: nat, easy: nat, action: nat)

  class SockInfo {
    var sockfd: nat
    var easy: nat
    var action: nat

    constructor ()
      ensures sockfd == 0 && easy == 0 && action == 0
    {
      sockfd, easy, action := 0, 0, 0;
    }

    function View(): Info
      reads this
    {
      Info(sockfd, easy, action)
    }
  }

  // Distinct sockets have distinct objects.
  ghost predicate Separate(pointers: map<nat, SockInfo>) {
    forall s, t :: s in pointers && t in pointers && s != t ==> pointers[s] != pointers[t]
  }

  ghost function Views(pointers: map<nat, SockInfo>): map<nat, Info>
    reads pointers.Values
  {
    map s | s in pointers :: pointers[s].View()
  }

  // What the program keeps per socket: the descriptor, and the last handle and action, while it
  // is live.
  ghost predicate InfosFollow(infos: map<nat, Info>, calls: seq<Call>) {
    forall s: nat {:trigger s in infos} {:trigger LastAsked(calls, s)} ::
      && (s in infos <==> LastAsked(calls, s).Some?)
      && (s in infos ==> infos[s].sockfd == s && Some(infos[s].action) == LastAsked(calls, s)
                         && infos[s].easy == LastEasy(calls, s))
  }

  lemma LastAfter(calls: seq<Call>, call: Call)
    ensures forall s {:trigger LastAsked(calls + [call], s)} ::
              LastAsked(calls + [call], s)
              == if call.sock != s then LastAsked(calls, s)
                 else if call.what == POLL_REMOVE then None else Some(call.what)
    ensures forall s {:trigger LastEasy(calls + [call], s)} ::
              LastEasy(calls + [call], s) == if call.sock != s then LastEasy(calls, s) else call.easy
  {
    assert (calls + [call])[..|calls|] == calls;
  }

  // One more callback, as both platforms keep the objects.
  lemma InfosAfter(infos: map<nat, Info>, calls: seq<Call>, call: Call, later: map<nat, Info>)
    requires InfosFollow(infos, calls)
    requires later == if call.what == POLL_REMOVE then infos - {call.sock}
                      else infos[call.sock := Info(call.sock, call.easy, call.what)]
    ensures InfosFollow(later, calls + [call])
  {
    LastAfter(calls, call);
  }
}
