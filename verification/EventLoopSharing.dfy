/** Two requests on one easy handle: exactly when the "not already ongoing" assertion can be
    brought to fail. */
module EventLoopSharing {
  import opened Wrappers
  import opened EventLoop
  import opened EventLoopInvariant
  import opened EventLoopSteps
  import opened EventLoopTheorems
  import opened EventLoopRuns

  predicate IsQueued(reqs: seq<Request>, pending: seq<Req>, easy: Easy, i: nat) {
    i < |pending| && pending[i] < |reqs| && reqs[pending[i]].easy == easy
  }

  // One request of the handle is queued behind another of it, or while another is ongoing.
  ghost predicate Clash(ongoing: map<Easy, Req>, reqs: seq<Request>, pending: seq<Req>, easy: Easy) {
    exists i: nat, j: nat :: i <= j && IsQueued(reqs, pending, easy, i) && IsQueued(reqs, pending, easy, j)
                        && (i < j || easy in ongoing)
  }

  // Popping a request that can be entered leaves the clash in the rest of the queue.
  lemma ClashStays(ongoing: map<Easy, Req>, reqs: seq<Request>, pending: seq<Req>, easy: Easy)
    requires Clash(ongoing, reqs, pending, easy) && Below(pending, |reqs|)
    ensures pending != []
    ensures reqs[pending[0]].easy !in ongoing ==>
              Clash(ongoing[reqs[pending[0]].easy := pending[0]], reqs, pending[1..], easy)
  {
    var i: nat, j: nat :| i <= j && IsQueued(reqs, pending, easy, i) && IsQueued(reqs, pending, easy, j)
                     && (i < j || easy in ongoing);
    if reqs[pending[0]].easy !in ongoing {
      assert j > 0 && IsQueued(reqs, pending[1..], easy, j - 1);
      if i > 0 { assert IsQueued(reqs, pending[1..], easy, i - 1); }
    }
  }

  lemma PopFront(o: State, s: State) returns (t: State)
    requires Leads(o, s) && s.bg == Draining && s.pending != []
    ensures Leads(o, t) && t.bg == InHand(s.pending[0]) && t.reqs == s.reqs && t.ongoing == s.ongoing
    ensures t.pending == s.pending[1..]
  {
    hide Leads;
    StepLeads(o, s, Pop);
    t := DoPop(s);
  }

  lemma InsertFresh(o: State, s: State) returns (t: State)
    requires Leads(o, s) && s.bg.InHand? && s.bg.r < |s.reqs| && s.reqs[s.bg.r].easy !in s.ongoing
    ensures Leads(o, t) && t.bg == Inserted(s.bg.r) && t.reqs == s.reqs && t.pending == s.pending
    ensures t.ongoing == s.ongoing[s.reqs[s.bg.r].easy := s.bg.r]
  {
    hide Leads;
    StepLeads(o, s, Insert);
    t := DoInsert(s);
  }

  lemma InsertFails(o: State, s: State) returns (t: State)
    requires Leads(o, s) && s.bg.InHand? && s.bg.r < |s.reqs| && s.reqs[s.bg.r].easy in s.ongoing
    ensures Leads(o, t) && t.bg == Failed(AlreadyOngoing) && t.reqs == s.reqs
  {
    hide Leads;
    StepLeads(o, s, Insert);
    t := DoInsert(s);
  }

  // The drain enters the front request and adds its handle, or fails on it.
  lemma ServeOrFail(o: State, s: State) returns (t: State)
    requires Leads(o, s) && s.bg == Draining && s.pending != [] && s.pending[0] < |s.reqs|
    ensures Leads(o, t) && t.reqs == s.reqs
    ensures s.reqs[s.pending[0]].easy in s.ongoing ==> t.bg == Failed(AlreadyOngoing)
    ensures s.reqs[s.pending[0]].easy !in s.ongoing ==>
              && t.bg == Draining && t.pending == s.pending[1..]
              && t.ongoing == s.ongoing[s.reqs[s.pending[0]].easy := s.pending[0]]
  {
    hide Leads;
    var m := PopFront(o, s);
    if s.reqs[s.pending[0]].easy in s.ongoing {
      t := InsertFails(o, m);
    } else {
      m := InsertFresh(o, m);
      t := AddAnyway(o, m);
    }
  }

  lemma AddAnyway(o: State, s: State) returns (t: State)
    requires Leads(o, s) && s.bg.Inserted? && s.bg.r < |s.reqs|
    ensures Leads(o, t) && t.bg == Draining && t.reqs == s.reqs && t.pending == s.pending && t.ongoing == s.ongoing
  {
    hide Leads;
    StepLeads(o, s, SetPrivate);
    var m := Apply(s, SetPrivate);
    StepLeads(o, m, AddHandle);
    t := DoAddHandle(m);
  }

  lemma {:induction false} DrainFails(o: State, s: State, easy: Easy) returns (t: State)
    requires Leads(o, s) && s.bg == Draining && Below(s.pending, |s.reqs|)
    requires Clash(s.ongoing, s.reqs, s.pending, easy)
    ensures Leads(o, t) && t.bg == Failed(AlreadyOngoing)
    decreases |s.pending|
  {
    ClashStays(s.ongoing, s.reqs, s.pending, easy);
    hide Leads, Clash;
    t := ServeOrFail(o, s);
    if s.reqs[s.pending[0]].easy !in s.ongoing {
      t := DrainFails(o, t, easy);
    }
  }

  // A client about to write has room for it, whatever else goes on.
  lemma RoomForOne(s: State, n: nat, c: nat)
    requires Inv(s, n) && c < n && c < |s.clients| && s.clients[c].Idle?
    ensures s.counter + 1 <= 3 * n && |s.clients| == |s.writes| == n
  {
    Sizes(s, n);
    WritesAtMostThree(s, n);
    assert s.writes[c] <= Allowance(s.clients[c], InDrain(s.bg), s.pending, s.reqs) <= 2;
    SumWithRoom(s.writes, c);
  }

  // An unanswered request is ongoing, or queued, or its client has still to queue it.
  lemma WhereOpen(s: State, n: nat, r: Req)
    requires Inv(s, n) && s.bg.Waiting? && r < |s.reqs| && s.reqs[r].promise.None?
    ensures s.reqs[r].client < |s.clients| && Below(s.pending, |s.reqs|)
    ensures s.reqs[r].easy in s.ongoing || r in s.pending || s.clients[s.reqs[r].client] == Built(r)
  {
    NoDupParts(s.pushed, s.added, Hand(s.bg), s.pending);
    assert forall i :: 0 <= i < |s.pending| ==> s.pending[i] in s.pushed;
    if r in s.added {
      assert IsOngoing(s.ongoing, s.reqs, r);
    }
  }

  lemma PushNow(o: State, s: State, c: nat) returns (t: State)
    requires Leads(o, s) && s.bg.Waiting? && c < |s.clients| && s.clients[c].Built?
    ensures Leads(o, t) && t.bg == Waiting && t.reqs == s.reqs && t.counter == s.counter && t.writes == s.writes
    ensures t.pending == s.pending + [s.clients[c].r] && t.ongoing == s.ongoing
    ensures t.clients == s.clients[c := Pushed(s.clients[c].r)]
  {
    hide Leads;
    StepLeads(o, s, Push(c));
    t := DoPush(s, c);
  }

  lemma ClashMade(ongoing: map<Easy, Req>, reqs: seq<Request>, pending: seq<Req>, r: Req, q: Req)
    requires r < |reqs| && q < |reqs| && reqs[r].easy == reqs[q].easy && Below(pending, |reqs|)
    requires reqs[r].easy in ongoing || r in pending
    ensures Clash(ongoing, reqs, pending + [q], reqs[r].easy) && Below(pending + [q], |reqs|)
  {
    var easy, last := reqs[r].easy, |pending|;
    assert IsQueued(reqs, pending + [q], easy, last);
    if r in pending {
      var i :| 0 <= i < |pending| && pending[i] == r;
      assert (pending + [q])[i] == r && IsQueued(reqs, pending + [q], easy, i);
    }
  }

  // If the other request is not on its way yet, its client queues it.
  lemma QueueOther(o: State, c: nat, r: Req) returns (t: State)
    requires o.bg.Waiting? && c < |o.clients| && r < |o.reqs|
    requires o.reqs[r].client < |o.clients| && o.reqs[r].client != c && Below(o.pending, |o.reqs|)
    requires o.reqs[r].easy in o.ongoing || r in o.pending || o.clients[o.reqs[r].client] == Built(r)
    ensures Leads(o, t) && t.bg == Waiting && t.reqs == o.reqs && t.counter == o.counter && t.writes == o.writes
    ensures |t.clients| == |o.clients| && t.clients[c] == o.clients[c] && Below(t.pending, |t.reqs|)
    ensures o.reqs[r].easy in t.ongoing || r in t.pending
  {
    assert Leads(o, o) by { assert Exec(o, []) == Some(o) && AllDisciplined(o, []); }
    hide Leads;
    t := o;
    if o.clients[o.reqs[r].client] == Built(r) {
      t := PushNow(o, o, o.reqs[r].client);
      assert t.pending[|o.pending|] == r;
    }
  }

  // After the new request is built, the other and then the new one are queued.
  lemma QueueBoth(o: State, c: nat, r: Req) returns (t: State)
    requires o.bg.Waiting? && c < |o.clients| && r < |o.reqs| && o.clients[c].Built? && o.clients[c].r == |o.reqs| - 1
    requires o.reqs[r].client < |o.clients| && o.reqs[r].client != c
    requires o.reqs[r].easy == o.reqs[|o.reqs| - 1].easy && Below(o.pending, |o.reqs|)
    requires o.reqs[r].easy in o.ongoing || r in o.pending || o.clients[o.reqs[r].client] == Built(r)
    ensures Leads(o, t) && t.bg == Waiting && t.reqs == o.reqs && t.counter == o.counter && t.writes == o.writes
    ensures Below(t.pending, |t.reqs|) && Clash(t.ongoing, t.reqs, t.pending, o.reqs[r].easy)
    ensures |t.clients| == |o.clients| && t.clients[c].Pushed?
  {
    hide Leads, Clash, Below;
    var m := QueueOther(o, c, r);
    t := PushNow(o, m, c);
    ClashMade(m.ongoing, m.reqs, m.pending, r, |o.reqs| - 1);
  }

  // The write that wakes the loop.
  lemma WakeBy(o: State, s: State, c: nat) returns (t: State)
    requires Leads(o, s) && s.bg == Waiting && c < |s.clients| && c < |s.writes| && s.clients[c].Pushed?
    requires s.counter < EVENTFD_MAX
    ensures Leads(o, t) && t.bg == Draining && t.reqs == s.reqs && t.pending == s.pending && t.ongoing == s.ongoing
  {
    hide Leads;
    WriteFits(s, c);
    StepLeads(o, s, Write(c));
    var m := Apply(s, Write(c));
    StepLeads(o, m, Wait([QueueReady]));
    var m' := Apply(m, Wait([QueueReady]));
    StepLeads(o, m', Next);
    t := DoNext(m');
  }

  // From here some disciplined continuation fails the assertion.
  ghost predicate CanFail(s: State) {
    exists t :: Leads(s, t) && t.bg == Failed(AlreadyOngoing)
  }

  lemma SharedFails(s: State, n: nat, c: nat, easy: Easy, url: string, r: Req)
    requires Inv(s, n) && s.bg.Waiting? && 3 * n <= EVENTFD_MAX
    requires c < |s.clients| && s.clients[c].Idle?
    requires r < |s.reqs| && s.reqs[r].easy == easy && s.reqs[r].promise.None?
    ensures CanFail(DoBuild(s, c, easy, url))
  {
    Sizes(s, n);
    RoomForOne(s, n, c);
    WhereOpen(s, n, r);
    OpenClient(s, n, r);
    hide Inv, Leads;
    var o := DoBuild(s, c, easy, url);
    var t := QueueBoth(o, c, r);
    t := WakeBy(o, t, c);
    t := DrainFails(o, t, easy);
  }

  // The client of an unanswered request is not idle.
  lemma OpenClient(s: State, n: nat, r: Req)
    requires Inv(s, n) && r < |s.reqs| && s.reqs[r].promise.None?
    ensures s.reqs[r].client < |s.clients| && !s.clients[s.reqs[r].client].Idle?
  {
    assert s.reqs[r].received.None?;
  }

  lemma AnsweredSafe(n: nat, s: State, c: nat, easy: Easy, url: string)
    requires Reachable(n, s) && Enabled(s, Build(c, easy, url)) && AllAnswered(s.reqs, easy)
    ensures !CanFail(DoBuild(s, c, easy, url))
  {
    hide Inv;
    StepLeads(Init(n), s, Build(c, easy, url));
    var u := DoBuild(s, c, easy, url);
    InitFollows(n);
    FollowsInv(Init(n), n, u);
    forall t | Leads(u, t) ensures t.bg != Failed(AlreadyOngoing) {
      StartFollows(u, n);
      FollowsInv(u, n, t);
      SoundState(t, n);
    }
  }

  lemma SoundState(s: State, n: nat)
    requires Inv(s, n)
    ensures s.bg != Failed(AlreadyOngoing)
  {
  }

  /** Exactly when a handle may be shared: while the loop is in epoll_wait, a new request on a
      handle can bring the "not already ongoing" assertion to fail, on some continuation in
      which every later request keeps to the rule, if and only if another request on that
      handle, of whatever thread, is still unanswered. */
  lemma SharingExactly(n: nat, s: State, c: nat, easy: Easy, url: string)
    requires Reachable(n, s) && s.bg.Waiting? && 3 * n <= EVENTFD_MAX
    requires c < |s.clients| && s.clients[c].Idle?
    ensures CanFail(DoBuild(s, c, easy, url)) <==> !AllAnswered(s.reqs, easy)
  {
    hide Inv, Leads, CanFail;
    if AllAnswered(s.reqs, easy) {
      AnsweredSafe(n, s, c, easy, url);
    } else {
      var r :| 0 <= r < |s.reqs| && s.reqs[r].easy == easy && s.reqs[r].promise.None?;
      InitFollows(n);
      FollowsInv(Init(n), n, s);
      SharedFails(s, n, c, easy, url, r);
    }
  }

  lemma RunsOn(n: nat, s: State, a: Action, t: State)
    requires Leads(Init(n), s) && Enabled(s, a) && Leads(Apply(s, a), t)
    ensures exists acts :: Runs(n, acts, t)
  {
    hide Inv, AllDisciplined, Apply, Enabled, Init, Exec;
    var first :| Exec(Init(n), first) == Some(s) && AllDisciplined(Init(n), first);
    var second :| Exec(Apply(s, a), second) == Some(t) && AllDisciplined(Apply(s, a), second);
    ExecStep(Init(n), first, a);
    ExecConcat(Init(n), first + [a], second);
    assert Runs(n, first + [a] + second, t);
  }

  /** For example two threads: the second queues a request on the handle of the first. */
  lemma SharedHandleFails()
    ensures exists acts, t :: Runs(2, acts, t) && t.bg == Failed(AlreadyOngoing)
  {
    hide Inv, Leads, Runs;
    var o, easy := Init(2), Easy(0);
    InitFollows(2);
    var s := Submit(o, 2, o, 0, easy);
    SharingExactly(2, s, 1, easy, "");
    var t :| Leads(DoBuild(s, 1, easy, ""), t) && t.bg == Failed(AlreadyOngoing);
    RunsOn(2, s, Build(1, easy, ""), t);
  }
}
