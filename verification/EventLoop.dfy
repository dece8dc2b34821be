/** MultiCurlManager as an interleaved step system: any number of client threads inside
    HandleRequest, the background thread inside HandleEvent, libcurl's multi handle, and the
    kernel's eventfd and timerfd. One action is one step that other threads can observe. */
module EventLoop {
  import opened Wrappers
  import opened RequestInfo
  import opened TimerFd

  // A CurlRequest object, numbered in order of construction.
  type Req = nat

  // An easy handle, which any client thread may use.
  datatype Easy = Easy(id: nat)

  // What the network made of one transfer.
  datatype Outcome = Outcome(result: nat, code: nat)

  // easy, info and promise are the object's own; the rest records its history:
  // the url asked for, all that libcurl received for it, and what its client got.
  datatype Request = Request(easy: Easy, client: nat, info: Info, promise: Option<Response>,
                             url: string, wire: seq<Chunk>, outcome: Option<Outcome>,
                             received: Option<Response>)

  // Where a client thread is: between requests, after constructing one, after queueing it
  // (the eventfd write is next), or blocked on the future.
  datatype ClientPc = Idle | Built(r: Req) | Pushed(r: Req) | Blocked(r: Req) | WriteFailed(r: Req)

  datatype Event = TimerReady | QueueReady | SocketReady(fd: int)

  datatype Msg = Done(easy: Easy, result: nat) | OtherMsg

  // Who called curl_multi_socket_action and then CheckMulti.
  datatype Caller = FromTimer | FromSocket

  // An ALWAYS_ASSERT that fired, a null PRIVATE pointer, or a promise set twice.
  datatype Failure = TimerRead | EventRead | AlreadyOngoing | NotOngoing | NullPrivate | PromiseTwice

  // Where the background thread is; each name says what has just happened.
  datatype BgPc =
    | Waiting                                          // in epoll_wait
    | Dispatch                                         // at the loop over the batch
    | Draining                                         // at the top of ProcessPendingRequests' loop
    | InHand(r: Req)                                   // popped
    | Inserted(r: Req)                                 // entered into ongoing_requests
    | Adding(r: Req)                                   // PRIVATE set
    | Action(k: Caller)                                // inside curl_multi_socket_action
    | Checking(k: Caller)                              // at the top of CheckMulti's loop
    | GotMsg(k: Caller, easy: Easy, result: nat)       // a DONE message read
    | Filled(k: Caller, easy: Easy, r: Req, resp: Response) // response built
    | Settled(k: Caller, easy: Easy, r: Req)           // promise set
    | Removed(k: Caller, easy: Easy, r: Req)           // handle out of the multi
    | Clearing                                         // EventCallback after CheckMulti
    | Failed(why: Failure)

  datatype State = State(
    // MultiCurlManager and GlobalInfo
    pending: seq<Req>, ongoing: map<Easy, Req>, stillRunning: int,
    reqs: seq<Request>,
    // libcurl: handles in the multi, those not done, unread messages, per-handle settings,
    // and the request each handle was added for
    multi: set<Easy>, running: set<Easy>, msgs: seq<Msg>,
    priv: map<Easy, Req>, target: map<Easy, Req>, httpCode: map<Easy, nat>, job: map<Easy, Req>,
    // kernel
    counter: nat, timer: Timer,
    // threads; rest is the part of the current epoll batch not yet dispatched
    clients: seq<ClientPc>, bg: BgPc, rest: seq<Event>,
    // history: pushes in lock order, adds, erased requests, eventfd writes of each client since
    // the last read, and what happened to the timer since the last epoll_wait and the last request
    pushed: seq<Req>, added: seq<Req>, retired: seq<Req>, writes: seq<nat>,
    rearmed: bool, expired: bool, asked: Option<int>, cleared: bool)

  datatype Action =
    // a client thread
    | Build(c: nat, easy: Easy, url: string) | Push(c: nat) | Write(c: nat) | Return(c: nat)
    // time
    | Tick
    // the background thread
    | Wait(batch: seq<Event>) | Next | Pop | Insert | SetPrivate | AddHandle
    | Leave | ReadMsg | Fill | SetValue | RemoveHandle | Erase | Clear
    // libcurl, inside a call from the background thread
    | TimerRequest(timeoutMs: int) | Deliver(easy: Easy, chunk: Chunk)
    | Finish(easy: Easy, result: nat, code: nat) | EnqueueOther

  const EVENTFD_MAX: nat := 0xFFFF_FFFF_FFFF_FFFE
  const MAX_EVENTS := 32

  function Init(n: nat): State {
    State([], map[], 0, [], {}, {}, [], map[], map[], map[], map[],
          0, SetTime(FIRST), seq(n, i => Idle), Waiting, [],
          [], [], [], seq(n, i => 0), false, false, None, false)
  }

  // Distinct descriptors, each ready when epoll_wait returns.
  predicate IsBatch(s: State, batch: seq<Event>) {
    && 1 <= |batch| <= MAX_EVENTS
    && (forall i, j :: 0 <= i < j < |batch| ==> batch[i] != batch[j])
    && (QueueReady in batch ==> s.counter > 0)
    && (TimerReady in batch ==> s.timer.ticks > 0)
  }

  predicate Enabled(s: State, a: Action) {
    !s.bg.Failed? &&
    match a
    case Build(c, easy, url) => c < |s.clients| && s.clients[c].Idle?
    case Push(c) => c < |s.clients| && s.clients[c].Built?
    case Write(c) => c < |s.clients| && c < |s.writes| && s.clients[c].Pushed?
    case Return(c) =>
      && c < |s.clients| && s.clients[c].Blocked? && s.clients[c].r < |s.reqs|
      && s.reqs[s.clients[c].r].promise.Some?
    case Tick => s.timer.pending
    case Wait(batch) => s.bg.Waiting? && IsBatch(s, batch)
    case Next => s.bg.Dispatch?
    case Pop => s.bg.Draining?
    case Insert => s.bg.InHand? && s.bg.r < |s.reqs|
    case SetPrivate => s.bg.Inserted? && s.bg.r < |s.reqs|
    case AddHandle => s.bg.Adding? && s.bg.r < |s.reqs|
    case Leave => s.bg.Action?
    case ReadMsg => s.bg.Checking?
    case Fill =>
      && s.bg.GotMsg? && s.bg.easy in s.httpCode
      && (s.bg.easy in s.priv ==> s.priv[s.bg.easy] < |s.reqs|)
    case SetValue => s.bg.Filled? && s.bg.r < |s.reqs|
    case RemoveHandle => s.bg.Settled?
    case Erase => s.bg.Removed?
    case Clear => s.bg.Clearing?
    case TimerRequest(ms) => s.bg.Action? || s.bg.Adding? || s.bg.Settled?
    case Deliver(easy, chunk) =>
      && s.bg.Action? && easy in s.running && easy in s.target && easy in s.job
      && s.target[easy] < |s.reqs| && s.job[easy] < |s.reqs|
      && Absorb(s.reqs[s.target[easy]].info, chunk).Ok?
    case Finish(easy, result, code) =>
      s.bg.Action? && easy in s.running && easy in s.job && s.job[easy] < |s.reqs|
    case EnqueueOther => s.bg.Action?
  }

  predicate AllAnswered(reqs: seq<Request>, easy: Easy) {
    forall r :: 0 <= r < |reqs| && reqs[r].easy == easy ==> reqs[r].promise.Some?
  }

  // The one assumption about callers: no request is made on a handle while another on it, of
  // whatever thread, is unanswered.
  predicate Disciplined(s: State, a: Action) {
    a.Build? ==> AllAnswered(s.reqs, a.easy)
  }

  // The steps that change some request object, and the steps of client threads.
  predicate ChangesRequests(a: Action) {
    a.Build? || a.Return? || a.Fill? || a.SetValue? || a.Deliver? || a.Finish?
  }

  predicate IsClientAction(a: Action) {
    a.Build? || a.Push? || a.Write? || a.Return?
  }

  function Apply(s: State, a: Action): (t: State)
    requires Enabled(s, a)
    ensures !ChangesRequests(a) ==> t.reqs == s.reqs
    ensures !IsClientAction(a) ==> t.clients == s.clients
    ensures !a.Push? && !a.Pop? ==> t.pending == s.pending
    ensures !a.Write? && !a.Next? ==> t.counter == s.counter
  {
    match a
    case Build(c, easy, url) => DoBuild(s, c, easy, url)
    case Push(c) => DoPush(s, c)
    case Write(c) => DoWrite(s, c)
    case Return(c) => DoReturn(s, c)
    case Tick => s.(timer := Expire(s.timer), expired := true)
    case Wait(batch) => s.(bg := Dispatch, rest := batch, rearmed := false, expired := false)
    case Next => DoNext(s)
    case Pop => DoPop(s)
    case Insert => DoInsert(s)
    case SetPrivate => s.(bg := Adding(s.bg.r), priv := s.priv[s.reqs[s.bg.r].easy := s.bg.r])
    case AddHandle => DoAddHandle(s)
    case Leave => s.(bg := Checking(s.bg.k), stillRunning := |s.running|)
    case ReadMsg => DoReadMsg(s)
    case Fill => DoFill(s)
    case SetValue => DoSetValue(s)
    case RemoveHandle =>
      s.(bg := Removed(s.bg.k, s.bg.easy, s.bg.r),
         multi := s.multi - {s.bg.easy}, running := s.running - {s.bg.easy})
    case Erase => DoErase(s)
    case Clear => DoClear(s)
    case TimerRequest(ms) =>
      s.(timer := SetTime(Spec(ms)), rearmed := true, expired := false, asked := Some(ms), cleared := false)
    case Deliver(easy, chunk) => DoDeliver(s, easy, chunk)
    case Finish(easy, result, code) => DoFinish(s, easy, result, code)
    case EnqueueOther => s.(msgs := s.msgs + [OtherMsg])
  }

  // The CurlRequest constructor points the handle's PRIVATE and callback data at the new object.
  function DoBuild(s: State, c: nat, easy: Easy, url: string): State
    requires c < |s.clients|
  {
    var r := |s.reqs|;
    s.(reqs := s.reqs + [Request(easy, c, NewInfo(url), None, url, [], None, None)],
       priv := s.priv[easy := r], target := s.target[easy := r], clients := s.clients[c := Built(r)])
  }

  function DoPush(s: State, c: nat): State
    requires c < |s.clients| && s.clients[c].Built?
  {
    var r := s.clients[c].r;
    s.(pending := s.pending + [r], pushed := s.pushed + [r], clients := s.clients[c := Pushed(r)])
  }

  // The write on the non-blocking eventfd fails when the counter would exceed its maximum.
  function DoWrite(s: State, c: nat): (t: State)
    requires c < |s.clients| && c < |s.writes| && s.clients[c].Pushed?
    ensures t.reqs == s.reqs && t.pending == s.pending
    ensures var r := s.clients[c].r;
            t.clients == s.clients[c := Blocked(r)] || t.clients == s.clients[c := WriteFailed(r)]
  {
    var r := s.clients[c].r;
    if s.counter + 1 > EVENTFD_MAX then s.(clients := s.clients[c := WriteFailed(r)])
    else s.(counter := s.counter + 1, writes := s.writes[c := s.writes[c] + 1],
            clients := s.clients[c := Blocked(r)])
  }

  function DoReturn(s: State, c: nat): State
    requires c < |s.clients| && s.clients[c].Blocked? && s.clients[c].r < |s.reqs|
  {
    var r := s.clients[c].r;
    s.(reqs := s.reqs[r := s.reqs[r].(received := s.reqs[r].promise)], clients := s.clients[c := Idle])
  }

  function DoNext(s: State): (t: State)
    ensures t.reqs == s.reqs && t.clients == s.clients && t.pending == s.pending
    ensures t.bg.Waiting? || t.bg.Failed? || t.bg.Draining? || t.bg.Action?
    ensures t.counter == if t.bg.Draining? then 0 else s.counter
    ensures t.bg.Draining? ==> s.counter > 0
  {
    if s.rest == [] then s.(bg := Waiting)
    else
      var t := s.(rest := s.rest[1..]);
      match s.rest[0]
      case TimerReady =>
        if s.timer.ticks == 0 then t.(bg := Failed(TimerRead))
        else t.(bg := Action(FromTimer), timer := s.timer.(ticks := 0))
      case QueueReady =>
        if s.counter == 0 then t.(bg := Failed(EventRead))
        else t.(bg := Draining, counter := 0, writes := seq(|s.writes|, i => 0))
      case SocketReady(fd) => t.(bg := Action(FromSocket))
  }

  function DoPop(s: State): (t: State)
    ensures t.reqs == s.reqs && t.clients == s.clients
    ensures t.counter == s.counter
  {
    if s.pending == [] then s.(bg := Dispatch)
    else s.(bg := InHand(s.pending[0]), pending := s.pending[1..])
  }

  function DoInsert(s: State): (t: State)
    requires s.bg.InHand? && s.bg.r < |s.reqs|
    ensures t.reqs == s.reqs && t.clients == s.clients && t.pending == s.pending
    ensures t.counter == s.counter
  {
    var easy := s.reqs[s.bg.r].easy;
    if easy in s.ongoing then s.(bg := Failed(AlreadyOngoing))
    else s.(bg := Inserted(s.bg.r), ongoing := s.ongoing[easy := s.bg.r])
  }

  // curl_multi_add_handle refuses a handle that is already in, and the code ignores that.
  function DoAddHandle(s: State): (t: State)
    requires s.bg.Adding? && s.bg.r < |s.reqs|
    ensures t.bg == Draining && t.pushed == s.pushed && t.rest == s.rest && t.ongoing == s.ongoing
    ensures t.reqs == s.reqs && t.clients == s.clients && t.pending == s.pending
    ensures t.counter == s.counter
  {
    var easy := s.reqs[s.bg.r].easy;
    if easy in s.multi then s.(bg := Draining)
    else s.(bg := Draining, multi := s.multi + {easy}, running := s.running + {easy},
            job := s.job[easy := s.bg.r], added := s.added + [s.bg.r])
  }

  // curl_multi_info_read: where CheckMulti goes on, and the messages left.
  function AfterRead(k: Caller, msgs: seq<Msg>): (BgPc, seq<Msg>) {
    if msgs == [] then (if k.FromSocket? then Clearing else Dispatch, msgs)
    else if msgs[0].OtherMsg? then (Checking(k), msgs[1..])
    else (GotMsg(k, msgs[0].easy, msgs[0].result), msgs[1..])
  }

  function DoReadMsg(s: State): (t: State)
    requires s.bg.Checking?
    ensures t.reqs == s.reqs && t.clients == s.clients && t.pending == s.pending
    ensures t.counter == s.counter && (t.bg.Dispatch? || t.bg.Clearing? || t.bg.Checking? || t.bg.GotMsg?)
  {
    var (bg, msgs) := AfterRead(s.bg.k, s.msgs);
    s.(bg := bg, msgs := msgs)
  }

  // What never changes in a request object.
  predicate SameRequest(q: Request, later: Request) {
    later.easy == q.easy && later.client == q.client && later.url == q.url
  }

  ghost predicate SamePromises(reqs: seq<Request>, later: seq<Request>) {
    && |later| == |reqs|
    && forall r :: 0 <= r < |reqs| ==> later[r].promise == reqs[r].promise && SameRequest(reqs[r], later[r])
  }

  // A successful response takes the body out of the object.
  function MovedOut(info: Info, result: nat): Info {
    if result == CURLE_OK then info.(body := "") else info
  }

  // The request is found through PRIVATE; its code is stored in 16 bits.
  function DoFill(s: State): (t: State)
    requires s.bg.GotMsg? && s.bg.easy in s.httpCode
    requires s.bg.easy in s.priv ==> s.priv[s.bg.easy] < |s.reqs|
    ensures SamePromises(s.reqs, t.reqs)
    ensures t.clients == s.clients && t.pending == s.pending
    ensures t.counter == s.counter && (t.bg.Failed? || t.bg.Filled?)
  {
    if s.bg.easy !in s.priv then s.(bg := Failed(NullPrivate))
    else
      var r := s.priv[s.bg.easy];
      var info := s.reqs[r].info.(code := s.httpCode[s.bg.easy] % 0x1_0000);
      s.(bg := Filled(s.bg.k, s.bg.easy, r, ManagedResponse(info, s.bg.result)),
         reqs := s.reqs[r := s.reqs[r].(info := MovedOut(info, s.bg.result))])
  }

  function DoSetValue(s: State): (t: State)
    requires s.bg.Filled? && s.bg.r < |s.reqs|
    ensures t.reqs == s.reqs || (s.reqs[s.bg.r].promise.None?
              && t.reqs == s.reqs[s.bg.r := s.reqs[s.bg.r].(promise := Some(s.bg.resp))])
    ensures t.clients == s.clients && t.pending == s.pending
    ensures t.counter == s.counter && (t.bg.Failed? || t.bg.Settled?)
  {
    var r := s.bg.r;
    if s.reqs[r].promise.Some? then s.(bg := Failed(PromiseTwice))
    else s.(bg := Settled(s.bg.k, s.bg.easy, r),
            reqs := s.reqs[r := s.reqs[r].(promise := Some(s.bg.resp))])
  }

  function DoErase(s: State): (t: State)
    requires s.bg.Removed?
    ensures t.reqs == s.reqs && t.clients == s.clients && t.pending == s.pending
    ensures t.counter == s.counter && (t.bg.Failed? || t.bg.Checking?)
  {
    if s.bg.easy !in s.ongoing then s.(bg := Failed(NotOngoing))
    else s.(bg := Checking(s.bg.k), ongoing := s.ongoing - {s.bg.easy},
            retired := s.retired + [s.ongoing[s.bg.easy]])
  }

  function DoClear(s: State): (t: State)
    ensures t.reqs == s.reqs && t.clients == s.clients && t.pending == s.pending
    ensures t.counter == s.counter && t.bg.Dispatch?
  {
    if s.stillRunning <= 0
    then s.(bg := Dispatch, timer := SetTime(DISARMED), rearmed := true, expired := false, cleared := true)
    else s.(bg := Dispatch)
  }

  function DoFinish(s: State, easy: Easy, result: nat, code: nat): State
    requires easy in s.job && s.job[easy] < |s.reqs|
  {
    var r := s.job[easy];
    s.(running := s.running - {easy}, msgs := s.msgs + [Done(easy, result)],
       httpCode := s.httpCode[easy := code],
       reqs := s.reqs[r := s.reqs[r].(outcome := Some(Outcome(result, code)))])
  }

  // Data for a handle goes to the object its callback data points at; the record of what the
  // transfer received belongs to the request the handle was added for.
  function DoDeliver(s: State, easy: Easy, chunk: Chunk): State
    requires easy in s.target && easy in s.job && s.target[easy] < |s.reqs| && s.job[easy] < |s.reqs|
    requires Absorb(s.reqs[s.target[easy]].info, chunk).Ok?
  {
    var t, j := s.target[easy], s.job[easy];
    var reqs := s.reqs[t := s.reqs[t].(info := Absorb(s.reqs[t].info, chunk).value)];
    s.(reqs := reqs[j := reqs[j].(wire := reqs[j].wire + [chunk])])
  }

  // All actions enabled in turn.
  function Exec(s: State, acts: seq<Action>): Option<State> {
    if acts == [] then Some(s)
    else
      match Exec(s, acts[..|acts| - 1])
      case Some(t) => if Enabled(t, acts[|acts| - 1]) then Some(Apply(t, acts[|acts| - 1])) else None
      case None => None
  }

  // A run from the initial state with n client threads.
  predicate Runs(n: nat, acts: seq<Action>, s: State) {
    Exec(Init(n), acts) == Some(s)
  }

  predicate DisciplinedAt(s: State, acts: seq<Action>, k: nat)
    requires k < |acts|
  {
    match Exec(s, acts[..k])
    case Some(t) => Disciplined(t, acts[k])
    case None => true
  }

  // Each action of the run is disciplined where it is taken.
  predicate AllDisciplined(s: State, acts: seq<Action>) {
    forall k :: 0 <= k < |acts| ==> DisciplinedAt(s, acts, k)
  }

  // All actions but the last, and the last.
  lemma DisciplinedSplit(s: State, acts: seq<Action>)
    requires acts != []
    ensures var last := |acts| - 1;
            AllDisciplined(s, acts) <==> AllDisciplined(s, acts[..last]) && DisciplinedAt(s, acts, last)
  {
    var last := |acts| - 1;
    forall k: nat | k < last ensures DisciplinedAt(s, acts[..last], k) <==> DisciplinedAt(s, acts, k) {
      assert acts[..last][..k] == acts[..k];
    }
  }

  lemma ExecStep(s: State, acts: seq<Action>, a: Action)
    ensures Exec(s, acts + [a])
            == match Exec(s, acts)
               case Some(t) => if Enabled(t, a) then Some(Apply(t, a)) else None
               case None => None
    ensures AllDisciplined(s, acts + [a])
            <==> && AllDisciplined(s, acts)
                 && (match Exec(s, acts)
                     case Some(t) => Disciplined(t, a)
                     case None => true)
  {
    assert (acts + [a])[..|acts|] == acts;
    DisciplinedSplit(s, acts + [a]);
  }

  lemma {:induction false} ExecConcat(s: State, first: seq<Action>, second: seq<Action>)
    ensures Exec(s, first + second)
            == match Exec(s, first) case Some(t) => Exec(t, second) case None => None
  {
    if second == [] {
      assert first + second == first;
    } else {
      var init, last := second[..|second| - 1], second[|second| - 1];
      assert first + second == (first + init) + [last] && second == init + [last];
      ExecConcat(s, first, init);
      ExecStep(s, first + init, last);
    }
  }
}
