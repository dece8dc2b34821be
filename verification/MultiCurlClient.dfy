/** MultiCurlClient's direct requests: Put, Post and Delete share one RequestInfo, which
    TransformResponseCurl resets after a success only. */
module MultiCurlClient {
  import opened Strings
  import opened Wrappers
  import opened RequestInfo
  import opened HeaderRoundTrip

  // One direct request: what the caller asks for and what libcurl makes of it.
  datatype Transfer = Transfer(url: string, chunks: seq<Chunk>, result: nat, code: nat)

  // info: the shared RequestInfo afterwards; received: all of the body in it (Post's buffer_out).
  datatype Served = Served(response: Response, received: string, info: Info)

  function Serve(info: Info, op: Transfer): Result<Served, HeaderError> {
    match AbsorbAll(info.(url := op.url), op.chunks)
    case Err(e) => Err(e)
    case Ok(filled) =>
      var done := filled.(code := op.code % 0x1_0000);
      Ok(Served(DirectResponse(done, op.result), done.body, if op.result == CURLE_OK then NewInfo("") else done))
  }

  // The shared RequestInfo after a sequence of direct requests on a new client.
  function After(ops: seq<Transfer>): Result<Info, HeaderError> {
    if ops == [] then Ok(NewInfo(""))
    else
      match After(ops[..|ops| - 1])
      case Err(e) => Err(e)
      case Ok(info) =>
        match Serve(info, ops[|ops| - 1])
        case Err(e) => Err(e)
        case Ok(served) => Ok(served.info)
  }

  // All that libcurl delivered since the last success.
  function SinceSuccess(ops: seq<Transfer>): seq<Chunk> {
    if ops == [] || ops[|ops| - 1].result == CURLE_OK then []
    else SinceSuccess(ops[..|ops| - 1]) + ops[|ops| - 1].chunks
  }

  // ---------- What accumulates ----------

  predicate SameContents(a: Info, b: Info) {
    a.body == b.body && a.headers == b.headers
  }

  lemma {:induction false} AbsorbSameContents(a: Info, b: Info, chunks: seq<Chunk>)
    requires SameContents(a, b)
    ensures match AbsorbAll(a, chunks)
            case Err(e) => AbsorbAll(b, chunks) == Err(e)
            case Ok(x) => AbsorbAll(b, chunks).Ok? && SameContents(x, AbsorbAll(b, chunks).value)
    ensures AbsorbAll(a, chunks).Ok? ==>
              AbsorbAll(a, chunks).value.url == a.url && AbsorbAll(a, chunks).value.code == a.code
  {
    if chunks == [] {
    } else {
      AbsorbSameContents(a, b, chunks[..|chunks| - 1]);
    }
  }

  lemma ServeSameContents(a: Info, b: Info, op: Transfer)
    requires SameContents(a, b)
    ensures Serve(a, op) == Serve(b, op)
  {
    AbsorbSameContents(a.(url := op.url), b.(url := op.url), op.chunks);
    AbsorbSameContents(b.(url := op.url), a.(url := op.url), op.chunks);
  }

  /** The accumulator holds exactly what all transfers since the last success delivered. */
  lemma {:induction false} LeftOver(ops: seq<Transfer>)
    requires After(ops).Ok?
    ensures AbsorbAll(NewInfo(""), SinceSuccess(ops)).Ok?
    ensures SameContents(After(ops).value, AbsorbAll(NewInfo(""), SinceSuccess(ops)).value)
  {
    if ops == [] || ops[|ops| - 1].result == CURLE_OK {
    } else {
      var init, op := ops[..|ops| - 1], ops[|ops| - 1];
      LeftOver(init);
      var before := AbsorbAll(NewInfo(""), SinceSuccess(init)).value;
      AbsorbAllConcat(NewInfo(""), SinceSuccess(init), op.chunks);
      AbsorbSameContents(After(init).value.(url := op.url), before, op.chunks);
    }
  }

  // ---------- What is answered ----------

  // The answer to a request on an accumulator as it stands: the request's own code always, its
  // own url on success, and the body left over followed by its own.
  predicate IsAnswerTo(resp: Response, info: Info, op: Transfer) {
    && AbsorbAll(info, op.chunks).Ok?
    && IsDirect(resp, op.url, info.body + Received(op.chunks), AbsorbAll(info, op.chunks).value.headers,
                op.code, op.result)
  }

  lemma AfterWellFormed(ops: seq<Transfer>)
    requires After(ops).Ok?
    ensures WellFormedBlocks(After(ops).value.headers)
  {
    LeftOver(ops);
    AbsorbAllWellFormed(NewInfo(""), SinceSuccess(ops));
  }

  /** What every direct request gives, field by field, after any others on the same client; and
      Post hands out the body left over followed by the bytes of its own transfer, whatever the
      result. */
  lemma ServeExactly(ops: seq<Transfer>, op: Transfer)
    requires After(ops).Ok? && Serve(After(ops).value, op).Ok?
    ensures var served := Serve(After(ops).value, op).value;
            && IsAnswerTo(served.response, After(ops).value, op)
            && served.received == After(ops).value.body + Received(op.chunks)
  {
    var info := After(ops).value;
    AfterWellFormed(ops);
    AbsorbSameContents(info.(url := op.url), info, op.chunks);
    Accumulated(info.(url := op.url), op.chunks);
    AbsorbAllWellFormed(info.(url := op.url), op.chunks);
    hide AbsorbAll, After, Received;
  }

  /** On a client with nothing left over, for a transfer through any chain of redirects: the
      answer, and the body that Post hands out, made from the sections and pieces sent. */
  lemma DirectRoundTrip(ops: seq<Transfer>, url: string, ss: seq<Section>, pieces: seq<string>, code: nat, result: nat)
    requires After(ops).Ok? && AllQuiet(SinceSuccess(ops)) && AreSections(ss)
    ensures var served := Serve(After(ops).value, Transfer(url, PrintAll(ss) + PrintBody(pieces), result, code));
            && served.Ok? && served.value.received == Flatten(pieces)
            && served.value.response
               == if result != 0 then Response(code % 65536, "", "", Some(LastError(ss, result)), [])
                  else Response(code % 65536, url, Flatten(pieces), None, if ss == [] then [] else Block(ss[|ss| - 1]))
  {
    hide AbsorbAll, After, SinceSuccess, AllQuiet, PrintAll, PrintBody, Flatten, AreSections, Block, LastError,
         DirectResponse;
    QuietIsolates(ops, Transfer(url, PrintAll(ss) + PrintBody(pieces), result, code));
    TransferAbsorbed(url, ss, pieces);
    ResponseRoundTrip(url, ss, pieces, code % 0x1_0000, result);
  }

  // Delivers nothing that stays: no body bytes and no new header block.
  predicate Quiet(chunk: Chunk) {
    match chunk
    case BodyBytes(bytes) => bytes == ""
    case HeaderLine(text) => !IsStatusLine(text)
  }

  predicate AllQuiet(chunks: seq<Chunk>) {
    forall i :: 0 <= i < |chunks| ==> Quiet(chunks[i])
  }

  lemma {:induction false} EmptyIffQuiet(chunks: seq<Chunk>)
    requires AbsorbAll(NewInfo(""), chunks).Ok?
    ensures SameContents(AbsorbAll(NewInfo(""), chunks).value, NewInfo("")) <==> AllQuiet(chunks)
  {
    if chunks == [] {
    } else {
      var init, last := chunks[..|chunks| - 1], chunks[|chunks| - 1];
      EmptyIffQuiet(init);
      assert AllQuiet(chunks) <==> AllQuiet(init) && Quiet(last);
    }
  }

  lemma NothingAbsorbed(start: Info, chunks: seq<Chunk>)
    ensures AbsorbAll(start, chunks[..0]) == Ok(start)
  {
  }

  // Piece i, after those before it: absorbed, or the end of the transfer.
  lemma AbsorbNext(start: Info, chunks: seq<Chunk>, i: nat, info: Info)
    requires i < |chunks| && AbsorbAll(start, chunks[..i]) == Ok(info)
    ensures AbsorbAll(start, chunks[..i + 1]) == Absorb(info, chunks[i])
    ensures Absorb(info, chunks[i]).Err? ==> AbsorbAll(start, chunks).Err?
  {
    hide AbsorbAll, Absorb;
    assert chunks[..i + 1] == chunks[..i] + [chunks[i]] && chunks == chunks[..i + 1] + chunks[i + 1..];
    AbsorbAllStep(start, chunks[..i], chunks[i]);
    AbsorbAllConcat(start, chunks[..i + 1], chunks[i + 1..]);
  }

  // ---------- Isolation ----------

  // As libcurl delivers: no header line comes before a status line.
  predicate IsDelivery(chunks: seq<Chunk>) {
    forall i :: 0 <= i < |chunks| && chunks[i].HeaderLine? ==>
      exists j :: 0 <= j <= i && chunks[j].HeaderLine? && IsStatusLine(chunks[j].text)
  }

  // Every request, whatever comes of it, is answered as on a new client.
  ghost predicate Isolated(info: Info) {
    forall op: Transfer :: IsDelivery(op.chunks) ==> Serve(info, op) == Serve(NewInfo(""), op)
  }

  lemma StaleBodyShows(info: Info)
    requires info.body != ""
    ensures !Isolated(info)
  {
    var op := Transfer("", [], CURLE_OK, 200);
    assert IsDelivery(op.chunks);
    assert Serve(info, op).value.response.body != Serve(NewInfo(""), op).value.response.body;
  }

  lemma AbsorbOne(info: Info, chunk: Chunk)
    ensures AbsorbAll(info, [chunk]) == Absorb(info, chunk)
  {
    AbsorbAllStep(info, [], chunk);
    assert [] + [chunk] == [chunk];
  }

  // A request that cannot even connect reports the status line of an earlier one.
  lemma StaleHeadersShow(info: Info)
    requires info.headers != [] && WellFormedBlocks(info.headers)
    ensures !Isolated(info)
  {
    var op := Transfer("", [], 7, 0);
    assert IsDelivery(op.chunks);
    assert Serve(info, op).value.response.error.value.StatusLine?;
    assert Serve(NewInfo(""), op).value.response.error == Some(Strerror(7));
  }

  // With nothing left over, any sequence of callbacks at all is taken as on a new client.
  lemma QuietIsolates(ops: seq<Transfer>, op: Transfer)
    requires After(ops).Ok? && AllQuiet(SinceSuccess(ops))
    ensures Serve(After(ops).value, op) == Serve(NewInfo(""), op)
  {
    LeftOver(ops);
    EmptyIffQuiet(SinceSuccess(ops));
    ServeSameContents(After(ops).value, NewInfo(""), op);
  }

  /** History isolation, exactly: every next request, as libcurl delivers it, is answered as on a
      new client if and only if the transfers since the last success delivered no body byte and no
      status line. */
  lemma IsolatedExactly(ops: seq<Transfer>)
    requires After(ops).Ok?
    ensures Isolated(After(ops).value) <==> AllQuiet(SinceSuccess(ops))
  {
    var info := After(ops).value;
    LeftOver(ops);
    EmptyIffQuiet(SinceSuccess(ops));
    AbsorbAllWellFormed(NewInfo(""), SinceSuccess(ops));
    if AllQuiet(SinceSuccess(ops)) {
      forall op ensures Serve(info, op) == Serve(NewInfo(""), op) {
        QuietIsolates(ops, op);
      }
    } else if info.body != "" {
      StaleBodyShows(info);
    } else {
      StaleHeadersShow(info);
    }
  }

  /** In particular after successes only: the response, its body, url and headers then depend on
      the request's own transfer alone. */
  lemma IsolatedAfterSuccesses(ops: seq<Transfer>, op: Transfer)
    requires After(ops).Ok? && (ops != [] ==> ops[|ops| - 1].result == CURLE_OK)
    ensures Serve(After(ops).value, op) == Serve(NewInfo(""), op)
  {
    QuietIsolates(ops, op);
  }

  /** A failed transfer's body comes back in front of the next response's own. */
  lemma FailureLeaksBody(url: string, partial: string, own: string, result: nat)
    requires result != CURLE_OK
    ensures var failed := Transfer(url, [BodyBytes(partial)], result, 0);
            var next := Transfer(url, [BodyBytes(own)], CURLE_OK, 200);
            && After([failed]).Ok? && Serve(After([failed]).value, next).Ok?
            && Serve(After([failed]).value, next).value.response.body == partial + own
            && Serve(NewInfo(""), next).Ok? && Serve(NewInfo(""), next).value.response.body == own
  {
    var failed := Transfer(url, [BodyBytes(partial)], result, 0);
    var next := Transfer(url, [BodyBytes(own)], CURLE_OK, 200);
    AbsorbOne(NewInfo(url), BodyBytes(partial));
    assert [failed][..0] == [] && After([]) == Ok(NewInfo(""));
    AbsorbOne(After([failed]).value.(url := url), BodyBytes(own));
    AbsorbOne(NewInfo(url), BodyBytes(own));
  }

  // ---------- The classes ----------

  // RequestInfo with the callbacks that fill it in place.
  class RequestInfoObject {
    var url: string
    var body: string
    var responseCode: nat
    var headerCollection: seq<Headers>

    function View(): Info
      reads this
    {
      Info(url, body, responseCode, headerCollection)
    }

    constructor ()
      ensures View() == NewInfo("")
    {
      url, body, responseCode, headerCollection := "", "", 0, [];
    }

    // The line as received, without its end.
    method Trimmed(contents: string) returns (header: string)
      ensures header == TrimEol(contents)
    {
      header := contents;
      if header != "" && header[|header| - 1] == '\n' {
        header := header[..|header| - 1];
        if header != "" && header[|header| - 1] == '\r' {
          header := header[..|header| - 1];
        }
      }
    }

    // push_back(HTTPHeaders()), then back().Insert.
    method Begin(header: string)
      modifies this`headerCollection
      ensures headerCollection == if STATUS_PREFIX <= header
                                  then old(headerCollection) + [[Header(STATUS_KEY, header)]]
                                  else old(headerCollection)
    {
      if STATUS_PREFIX <= header {
        headerCollection := headerCollection + [[]];
        assert headerCollection[|headerCollection| - 1] + [Header(STATUS_KEY, header)] == [Header(STATUS_KEY, header)];
        Insert(STATUS_KEY, header);
      }
    }

    method Insert(name: string, value: string)
      requires headerCollection != []
      modifies this`headerCollection
      ensures var back := |old(headerCollection)| - 1;
              headerCollection == old(headerCollection)[back := old(headerCollection)[back] + [Header(name, value)]]
    {
      var back := |headerCollection| - 1;
      headerCollection := headerCollection[back := headerCollection[back] + [Header(name, value)]];
    }

    /** RequestHeaderCallback and CurlRequest::WriteHeader. What is thrown leaves the block that
        the line has begun. */
    method WriteHeader(contents: string) returns (thrown: Option<HeaderError>)
      modifies this`headerCollection
      ensures match AbsorbHeader(old(headerCollection), contents)
              case Ok(blocks) => thrown == None && headerCollection == blocks
              case Err(e) => thrown == Some(e) && headerCollection == BeginBlock(old(headerCollection), contents)
    {
      hide TrimEol, Find;
      var header := Trimmed(contents);
      Begin(header);
      assert headerCollection == BeginBlock(old(headerCollection), contents);
      hide BeginBlock;
      var colonPos := FindFirst(header, ':');
      if colonPos == |header| {
        return None;
      }
      var part2 := header[colonPos + 1..];
      if part2 == "" {
        return Some(EmptyFieldText);
      }
      if part2[0] == ' ' {
        part2 := part2[1..];
      }
      if headerCollection == [] {
        return Some(NoHeaderBlock);
      }
      Insert(header[..colonPos], part2);
      thrown := None;
    }

    // RequestWriteCallback and CurlRequest::WriteBody.
    method WriteBody(bytes: string)
      modifies this`body
      ensures body == old(body) + bytes
    {
      body := body + bytes;
    }

    method Reset()
      modifies this
      ensures View() == NewInfo("")
    {
      headerCollection := [];
      body := "";
      url := "";
      responseCode := 0;
    }
  }

  class MultiCurlClient {
    const requestInfo: RequestInfoObject
    ghost var ops: seq<Transfer>

    // No callback has thrown.
    ghost predicate Valid()
      reads this, requestInfo
    {
      After(ops) == Ok(requestInfo.View())
    }

    constructor ()
      ensures Valid() && fresh(requestInfo) && ops == []
    {
      requestInfo := new RequestInfoObject();
      ops := [];
    }

    // curl_easy_perform: libcurl hands over what the network sent, piece by piece.
    method Execute(chunks: seq<Chunk>) returns (thrown: Option<HeaderError>)
      modifies requestInfo
      ensures match AbsorbAll(old(requestInfo.View()), chunks)
              case Ok(info) => thrown == None && requestInfo.View() == info
              case Err(e) => thrown.Some?
    {
      hide AbsorbAll;
      ghost var start := requestInfo.View();
      thrown := None;
      NothingAbsorbed(start, chunks);
      for i := 0 to |chunks|
        invariant thrown == None && AbsorbAll(start, chunks[..i]) == Ok(requestInfo.View())
      {
        AbsorbNext(start, chunks, i, requestInfo.View());
        match chunks[i]
        case HeaderLine(text) =>
          thrown := requestInfo.WriteHeader(text);
          if thrown.Some? {
            return;
          }
        case BodyBytes(bytes) => requestInfo.WriteBody(bytes);
      }
      assert chunks[..|chunks|] == chunks;
    }

    method TransformResponseCurl(res: nat) returns (response: Response)
      modifies requestInfo
      ensures response == DirectResponse(old(requestInfo.View()), res)
      ensures requestInfo.View() == if res == CURLE_OK then NewInfo("") else old(requestInfo.View())
    {
      response := Response(requestInfo.responseCode, "", "", None, []);
      if res != CURLE_OK {
        response := response.(error := Some(ErrorText(requestInfo.View(), res)));
        return;
      }
      response := response.(body := requestInfo.body, url := requestInfo.url);
      if requestInfo.headerCollection != [] {
        response := response.(headers := requestInfo.headerCollection[|requestInfo.headerCollection| - 1]);
      }
      requestInfo.Reset();
    }

    // The part that Put, Delete and Post share: perform, then fetch the code.
    method Send(op: Transfer) returns (thrown: Option<HeaderError>)
      modifies requestInfo
      ensures match AbsorbAll(old(requestInfo.View()).(url := op.url), op.chunks)
              case Ok(info) => thrown == None && requestInfo.View() == info.(code := op.code % 0x1_0000)
              case Err(e) => thrown.Some?
    {
      requestInfo.url := op.url;
      thrown := Execute(op.chunks);
      if thrown == None {
        requestInfo.responseCode := op.code % 0x1_0000;
      }
    }

    /** Put: the response is Serve's on the accumulator as it stood. After a throw in a callback
        nothing more is said of the client. */
    method Put(op: Transfer) returns (r: Result<Response, HeaderError>)
      requires Valid()
      modifies this, requestInfo
      ensures match Serve(old(requestInfo.View()), op)
              case Ok(served) => Valid() && ops == old(ops) + [op] && r == Ok(served.response)
                                 && requestInfo.View() == served.info
              case Err(_) => r.Err?
      ensures r.Ok? ==> IsAnswerTo(r.value, old(requestInfo.View()), op)
    {
      var thrown := Send(op);
      if thrown.Some? {
        return Err(thrown.value);
      }
      var response := TransformResponseCurl(op.result);
      ServeExactly(ops, op);
      assert (ops + [op])[..|ops|] == ops;
      ops := ops + [op];
      r := Ok(response);
    }

    // Delete differs from Put in options of the easy handle only.
    method Delete(op: Transfer) returns (r: Result<Response, HeaderError>)
      requires Valid()
      modifies this, requestInfo
      ensures match Serve(old(requestInfo.View()), op)
              case Ok(served) => Valid() && ops == old(ops) + [op] && r == Ok(served.response)
                                 && requestInfo.View() == served.info
              case Err(_) => r.Err?
      ensures r.Ok? ==> IsAnswerTo(r.value, old(requestInfo.View()), op)
    {
      r := Put(op);
    }

    /** Post also gives the caller the whole accumulated body. */
    method Post(op: Transfer) returns (r: Result<(Response, string), HeaderError>)
      requires Valid()
      modifies this, requestInfo
      ensures match Serve(old(requestInfo.View()), op)
              case Ok(served) => Valid() && ops == old(ops) + [op] && r == Ok((served.response, served.received))
                                 && requestInfo.View() == served.info
              case Err(_) => r.Err?
      ensures r.Ok? ==> IsAnswerTo(r.value.0, old(requestInfo.View()), op)
      ensures r.Ok? ==> r.value.1 == old(requestInfo.body) + Received(op.chunks)
    {
      var thrown := Send(op);
      if thrown.Some? {
        return Err(thrown.value);
      }
      var bufferOut := requestInfo.body;
      var response := TransformResponseCurl(op.result);
      ServeExactly(ops, op);
      assert (ops + [op])[..|ops|] == ops;
      ops := ops + [op];
      r := Ok((response, bufferOut));
    }
  }
}
