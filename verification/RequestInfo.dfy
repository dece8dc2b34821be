/** What one HTTP transfer accumulates (RequestInfo), the two libcurl callbacks that fill it,
    and the two ways the program turns it into a response. */
module RequestInfo {
  import opened Strings
  import opened Wrappers

  datatype Header = Header(name: string, value: string)

  // The pairs put into one HTTPHeaders object, in the order of the Insert calls.
  type Headers = seq<Header>

  // One element of header_collection per "HTTP/..." status line received.
  datatype Info = Info(url: string, body: string, code: nat, headers: seq<Headers>)

  datatype RequestError = StatusLine(text: string) | Strerror(result: nat)

  datatype Response = Response(status: nat, url: string, body: string,
                               error: Option<RequestError>, headers: Headers)

  // What libcurl hands to the callbacks of one transfer.
  datatype Chunk = HeaderLine(text: string) | BodyBytes(bytes: string)

  // part2.at(0) on an empty string throws; back() on an empty vector has no meaning.
  datatype HeaderError = EmptyFieldText | NoHeaderBlock

  const STATUS_KEY := "__RESPONSE_STATUS__"
  const STATUS_PREFIX := "HTTP/"
  const CURLE_OK: nat := 0

  function NewInfo(url: string): Info {
    Info(url, "", 0, [])
  }

  function TrimEol(s: string): string {
    if s == "" || s[|s| - 1] != '\n' then s
    else
      var t := s[..|s| - 1];
      if t == "" || t[|t| - 1] != '\r' then t else t[..|t| - 1]
  }

  function StripSpace(text: string): string {
    if text != "" && text[0] == ' ' then text[1..] else text
  }

  predicate IsStatusLine(contents: string) {
    STATUS_PREFIX <= TrimEol(contents)
  }

  // A status line begins a new block.
  function BeginBlock(blocks: seq<Headers>, contents: string): seq<Headers> {
    if IsStatusLine(contents) then blocks + [[Header(STATUS_KEY, TrimEol(contents))]] else blocks
  }

  // WriteHeader and RequestHeaderCallback, which treat a line alike.
  function AbsorbHeader(blocks: seq<Headers>, contents: string): Result<seq<Headers>, HeaderError> {
    var line := TrimEol(contents);
    var begun := BeginBlock(blocks, contents);
    var colon := Find(line, ':');
    if colon == |line| then Ok(begun)
    else
      var text := line[colon + 1..];
      if text == "" then Err(EmptyFieldText)
      else if begun == [] then Err(NoHeaderBlock)
      else
        var last := |begun| - 1;
        Ok(begun[last := begun[last] + [Header(line[..colon], StripSpace(text))]])
  }

  function Absorb(info: Info, chunk: Chunk): Result<Info, HeaderError> {
    match chunk
    case BodyBytes(bytes) => Ok(info.(body := info.body + bytes))
    case HeaderLine(text) =>
      match AbsorbHeader(info.headers, text)
      case Ok(blocks) => Ok(info.(headers := blocks))
      case Err(e) => Err(e)
  }

  function AbsorbAll(info: Info, chunks: seq<Chunk>): Result<Info, HeaderError> {
    if chunks == [] then Ok(info)
    else
      match AbsorbAll(info, chunks[..|chunks| - 1])
      case Ok(before) => Absorb(before, chunks[|chunks| - 1])
      case Err(e) => Err(e)
  }

  predicate HasHeader(headers: Headers, name: string) {
    exists i :: 0 <= i < |headers| && headers[i].name == name
  }

  function GetHeaderValue(headers: Headers, name: string): string {
    if headers == [] then "" else if headers[0].name == name then headers[0].value
    else GetHeaderValue(headers[1..], name)
  }

  function Without(headers: Headers, name: string): Headers {
    if headers == [] then []
    else (if headers[0].name == name then [] else [headers[0]]) + Without(headers[1..], name)
  }

  function ErrorText(info: Info, result: nat): RequestError {
    if info.headers != [] && HasHeader(info.headers[|info.headers| - 1], STATUS_KEY)
    then StatusLine(GetHeaderValue(info.headers[|info.headers| - 1], STATUS_KEY))
    else Strerror(result)
  }

  // CheckMulti's response: always with the url, never with the status pseudo-header.
  function ManagedResponse(info: Info, result: nat): Response {
    if result != CURLE_OK then Response(info.code, info.url, "", Some(ErrorText(info, result)), [])
    else
      Response(info.code, info.url, info.body, None,
               if info.headers == [] then [] else Without(info.headers[|info.headers| - 1], STATUS_KEY))
  }

  // TransformResponseCurl's response: no url on failure, the status pseudo-header included on success.
  function DirectResponse(info: Info, result: nat): Response {
    if result != CURLE_OK then Response(info.code, "", "", Some(ErrorText(info, result)), [])
    else
      Response(info.code, info.url, info.body, None,
               if info.headers == [] then [] else info.headers[|info.headers| - 1])
  }

  // ---------- One line ----------

  /** What counts as the end of a line: "\r\n" or "\n", once, and no more than that. */
  lemma LineEnds(line: string)
    ensures TrimEol(line + "\r\n") == line
    ensures line == "" || line[|line| - 1] != '\r' ==> TrimEol(line + "\n") == line
    ensures line == "" || line[|line| - 1] != '\n' ==> TrimEol(line) == line
  {
    assert (line + "\r\n")[..|line| + 1] == line + "\r";
    assert (line + "\r")[..|line|] == line;
    assert (line + "\n")[..|line|] == line;
  }

  // The end of a line is no part of the prefix.
  lemma PrefixSurvives(contents: string)
    ensures "HTTP/" <= TrimEol(contents) <==> "HTTP/" <= contents
  {
    var n := |contents|;
    if n <= 6 && "HTTP/" <= contents {
      assert n == 6 ==> contents[..5] == "HTTP/" && contents[4] == '/';
      assert contents[n - 1] == '\n' ==> n == 6;
    }
  }

  /** A line begins a block if and only if it starts with "HTTP/", whatever the version, and the
      blocks before stay as they are, up to the open one, and so does that on a line without a
      colon. */
  lemma BeginsExactly(blocks: seq<Headers>, contents: string)
    requires AbsorbHeader(blocks, contents).Ok?
    ensures var later := AbsorbHeader(blocks, contents).value;
            && |later| == |blocks| + (if "HTTP/" <= contents then 1 else 0)
            && ("HTTP/" <= contents ==> blocks <= later)
            && (!("HTTP/" <= contents) && blocks != [] ==>
                  && blocks[..|blocks| - 1] <= later && blocks[|blocks| - 1] <= later[|blocks| - 1]
                  && |later[|blocks| - 1]| == |blocks[|blocks| - 1]| + if ':' in TrimEol(contents) then 1 else 0)
  {
    PrefixSurvives(contents);
  }

  // How a line ends makes no difference.
  lemma OnlyTheLine(blocks: seq<Headers>, contents: string)
    ensures AbsorbHeader(blocks, contents) == AbsorbHeader(blocks, TrimEol(contents) + "\r\n")
  {
    LineEnds(TrimEol(contents));
    hide TrimEol, Find, StripSpace;
  }

  /** The callbacks fail exactly on a line whose first colon ends it, and on a field line that no
      status line precedes. */
  lemma HeaderFailsExactly(blocks: seq<Headers>, contents: string)
    ensures var line := TrimEol(contents);
            AbsorbHeader(blocks, contents).Err? <==>
            exists k :: && 0 <= k < |line| && line[k] == ':' && (forall i :: 0 <= i < k ==> line[i] != ':')
                        && (k + 1 == |line| || (blocks == [] && !("HTTP/" <= contents)))
  {
    var line := TrimEol(contents);
    var colon := Find(line, ':');
    PrefixSurvives(contents);
    assert colon == |line| ==> forall k :: 0 <= k < |line| ==> line[k] != ':';
  }

  // ---------- One transfer ----------

  // All body bytes handed over, in order.
  function Received(chunks: seq<Chunk>): string {
    if chunks == [] then ""
    else Received(chunks[..|chunks| - 1]) + match chunks[|chunks| - 1] case BodyBytes(bytes) => bytes case _ => ""
  }

  /** Header lines leave the body alone, body bytes are appended to it, and nothing the network
      sends changes the url or the code. */
  lemma {:induction false} Accumulated(info: Info, chunks: seq<Chunk>)
    requires AbsorbAll(info, chunks).Ok?
    ensures var later := AbsorbAll(info, chunks).value;
            later.url == info.url && later.code == info.code && later.body == info.body + Received(chunks)
  {
    if chunks == [] {
      assert info.body + "" == info.body;
    } else {
      var init := chunks[..|chunks| - 1];
      Accumulated(info, init);
      assert info.body + Received(init) + "" == info.body + Received(init);
      hide AbsorbHeader;
    }
  }

  // Every block that the callbacks ever begun begins with its status line.
  predicate WellFormedBlocks(blocks: seq<Headers>) {
    forall i :: 0 <= i < |blocks| ==>
      blocks[i] != [] && blocks[i][0].name == "__RESPONSE_STATUS__" && "HTTP/" <= blocks[i][0].value
  }

  // The error reported: the last status line received, or libcurl's own text.
  predicate Reports(error: Option<RequestError>, blocks: seq<Headers>, result: nat) {
    if blocks == [] then error == Some(Strerror(result))
    else var last := blocks[|blocks| - 1]; last != [] && error == Some(StatusLine(last[0].value))
  }

  // The response of CheckMulti to a transfer of the url that ended with this code and result,
  // field by field.
  predicate IsManaged(resp: Response, url: string, chunks: seq<Chunk>, code: nat, result: nat) {
    && AbsorbAll(NewInfo(url), chunks).Ok?
    && resp.status == code % 65536 && resp.url == url
    && var blocks := AbsorbAll(NewInfo(url), chunks).value.headers;
       if result == 0 then
         && resp.body == Received(chunks) && resp.error == None
         && resp.headers == if blocks == [] then [] else Without(blocks[|blocks| - 1], "__RESPONSE_STATUS__")
       else resp.body == "" && resp.headers == [] && Reports(resp.error, blocks, result)
  }

  // TransformResponseCurl's, out of an accumulator that holds this body and these blocks.
  predicate IsDirect(resp: Response, url: string, body: string, blocks: seq<Headers>, code: nat, result: nat) {
    resp.status == code % 65536
    && if result == 0 then
         && resp.url == url && resp.body == body && resp.error == None
         && resp.headers == if blocks == [] then [] else blocks[|blocks| - 1]
       else resp.url == "" && resp.body == "" && resp.headers == [] && Reports(resp.error, blocks, result)
  }

  /** The pairs of that name go, wherever they are and however many; all others stay, in order. */
  lemma {:induction false} WithoutExactly(before: Headers, h: Header, after: Headers, name: string)
    ensures Without(before + [h] + after, name)
            == Without(before, name) + (if h.name == name then [] else [h]) + Without(after, name)
  {
    if before == [] {
      assert before + [h] + after == [h] + after;
      WithoutCons(h, after, name);
      WithoutNone(name);
    } else {
      var first, rest := before[0], before[1..];
      assert before == [first] + rest && before + [h] + after == [first] + (rest + [h] + after);
      WithoutExactly(rest, h, after, name);
      WithoutCons(first, rest, name);
      WithoutCons(first, rest + [h] + after, name);
      hide Without;
    }
  }

  lemma WithoutNone(name: string)
    ensures Without([], name) == []
  {
  }

  lemma WithoutCons(h: Header, rest: Headers, name: string)
    ensures Without([h] + rest, name) == (if h.name == name then [] else [h]) + Without(rest, name)
  {
    assert ([h] + rest)[1..] == rest;
  }

  lemma {:induction false} AbsorbAllWellFormed(info: Info, chunks: seq<Chunk>)
    requires WellFormedBlocks(info.headers)
    requires AbsorbAll(info, chunks).Ok?
    ensures WellFormedBlocks(AbsorbAll(info, chunks).value.headers)
  {
    if chunks == [] {
    } else {
      AbsorbAllWellFormed(info, chunks[..|chunks| - 1]);
    }
  }

  /** CheckMulti's response, on any stream the callbacks take: the code and the url of its own
      request whether the transfer failed or not; on success the body received and the last
      block's pairs but for the status pseudo-header; on failure no body, no headers, and the last
      status line or libcurl's own text as the error. That is all of it. */
  lemma ManagedExactly(resp: Response, url: string, chunks: seq<Chunk>, code: nat, result: nat)
    requires AbsorbAll(NewInfo(url), chunks).Ok?
    ensures resp == ManagedResponse(AbsorbAll(NewInfo(url), chunks).value.(code := code % 0x1_0000), result)
            <==> IsManaged(resp, url, chunks, code, result)
  {
    var info := AbsorbAll(NewInfo(url), chunks).value;
    Accumulated(NewInfo(url), chunks);
    AbsorbAllWellFormed(NewInfo(url), chunks);
    assert "" + Received(chunks) == Received(chunks);
    hide AbsorbAll, Without, Received;
  }

  /** A failed transfer always reaches the caller as a request error, and the text is
      never empty: libcurl's own text, or the last status line received. */
  lemma FailureIsReported(url: string, chunks: seq<Chunk>, code: nat, result: nat)
    requires AbsorbAll(NewInfo(url), chunks).Ok?
    ensures var info := AbsorbAll(NewInfo(url), chunks).value.(code := code);
            && (ManagedResponse(info, result).error.Some? <==> result != 0)
            && ManagedResponse(info, result).error == DirectResponse(info, result).error
            && (result != 0 && info.headers == [] ==>
                  ManagedResponse(info, result).error == Some(Strerror(result)))
            && (result != 0 && info.headers != [] ==>
                  var last := info.headers[|info.headers| - 1];
                  && last != [] && "HTTP/" <= last[0].value
                  && ManagedResponse(info, result).error == Some(StatusLine(last[0].value)))
  {
    AbsorbAllWellFormed(NewInfo(url), chunks);
  }

  lemma AbsorbAllStep(info: Info, chunks: seq<Chunk>, chunk: Chunk)
    ensures AbsorbAll(info, chunks + [chunk])
            == match AbsorbAll(info, chunks) case Ok(i) => Absorb(i, chunk) case Err(e) => Err(e)
  {
    assert (chunks + [chunk])[..|chunks|] == chunks;
  }

  lemma {:induction false} AbsorbAllConcat(info: Info, a: seq<Chunk>, b: seq<Chunk>)
    ensures AbsorbAll(info, a + b)
            == match AbsorbAll(info, a) case Ok(i) => AbsorbAll(i, b) case Err(e) => Err(e)
  {
    if b == [] {
      assert a + b == a;
    } else {
      var init, last := b[..|b| - 1], b[|b| - 1];
      assert a + b == (a + init) + [last] && b == init + [last];
      AbsorbAllConcat(info, a, init);
      AbsorbAllStep(info, a + init, last);
    }
  }
}
