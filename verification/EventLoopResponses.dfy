/** From the wire to the client: what HandleRequest gives back for the transfers that servers and
    redirects really make. */
module EventLoopResponses {
  import opened Wrappers
  import opened RequestInfo
  import opened HeaderRoundTrip
  import opened EventLoop
  import opened EventLoopTheorems

  /** On any run, a client whose transfer brought these header sections and body pieces has a
      response with its own url and its transfer's code; after success with the pieces joined and
      the last section's own pairs; after a failure with that section's status line, or libcurl's
      text, as the error. */
  lemma ResponseFromWire(n: nat, acts: seq<Action>, s: State, r: Req, ss: seq<Section>, pieces: seq<string>)
    requires Runs(n, acts, s) && AllDisciplined(Init(n), acts)
    requires r < |s.reqs| && s.reqs[r].received.Some?
    requires AreSections(ss) && s.reqs[r].wire == PrintAll(ss) + PrintBody(pieces)
    ensures var q := s.reqs[r];
            && q.outcome.Some?
            && var (code, result) := (q.outcome.value.code % 65536, q.outcome.value.result);
               q.received.value
               == if result != 0 then Response(code, q.url, "", Some(LastError(ss, result)), [])
                  else Response(code, q.url, Flatten(pieces), None, if ss == [] then [] else OwnPairs(ss[|ss| - 1]))
  {
    hide Runs, AllDisciplined;
    OwnResponse(n, acts, s, r);
    hide *;
    OwnFromWire(s.reqs[r], ss, pieces);
  }

  lemma OwnFromWire(q: Request, ss: seq<Section>, pieces: seq<string>)
    requires q.received.Some? && IsOwnResponse(q, q.received.value)
    requires AreSections(ss) && q.wire == PrintAll(ss) + PrintBody(pieces)
    ensures var (code, result) := (q.outcome.value.code % 65536, q.outcome.value.result);
            q.received.value
            == if result != 0 then Response(code, q.url, "", Some(LastError(ss, result)), [])
               else Response(code, q.url, Flatten(pieces), None, if ss == [] then [] else OwnPairs(ss[|ss| - 1]))
  {
    hide AbsorbAll, ManagedResponse, DirectResponse, PrintAll, PrintBody, Flatten, AreSections, OwnPairs, LastError;
    var (code, result) := (q.outcome.value.code, q.outcome.value.result);
    ResponseRoundTrip(q.url, ss, pieces, code % 0x1_0000, result);
    ManagedExactly(q.received.value, q.url, q.wire, code, result);
  }
}
