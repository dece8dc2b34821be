/** The table function curl_httpfs_get_tcp_connection: the counts as rows sorted by address,
    handed out one chunk per call. */
module TcpConnectionQueryFunction {
  import opened Strings
  import opened Wrappers
  import opened TcpAddress
  import opened TcpConnectionFetcher

  datatype TcpConnectionStatus = TcpConnectionStatus(ip: string, count: nat)

  type Status = TcpConnectionStatus

  // The rows are the counts, one row per address, in some order.
  ghost predicate Lists(rows: seq<Status>, counts: Counts) {
    && (forall i :: 0 <= i < |rows| ==> rows[i].ip in counts && counts[rows[i].ip] == rows[i].count)
    && (forall ip :: ip in counts ==> HasIp(rows, ip))
    && Distinct(rows)
  }

  predicate HasIp(rows: seq<Status>, ip: string) {
    exists i :: 0 <= i < |rows| && rows[i].ip == ip
  }

  predicate Distinct(rows: seq<Status>) {
    forall i, j :: 0 <= i < j < |rows| ==> rows[i].ip != rows[j].ip
  }

  // std::sort's promise for the comparison by address.
  predicate Ordered(rows: seq<Status>) {
    forall i, j :: 0 <= i < j < |rows| ==> !Less(rows[j].ip, rows[i].ip)
  }

  predicate Increasing(rows: seq<Status>) {
    forall i, j :: 0 <= i < j < |rows| ==> Less(rows[i].ip, rows[j].ip)
  }

  function Total(rows: seq<Status>): nat {
    if rows == [] then 0 else Total(rows[..|rows| - 1]) + rows[|rows| - 1].count
  }

  // ---------- One result ----------

  lemma ListsPermuted(rows: seq<Status>, later: seq<Status>, counts: Counts)
    requires Lists(rows, counts) && multiset(rows) == multiset(later)
    ensures Lists(later, counts)
  {
    forall i | 0 <= i < |later| ensures later[i] in rows { assert later[i] in multiset(later); }
    forall ip | ip in counts ensures HasIp(later, ip) {
      var i :| 0 <= i < |rows| && rows[i].ip == ip;
      assert rows[i] in multiset(rows);
      var j :| 0 <= j < |later| && later[j] == rows[i];
    }
    forall i, j | 0 <= i < j < |later| ensures later[i].ip != later[j].ip {
      if later[i] == later[j] {
        Twice(later, i, j);
        Once(rows, later[i]);
      }
    }
  }

  lemma Twice(rows: seq<Status>, i: nat, j: nat)
    requires i < j < |rows| && rows[i] == rows[j]
    ensures multiset(rows)[rows[i]] >= 2
  {
    assert rows == rows[..j] + rows[j..];
    assert rows[..j][i] in multiset(rows[..j]) && rows[j..][0] in multiset(rows[j..]);
  }

  lemma {:induction false} Once(rows: seq<Status>, row: Status)
    requires Distinct(rows)
    ensures multiset(rows)[row] <= 1
  {
    if rows == [] {
    } else {
      var init, last := rows[..|rows| - 1], rows[|rows| - 1];
      Once(init, row);
      assert rows == init + [last];
      assert forall i :: 0 <= i < |init| ==> init[i].ip != last.ip;
      assert last !in multiset(init);
    }
  }

  lemma StrictlyOrdered(rows: seq<Status>)
    requires Ordered(rows) && Distinct(rows)
    ensures Increasing(rows)
  {
    forall i, j | 0 <= i < j < |rows| ensures Less(rows[i].ip, rows[j].ip) {
      LessTotal(rows[i].ip, rows[j].ip);
    }
  }

  lemma LastIsGreatest(rows: seq<Status>, counts: Counts, ip: string)
    requires Increasing(rows) && Lists(rows, counts) && ip in counts
    ensures rows != [] && (ip == rows[|rows| - 1].ip || Less(ip, rows[|rows| - 1].ip))
  {
    var i :| 0 <= i < |rows| && rows[i].ip == ip;
  }

  lemma ListsInit(rows: seq<Status>, counts: Counts)
    requires rows != [] && Increasing(rows) && Lists(rows, counts)
    ensures Increasing(rows[..|rows| - 1]) && Lists(rows[..|rows| - 1], counts - {rows[|rows| - 1].ip})
  {
    var init, last := rows[..|rows| - 1], rows[|rows| - 1];
    forall ip | ip in counts - {last.ip} ensures HasIp(init, ip) {
      var i :| 0 <= i < |rows| && rows[i].ip == ip;
      assert init[i].ip == ip;
    }
  }

  // Two increasing listings of one map are empty together, and end alike.
  lemma SameEnd(a: seq<Status>, b: seq<Status>, counts: Counts)
    requires Increasing(a) && Lists(a, counts) && Increasing(b) && Lists(b, counts) && a != []
    ensures b != [] && a[|a| - 1] == b[|b| - 1]
  {
    var x := a[|a| - 1];
    LastIsGreatest(b, counts, x.ip);
    var y := b[|b| - 1];
    LastIsGreatest(a, counts, y.ip);
    LessTotal(x.ip, y.ip);
  }

  /** There is only one increasing listing: the order of the hash map does not show. */
  lemma {:induction false} OneListing(a: seq<Status>, b: seq<Status>, counts: Counts)
    requires Increasing(a) && Lists(a, counts) && Increasing(b) && Lists(b, counts)
    ensures a == b
    decreases |a|
  {
    hide Increasing, Lists;
    if a == [] {
      if b != [] { SameEnd(b, a, counts); }
    } else {
      SameEnd(a, b, counts);
      ListsInit(a, counts);
      ListsInit(b, counts);
      OneListing(a[..|a| - 1], b[..|b| - 1], counts - {a[|a| - 1].ip});
      assert a == a[..|a| - 1] + [a[|a| - 1]] && b == b[..|b| - 1] + [b[|b| - 1]];
    }
  }

  /** The rows' counts add up to the number of lines counted. */
  lemma {:induction false} TotalIsRows(rows: seq<Status>, ips: multiset<string>)
    requires Increasing(rows) && Lists(rows, CountsOf(ips))
    ensures Total(rows) == |ips|
    decreases |rows|
  {
    if rows == [] {
      assert forall ip :: !HasIp(rows, ip);
      assert forall ip :: ip in ips ==> ip in CountsOf(ips);
      assert ips == multiset{};
    } else {
      var last := rows[|rows| - 1];
      assert last.ip in CountsOf(ips);
      ListsInit(rows, CountsOf(ips));
      assert CountsOf(ips) - {last.ip} == CountsOf(ips[last.ip := 0]);
      TotalIsRows(rows[..|rows| - 1], ips[last.ip := 0]);
    }
  }

  // ---------- Building the rows ----------

  // The vector filled in the order of the hash map, which is any.
  method ListRows(counts: Counts) returns (rows: seq<Status>)
    ensures Lists(rows, counts)
  {
    rows := [];
    var rest := counts.Keys;
    while rest != {}
      invariant rest <= counts.Keys && Distinct(rows)
      invariant forall i :: 0 <= i < |rows| ==>
                  rows[i].ip in counts && rows[i].ip !in rest && counts[rows[i].ip] == rows[i].count
      invariant forall ip :: ip in counts && ip !in rest ==> HasIp(rows, ip)
      decreases |rest|
    {
      var ip :| ip in rest;
      ghost var before := rows;
      rows := rows + [TcpConnectionStatus(ip, counts[ip])];
      rest := rest - {ip};
      forall x | x in counts && x !in rest ensures HasIp(rows, x) {
        if x == ip {
          assert rows[|rows| - 1].ip == ip;
        } else {
          var i :| 0 <= i < |before| && before[i].ip == x;
          assert rows[i].ip == x;
        }
      }
    }
  }

  // The place of a row among ordered ones.
  method InsertionPoint(rows: seq<Status>, row: Status) returns (k: nat)
    requires Ordered(rows)
    ensures k <= |rows|
    ensures forall i :: 0 <= i < k ==> !Less(row.ip, rows[i].ip)
    ensures forall i :: k <= i < |rows| ==> !Less(rows[i].ip, row.ip)
  {
    k := 0;
    while k < |rows| && !Less(row.ip, rows[k].ip)
      invariant k <= |rows| && forall i :: 0 <= i < k ==> !Less(row.ip, rows[i].ip)
    {
      k := k + 1;
    }
    forall i | k <= i < |rows| ensures !Less(rows[i].ip, row.ip) {
      LessTotal(rows[k].ip, row.ip);
      if Less(rows[i].ip, row.ip) {
        LessTransitive(rows[i].ip, row.ip, rows[k].ip);
      }
    }
  }

  // The row put at that place.
  lemma Inserted(rows: seq<Status>, row: Status, k: nat)
    requires Ordered(rows) && k <= |rows|
    requires forall i :: 0 <= i < k ==> !Less(row.ip, rows[i].ip)
    requires forall i :: k <= i < |rows| ==> !Less(rows[i].ip, row.ip)
    ensures Ordered(rows[..k] + ([row] + rows[k..]))
    ensures multiset(rows[..k] + ([row] + rows[k..])) == multiset(rows) + multiset{row}
  {
    hide Less;
    LessTotal(row.ip, row.ip);
    InsertedRows(rows, row, k);
  }

  lemma InsertedRows(rows: seq<Status>, row: Status, k: nat)
    requires k <= |rows|
    ensures multiset(rows[..k] + ([row] + rows[k..])) == multiset(rows) + multiset{row}
  {
    assert rows == rows[..k] + rows[k..];
  }

  lemma NextTaken(rows: seq<Status>, i: nat)
    requires i < |rows|
    ensures multiset(rows[..i + 1]) == multiset(rows[..i]) + multiset{rows[i]}
  {
    assert rows[..i + 1] == rows[..i] + [rows[i]];
  }

  // std::sort: a permutation in order.
  method SortByIp(rows: seq<Status>) returns (sorted: seq<Status>)
    ensures Ordered(sorted) && multiset(sorted) == multiset(rows)
  {
    hide Less, Ordered;
    NoneOrdered();
    sorted := [];
    for i := 0 to |rows|
      invariant Ordered(sorted) && multiset(sorted) == multiset(rows[..i])
    {
      var k := InsertionPoint(sorted, rows[i]);
      Inserted(sorted, rows[i], k);
      NextTaken(rows, i);
      sorted := sorted[..k] + ([rows[i]] + sorted[k..]);
    }
    assert rows[..|rows|] == rows;
  }

  lemma NoneOrdered()
    ensures Ordered([])
  {
  }

  // ---------- Handing them out ----------

  // Where the next call leaves the offset.
  function NextOffset(offset: nat, size: nat, total: nat): nat {
    if offset + size <= total then offset + size else total
  }

  // A chunk to fill: two columns of the vector size, and how many rows of them count.
  class DataChunk {
    const ips: array<string>
    const counts: array<nat>
    var cardinality: nat

    ghost predicate Valid()
      reads this, ips, counts
    {
      ips.Length == counts.Length && cardinality <= ips.Length
    }

    ghost function Rows(): seq<Status>
      requires Valid()
      reads this, ips, counts
    {
      seq(cardinality, i requires 0 <= i < cardinality reads this, ips, counts requires Valid() =>
        TcpConnectionStatus(ips[i], counts[i]))
    }

    constructor (size: nat)
      ensures Valid() && cardinality == 0 && ips.Length == size && fresh(ips) && fresh(counts)
    {
      ips, counts := new string[size](_ => ""), new nat[size](_ => 0);
      cardinality := 0;
    }
  }

  class TcpConnectionData {
    const rows: seq<Status>
    var offset: nat

    constructor (sorted: seq<Status>)
      ensures rows == sorted && offset == 0
    {
      rows, offset := sorted, 0;
    }

    /** One call: the next rows, as many as fit, or nothing once all are out. */
    method TableFunc(output: DataChunk)
      requires output.Valid() && offset <= |rows|
      modifies this, output, output.ips, output.counts
      ensures output.Valid()
      ensures offset == NextOffset(old(offset), output.ips.Length, |rows|)
      ensures old(offset) < |rows| ==> output.Rows() == rows[old(offset)..offset]
      ensures old(offset) == |rows| ==> output.Rows() == old(output.Rows())
    {
      if offset >= |rows| {
        return;
      }
      var count := 0;
      ghost var first := offset;
      while offset < |rows| && count < output.ips.Length
        invariant count <= output.ips.Length && output.ips.Length == output.counts.Length
        invariant offset == first + count <= |rows|
        invariant forall i :: 0 <= i < count ==> TcpConnectionStatus(output.ips[i], output.counts[i]) == rows[first + i]
      {
        var entry := rows[offset];
        offset := offset + 1;
        output.ips[count] := entry.ip;
        output.counts[count] := entry.count;
        count := count + 1;
      }
      output.cardinality := count;
    }
  }

  /** The init function: the same increasing rows however the hash map is ordered. */
  method FuncInit(tcp: string, tcp6: string) returns (r: Result<TcpConnectionData, ParseError>)
    ensures match Aggregate(map[], DataLines(tcp) + DataLines(tcp6))
            case Err(e) => r == Err(e)
            case Ok(counts) =>
              && r.Ok? && fresh(r.value) && r.value.offset == 0
              && Increasing(r.value.rows) && Lists(r.value.rows, counts)
  {
    var answer := GetTcpConnectionNum(tcp, tcp6);
    match answer
    case Err(e) => return Err(e);
    case Ok(counts) =>
      var rows := ListRows(counts);
      var sorted := SortByIp(rows);
      ListsPermuted(rows, sorted, counts);
      StrictlyOrdered(sorted);
      var data := new TcpConnectionData(sorted);
      r := Ok(data);
  }

  function Concat(chunks: seq<seq<Status>>): seq<Status> {
    if chunks == [] then [] else Concat(chunks[..|chunks| - 1]) + chunks[|chunks| - 1]
  }

  function CeilDiv(n: nat, size: nat): nat
    requires size > 0
  {
    (n + size - 1) / size
  }

  // The chunks so far are the first rows, all of them full unless nothing is left.
  ghost predicate Emitted(chunks: seq<seq<Status>>, rows: seq<Status>, offset: nat, size: nat)
    requires size > 0
  {
    && offset <= |rows| && Concat(chunks) == rows[..offset] && |chunks| == CeilDiv(offset, size)
    && (forall i :: 0 <= i < |chunks| ==> 0 < |chunks[i]| <= size)
    && (forall i :: 0 <= i < |chunks| - 1 ==> |chunks[i]| == size)
    && (offset < |rows| ==>
          offset == |chunks| * size && forall i :: 0 <= i < |chunks| ==> |chunks[i]| == size)
  }

  lemma NoneEmitted(rows: seq<Status>, size: nat)
    requires size > 0
    ensures Emitted([], rows, 0, size)
  {
    CeilOfNone(size);
  }

  lemma NextEmitted(chunks: seq<seq<Status>>, rows: seq<Status>, offset: nat, size: nat)
    requires size > 0 && offset < |rows| && Emitted(chunks, rows, offset, size)
    ensures var next := NextOffset(offset, size, |rows|);
            Emitted(chunks + [rows[offset..next]], rows, next, size)
  {
    hide CeilDiv;
    var next := NextOffset(offset, size, |rows|);
    var out := rows[offset..next];
    CeilStep(|chunks|, size, next - offset);
    assert (chunks + [out])[..|chunks|] == chunks;
    assert rows[..next] == rows[..offset] + out;
    assert (|chunks| + 1) * size == |chunks| * size + size;
  }

  lemma AllEmitted(chunks: seq<seq<Status>>, rows: seq<Status>, size: nat)
    requires size > 0 && Emitted(chunks, rows, |rows|, size)
    ensures Concat(chunks) == rows && |chunks| == CeilDiv(|rows|, size)
    ensures forall i :: 0 <= i < |chunks| ==> 0 < |chunks[i]| <= size
    ensures forall i :: 0 <= i < |chunks| - 1 ==> |chunks[i]| == size
  {
    assert rows[..|rows|] == rows;
  }

  /** The whole query: calls on empty chunks until one stays empty. The chunks put together are
      the rows, every call but the last gives something, and there are exactly n/size of those,
      rounded up, all full except perhaps the final one. */
  method Emit(data: TcpConnectionData, vectorSize: nat) returns (chunks: seq<seq<Status>>)
    requires vectorSize > 0 && data.offset == 0
    modifies data
    ensures Concat(chunks) == data.rows
    ensures |chunks| == CeilDiv(|data.rows|, vectorSize)
    ensures forall i :: 0 <= i < |chunks| ==> 0 < |chunks[i]| <= vectorSize
    ensures forall i :: 0 <= i < |chunks| - 1 ==> |chunks[i]| == vectorSize
  {
    hide CeilDiv, Emitted, Concat;
    NoneEmitted(data.rows, vectorSize);
    chunks := [];
    while true
      invariant data.offset <= |data.rows| && Emitted(chunks, data.rows, data.offset, vectorSize)
      decreases |data.rows| - data.offset
    {
      ghost var first := data.offset;
      var out := Fetch(data, vectorSize);
      if out == [] {
        break;
      }
      NextEmitted(chunks, data.rows, first, vectorSize);
      chunks := chunks + [out];
    }
    AllEmitted(chunks, data.rows, vectorSize);
  }

  // One call on an empty chunk.
  method Fetch(data: TcpConnectionData, vectorSize: nat) returns (out: seq<Status>)
    requires data.offset <= |data.rows|
    modifies data
    ensures data.offset == NextOffset(old(data.offset), vectorSize, |data.rows|)
    ensures out == data.rows[old(data.offset)..data.offset]
  {
    var output := new DataChunk(vectorSize);
    assert output.Rows() == [];
    data.TableFunc(output);
    out := [];
    for i := 0 to output.cardinality
      invariant out == output.Rows()[..i]
    {
      out := out + [TcpConnectionStatus(output.ips[i], output.counts[i])];
    }
  }

  lemma CeilOfNone(size: nat)
    requires size > 0
    ensures CeilDiv(0, size) == 0
  {
    DivIs(size - 1, size, 0);
  }

  lemma CeilStep(k: nat, size: nat, more: nat)
    requires 0 < more <= size
    ensures CeilDiv(k * size + more, size) == k + 1
  {
    assert (k * size + more + size - 1) / size == k + 1 by {
      var n := k * size + more + size - 1;
      assert (k + 1) * size <= n < (k + 2) * size;
      DivIs(n, size, k + 1);
    }
  }

  lemma DivIs(n: nat, size: nat, q: nat)
    requires size > 0 && q * size <= n < (q + 1) * size
    ensures n / size == q
  {
    var d := n / size;
    assert d * size <= n < (d + 1) * size;
    assert d < q ==> (d + 1) * size <= q * size;
    assert q < d ==> (q + 1) * size <= d * size;
  }

  /** End to end: whatever the order of the hash map, the result is the one increasing listing
      of the readable lines' addresses, and the counts add up to the number of those lines. */
  method Report(tcp: string, tcp6: string, vectorSize: nat) returns (r: Result<seq<seq<Status>>, ParseError>)
    requires vectorSize > 0
    ensures r.Ok? <==> AllReadable(DataLines(tcp) + DataLines(tcp6))
    ensures r.Ok? ==>
              var lines := DataLines(tcp) + DataLines(tcp6);
              && Increasing(Concat(r.value)) && Lists(Concat(r.value), CountsOf(multiset(Rows(lines))))
              && Total(Concat(r.value)) == |Rows(lines)|
              && |r.value| == CeilDiv(|Concat(r.value)|, vectorSize)
  {
    var lines := DataLines(tcp) + DataLines(tcp6);
    FromNothing(lines);
    var init := FuncInit(tcp, tcp6);
    match init
    case Err(e) => return Err(e);
    case Ok(data) =>
      var chunks := Emit(data, vectorSize);
      TotalIsRows(Concat(chunks), multiset(Rows(lines)));
      r := Ok(chunks);
  }

  // What the two printed files amount to, line by line.
  lemma PrintedLines(heading: string, cs: seq<Connection>, heading6: string, cs6: seq<Connection>)
    requires '\n' !in heading && '\n' !in heading6
    requires forall i :: 0 <= i < |cs| ==> IsConnection(cs[i])
    requires forall i :: 0 <= i < |cs6| ==> IsConnection(cs6[i])
    ensures var lines := DataLines(PrintTable(heading, cs)) + DataLines(PrintTable(heading6, cs6));
            AllReadable(lines) && Rows(lines) == RemoteIps(cs) + RemoteIps(cs6)
  {
    TableLines(heading, cs);
    TableLines(heading6, cs6);
    RowsConcat(DataLines(PrintTable(heading, cs)), DataLines(PrintTable(heading6, cs6)));
    hide Rows, DataLines, PrintTable, RemoteIps, RowIp;
  }

  /** End to end on files as the kernel prints them: the rows are the one increasing listing of
      the IPv4 addresses with their numbers of connections, and of 0.0.0.0 with the number of all
      IPv6 connections besides. */
  method ReportPrinted(heading: string, cs: seq<Connection>, heading6: string, cs6: seq<Connection>, vectorSize: nat)
    returns (r: Result<seq<seq<Status>>, ParseError>)
    requires '\n' !in heading && '\n' !in heading6 && vectorSize > 0
    requires forall i :: 0 <= i < |cs| ==> IsConnection(cs[i]) && cs[i].remote.V4?
    requires forall i :: 0 <= i < |cs6| ==> IsConnection(cs6[i]) && cs6[i].remote.V6?
    ensures r.Ok? && Increasing(Concat(r.value)) && Total(Concat(r.value)) == |cs| + |cs6|
    ensures Lists(Concat(r.value),
                  CountsOf(multiset(seq(|cs|, i requires 0 <= i < |cs| => Dotted(cs[i].remote.address)))
                           + multiset{}["0.0.0.0" := |cs6|]))
  {
    hide Lists, Increasing, PrintTable, DataLines, CountsOf, Dotted;
    PrintedLines(heading, cs, heading6, cs6);
    SameTexts(RemoteIps(cs6), NO_ADDRESS);
    assert RemoteIps(cs) == seq(|cs|, i requires 0 <= i < |cs| => Dotted(cs[i].remote.address));
    r := Report(PrintTable(heading, cs), PrintTable(heading6, cs6), vectorSize);
  }

  /** And it is the same for the same lines in any other order, in either file. */
  lemma ReportIndependentOfOrder(a: seq<string>, b: seq<string>, x: seq<Status>, y: seq<Status>)
    requires multiset(a) == multiset(b) && AllReadable(a)
    requires Increasing(x) && Lists(x, CountsOf(multiset(Rows(a))))
    requires Increasing(y) && Lists(y, CountsOf(multiset(Rows(b))))
    ensures x == y && Total(x) == |Rows(a)|
  {
    RowsPermuted(a, b);
    OneListing(x, y, CountsOf(multiset(Rows(a))));
    TotalIsRows(x, multiset(Rows(a)));
  }
}
