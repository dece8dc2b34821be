/** ParseProcTCP: from the text of /proc/net/tcp to the number of connections per remote
    address. */
module TcpConnectionFetcher {
  import opened Strings
  import opened Wrappers
  import opened TcpAddress

  // std::getline on what is left of a stream: the line, and the rest after its newline.
  function FirstLine(s: string): string {
    s[..Find(s, '\n')]
  }

  function AfterLine(s: string): string {
    var k := Find(s, '\n');
    if k == |s| then "" else s[k + 1..]
  }

  function Lines(s: string): seq<string>
    decreases |s|
  {
    if s == "" then [] else [FirstLine(s)] + Lines(AfterLine(s))
  }

  // All lines but the heading.
  function DataLines(content: string): seq<string> {
    if content == "" then [] else Lines(AfterLine(content))
  }

  function JoinLines(lines: seq<string>): string {
    if lines == [] then "" else lines[0] + "\n" + JoinLines(lines[1..])
  }

  lemma LineTaken(s: string)
    requires s != ""
    ensures Lines(s) == [FirstLine(s)] + Lines(AfterLine(s)) && '\n' !in FirstLine(s)
  {
    hide Find;
  }

  // What getline leaves off.
  function Break(s: string): string {
    if '\n' in s then "\n" else ""
  }

  lemma LineCut(s: string)
    ensures s == FirstLine(s) + Break(s) + AfterLine(s)
    ensures Break(s) == "" ==> AfterLine(s) == ""
  {
    hide Find;
    var k := Find(s, '\n');
    if k < |s| {
      assert s == s[..k] + [s[k]] + s[k + 1..];
    } else {
      assert s[..k] == s && '\n' !in s;
    }
  }

  lemma JoinCons(line: string, lines: seq<string>)
    ensures JoinLines([line] + lines) == line + "\n" + JoinLines(lines)
  {
    assert ([line] + lines)[1..] == lines;
  }

  // Ended by a newline.
  function Ended(s: string): string {
    if s == "" || s[|s| - 1] == '\n' then s else s + "\n"
  }

  lemma EndedLine(first: string, br: string, rest: string)
    requires '\n' !in first && first + br + rest != ""
    requires br == "\n" || (br == "" && rest == "")
    ensures Ended(first + br + rest) == first + "\n" + Ended(rest)
  {
    var s := first + br + rest;
    if br == "" {
      assert s == first && first[|first| - 1] != '\n';
    } else if rest == "" {
      assert s == first + "\n" && s[|s| - 1] == '\n';
    } else {
      assert s[|s| - 1] == rest[|rest| - 1];
      assert first + "\n" + (rest + "\n") == s + "\n";
    }
  }

  lemma HeadingLeft(s: string)
    ensures DataLines(s) == if s == "" then [] else Lines(AfterLine(s))
  {
  }

  /** getline gives the text back, line by line: none holds a newline, and each is followed by
      one, except perhaps the last. The data lines are all but the first. */
  lemma {:induction false} LinesExactly(s: string)
    ensures forall i :: 0 <= i < |Lines(s)| ==> '\n' !in Lines(s)[i]
    ensures JoinLines(Lines(s)) == if s == "" || s[|s| - 1] == '\n' then s else s + "\n"
    ensures DataLines(s) == if s == "" then [] else Lines(s)[1..]
    decreases |s|
  {
    HeadingLeft(s);
    if s != "" {
      LineTaken(s);
      LineCut(s);
      hide Lines, JoinLines, FirstLine, AfterLine, DataLines, Break;
      LinesExactly(AfterLine(s));
      JoinCons(FirstLine(s), Lines(AfterLine(s)));
      EndedLine(FirstLine(s), Break(s), AfterLine(s));
    }
  }

  function WordLength(s: string): (k: nat)
    ensures k <= |s|
    ensures forall i :: 0 <= i < k ==> !IsSpace(s[i])
    ensures k < |s| ==> IsSpace(s[k])
  {
    if s == "" || IsSpace(s[0]) then 0 else 1 + WordLength(s[1..])
  }

  // stream >> word: the word is empty if there is none left.
  function Word(s: string): string {
    var t := SkipSpaces(s);
    t[..WordLength(t)]
  }

  function AfterWord(s: string): string {
    var t := SkipSpaces(s);
    t[WordLength(t)..]
  }

  // The remote address of a line; none if the line is skipped.
  function RowIp(line: string): Option<Result<string, ParseError>> {
    if line == "" then None
    else
      var tail := AfterWord(AfterWord(line));
      var remote, state := Word(tail), Word(AfterWord(tail));
      var colon := Find(remote, ':');
      if remote == "" || state == "" || colon == |remote| then None else Some(IpOf(remote[..colon]))
  }

  type Counts = map<string, nat>

  function Get(counts: Counts, ip: string): nat {
    if ip in counts then counts[ip] else 0
  }

  function Aggregate(counts: Counts, lines: seq<string>): Result<Counts, ParseError>
    decreases |lines|
  {
    if lines == [] then Ok(counts)
    else
      match RowIp(lines[0])
      case None => Aggregate(counts, lines[1..])
      case Some(Ok(ip)) => Aggregate(counts[ip := Get(counts, ip) + 1], lines[1..])
      case Some(Err(e)) => Err(e)
  }

  // ---------- What a line counts for ----------

  predicate IsBlank(c: char) {
    c in {' ', '\t', '\n', '\U{000B}', '\U{000C}', '\r'}
  }

  // The words of a line, character by character from its end.
  function Words(s: string): (ws: seq<string>)
    ensures s != "" && !IsBlank(s[0]) ==> ws != []
  {
    if s == "" then []
    else
      var ws := Words(s[1..]);
      if IsBlank(s[0]) then ws
      else if s[1..] == "" || IsBlank(s[1]) then [[s[0]]] + ws
      else [[s[0]] + ws[0]] + ws[1..]
  }

  lemma {:induction false} WordsSkip(s: string)
    ensures Words(SkipSpaces(s)) == Words(s)
  {
    if s != "" && IsSpace(s[0]) {
      WordsSkip(s[1..]);
    }
  }

  lemma {:induction false} WordsFirst(t: string)
    requires t != "" && !IsSpace(t[0])
    ensures WordLength(t) > 0 && Words(t) == [t[..WordLength(t)]] + Words(t[WordLength(t)..])
  {
    var k, rest := WordLength(t), t[1..];
    assert k == 1 + WordLength(rest);
    if rest == "" || IsSpace(rest[0]) {
      assert WordLength(rest) == 0 && t[..k] == [t[0]] && t[k..] == rest;
    } else {
      WordsFirst(rest);
      assert [t[0]] + rest[..k - 1] == t[..k] && rest[k - 1..] == t[k..];
    }
  }

  // Taking words off one by one.
  lemma NextWord(s: string)
    ensures Words(s) == if Word(s) == "" then [] else [Word(s)] + Words(AfterWord(s))
  {
    WordsSkip(s);
    var t := SkipSpaces(s);
    if t != "" { WordsFirst(t); }
  }

  /** A line counts if and only if it has four words or more and the third has a colon, and then
      for the address that the third word has before its first colon. */
  lemma RowExactly(line: string)
    ensures RowIp(line)
            == if |Words(line)| >= 4 && ':' in Words(line)[2]
               then Some(IpOf(Words(line)[2][..Find(Words(line)[2], ':')])) else None
  {
    var s1, s2 := AfterWord(line), AfterWord(AfterWord(line));
    NextWord(line);
    NextWord(s1);
    NextWord(s2);
    NextWord(AfterWord(s2));
    NothingMore(line);
    NothingMore(s1);
    NothingMore(s2);
    ColonFound(Word(s2));
    assert line == "" ==> Words(line) == [];
    hide Word, AfterWord, Words, IpOf, Find;
  }

  // After the last word there is none.
  lemma NothingMore(s: string)
    ensures Word(s) == "" ==> Word(AfterWord(s)) == ""
  {
    var t := SkipSpaces(s);
    if WordLength(t) == 0 { assert t == ""; }
  }

  lemma ColonFound(s: string)
    ensures ':' in s <==> Find(s, ':') < |s|
  {
  }

  // ---------- What is counted ----------

  // The addresses of the lines that are not skipped.
  function Rows(lines: seq<string>): seq<string> {
    if lines == [] then []
    else
      match RowIp(lines[0])
      case Some(Ok(ip)) => [ip] + Rows(lines[1..])
      case _ => Rows(lines[1..])
  }

  predicate AllReadable(lines: seq<string>) {
    forall i :: 0 <= i < |lines| ==> RowIp(lines[i]) != Some(Err(InvalidArgument))
  }

  // One entry per address, its multiplicity.
  function CountsOf(ips: multiset<string>): Counts {
    map ip | ip in ips :: ips[ip]
  }

  lemma CountOne(ips: multiset<string>, ip: string)
    ensures CountsOf(ips)[ip := Get(CountsOf(ips), ip) + 1] == CountsOf(ips + multiset{ip})
  {
  }

  lemma SkippedRow(lines: seq<string>)
    requires lines != [] && RowIp(lines[0]).None?
    ensures Rows(lines) == Rows(lines[1..]) && (AllReadable(lines) <==> AllReadable(lines[1..]))
  {
    hide RowIp;
  }

  lemma TakenRow(lines: seq<string>, ip: string)
    requires lines != [] && RowIp(lines[0]) == Some(Ok(ip))
    ensures Rows(lines) == [ip] + Rows(lines[1..]) && (AllReadable(lines) <==> AllReadable(lines[1..]))
  {
    hide RowIp;
  }

  lemma CountedRow(ips: multiset<string>, ip: string, rest: seq<string>)
    ensures ips + multiset{ip} + multiset(rest) == ips + multiset([ip] + rest)
  {
  }

  lemma {:induction false} AggregateCounts(ips: multiset<string>, lines: seq<string>)
    ensures Aggregate(CountsOf(ips), lines)
            == if AllReadable(lines) then Ok(CountsOf(ips + multiset(Rows(lines)))) else Err(InvalidArgument)
    decreases |lines|
  {
    hide RowIp, CountsOf, Get, Rows, AllReadable;
    if lines == [] {
      NothingToRead(ips);
    } else {
      match RowIp(lines[0])
      case None =>
        SkippedRow(lines);
        AggregateCounts(ips, lines[1..]);
      case Some(Ok(ip)) =>
        CountOne(ips, ip);
        TakenRow(lines, ip);
        CountedRow(ips, ip, Rows(lines[1..]));
        AggregateCounts(ips + multiset{ip}, lines[1..]);
      case Some(Err(e)) => BadRow(lines, e);
    }
  }

  lemma NothingToRead(ips: multiset<string>)
    ensures AllReadable([]) && ips + multiset(Rows([])) == ips
  {
  }

  lemma BadRow(lines: seq<string>, e: ParseError)
    requires lines != [] && RowIp(lines[0]) == Some(Err(e))
    ensures !AllReadable(lines) && e == InvalidArgument
  {
  }

  // From nothing.
  lemma FromNothing(lines: seq<string>)
    ensures Aggregate(map[], lines)
            == if AllReadable(lines) then Ok(CountsOf(multiset(Rows(lines)))) else Err(InvalidArgument)
  {
    AggregateCounts(multiset{}, lines);
    assert CountsOf(multiset{}) == map[] && multiset{} + multiset(Rows(lines)) == multiset(Rows(lines));
  }

  lemma {:induction false} RowsConcat(a: seq<string>, b: seq<string>)
    ensures Rows(a + b) == Rows(a) + Rows(b)
  {
    if a == [] {
      assert a + b == b;
    } else {
      assert (a + b)[1..] == a[1..] + b;
      RowsConcat(a[1..], b);
    }
  }

  lemma RowsAround(before: seq<string>, line: string, after: seq<string>)
    ensures multiset(Rows(before + ([line] + after))) == multiset(Rows([line])) + multiset(Rows(before + after))
  {
    RowsConcat(before, [line] + after);
    RowsConcat([line], after);
    RowsConcat(before, after);
    hide Rows;
  }

  lemma LinesAround(before: seq<string>, line: string, after: seq<string>)
    ensures multiset(before + ([line] + after)) == multiset{line} + multiset(before + after)
  {
  }

  lemma Around(lines: seq<string>, i: nat)
    requires i < |lines|
    ensures lines == lines[..i] + ([lines[i]] + lines[i + 1..])
  {
  }

  // The lines without line i.
  lemma RowsWithout(lines: seq<string>, i: nat)
    requires i < |lines|
    ensures multiset(Rows(lines)) == multiset(Rows([lines[i]])) + multiset(Rows(lines[..i] + lines[i + 1..]))
    ensures multiset(lines) == multiset{lines[i]} + multiset(lines[..i] + lines[i + 1..])
  {
    hide Rows;
    var before, line, after := lines[..i], lines[i], lines[i + 1..];
    Around(lines, i);
    RowsAround(before, line, after);
    LinesAround(before, line, after);
  }

  lemma TakeAway(whole: multiset<string>, one: string, rest: multiset<string>, other: multiset<string>)
    requires whole == multiset{one} + rest && whole == multiset{one} + other
    ensures rest == other
  {
    assert rest == whole - multiset{one} == other;
  }

  // The other lines are permuted too.
  lemma RestPermuted(a: seq<string>, b: seq<string>, i: nat)
    requires multiset(a) == multiset(b) && a != [] && i < |b| && b[i] == a[0]
    ensures multiset(a[..0] + a[1..]) == multiset(b[..i] + b[i + 1..])
  {
    Around(a, 0);
    LinesAround(a[..0], a[0], a[1..]);
    Around(b, i);
    LinesAround(b[..i], b[i], b[i + 1..]);
    TakeAway(multiset(a), a[0], multiset(a[..0] + a[1..]), multiset(b[..i] + b[i + 1..]));
  }

  lemma {:induction false} RowsPermuted(a: seq<string>, b: seq<string>)
    requires multiset(a) == multiset(b)
    ensures multiset(Rows(a)) == multiset(Rows(b))
    decreases |a|
  {
    hide Rows;
    if a == [] {
      assert |b| == |multiset(b)| == 0;
    } else {
      assert a[0] in multiset(b);
      var i :| 0 <= i < |b| && b[i] == a[0];
      RestPermuted(a, b, i);
      RowsWithout(a, 0);
      RowsWithout(b, i);
      RowsPermuted(a[..0] + a[1..], b[..i] + b[i + 1..]);
    }
  }

  /** The counts do not depend on the order of the lines, and neither does a failure. */
  lemma OrderIndependent(a: seq<string>, b: seq<string>)
    requires multiset(a) == multiset(b)
    ensures Aggregate(map[], a) == Aggregate(map[], b)
  {
    hide Aggregate, Rows, RowIp;
    RowsPermuted(a, b);
    FromNothing(a);
    FromNothing(b);
    forall i | 0 <= i < |a| ensures a[i] in b { assert a[i] in multiset(b); }
    forall i | 0 <= i < |b| ensures b[i] in a { assert b[i] in multiset(a); }
  }

  // ---------- Reading what the kernel prints ----------

  // A remote address: of /proc/net/tcp, or the four words of one of /proc/net/tcp6.
  datatype Remote = V4(address: Address) | V6(w0: nat, w1: nat, w2: nat, w3: nat)

  // 8 digits, or four times 8.
  function AddressText(r: Remote): string {
    match r
    case V4(address) => PrintHex(LittleEndian(address), HEX_LENGTH)
    case V6(w0, w1, w2, w3) =>
      PrintHex(w0, HEX_LENGTH) + PrintHex(w1, HEX_LENGTH) + PrintHex(w2, HEX_LENGTH) + PrintHex(w3, HEX_LENGTH)
  }

  // The text an address is counted under.
  function CountedAs(r: Remote): string {
    match r
    case V4(address) => Dotted(address)
    case V6(_, _, _, _) => "0.0.0.0"
  }

  // One line of either file: slot, local end, remote end, state, and columns not looked at.
  datatype Connection = Connection(slot: string, local: string, remote: Remote, port: string, state: string,
                                   others: string)

  predicate IsWord(s: string) {
    s != "" && forall i :: 0 <= i < |s| ==> !IsSpace(s[i])
  }

  predicate IsConnection(c: Connection) {
    && IsWord(c.slot) && IsWord(c.local) && IsWord(c.port) && IsWord(c.state)
    && '\n' !in c.others && (c.others != "" ==> IsSpace(c.others[0]))
  }

  function RemoteText(c: Connection): string {
    AddressText(c.remote) + ":" + c.port
  }

  function PrintLine(c: Connection): string {
    " " + c.slot + (" " + c.local + (" " + RemoteText(c) + (" " + c.state + c.others)))
  }

  lemma WordLengthIs(s: string, k: nat)
    requires k <= |s| && (forall i :: 0 <= i < k ==> !IsSpace(s[i])) && (k < |s| ==> IsSpace(s[k]))
    ensures WordLength(s) == k
  {
  }

  lemma WordReadBack(word: string, rest: string)
    requires IsWord(word) && (rest != "" ==> IsSpace(rest[0]))
    ensures Word(" " + word + rest) == word && AfterWord(" " + word + rest) == rest
  {
    var s := " " + word + rest;
    assert s[1..] == word + rest;
    assert SkipSpaces(s) == SkipSpaces(s[1..]) == word + rest;
    WordLengthIs(word + rest, |word|);
    assert (word + rest)[..|word|] == word && (word + rest)[|word|..] == rest;
  }

  lemma {:induction false} HexIsWord(v: nat, digits: nat)
    ensures forall i :: 0 <= i < digits ==> !IsSpace(PrintHex(v, digits)[i]) && PrintHex(v, digits)[i] != ':'
  {
    if digits == 0 {
    } else {
      HexIsWord(v / 16, digits - 1);
      assert HexValue(HexChar(v % 16)).Some? by { HexDigit(v % 16); }
    }
  }

  lemma AddressIsWord(r: Remote)
    ensures |AddressText(r)| == if r.V4? then HEX_LENGTH else 4 * HEX_LENGTH
    ensures forall i :: 0 <= i < |AddressText(r)| ==> !IsSpace(AddressText(r)[i]) && AddressText(r)[i] != ':'
  {
    hide PrintHex;
    match r
    case V4(address) => HexIsWord(LittleEndian(address), HEX_LENGTH);
    case V6(w0, w1, w2, w3) =>
      HexIsWord(w0, HEX_LENGTH);
      HexIsWord(w1, HEX_LENGTH);
      HexIsWord(w2, HEX_LENGTH);
      HexIsWord(w3, HEX_LENGTH);
  }

  lemma AddressReadBack(r: Remote)
    ensures IpOf(AddressText(r)) == Ok(CountedAs(r))
  {
    AddressIsWord(r);
    hide PrintHex, ByteOf, Dotted;
    if r.V4? {
      hide IpOf;
      AddressRoundTrip(r.address);
    }
  }

  lemma CountedText(r: Remote)
    ensures if r.V4? then IsTextOf(CountedAs(r), r.address) else CountedAs(r) == "0.0.0.0"
  {
    hide IsTextOf, Dotted;
    if r.V4? { DottedIsText(r.address); }
  }

  lemma RemoteReadBack(c: Connection)
    requires IsConnection(c)
    ensures IsWord(RemoteText(c)) && Find(RemoteText(c), ':') == |AddressText(c.remote)| < |RemoteText(c)|
    ensures IpOf(RemoteText(c)[..|AddressText(c.remote)|]) == Ok(CountedAs(c.remote))
  {
    hide AddressText, IpOf, CountedAs;
    AddressIsWord(c.remote);
    FindIs(RemoteText(c), ':', |AddressText(c.remote)|);
    AddressReadBack(c.remote);
    assert RemoteText(c)[..|AddressText(c.remote)|] == AddressText(c.remote);
  }

  /** A line as the kernel prints it counts for its address in /proc/net/tcp, in dotted decimal,
      and for 0.0.0.0 in /proc/net/tcp6. */
  lemma LineReadBack(c: Connection)
    requires IsConnection(c)
    ensures RowIp(PrintLine(c)) == Some(Ok(CountedAs(c.remote)))
    ensures if c.remote.V4? then IsTextOf(CountedAs(c.remote), c.remote.address) else CountedAs(c.remote) == "0.0.0.0"
  {
    CountedText(c.remote);
    hide IsTextOf;
    hide Word, AfterWord, RemoteText, CountedAs, IpOf;
    var afterRemote := " " + c.state + c.others;
    var afterLocal := " " + RemoteText(c) + afterRemote;
    var afterSlot := " " + c.local + afterLocal;
    assert PrintLine(c) == " " + c.slot + afterSlot;
    RemoteReadBack(c);
    WordReadBack(c.slot, afterSlot);
    WordReadBack(c.local, afterLocal);
    WordReadBack(RemoteText(c), afterRemote);
    WordReadBack(c.state, c.others);
  }

  function PrintLines(cs: seq<Connection>): string {
    if cs == [] then "" else PrintLine(cs[0]) + "\n" + PrintLines(cs[1..])
  }

  // The whole file.
  function PrintTable(heading: string, cs: seq<Connection>): string {
    heading + "\n" + PrintLines(cs)
  }

  function RemoteIps(cs: seq<Connection>): seq<string> {
    seq(|cs|, i requires 0 <= i < |cs| => CountedAs(cs[i].remote))
  }

  lemma LineSplit(line: string, rest: string)
    requires '\n' !in line
    ensures FirstLine(line + "\n" + rest) == line && AfterLine(line + "\n" + rest) == rest
  {
    var s := line + "\n" + rest;
    FindIs(s, '\n', |line|);
    assert s[..|line|] == line && s[|line| + 1..] == rest;
  }

  lemma LineHasNoBreak(c: Connection)
    requires IsConnection(c)
    ensures '\n' !in PrintLine(c)
  {
    RemoteReadBack(c);
    hide RemoteText;
    assert IsSpace('\n');
    assert forall w: string :: IsWord(w) ==> '\n' !in w;
  }

  lemma OneMoreLine(c: Connection, more: string)
    requires IsConnection(c)
    ensures Lines(PrintLine(c) + "\n" + more) == [PrintLine(c)] + Lines(more)
  {
    LineHasNoBreak(c);
    hide PrintLine, IsConnection, FirstLine, AfterLine;
    LineSplit(PrintLine(c), more);
  }

  lemma RowsCons(line: string, lines: seq<string>, ip: string)
    requires RowIp(line) == Some(Ok(ip))
    ensures Rows([line] + lines) == [ip] + Rows(lines)
    ensures AllReadable(lines) ==> AllReadable([line] + lines)
  {
    hide RowIp;
    assert ([line] + lines)[1..] == lines;
  }

  lemma {:induction false} LinesReadBack(cs: seq<Connection>)
    requires forall i :: 0 <= i < |cs| ==> IsConnection(cs[i])
    ensures AllReadable(Lines(PrintLines(cs))) && Rows(Lines(PrintLines(cs))) == RemoteIps(cs)
  {
    hide PrintLine, RowIp, IsConnection, CountedAs, AllReadable, Lines, Rows;
    if cs == [] {
      NoLines();
    } else {
      LinesReadBack(cs[1..]);
      LineReadBack(cs[0]);
      OneMoreLine(cs[0], PrintLines(cs[1..]));
      RowsCons(PrintLine(cs[0]), Lines(PrintLines(cs[1..])), CountedAs(cs[0].remote));
      assert RemoteIps(cs) == [CountedAs(cs[0].remote)] + RemoteIps(cs[1..]);
    }
  }

  lemma NoLines()
    ensures AllReadable(Lines("")) && Rows(Lines("")) == []
  {
  }

  lemma TableLines(heading: string, cs: seq<Connection>)
    requires '\n' !in heading && forall i :: 0 <= i < |cs| ==> IsConnection(cs[i])
    ensures AllReadable(DataLines(PrintTable(heading, cs))) && Rows(DataLines(PrintTable(heading, cs))) == RemoteIps(cs)
  {
    LineSplit(heading, PrintLines(cs));
    LinesReadBack(cs);
  }

  /** A file as the kernel prints it gives each remote address its number of connections. */
  lemma TableReadBack(heading: string, cs: seq<Connection>)
    requires '\n' !in heading && forall i :: 0 <= i < |cs| ==> IsConnection(cs[i])
    ensures Aggregate(map[], DataLines(PrintTable(heading, cs))) == Ok(CountsOf(multiset(RemoteIps(cs))))
  {
    TableLines(heading, cs);
    FromNothing(DataLines(PrintTable(heading, cs)));
  }

  /** So a /proc/net/tcp6 file counts all its connections for 0.0.0.0. */
  lemma LongAddressesCountTogether(heading: string, cs: seq<Connection>)
    requires '\n' !in heading && forall i :: 0 <= i < |cs| ==> IsConnection(cs[i]) && cs[i].remote.V6?
    ensures Aggregate(map[], DataLines(PrintTable(heading, cs))) == Ok(CountsOf(multiset{}["0.0.0.0" := |cs|]))
  {
    hide Aggregate, DataLines, PrintTable;
    TableReadBack(heading, cs);
    SameTexts(RemoteIps(cs), NO_ADDRESS);
  }

  lemma {:induction false} SameTexts(texts: seq<string>, text: string)
    requires forall i :: 0 <= i < |texts| ==> texts[i] == text
    ensures multiset(texts) == multiset{}[text := |texts|]
  {
    if texts == [] {
    } else {
      SameTexts(texts[..|texts| - 1], text);
      assert texts == texts[..|texts| - 1] + [text];
    }
  }

  // The end of a connection from the address ::n, for a small n.
  function FromLong(n: nat): Connection {
    Connection("0:", "L", V6(0, 0, 0, n), "0050", "01", "")
  }

  /** Two lines printed from different addresses, with different texts, that count as one. */
  lemma LongAddressesMerge()
    ensures IsConnection(FromLong(1)) && IsConnection(FromLong(2))
    ensures |AddressText(FromLong(1).remote)| == |AddressText(FromLong(2).remote)| == 32
    ensures AddressText(FromLong(1).remote) != AddressText(FromLong(2).remote)
    ensures RowIp(PrintLine(FromLong(1))) == RowIp(PrintLine(FromLong(2))) == Some(Ok("0.0.0.0"))
  {
    hide AddressText, PrintLine, RowIp;
    LastDigit(0, 0, 0, 1);
    LastDigit(0, 0, 0, 2);
    LineReadBack(FromLong(1));
    LineReadBack(FromLong(2));
  }

  lemma LastDigit(w0: nat, w1: nat, w2: nat, w3: nat)
    ensures |AddressText(V6(w0, w1, w2, w3))| == 32 && AddressText(V6(w0, w1, w2, w3))[31] == HexChar(w3 % 16)
  {
    hide PrintHex, HexChar;
    LastDigitPrinted(w3, HEX_LENGTH);
  }

  // ---------- The program ----------

  class ConnectionCounts {
    var perRemoteIp: Counts

    constructor ()
      ensures perRemoteIp == map[]
    {
      perRemoteIp := map[];
    }
  }

  method GetLine(s: string) returns (line: string, rest: string)
    ensures line == FirstLine(s) && rest == AfterLine(s)
  {
    var k := FindFirst(s, '\n');
    line := s[..k];
    rest := if k == |s| then "" else s[k + 1..];
  }

  method Extract(s: string) returns (word: string, rest: string)
    ensures word == Word(s) && rest == AfterWord(s)
  {
    rest := s;
    while rest != "" && IsSpace(rest[0])
      invariant SkipSpaces(rest) == SkipSpaces(s)
      decreases |rest|
    {
      rest := rest[1..];
    }
    var k := 0;
    while k < |rest| && !IsSpace(rest[k])
      invariant k <= |rest| && forall i :: 0 <= i < k ==> !IsSpace(rest[i])
    {
      k := k + 1;
    }
    WordLengthIs(rest, k);
    word, rest := rest[..k], rest[k..];
  }

  // One line: the address to count, if any.
  method ReadLine(curLine: string) returns (ip: Option<Result<string, ParseError>>)
    ensures ip == RowIp(curLine)
  {
    hide Word, AfterWord, IpOf;
    if curLine == "" {
      return None;
    }
    var sl, afterSl := Extract(curLine);
    var local, afterLocal := Extract(afterSl);
    var remote, afterRemote := Extract(afterLocal);
    var state, _ := Extract(afterRemote);
    if remote == "" || state == "" {
      return None;
    }
    var colon := FindFirst(remote, ':');
    if colon == |remote| {
      return None;
    }
    var address := HexToIP(remote[..colon]);
    ip := Some(address);
  }

  /** Adds the connections of one file to the counts passed by reference. */
  method ParseProcTCP(content: string, counts: ConnectionCounts) returns (thrown: bool)
    modifies counts
    ensures match Aggregate(old(counts.perRemoteIp), DataLines(content))
            case Ok(sum) => !thrown && counts.perRemoteIp == sum
            case Err(_) => thrown
  {
    hide RowIp, FirstLine, AfterLine;
    if content == "" {
      return false;
    }
    var heading, iss := GetLine(content);
    while iss != ""
      invariant Aggregate(counts.perRemoteIp, Lines(iss)) == Aggregate(old(counts.perRemoteIp), DataLines(content))
      decreases |iss|
    {
      ghost var before := iss;
      var curLine: string;
      AfterLineShorter(iss);
      curLine, iss := GetLine(iss);
      assert Lines(before) == [curLine] + Lines(iss) && Lines(before)[1..] == Lines(iss);
      var row := ReadLine(curLine);
      match row
      case None =>
      case Some(Ok(ip)) =>
        counts.perRemoteIp := counts.perRemoteIp[ip := Get(counts.perRemoteIp, ip) + 1];
      case Some(Err(_)) => return true;
    }
    thrown := false;
  }

  lemma AfterLineShorter(s: string)
    requires s != ""
    ensures |AfterLine(s)| < |s|
  {
  }

  lemma {:induction false} AggregateConcat(counts: Counts, a: seq<string>, b: seq<string>)
    ensures Aggregate(counts, a + b)
            == match Aggregate(counts, a) case Ok(sum) => Aggregate(sum, b) case Err(e) => Err(e)
    decreases |a|
  {
    hide RowIp, Get;
    if a == [] {
      assert a + b == b;
    } else {
      assert (a + b)[1..] == a[1..] + b && (a + b)[0] == a[0];
      match RowIp(a[0])
      case None => AggregateConcat(counts, a[1..], b);
      case Some(Ok(ip)) => AggregateConcat(counts[ip := Get(counts, ip) + 1], a[1..], b);
      case Some(Err(e)) =>
    }
  }

  /** Both files together. */
  method GetTcpConnectionNum(tcp: string, tcp6: string) returns (r: Result<Counts, ParseError>)
    ensures r == Aggregate(map[], DataLines(tcp) + DataLines(tcp6))
  {
    var aggregated := new ConnectionCounts();
    AggregateConcat(map[], DataLines(tcp), DataLines(tcp6));
    FromNothing(DataLines(tcp) + DataLines(tcp6));
    var thrown := ParseProcTCP(tcp, aggregated);
    if !thrown {
      thrown := ParseProcTCP(tcp6, aggregated);
    }
    r := if thrown then Err(InvalidArgument) else Ok(aggregated.perRemoteIp);
  }
}
