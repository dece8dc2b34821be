/** The wire form of a chain of responses, one header section per redirect, and the proof that
    folding it through the header callback gives the sections back. */
module HeaderRoundTrip {
  import opened Strings
  import opened Wrappers
  import opened RequestInfo

  // A field line: the name, a colon, and the text after the colon.
  datatype Field = Field(name: string, text: string)

  datatype Section = Section(status: string, fields: seq<Field>)

  const CRLF := "\r\n"

  // Section 5 of RFC 9112: a field name is a token, so it holds neither ':' nor '/'.
  predicate IsLegal(f: Field) {
    ':' !in f.name && '/' !in f.name
  }

  predicate IsField(f: Field) {
    IsLegal(f) && f.text != ""
  }

  // Section 4 of RFC 9112: the reason phrase may hold a colon.
  predicate IsStatus(status: string) {
    "HTTP/" <= status
  }

  // Its first colon, if it has one, is not its last character.
  predicate IsReadable(status: string) {
    Find(status, ':') + 1 != |status|
  }

  predicate IsSection(s: Section) {
    IsStatus(s.status) && IsReadable(s.status) && forall i :: 0 <= i < |s.fields| ==> IsField(s.fields[i])
  }

  predicate AreSections(ss: seq<Section>) {
    forall i :: 0 <= i < |ss| ==> IsSection(ss[i])
  }

  // As far as HTTP goes, a field may have no text and a status line may end in its first colon.
  predicate AreLegal(ss: seq<Section>) {
    && (forall i :: 0 <= i < |ss| ==> IsStatus(ss[i].status))
    && (forall i, j :: 0 <= i < |ss| && 0 <= j < |ss[i].fields| ==> IsLegal(ss[i].fields[j]))
  }

  function PrintField(f: Field): Chunk {
    HeaderLine(f.name + ":" + f.text + CRLF)
  }

  function PrintFields(fs: seq<Field>): seq<Chunk> {
    seq(|fs|, i requires 0 <= i < |fs| => PrintField(fs[i]))
  }

  function PrintSection(s: Section): seq<Chunk> {
    [HeaderLine(s.status + CRLF)] + PrintFields(s.fields) + [HeaderLine(CRLF)]
  }

  function PrintAll(ss: seq<Section>): seq<Chunk> {
    if ss == [] then [] else PrintAll(ss[..|ss| - 1]) + PrintSection(ss[|ss| - 1])
  }

  // The pairs a section stands for: one leading space of the text is not part of the value.
  function Pairs(fs: seq<Field>): Headers {
    seq(|fs|, i requires 0 <= i < |fs| => Header(fs[i].name, StripSpace(fs[i].text)))
  }

  // A status line with a colon is taken apart like a field, besides.
  function StatusPairs(status: string): Headers {
    var colon := Find(status, ':');
    if colon == |status| then [] else [Header(status[..colon], StripSpace(status[colon + 1..]))]
  }

  function Block(s: Section): Headers {
    [Header("__RESPONSE_STATUS__", s.status)] + (StatusPairs(s.status) + Pairs(s.fields))
  }

  function Blocks(ss: seq<Section>): seq<Headers> {
    seq(|ss|, i requires 0 <= i < |ss| => Block(ss[i]))
  }

  lemma TrimPrinted(s: string)
    ensures TrimEol(s + CRLF) == s
  {
    assert (s + CRLF)[..|s + CRLF| - 1] == s + "\r";
    assert (s + "\r")[..|s|] == s;
  }

  lemma FieldAbsorbed(info: Info, f: Field)
    requires IsField(f) && info.headers != []
    ensures Absorb(info, PrintField(f)) == Ok(info.(headers := Extend(info.headers, Pairs([f]))))
  {
    var line := f.name + ":" + f.text;
    TrimPrinted(line);
    assert line + CRLF == PrintField(f).text;
    assert line[..|f.name|] == f.name && line[|f.name| + 1..] == f.text;
    FindIs(line, ':', |f.name|);
    assert !("HTTP/" <= line) by {
      assert |f.name| >= 5 ==> line[4] == f.name[4] != '/';
      assert |f.name| < 5 ==> line[|f.name|] == ':' != "HTTP/"[|f.name|];
    }
    var last := |info.headers| - 1;
    assert info.headers[last := info.headers[last] + Pairs([f])] == Extend(info.headers, Pairs([f]));
    assert Pairs([f]) == [Header(f.name, StripSpace(f.text))];
  }

  // A block whose last entry is extended twice is extended by the concatenation.
  lemma ExtendTwice(blocks: seq<Headers>, a: Headers, b: Headers)
    requires blocks != []
    ensures Extend(Extend(blocks, a), b) == Extend(blocks, a + b)
  {
    assert Extend(blocks, a)[|blocks| - 1] + b == blocks[|blocks| - 1] + (a + b);
  }

  function Extend(blocks: seq<Headers>, more: Headers): (r: seq<Headers>)
    requires blocks != []
    ensures r != []
  {
    blocks[..|blocks| - 1] + [blocks[|blocks| - 1] + more]
  }

  lemma {:induction false} FieldsAbsorbed(info: Info, fs: seq<Field>)
    requires info.headers != []
    requires forall i :: 0 <= i < |fs| ==> IsField(fs[i])
    ensures AbsorbAll(info, PrintFields(fs)) == Ok(info.(headers := Extend(info.headers, Pairs(fs))))
  {
    if fs == [] {
      var last := info.headers[|info.headers| - 1];
      assert last + Pairs(fs) == last;
      assert Extend(info.headers, Pairs(fs)) == info.headers;
    } else {
      var init, f := fs[..|fs| - 1], fs[|fs| - 1];
      FieldsAbsorbed(info, init);
      var before := info.(headers := Extend(info.headers, Pairs(init)));
      FieldAbsorbed(before, f);
      AbsorbAllStep(info, PrintFields(init), PrintField(f));
      ExtendTwice(info.headers, Pairs(init), Pairs([f]));
      FieldsSnoc(fs);
    }
  }

  lemma FieldsSnoc(fs: seq<Field>)
    requires fs != []
    ensures var init, f := fs[..|fs| - 1], fs[|fs| - 1];
            && PrintFields(fs) == PrintFields(init) + [PrintField(f)]
            && Pairs(fs) == Pairs(init) + Pairs([f])
  {
  }

  lemma SectionAbsorbed(info: Info, s: Section)
    requires IsSection(s)
    ensures AbsorbAll(info, PrintSection(s)) == Ok(info.(headers := info.headers + [Block(s)]))
  {
    hide AbsorbAll, StatusPairs, Pairs;
    var status, blank := HeaderLine(s.status + CRLF), HeaderLine(CRLF);
    var first := [Header(STATUS_KEY, s.status)] + StatusPairs(s.status);
    var started := info.(headers := info.headers + [first]);
    StatusAbsorbed(info, s.status);
    FieldsAbsorbed(started, s.fields);
    AbsorbAllConcat(info, [status], PrintFields(s.fields));
    assert first + Pairs(s.fields) == Block(s);
    assert Extend(started.headers, Pairs(s.fields)) == info.headers + [Block(s)];
    var whole := info.(headers := info.headers + [Block(s)]);
    AbsorbAllStep(info, [status] + PrintFields(s.fields), blank);
    BlankAbsorbed(whole);
  }

  lemma StatusLineRead(blocks: seq<Headers>, status: string)
    requires IsStatus(status)
    ensures AbsorbHeader(blocks, status + CRLF)
            == if IsReadable(status) then Ok(blocks + [[Header(STATUS_KEY, status)] + StatusPairs(status)])
               else Err(EmptyFieldText)
  {
    TrimPrinted(status);
    var begun := blocks + [[Header(STATUS_KEY, status)]];
    assert BeginBlock(blocks, status + CRLF) == begun;
    hide Find, TrimEol;
    var more := [Header(STATUS_KEY, status)] + StatusPairs(status);
    assert begun[|blocks| := more] == blocks + [more];
    assert [Header(STATUS_KEY, status)] + [] == [Header(STATUS_KEY, status)];
  }

  /** A status line of any HTTP version begins a block, whose first pair it is. */
  lemma StatusLineBegins(blocks: seq<Headers>, rest: string)
    requires IsReadable("HTTP/" + rest)
    ensures AbsorbHeader(blocks, "HTTP/" + rest + "\r\n").Ok?
    ensures var later := AbsorbHeader(blocks, "HTTP/" + rest + "\r\n").value;
            && |later| == |blocks| + 1 && blocks <= later
            && [Header("__RESPONSE_STATUS__", "HTTP/" + rest)] <= later[|blocks|]
  {
    StatusLineRead(blocks, "HTTP/" + rest);
  }

  lemma StatusAbsorbed(info: Info, status: string)
    requires IsStatus(status) && IsReadable(status)
    ensures AbsorbAll(info, [HeaderLine(status + CRLF)])
            == Ok(info.(headers := info.headers + [[Header(STATUS_KEY, status)] + StatusPairs(status)]))
  {
    StatusLineRead(info.headers, status);
    hide AbsorbHeader, StatusPairs, IsReadable;
    AbsorbAllStep(info, [], HeaderLine(status + CRLF));
    assert [] + [HeaderLine(status + CRLF)] == [HeaderLine(status + CRLF)];
  }

  lemma BlankAbsorbed(info: Info)
    ensures Absorb(info, HeaderLine(CRLF)) == Ok(info)
  {
    TrimPrinted("");
    assert "" + CRLF == CRLF;
  }

  /** Folding k printed sections through the callback adds exactly those k blocks, whatever was
      there before, each with the pairs of its own section in the order received. */
  lemma {:induction false} SectionsRoundTrip(info: Info, ss: seq<Section>)
    requires AreSections(ss)
    ensures AbsorbAll(info, PrintAll(ss)) == Ok(info.(headers := info.headers + Blocks(ss)))
  {
    hide IsSection, PrintSection, Block;
    if ss == [] {
      assert info.headers + Blocks(ss) == info.headers;
    } else {
      var init, s := ss[..|ss| - 1], ss[|ss| - 1];
      SectionsRoundTrip(info, init);
      OneMoreSection(info, init, s);
      BlocksSnoc(ss);
    }
  }

  lemma OneMoreSection(info: Info, ss: seq<Section>, s: Section)
    requires IsSection(s) && AbsorbAll(info, PrintAll(ss)) == Ok(info.(headers := info.headers + Blocks(ss)))
    ensures AbsorbAll(info, PrintAll(ss) + PrintSection(s))
            == Ok(info.(headers := info.headers + (Blocks(ss) + [Block(s)])))
  {
    hide AbsorbAll, PrintAll, PrintSection, Block, Blocks, IsSection;
    AbsorbAllConcat(info, PrintAll(ss), PrintSection(s));
    SectionAbsorbed(info.(headers := info.headers + Blocks(ss)), s);
    assert info.headers + Blocks(ss) + [Block(s)] == info.headers + (Blocks(ss) + [Block(s)]);
  }

  lemma BlocksSnoc(ss: seq<Section>)
    requires ss != []
    ensures Blocks(ss) == Blocks(ss[..|ss| - 1]) + [Block(ss[|ss| - 1])]
  {
  }

  lemma {:induction false} WithoutAbsent(headers: Headers, name: string)
    requires forall i :: 0 <= i < |headers| ==> headers[i].name != name
    ensures Without(headers, name) == headers
  {
    if headers == [] {
    } else {
      WithoutAbsent(headers[1..], name);
    }
  }

  lemma {:induction false} BodyAbsorbed(info: Info, pieces: seq<string>)
    ensures AbsorbAll(info, PrintBody(pieces)) == Ok(info.(body := info.body + Flatten(pieces)))
  {
    if pieces == [] {
      assert info.body + Flatten(pieces) == info.body;
    } else {
      var init, p := pieces[..|pieces| - 1], pieces[|pieces| - 1];
      BodyAbsorbed(info, init);
      assert PrintBody(pieces) == PrintBody(init) + [BodyBytes(p)];
      AbsorbAllStep(info, PrintBody(init), BodyBytes(p));
      assert info.body + Flatten(init) + p == info.body + Flatten(pieces);
    }
  }

  function PrintBody(pieces: seq<string>): seq<Chunk> {
    seq(|pieces|, i requires 0 <= i < |pieces| => BodyBytes(pieces[i]))
  }

  function Flatten(pieces: seq<string>): string {
    if pieces == [] then "" else Flatten(pieces[..|pieces| - 1]) + pieces[|pieces| - 1]
  }

  // What a whole transfer leaves: a block a section, and the body pieces joined.
  lemma TransferAbsorbed(url: string, ss: seq<Section>, pieces: seq<string>)
    requires AreSections(ss)
    ensures AbsorbAll(NewInfo(url), PrintAll(ss) + PrintBody(pieces)) == Ok(Info(url, Flatten(pieces), 0, Blocks(ss)))
  {
    hide AbsorbAll, PrintAll, PrintBody, Blocks, Flatten, AreSections;
    SectionsRoundTrip(NewInfo(url), ss);
    AbsorbAllConcat(NewInfo(url), PrintAll(ss), PrintBody(pieces));
    assert [] + Blocks(ss) == Blocks(ss) && "" + Flatten(pieces) == Flatten(pieces);
    BodyAbsorbed(Info(url, "", 0, Blocks(ss)), pieces);
  }

  // The pairs of a section besides its status pseudo-header.
  function OwnPairs(s: Section): Headers {
    Without(StatusPairs(s.status) + Pairs(s.fields), "__RESPONSE_STATUS__")
  }

  lemma WithoutStatus(s: Section)
    ensures Without(Block(s), STATUS_KEY) == OwnPairs(s)
  {
    assert Block(s)[1..] == StatusPairs(s.status) + Pairs(s.fields);
    assert Block(s)[0] == Header(STATUS_KEY, s.status);
    assert Without(Block(s), STATUS_KEY) == [] + Without(Block(s)[1..], STATUS_KEY);
  }

  // All of them, unless a field bears the pseudo-header's own name.
  lemma OwnPairsKept(s: Section)
    requires IsStatus(s.status) && forall j :: 0 <= j < |s.fields| ==> s.fields[j].name != "__RESPONSE_STATUS__"
    ensures OwnPairs(s) == StatusPairs(s.status) + Pairs(s.fields)
  {
    var colon := Find(s.status, ':');
    assert s.status[0] == 'H' && STATUS_KEY[0] == '_';
    WithoutAbsent(StatusPairs(s.status) + Pairs(s.fields), STATUS_KEY);
  }

  // The error of a failed transfer that got as far as these sections.
  function LastError(ss: seq<Section>, result: nat): RequestError {
    if ss == [] then Strerror(result) else StatusLine(ss[|ss| - 1].status)
  }

  lemma BlockReports(s: Section)
    ensures HasHeader(Block(s), STATUS_KEY) && GetHeaderValue(Block(s), STATUS_KEY) == s.status
  {
    assert Block(s)[0] == Header(STATUS_KEY, s.status);
  }

  /** The two responses to a transfer through any chain of redirects, whatever its result. A
      successful one carries the pairs of the last section only, as received, and the body pieces
      joined in order; a direct one puts that section's status line in front of them, a managed
      one does not, and drops besides any field that bears the pseudo-header's name. A failed one
      carries the code, the last status line or libcurl's text, and, when managed, the url. */
  lemma ResponseRoundTrip(url: string, ss: seq<Section>, pieces: seq<string>, code: nat, result: nat)
    requires AreSections(ss)
    ensures var folded := AbsorbAll(NewInfo(url), PrintAll(ss) + PrintBody(pieces));
            && folded.Ok? && |folded.value.headers| == |ss|
            && ManagedResponse(folded.value.(code := code), result)
               == (if result != 0 then Response(code, url, "", Some(LastError(ss, result)), [])
                   else Response(code, url, Flatten(pieces), None, if ss == [] then [] else OwnPairs(ss[|ss| - 1])))
            && DirectResponse(folded.value.(code := code), result)
               == (if result != 0 then Response(code, "", "", Some(LastError(ss, result)), [])
                   else Response(code, url, Flatten(pieces), None, if ss == [] then [] else Block(ss[|ss| - 1])))
  {
    hide AbsorbAll, PrintAll, PrintBody, Flatten, AreSections, Without, Block, OwnPairs, HasHeader, GetHeaderValue;
    TransferAbsorbed(url, ss, pieces);
    if ss != [] {
      WithoutStatus(ss[|ss| - 1]);
      BlockReports(ss[|ss| - 1]);
    }
  }

  // A field with no text after its colon is legal HTTP, and the callback throws on every one.
  lemma EmptyTextThrows(blocks: seq<Headers>, name: string)
    requires ':' !in name
    ensures AbsorbHeader(blocks, name + ":" + CRLF) == Err(EmptyFieldText)
  {
    var line := name + ":";
    TrimPrinted(line);
    assert line[..|name|] == name;
    FindIs(line, ':', |name|);
  }

  // A line that always throws spoils any stream it is in.
  lemma ThrowsInside(info: Info, before: seq<Chunk>, bad: Chunk, after: seq<Chunk>)
    requires forall i: Info :: Absorb(i, bad).Err?
    ensures AbsorbAll(info, before + [bad] + after).Err?
  {
    AbsorbAllStep(info, before, bad);
    AbsorbAllConcat(info, before + [bad], after);
  }

  lemma EmptyFieldInSection(info: Info, s: Section, j: nat)
    requires j < |s.fields| && IsLegal(s.fields[j]) && s.fields[j].text == ""
    ensures AbsorbAll(info, PrintSection(s)).Err?
  {
    var before := [HeaderLine(s.status + CRLF)] + PrintFields(s.fields[..j]);
    var after := PrintFields(s.fields[j + 1..]) + [HeaderLine(CRLF)];
    assert PrintSection(s) == before + [PrintField(s.fields[j])] + after;
    forall i: Info ensures Absorb(i, PrintField(s.fields[j])).Err? {
      EmptyTextThrows(i.headers, s.fields[j].name);
      assert s.fields[j].name + ":" + "" + CRLF == s.fields[j].name + ":" + CRLF;
    }
    ThrowsInside(info, before, PrintField(s.fields[j]), after);
  }

  lemma {:induction false} EmptyFieldThrows(info: Info, ss: seq<Section>, i: nat, j: nat)
    requires i < |ss| && j < |ss[i].fields| && IsLegal(ss[i].fields[j]) && ss[i].fields[j].text == ""
    ensures AbsorbAll(info, PrintAll(ss)).Err?
  {
    hide AbsorbAll, PrintSection, IsLegal;
    var init, last := ss[..|ss| - 1], ss[|ss| - 1];
    AbsorbAllConcat(info, PrintAll(init), PrintSection(last));
    if i < |init| {
      EmptyFieldThrows(info, init, i, j);
    } else if AbsorbAll(info, PrintAll(init)).Ok? {
      EmptyFieldInSection(AbsorbAll(info, PrintAll(init)).value, last, j);
    }
  }

  lemma StatusThrowsInSection(info: Info, s: Section)
    requires IsStatus(s.status) && !IsReadable(s.status)
    ensures AbsorbAll(info, PrintSection(s)).Err?
  {
    hide AbsorbAll, AbsorbHeader, IsReadable;
    var status := HeaderLine(s.status + CRLF);
    var after := PrintFields(s.fields) + [HeaderLine(CRLF)];
    assert PrintSection(s) == [] + [status] + after;
    forall i: Info ensures Absorb(i, status).Err? {
      StatusLineRead(i.headers, s.status);
    }
    ThrowsInside(info, [], status, after);
  }

  lemma {:induction false} StatusThrows(info: Info, ss: seq<Section>, i: nat)
    requires i < |ss| && IsStatus(ss[i].status) && !IsReadable(ss[i].status)
    ensures AbsorbAll(info, PrintAll(ss)).Err?
  {
    hide AbsorbAll, PrintSection, IsReadable;
    var init, last := ss[..|ss| - 1], ss[|ss| - 1];
    AbsorbAllConcat(info, PrintAll(init), PrintSection(last));
    if i < |init| {
      StatusThrows(info, init, i);
    } else if AbsorbAll(info, PrintAll(init)).Ok? {
      StatusThrowsInSection(AbsorbAll(info, PrintAll(init)).value, last);
    }
  }

  /** The callback accepts a chain of legal header sections exactly when every field has text
      after its colon and no status line has its first colon as its last character. */
  lemma AcceptedExactly(info: Info, ss: seq<Section>)
    requires AreLegal(ss)
    ensures AbsorbAll(info, PrintAll(ss)).Ok?
            <==> && (forall i, j :: 0 <= i < |ss| && 0 <= j < |ss[i].fields| ==> ss[i].fields[j].text != "")
                 && (forall i :: 0 <= i < |ss| ==> IsReadable(ss[i].status))
  {
    hide AbsorbAll, PrintAll, IsReadable;
    if i, j :| 0 <= i < |ss| && 0 <= j < |ss[i].fields| && ss[i].fields[j].text == "" {
      EmptyFieldThrows(info, ss, i, j);
    } else if i :| 0 <= i < |ss| && !IsReadable(ss[i].status) {
      StatusThrows(info, ss, i);
    } else {
      SectionsRoundTrip(info, ss);
    }
  }

  // A status line that ends in its only colon.
  const ERROR_STATUS := "HTTP/1.1 500 Error:"

  lemma ErrorStatusUnreadable()
    ensures IsStatus(ERROR_STATUS) && !IsReadable(ERROR_STATUS)
  {
    FindIs(ERROR_STATUS, ':', |ERROR_STATUS| - 1);
  }

  /** A section without any field on which the callback throws. */
  lemma StatusColonThrows(info: Info)
    ensures AreLegal([Section(ERROR_STATUS, [])])
    ensures AbsorbAll(info, PrintAll([Section(ERROR_STATUS, [])])).Err?
  {
    hide AbsorbAll, PrintAll, IsStatus, IsReadable;
    ErrorStatusUnreadable();
    StatusThrows(info, [Section(ERROR_STATUS, [])], 0);
  }

  /** A value printed after ": " is read back unchanged, even when it starts with a space, and so
      is one printed right after the colon, unless it does. */
  lemma ValueRoundTrip(name: string, value: string)
    ensures Pairs([Field(name, " " + value)]) == [Header(name, value)]
    ensures value == "" || value[0] != ' ' ==> Pairs([Field(name, value)]) == [Header(name, value)]
  {
    assert (" " + value)[1..] == value;
  }
}
