// What one transfer relays: from the header lines and body chunks libcurl delivers to
// the frames written on the QUIC stream, and the request body and headers in the other
// direction.
module Relay {
  import opened Basics
  import opened HeaderText

  const CURLE_WRITE_ERROR: nat := 23

  // libcurl passes whole header lines, each ending in CRLF.
  type HeaderLine = s: string | |s| >= 2 && s[|s| - 2..] == CRLF witness CRLF

  datatype Input = Line(line: HeaderLine) | Body(data: Bytes)

  // A call of WriteHeaders or of WriteOrBufferBody on the stream.
  datatype Frame = HeadersFrame(block: Block, fin: bool) | BodyFrame(data: Bytes, fin: bool)

  datatype State = State(headers: Block, contentLength: nat, hadSendLength: nat)

  const INITIAL: State := State([], 0, 0)

  datatype Effect = Effect(state: State, frames: seq<Frame>, returned: nat)

  // ---------- the two callbacks, for a transfer that still has its stream ----------

  function DeclaredIn(headers: Block, default: nat): nat {
    if Has(headers, "content-length") then ParseSize(Lookup(headers, "content-length")) else default
  }

  predicate Unfinished(status: string, transferEncoding: string) {
    status == "200" || status == "100" || transferEncoding == "chunked"
  }

  function OnLine(s: State, line: HeaderLine): Effect {
    match Classify(line)
    case EndOfBlock =>
      var length := DeclaredIn(s.headers, s.contentLength);
      var fin := length == 0 && !Unfinished(Lookup(s.headers, ":status"), Lookup(s.headers, "transfer-encoding"));
      Effect(State([], length, s.hadSendLength), [HeadersFrame(s.headers, fin)], |line|)
    case NoStatus => Effect(s, [], 0)
    case parsed => Effect(s.(headers := Collect(s.headers, parsed)), [], |line|)
  }

  function OnBody(s: State, data: Bytes): Effect {
    var sent := (s.hadSendLength + |data|) % SIZE_T;
    Effect(s.(hadSendLength := sent), [BodyFrame(data, sent == s.contentLength)], |data|)
  }

  function OnInput(s: State, i: Input): Effect {
    match i
    case Line(line) => OnLine(s, line)
    case Body(data) => OnBody(s, data)
  }

  // The end of a block, exactly: the length it declares, or else the earlier one, and a fin
  // iff that is zero and nothing announces a body.
  lemma EndOfBlockLaw(s: State)
    ensures var e := OnLine(s, "\r\n");
            var length := if Has(s.headers, "content-length")
                          then ParseSize(Lookup(s.headers, "content-length")) else s.contentLength;
            && e.returned == 2 && |e.frames| == 1
            && e.state == State([], length, s.hadSendLength)
            && e.frames[0].HeadersFrame? && e.frames[0].block == s.headers
            && (e.frames[0].fin <==>
                  && length == 0
                  && Lookup(s.headers, ":status") !in ["200", "100"]
                  && Lookup(s.headers, "transfer-encoding") != "chunked")
  {
    hide ParseSize, Lookup, Has;
    LineIsClassified("", 0);
    assert "" + "\r\n" == "\r\n";
  }

  // Every line is taken whole, except a status line without a space; what is not a status or
  // a field changes nothing.
  lemma LineLaw(s: State, line: HeaderLine)
    ensures var text := line[..|line| - 2];
            var e := OnLine(s, line);
            && e.returned == (if "HTTP" <= text && ' ' !in text then 0 else |line|)
            && ("HTTP" <= text && ' ' !in text ==> e.state == s)
            && (text != "" && !("HTTP" <= text) && !HasColonSpace(text) ==> e.state == s)
            && (e.frames != [] <==> text == "")
            && e.state.hadSendLength == s.hadSendLength
  {
    var text := line[..|line| - 2];
    assert line == text + "\r\n";
    LineIsClassified(text, 0);
    if "HTTP" <= text && ' ' in text { SpaceInStatus(text); }
    hide Classify, Lookup, ParseSize, Has;
    if text != "" { NotTheEnd(text); }
  }

  lemma SpaceInStatus(text: string)
    requires "HTTP" <= text && ' ' in text
    ensures Classify(text + "\r\n").Status?
  {
    var i :| 0 <= i < |text| && text[i] == ' ' && ' ' !in text[..i] by { FirstIndex(text, ' '); }
    LineIsClassified(text, i);
  }

  lemma {:induction false} FirstIndex(s: string, c: char)
    requires c in s
    ensures exists i :: 0 <= i < |s| && s[i] == c && c !in s[..i]
  {
    var n := |s| - 1;
    if c in s[..n] {
      FirstIndex(s[..n], c);
      var i :| 0 <= i < n && s[..n][i] == c && c !in s[..n][..i];
      assert s[i] == c && s[..n][..i] == s[..i];
    } else {
      assert s == s[..n] + [s[n]];
    }
  }

  lemma NotTheEnd(text: string)
    requires text != ""
    ensures Classify(text + "\r\n") != EndOfBlock
    ensures Classify(text + "\r\n").NoStatus? ==> "HTTP" <= text && ' ' !in text
  {
    var line := text + CRLF;
    assert line[..|line| - 2] == text && line != CRLF;
    HttpIff(text);
    if "HTTP" <= text && ' ' in text { SpaceInStatus(text); }
  }

  // A chunk, exactly: taken whole, and a fin iff it brings the 64-bit count of bytes to the
  // declared length.
  lemma BodyLaw(s: State, data: Bytes)
    requires s.contentLength < SIZE_T
    ensures var e := OnBody(s, data);
            && e.returned == |data| && |e.frames| == 1
            && e.frames[0].BodyFrame? && e.frames[0].data == data
            && (e.frames[0].fin <==>
                  (s.hadSendLength + |data| - s.contentLength) % 0x1_0000_0000_0000_0000 == 0)
            && e.state == State(s.headers, s.contentLength, (s.hadSendLength + |data|) % 0x1_0000_0000_0000_0000)
  {
    SameRemainder(s.hadSendLength + |data|, s.contentLength);
  }

  lemma SameRemainder(a: nat, b: nat)
    requires b < SIZE_T
    ensures a % SIZE_T == b <==> (a - b) % SIZE_T == 0
  {
  }

  datatype Fed = Fed(state: State, frames: seq<Frame>)

  function Feed(s: State, inputs: seq<Input>): Fed
    decreases |inputs|
  {
    if inputs == [] then Fed(s, [])
    else
      var e := OnInput(s, inputs[0]);
      var rest := Feed(e.state, inputs[1..]);
      Fed(rest.state, e.frames + rest.frames)
  }

  lemma {:induction false} FeedAppend(s: State, a: seq<Input>, b: seq<Input>)
    ensures var first := Feed(s, a);
            var second := Feed(first.state, b);
            Feed(s, a + b) == Fed(second.state, first.frames + second.frames)
    decreases |a|
  {
    hide OnInput;
    if a == [] {
      assert a + b == b;
    } else {
      var e := OnInput(s, a[0]);
      var ab := a + b;
      assert ab[0] == a[0] && ab[1..] == a[1..] + b;
      FeedAppend(e.state, a[1..], b);
      var first := Feed(e.state, a[1..]);
      var second := Feed(first.state, b);
      assert Feed(s, ab) == Fed(second.state, e.frames + (first.frames + second.frames));
      assert e.frames + (first.frames + second.frames) == (e.frames + first.frames) + second.frames;
    }
  }

  lemma FeedNothing(s: State)
    ensures Feed(s, []) == Fed(s, []) && Total([]) == 0
  {
  }

  lemma FeedNext(s: State, inputs: seq<Input>)
    requires inputs != []
    ensures var e := OnInput(s, inputs[0]);
            var rest := Feed(e.state, inputs[1..]);
            Feed(s, inputs) == Fed(rest.state, e.frames + rest.frames)
  {
  }

  lemma FeedOne(s: State, a: seq<Input>, i: Input)
    ensures var first := Feed(s, a);
            var e := OnInput(first.state, i);
            Feed(s, a + [i]) == Fed(e.state, first.frames + e.frames)
  {
    FeedAppend(s, a, [i]);
    assert [i][1..] == [];
  }

  // ---------- a response as libcurl delivers it ----------

  datatype Head = Head(version: string, code: string, reason: string, fields: seq<Header>)

  datatype Response = Response(interims: seq<Head>, final: Head, chunks: seq<Bytes>)

  predicate WellFormedHead(h: Head) {
    && "HTTP" <= h.version && ' ' !in h.version
    && |h.code| == 3
    && (forall i :: 0 <= i < |h.fields| ==> Printable(h.fields[i]))
    && ValuesOf(h.fields, ":status") == []
  }

  function DeclaredLength(h: Head): nat {
    var vs := ValuesOf(h.fields, "content-length");
    if vs == [] then 0 else ParseSize(Joined("content-length", vs))
  }

  function TransferEncoding(h: Head): string {
    Joined("transfer-encoding", ValuesOf(h.fields, "transfer-encoding"))
  }

  function Total(chunks: seq<Bytes>): nat { |Concat(chunks)| }

  // What is assumed of libcurl: 100 blocks without a length, then one final block, then
  // nonempty chunks that do not exceed a declared length (section 3.3.3 of RFC 7230).
  predicate Delivered(r: Response) {
    && (forall i :: 0 <= i < |r.interims| ==>
          && WellFormedHead(r.interims[i])
          && r.interims[i].code == "100"
          && ValuesOf(r.interims[i].fields, "content-length") == [])
    && WellFormedHead(r.final)
    && (forall i :: 0 <= i < |r.chunks| ==> r.chunks[i] != [])
    && (DeclaredLength(r.final) > 0 ==> Total(r.chunks) <= DeclaredLength(r.final))
    && Total(r.chunks) < SIZE_T
  }

  function StatusLine(h: Head): string {
    h.version + " " + h.code + h.reason + CRLF
  }

  function LinesAsInputs(lines: seq<string>): seq<Input>
    requires forall i :: 0 <= i < |lines| ==> |lines[i]| >= 2 && lines[i][|lines[i]| - 2..] == CRLF
  {
    seq(|lines|, i requires 0 <= i < |lines| => Line(lines[i]))
  }

  function FieldInputs(hs: seq<Header>): seq<Input> {
    LinesAsInputs(PrintAll(hs))
  }

  function HeadInputs(h: Head): seq<Input> {
    [Line(StatusLine(h))] + FieldInputs(h.fields) + [Line(CRLF)]
  }

  function HeadsInputs(hs: seq<Head>): seq<Input> {
    if hs == [] then [] else HeadInputs(hs[0]) + HeadsInputs(hs[1..])
  }

  function BodyInputs(chunks: seq<Bytes>): seq<Input> {
    seq(|chunks|, i requires 0 <= i < |chunks| => Body(chunks[i]))
  }

  function Inputs(r: Response): seq<Input> {
    HeadsInputs(r.interims) + HeadInputs(r.final) + BodyInputs(r.chunks)
  }

  // ---------- what is written for it ----------

  function HeadBlock(h: Head): Block {
    CollectAll([Entry(":status", [h.code])], h.fields)
  }

  // More may follow: the status is 200 or 100, or the encoding is chunked.
  predicate Expecting(h: Head) {
    h.code == "200" || h.code == "100"
    || Joined("transfer-encoding", ValuesOf(h.fields, "transfer-encoding")) == "chunked"
  }

  predicate HeadFin(h: Head) {
    DeclaredLength(h) == 0 && !Expecting(h)
  }

  function InterimFrames(hs: seq<Head>): seq<Frame> {
    seq(|hs|, i requires 0 <= i < |hs| => HeadersFrame(HeadBlock(hs[i]), false))
  }

  // Every chunk as it came; the fin on the last one if that completes a declared length.
  function BodyFrames(chunks: seq<Bytes>, length: nat): seq<Frame> {
    ChunkFrames(chunks, length, Total(chunks))
  }

  // The frames of chunks that bring the number of bytes sent to this total.
  function ChunkFrames(chunks: seq<Bytes>, length: nat, total: nat): seq<Frame> {
    seq(|chunks|, i requires 0 <= i < |chunks| =>
      BodyFrame(chunks[i], length > 0 && i == |chunks| - 1 && total == length))
  }

  lemma {:induction false} FeedFields(s: State, hs: seq<Header>)
    requires forall i :: 0 <= i < |hs| ==> Printable(hs[i])
    ensures Feed(s, FieldInputs(hs)) == Fed(s.(headers := CollectAll(s.headers, hs)), [])
    decreases |hs|
  {
    if hs == [] {
    } else {
      PrintedLineIsField(hs[0]);
      assert FieldInputs(hs)[1..] == FieldInputs(hs[1..]);
      FeedFields(s.(headers := AppendValueOrAdd(s.headers, ToLower(hs[0].name), hs[0].value)), hs[1..]);
    }
  }

  lemma HeadBlockReads(h: Head)
    requires WellFormedHead(h)
    ensures Lookup(HeadBlock(h), ":status") == h.code
    ensures Lookup(HeadBlock(h), "transfer-encoding") == TransferEncoding(h)
    ensures DeclaredIn(HeadBlock(h), 0) == DeclaredLength(h)
    ensures ValuesOf(h.fields, "content-length") == [] ==> !Has(HeadBlock(h), "content-length")
  {
    var b: Block := [Entry(":status", [h.code])];
    assert Get(b[1..], "transfer-encoding") == [] && Get(b[1..], "content-length") == [];
    CollectedByName(b, h.fields, ":status");
    CollectedByName(b, h.fields, "transfer-encoding");
    CollectedByName(b, h.fields, "content-length");
    CollectedPresence(b, h.fields, "content-length");
    assert Get(HeadBlock(h), "transfer-encoding") == ValuesOf(h.fields, "transfer-encoding");
    assert Get(HeadBlock(h), "content-length") == ValuesOf(h.fields, "content-length");
  }

  // A field named "Content-Length" in capitals and small letters declares its length.
  lemma NamedLengthIsDeclared(h: Head, k: nat, n: nat)
    requires k < |h.fields| && h.fields[k] == Header("Content-Length", Decimal(n)) && n < 0x1_0000_0000_0000_0000
    requires forall i :: 0 <= i < |h.fields| && i != k ==> ToLower(h.fields[i].name) != "content-length"
    ensures DeclaredLength(h) == n
  {
    NamedLength();
    OnlyValue(h.fields, "content-length", k);
    DecimalReadsBack("", n, "");
    assert "" + Decimal(n) + "" == Decimal(n);
  }

  lemma NamedLength()
    ensures ToLower("Content-Length") == "content-length"
  {
    var name, lower := "Content-Length", "content-length";
    LowerEach(name);
    hide ToLower;
    forall i | 0 <= i < 14 ensures ToLower(name)[i] == lower[i] {
      if i != 0 && i != 8 { assert name[i] == lower[i]; }
    }
  }

  lemma LowerEach(s: string)
    ensures |ToLower(s)| == |s| && forall i :: 0 <= i < |s| ==> ToLower(s)[i] == LowerChar(s[i])
  {
  }

  lemma {:induction false} OnlyValue(hs: seq<Header>, name: string, k: nat)
    requires k < |hs| && ToLower(hs[k].name) == name
    requires forall i :: 0 <= i < |hs| && i != k ==> ToLower(hs[i].name) != name
    ensures ValuesOf(hs, name) == [hs[k].value]
  {
    hide ToLower;
    if k == 0 {
      NoValue(hs[1..], name);
    } else {
      OnlyValue(hs[1..], name, k - 1);
    }
  }

  lemma {:induction false} NoValue(hs: seq<Header>, name: string)
    requires forall i :: 0 <= i < |hs| ==> ToLower(hs[i].name) != name
    ensures ValuesOf(hs, name) == []
  {
    hide ToLower;
    if hs != [] { NoValue(hs[1..], name); }
  }

  lemma FeedHead(s: State, h: Head)
    requires WellFormedHead(h) && s.headers == [] && s.contentLength == 0
    ensures Feed(s, HeadInputs(h))
            == Fed(State([], DeclaredLength(h), s.hadSendLength), [HeadersFrame(HeadBlock(h), HeadFin(h))])
  {
    StatusLineYieldsCode(h.version, h.code, h.reason);
    hide Classify, ValuesOf;
    var first := [Line(StatusLine(h))];
    var s1 := s.(headers := [Entry(":status", [h.code])]);
    assert first[1..] == [] && Feed(s, first) == Fed(s1, []);
    FeedFields(s1, h.fields);
    FeedAppend(s, first, FieldInputs(h.fields));
    HeadBlockReads(h);
    FeedOne(s, first + FieldInputs(h.fields), Line(CRLF));
  }

  lemma {:induction false} FeedInterims(s: State, hs: seq<Head>)
    requires s.headers == [] && s.contentLength == 0
    requires forall i :: 0 <= i < |hs| ==>
               WellFormedHead(hs[i]) && hs[i].code == "100" && ValuesOf(hs[i].fields, "content-length") == []
    ensures Feed(s, HeadsInputs(hs)) == Fed(s, InterimFrames(hs))
    decreases |hs|
  {
    hide HeadInputs, WellFormedHead, HeadBlock;
    if hs == [] {
    } else {
      FeedHead(s, hs[0]);
      FeedInterims(s, hs[1..]);
      FeedAppend(s, HeadInputs(hs[0]), HeadsInputs(hs[1..]));
      assert InterimFrames(hs) == [HeadersFrame(HeadBlock(hs[0]), false)] + InterimFrames(hs[1..]);
    }
  }

  lemma {:induction false} TotalSplits(chunks: seq<Bytes>)
    requires chunks != [] && forall i :: 0 <= i < |chunks| ==> chunks[i] != []
    ensures Total(chunks) == |chunks[0]| + Total(chunks[1..])
    ensures Total(chunks[1..]) > 0 <==> |chunks| > 1
  {
    if |chunks| > 1 {
      assert chunks[1..][0] == chunks[1];
    }
  }

  // The relay of a body from any point: only the last chunk can carry the fin.
  lemma {:induction false} FeedBody(s: State, chunks: seq<Bytes>)
    requires forall i :: 0 <= i < |chunks| ==> chunks[i] != []
    requires s.contentLength > 0 ==> s.hadSendLength + Total(chunks) <= s.contentLength
    requires s.hadSendLength + Total(chunks) < SIZE_T
    ensures var sent := s.hadSendLength + Total(chunks);
            Feed(s, BodyInputs(chunks))
            == Fed(s.(hadSendLength := sent), ChunkFrames(chunks, s.contentLength, sent))
    decreases |chunks|
  {
    hide OnLine, Total, Feed;
    if chunks == [] {
      FeedNothing(s);
    } else {
      TotalSplits(chunks);
      var sent := s.hadSendLength + Total(chunks);
      var s1 := s.(hadSendLength := s.hadSendLength + |chunks[0]|);
      FeedBody(s1, chunks[1..]);
      FeedNext(s, BodyInputs(chunks));
      assert BodyInputs(chunks)[1..] == BodyInputs(chunks[1..]);
      var first := BodyFrame(chunks[0], s1.hadSendLength == s.contentLength);
      assert OnInput(s, BodyInputs(chunks)[0]) == Effect(s1, [first], |chunks[0]|);
      assert [first] + ChunkFrames(chunks[1..], s.contentLength, sent) == ChunkFrames(chunks, s.contentLength, sent);
    }
  }

  // The whole transfer, frame by frame.
  lemma RelayedFrames(r: Response)
    requires Delivered(r)
    ensures Feed(INITIAL, Inputs(r)).frames
            == InterimFrames(r.interims) + [HeadersFrame(HeadBlock(r.final), HeadFin(r.final))]
               + BodyFrames(r.chunks, DeclaredLength(r.final))
  {
    var heads := HeadsInputs(r.interims) + HeadInputs(r.final);
    FeedInterims(INITIAL, r.interims);
    FeedHead(INITIAL, r.final);
    FeedAppend(INITIAL, HeadsInputs(r.interims), HeadInputs(r.final));
    FeedAppend(INITIAL, heads, BodyInputs(r.chunks));
    FeedBody(State([], DeclaredLength(r.final), 0), r.chunks);
  }

  // ---------- fin ----------

  function Fins(fs: seq<Frame>): nat {
    if fs == [] then 0 else (if fs[0].fin then 1 else 0) + Fins(fs[1..])
  }

  function BodyBytes(fs: seq<Frame>): Bytes {
    if fs == [] then [] else (if fs[0].BodyFrame? then fs[0].data else []) + BodyBytes(fs[1..])
  }

  lemma {:induction false} FinsAppend(a: seq<Frame>, b: seq<Frame>)
    ensures Fins(a + b) == Fins(a) + Fins(b)
    ensures BodyBytes(a + b) == BodyBytes(a) + BodyBytes(b)
  {
    if a == [] {
      assert a + b == b;
    } else {
      var ab := a + b;
      assert ab[0] == a[0] && ab[1..] == a[1..] + b;
      FinsAppend(a[1..], b);
      var first := if a[0].BodyFrame? then a[0].data else [];
      assert BodyBytes(ab) == first + (BodyBytes(a[1..]) + BodyBytes(b));
      assert BodyBytes(a) == first + BodyBytes(a[1..]);
    }
  }

  lemma {:induction false} NoFins(fs: seq<Frame>)
    requires forall i :: 0 <= i < |fs| ==> !fs[i].fin
    ensures Fins(fs) == 0
  {
    if fs != [] { NoFins(fs[1..]); }
  }

  lemma {:induction false} BodyOfBodyFrames(fs: seq<Frame>, chunks: seq<Bytes>)
    requires |fs| == |chunks| && forall i :: 0 <= i < |fs| ==> fs[i].BodyFrame? && fs[i].data == chunks[i]
    ensures BodyBytes(fs) == Concat(chunks)
  {
    if fs != [] { BodyOfBodyFrames(fs[1..], chunks[1..]); }
  }

  lemma {:induction false} NoBodyInHeaders(fs: seq<Frame>)
    requires forall i :: 0 <= i < |fs| ==> fs[i].HeadersFrame?
    ensures BodyBytes(fs) == []
  {
    if fs != [] { NoBodyInHeaders(fs[1..]); }
  }

  // The body reaches the stream whole, however libcurl splits it.
  lemma BodyIsRelayedWhole(r: Response)
    requires Delivered(r)
    ensures BodyBytes(Feed(INITIAL, Inputs(r)).frames) == Concat(r.chunks)
  {
    RelayedFrames(r);
    hide WellFormedHead, DeclaredLength, Expecting, HeadBlock, Feed, Inputs;
    var heads := InterimFrames(r.interims) + [HeadersFrame(HeadBlock(r.final), HeadFin(r.final))];
    var body := BodyFrames(r.chunks, DeclaredLength(r.final));
    FinsAppend(heads, body);
    NoBodyInHeaders(heads);
    BodyOfBodyFrames(body, r.chunks);
  }

  // How many fins a whole transfer sends.
  function FinsOwed(r: Response): nat {
    if DeclaredLength(r.final) > 0 then
      if Total(r.chunks) == DeclaredLength(r.final) then 1 else 0
    else if Expecting(r.final) then 0
    else 1
  }

  lemma FinsOfBody(chunks: seq<Bytes>, length: nat)
    ensures Fins(BodyFrames(chunks, length)) == if length > 0 && chunks != [] && Total(chunks) == length then 1 else 0
  {
    var body := BodyFrames(chunks, length);
    if length > 0 && chunks != [] && Total(chunks) == length {
      var n := |body| - 1;
      assert body == body[..n] + [body[n]];
      FinsAppend(body[..n], [body[n]]);
      NoFins(body[..n]);
      assert [body[n]][1..] == [];
    } else {
      NoFins(body);
    }
  }

  // With a positive declared length there is one fin iff the body has that length; without
  // one, none iff the status is 200 or 100 or the encoding is chunked, and else one.
  lemma FinLaw(r: Response)
    requires Delivered(r)
    ensures Fins(Feed(INITIAL, Inputs(r)).frames) == FinsOwed(r) <= 1
    ensures DeclaredLength(r.final) > 0 ==>
              (Fins(Feed(INITIAL, Inputs(r)).frames) == 1 <==> |Concat(r.chunks)| == DeclaredLength(r.final))
    ensures DeclaredLength(r.final) == 0 ==>
              (Fins(Feed(INITIAL, Inputs(r)).frames) == 0 <==>
                r.final.code == "200" || r.final.code == "100"
                || Joined("transfer-encoding", ValuesOf(r.final.fields, "transfer-encoding")) == "chunked")
  {
    RelayedFrames(r);
    var interims := InterimFrames(r.interims);
    var head := [HeadersFrame(HeadBlock(r.final), HeadFin(r.final))];
    var body := BodyFrames(r.chunks, DeclaredLength(r.final));
    hide WellFormedHead, BodyFrames, DeclaredLength, HeadBlock, Feed, Inputs, ValuesOf, Joined;
    FinsAppend(interims + head, body);
    FinsAppend(interims, head);
    NoFins(interims);
    assert head[1..] == [];
    FinsOfBody(r.chunks, DeclaredLength(r.final));
  }

  predicate FinIsLast(fs: seq<Frame>) {
    forall i :: 0 <= i < |fs| - 1 ==> !fs[i].fin
  }

  // Nothing follows a fin except for one family of responses: a body that is framed
  // neither by a positive length nor by "chunked", under a status other than 200.
  lemma NothingFollowsFinIff(r: Response)
    requires Delivered(r)
    ensures FinIsLast(Feed(INITIAL, Inputs(r)).frames)
            <==> (r.chunks == [] || DeclaredLength(r.final) > 0
                  || r.final.code == "200" || r.final.code == "100"
                  || Joined("transfer-encoding", ValuesOf(r.final.fields, "transfer-encoding")) == "chunked")
  {
    RelayedFrames(r);
    var fs := Feed(INITIAL, Inputs(r)).frames;
    var n := |r.interims|;
    hide Delivered, Feed, Inputs, HeadBlock, DeclaredLength, ValuesOf, Joined, Total;
    assert fs[n] == HeadersFrame(HeadBlock(r.final), HeadFin(r.final));
    assert |fs| == n + 1 + |r.chunks|;
    if r.chunks == [] || DeclaredLength(r.final) > 0 || Expecting(r.final) {
      forall i | 0 <= i < |fs| - 1 ensures !fs[i].fin {
        if i < n {
          assert fs[i] == InterimFrames(r.interims)[i];
        } else if i > n {
          assert fs[i] == BodyFrames(r.chunks, DeclaredLength(r.final))[i - n - 1];
        }
      }
    }
  }

  // The smallest response with a body that is framed neither by a length nor by "chunked".
  function Unframed(code: string): Response {
    Response([], Head("HTTP/1.1", code, "", []), [[1]])
  }

  lemma UnframedIsDelivered(code: string)
    requires |code| == 3
    ensures Delivered(Unframed(code)) && WellFormedHead(Unframed(code).final)
    ensures FinsOwed(Unframed(code)) == if code == "200" || code == "100" then 0 else 1
  {
    assert Concat([[1 as byte]]) == [1] by { assert [[1 as byte]][1..] == []; }
    AbsentIsNotFound("HTTP/1.1", ' ');
  }

  lemma UnframedInputs(code: string)
    requires |code| == 3
    ensures Inputs(Unframed(code)) == [Line(StatusLine(Unframed(code).final)), Line(CRLF), Body([1])]
  {
    var h := Unframed(code).final;
    assert HeadInputs(h) == [Line(StatusLine(h)), Line(CRLF)] by { assert FieldInputs([]) == []; }
    assert BodyInputs([[1]]) == [Body([1])];
  }

  lemma UnframedStatus(code: string)
    requires |code| == 3
    ensures var line := StatusLine(Unframed(code).final);
            OnLine(INITIAL, line) == Effect(State([Entry(":status", [code])], 0, 0), [], |line|)
  {
    UnframedIsDelivered(code);
    StatusLineYieldsCode("HTTP/1.1", code, "");
    hide Classify, WellFormedHead;
  }

  lemma UnframedEnd(code: string)
    requires |code| == 3
    ensures var status := [Entry(":status", [code])];
            OnLine(State(status, 0, 0), CRLF) == Effect(INITIAL, [HeadersFrame(status, code != "200" && code != "100")], 2)
  {
    UnframedIsDelivered(code);
    HeadBlockReads(Unframed(code).final);
    hide Lookup, Has, WellFormedHead, ParseSize;
  }

  lemma UnframedFrames(code: string)
    requires |code| == 3
    ensures Feed(INITIAL, Inputs(Unframed(code)))
            == Fed(State([], 0, 1),
                   [HeadersFrame([Entry(":status", [code])], code != "200" && code != "100"), BodyFrame([1], false)])
  {
    UnframedInputs(code);
    UnframedStatus(code);
    UnframedEnd(code);
    var status := Line(StatusLine(Unframed(code).final));
    hide OnLine, OnBody;
    FeedOne(INITIAL, [], status);
    FeedOne(INITIAL, [status], Line(CRLF));
    FeedOne(INITIAL, [status, Line(CRLF)], Body([1]));
    assert Inputs(Unframed(code)) == [status, Line(CRLF)] + [Body([1])];
  }

  // Step by step, for a status under which the headers carry no fin.
  lemma UnframedSteps(code: string)
    returns (x1: State, i1: Input, i2: Input, i3: Input, f2: Frame, f3: Frame)
    requires |code| == 3 && (code == "200" || code == "100")
    ensures Inputs(Unframed(code)) == [i1, i2, i3]
    ensures Feed(INITIAL, Inputs(Unframed(code))).frames == [f2, f3]
    ensures OnInput(INITIAL, i1).state == x1 && OnInput(INITIAL, i1).frames == []
    ensures OnInput(x1, i2).state == INITIAL && OnInput(x1, i2).frames == [f2] && f2.HeadersFrame? && !f2.fin
    ensures OnInput(INITIAL, i3).state == State([], 0, 1) && OnInput(INITIAL, i3).frames == [f3]
    ensures f3 == BodyFrame([1], false)
  {
    UnframedInputs(code);
    UnframedFrames(code);
    UnframedStatus(code);
    UnframedEnd(code);
    hide Feed, Inputs, OnLine, OnBody, Unframed;
    x1 := State([Entry(":status", [code])], 0, 0);
    i1, i2, i3 := Line(StatusLine(Unframed(code).final)), Line(CRLF), Body([1]);
    f2, f3 := HeadersFrame([Entry(":status", [code])], false), BodyFrame([1], false);
  }

  // Such a response does get its body after the fin: a 404 without a length, for one, and
  // any status but 200 and 100.
  lemma BodyFollowsFin(code: string)
    requires |code| == 3 && code != "200" && code != "100"
    ensures Delivered(Unframed(code))
    ensures Feed(INITIAL, Inputs(Unframed(code))).frames
            == [HeadersFrame([Entry(":status", [code])], true), BodyFrame([1], false)]
  {
    UnframedIsDelivered(code);
    UnframedFrames(code);
  }

  // A dropped field is as if it had not been sent: a 404 whose Content-Length has no space
  // after the colon is relayed as one without a length.
  lemma DroppedFieldIsAbsent(s: State, a: seq<Input>, line: HeaderLine, b: seq<Input>)
    requires Classify(line) == NoField
    ensures Feed(s, a + [Line(line)] + b) == Feed(s, a + b)
  {
    DroppedFieldEffect(Feed(s, a).state, line);
    hide OnInput, Feed;
    FeedOne(s, a, Line(line));
    FeedAppend(s, a + [Line(line)], b);
    FeedAppend(s, a, b);
    assert Feed(s, a).frames + [] == Feed(s, a).frames;
  }

  lemma TightLengthIsLost(code: string, n: nat)
    requires |code| == 3 && code != "200" && code != "100"
    ensures var line := FieldText("Content-Length", "", Decimal(n), "") + CRLF;
            && line[|line| - 2..] == CRLF
            && Feed(INITIAL, [Line(StatusLine(Unframed(code).final))] + [Line(line)] + [Line(CRLF), Body([1])]).frames
               == [HeadersFrame([Entry(":status", [code])], true), BodyFrame([1], false)]
  {
    var line := FieldText("Content-Length", "", Decimal(n), "") + CRLF;
    assert line[|line| - 2..] == CRLF;
    TightLengthIsDropped(n);
    BodyFollowsFin(code);
    UnframedInputs(code);
    hide Feed, Inputs, Unframed, FieldText, Decimal;
    var status := Line(StatusLine(Unframed(code).final));
    DroppedFieldIsAbsent(INITIAL, [status], line, [Line(CRLF), Body([1])]);
    assert [status] + [Line(CRLF), Body([1])] == [status, Line(CRLF), Body([1])];
  }

  lemma DroppedFieldEffect(s: State, line: HeaderLine)
    requires Classify(line) == NoField
    ensures OnInput(s, Line(line)) == Effect(s, [], |line|)
  {
    hide Classify;
  }

  // A transfer cut off anywhere, by a closed stream or by an error, has written a prefix:
  // never a second fin, never a byte that is not the body's next one.
  lemma CutTransfer(r: Response, heard: seq<Input>)
    requires Delivered(r) && heard <= Inputs(r)
    ensures Feed(INITIAL, heard).frames <= Feed(INITIAL, Inputs(r)).frames
    ensures Fins(Feed(INITIAL, heard).frames) <= FinsOwed(r) <= 1
    ensures BodyBytes(Feed(INITIAL, heard).frames) <= Concat(r.chunks)
  {
    var rest := Inputs(r)[|heard|..];
    assert Inputs(r) == heard + rest;
    FeedAppend(INITIAL, heard, rest);
    var later := Feed(Feed(INITIAL, heard).state, rest).frames;
    FinsAppend(Feed(INITIAL, heard).frames, later);
    FinLaw(r);
    BodyIsRelayedWhole(r);
  }

  // ---------- the request body ----------

  // One ReadQuicCallback: what it copies out and where it leaves the position.
  function ReadLength(body: Bytes, pos: nat, size: nat): nat
    requires pos <= |body|
  {
    Min(|body| - pos, size)
  }

  function Replay(body: Bytes, pos: nat, sizes: seq<nat>): seq<Bytes>
    requires pos <= |body|
    decreases |sizes|
  {
    if sizes == [] then []
    else
      var n := ReadLength(body, pos, sizes[0]);
      [body[pos..pos + n]] + Replay(body, pos + n, sizes[1..])
  }

  function Sum(sizes: seq<nat>): nat {
    if sizes == [] then 0 else sizes[0] + Sum(sizes[1..])
  }

  lemma {:induction false} ReplayIsPrefix(body: Bytes, pos: nat, sizes: seq<nat>)
    requires pos <= |body|
    ensures Concat(Replay(body, pos, sizes)) == body[pos..Min(pos + Sum(sizes), |body|)]
    decreases |sizes|
  {
    if sizes == [] {
    } else {
      var n := ReadLength(body, pos, sizes[0]);
      ReplayIsPrefix(body, pos + n, sizes[1..]);
      var end := Min(pos + Sum(sizes), |body|);
      var parts := Replay(body, pos, sizes);
      assert parts[0] == body[pos..pos + n] && parts[1..] == Replay(body, pos + n, sizes[1..]);
      assert Min(pos + n + Sum(sizes[1..]), |body|) == end;
      assert body[pos..pos + n] + body[pos + n..end] == body[pos..end];
    }
  }

  lemma {:induction false} SumOfPositives(sizes: seq<nat>)
    requires forall i :: 0 <= i < |sizes| ==> sizes[i] > 0
    ensures Sum(sizes) >= |sizes|
  {
    if sizes != [] { SumOfPositives(sizes[1..]); }
  }

  lemma {:induction false} ReplayEndsEmpty(body: Bytes, pos: nat, sizes: seq<nat>, i: nat)
    requires pos <= |body| && i < |sizes| && pos + Sum(sizes[..i]) >= |body|
    ensures i < |Replay(body, pos, sizes)| && Replay(body, pos, sizes)[i] == []
    decreases |sizes|
  {
    if i == 0 {
    } else {
      assert sizes[..i][0] == sizes[0] && sizes[..i][1..] == sizes[1..][..i - 1];
      var n := ReadLength(body, pos, sizes[0]);
      ReplayEndsEmpty(body, pos + n, sizes[1..], i - 1);
    }
  }

  // Whatever buffers libcurl offers, it reads the request body once, in order, and then 0
  // for ever; one call more than there are bytes is enough to see the end.
  lemma UploadReplay(body: Bytes, sizes: seq<nat>)
    requires forall i :: 0 <= i < |sizes| ==> sizes[i] > 0
    requires |sizes| > |body|
    ensures Concat(Replay(body, 0, sizes)) == body
    ensures |Replay(body, 0, sizes)| == |sizes|
    ensures forall i :: |body| <= i < |sizes| ==> Replay(body, 0, sizes)[i] == []
  {
    ReplayIsPrefix(body, 0, sizes);
    SumOfPositives(sizes);
    ReplayLength(body, 0, sizes);
    forall i | |body| <= i < |sizes| ensures Replay(body, 0, sizes)[i] == [] {
      SumOfPositives(sizes[..i]);
      ReplayEndsEmpty(body, 0, sizes, i);
    }
  }

  lemma {:induction false} ReplayLength(body: Bytes, pos: nat, sizes: seq<nat>)
    requires pos <= |body|
    ensures |Replay(body, pos, sizes)| == |sizes|
    decreases |sizes|
  {
    if sizes != [] { ReplayLength(body, pos + ReadLength(body, pos, sizes[0]), sizes[1..]); }
  }

  // ---------- the request headers ----------

  predicate Pseudo(name: string) { name != "" && name[0] == ':' }

  // curl_slist_append takes a C string: what follows a NUL is lost.
  function CString(s: string): string {
    if s == [] || s[0] == '\0' then [] else [s[0]] + CString(s[1..])
  }

  function Serialized(e: Entry): string {
    CString(e.name + COLON + Joined(e.name, e.values))
  }

  function RequestLines(b: Block): seq<string> {
    if b == [] then []
    else (if Pseudo(b[0].name) then [] else [Serialized(b[0])]) + RequestLines(b[1..])
  }

  // A C string is the longest prefix without NUL.
  lemma {:induction false} CStringIs(s: string)
    ensures CString(s) <= s && '\0' !in CString(s)
    ensures CString(s) == s || s[|CString(s)|] == '\0'
  {
    if s != [] { CStringIs(s[1..]); }
  }

  lemma {:induction false} CutAtNul(a: string, b: string)
    requires NoNul(a) && b != "" && b[0] == '\0'
    ensures CString(a + b) == a
  {
    if a == [] {
      assert a + b == b;
    } else {
      assert (a + b)[0] == a[0] && (a + b)[1..] == a[1..] + b;
      CutAtNul(a[1..], b);
    }
  }

  // Values with a separator between them.
  function Separated(values: seq<string>, sep: string): string {
    if values == [] then "" else if |values| == 1 then values[0] else values[0] + sep + Separated(values[1..], sep)
  }

  lemma {:induction false} JoinedIsSeparated(name: string, values: seq<string>)
    ensures Joined(name, values) == Separated(values, if name == "cookie" then "; " else "\0")
  {
    if |values| > 1 { JoinedIsSeparated(name, values[1..]); }
  }

  predicate NoNul(s: string) { forall i :: 0 <= i < |s| ==> s[i] != '\0' }

  lemma {:induction false} CStringKeepsIff(s: string)
    ensures CString(s) == s <==> NoNul(s)
  {
    if s != [] {
      CStringKeepsIff(s[1..]);
      if CString(s) == s {
        assert s == [s[0]] + s[1..];
        assert CString(s)[1..] == CString(s[1..]);
        forall i | 0 <= i < |s| ensures s[i] != '\0' {
          if i > 0 { assert s[i] == s[1..][i - 1]; }
        }
      } else {
        assert s == [s[0]] + s[1..];
      }
    }
  }

  lemma {:induction false} JoinedHasNulIff(name: string, values: seq<string>)
    requires forall i :: 0 <= i < |values| ==> NoNul(values[i])
    ensures NoNul(Joined(name, values)) <==> (|values| <= 1 || name == "cookie")
  {
    if |values| > 1 {
      JoinedHasNulIff(name, values[1..]);
      var sep := if name == "cookie" then "; " else "\0";
      assert Joined(name, values)[|values[0]|] == sep[0];
    }
  }

  // A request header reaches the backend with all its values exactly when it was given
  // once or is a cookie: a repeated one is cut after its first value.
  lemma RepeatedRequestHeaderIsCutIff(e: Entry)
    requires NoNul(e.name) && forall i :: 0 <= i < |e.values| ==> NoNul(e.values[i])
    ensures Serialized(e) == e.name + ": " + Joined(e.name, e.values)
            <==> (|e.values| <= 1 || e.name == "cookie")
    ensures |e.values| > 1 && e.name != "cookie" ==> Serialized(e) == e.name + ": " + e.values[0]
  {
    if |e.values| > 1 && e.name != "cookie" {
      var first := e.name + ": " + e.values[0];
      var rest := "\0" + Joined(e.name, e.values[1..]);
      assert e.name + COLON + Joined(e.name, e.values) == first + rest;
      CutAtNul(first, rest);
    }
    var joined := Joined(e.name, e.values);
    var text := e.name + COLON + joined;
    CStringKeepsIff(text);
    JoinedHasNulIff(e.name, e.values);
    if !NoNul(joined) {
      var i :| 0 <= i < |joined| && joined[i] == '\0';
      assert text[|e.name| + 2 + i] == '\0';
    }
  }

  // The headers sent on, as the backend will read them back: all but those with a colon in
  // front.
  function SentOn(b: Block): seq<Header> {
    if b == [] then []
    else (if ":" <= b[0].name then [] else [Header(b[0].name, Joined(b[0].name, b[0].values))]) + SentOn(b[1..])
  }

  // Whole requests: pseudo headers are dropped, every other header is printed in order, as a
  // C string. That is the whole of it where it holds no NUL: where it was given once, or is a
  // cookie.
  lemma {:induction false} RequestLinesPrint(b: Block)
    ensures |RequestLines(b)| == |SentOn(b)|
    ensures forall i :: 0 <= i < |SentOn(b)| ==>
              var text := SentOn(b)[i].name + ": " + SentOn(b)[i].value;
              && RequestLines(b)[i] == CString(text)
              && (RequestLines(b)[i] == text <==> NoNul(text))
  {
    if b != [] {
      RequestLinesPrint(b[1..]);
      var line, sent := Serialized(b[0]), Header(b[0].name, Joined(b[0].name, b[0].values));
      var text := sent.name + ": " + sent.value;
      assert line == CString(text);
      CStringKeepsIff(text);
      hide Serialized, Joined, NoNul, CString;
      if !Pseudo(b[0].name) {
        assert RequestLines(b) == [line] + RequestLines(b[1..]) && SentOn(b) == [sent] + SentOn(b[1..]);
      }
    }
  }
}
