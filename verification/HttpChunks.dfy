/**
 Lengths and the chunked coding: what the digits of a chunk size and of a
 Content-Length header mean, and the round trip through the coding of section
 3.6.1 of RFC 2616.
 */
module HttpChunks {
  import opened Sequences
  import opened HttpBody
  import opened HttpExecute
  import opened HttpCuts

  predicate SizeDigits(s: seq<Byte>) {
    forall i :: 0 <= i < |s| ==> Unhex(s[i]) >= 0
  }

  /** The number that the digits denote, without any bound. */
  function Value(s: seq<Byte>): nat
    requires SizeDigits(s)
  {
    if s == [] then 0 else 16 * Value(s[..|s| - 1]) + Unhex(s[|s| - 1])
  }

  /** Largest value that may still be followed by another digit. */
  const SIZE_LIMIT: nat := (ULLONG_MAX - 16) / 16

  ghost predicate AtChunkStart(p: Parser) {
    p.state == ChunkSizeStart && p.errno == OK && p.nread == 0 && !p.left
  }

  /** The digits `s` have been read, exactly, or rejected. */
  ghost predicate SizeRead(p: Parser, s: seq<Byte>, r: Outcome)
    requires s != [] && SizeDigits(s)
  {
    && r.items == []
    && (r.p.errno == OK <==> |s| <= MAX_HEADER_SIZE && Value(s[..|s| - 1]) <= SIZE_LIMIT)
    && (r.p.errno == OK ==> Value(s) < ULLONG_MAX && r.p == p.(state := ChunkSize, nread := |s|, length := Value(s)))
  }

  /** A chunk size is accepted exactly if its digits fit the header limit and the number in front
      of its last digit is small enough; then it is read exactly, below the sentinel, and no
      64-bit operation has wrapped. */
  lemma {:induction false} SizeIsExact(p: Parser, s: seq<Byte>)
    requires AtChunkStart(p) && s != [] && SizeDigits(s)
    ensures SizeRead(p, s, Run(p, s))
    decreases |s|
  {
    var front, d := s[..|s| - 1], s[|s| - 1];
    assert s == front + [d];
    if front == [] {
      assert s == [d];
      SizeOne(p, d);
    } else {
      SizeIsExact(p, front);
      RunConcat(p, front, [d]);
      SizeGrows(p, front, d, Run(p, front));
    }
  }

  lemma SizeOne(p: Parser, d: Byte)
    requires AtChunkStart(p) && Unhex(d) >= 0
    ensures SizeRead(p, [d], Run(p, [d]))
  {
    RunOne(p, d);
    assert Step(p, d) == Silent(p.(state := ChunkSize, nread := 1, length := Unhex(d)));
    assert [d][..0] == [];
  }

  lemma SizeGrows(p: Parser, front: seq<Byte>, d: Byte, r: Outcome)
    requires front != [] && SizeDigits(front) && Unhex(d) >= 0 && SizeRead(p, front, r) && !p.left
    ensures SizeRead(p, front + [d], Outcome(Run(r.p, [d]).p, r.items + Run(r.p, [d]).items))
  {
    var s := front + [d];
    assert s[..|s| - 1] == front;
    if r.p.errno == OK {
      RunOne(r.p, d);
      NextDigit(r.p, d);
    }
  }

  lemma NextDigit(q: Parser, d: Byte)
    requires q.state == ChunkSize && q.errno == OK && !q.left && Unhex(d) >= 0
    ensures Step(q, d).p.errno == OK <==> q.nread < MAX_HEADER_SIZE && q.length <= SIZE_LIMIT
    ensures Step(q, d).p.errno == OK ==> Step(q, d).p == q.(nread := q.nread + 1, length := 16 * q.length + Unhex(d))
    ensures Step(q, d).p.errno == OK ==> 16 * q.length + Unhex(d) < ULLONG_MAX
    ensures Step(q, d).items == []
  {
  }

  /** Besides the hexadecimal digits, every byte from 128 up passes for the digit zero. */
  lemma DigitsOfTheTable(ch: Byte)
    ensures Unhex(ch) >= 0 <==> 48 <= ch <= 57 || 65 <= ch <= 70 || 97 <= ch <= 102 || 128 <= ch
    ensures ch >= 128 ==> Unhex(ch) == 0
    ensures Unhex(ch) < 16
  {
  }

  // ------------------------------------------------------------ the round trip

  function Digit(d: nat): Byte
    requires d < 16
  {
    if d < 10 then 48 + d else 87 + d
  }

  function Hex(n: nat): (s: seq<Byte>)
    ensures s != [] && SizeDigits(s)
  {
    if n < 16 then [Digit(n)] else Hex(n / 16) + [Digit(n % 16)]
  }

  lemma {:induction false} HexValue(n: nat)
    ensures Value(Hex(n)) == n
    ensures Value(Hex(n)[..|Hex(n)| - 1]) == n / 16
  {
    if n < 16 {
      assert Hex(n)[..0] == [];
    } else {
      HexValue(n / 16);
      assert Hex(n)[..|Hex(n)| - 1] == Hex(n / 16);
    }
  }

  function Pow16(k: nat): nat {
    if k == 0 then 1 else 16 * Pow16(k - 1)
  }

  lemma {:induction false} HexLength(n: nat, k: nat)
    requires n < Pow16(k) && k >= 1
    ensures |Hex(n)| <= k
  {
    if n >= 16 {
      HexLength(n / 16, k - 1);
    }
  }

  lemma HexIsShort(n: nat)
    requires n <= ULLONG_MAX
    ensures |Hex(n)| <= 16
  {
    assert Pow16(4) == 0x1_0000;
    assert Pow16(8) == 0x1_0000_0000;
    assert Pow16(12) == 0x1_0000_0000_0000;
    assert Pow16(16) == ULLONG_MAX + 1;
    HexLength(n, 16);
  }

  const CRLF: seq<Byte> := [CR, LF]

  function EncodeChunk(c: seq<Byte>): seq<Byte> {
    Hex(|c|) + CRLF + c + CRLF
  }

  /** The chunks, then the last-chunk and the empty trailer. */
  function Encode(chunks: seq<seq<Byte>>): seq<Byte> {
    if chunks == [] then Hex(0) + CRLF + CRLF else EncodeChunk(chunks[0]) + Encode(chunks[1..])
  }

  /** What the decoder is to report. */
  function Report(chunks: seq<seq<Byte>>): seq<Item> {
    if chunks == [] then [ChunkHeader(0), ChunkComplete, MessageComplete]
    else [ChunkHeader(|chunks[0]|)] + Bytes(chunks[0]) + [ChunkComplete] + Report(chunks[1..])
  }

  /** The largest chunk that the overflow test lets through. */
  const MAX_CHUNK: nat := ULLONG_MAX - 16

  lemma RunTwo(p: Parser, a: Byte, b: Byte)
    requires !Halted(p) && !Halted(Step(p, a).p)
    ensures Run(p, [a, b]) == Outcome(Step(Step(p, a).p, b).p, Step(p, a).items + Step(Step(p, a).p, b).items)
  {
    RunOne(p, a);
    RunOne(Step(p, a).p, b);
    RunConcat(p, [a], [b]);
    assert [a] + [b] == [a, b];
  }

  lemma {:induction false} SizeLine(p: Parser, n: nat)
    requires AtChunkStart(p) && n <= MAX_CHUNK
    ensures Run(p, Hex(n) + CRLF) ==
            Outcome(p.(state := if n == 0 then HeaderFieldStart else ChunkData, length := n,
                       trailing := p.trailing || n == 0), [ChunkHeader(n)])
  {
    SizeIsExact(p, Hex(n));
    HexValue(n);
    HexIsShort(n);
    var q := p.(state := ChunkSize, nread := |Hex(n)|, length := n);
    RunConcat(p, Hex(n), CRLF);
    RunTwo(q, CR, LF);
    SizeLineEnd(q);
  }

  lemma SizeLineEnd(q: Parser)
    requires q.state == ChunkSize && q.errno == OK && !q.left && q.nread <= 16
    ensures Step(q, CR) == Silent(q.(state := ChunkSizeAlmostDone, nread := q.nread + 1))
    ensures Step(Step(q, CR).p, LF) ==
            Outcome(q.(state := if q.length == 0 then HeaderFieldStart else ChunkData, nread := 0,
                       trailing := q.trailing || q.length == 0), [ChunkHeader(q.length)])
  {
  }

  lemma {:induction false} ChunkDataLine(p: Parser, c: seq<Byte>)
    requires p.state == ChunkData && p.errno == OK && !p.left && 0 < |c| == p.length
    ensures Run(p, c + CRLF) ==
            Outcome(p.(state := ChunkSizeStart, nread := 0, length := 0), Bytes(c) + [ChunkComplete])
  {
    BulkChunk(p, c);
    RunConcat(p, c, CRLF);
    RunTwo(p.(length := 0, state := ChunkDataAlmostDone), CR, LF);
    assert [] + [ChunkComplete] == [ChunkComplete];
  }

  lemma {:induction false} OneChunk(p: Parser, c: seq<Byte>)
    requires AtChunkStart(p) && 0 < |c| <= MAX_CHUNK
    ensures Run(p, EncodeChunk(c)) == Outcome(p.(length := 0), [ChunkHeader(|c|)] + Bytes(c) + [ChunkComplete])
  {
    assert EncodeChunk(c) == (Hex(|c|) + CRLF) + (c + CRLF);
    SizeLine(p, |c|);
    RunConcat(p, Hex(|c|) + CRLF, c + CRLF);
    ChunkDataLine(p.(state := ChunkData, length := |c|), c);
  }

  lemma {:induction false} LastChunk(p: Parser)
    requires AtChunkStart(p)
    ensures Run(p, Encode([])).p ==
            Complete(p.(nread := 2, length := 0, trailing := true), []).p
    ensures Run(p, Encode([])).items == Report([])
  {
    SizeLine(p, 0);
    RunConcat(p, Hex(0) + CRLF, CRLF);
    RunTwo(p.(state := HeaderFieldStart, length := 0, trailing := true), CR, LF);
  }

  lemma {:induction false} TooLarge(p: Parser, c: seq<Byte>)
    requires AtChunkStart(p) && |c| > MAX_CHUNK
    ensures Run(p, EncodeChunk(c)).p.errno != OK
  {
    var h, rest := Hex(|c|), CRLF + c + CRLF;
    assert EncodeChunk(c) == h + rest;
    assert Run(p, h).p.errno != OK by {
      HexValue(|c|);
      SizeTooLarge(p, h);
    }
    RunConcat(p, h, rest);
  }

  lemma {:induction false} SizeTooLarge(p: Parser, h: seq<Byte>)
    requires AtChunkStart(p) && h != [] && SizeDigits(h) && Value(h[..|h| - 1]) > SIZE_LIMIT
    ensures Run(p, h).p.errno != OK
  {
    SizeIsExact(p, h);
  }

  ghost predicate Fits(chunks: seq<seq<Byte>>) {
    forall i :: 0 <= i < |chunks| ==> |chunks[i]| <= MAX_CHUNK
  }

  /** Decoding the coding of any non-empty chunks succeeds exactly if each of them is small enough for
      the overflow test; then it reports them, with one header and one completion per chunk including
      the last one, and ends the message. */
  lemma {:induction false} RoundTrip(p: Parser, chunks: seq<seq<Byte>>)
    requires AtChunkStart(p) && NonEmpty(chunks)
    ensures var r := Run(p, Encode(chunks));
            && (r.p.errno == OK <==> Fits(chunks))
            && (Fits(chunks) ==>
                  r.items == Report(chunks) && r.p.state == NewMessage(p.(length := 0)) && r.p.msg == p.msg)
    decreases |chunks|
  {
    if chunks == [] {
      LastChunk(p);
    } else {
      var c, rest := chunks[0], chunks[1..];
      RunConcat(p, EncodeChunk(c), Encode(rest));
      if |c| > MAX_CHUNK {
        TooLarge(p, c);
        HaltedRun(Run(p, EncodeChunk(c)).p, Encode(rest));
      } else {
        OneChunk(p, c);
        RoundTrip(p.(length := 0), rest);
      }
    }
  }

  // -------------------------------------------------- the round trip in pieces

  /** The coding without its last byte. */
  function Front(chunks: seq<seq<Byte>>): seq<Byte> {
    if chunks == [] then Hex(0) + CRLF + [CR] else EncodeChunk(chunks[0]) + Front(chunks[1..])
  }

  lemma {:induction false} FrontOf(chunks: seq<seq<Byte>>)
    ensures Encode(chunks) == Front(chunks) + [LF]
  {
    if chunks != [] {
      FrontOf(chunks[1..]);
      Assoc(EncodeChunk(chunks[0]), Front(chunks[1..]), [LF]);
    } else {
      assert CRLF == [CR] + [LF];
      Assoc(Hex(0) + CRLF, [CR], [LF]);
    }
  }

  /** Until its last byte the message is not over. */
  predicate AwaitsEnd(p: Parser) {
    p.errno == OK && p.state == HeadersAlmostDone && p.trailing && !p.left && p.nread == 1
  }

  lemma {:induction false} LastChunkFront(p: Parser)
    requires AtChunkStart(p)
    ensures AwaitsEnd(Run(p, Hex(0) + CRLF + [CR]).p)
  {
    SizeLine(p, 0);
    RunConcat(p, Hex(0) + CRLF, [CR]);
    RunOne(p.(state := HeaderFieldStart, length := 0, trailing := true), CR);
  }

  lemma {:induction false} FrontIsOpen(p: Parser, chunks: seq<seq<Byte>>)
    requires AtChunkStart(p) && NonEmpty(chunks) && Fits(chunks)
    ensures AwaitsEnd(Run(p, Front(chunks)).p)
    decreases |chunks|
  {
    if chunks == [] {
      LastChunkFront(p);
    } else {
      RunConcat(p, EncodeChunk(chunks[0]), Front(chunks[1..]));
      OneChunk(p, chunks[0]);
      FrontIsOpen(p.(length := 0), chunks[1..]);
    }
  }

  /** No proper prefix of the coding takes the parser out of the message. */
  lemma {:induction false} PrefixIsOpen(p: Parser, chunks: seq<seq<Byte>>, d: seq<Byte>)
    requires AtChunkStart(p) && NonEmpty(chunks) && Fits(chunks) && d < Encode(chunks)
    ensures var r := Run(p, d).p; !Halted(r) && !Between(r.state) && r.state != BodyIdentityEof
  {
    FrontOf(chunks);
    FrontIsOpen(p, chunks);
    var r, e := Run(p, d).p, Front(chunks)[|d|..];
    assert Front(chunks) == d + e;
    RunConcat(p, d, e);
    HaltedRun(r, e);
    if !Halted(r) && Between(r.state) {
      BetweenRun(r, e);
    } else if !Halted(r) && r.state == BodyIdentityEof {
      BulkEof(r, e);
    }
  }

  /** While the message is open, no cut of the stream is exceptional. */
  lemma {:induction false} OpenCuts(p: Parser, chunks: seq<seq<Byte>>, pieces: seq<seq<Byte>>)
    requires AtChunkStart(p) && NonEmpty(chunks) && Fits(chunks) && Join(pieces) <= Encode(chunks)
    ensures !ReadsOn(p, pieces) && !LossyCut(p, pieces) && !BeginsBehind(p, pieces)
  {
    var d := Join(pieces);
    forall m: nat | m < |d|
      ensures !LeftAt(p, d, m)
    {
      PrefixIsOpen(p, chunks, d[..m]);
    }
    forall n: nat | BadEnd(p, d, n)
      ensures false
    {
      BadEndFails(p, d, n);
      if d == Encode(chunks) {
        RoundTrip(p, chunks);
      } else {
        PrefixIsOpen(p, chunks, d);
      }
    }
  }

  /** The round trip through the bulk loop, for a stream that arrives in arbitrary pieces. */
  lemma {:induction false} RoundTripInPieces(p: Parser, chunks: seq<seq<Byte>>, pieces: seq<seq<Byte>>)
    requires AtChunkStart(p) && NonEmpty(chunks) && Fits(chunks)
    requires NonEmpty(pieces) && Join(pieces) == Encode(chunks)
    ensures Feed(p, pieces).p.errno == OK && Feed(p, pieces).p.state == NewMessage(p.(length := 0))
    ensures Feed(p, pieces).items == Report(chunks)
  {
    FrontOf(chunks);
    RoundTrip(p, chunks);
    OpenCuts(p, chunks, pieces);
    CutKeepsState(p, pieces);
    CutKeepsTrace(p, pieces);
  }

  lemma {:induction false} ReportEndsOnce(chunks: seq<seq<Byte>>)
    ensures var r := Report(chunks); |r| >= 2 && MessageComplete !in r[..|r| - 1]
  {
    if chunks != [] {
      var first, rest := [ChunkHeader(|chunks[0]|)] + Bytes(chunks[0]) + [ChunkComplete], Report(chunks[1..]);
      ReportEndsOnce(chunks[1..]);
      assert Report(chunks)[..|Report(chunks)| - 1] == first + rest[..|rest| - 1];
    }
  }

  /** What has been reported before the last byte is part of the report, and not its end. */
  lemma {:induction false} PrefixReport(p: Parser, chunks: seq<seq<Byte>>, d: seq<Byte>)
    requires AtChunkStart(p) && NonEmpty(chunks) && Fits(chunks) && d < Encode(chunks)
    ensures MessageComplete !in Run(p, d).items
  {
    FrontOf(chunks);
    ReportEndsOnce(chunks);
    var c := FrontReport(p, chunks);
    var e := Front(chunks)[|d|..];
    assert Front(chunks) == d + e;
    RunConcat(p, d, e);
    NotAtTheEnd(Run(p, d).items, Run(Run(p, d).p, e).items, c, Report(chunks));
  }

  /** The last byte has something to report. */
  lemma {:induction false} FrontReport(p: Parser, chunks: seq<seq<Byte>>) returns (c: seq<Item>)
    requires AtChunkStart(p) && NonEmpty(chunks) && Fits(chunks)
    ensures Report(chunks) == Run(p, Front(chunks)).items + c && |c| >= 1
  {
    FrontOf(chunks);
    FrontIsOpen(p, chunks);
    RoundTrip(p, chunks);
    var q := Run(p, Front(chunks)).p;
    RunConcat(p, Front(chunks), [LF]);
    RunOne(q, LF);
    c := Step(q, LF).items;
  }

  lemma {:induction false} NotAtTheEnd(a: seq<Item>, b: seq<Item>, c: seq<Item>, r: seq<Item>)
    requires r == a + b + c && |c| >= 1 && MessageComplete !in r[..|r| - 1]
    ensures MessageComplete !in a
  {
    assert forall i :: 0 <= i < |a| ==> a[i] == r[..|r| - 1][i];
  }

  /** A chunked message that the end of the connection cuts off is never taken for a complete one: after any proper
      prefix of the coding, in any pieces, the parser reports an error and no completion. */
  lemma {:induction false} TruncatedIsAnError(p: Parser, chunks: seq<seq<Byte>>, pieces: seq<seq<Byte>>)
    requires AtChunkStart(p) && NonEmpty(chunks) && Fits(chunks)
    requires NonEmpty(pieces) && Join(pieces) < Encode(chunks)
    ensures var o := Feed(p, pieces + [[]]); o.p.errno == InvalidEofState && MessageComplete !in o.items
  {
    PrefixIsOpen(p, chunks, Join(pieces));
    PrefixReport(p, chunks, Join(pieces));
    OpenCuts(p, chunks, pieces);
    CutKeepsTrace(p, pieces);
    EmptyPieceIsEof(p, pieces);
    if pieces != [] {
      CutKeepsState(p, pieces);
    }
  }

  // ------------------------------------------------ the exceptions are real

  lemma {:induction false} OneByteChunk(p: Parser)
    requires AtChunkStart(p)
    ensures var d: seq<Byte> := [49, CR, LF, 97];
            Run(p, d) == Outcome(p.(state := ChunkDataAlmostDone, length := 0), [ChunkHeader(1), BodyByte(97)])
  {
    var line: seq<Byte> := [49, CR, LF];
    var q := p.(state := ChunkData, length := 1);
    assert Hex(1) + CRLF == line;
    SizeLine(p, 1);
    RunConcat(p, line, [97]);
    RunOne(q, 97);
    assert line + [97] == [49, CR, LF, 97];
  }

  /** The chunk of one byte `a`, and then an `X` instead of the carriage return. In one piece the `a` is never
      reported; cut in front of the `X` it is. */
  lemma {:induction false} DroppedPiece(msg: Message, length: nat)
    requires msg.chunked && !msg.upgrade && !msg.skipBody
    ensures var p := BeginBody(msg, length).p;
            && Feed(p, [[49, CR, LF, 97, 88]]).items == [ChunkHeader(1)]
            && Feed(p, [[49, CR, LF, 97], [88]]).items == [ChunkHeader(1), BodyByte(97)]
  {
    var p := BeginBody(msg, length).p;
    DroppedInOnePiece(p);
    KeptInTwoPieces(p);
  }

  lemma {:induction false} DroppedInOnePiece(p: Parser)
    requires AtChunkStart(p)
    ensures Feed(p, [[49, CR, LF, 97, 88]]).items == [ChunkHeader(1)]
  {
    var d: seq<Byte> := [49, CR, LF, 97];
    var items := [ChunkHeader(1), BodyByte(97)];
    OneByteChunk(p);
    DroppedBehind(p, d);
    assert d + [88] == [49, CR, LF, 97, 88];
    assert items[..1] == [ChunkHeader(1)];
    var whole: seq<seq<Byte>> := [d + [88]];
    assert whole[1..] == [] && Feed(p, whole).items == Delivered(p, d + [88]) + [];
  }

  lemma {:induction false} DroppedBehind(p: Parser, d: seq<Byte>)
    requires d != [] && !Halted(Run(p, d).p) && Run(p, d).p.state == ChunkDataAlmostDone
    ensures Delivered(p, d + [88]) == DropBody(Run(p, d).items)
  {
    UsedAll(p, d);
    RunConcat(p, d, [88]);
    UsedConcat(p, d, [88]);
    RunOne(Run(p, d).p, 88);
    assert Run(p, d).items + [] == Run(p, d).items;
  }

  lemma {:induction false} KeptInTwoPieces(p: Parser)
    requires AtChunkStart(p)
    ensures Feed(p, [[49, CR, LF, 97], [88]]).items == [ChunkHeader(1), BodyByte(97)]
  {
    var d: seq<Byte> := [49, CR, LF, 97];
    var q := p.(state := ChunkDataAlmostDone, length := 0);
    OneByteChunk(p);
    RunOne(q, 88);
    var cut: seq<seq<Byte>> := [d, [88]];
    assert cut[1..] == [[88]] && cut[1..][1..] == [];
    assert Call(q, [88]).items == [];
    assert Feed(q, cut[1..]).items == [] + [];
    assert Feed(p, cut).items == [ChunkHeader(1), BodyByte(97)] + [];
  }

  /** A request that upgrades the connection and has the body `a`, and then a byte of the other protocol. In one piece
      that byte is left alone; cut in front of it, it is read on a connection that is not kept alive as an error. */
  lemma {:induction false} OtherProtocolReadOn(msg: Message)
    requires msg == Message(true, false, true, false, false, false, false, 1, 0, 0)
    ensures var p := BeginBody(msg, 1).p;
            Feed(p, [[97, 88]]).p.errno == OK && Feed(p, [[97], [88]]).p.errno == ClosedConnection
  {
    UpgradedThen(msg, 88);
    RunOne(Complete(BeginBody(msg, 1).p.(length := 0), []).p.(left := false), 88);
  }

  /** The same on a connection that is kept alive, where the byte is read as a method: an `X` is an error, and a `G` is
      reported as the beginning of a message. */
  lemma {:induction false} OtherProtocolBegins(msg: Message)
    requires msg == Message(true, false, true, false, false, false, false, 1, 1, 0)
    ensures var p := BeginBody(msg, 1).p;
            && Feed(p, [[97, 88]]).p.errno == OK && Feed(p, [[97], [88]]).p.errno == InvalidMethod
            && Feed(p, [[97, 71]]).items == [BodyByte(97), MessageComplete]
            && Feed(p, [[97], [71]]).items == [BodyByte(97), MessageComplete, MessageBegin]
  {
    var r := Complete(BeginBody(msg, 1).p.(length := 0), []).p.(left := false);
    UpgradedThen(msg, 88);
    UpgradedThen(msg, 71);
    RunOne(r, 88);
    RunOne(r, 71);
  }

  lemma {:induction false} UpgradedThen(msg: Message, ch: Byte)
    requires msg.isRequest && msg.upgrade && !msg.isConnect && !msg.chunked && !msg.skipBody
    ensures var p, done := BeginBody(msg, 1).p, [BodyByte(97), MessageComplete];
            var r := Complete(p.(length := 0), []).p;
            var q := r.(left := false);
            && Feed(p, [[97, ch]]) == Outcome(r, done)
            && Feed(p, [[97], [ch]]) == Outcome(Run(q, [ch]).p, done + Delivered(q, [ch]))
  {
    var p := BeginBody(msg, 1).p;
    var r, done := Complete(p.(length := 0), []).p, [BodyByte(97), MessageComplete];
    RunOne(p, 97);
    RunConcat(p, [97], [ch]);
    HaltedRun(r, [ch]);
    assert [97] + [ch] == [97, ch] && done + [] == done;
    var whole: seq<seq<Byte>> := [[97, ch]];
    var cut: seq<seq<Byte>> := [[97], [ch]];
    assert whole[1..] == [] && cut[1..] == [[ch]] && cut[1..][1..] == [];
    assert Feed(p, whole) == Outcome(r, done + []);
    var d := Delivered(r.(left := false), [ch]);
    assert d + [] == d;
    assert Feed(r, cut[1..]) == Outcome(Run(r.(left := false), [ch]).p, d + []);
  }

  // --------------------------------------------------------- Content-Length

  predicate IsNum(ch: Byte) { 48 <= ch <= 57 }

  datatype Length = Rejected | Accepted(value: nat)

  /** One more character of the value of a Content-Length header. */
  function LengthStep(length: Length, ch: Byte): Length {
    if length.Rejected? || ch == SPACE then length
    else if !IsNum(ch) then Rejected
    else if (ULLONG_MAX - 10) / 10 < length.value then Rejected
    else Accepted((length.value * 10 + (ch - 48)) % (ULLONG_MAX + 1))
  }

  /** The value of a Content-Length header, leading white space already skipped. */
  function ContentLength(s: seq<Byte>): Length
    requires s != []
  {
    if |s| == 1 then (if IsNum(s[0]) then Accepted(s[0] - 48) else Rejected)
    else LengthStep(ContentLength(s[..|s| - 1]), s[|s| - 1])
  }

  function Digits(s: seq<Byte>): seq<Byte> {
    if s == [] then [] else Digits(s[..|s| - 1]) + (if s[|s| - 1] == SPACE then [] else [s[|s| - 1]])
  }

  predicate Decimal(s: seq<Byte>) {
    forall i :: 0 <= i < |s| ==> IsNum(s[i])
  }

  function Number(s: seq<Byte>): nat
    requires Decimal(s)
  {
    if s == [] then 0 else 10 * Number(s[..|s| - 1]) + (s[|s| - 1] - 48)
  }

  /** The digits `d` have been read, exactly, or rejected. */
  ghost predicate LengthRead(d: seq<Byte>, l: Length) {
    && (l.Accepted? <==> Decimal(d) && d != [] && Number(d[..|d| - 1]) <= (ULLONG_MAX - 10) / 10)
    && (l.Accepted? ==> l.value == Number(d) && Number(d) < ULLONG_MAX)
  }

  /** The header is accepted exactly if it starts with a digit, holds only digits and spaces, and the
      number in front of the last digit passes the overflow test; the value is then the number that
      the digits denote, below the sentinel. */
  lemma {:induction false} ContentLengthIsExact(s: seq<Byte>)
    requires s != []
    ensures s[0] == SPACE ==> ContentLength(s).Rejected?
    ensures s[0] != SPACE ==> Digits(s) != [] && LengthRead(Digits(s), ContentLength(s))
  {
    var front, ch := s[..|s| - 1], s[|s| - 1];
    if |s| == 1 {
      LengthOne(s[0]);
    } else {
      ContentLengthIsExact(front);
      if ch == SPACE {
        assert Digits(s) == Digits(front);
      } else if s[0] != SPACE {
        LengthGrows(Digits(front), ContentLength(front), ch);
      }
    }
  }

  lemma LengthOne(ch: Byte)
    ensures ch == SPACE ==> ContentLength([ch]).Rejected?
    ensures ch != SPACE ==> Digits([ch]) == [ch] && LengthRead([ch], ContentLength([ch]))
  {
    assert [ch][..0] == [];
    assert Decimal([ch]) <==> IsNum([ch][0]);
  }

  lemma LengthGrows(d: seq<Byte>, l: Length, ch: Byte)
    requires d != [] && LengthRead(d, l) && ch != SPACE
    ensures LengthRead(d + [ch], LengthStep(l, ch))
  {
    var e := d + [ch];
    assert e[..|e| - 1] == d;
    assert e[|d|] == ch;
    assert Decimal(e) <==> Decimal(d) && IsNum(ch) by {
      if Decimal(e) {
        assert forall i :: 0 <= i < |d| ==> d[i] == e[i];
      }
    }
    if Decimal(d) {
      assert Number(d) >= Number(d[..|d| - 1]);
    }
  }
}
