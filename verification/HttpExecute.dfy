/**
 The loop of `http_parser_execute` over the body states. Unlike the machine in
 `HttpBody` it skips over body bytes in bulk and reports them through a mark
 that is turned into one callback later.
 */
module HttpExecute {
  import opened Sequences
  import opened HttpBody

  datatype Event =
    | OnBody(piece: seq<Byte>) | OnChunkHeader(length: nat) | OnChunkComplete | OnMessageComplete | OnMessageBegin

  function Bytes(data: seq<Byte>): (r: seq<Item>)
    ensures |r| == |data| && forall i :: 0 <= i < |data| ==> r[i] == BodyByte(data[i])
  {
    seq(|data|, i requires 0 <= i < |data| => BodyByte(data[i]))
  }

  /** The trace after joining adjacent body pieces. */
  function Flat(events: seq<Event>): seq<Item> {
    if events == [] then [] else Flat(events[..|events| - 1]) + Items(events[|events| - 1])
  }

  function Items(e: Event): seq<Item> {
    match e
    case OnBody(piece) => Bytes(piece)
    case OnChunkHeader(length) => [ChunkHeader(length)]
    case OnChunkComplete => [ChunkComplete]
    case OnMessageComplete => [MessageComplete]
    case OnMessageBegin => [MessageBegin]
  }

  function Notice(item: Item): Event {
    match item
    case BodyByte(b) => OnBody([b])
    case ChunkHeader(length) => OnChunkHeader(length)
    case ChunkComplete => OnChunkComplete
    case MessageComplete => OnMessageComplete
    case MessageBegin => OnMessageBegin
  }

  function Notices(items: seq<Item>): seq<Event> {
    if items == [] then [] else [Notice(items[0])] + Notices(items[1..])
  }

  lemma FlatSnoc(events: seq<Event>, e: Event)
    ensures Flat(events + [e]) == Flat(events) + Items(e)
  {
    assert (events + [e])[..|events|] == events;
  }

  lemma ItemsOfNotice(item: Item)
    ensures Items(Notice(item)) == [item]
  {
  }

  lemma {:induction false} FlatNotices(events: seq<Event>, items: seq<Item>)
    ensures Flat(events + Notices(items)) == Flat(events) + items
    decreases |items|
  {
    if items == [] {
      assert events + Notices(items) == events;
    } else {
      var e, rest := Notice(items[0]), items[1..];
      calc {
        Flat(events + Notices(items));
        { assert events + Notices(items) == events + [e] + Notices(rest); }
        Flat(events + [e] + Notices(rest));
        { FlatNotices(events + [e], rest); }
        Flat(events + [e]) + rest;
        { FlatSnoc(events, e); ItemsOfNotice(items[0]); }
        Flat(events) + [items[0]] + rest;
        { assert items == [items[0]] + rest; }
        Flat(events) + items;
      }
    }
  }

  lemma {:induction false} FlatOfNotices(items: seq<Item>)
    ensures Flat(Notices(items)) == items
  {
    FlatNotices([], items);
    assert [] + Notices(items) == Notices(items);
    assert Flat([]) + items == items;
  }

  // ------------------------------------------------------------- bulk steps

  lemma {:induction false} BulkChunk(p: Parser, d: seq<Byte>)
    requires !Halted(p) && p.state == ChunkData && |d| <= p.length && 0 < p.length
    ensures |d| < p.length ==> Run(p, d) == Outcome(p.(length := p.length - |d|), Bytes(d))
    ensures |d| == p.length ==> Run(p, d) == Outcome(p.(length := 0, state := ChunkDataAlmostDone), Bytes(d))
    ensures Used(p, d) == |d|
    decreases |d|
  {
    if d != [] {
      if |d| == 1 {
        assert d[1..] == [];
      } else {
        BulkChunk(Step(p, d[0]).p, d[1..]);
      }
      assert Bytes(d) == [BodyByte(d[0])] + Bytes(d[1..]);
    }
  }

  lemma {:induction false} BulkIdentity(p: Parser, d: seq<Byte>)
    requires !Halted(p) && p.state == BodyIdentity && |d| <= p.length && 0 < p.length
    ensures |d| < p.length ==> Run(p, d) == Outcome(p.(length := p.length - |d|), Bytes(d))
    ensures |d| == p.length ==> Run(p, d) == Complete(p.(length := 0), Bytes(d))
    ensures Used(p, d) == |d|
    decreases |d|
  {
    if d != [] {
      if |d| == 1 {
        assert d[1..] == [];
      } else {
        BulkIdentity(Step(p, d[0]).p, d[1..]);
      }
      assert Bytes(d) == [BodyByte(d[0])] + Bytes(d[1..]);
      assert Bytes(d) + [MessageComplete] == [BodyByte(d[0])] + (Bytes(d[1..]) + [MessageComplete]);
    }
  }

  lemma {:induction false} BulkEof(p: Parser, d: seq<Byte>)
    requires !Halted(p) && p.state == BodyIdentityEof
    ensures Run(p, d) == Outcome(p, Bytes(d)) && Used(p, d) == |d|
    decreases |d|
  {
    if d != [] {
      BulkEof(p, d[1..]);
      assert Bytes(d) == [BodyByte(d[0])] + Bytes(d[1..]);
    }
  }

  lemma {:induction false} UsedConcat(p: Parser, a: seq<Byte>, b: seq<Byte>)
    requires Used(p, a) == |a|
    ensures Used(p, a + b) == |a| + Used(Run(p, a).p, b)
    decreases |a|
  {
    if a == [] {
      assert a + b == b;
    } else {
      assert (a + b)[0] == a[0] && (a + b)[1..] == a[1..] + b;
      UsedConcat(Step(p, a[0]).p, a[1..], b);
    }
  }

  // ------------------------------------------------------------- the loop

  /** The bytes between the body mark and the read position. */
  function Marked(data: seq<Byte>, mark: int, i: int): seq<Item> {
    if 0 <= mark <= i <= |data| then Bytes(data[mark..i]) else []
  }

  predicate EndsQuiet(items: seq<Item>) {
    items == [] || !items[|items| - 1].BodyByte?
  }

  /** Between two iterations: all bytes so far are read, and the trace of the byte-at-a-time
      machine is what was reported followed by what the mark still holds back. */
  ghost predicate LoopInv(p0: Parser, data: seq<Byte>, i: nat, mark: int, p: Parser, out: seq<Item>) {
    && i <= |data| && -1 <= mark < i
    && Used(p0, data[..i]) == i
    && BodyOk(p)
    && Run(p0, data[..i]) == Outcome(p, out + Marked(data, mark, i))
    && (i < |data| ==> (mark >= 0 <==> p.state == ChunkDataAlmostDone && i > 0))
    && (p.state == ChunkDataAlmostDone && mark >= 0 ==> EndsQuiet(out))
    && (p.state == ChunkData && 0 < i < |data| ==> EndsQuiet(out))
  }

  /** Reading the next `n` bytes extends the run so far. */
  lemma {:induction false} Extend(p0: Parser, data: seq<Byte>, i: nat, n: nat)
    requires i + n <= |data| && Used(p0, data[..i]) == i
    ensures var o := Run(Run(p0, data[..i]).p, data[i..i + n]);
            && Run(p0, data[..i + n]) == Outcome(o.p, Run(p0, data[..i]).items + o.items)
            && Used(p0, data[..i + n]) == i + Used(Run(p0, data[..i]).p, data[i..i + n])
  {
    assert data[..i + n] == data[..i] + data[i..i + n];
    RunConcat(p0, data[..i], data[i..i + n]);
    UsedConcat(p0, data[..i], data[i..i + n]);
  }

  /** Reading the next `n` bytes to their end. */
  lemma {:induction false} ManySteps(p0: Parser, data: seq<Byte>, i: nat, n: nat, p: Parser, acc: seq<Item>)
    requires i + n <= |data| && Used(p0, data[..i]) == i && Run(p0, data[..i]) == Outcome(p, acc)
    requires BodyOk(p) && Used(p, data[i..i + n]) == n
    ensures var o := Run(p, data[i..i + n]);
            && Used(p0, data[..i + n]) == i + n
            && Run(p0, data[..i + n]) == Outcome(o.p, acc + o.items) && BodyOk(o.p)
  {
    Extend(p0, data, i, n);
    RunKeepsBodyOk(p, data[i..i + n]);
  }

  lemma Unmarked(data: seq<Byte>, i: int, out: seq<Item>)
    ensures out + Marked(data, -1, i) == out
  {
  }

  lemma {:induction false} SkipChunk(
    p0: Parser, data: seq<Byte>, i: nat, mark: int, p: Parser, out: seq<Item>, n: nat)
    requires LoopInv(p0, data, i, mark, p, out) && i < |data| && !Halted(p) && p.state == ChunkData
    requires n == |data| - i < p.length
    ensures LoopInv(p0, data, i + n, i, p.(length := p.length - n), out)
  {
    Unmarked(data, i, out);
    BulkChunk(p, data[i..i + n]);
    ManySteps(p0, data, i, n, p, out);
  }

  lemma {:induction false} FillChunk(
    p0: Parser, data: seq<Byte>, i: nat, mark: int, p: Parser, out: seq<Item>, n: nat)
    requires LoopInv(p0, data, i, mark, p, out) && i < |data| && !Halted(p) && p.state == ChunkData
    requires n == p.length <= |data| - i
    ensures LoopInv(p0, data, i + n, i, p.(length := 0, state := ChunkDataAlmostDone), out)
  {
    Unmarked(data, i, out);
    BulkChunk(p, data[i..i + n]);
    ManySteps(p0, data, i, n, p, out);
  }

  lemma {:induction false} SkipIdentity(
    p0: Parser, data: seq<Byte>, i: nat, mark: int, p: Parser, out: seq<Item>, n: nat)
    requires LoopInv(p0, data, i, mark, p, out) && i < |data| && !Halted(p) && p.state == BodyIdentity
    requires n == |data| - i < p.length
    ensures LoopInv(p0, data, i + n, i, p.(length := p.length - n), out)
  {
    Unmarked(data, i, out);
    BulkIdentity(p, data[i..i + n]);
    ManySteps(p0, data, i, n, p, out);
  }

  lemma {:induction false} EndIdentity(
    p0: Parser, data: seq<Byte>, i: nat, mark: int, p: Parser, out: seq<Item>, n: nat)
    requires LoopInv(p0, data, i, mark, p, out) && i < |data| && !Halted(p) && p.state == BodyIdentity
    requires n == p.length <= |data| - i
    ensures LoopInv(p0, data, i + n, -1, Complete(p.(length := 0), []).p,
                    out + Bytes(data[i..i + n]) + [MessageComplete])
  {
    Unmarked(data, i, out);
    BulkIdentity(p, data[i..i + n]);
    ManySteps(p0, data, i, n, p, out);
    Assoc(out, Bytes(data[i..i + n]), [MessageComplete]);
    Unmarked(data, i + n, out + Bytes(data[i..i + n]) + [MessageComplete]);
  }

  lemma {:induction false} SkipEof(p0: Parser, data: seq<Byte>, i: nat, mark: int, p: Parser, out: seq<Item>)
    requires LoopInv(p0, data, i, mark, p, out) && i < |data| && !Halted(p) && p.state == BodyIdentityEof
    ensures LoopInv(p0, data, |data|, i, p, out)
  {
    Unmarked(data, i, out);
    BulkEof(p, data[i..i + (|data| - i)]);
    ManySteps(p0, data, i, |data| - i, p, out);
  }

  lemma RunOne(p: Parser, ch: Byte)
    requires !Halted(p)
    ensures Run(p, [ch]) == Step(p, ch)
    ensures Used(p, [ch]) == if Step(p, ch).p.errno == OK then 1 else 0
  {
    assert Step(p, ch).items + [] == Step(p, ch).items;
  }

  lemma {:induction false} OneStep(p0: Parser, data: seq<Byte>, i: nat, p: Parser, acc: seq<Item>)
    requires i < |data| && Used(p0, data[..i]) == i && Run(p0, data[..i]) == Outcome(p, acc)
    requires !Halted(p) && BodyOk(p) && Step(p, data[i]).p.errno == OK
    ensures var o := Step(p, data[i]);
            Used(p0, data[..i + 1]) == i + 1 && Run(p0, data[..i + 1]) == Outcome(o.p, acc + o.items) && BodyOk(o.p)
  {
    Extend(p0, data, i, 1);
    assert data[i..i + 1] == [data[i]];
    RunOne(p, data[i]);
    StepKeepsBodyOk(p, data[i]);
  }

  /** The carriage return after chunk data: the marked piece is reported. */
  lemma {:induction false} EndChunk(p0: Parser, data: seq<Byte>, i: nat, mark: int, p: Parser, out: seq<Item>)
    requires LoopInv(p0, data, i, mark, p, out) && i < |data| && !Halted(p)
    requires p.state == ChunkDataAlmostDone && data[i] == CR
    ensures LoopInv(p0, data, i + 1, -1, p.(state := ChunkDataDone), out + Marked(data, mark, i))
  {
    var acc := out + Marked(data, mark, i);
    OneStep(p0, data, i, p, acc);
    assert acc + [] == acc;
    Unmarked(data, i + 1, acc);
  }

  predicate Bulk(s: State) {
    s.ChunkData? || s.ChunkDataAlmostDone? || s.BodyIdentity? || s.BodyIdentityEof?
  }

  lemma {:induction false} OneByte(p0: Parser, data: seq<Byte>, i: nat, mark: int, p: Parser, out: seq<Item>)
    requires LoopInv(p0, data, i, mark, p, out) && i < |data| && !Halted(p) && !Bulk(p.state)
    ensures var o := Step(p, data[i]);
            && o.p.errno == OK ==> LoopInv(p0, data, i + 1, -1, o.p, out + o.items)
  {
    var o := Step(p, data[i]);
    Unmarked(data, i, out);
    if o.p.errno == OK {
      OneStep(p0, data, i, p, out);
      Unmarked(data, i + 1, out + o.items);
      QuietStep(p, data[i]);
    }
  }

  /** The other states report no body, and chunk data starts right behind its header. */
  lemma QuietStep(p: Parser, ch: Byte)
    requires !Halted(p) && !Bulk(p.state)
    ensures var o := Step(p, ch);
            && o.p.state != ChunkDataAlmostDone
            && (o.p.state == ChunkData ==> o.items != [] && !o.items[|o.items| - 1].BodyByte?)
  {
  }

  // ------------------------------------------------------- what is reported

  function DropBody(items: seq<Item>): seq<Item> {
    if items != [] && items[|items| - 1].BodyByte? then DropBody(items[..|items| - 1]) else items
  }

  /** Chunk data in this buffer, and behind it a byte that is not the carriage return. */
  predicate BadChunkEnd(p: Parser, data: seq<Byte>) {
    var e := Run(p, data).p;
    e.errno == Strict && e.state == ChunkDataAlmostDone && Used(p, data) > 0
  }

  /** What one call reports: a bad chunk end drops the piece that the mark holds back. */
  function Delivered(p: Parser, data: seq<Byte>): seq<Item> {
    if BadChunkEnd(p, data) then DropBody(Run(p, data).items) else Run(p, data).items
  }

  /** A new call reads on where the call before has left an upgraded message behind. */
  function Enter(p: Parser): Parser {
    p.(left := false)
  }

  /** The end of the connection. */
  function Eof(p: Parser): Outcome {
    if p.errno != OK then Silent(p)
    else match p.state
      case BodyIdentityEof => Outcome(p, [MessageComplete])
      case Dead => Silent(p)
      case Start => Silent(p)
      case _ => Silent(p.(errno := InvalidEofState))
  }

  /** One call of `http_parser_execute`. */
  function Call(p: Parser, data: seq<Byte>): Outcome {
    var q := Enter(p);
    if data == [] then Eof(q) else Outcome(Run(q, data).p, Delivered(q, data))
  }

  /** What the call returns. */
  function CallUsed(p: Parser, data: seq<Byte>): nat {
    var q := Enter(p);
    if data != [] then Used(q, data) else if Eof(q).p.errno == q.errno then 0 else 1
  }

  lemma {:induction false} DropBodyOf(out: seq<Item>, d: seq<Byte>)
    requires EndsQuiet(out)
    ensures DropBody(out + Bytes(d)) == out
    decreases |d|
  {
    if d == [] {
      assert out + Bytes(d) == out;
    } else {
      assert (out + Bytes(d))[..|out| + |d| - 1] == out + Bytes(d[..|d| - 1]);
      DropBodyOf(out, d[..|d| - 1]);
    }
  }

  lemma {:induction false} Rest(p0: Parser, data: seq<Byte>, i: nat)
    requires i <= |data| && Used(p0, data[..i]) == i
    ensures var o := Run(Run(p0, data[..i]).p, data[i..]);
            && Run(p0, data) == Outcome(o.p, Run(p0, data[..i]).items + o.items)
            && Used(p0, data) == i + Used(Run(p0, data[..i]).p, data[i..])
  {
    Extend(p0, data, i, |data| - i);
    assert data[..|data|] == data;
  }

  lemma {:induction false} FinishHalted(p0: Parser, data: seq<Byte>, i: nat, p: Parser, out: seq<Item>)
    requires LoopInv(p0, data, i, -1, p, out) && Halted(p) && p.errno == OK
    ensures Run(p0, data).p == p && Delivered(p0, data) == out && Used(p0, data) == i
  {
    Rest(p0, data, i);
    assert out + [] == out && out + [] + [] == out;
  }

  lemma {:induction false} FinishEnd(p0: Parser, data: seq<Byte>, mark: int, p: Parser, out: seq<Item>)
    requires LoopInv(p0, data, |data|, mark, p, out) && p.errno == OK
    ensures Run(p0, data).p == p && Delivered(p0, data) == out + Marked(data, mark, |data|) && Used(p0, data) == |data|
  {
    assert data[..|data|] == data;
  }

  lemma ErrorIsSilent(p: Parser, ch: Byte)
    requires !Halted(p) && Step(p, ch).p.errno != OK
    ensures Step(p, ch).items == [] && Step(p, ch).p.state == p.state
  {
  }

  lemma {:induction false} FinishError(p0: Parser, data: seq<Byte>, i: nat, mark: int, p: Parser, out: seq<Item>)
    requires LoopInv(p0, data, i, mark, p, out) && i < |data| && !Halted(p) && Step(p, data[i]).p.errno != OK
    ensures Run(p0, data).p == Step(p, data[i]).p && Delivered(p0, data) == out && Used(p0, data) == i
  {
    ErrorIsSilent(p, data[i]);
    Rest(p0, data, i);
    var all := out + Marked(data, mark, i);
    assert all + ([] + []) == all;
    if mark >= 0 {
      DropBodyOf(out, data[mark..i]);
    } else {
      assert out + [] == out;
    }
  }

  /** Reporting one more event, or the notices of one step, after `before + out`. */
  lemma {:induction false} ReportEvent(trace: seq<Event>, before: seq<Item>, out: seq<Item>, e: Event)
    requires Flat(trace) == before + out
    ensures Flat(trace + [e]) == before + (out + Items(e))
  {
    FlatSnoc(trace, e);
    Assoc(before, out, Items(e));
  }

  lemma {:induction false} ReportNotices(trace: seq<Event>, before: seq<Item>, out: seq<Item>, items: seq<Item>)
    requires Flat(trace) == before + out
    ensures Flat(trace + Notices(items)) == before + (out + items)
  {
    calc {
      Flat(trace + Notices(items));
      { FlatNotices(trace, items); }
      before + out + items;
      { Assoc(before, out, items); }
      before + (out + items);
    }
  }

  lemma {:induction false} ReportEnd(trace: seq<Event>, before: seq<Item>, out: seq<Item>, d: seq<Byte>)
    requires Flat(trace) == before + out
    ensures Flat(trace + [OnBody(d)] + [OnMessageComplete]) == before + (out + Bytes(d) + [MessageComplete])
  {
    ReportEvent(trace, before, out, OnBody(d));
    ReportEvent(trace + [OnBody(d)], before, out + Bytes(d), OnMessageComplete);
  }

  class HttpParser {
    var parser: Parser
    var trace: seq<Event>

    /** A parser whose headers are complete. */
    constructor (msg: Message, length: nat)
      requires length <= ULLONG_MAX
      ensures parser == BeginBody(msg, length).p && BodyOk(parser)
      ensures Flat(trace) == BeginBody(msg, length).items
    {
      parser := BeginBody(msg, length).p;
      trace := Notices(BeginBody(msg, length).items);
      FlatOfNotices(BeginBody(msg, length).items);
    }

    /** `len == 0`: the end of the connection. */
    method ExecuteEof() returns (nparsed: nat)
      requires BodyOk(parser) && parser.errno == OK
      modifies this
      ensures parser == Eof(old(parser)).p && BodyOk(parser)
      ensures Flat(trace) == Flat(old(trace)) + Eof(old(parser)).items
      ensures nparsed == if parser.errno == OK then 0 else 1
    {
      nparsed := 0;
      assert Flat(trace) + [] == Flat(trace);
      if parser.state == BodyIdentityEof {
        FlatSnoc(trace, OnMessageComplete);
        trace := trace + [OnMessageComplete];
      } else if parser.state != Dead && parser.state != Start {
        parser := parser.(errno := InvalidEofState);
        nparsed := 1;
      }
    }

    ghost predicate Continues(p0: Parser, before: seq<Item>, data: seq<Byte>, i: nat, mark: int, out: seq<Item>)
      reads this
    {
      LoopInv(p0, data, i, mark, parser, out) && Flat(trace) == before + out && (Halted(parser) ==> mark == -1)
    }

    /** What one iteration of the loop leaves behind: a read position further on, or an error at this byte. */
    ghost predicate Iterated(p0: Parser, before: seq<Item>, data: seq<Byte>, i: nat, mark: int, out: seq<Item>)
      reads this
    {
      if parser.errno == OK then Continues(p0, before, data, i, mark, out)
      else
        && parser == Run(p0, data).p
        && Flat(trace) == before + Delivered(p0, data)
        && i == Used(p0, data)
    }

    method InChunkData(ghost p0: Parser, data: seq<Byte>, i: nat, mark: int, ghost out: seq<Item>)
        returns (i': nat, mark': int)
      requires LoopInv(p0, data, i, mark, parser, out)
      requires i < |data| && !Halted(parser) && parser.state == ChunkData
      modifies this`parser
      ensures LoopInv(p0, data, i', mark', parser, out) && !Halted(parser) && i < i'
    {
      var toRead := if parser.length < |data| - i then parser.length else |data| - i;
      i', mark' := i + toRead, i;
      if toRead != parser.length {
        SkipChunk(p0, data, i, mark, parser, out, toRead);
        parser := parser.(length := parser.length - toRead);
      } else {
        FillChunk(p0, data, i, mark, parser, out, toRead);
        parser := parser.(length := 0, state := ChunkDataAlmostDone);
      }
    }

    method InIdentity(
      ghost p0: Parser, ghost before: seq<Item>, data: seq<Byte>, i: nat, mark: int, ghost out: seq<Item>)
        returns (i': nat, mark': int, ghost out': seq<Item>)
      requires LoopInv(p0, data, i, mark, parser, out) && Flat(trace) == before + out
      requires i < |data| && !Halted(parser) && parser.state == BodyIdentity
      modifies this
      ensures Continues(p0, before, data, i', mark', out') && parser.errno == OK && i < i'
    {
      var toRead := if parser.length < |data| - i then parser.length else |data| - i;
      mark', out' := i, out;
      ghost var p := parser;
      parser := parser.(length := parser.length - toRead);
      i' := i + toRead;
      if parser.length != 0 {
        SkipIdentity(p0, data, i, mark, p, out, toRead);
      } else {
        EndIdentity(p0, data, i, mark, p, out, toRead);
        out' := out + Bytes(data[i..i']) + [MessageComplete];
        EndBody(p0, before, data, i, i', out);
        mark' := -1;
      }
    }

    /** The end of an identity body: the bytes from `i` to `i'` and the completion are reported. */
    method EndBody(ghost p0: Parser, ghost before: seq<Item>, data: seq<Byte>, i: nat, i': nat, ghost out: seq<Item>)
      requires i <= i' <= |data| && parser.errno == OK && Flat(trace) == before + out
      requires LoopInv(p0, data, i', -1, Complete(parser, []).p, out + Bytes(data[i..i']) + [MessageComplete])
      modifies this
      ensures Continues(p0, before, data, i', -1, out + Bytes(data[i..i']) + [MessageComplete]) && parser.errno == OK
    {
      parser := parser.(state := NewMessage(parser), left := parser.msg.upgrade);
      ReportBodyAndEnd(data[i..i'], before, out);
    }

    method ReportBodyAndEnd(piece: seq<Byte>, ghost before: seq<Item>, ghost out: seq<Item>)
      requires Flat(trace) == before + out
      modifies this`trace
      ensures Flat(trace) == before + (out + Bytes(piece) + [MessageComplete])
    {
      ReportEnd(trace, before, out, piece);
      trace := trace + [OnBody(piece)];
      trace := trace + [OnMessageComplete];
    }

    method AfterChunkData(
      ghost p0: Parser, ghost before: seq<Item>, data: seq<Byte>, i: nat, mark: int, ghost out: seq<Item>)
        returns (i': nat, mark': int, ghost out': seq<Item>)
      requires LoopInv(p0, data, i, mark, parser, out) && Flat(trace) == before + out
      requires i < |data| && !Halted(parser) && parser.state == ChunkDataAlmostDone
      modifies this
      ensures Iterated(p0, before, data, i', mark', out') && (parser.errno == OK ==> i < i')
    {
      i', mark', out' := i, mark, out;
      if data[i] != CR {
        FinishError(p0, data, i, mark, parser, out);
        parser := parser.(errno := Strict);
      } else {
        EndChunk(p0, data, i, mark, parser, out);
        parser := parser.(state := ChunkDataDone);
        ReportMarked(data, mark, i, before, out);
        out' := out + Marked(data, mark, i);
        i', mark' := i + 1, -1;
      }
    }

    method ReportMarked(data: seq<Byte>, mark: int, i: nat, ghost before: seq<Item>, ghost out: seq<Item>)
      requires mark < i <= |data| && Flat(trace) == before + out
      modifies this`trace
      ensures Flat(trace) == before + (out + Marked(data, mark, i))
    {
      if mark >= 0 {
        ReportEvent(trace, before, out, OnBody(data[mark..i]));
        trace := trace + [OnBody(data[mark..i])];
      } else {
        assert out + [] == out;
      }
    }

    method InOtherState(
      ghost p0: Parser, ghost before: seq<Item>, data: seq<Byte>, i: nat, mark: int, ghost out: seq<Item>)
        returns (i': nat, ghost out': seq<Item>)
      requires LoopInv(p0, data, i, mark, parser, out) && Flat(trace) == before + out
      requires i < |data| && !Halted(parser) && !Bulk(parser.state)
      modifies this
      ensures Iterated(p0, before, data, i', -1, out') && (parser.errno == OK ==> i < i')
    {
      var o := Step(parser, data[i]);
      i', out' := i, out;
      if o.p.errno != OK {
        FinishError(p0, data, i, mark, parser, out);
      } else {
        OneByte(p0, data, i, mark, parser, out);
        ReportNotices(trace, before, out, o.items);
        trace := trace + Notices(o.items);
        i', out' := i + 1, out + o.items;
      }
      parser := o.p;
    }

    /** One call: without bytes it is the end of the connection; with bytes it is the byte-at-a-time machine: same
        parser, same count, and the same trace but for the piece that a bad chunk end drops. */
    method Execute(data: seq<Byte>) returns (nparsed: nat)
      requires BodyOk(parser)
      modifies this
      ensures parser == Call(old(parser), data).p && BodyOk(parser)
      ensures Flat(trace) == Flat(old(trace)) + Call(old(parser), data).items
      ensures nparsed == CallUsed(old(parser), data)
    {
      ghost var before := Flat(trace);
      assert before + [] == before;
      parser := Enter(parser);
      if parser.errno != OK {
        return 0;
      }
      if data == [] {
        nparsed := ExecuteEof();
      } else {
        nparsed := Loop(data);
      }
    }

    /** The loop over the bytes of one call. */
    method Loop(data: seq<Byte>) returns (nparsed: nat)
      requires BodyOk(parser)
      modifies this
      ensures parser == Run(old(parser), data).p && BodyOk(parser)
      ensures Flat(trace) == Flat(old(trace)) + Delivered(old(parser), data)
      ensures nparsed == Used(old(parser), data)
    {
      ghost var p0, before := parser, Flat(trace);
      ghost var out: seq<Item> := [];
      RunKeepsBodyOk(p0, data);
      if Halted(parser) {
        assert before + [] == before;
        return 0;
      }
      var i, mark := 0, -1;
      assert LoopInv(p0, data, i, mark, parser, out);
      while i < |data|
        invariant Iterated(p0, before, data, i, mark, out)
        invariant !Halted(parser)
      {
        if parser.state == ChunkData {
          i, mark := InChunkData(p0, data, i, mark, out);
        } else if parser.state == BodyIdentity {
          i, mark, out := InIdentity(p0, before, data, i, mark, out);
        } else if parser.state == BodyIdentityEof {
          SkipEof(p0, data, i, mark, parser, out);
          i, mark := |data|, i;
        } else if parser.state == ChunkDataAlmostDone {
          i, mark, out := AfterChunkData(p0, before, data, i, mark, out);
        } else {
          i, out := InOtherState(p0, before, data, i, mark, out);
          mark := -1;
        }
        if Halted(parser) {
          if parser.errno == OK {
            FinishHalted(p0, data, i, parser, out);
          }
          return i;
        }
      }
      FinishEnd(p0, data, mark, parser, out);
      ReportMarked(data, mark, i, before, out);
      return i;
    }
  }
}
