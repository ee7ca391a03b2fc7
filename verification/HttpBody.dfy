/**
 Body framing of the bundled HTTP parser, in strict mode: identity bodies,
 bodies that end with the connection, and the chunked coding (sections 3.6.1
 and 4.4 of RFC 2616). This module is the machine that is fed one byte at a
 time; `HttpExecute` holds the loop that skips ahead in bulk.

 `Start` is the start of the next message. `NextMessage` and `Outside` stand for
 the code behind the first byte of the next message and of a trailer field; what
 the parser does from there on is not followed. Behind an upgraded message the
 source returns from the call whatever the state is; `left` records that.
 */
module HttpBody {

  type Byte = b: int | 0 <= b < 256

  const CR: Byte := 13
  const LF: Byte := 10
  const SPACE: Byte := 32
  const SEMICOLON: Byte := 59
  const CAPITAL_C: Byte := 67
  const CAPITAL_H: Byte := 72
  const ULLONG_MAX := 0xFFFF_FFFF_FFFF_FFFF
  const MAX_HEADER_SIZE := 80 * 1024

  datatype State =
    | Dead | Start | NextMessage | Outside | HeaderFieldStart
    | ChunkSizeStart | ChunkSize | ChunkParameters | ChunkSizeAlmostDone | HeadersAlmostDone
    | ChunkData | ChunkDataAlmostDone | ChunkDataDone | BodyIdentity | BodyIdentityEof

  datatype Errno =
    | OK | Strict | InvalidChunkSize | InvalidContentLength | HeaderOverflow | ClosedConnection | InvalidEofState
    | InvalidMethod | InvalidConstant

  /** What the request or status line and the headers decided. */
  datatype Message = Message(
    isRequest: bool, isConnect: bool, upgrade: bool, chunked: bool, skipBody: bool,
    keepAlive: bool, close: bool, major: nat, minor: nat, status: nat)

  datatype Parser = Parser(
    state: State, errno: Errno, nread: nat, length: nat, trailing: bool, msg: Message, left: bool)

  /** A callback trace in which body pieces are spelled out, so that adjacent pieces are joined. */
  datatype Item = BodyByte(b: Byte) | ChunkHeader(length: nat) | ChunkComplete | MessageComplete | MessageBegin

  datatype Outcome = Outcome(p: Parser, items: seq<Item>)

  // ------------------------------------------------------------ the machine

  /** The lookup table: entries from 128 up are implicitly zero. */
  function Unhex(ch: Byte): int {
    if 48 <= ch <= 57 then ch - 48
    else if 65 <= ch <= 70 then ch - 55
    else if 97 <= ch <= 102 then ch - 87
    else if ch >= 128 then 0
    else -1
  }

  predicate NeedsEof(p: Parser) {
    && !p.msg.isRequest
    && !(p.msg.status / 100 == 1 || p.msg.status == 204 || p.msg.status == 304 || p.msg.skipBody)
    && !(p.msg.chunked || p.length != ULLONG_MAX)
  }

  predicate ShouldKeepAlive(p: Parser) {
    && (if p.msg.major > 0 && p.msg.minor > 0 then !p.msg.close else p.msg.keepAlive)
    && !NeedsEof(p)
  }

  function NewMessage(p: Parser): State {
    if ShouldKeepAlive(p) then Start else Dead
  }

  /** States whose bytes count as header bytes. */
  predicate CountsHeader(s: State) {
    || s.Dead? || s.Start? || s.HeaderFieldStart? || s.ChunkSizeStart? || s.ChunkSize? || s.ChunkParameters?
    || s.ChunkSizeAlmostDone? || s.HeadersAlmostDone?
  }

  /** The machine reads nothing more: an error, a next message or trailer field begun, or another protocol. */
  predicate Halted(p: Parser) {
    p.errno != OK || p.state == NextMessage || p.state == Outside || p.left
  }

  function Fail(p: Parser, e: Errno): Outcome { Outcome(p.(errno := e), []) }

  function Silent(p: Parser): Outcome { Outcome(p, []) }

  function Complete(p: Parser, items: seq<Item>): Outcome {
    Outcome(p.(state := NewMessage(p), left := p.msg.upgrade), items + [MessageComplete])
  }

  /** The choice made when the headers are complete (section 4.4 of RFC 2616). */
  function BeginBody(msg: Message, length: nat): Outcome {
    var p := Parser(Start, OK, 0, length, false, msg, false);
    var hasBody := msg.chunked || (length > 0 && length != ULLONG_MAX);
    if msg.upgrade && (msg.isConnect || msg.skipBody || !hasBody) then Complete(p, [])
    else if msg.skipBody then Complete(p, [])
    else if msg.chunked then Silent(p.(state := ChunkSizeStart))
    else if length == 0 then Complete(p, [])
    else if length != ULLONG_MAX then Silent(p.(state := BodyIdentity))
    else if !NeedsEof(p) then Complete(p, [])
    else Silent(p.(state := BodyIdentityEof))
  }

  /** One more hexadecimal digit, in 64-bit arithmetic with the source's overflow test. */
  function AddDigit(p: Parser, digit: nat): (o: Outcome)
    requires p.errno == OK && digit < 16
    ensures o.p.errno == OK <==> 16 * p.length <= ULLONG_MAX - 16
    ensures o.p.errno == OK ==> o == Silent(p.(length := p.length * 16 + digit)) && o.p.length < ULLONG_MAX
  {
    var t := (p.length * 16 + digit) % (ULLONG_MAX + 1);
    if (ULLONG_MAX - 16) / 16 < p.length then Fail(p, InvalidContentLength)
    else Silent(p.(length := t))
  }

  function Count(p: Parser): Parser {
    if CountsHeader(p.state) then p.(nread := p.nread + 1) else p
  }

  function Step(p: Parser, ch: Byte): Outcome
    requires !Halted(p)
  {
    var q := Count(p);
    if CountsHeader(p.state) && q.nread > MAX_HEADER_SIZE then Fail(q, HeaderOverflow)
    else Dispatch(q, ch)
  }

  function Dispatch(p: Parser, ch: Byte): Outcome
    requires !Halted(p)
  {
    match p.state
    case Dead => if ch == CR || ch == LF then Silent(p) else Fail(p, ClosedConnection)
    case HeaderFieldStart =>
      if ch == CR then Silent(p.(state := HeadersAlmostDone))
      else if ch == LF then EndOfHeaders(p)
      else Silent(p.(state := Outside))
    case HeadersAlmostDone => if ch != LF then Fail(p, Strict) else EndOfHeaders(p)
    case ChunkSizeStart =>
      if Unhex(ch) == -1 then Fail(p, InvalidChunkSize)
      else Silent(p.(length := Unhex(ch), state := ChunkSize))
    case ChunkSize =>
      if ch == CR then Silent(p.(state := ChunkSizeAlmostDone))
      else if Unhex(ch) != -1 then AddDigit(p, Unhex(ch))
      else if ch == SEMICOLON || ch == SPACE then Silent(p.(state := ChunkParameters))
      else Fail(p, InvalidChunkSize)
    case ChunkParameters => if ch == CR then Silent(p.(state := ChunkSizeAlmostDone)) else Silent(p)
    case ChunkSizeAlmostDone =>
      if ch != LF then Fail(p, Strict)
      else if p.length == 0 then
        Outcome(p.(nread := 0, trailing := true, state := HeaderFieldStart), [ChunkHeader(0)])
      else Outcome(p.(nread := 0, state := ChunkData), [ChunkHeader(p.length)])
    case ChunkData =>
      if p.length <= 1
      then Outcome(p.(length := 0, state := ChunkDataAlmostDone), [BodyByte(ch)])
      else Outcome(p.(length := p.length - 1), [BodyByte(ch)])
    case ChunkDataAlmostDone => if ch != CR then Fail(p, Strict) else Silent(p.(state := ChunkDataDone))
    case ChunkDataDone =>
      if ch != LF then Fail(p, Strict)
      else Outcome(p.(nread := 0, state := ChunkSizeStart), [ChunkComplete])
    case BodyIdentity =>
      if p.length <= 1 then Complete(p.(length := 0), [BodyByte(ch)])
      else Outcome(p.(length := p.length - 1), [BodyByte(ch)])
    case BodyIdentityEof => Outcome(p, [BodyByte(ch)])
    case Start => if p.msg.isRequest then BeginRequest(p, ch) else BeginResponse(p, ch)
    case NextMessage => Silent(p)
    case Outside => Silent(p)
  }

  /** What the next message starts from: no flags and no length. */
  function Fresh(p: Parser): Parser {
    p.(length := ULLONG_MAX, trailing := false,
       msg := p.msg.(chunked := false, skipBody := false, keepAlive := false, close := false))
  }

  /** The capital letters with which a method may start: all but E, F, I, J, K, Q and V to Z. */
  predicate MethodLetter(ch: Byte) {
    65 <= ch <= 68 || ch == 71 || ch == 72 || 76 <= ch <= 80 || 82 <= ch <= 85
  }

  predicate Alpha(ch: Byte) {
    65 <= ch <= 90 || 97 <= ch <= 122
  }

  /** Between requests line ends are skipped. */
  function BeginRequest(p: Parser, ch: Byte): Outcome {
    if ch == CR || ch == LF then Silent(p)
    else if !Alpha(ch) then Fail(Fresh(p), InvalidMethod)
    else
      var q := Fresh(p).(msg := Fresh(p).msg.(isConnect := ch == CAPITAL_C));
      if MethodLetter(ch) then Outcome(q.(state := NextMessage), [MessageBegin]) else Fail(q, InvalidMethod)
  }

  /** Between responses every line end is reported as the beginning of a message, too. */
  function BeginResponse(p: Parser, ch: Byte): Outcome {
    if ch == CAPITAL_H then Outcome(Fresh(p).(state := NextMessage), [MessageBegin])
    else if ch == CR || ch == LF then Outcome(Fresh(p), [MessageBegin])
    else Fail(Fresh(p), InvalidConstant)
  }

  /** The empty line: after the last chunk it ends the message. */
  function EndOfHeaders(p: Parser): Outcome {
    if p.trailing then Complete(p, [ChunkComplete]) else Silent(p.(state := Outside))
  }

  /** Feeding a whole sequence, one byte after the other. */
  function Run(p: Parser, data: seq<Byte>): Outcome
    decreases |data|
  {
    if data == [] || Halted(p) then Silent(p)
    else
      var o := Step(p, data[0]);
      var rest := Run(o.p, data[1..]);
      Outcome(rest.p, o.items + rest.items)
  }

  /** The number of bytes read before the machine stopped; a byte that raises an error is not counted. */
  function Used(p: Parser, data: seq<Byte>): (n: nat)
    ensures n <= |data|
    decreases |data|
  {
    if data == [] || Halted(p) || Step(p, data[0]).p.errno != OK then 0
    else 1 + Used(Step(p, data[0]).p, data[1..])
  }

  // ------------------------------------------------- what every byte keeps

  /** The conditions that the source asserts in the body states, and what they need. */
  predicate BodyOk(p: Parser) {
    && p.nread <= MAX_HEADER_SIZE + (if p.errno == OK then 0 else 1)
    && p.length <= ULLONG_MAX
    && (p.errno == OK ==> Asserted(p, Count(p).nread))
  }

  predicate Asserted(p: Parser, nread: nat) {
    match p.state
    case BodyIdentity => !p.msg.chunked && 0 < p.length < ULLONG_MAX
    case BodyIdentityEof => !p.msg.chunked && p.length == ULLONG_MAX
    case ChunkSizeStart => p.msg.chunked && nread == 1
    case ChunkSize => p.msg.chunked && p.length < ULLONG_MAX
    case ChunkParameters => p.msg.chunked && p.length < ULLONG_MAX
    case ChunkSizeAlmostDone => p.msg.chunked && p.length < ULLONG_MAX
    case ChunkData => p.msg.chunked && 0 < p.length < ULLONG_MAX
    case ChunkDataAlmostDone => p.msg.chunked && p.length == 0
    case ChunkDataDone => p.msg.chunked
    case HeaderFieldStart => p.msg.chunked && p.trailing
    case HeadersAlmostDone => p.msg.chunked && p.trailing
    case Dead => true
    case Start => true
    case NextMessage => true
    case Outside => true
  }

  lemma DispatchKeepsAsserted(p: Parser, ch: Byte)
    requires !Halted(p) && Asserted(p, p.nread)
    ensures var q := Dispatch(p, ch).p; q.errno == OK ==> Asserted(q, Count(q).nread)
  {
  }

  lemma StepKeepsBodyOk(p: Parser, ch: Byte)
    requires BodyOk(p) && !Halted(p)
    ensures BodyOk(Step(p, ch).p)
  {
    var q := Count(p);
    if !(CountsHeader(p.state) && q.nread > MAX_HEADER_SIZE) {
      DispatchKeepsAsserted(q, ch);
      DispatchRanges(q, ch);
    }
  }

  lemma DispatchRanges(p: Parser, ch: Byte)
    requires !Halted(p) && p.length <= ULLONG_MAX
    ensures Dispatch(p, ch).p.nread <= p.nread && Dispatch(p, ch).p.length <= ULLONG_MAX
  {
  }

  /** The source's assertions hold in every state that any bytes can lead to after any headers. */
  lemma {:induction false} AssertionsHold(msg: Message, length: nat, data: seq<Byte>)
    requires length <= ULLONG_MAX
    ensures BodyOk(Run(BeginBody(msg, length).p, data).p)
  {
    RunKeepsBodyOk(BeginBody(msg, length).p, data);
  }

  lemma {:induction false} RunKeepsBodyOk(p: Parser, data: seq<Byte>)
    requires BodyOk(p)
    ensures BodyOk(Run(p, data).p)
    decreases |data|
  {
    if data != [] && !Halted(p) {
      StepKeepsBodyOk(p, data[0]);
      RunKeepsBodyOk(Step(p, data[0]).p, data[1..]);
    }
  }

  lemma {:induction false} RunConcat(p: Parser, a: seq<Byte>, b: seq<Byte>)
    ensures Run(p, a + b) == Outcome(Run(Run(p, a).p, b).p, Run(p, a).items + Run(Run(p, a).p, b).items)
    decreases |a|
  {
    if a == [] {
      assert a + b == b;
      assert Run(p, b).items == [] + Run(p, b).items;
    } else if Halted(p) {
    } else {
      assert (a + b)[0] == a[0] && (a + b)[1..] == a[1..] + b;
      RunConcat(Step(p, a[0]).p, a[1..], b);
      var o := Step(p, a[0]);
      assert o.items + (Run(o.p, a[1..]).items + Run(Run(o.p, a[1..]).p, b).items)
          == (o.items + Run(o.p, a[1..]).items) + Run(Run(o.p, a[1..]).p, b).items;
    }
  }
}
