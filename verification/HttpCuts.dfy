/**
 The parser is fed a stream that arrives in arbitrary pieces, one call per piece.
 A call without bytes is the end of the connection. For non-empty pieces it is
 shown exactly when the final state and the joined trace do not depend on where
 the stream is cut; the exceptions are stated by the guards that cause them.
 */
module HttpCuts {
  import opened Sequences
  import opened HttpBody
  import opened HttpExecute

  function Join(pieces: seq<seq<Byte>>): seq<Byte> {
    if pieces == [] then [] else pieces[0] + Join(pieces[1..])
  }

  ghost predicate NonEmpty(pieces: seq<seq<Byte>>) {
    forall i :: 0 <= i < |pieces| ==> pieces[i] != []
  }

  /** Successive calls of `Execute`. */
  function Feed(p: Parser, pieces: seq<seq<Byte>>): Outcome
    decreases |pieces|
  {
    if pieces == [] then Silent(p)
    else
      var o := Call(p, pieces[0]);
      var rest := Feed(o.p, pieces[1..]);
      Outcome(rest.p, o.items + rest.items)
  }

  /** Does a piece start at offset `n` of the joined stream? */
  predicate IsCut(pieces: seq<seq<Byte>>, n: nat) {
    n == 0 || (pieces != [] && n >= |pieces[0]| && IsCut(pieces[1..], n - |pieces[0]|))
  }

  /** The byte at offset `n` is the one behind chunk data, and it is not the carriage return. */
  predicate BadEnd(p: Parser, data: seq<Byte>, n: nat) {
    && n < |data| && !Halted(Run(p, data[..n]).p)
    && Run(p, data[..n]).p.state == ChunkDataAlmostDone && data[n] != CR
  }

  /** The byte behind chunk data is not the carriage return, and no piece starts at it. */
  ghost predicate LossyCut(p: Parser, pieces: seq<seq<Byte>>) {
    exists n: nat :: BadEnd(p, Join(pieces), n) && !IsCut(pieces, n)
  }

  /** The first `n` bytes end an upgraded message, behind which another protocol is spoken. */
  predicate LeftAt(p: Parser, data: seq<Byte>, n: nat) {
    n <= |data| && IsLeft(Run(p, data[..n]).p)
  }

  predicate IsLeft(p: Parser) {
    p.errno == OK && p.left && Between(p.state)
  }

  /** Behind a message. */
  predicate Between(s: State) {
    s == Start || s == Dead
  }

  /** A piece starts behind such a message, and so it is read as the next one. */
  ghost predicate ReadsOn(p: Parser, pieces: seq<seq<Byte>>) {
    exists m: nat :: ReadsOnAt(p, pieces, m)
  }

  predicate ReadsOnAt(p: Parser, pieces: seq<seq<Byte>>, m: nat) {
    m < |Join(pieces)| && LeftCut(p, pieces, m)
  }

  predicate LeftCut(p: Parser, pieces: seq<seq<Byte>>, m: nat) {
    IsCut(pieces, m) && LeftAt(p, Join(pieces), m)
  }

  /** The first such piece starts at offset `m`. */
  ghost predicate RestartsAt(p: Parser, pieces: seq<seq<Byte>>, m: nat) {
    ReadsOnAt(p, pieces, m) && forall i: nat :: i < m ==> !LeftCut(p, pieces, i)
  }

  /** This byte is reported as the beginning of a message. */
  predicate Opens(p: Parser, ch: Byte) {
    && !Halted(p) && p.state == Start && p.nread < MAX_HEADER_SIZE
    && if p.msg.isRequest then MethodLetter(ch) else ch == CAPITAL_H || ch == CR || ch == LF
  }

  predicate OpensAt(p: Parser, data: seq<Byte>, j: nat) {
    j < |data| && Opens(Run(p, data[..j]).p, data[j])
  }

  ghost predicate OpensSomewhere(p: Parser, data: seq<Byte>) {
    exists j: nat :: OpensAt(p, data, j)
  }

  /** A piece starts behind an upgraded message, and from there on a message begins. */
  ghost predicate BeginsBehind(p: Parser, pieces: seq<seq<Byte>>) {
    exists m: nat :: BeginsAt(p, pieces, m)
  }

  ghost predicate BeginsAt(p: Parser, pieces: seq<seq<Byte>>, m: nat) {
    RestartsAt(p, pieces, m) && OpensBehind(p, Join(pieces), m)
  }

  ghost predicate OpensBehind(p: Parser, data: seq<Byte>, m: nat) {
    m <= |data| && OpensSomewhere(Enter(Run(p, data[..m]).p), data[m..])
  }

  // ---------------------------------------------------- reading to an offset

  lemma {:induction false} UsedAll(p: Parser, data: seq<Byte>)
    requires !Halted(Run(p, data).p)
    ensures Used(p, data) == |data|
    decreases |data|
  {
    if data != [] {
      UsedAll(Step(p, data[0]).p, data[1..]);
    }
  }

  lemma {:induction false} UsedUpToError(p: Parser, a: seq<Byte>, b: seq<Byte>)
    requires Run(p, a).p.errno != OK
    ensures Used(p, a + b) == Used(p, a) && (Used(p, a) < |a| || a == [])
    decreases |a|
  {
    if a != [] && !Halted(p) {
      assert (a + b)[0] == a[0] && (a + b)[1..] == a[1..] + b;
      if Step(p, a[0]).p.errno == OK {
        UsedUpToError(Step(p, a[0]).p, a[1..], b);
      }
    }
  }

  /** A bad chunk end is an error at its offset. */
  lemma {:induction false} BadEndFails(p: Parser, data: seq<Byte>, n: nat)
    requires BadEnd(p, data, n)
    ensures var e := Run(p, data).p; e.errno == Strict && e.state == ChunkDataAlmostDone && Used(p, data) == n
  {
    var a, q := data[..n], Run(p, data[..n]).p;
    UsedAll(p, a);
    assert data == a + data[n..];
    RunConcat(p, a, data[n..]);
    UsedConcat(p, a, data[n..]);
  }

  /** And every error of this kind comes from a bad chunk end. */
  lemma {:induction false} FailsAtBadEnd(p: Parser, data: seq<Byte>)
    requires p.errno == OK && Run(p, data).p.errno == Strict && Run(p, data).p.state == ChunkDataAlmostDone
    ensures BadEnd(p, data, Used(p, data))
    decreases |data|
  {
    var o := Step(p, data[0]);
    if o.p.errno == OK {
      FailsAtBadEnd(o.p, data[1..]);
      var n := Used(o.p, data[1..]);
      assert data[..n + 1][0] == data[0] && data[..n + 1][1..] == data[1..][..n];
    } else {
      ErrorIsSilent(p, data[0]);
      assert data[..0] == [];
    }
  }

  /** The loss, by the guard of the branch that causes it: see `Delivered`. */
  lemma {:induction false} BadChunkEndGuard(p: Parser, data: seq<Byte>)
    ensures BadChunkEnd(p, data) <==> exists n :: n > 0 && BadEnd(p, data, n)
  {
    if BadChunkEnd(p, data) {
      FailsAtBadEnd(p, data);
    }
    forall n | n > 0 && BadEnd(p, data, n)
      ensures BadChunkEnd(p, data)
    {
      BadEndFails(p, data, n);
    }
  }

  /** The exception of `CutKeepsTrace` in terms of the final error. */
  predicate LossyError(p: Parser, pieces: seq<seq<Byte>>) {
    var e := Run(p, Join(pieces)).p;
    && p.errno == OK && e.errno == Strict && e.state == ChunkDataAlmostDone
    && !IsCut(pieces, Used(p, Join(pieces)))
  }

  lemma {:induction false} LossyIsLossy(p: Parser, pieces: seq<seq<Byte>>)
    ensures LossyCut(p, pieces) <==> LossyError(p, pieces)
  {
    var data := Join(pieces);
    if LossyError(p, pieces) {
      FailsAtBadEnd(p, data);
    }
    forall n: nat | BadEnd(p, data, n) && !IsCut(pieces, n)
      ensures LossyError(p, pieces)
    {
      BadEndFails(p, data, n);
      assert !(Halted(p)) by { HaltedRun(p, data[..n]); }
    }
  }

  lemma HaltedRun(p: Parser, data: seq<Byte>)
    ensures Halted(p) ==> Run(p, data) == Silent(p) && Used(p, data) == 0
  {
  }

  // -------------------------------------------------------- what the loss is

  lemma {:induction false} BadEndIsBody(p: Parser, data: seq<Byte>)
    requires BadChunkEnd(p, data)
    ensures var items := Run(p, data).items; items != [] && items[|items| - 1].BodyByte?
    decreases |data|
  {
    var o := Step(p, data[0]);
    if Used(o.p, data[1..]) > 0 {
      BadEndIsBody(o.p, data[1..]);
    } else {
      var e := Step(o.p, data[1]);
      assert Run(e.p, data[1..][1..]) == Silent(e.p);
      ErrorIsSilent(o.p, data[1]);
      IntoAlmostDone(p, data[0]);
    }
  }

  /** Only the last byte of the chunk data leads to the state that expects the carriage return. */
  lemma IntoAlmostDone(p: Parser, ch: Byte)
    requires !Halted(p) && Step(p, ch).p.state == ChunkDataAlmostDone && Step(p, ch).p.errno == OK
    ensures Step(p, ch).items == [BodyByte(ch)]
  {
  }

  lemma DropBodyShortens(items: seq<Item>)
    ensures |DropBody(items)| <= |items|
    ensures items != [] && items[|items| - 1].BodyByte? ==> |DropBody(items)| < |items|
  {
  }

  // ----------------------------------------------- what is behind a message

  /** The same parser, up to whether the last call has left another protocol behind. */
  predicate Same(p: Parser, q: Parser) {
    p.(left := false) == q.(left := false)
  }

  /** A parser that stays halted from call to call. */
  predicate Stopped(p: Parser) {
    p.errno != OK || p.state == NextMessage || p.state == Outside
  }

  lemma {:induction false} StoppedFeed(p: Parser, pieces: seq<seq<Byte>>)
    requires Stopped(p) && NonEmpty(pieces)
    ensures Same(Feed(p, pieces).p, p) && Feed(p, pieces).items == []
    decreases |pieces|
  {
    if pieces != [] {
      HaltedRun(Enter(p), pieces[0]);
      StoppedFeed(Enter(p), pieces[1..]);
    }
  }

  /** About to read behind a message. */
  predicate Reading(p: Parser) {
    p.errno == OK && Between(p.state) && !p.left
  }

  lemma BetweenStep(p: Parser, ch: Byte)
    requires Reading(p)
    ensures var o := Step(p, ch);
            && !o.p.left && (Between(o.p.state) || o.p.state == NextMessage) && o.p.nread == p.nread + 1
            && (o.items != [] <==> Opens(p, ch)) && (o.p.errno != OK ==> Between(o.p.state))
            && (o.p.errno == OK && o.p.state == NextMessage ==> o.items != [])
  {
  }

  /** Behind a message the parser stays there, or begins another one, or fails; it is never left again. */
  lemma {:induction false} BetweenRun(p: Parser, data: seq<Byte>)
    requires Reading(p)
    ensures var r := Run(p, data).p;
            && !r.left && (Between(r.state) || r.state == NextMessage)
            && (data != [] ==> r.nread > p.nread) && (data == [] ==> r == p)
    decreases |data|
  {
    if data != [] {
      BetweenStep(p, data[0]);
      var q := Step(p, data[0]).p;
      if Reading(q) {
        BetweenRun(q, data[1..]);
      } else {
        HaltedRun(q, data[1..]);
      }
    }
  }

  /** What is reported there is the beginning of messages, by the guards of the two start states. */
  lemma {:induction false} BetweenOpens(p: Parser, data: seq<Byte>)
    requires Reading(p)
    ensures Run(p, data).items != [] <==> OpensSomewhere(p, data)
    decreases |data|
  {
    if data != [] {
      var o, rest := Step(p, data[0]), data[1..];
      BetweenStep(p, data[0]);
      assert data[..0] == [];
      assert OpensAt(p, data, 0) <==> Opens(p, data[0]);
      OpensShift(p, data);
      if Reading(o.p) {
        BetweenOpens(o.p, rest);
      } else {
        HaltedRun(o.p, rest);
        HaltedOpensNothing(o.p, rest);
      }
    }
  }

  lemma {:induction false} HaltedOpensNothing(p: Parser, data: seq<Byte>)
    requires Halted(p)
    ensures !OpensSomewhere(p, data)
  {
    forall j: nat | j < |data|
      ensures !OpensAt(p, data, j)
    {
      HaltedRun(p, data[..j]);
    }
  }

  lemma {:induction false} OpensShift(p: Parser, data: seq<Byte>)
    requires !Halted(p) && data != []
    ensures OpensSomewhere(p, data) <==> OpensAt(p, data, 0) || OpensSomewhere(Step(p, data[0]).p, data[1..])
  {
    var q, rest := Step(p, data[0]).p, data[1..];
    forall j: nat | OpensAt(p, data, j) && j > 0
      ensures OpensAt(q, rest, j - 1)
    {
      assert data[..j][0] == data[0] && data[..j][1..] == rest[..j - 1];
    }
    forall j: nat | OpensAt(q, rest, j)
      ensures OpensAt(p, data, j + 1)
    {
      assert data[..j + 1][0] == data[0] && data[..j + 1][1..] == rest[..j];
    }
  }

  /** There is no exception to the theorems below for a parser that starts behind a message. */
  lemma {:induction false} BetweenIsPlain(p: Parser, pieces: seq<seq<Byte>>)
    requires Reading(p)
    ensures !ReadsOn(p, pieces) && !LossyCut(p, pieces) && !BeginsBehind(p, pieces)
  {
    var data := Join(pieces);
    forall n: nat | n <= |data|
      ensures !LeftAt(p, data, n) && !BadEnd(p, data, n)
    {
      BetweenRun(p, data[..n]);
    }
  }

  // ------------------------------------------------------- the final state

  /** Once left, always left. */
  lemma {:induction false} LeftStays(p: Parser, data: seq<Byte>, n: nat)
    requires LeftAt(p, data, n)
    ensures Run(p, data).p == Run(p, data[..n]).p
  {
    assert data == data[..n] + data[n..];
    RunConcat(p, data[..n], data[n..]);
    HaltedRun(Run(p, data[..n]).p, data[n..]);
  }

  /** An upgraded message that ends in the first piece is seen there; one that ends later is seen later. */
  lemma {:induction false} LeftLater(p: Parser, a: seq<Byte>, rest: seq<Byte>, n: nat)
    ensures LeftAt(p, a + rest, n) && n <= |a| ==> IsLeft(Run(p, a).p)
    ensures n >= |a| ==> (LeftAt(p, a + rest, n) <==> LeftAt(Run(p, a).p, rest, n - |a|))
  {
    if n <= |a| {
      assert (a + rest)[..n] == a[..n];
      if LeftAt(p, a + rest, n) {
        LeftStays(p, a, n);
      }
    }
    if |a| <= n <= |a + rest| {
      assert (a + rest)[..n] == a + rest[..n - |a|];
      RunConcat(p, a, rest[..n - |a|]);
    }
  }

  lemma IsCutLater(pieces: seq<seq<Byte>>, n: nat)
    requires pieces != []
    ensures IsCut(pieces, |pieces[0]| + n) <==> IsCut(pieces[1..], n)
  {
  }

  lemma {:induction false} LeftCutLater(q: Parser, pieces: seq<seq<Byte>>, m: nat)
    requires pieces != [] && !Halted(Run(q, pieces[0]).p)
    ensures LeftCut(q, pieces, m) ==> m >= |pieces[0]|
    ensures m >= |pieces[0]| ==>
              (LeftCut(q, pieces, m) <==> LeftCut(Run(q, pieces[0]).p, pieces[1..], m - |pieces[0]|))
  {
    var a, rest := pieces[0], pieces[1..];
    assert Join(pieces) == a + Join(rest);
    LeftLater(q, a, Join(rest), m);
    if m >= |a| {
      IsCutLater(pieces, m - |a|);
    }
  }

  lemma {:induction false} ReadsOnAtLater(q: Parser, pieces: seq<seq<Byte>>, m: nat)
    requires pieces != [] && !Halted(Run(q, pieces[0]).p)
    ensures ReadsOnAt(q, pieces, m) ==> m >= |pieces[0]|
    ensures m >= |pieces[0]| ==>
              (ReadsOnAt(q, pieces, m) <==> ReadsOnAt(Run(q, pieces[0]).p, pieces[1..], m - |pieces[0]|))
  {
    assert Join(pieces) == pieces[0] + Join(pieces[1..]);
    LeftCutLater(q, pieces, m);
  }

  lemma {:induction false} ReadsOnLater(q: Parser, pieces: seq<seq<Byte>>)
    requires pieces != [] && !Halted(Run(q, pieces[0]).p)
    ensures ReadsOn(q, pieces) <==> ReadsOn(Run(q, pieces[0]).p, pieces[1..])
  {
    if ReadsOn(q, pieces) {
      var m: nat :| ReadsOnAt(q, pieces, m);
      ReadsOnAtLater(q, pieces, m);
    }
    if ReadsOn(Run(q, pieces[0]).p, pieces[1..]) {
      var m: nat :| ReadsOnAt(Run(q, pieces[0]).p, pieces[1..], m);
      ReadsOnAtLater(q, pieces, m + |pieces[0]|);
    }
  }

  /** A stopped parser has not left another protocol behind. */
  lemma {:induction false} StoppedNeverLeft(q: Parser, pieces: seq<seq<Byte>>)
    requires pieces != [] && Stopped(Run(q, pieces[0]).p)
    ensures !ReadsOn(q, pieces) && !BeginsBehind(q, pieces)
  {
    var a, data := pieces[0], Join(pieces[1..]);
    forall n: nat | LeftAt(q, a + data, n)
      ensures false
    {
      LeftLater(q, a, data, n);
      if n > |a| {
        HaltedRun(Run(q, a).p, data[..n - |a|]);
      }
    }
  }

  /** In one piece nothing starts behind the message. */
  lemma {:induction false} OnePieceIsPlain(q: Parser, pieces: seq<seq<Byte>>)
    requires |pieces| == 1 && !q.left
    ensures !ReadsOn(q, pieces) && !BeginsBehind(q, pieces)
  {
    assert Join(pieces) == pieces[0] + [] == pieces[0];
    assert pieces[0][..0] == [];
  }

  lemma {:induction false} LeftReadsOn(q: Parser, pieces: seq<seq<Byte>>)
    requires |pieces| > 1 && NonEmpty(pieces) && IsLeft(Run(q, pieces[0]).p) && !q.left
    ensures ReadsOn(q, pieces) && RestartsAt(q, pieces, |pieces[0]|)
  {
    var a, data := pieces[0], Join(pieces[1..]);
    assert pieces[1] != [] && data == pieces[1] + Join(pieces[1..][1..]);
    assert Join(pieces) == a + data;
    assert (a + data)[..|a|] == a && (a + data)[..0] == [];
    IsCutLater(pieces, 0);
    assert ReadsOnAt(q, pieces, |a|);
  }

  /** The final parser state is the one that the whole stream in one piece leads to, unless a piece starts behind an
      upgraded message: then it is never the same. (A parser that has begun the next message stays in `NextMessage`, so
      it counts as different for good.) */
  lemma {:induction false} CutKeepsState(p: Parser, pieces: seq<seq<Byte>>)
    requires pieces != [] && NonEmpty(pieces)
    ensures Same(Feed(p, pieces).p, Run(Enter(p), Join(pieces)).p) <==> !ReadsOn(Enter(p), pieces)
    decreases |pieces|
  {
    var q, a, rest := Enter(p), pieces[0], pieces[1..];
    var r := Run(q, a).p;
    RunConcat(q, a, Join(rest));
    if rest == [] {
      OnePieceIsPlain(q, pieces);
    } else if Stopped(r) {
      StoppedFeed(r, rest);
      HaltedRun(r, Join(rest));
      StoppedNeverLeft(q, pieces);
    } else {
      CutKeepsState(r, rest);
      if Halted(r) {
        StateBehind(q, pieces);
      } else {
        ReadsOnLater(q, pieces);
      }
    }
  }

  /** A left parser is behind a message. */
  lemma {:induction false} LeftIsBetween(q: Parser, data: seq<Byte>)
    requires !q.left && Run(q, data).p.left
    ensures Between(Run(q, data).p.state) && Run(q, data).p.errno == OK
    decreases |data|
  {
    if data != [] && !Halted(q) {
      var r := Step(q, data[0]).p;
      if r.left {
        HaltedRun(r, data[1..]);
      } else {
        LeftIsBetween(r, data[1..]);
      }
    }
  }

  lemma {:induction false} StateBehind(q: Parser, pieces: seq<seq<Byte>>)
    requires |pieces| > 1 && NonEmpty(pieces) && Enter(q) == q
    requires var r, rest := Run(q, pieces[0]).p, pieces[1..];
             && Halted(r) && !Stopped(r)
             && (Same(Feed(r, rest).p, Run(Enter(r), Join(rest)).p) <==> !ReadsOn(Enter(r), rest))
    ensures ReadsOn(q, pieces) && !Same(Feed(q, pieces).p, Run(q, Join(pieces)).p)
  {
    var r, rest := Run(q, pieces[0]).p, pieces[1..];
    LeftIsBetween(q, pieces[0]);
    LeftReadsOn(q, pieces);
    BetweenIsPlain(Enter(r), rest);
    BetweenRun(Enter(r), Join(rest));
    RunConcat(q, pieces[0], Join(rest));
    HaltedRun(r, Join(rest));
    assert rest[0] != [] && Join(rest) != [];
  }

  // ------------------------------------------------------- the joined trace

  /** The joined trace is that of the byte-at-a-time machine exactly when no piece of body is lost at a bad chunk end
      and no message begins in a piece that starts behind an upgraded message. */
  lemma {:induction false} CutKeepsTrace(p: Parser, pieces: seq<seq<Byte>>)
    requires NonEmpty(pieces)
    ensures Feed(p, pieces).items == Run(Enter(p), Join(pieces)).items <==>
            !LossyCut(Enter(p), pieces) && !BeginsBehind(Enter(p), pieces)
    decreases |pieces|
  {
    var q := Enter(p);
    LossyIsLossy(q, pieces);
    if pieces != [] {
      var r, rest := Run(q, pieces[0]).p, pieces[1..];
      if r.errno != OK {
        CutInError(q, pieces);
        StoppedNeverLeft(q, pieces);
      } else if Stopped(r) {
        CutStopped(q, pieces);
        StoppedNeverLeft(q, pieces);
      } else if Halted(r) {
        CutKeepsTrace(r, rest);
        TraceBehind(q, pieces);
      } else {
        CutKeepsTrace(r, rest);
        LossyIsLossy(r, rest);
        CutLater(q, pieces);
      }
    }
  }

  lemma {:induction false} FeedSplits(q: Parser, pieces: seq<seq<Byte>>)
    requires pieces != [] && pieces[0] != [] && Enter(q) == q
    ensures var r := Run(q, pieces[0]).p;
            && Feed(q, pieces).items == Delivered(q, pieces[0]) + Feed(r, pieces[1..]).items
            && Run(q, Join(pieces)).items == Run(q, pieces[0]).items + Run(r, Join(pieces[1..])).items
            && Run(q, Join(pieces)).p == Run(r, Join(pieces[1..])).p
  {
    RunConcat(q, pieces[0], Join(pieces[1..]));
  }

  /** The first piece is read to its end. */
  lemma {:induction false} CutLater(q: Parser, pieces: seq<seq<Byte>>)
    requires pieces != [] && pieces[0] != [] && Enter(q) == q && !Halted(Run(q, pieces[0]).p)
    requires var r, rest := Run(q, pieces[0]).p, pieces[1..];
             Feed(r, rest).items == Run(r, Join(rest)).items <==> !LossyError(r, rest) && !BeginsBehind(r, rest)
    ensures Feed(q, pieces).items == Run(q, Join(pieces)).items <==>
            !LossyError(q, pieces) && !BeginsBehind(q, pieces)
  {
    var r, rest := Run(q, pieces[0]).p, pieces[1..];
    FeedSplits(q, pieces);
    SamePrefix(Run(q, pieces[0]).items, Feed(r, rest).items, Run(r, Join(rest)).items);
    LossyLater(q, pieces);
    BeginsLater(q, pieces);
  }

  lemma {:induction false} LossyLater(q: Parser, pieces: seq<seq<Byte>>)
    requires pieces != [] && !Halted(Run(q, pieces[0]).p)
    ensures LossyError(q, pieces) <==> LossyError(Run(q, pieces[0]).p, pieces[1..])
  {
    var a, rest := pieces[0], pieces[1..];
    RunConcat(q, a, Join(rest));
    UsedAll(q, a);
    UsedConcat(q, a, Join(rest));
    IsCutLater(pieces, Used(Run(q, a).p, Join(rest)));
    HaltedRun(q, a);
  }

  lemma {:induction false} RestartsLater(q: Parser, pieces: seq<seq<Byte>>, m: nat)
    requires pieces != [] && !Halted(Run(q, pieces[0]).p)
    ensures RestartsAt(q, pieces, m) ==> m >= |pieces[0]|
    ensures m >= |pieces[0]| ==>
              (RestartsAt(q, pieces, m) <==> RestartsAt(Run(q, pieces[0]).p, pieces[1..], m - |pieces[0]|))
  {
    var a, rest := pieces[0], pieces[1..];
    assert Join(pieces) == a + Join(rest);
    LeftCutLater(q, pieces, m);
    forall i: nat | i < m && LeftCut(q, pieces, i)
      ensures i >= |a| && LeftCut(Run(q, a).p, rest, i - |a|)
    {
      LeftCutLater(q, pieces, i);
    }
    forall i: nat | LeftCut(Run(q, a).p, rest, i)
      ensures LeftCut(q, pieces, i + |a|)
    {
      LeftCutLater(q, pieces, i + |a|);
    }
  }

  lemma {:induction false} OpensLater(q: Parser, a: seq<Byte>, data: seq<Byte>, m: nat)
    requires m <= |data|
    ensures OpensBehind(q, a + data, |a| + m) <==> OpensBehind(Run(q, a).p, data, m)
  {
    assert (a + data)[..|a| + m] == a + data[..m] && (a + data)[|a| + m..] == data[m..];
    RunConcat(q, a, data[..m]);
  }

  lemma {:induction false} BeginsAtLater(q: Parser, pieces: seq<seq<Byte>>, m: nat)
    requires pieces != [] && !Halted(Run(q, pieces[0]).p)
    ensures BeginsAt(q, pieces, m) ==> m >= |pieces[0]|
    ensures m >= |pieces[0]| ==>
              (BeginsAt(q, pieces, m) <==> BeginsAt(Run(q, pieces[0]).p, pieces[1..], m - |pieces[0]|))
  {
    RestartsLater(q, pieces, m);
    if |pieces[0]| <= m < |Join(pieces)| {
      OpensPiecesLater(q, pieces, m);
    }
  }

  lemma {:induction false} OpensPiecesLater(q: Parser, pieces: seq<seq<Byte>>, m: nat)
    requires pieces != [] && |pieces[0]| <= m <= |Join(pieces)|
    ensures OpensBehind(q, Join(pieces), m) <==>
            OpensBehind(Run(q, pieces[0]).p, Join(pieces[1..]), m - |pieces[0]|)
  {
    assert Join(pieces) == pieces[0] + Join(pieces[1..]);
    OpensLater(q, pieces[0], Join(pieces[1..]), m - |pieces[0]|);
  }

  lemma {:induction false} BeginsLater(q: Parser, pieces: seq<seq<Byte>>)
    requires pieces != [] && !Halted(Run(q, pieces[0]).p)
    ensures BeginsBehind(q, pieces) <==> BeginsBehind(Run(q, pieces[0]).p, pieces[1..])
  {
    if BeginsBehind(q, pieces) {
      var m: nat :| BeginsAt(q, pieces, m);
      BeginsAtLater(q, pieces, m);
    }
    if BeginsBehind(Run(q, pieces[0]).p, pieces[1..]) {
      var m: nat :| BeginsAt(Run(q, pieces[0]).p, pieces[1..], m);
      BeginsAtLater(q, pieces, m + |pieces[0]|);
    }
  }

  lemma {:induction false} SamePrefix(a: seq<Item>, x: seq<Item>, y: seq<Item>)
    ensures a + x == a + y <==> x == y
  {
    if a + x == a + y {
      assert x == (a + x)[|a|..];
      assert y == (a + y)[|a|..];
    }
  }

  /** The first piece contains the error. */
  lemma {:induction false} CutInError(q: Parser, pieces: seq<seq<Byte>>)
    requires pieces != [] && NonEmpty(pieces) && Enter(q) == q && Run(q, pieces[0]).p.errno != OK
    ensures Feed(q, pieces).items == Run(q, Join(pieces)).items <==> !LossyError(q, pieces)
  {
    var a, rest := pieces[0], pieces[1..];
    var r := Run(q, a).p;
    FeedSplits(q, pieces);
    StoppedFeed(r, rest);
    HaltedRun(r, Join(rest));
    UsedUpToError(q, a, Join(rest));
    assert Delivered(q, a) + [] == Delivered(q, a);
    assert Run(q, a).items + [] == Run(q, a).items;
    if BadChunkEnd(q, a) {
      BadEndIsBody(q, a);
      DropBodyShortens(Run(q, a).items);
    } else {
      HaltedRun(q, a);
    }
  }

  /** The first piece leads to the code for the next message or for a trailer field. */
  lemma {:induction false} CutStopped(q: Parser, pieces: seq<seq<Byte>>)
    requires pieces != [] && NonEmpty(pieces) && Enter(q) == q
    requires Run(q, pieces[0]).p.errno == OK && Stopped(Run(q, pieces[0]).p)
    ensures Feed(q, pieces).items == Run(q, Join(pieces)).items && !LossyError(q, pieces)
  {
    var r, rest := Run(q, pieces[0]).p, pieces[1..];
    FeedSplits(q, pieces);
    HaltedRun(r, Join(rest));
    StoppedFeed(r, rest);
  }

  /** The first piece ends an upgraded message; the pieces behind it are read as the next one. */
  lemma {:induction false} TraceBehind(q: Parser, pieces: seq<seq<Byte>>)
    requires pieces != [] && NonEmpty(pieces) && Enter(q) == q
    requires var r, rest := Run(q, pieces[0]).p, pieces[1..];
             && Halted(r) && !Stopped(r)
             && (Feed(r, rest).items == Run(Enter(r), Join(rest)).items <==>
                 !LossyCut(Enter(r), rest) && !BeginsBehind(Enter(r), rest))
    ensures !LossyError(q, pieces)
    ensures Feed(q, pieces).items == Run(q, Join(pieces)).items <==> !BeginsBehind(q, pieces)
  {
    var a, rest := pieces[0], pieces[1..];
    var r, data := Run(q, a).p, Join(rest);
    LeftIsBetween(q, a);
    BetweenIsPlain(Enter(r), rest);
    FeedSplits(q, pieces);
    HaltedRun(r, data);
    SamePrefix(Run(q, a).items, Feed(r, rest).items, []);
    BetweenOpens(Enter(r), data);
    if rest == [] {
      OnePieceIsPlain(q, pieces);
    } else {
      BeginsHere(q, pieces);
    }
  }

  lemma {:induction false} BeginsHere(q: Parser, pieces: seq<seq<Byte>>)
    requires |pieces| > 1 && NonEmpty(pieces) && IsLeft(Run(q, pieces[0]).p) && !q.left
    ensures BeginsBehind(q, pieces) <==> OpensSomewhere(Enter(Run(q, pieces[0]).p), Join(pieces[1..]))
  {
    var a, data := pieces[0], Join(pieces[1..]);
    var r := Run(q, a).p;
    LeftReadsOn(q, pieces);
    assert Join(pieces)[..|a|] == a && Join(pieces)[|a|..] == data;
    if BeginsBehind(q, pieces) {
      var m: nat :| BeginsAt(q, pieces, m);
      assert m == |a|;
    }
    assert BeginsAt(q, pieces, |a|) <==> OpensSomewhere(Enter(r), data);
  }

  /** Two ways to cut one stream, neither of them exceptional: same state, same trace. */
  lemma {:induction false} CutsAgree(p: Parser, first: seq<seq<Byte>>, second: seq<seq<Byte>>)
    requires first != [] && second != [] && NonEmpty(first) && NonEmpty(second) && Join(first) == Join(second)
    ensures !ReadsOn(Enter(p), first) && !ReadsOn(Enter(p), second) ==> Same(Feed(p, first).p, Feed(p, second).p)
    ensures var q := Enter(p);
            && !LossyCut(q, first) && !LossyCut(q, second) && !BeginsBehind(q, first) && !BeginsBehind(q, second) ==>
              Feed(p, first).items == Feed(p, second).items
  {
    CutKeepsState(p, first);
    CutKeepsState(p, second);
    CutKeepsTrace(p, first);
    CutKeepsTrace(p, second);
  }

  // ------------------------------------------------- the end of the connection

  lemma {:induction false} FeedConcat(p: Parser, first: seq<seq<Byte>>, second: seq<seq<Byte>>)
    ensures Feed(p, first + second) ==
            Outcome(Feed(Feed(p, first).p, second).p, Feed(p, first).items + Feed(Feed(p, first).p, second).items)
    decreases |first|
  {
    if first == [] {
      assert first + second == second;
      assert [] + Feed(p, second).items == Feed(p, second).items;
    } else {
      var o := Call(p, first[0]);
      assert (first + second)[0] == first[0] && (first + second)[1..] == first[1..] + second;
      FeedConcat(o.p, first[1..], second);
      Assoc(o.items, Feed(o.p, first[1..]).items, Feed(Feed(o.p, first[1..]).p, second).items);
    }
  }

  /** An empty piece is the end of the connection, whatever came before. */
  lemma {:induction false} EmptyPieceIsEof(p: Parser, pieces: seq<seq<Byte>>)
    ensures var q := Enter(Feed(p, pieces).p);
            Feed(p, pieces + [[]]) == Outcome(Eof(q).p, Feed(p, pieces).items + Eof(q).items)
  {
    var q := Feed(p, pieces).p;
    FeedConcat(p, pieces, [[]]);
    var last: seq<seq<Byte>> := [[]];
    assert last[1..] == [] && Feed(q, last) == Outcome(Call(q, []).p, Call(q, []).items + []);
  }

  /** A message without a length ends with the connection: however its bytes are cut, exactly they are reported and
      then its completion. */
  lemma {:induction false} ReadToEof(p: Parser, pieces: seq<seq<Byte>>)
    requires p.state == BodyIdentityEof && p.errno == OK && !p.left && NonEmpty(pieces)
    ensures Feed(p, pieces + [[]]) == Outcome(p, Bytes(Join(pieces)) + [MessageComplete])
  {
    ReadAll(p, pieces);
    EmptyPieceIsEof(p, pieces);
  }

  lemma {:induction false} ReadAll(p: Parser, pieces: seq<seq<Byte>>)
    requires p.state == BodyIdentityEof && p.errno == OK && !p.left && NonEmpty(pieces)
    ensures Feed(p, pieces) == Outcome(p, Bytes(Join(pieces)))
    decreases |pieces|
  {
    if pieces != [] {
      BulkEof(p, pieces[0]);
      ReadAll(p, pieces[1..]);
      BytesConcat(pieces[0], Join(pieces[1..]));
    }
  }

  lemma {:induction false} BytesConcat(a: seq<Byte>, b: seq<Byte>)
    ensures Bytes(a) + Bytes(b) == Bytes(a + b)
  {
  }

  // ---------------------------------------------------------------- the calls

  ghost predicate FedSoFar(p0: Parser, pieces: seq<seq<Byte>>, i: nat, p: Parser, out: seq<Item>) {
    && i <= |pieces|
    && Feed(p0, pieces) == Outcome(Feed(p, pieces[i..]).p, out + Feed(p, pieces[i..]).items)
  }

  lemma {:induction false} FeedNext(p0: Parser, pieces: seq<seq<Byte>>, i: nat, p: Parser, out: seq<Item>)
    requires FedSoFar(p0, pieces, i, p, out) && i < |pieces|
    ensures FedSoFar(p0, pieces, i + 1, Call(p, pieces[i]).p, out + Call(p, pieces[i]).items)
  {
    assert pieces[i..][1..] == pieces[i + 1..];
    Assoc(out, Call(p, pieces[i]).items, Feed(Call(p, pieces[i]).p, pieces[i + 1..]).items);
  }

  lemma {:induction false} FeedEnds(p0: Parser, pieces: seq<seq<Byte>>, p: Parser, out: seq<Item>)
    ensures FedSoFar(p0, pieces, 0, p0, [])
    ensures FedSoFar(p0, pieces, |pieces|, p, out) ==> Feed(p0, pieces) == Outcome(p, out)
  {
    assert pieces[0..] == pieces && pieces[|pieces|..] == [];
    assert [] + Feed(p0, pieces).items == Feed(p0, pieces).items;
    assert out + [] == out;
  }

  /** A driver that passes the pieces on as they arrive, empty ones included. */
  method FeedAll(h: HttpParser, pieces: seq<seq<Byte>>)
    requires BodyOk(h.parser)
    modifies h
    ensures h.parser == Feed(old(h.parser), pieces).p
    ensures Flat(h.trace) == Flat(old(h.trace)) + Feed(old(h.parser), pieces).items
  {
    ghost var p0, before := h.parser, Flat(h.trace);
    ghost var out: seq<Item> := [];
    FeedEnds(p0, pieces, p0, out);
    assert before + out == before;
    var i := 0;
    while i < |pieces|
      invariant i <= |pieces| && BodyOk(h.parser)
      invariant Flat(h.trace) == before + out
      invariant FedSoFar(p0, pieces, i, h.parser, out)
    {
      ghost var d := Call(h.parser, pieces[i]).items;
      FeedNext(p0, pieces, i, h.parser, out);
      Assoc(before, out, d);
      var _ := h.Execute(pieces[i]);
      out := out + d;
      i := i + 1;
    }
    FeedEnds(p0, pieces, h.parser, out);
  }
}
