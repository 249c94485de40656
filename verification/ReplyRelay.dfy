/**
 Relaying a backend's reply to the client, with and without remembering it for the cache and
 the request collapser.
 */
module ReplyRelay {
  import opened Common
  import opened Framing
  import opened ReplyScanner

  // ---------------------------------------------------------------- what a reply means, message by message

  /** This message ends the reply. */
  predicate EndsReply(end: ResponseEnd, m: seq<byte>)
    requires IsMessage(m)
  {
    m[0] == TagReady || (!end.onReadyForQuery && Awaited(end, m[0]))
  }

  /** Between messages. */
  predicate AtBoundary(p: Progress) {
    !p.halted && p.scan.header == [] && p.scan.skip == 0 && !p.scan.wantStatus
  }

  /** One whole message, scanned from between messages. */
  function OnMessage(end: ResponseEnd, p: Progress, m: seq<byte>): Progress
    requires IsMessage(m)
  {
    p.(scan := p.scan.(sawError := p.scan.sawError || m[0] == TagError,
                       sawCopyIn := p.scan.sawCopyIn || m[0] == TagCopyIn),
       done := p.done || EndsReply(end, m),
       state := if m[0] == TagReady && |m| > HeaderSize then TransactionStatus(m[HeaderSize]) else p.state)
  }

  lemma HeaderOfMessage(end: ResponseEnd, p: Progress, m: seq<byte>)
    requires AtBoundary(p) && IsMessage(m)
    ensures OnBytes(end, p, m[..HeaderSize]) == OnHeader(end, p, m[..HeaderSize])
    ensures OnBytes(end, p, m) == OnBytes(end, OnHeader(end, p, m[..HeaderSize]), m[HeaderSize..])
    ensures LengthField(m[..HeaderSize]) == LengthField(m)
  {
    Completing(end, p, m[..HeaderSize]);
    assert [] + m[..HeaderSize] == m[..HeaderSize];
    assert m == m[..HeaderSize] + m[HeaderSize..];
    OnBytesAppend(end, p, m[..HeaderSize], m[HeaderSize..]);
  }

  lemma ScanMessage(end: ResponseEnd, p: Progress, m: seq<byte>)
    requires AtBoundary(p) && IsMessage(m)
    ensures OnBytes(end, p, m) == OnMessage(end, p, m) && AtBoundary(OnMessage(end, p, m))
  {
    HeaderOfMessage(end, p, m);
    var body := m[HeaderSize..];
    var q := OnHeader(end, p, m[..HeaderSize]);
    if body == [] {
      assert OnBytes(end, q, []) == q;
    } else {
      Skipping(end, q, body);
      assert body[0] == m[HeaderSize];
    }
  }

  ghost predicate NoneEnds(end: ResponseEnd, ms: seq<seq<byte>>) {
    AllMessages(ms) && forall i :: 0 <= i < |ms| ==> !EndsReply(end, ms[i])
  }

  ghost predicate HasTag(ms: seq<seq<byte>>, tag: byte)
    requires AllMessages(ms)
  {
    exists i :: 0 <= i < |ms| && ms[i][0] == tag
  }

  /** Messages that do not end the reply leave nothing behind but what they were. */
  lemma {:induction false} ScanQuiet(end: ResponseEnd, p: Progress, ms: seq<seq<byte>>)
    requires AtBoundary(p) && NoneEnds(end, ms)
    ensures OnBytes(end, p, Concat(ms)) ==
              p.(scan := p.scan.(sawError := p.scan.sawError || HasTag(ms, TagError),
                                 sawCopyIn := p.scan.sawCopyIn || HasTag(ms, TagCopyIn)))
    decreases |ms|
  {
    if ms != [] {
      var q := OnMessage(end, p, ms[0]);
      OnBytesAppend(end, p, ms[0], Concat(ms[1..]));
      ScanMessage(end, p, ms[0]);
      ScanQuiet(end, q, ms[1..]);
      TagOfFirst(ms, TagError);
      TagOfFirst(ms, TagCopyIn);
    }
  }

  lemma TagOfFirst(ms: seq<seq<byte>>, tag: byte)
    requires AllMessages(ms) && ms != []
    ensures HasTag(ms, tag) <==> ms[0][0] == tag || HasTag(ms[1..], tag)
  {
    assert forall i :: 0 < i < |ms| ==> ms[i] == ms[1..][i - 1];
    if HasTag(ms[1..], tag) {
      var j :| 0 <= j < |ms[1..]| && ms[1..][j][0] == tag;
      assert ms[j + 1][0] == tag;
    }
  }

  /** Once the end has been seen it stays seen. */
  lemma {:induction false} DoneStays(end: ResponseEnd, p: Progress, data: seq<byte>)
    requires p.done
    ensures OnBytes(end, p, data).done
    decreases |data|
  {
    if data != [] {
      DoneStays(end, OnByte(end, p, data[0]), data[1..]);
    }
  }

  /** Until the end is seen there is no status and scanning goes on. */
  lemma {:induction false} UndoneIsFresh(end: ResponseEnd, p: Progress, data: seq<byte>)
    requires p == Fresh(p.scan) && !OnBytes(end, p, data).done
    ensures OnBytes(end, p, data) == Fresh(OnBytes(end, p, data).scan)
    decreases |data|
  {
    if data != [] {
      var q := OnByte(end, p, data[0]);
      if q.done {
        DoneStays(end, q, data[1..]);
      }
      UndoneIsFresh(end, q, data[1..]);
    }
  }

  // ---------------------------------------------------------------- the relay

  /** What one read of the backend brings, and how writing it to the client goes. */
  datatype Arrival = Arrival(data: seq<byte>, readFails: bool, writeFails: bool, readOnlyError: bool)

  datatype Verdict =
    | Waiting // the backend has sent no more yet
    | Finished(state: TxState, failed: bool)
    | ClientWriteFailed | PumpFailed | BackendReadFailed

  /** What the client was sent, the count reported, and how it ended. */
  datatype Reply = Reply(sent: seq<byte>, count: nat, verdict: Verdict)

  /** A batch that ended in Flush still owes a Sync. */
  function MidSequenceState(state: TxState, end: ResponseEnd): TxState {
    if !end.onReadyForQuery then InTransaction else state
  }

  function Prepend(data: seq<byte>, r: Reply): Reply { Reply(data + r.sent, |data| + r.count, r.verdict) }

  function RelayFrom(end: ResponseEnd, scan: Scan, arrivals: seq<Arrival>, pumpFails: bool): Reply
    decreases |arrivals|
  {
    if arrivals == [] then Reply([], 0, Waiting)
    else
      var a := arrivals[0];
      if a.data == [] then
        if a.readFails then Reply([], 0, BackendReadFailed) else RelayFrom(end, scan, arrivals[1..], pumpFails)
      else if a.writeFails then Reply([], |a.data|, ClientWriteFailed)
      else
        var p := OnBytes(end, Fresh(scan), a.data);
        if p.done then
          if p.scan.sawCopyIn && pumpFails then Reply(a.data, |a.data|, PumpFailed)
          else Reply(a.data, |a.data|, Finished(MidSequenceState(p.state, end), p.scan.sawError))
        else if a.readFails then Reply(a.data, |a.data|, BackendReadFailed)
        else Prepend(a.data, RelayFrom(end, p.scan, arrivals[1..], pumpFails))
  }

  const DefaultMaxCaptureBytes: nat := 8 * 1024 * 1024

  function Bound(limit: int): nat { if limit <= 0 then DefaultMaxCaptureBytes else limit }

  /** responseCapture: a reply held up to a bound, or given up. */
  class Capture {
    const limit: nat
    var buf: seq<byte>
    var overflowed: bool

    /** `given` was written, if anything was, onto a buffer that held `base`. */
    ghost predicate Holds(base: seq<byte>, given: seq<byte>, wrote: bool)
      reads this
    {
      && (given != [] ==> wrote)
      && (overflowed <==> wrote && |base| + |given| > limit)
      && buf == if overflowed then [] else base + given
    }

    /** The buffer is whatever the session has; a bound that is not positive stands for the default. */
    constructor (base: seq<byte>, limit: int)
      ensures Holds(base, [], false) && this.limit == Bound(limit)
    {
      this.limit, buf, overflowed := Bound(limit), base, false;
      assert base + [] == base;
    }

    method Write(chunk: seq<byte>, ghost base: seq<byte>, ghost given: seq<byte>, ghost wrote: bool)
      requires Holds(base, given, wrote)
      modifies this
      ensures Holds(base, given + chunk, true)
    {
      if overflowed {
        return;
      }
      if |buf| + |chunk| > limit {
        overflowed := true;
        buf := [];
        return;
      }
      assert base + given + chunk == base + (given + chunk);
      buf := buf + chunk;
    }

    /** The captured reply, or nothing if it was given up. */
    method Bytes(ghost base: seq<byte>, ghost given: seq<byte>, ghost wrote: bool) returns (r: Option<seq<byte>>)
      requires Holds(base, given, wrote)
      ensures r == if wrote && |base| + |given| > limit then None else Some(base + given)
    {
      r := if overflowed then None else Some(buf);
    }
  }

  /** Seeing a CopyInResponse is not forgotten. */
  lemma {:induction false} CopyInStays(end: ResponseEnd, p: Progress, data: seq<byte>)
    requires p.scan.sawCopyIn
    ensures OnBytes(end, p, data).scan.sawCopyIn
    decreases |data|
  {
    if data != [] {
      CopyInStays(end, OnByte(end, p, data[0]), data[1..]);
    }
  }

  lemma PrependTwice(a: seq<byte>, b: seq<byte>, r: Reply)
    ensures Prepend(a, Prepend(b, r)) == Prepend(a + b, r)
  {
    assert a + (b + r.sent) == a + b + r.sent;
  }

  /** One piece of the reply: scanned, and the copy pump started if the backend asked for data. */
  method Scanned(scan: Scanner, data: seq<byte>, pumping: bool) returns (done: bool, state: TxState, pumping': bool)
    requires scan.Valid() && pumping == scan.sawCopyIn
    modifies scan
    ensures scan.Valid() && pumping' == scan.sawCopyIn
    ensures var p := OnBytes(scan.end, Fresh(old(scan.Now())), data);
      done == p.done && state == p.state && scan.Now() == p.scan
  {
    if pumping {
      CopyInStays(scan.end, Fresh(scan.Now()), data);
    }
    done, state := scan.Feed(data);
    pumping' := pumping;
    if scan.sawCopyIn && !pumping {
      pumping' := true;
    }
  }

  /** A piece that does not show the end is passed on, and the relay goes on with the next. */
  lemma RelayGoesOn(end: ResponseEnd, scan: Scan, arrivals: seq<Arrival>, pumpFails: bool, sent: seq<byte>)
    requires arrivals != [] && arrivals[0].data != [] && !arrivals[0].writeFails && !arrivals[0].readFails
    requires !OnBytes(end, Fresh(scan), arrivals[0].data).done
    ensures Prepend(sent, RelayFrom(end, scan, arrivals, pumpFails))
         == Prepend(sent + arrivals[0].data,
                    RelayFrom(end, OnBytes(end, Fresh(scan), arrivals[0].data).scan, arrivals[1..], pumpFails))
  {
    PrependTwice(sent, arrivals[0].data,
                 RelayFrom(end, OnBytes(end, Fresh(scan), arrivals[0].data).scan, arrivals[1..], pumpFails));
  }

  /** The relay that remembers nothing. */
  method FastPath(end: ResponseEnd, arrivals: seq<Arrival>, pumpFails: bool) returns (reply: Reply)
    ensures reply == RelayFrom(end, Start, arrivals, pumpFails)
  {
    var scan := new Scanner(end);
    var sent: seq<byte>, pumping := [], false;
    for i := 0 to |arrivals|
      invariant scan.Valid() && scan.end == end && fresh(scan) && pumping == scan.sawCopyIn
      invariant RelayFrom(end, Start, arrivals, pumpFails)
             == Prepend(sent, RelayFrom(end, scan.Now(), arrivals[i..], pumpFails))
    {
      var a := arrivals[i];
      assert arrivals[i..][0] == a && arrivals[i..][1..] == arrivals[i + 1..];
      ghost var was := scan.Now();
      if |a.data| > 0 {
        if a.writeFails {
          return Reply(sent, |sent| + |a.data|, ClientWriteFailed);
        }
        var done, state;
        done, state, pumping := Scanned(scan, a.data, pumping);
        if done {
          sent := sent + a.data;
          reply := Reply(sent, |sent|, if pumping && pumpFails then PumpFailed
                                       else Finished(MidSequenceState(state, end), scan.sawError));
          return;
        }
        if !a.readFails { RelayGoesOn(end, was, arrivals[i..], pumpFails, sent); }
        sent := sent + a.data;
      }
      if a.readFails {
        return Reply(sent, |sent|, BackendReadFailed);
      }
    }
    reply := Reply(sent, |sent|, Waiting);
  }

  /**
   The relay that remembers: it sends the client the same bytes and reports the same count, end
   and state as the one that does not, and leaves in the capture every byte it read.
   */
  method WithCapture(end: ResponseEnd, arrivals: seq<Arrival>, pumpFails: bool, capture: Capture, ghost base: seq<byte>)
    returns (reply: Reply, readOnlyError: bool)
    requires capture.Holds(base, [], false)
    modifies capture
    ensures reply == RelayFrom(end, Start, arrivals, pumpFails)
    ensures reply.verdict != ClientWriteFailed ==> capture.Holds(base, reply.sent, reply.sent != [])
    ensures reply.verdict == ClientWriteFailed ==> !readOnlyError
  {
    var scan := new Scanner(end);
    var sent: seq<byte>, pumping := [], false;
    readOnlyError := false;
    for i := 0 to |arrivals|
      invariant scan.Valid() && scan.end == end && fresh(scan) && pumping == scan.sawCopyIn
      invariant RelayFrom(end, Start, arrivals, pumpFails)
             == Prepend(sent, RelayFrom(end, scan.Now(), arrivals[i..], pumpFails))
      invariant capture.Holds(base, sent, sent != [])
    {
      var a := arrivals[i];
      assert arrivals[i..][0] == a && arrivals[i..][1..] == arrivals[i + 1..];
      ghost var was := scan.Now();
      if |a.data| > 0 {
        capture.Write(a.data, base, sent, sent != []);
        if a.writeFails {
          return Reply(sent, |sent| + |a.data|, ClientWriteFailed), false;
        }
        readOnlyError := readOnlyError || a.readOnlyError;
        var done, state;
        done, state, pumping := Scanned(scan, a.data, pumping);
        if done {
          sent := sent + a.data;
          reply := Reply(sent, |sent|, if pumping && pumpFails then PumpFailed
                                       else Finished(MidSequenceState(state, end), scan.sawError));
          return;
        }
        if !a.readFails { RelayGoesOn(end, was, arrivals[i..], pumpFails, sent); }
        sent := sent + a.data;
      }
      if a.readFails {
        reply := Reply(sent, |sent|, BackendReadFailed);
        return;
      }
    }
    reply := Reply(sent, |sent|, Waiting);
  }

  // ---------------------------------------------------------------- whatever the pieces

  /** The backend keeps sending and the client keeps reading. */
  ghost predicate Smooth(arrivals: seq<Arrival>) {
    forall i :: 0 <= i < |arrivals| ==> !arrivals[i].readFails && !arrivals[i].writeFails
  }

  function Data(arrivals: seq<Arrival>): seq<byte> {
    if arrivals == [] then [] else arrivals[0].data + Data(arrivals[1..])
  }

  /** The end of the reply is seen at its last byte, and not before. */
  ghost predicate EndsAtLastByte(end: ResponseEnd, scan: Scan, data: seq<byte>) {
    data != [] && OnBytes(end, Fresh(scan), data).done && !OnBytes(end, Fresh(scan), data[..|data| - 1]).done
  }

  /** The verdict on a reply read in one piece. */
  function VerdictOn(end: ResponseEnd, p: Progress, pumpFails: bool): Verdict {
    if p.scan.sawCopyIn && pumpFails then PumpFailed else Finished(MidSequenceState(p.state, end), p.scan.sawError)
  }

  /** The first piece of a longer reply does not show its end. */
  lemma FirstPiece(end: ResponseEnd, scan: Scan, d: seq<byte>, rest: seq<byte>)
    requires EndsAtLastByte(end, scan, d + rest) && rest != []
    ensures var p := OnBytes(end, Fresh(scan), d);
      && p == Fresh(p.scan) && EndsAtLastByte(end, p.scan, rest)
      && OnBytes(end, Fresh(scan), d + rest) == OnBytes(end, Fresh(p.scan), rest)
  {
    var p := OnBytes(end, Fresh(scan), d);
    var short := rest[..|rest| - 1];
    assert (d + rest)[..|d + rest| - 1] == d + short;
    OnBytesAppend(end, Fresh(scan), d, rest);
    OnBytesAppend(end, Fresh(scan), d, short);
    if p.done {
      DoneStays(end, p, short);
    }
    UndoneIsFresh(end, Fresh(scan), d);
  }

  lemma {:induction false} RelaysItAll(end: ResponseEnd, scan: Scan, arrivals: seq<Arrival>, pumpFails: bool)
    requires Smooth(arrivals) && EndsAtLastByte(end, scan, Data(arrivals))
    ensures RelayFrom(end, scan, arrivals, pumpFails)
         == Reply(Data(arrivals), |Data(arrivals)|, VerdictOn(end, OnBytes(end, Fresh(scan), Data(arrivals)), pumpFails))
    decreases |arrivals|
  {
    var d, rest := arrivals[0].data, Data(arrivals[1..]);
    if d == [] {
      assert Data(arrivals) == rest;
      RelaysItAll(end, scan, arrivals[1..], pumpFails);
    } else if rest == [] {
      assert Data(arrivals) == d;
    } else {
      FirstPiece(end, scan, d, rest);
      RelaysItAll(end, OnBytes(end, Fresh(scan), d).scan, arrivals[1..], pumpFails);
    }
  }

  /** A reply: messages that do not end it, then the one that does. */
  ghost predicate IsReply(end: ResponseEnd, ms: seq<seq<byte>>, last: seq<byte>) {
    NoneEnds(end, ms) && IsMessage(last) && EndsReply(end, last)
  }

  /** The message that ends the reply shows it with its last byte: a bare header, or ReadyForQuery with its status. */
  predicate EndsWithItself(last: seq<byte>) {
    |last| == HeaderSize || (|last| == HeaderSize + 1 && last[0] == TagReady)
  }

  /** The scanner after messages that do not end the reply. */
  ghost function Quiet(ms: seq<seq<byte>>): Progress
    requires AllMessages(ms)
  {
    Fresh(Start.(sawError := HasTag(ms, TagError), sawCopyIn := HasTag(ms, TagCopyIn)))
  }

  lemma ScanFront(end: ResponseEnd, ms: seq<seq<byte>>, front: seq<byte>)
    requires NoneEnds(end, ms)
    ensures OnBytes(end, Fresh(Start), Concat(ms) + front) == OnBytes(end, Quiet(ms), front)
  {
    ScanQuiet(end, Fresh(Start), ms);
    OnBytesAppend(end, Fresh(Start), Concat(ms), front);
  }

  lemma ScanReply(end: ResponseEnd, ms: seq<seq<byte>>, last: seq<byte>)
    requires IsReply(end, ms, last)
    ensures OnBytes(end, Fresh(Start), Concat(ms) + last) == OnMessage(end, Quiet(ms), last)
  {
    ScanFront(end, ms, last);
    ScanMessage(end, Quiet(ms), last);
  }

  /** All but the last byte of a message that shows the end with its last byte does not show it. */
  lemma NotBeforeLastByte(end: ResponseEnd, p: Progress, last: seq<byte>)
    requires AtBoundary(p) && !p.done && IsMessage(last) && EndsWithItself(last)
    ensures !OnBytes(end, p, last[..|last| - 1]).done
  {
    if |last| == HeaderSize {
      Gathering(end, p, last[..|last| - 1]);
    } else {
      HeaderOfMessage(end, p, last);
    }
  }

  lemma LastByteEndsReply(end: ResponseEnd, ms: seq<seq<byte>>, last: seq<byte>)
    requires IsReply(end, ms, last) && EndsWithItself(last)
    ensures EndsAtLastByte(end, Start, Concat(ms) + last)
  {
    ScanReply(end, ms, last);
    var reply, front := Concat(ms) + last, last[..|last| - 1];
    assert reply[..|reply| - 1] == Concat(ms) + front;
    ScanFront(end, ms, front);
    NotBeforeLastByte(end, Quiet(ms), last);
  }

  /**
   Whatever pieces a reply arrives in: if the message that ends it shows the end with its last
   byte, the client is sent exactly the reply, and the state and failure flag reported are those
   of its messages.  The reply to one Sync or one simple query is of this kind.
   */
  lemma WholeReplyAnyPieces(end: ResponseEnd, ms: seq<seq<byte>>, last: seq<byte>, arrivals: seq<Arrival>, pumpFails: bool)
    requires IsReply(end, ms, last) && EndsWithItself(last)
    requires Smooth(arrivals) && Data(arrivals) == Concat(ms) + last
    ensures RelayFrom(end, Start, arrivals, pumpFails)
         == Reply(Concat(ms) + last, |Concat(ms) + last|,
                  if pumpFails && (HasTag(ms, TagCopyIn) || last[0] == TagCopyIn) then PumpFailed
                  else Finished(
                    MidSequenceState(if |last| == HeaderSize then Partial else TransactionStatus(last[HeaderSize]), end),
                    HasTag(ms, TagError) || last[0] == TagError))
  {
    LastByteEndsReply(end, ms, last);
    ScanReply(end, ms, last);
    RelaysItAll(end, Start, arrivals, pumpFails);
  }

  /** The reply to one Sync or one simple query: messages that do not end it, and a ReadyForQuery with its status. */
  datatype Single = Single(ms: seq<seq<byte>>, ready: seq<byte>)

  ghost predicate IsSingle(end: ResponseEnd, a: Single) {
    IsReply(end, a.ms, a.ready) && a.ready[0] == TagReady && |a.ready| == HeaderSize + 1
  }

  function Bytes(a: Single): seq<byte> { Concat(a.ms) + a.ready }

  /** The replies to a request that holds several Syncs or queries, one after another. */
  function AllBytes(answers: seq<Single>): seq<byte> {
    if answers == [] then [] else Bytes(answers[0]) + AllBytes(answers[1..])
  }

  /** The replies cut right after the first of them. */
  function CutAfterFirst(answers: seq<Single>): seq<Arrival>
    requires answers != []
  {
    [Arrival(Bytes(answers[0]), false, false, false), Arrival(AllBytes(answers[1..]), false, false, false)]
  }

  lemma CutAfterFirstIsAll(answers: seq<Single>)
    requires answers != []
    ensures Smooth(CutAfterFirst(answers)) && Data(CutAfterFirst(answers)) == AllBytes(answers)
  {
    var cut := CutAfterFirst(answers);
    assert cut[1..] == [cut[1]] && cut[1..][1..] == [];
    assert Data(cut[1..]) == AllBytes(answers[1..]) + [];
  }

  /** Cut there, the relay ends with the first reply and reports that the exchange is over. */
  lemma EndsWithFirst(end: ResponseEnd, answers: seq<Single>)
    requires answers != [] && IsSingle(end, answers[0])
    ensures var reply := RelayFrom(end, Start, CutAfterFirst(answers), false);
      reply.sent == Bytes(answers[0]) && reply.verdict.Finished?
  {
    ScanReply(end, answers[0].ms, answers[0].ready);
  }

  /**
   Exactly when the replies to a request that ends in Sync reach the client whole however they
   are cut: if and only if there is one.  The relay ends with the read that shows the first
   ReadyForQuery, so the replies to statements sent behind it can be left on the connection.
   */
  lemma PipelineExactly(end: ResponseEnd, answers: seq<Single>)
    requires answers != [] && forall i :: 0 <= i < |answers| ==> IsSingle(end, answers[i])
    ensures (forall arrivals :: Smooth(arrivals) && Data(arrivals) == AllBytes(answers) ==>
               RelayFrom(end, Start, arrivals, false).sent == AllBytes(answers))
            <==> |answers| == 1
  {
    if |answers| == 1 {
      assert AllBytes(answers) == Bytes(answers[0]) + [];
      forall arrivals | Smooth(arrivals) && Data(arrivals) == AllBytes(answers)
        ensures RelayFrom(end, Start, arrivals, false).sent == AllBytes(answers)
      {
        WholeReplyAnyPieces(end, answers[0].ms, answers[0].ready, arrivals, false);
      }
    } else {
      CutAfterFirstIsAll(answers);
      EndsWithFirst(end, answers);
      assert |Bytes(answers[1])| > 0 && AllBytes(answers[1..]) == Bytes(answers[1]) + AllBytes(answers[1..][1..]);
      assert |RelayFrom(end, Start, CutAfterFirst(answers), false).sent| < |AllBytes(answers)|;
    }
  }

  /** The verdict says what these messages and this status byte of a ReadyForQuery say. */
  ghost predicate ReportsStatus(end: ResponseEnd, ms: seq<seq<byte>>, status: byte, v: Verdict)
    requires AllMessages(ms) && v.Finished?
  {
    && (v.failed <==> exists i :: 0 <= i < |ms| && ms[i][0] == 0x45)
    && (end.onReadyForQuery ==> (v.state.Idle? <==> status == 0x49) && (v.state.InTransaction? <==> status in {0x54, 0x42})
                                && (v.state.Failed? <==> status == 0x45))
    && (!end.onReadyForQuery ==> v.state.InTransaction?)
  }

  /**
   The state reported, from the bytes on the wire: `I`, `T` (or `B`) and `E` in a ReadyForQuery are
   idle, in a transaction and failed, for a request that ends in Sync; one that ends in Flush is mid-way
   whatever they say; and the reply failed exactly if there is an ErrorResponse in it.  The client's
   side of a COPY is pumped, and can fail, exactly if there is a CopyInResponse.
   */
  lemma StatusReported(end: ResponseEnd, ms: seq<seq<byte>>, status: byte, arrivals: seq<Arrival>, pumpFails: bool)
    requires NoneEnds(end, ms) && Smooth(arrivals) && Data(arrivals) == Concat(ms) + Frame(0x5A, [status])
    ensures var v := RelayFrom(end, Start, arrivals, pumpFails).verdict;
      if pumpFails && exists i :: 0 <= i < |ms| && ms[i][0] == 0x47 then v == PumpFailed
      else v.Finished? && ReportsStatus(end, ms, status, v)
  {
    ReadyVerdict(end, ms, status, arrivals, pumpFails);
    VerdictMeans(end, ms, status, Finished(MidSequenceState(TransactionStatus(status), end), HasTag(ms, TagError)));
  }

  lemma VerdictMeans(end: ResponseEnd, ms: seq<seq<byte>>, status: byte, v: Verdict)
    requires AllMessages(ms) && v == Finished(MidSequenceState(TransactionStatus(status), end), HasTag(ms, TagError))
    ensures ReportsStatus(end, ms, status, v)
  {
  }

  /** A ReadyForQuery as it is written ends the reply with itself. */
  lemma ReadyFrame(end: ResponseEnd, status: byte)
    ensures var z := Frame(0x5A, [status]);
      IsMessage(z) && |z| == HeaderSize + 1 && z[0] == TagReady && z[HeaderSize] == status && EndsReply(end, z)
  {
    FrameIsMessage(0x5A, [status]);
  }

  lemma ReadyVerdict(end: ResponseEnd, ms: seq<seq<byte>>, status: byte, arrivals: seq<Arrival>, pumpFails: bool)
    requires NoneEnds(end, ms) && Smooth(arrivals) && Data(arrivals) == Concat(ms) + Frame(0x5A, [status])
    ensures RelayFrom(end, Start, arrivals, pumpFails).verdict
         == if pumpFails && exists i :: 0 <= i < |ms| && ms[i][0] == 0x47 then PumpFailed
            else Finished(MidSequenceState(TransactionStatus(status), end), HasTag(ms, TagError))
  {
    ReadyFrame(end, status);
    WholeReplyAnyPieces(end, ms, Frame(0x5A, [status]), arrivals, pumpFails);
    assert HasTag(ms, TagCopyIn) <==> exists i :: 0 <= i < |ms| && ms[i][0] == 0x47;
  }

  /** A request that ends in Flush is over at the first message it waits for, or at an ErrorResponse: it fails in that case only. */
  lemma FlushEndsAt(end: ResponseEnd, ms: seq<seq<byte>>, tag: byte, body: seq<byte>)
    requires !end.onReadyForQuery && NoneEnds(end, ms) && |body| + 4 < 0x1_0000_0000
    requires tag == 0x45 || tag in end.tags
    ensures var all := Concat(ms) + Frame(tag, body);
      RelayFrom(end, Start, [Arrival(all, false, false, false)], false) == Reply(all, |all|, Finished(InTransaction, tag == 0x45))
  {
    var last := Frame(tag, body);
    FrameIsMessage(tag, body);
    assert IsReply(end, ms, last);
    ScanReply(end, ms, last);
    forall i | 0 <= i < |ms|
      ensures ms[i][0] != TagError
    {
      assert !EndsReply(end, ms[i]);
    }
    assert !HasTag(ms, TagError);
  }

  /** The two pieces of a reply cut right after the header of the message that ends it. */
  function CutAfterHeader(ms: seq<seq<byte>>, last: seq<byte>): seq<Arrival>
    requires IsMessage(last)
  {
    [Arrival(Concat(ms) + last[..HeaderSize], false, false, false), Arrival(last[HeaderSize..], false, false, false)]
  }

  lemma CutIsAll(ms: seq<seq<byte>>, last: seq<byte>)
    requires IsMessage(last) && |last| > HeaderSize
    ensures Smooth(CutAfterHeader(ms, last)) && Data(CutAfterHeader(ms, last)) == Concat(ms) + last
  {
    var cut := CutAfterHeader(ms, last);
    assert cut[1..] == [cut[1]] && cut[1..][1..] == [];
    assert Data(cut[1..]) == last[HeaderSize..] + [];
    assert last == last[..HeaderSize] + last[HeaderSize..];
  }

  lemma EndsAtHeader(end: ResponseEnd, ms: seq<seq<byte>>, last: seq<byte>)
    requires IsReply(end, ms, last) && last[0] != TagReady
    ensures OnBytes(end, Fresh(Start), Concat(ms) + last[..HeaderSize]).done
  {
    ScanFront(end, ms, last[..HeaderSize]);
    HeaderOfMessage(end, Quiet(ms), last);
  }

  lemma CutLosesTheBody(end: ResponseEnd, ms: seq<seq<byte>>, last: seq<byte>)
    requires IsReply(end, ms, last) && last[0] != TagReady && |last| > HeaderSize
    ensures RelayFrom(end, Start, CutAfterHeader(ms, last), false).sent == Concat(ms) + last[..HeaderSize]
  {
    EndsAtHeader(end, ms, last);
  }

  /**
   Exactly when a reply that ends in Flush reaches the client whole however it is cut: if and
   only if the message that ends it is a bare header.  The end is recognised at the header, so a
   body that has not arrived yet is left on the backend connection.
   */
  lemma FlushReplyExactly(end: ResponseEnd, ms: seq<seq<byte>>, last: seq<byte>)
    requires !end.onReadyForQuery && IsReply(end, ms, last) && last[0] != TagReady
    ensures (forall arrivals :: Smooth(arrivals) && Data(arrivals) == Concat(ms) + last ==>
               RelayFrom(end, Start, arrivals, false).sent == Concat(ms) + last)
            <==> |last| == HeaderSize
  {
    if |last| == HeaderSize {
      forall arrivals | Smooth(arrivals) && Data(arrivals) == Concat(ms) + last
        ensures RelayFrom(end, Start, arrivals, false).sent == Concat(ms) + last
      {
        WholeReplyAnyPieces(end, ms, last, arrivals, false);
      }
    } else {
      CutIsAll(ms, last);
      CutLosesTheBody(end, ms, last);
      var cut := CutAfterHeader(ms, last);
      assert |RelayFrom(end, Start, cut, false).sent| < |Concat(ms) + last|;
    }
  }
}
