/**
 Finding the end of a backend's reply in whatever pieces it arrives.  The scanner is fed the
 pieces; the meaning it has to agree with is one byte at a time, and one message at a time.
 */
module ReplyScanner {
  import opened Common
  import opened Framing

  /** How the reply to one request ends: at ReadyForQuery, or at one of these tags. */
  datatype ResponseEnd = ResponseEnd(onReadyForQuery: bool, tags: seq<byte>)

  const TagError: byte := 0x45
  const TagCopyIn: byte := 0x47
  const TagReady: byte := 0x5A

  function TransactionStatus(b: byte): TxState {
    if b == 0x49 then Idle
    else if b == 0x54 || b == 0x42 then InTransaction
    else if b == 0x45 then Failed
    else Partial
  }

  /** An ErrorResponse ends any exchange that has no ReadyForQuery to wait for. */
  predicate Awaited(end: ResponseEnd, tag: byte) { tag == TagError || tag in end.tags }

  /** What the scanner carries from one piece to the next. */
  datatype Scan = Scan(header: seq<byte>, skip: nat, wantStatus: bool, sawError: bool, sawCopyIn: bool)

  /** A piece being scanned: whether the end was seen in it, the status seen, and whether scanning was given up. */
  datatype Progress = Progress(scan: Scan, done: bool, state: TxState, halted: bool)

  function Fresh(scan: Scan): Progress { Progress(scan, false, Partial, false) }

  const Start: Scan := Scan([], 0, false, false, false)

  /** A header has just been completed. */
  function OnHeader(end: ResponseEnd, p: Progress, header: seq<byte>): Progress
    requires |header| == HeaderSize
  {
    var tag, length := header[0], LengthField(header);
    var scan := p.scan.(header := []);
    if length < 4 then p.(scan := scan, done := true, halted := true)
    else
      var skip := length - 4;
      var seen := scan.(skip := skip, sawError := scan.sawError || tag == TagError,
                        sawCopyIn := scan.sawCopyIn || tag == TagCopyIn);
      if tag == TagReady then
        if skip > 0 then p.(scan := seen.(wantStatus := true)) else p.(scan := seen, done := true)
      else if !end.onReadyForQuery && Awaited(end, tag) then p.(scan := seen, done := true)
      else p.(scan := seen)
  }

  /** One byte. */
  function OnByte(end: ResponseEnd, p: Progress, b: byte): Progress {
    if p.halted then p
    else if p.scan.skip > 0 then
      var scan := p.scan.(skip := p.scan.skip - 1, wantStatus := false);
      if p.scan.wantStatus then p.(scan := scan, done := true, state := TransactionStatus(b))
      else p.(scan := scan)
    else
      var header := p.scan.header + [b];
      if |header| == HeaderSize then OnHeader(end, p, header) else p.(scan := p.scan.(header := header))
  }

  /** Bytes, one at a time. */
  function OnBytes(end: ResponseEnd, p: Progress, data: seq<byte>): Progress
    decreases |data|
  {
    if data == [] then p else OnBytes(end, OnByte(end, p, data[0]), data[1..])
  }

  lemma {:induction false} OnBytesAppend(end: ResponseEnd, p: Progress, a: seq<byte>, b: seq<byte>)
    ensures OnBytes(end, p, a + b) == OnBytes(end, OnBytes(end, p, a), b)
    decreases |a|
  {
    if a == [] {
      assert a + b == b;
    } else {
      assert (a + b)[1..] == a[1..] + b;
      OnBytesAppend(end, OnByte(end, p, a[0]), a[1..], b);
    }
  }

  lemma {:induction false} Halted(end: ResponseEnd, p: Progress, data: seq<byte>)
    requires p.halted
    ensures OnBytes(end, p, data) == p
    decreases |data|
  {
    if data != [] {
      Halted(end, p, data[1..]);
    }
  }

  /** A run of body bytes, the first of which may be the status. */
  lemma {:induction false} Skipping(end: ResponseEnd, p: Progress, data: seq<byte>)
    requires !p.halted && data != [] && |data| <= p.scan.skip
    ensures OnBytes(end, p, data) ==
      var scan := p.scan.(skip := p.scan.skip - |data|, wantStatus := false);
      if p.scan.wantStatus then p.(scan := scan, done := true, state := TransactionStatus(data[0]))
      else p.(scan := scan)
    decreases |data|
  {
    if |data| == 1 {
      assert OnBytes(end, OnByte(end, p, data[0]), []) == OnByte(end, p, data[0]);
    } else {
      Skipping(end, OnByte(end, p, data[0]), data[1..]);
    }
  }

  /** Header bytes that do not complete the header. */
  lemma {:induction false} Gathering(end: ResponseEnd, p: Progress, data: seq<byte>)
    requires !p.halted && p.scan.skip == 0 && |p.scan.header| + |data| < HeaderSize
    ensures OnBytes(end, p, data) == p.(scan := p.scan.(header := p.scan.header + data))
    decreases |data|
  {
    if data == [] {
      assert p.scan.header + data == p.scan.header;
    } else {
      Gathering(end, OnByte(end, p, data[0]), data[1..]);
      assert p.scan.header + [data[0]] + data[1..] == p.scan.header + data;
    }
  }

  /** What a completed header does, does not depend on the bytes gathered for it before. */
  lemma OnHeaderAnew(end: ResponseEnd, p: Progress, header: seq<byte>, gathered: seq<byte>)
    requires |header| == HeaderSize
    ensures OnHeader(end, p.(scan := p.scan.(header := gathered)), header) == OnHeader(end, p, header)
  {
  }

  /** Header bytes that complete it. */
  lemma {:induction false} Completing(end: ResponseEnd, p: Progress, data: seq<byte>)
    requires !p.halted && p.scan.skip == 0 && data != [] && |p.scan.header| + |data| == HeaderSize
    ensures OnBytes(end, p, data) == OnHeader(end, p, p.scan.header + data)
    decreases |data|
  {
    if |data| == 1 {
      assert p.scan.header + data == p.scan.header + [data[0]];
      assert OnBytes(end, OnByte(end, p, data[0]), []) == OnByte(end, p, data[0]);
    } else {
      var q := p.(scan := p.scan.(header := p.scan.header + [data[0]]));
      assert q.scan.header + data[1..] == p.scan.header + data;
      Completing(end, q, data[1..]);
      OnHeaderAnew(end, p, p.scan.header + data, p.scan.header + [data[0]]);
    }
  }

  class Scanner {
    const end: ResponseEnd
    var header: seq<byte>
    var skip: nat
    var wantStatus: bool
    var sawError: bool
    var sawCopyIn: bool

    ghost predicate Valid()
      reads this
    {
      |header| < HeaderSize
    }

    function Now(): Scan
      reads this
    {
      Scan(header, skip, wantStatus, sawError, sawCopyIn)
    }

    constructor (end: ResponseEnd)
      ensures Valid() && this.end == end && Now() == Start
    {
      this.end := end;
      header, skip, wantStatus, sawError, sawCopyIn := [], 0, false, false, false;
    }

    /** The rest of the current body, as far as `rest` holds it. */
    method SkipBody(rest: seq<byte>, done: bool, state: TxState) returns (n: nat, done': bool, state': TxState)
      requires Valid() && skip > 0 && |rest| > 0
      modifies this
      ensures Valid() && 0 < n <= |rest|
      ensures OnBytes(end, Progress(Now(), done', state', false), rest[n..])
           == OnBytes(end, Progress(old(Now()), done, state, false), rest)
    {
      n := if skip < |rest| then skip else |rest|;
      done', state' := done, state;
      ghost var p := Progress(Now(), done, state, false);
      assert rest == rest[..n] + rest[n..];
      OnBytesAppend(end, p, rest[..n], rest[n..]);
      Skipping(end, p, rest[..n]);
      if wantStatus {
        state' := TransactionStatus(rest[0]);
        wantStatus := false;
        done' := true;
      }
      skip := skip - n;
    }

    /** A header is complete: what it says about the message, and about the reply. */
    method OnWholeHeader(whole: seq<byte>, done: bool, ghost state: TxState) returns (done': bool, readable: bool)
      requires |whole| == HeaderSize
      modifies this
      ensures var p := OnHeader(end, Progress(old(Now()), done, state, false), whole);
        Now() == p.scan && done' == p.done && state == p.state && readable == !p.halted
      ensures Valid()
    {
      done', readable := done, true;
      header := [];
      if LengthField(whole) < 4 {
        return true, false;
      }
      var tag := whole[0];
      skip := LengthField(whole) - 4;
      if tag == TagError {
        sawError := true;
      } else if tag == TagCopyIn {
        sawCopyIn := true;
      }
      if tag == TagReady {
        if skip > 0 {
          wantStatus := true;
        } else {
          done' := true;
        }
      } else if !end.onReadyForQuery && Awaited(end, tag) {
        done' := true;
      }
    }

    /** A piece of the reply, taken in runs: what comes out is what the bytes one by one would give. */
    method Feed(chunk: seq<byte>) returns (done: bool, state: TxState)
      requires Valid()
      modifies this
      ensures Valid()
      ensures var p := OnBytes(end, Fresh(old(Now())), chunk); done == p.done && state == p.state && Now() == p.scan
    {
      done, state := false, Partial;
      var rest := chunk;
      ghost var want := OnBytes(end, Fresh(Now()), chunk);
      while |rest| > 0
        invariant Valid()
        invariant OnBytes(end, Progress(Now(), done, state, false), rest) == want
        decreases |rest|
      {
        ghost var p := Progress(Now(), done, state, false);
        var n;
        if skip > 0 {
          n, done, state := SkipBody(rest, done, state);
          rest := rest[n..];
          continue;
        }
        n := if HeaderSize - |header| < |rest| then HeaderSize - |header| else |rest|;
        var front := rest[..n];
        assert rest == front + rest[n..];
        OnBytesAppend(end, p, front, rest[n..]);
        rest := rest[n..];
        if |header| + n < HeaderSize {
          Gathering(end, p, front);
          header := header + front;
          return;
        }
        Completing(end, p, front);
        var readable;
        done, readable := OnWholeHeader(header + front, done, state);
        if !readable {
          Halted(end, OnHeader(end, p, p.scan.header + front), rest);
          return;
        }
      }
    }
  }
}
