/**
 Client messages on the wire: how many bytes a read still owes, how a message that spans reads
 is assembled, and how COPY data is relayed.  A message is a tag byte and a four-byte length
 that counts itself and the body (PostgreSQL 16 documentation, section 55.7, Message Formats).
 */
module Framing {

  import opened Common

  type byte = x: int | 0 <= x < 256

  const HeaderSize: nat := 5
  const HeaderProbe: nat := 8

  /** The length field of a header. */
  function LengthField(data: seq<byte>): (n: nat)
    requires |data| >= HeaderSize
  {
    data[1] as int * 0x1000000 + data[2] as int * 0x10000 + data[3] as int * 0x100 + data[4] as int
  }

  /**
   The framer.  Nothing can be said of a split header; a length that cannot be one makes the
   bytes in hand the whole message.
   */
  function MessageLength(data: seq<byte>): (total: Option<nat>)
    ensures total.Some? <==> |data| >= HeaderSize
    ensures total.Some? ==> total.value >= HeaderSize
  {
    if |data| < HeaderSize then None
    else if LengthField(data) < 4 then Some(|data|)
    else Some(1 + LengthField(data))
  }

  /** How many more bytes the last message in `data` needs; at least one for a split header. */
  function TrailingNeed(data: seq<byte>): nat {
    if data == [] then 0
    else
      var total := MessageLength(data);
      if total.None? then 1
      else if total.value > |data| then total.value - |data|
      else TrailingNeed(data[total.value..])
  }

  method ComputeTrailingNeed(data: seq<byte>) returns (need: nat)
    ensures need == TrailingNeed(data)
  {
    var rest := data;
    while |rest| > 0
      invariant TrailingNeed(rest) == TrailingNeed(data)
    {
      var total := MessageLength(rest);
      if total.None? {
        return 1;
      }
      if total.value > |rest| {
        return total.value - |rest|;
      }
      rest := rest[total.value..];
    }
    need := 0;
  }

  // ---------------------------------------------------------------- messages, independently of the framer

  /** A whole message: its length field says exactly how long it is. */
  predicate IsMessage(m: seq<byte>) { |m| >= HeaderSize && LengthField(m) >= 4 && |m| == 1 + LengthField(m) }

  /** A message as it is written: a tag, the length of itself and the body with its high byte first, and the body. */
  function Frame(tag: byte, body: seq<byte>): seq<byte>
    requires |body| + 4 < 0x1_0000_0000
  {
    var n := |body| + 4;
    [tag, n / 0x1000000, n / 0x10000 % 256, n / 0x100 % 256, n % 256] + body
  }

  lemma LowByte(n: nat, high: nat, low: nat)
    requires low < 256
    ensures high * 256 + low == n <==> high == n / 256 && low == n % 256
  {
  }

  lemma DivideOn(n: nat)
    ensures n / 0x100 / 0x100 == n / 0x10000 && n / 0x10000 / 0x100 == n / 0x1000000
  {
  }

  /** The four bytes of a number, high byte first. */
  lemma FourBytes(n: nat, a: nat, b: nat, c: nat, d: nat)
    requires n < 0x1_0000_0000 && a < 256 && b < 256 && c < 256 && d < 256
    ensures a * 0x1000000 + b * 0x10000 + c * 0x100 + d == n <==>
      a == n / 0x1000000 && b == n / 0x10000 % 256 && c == n / 0x100 % 256 && d == n % 256
  {
    var upper := a * 0x10000 + b * 0x100 + c;
    LowByte(n, upper, d);
    LowByte(n / 0x100, a * 0x100 + b, c);
    LowByte(n / 0x10000, a, b);
    DivideOn(n);
    assert a * 0x1000000 + b * 0x10000 + c * 0x100 + d == upper * 256 + d;
    assert upper == (a * 0x100 + b) * 256 + c;
  }

  lemma FrameIsMessage(tag: byte, body: seq<byte>)
    requires |body| + 4 < 0x1_0000_0000
    ensures IsMessage(Frame(tag, body)) && LengthField(Frame(tag, body)) == |body| + 4
  {
    var n := |body| + 4;
    FourBytes(n, n / 0x1000000, n / 0x10000 % 256, n / 0x100 % 256, n % 256);
  }

  lemma MessageIsFrame(m: seq<byte>)
    requires IsMessage(m)
    ensures |m| - 1 < 0x1_0000_0000 && m == Frame(m[0], m[HeaderSize..])
  {
    FourBytes(|m| - 1, m[1], m[2], m[3], m[4]);
    assert m == [m[0], m[1], m[2], m[3], m[4]] + m[HeaderSize..];
  }

  /** Bytes are a whole message to the framer exactly when somebody can have written them as one. */
  lemma MessagesAreFrames(m: seq<byte>)
    ensures IsMessage(m) <==> exists tag, body :: |body| + 4 < 0x1_0000_0000 && m == Frame(tag, body)
  {
    if IsMessage(m) { MessageIsFrame(m); }
    forall tag, body | |body| + 4 < 0x1_0000_0000 && m == Frame(tag, body) ensures IsMessage(m) { FrameIsMessage(tag, body); }
  }

  /** A message cut short after its header owes exactly the bytes that are missing. */
  lemma CutFrameNeed(tag: byte, body: seq<byte>, n: nat)
    requires |body| + 4 < 0x1_0000_0000 && HeaderSize <= n < |Frame(tag, body)|
    ensures TrailingNeed(Frame(tag, body)[..n]) == |Frame(tag, body)| - n
  {
    FrameIsMessage(tag, body);
    assert LengthField(Frame(tag, body)[..n]) == LengthField(Frame(tag, body));
  }

  /** A header whose length cannot be one, and whatever came after it. */
  predicate IsGarbled(m: seq<byte>) { |m| >= HeaderSize && LengthField(m) < 4 }

  ghost predicate AllMessages(ms: seq<seq<byte>>) { forall i :: 0 <= i < |ms| ==> IsMessage(ms[i]) }

  function Concat(ms: seq<seq<byte>>): seq<byte> {
    if ms == [] then [] else ms[0] + Concat(ms[1..])
  }

  /** `data` is these messages, and then nothing or a garbled tail. */
  ghost predicate Splits(data: seq<byte>, ms: seq<seq<byte>>, tail: seq<byte>) {
    AllMessages(ms) && data == Concat(ms) + tail && (tail == [] || IsGarbled(tail))
  }

  ghost predicate WholeMessages(data: seq<byte>) { exists ms :: Splits(data, ms, []) }

  lemma {:induction false} ConcatAppend(a: seq<seq<byte>>, b: seq<seq<byte>>)
    ensures Concat(a + b) == Concat(a) + Concat(b)
  {
    if a == [] {
      assert a + b == b;
    } else {
      ConcatAppend(a[1..], b);
      assert (a + b)[1..] == a[1..] + b && (a + b)[0] == a[0];
      assert a[0] + (Concat(a[1..]) + Concat(b)) == a[0] + Concat(a[1..]) + Concat(b);
    }
  }

  /** The first message of a split text is what the framer says it is. */
  lemma FirstMessage(data: seq<byte>, ms: seq<seq<byte>>, tail: seq<byte>)
    requires Splits(data, ms, tail) && ms != []
    ensures |data| >= HeaderSize && MessageLength(data) == Some(|ms[0]|) && |ms[0]| <= |data|
    ensures data[..|ms[0]|] == ms[0] && Splits(data[|ms[0]|..], ms[1..], tail)
  {
    var rest := Concat(ms[1..]) + tail;
    assert data == ms[0] + rest;
    assert forall i :: 0 <= i < HeaderSize ==> data[i] == ms[0][i];
    assert LengthField(data) == LengthField(ms[0]);
    assert data[|ms[0]|..] == rest;
  }

  /** Nothing is owed exactly when the bytes are whole messages, or whole messages and a garbled tail. */
  lemma {:induction false} NothingOwedIfSplit(data: seq<byte>, ms: seq<seq<byte>>, tail: seq<byte>)
    requires Splits(data, ms, tail)
    ensures TrailingNeed(data) == 0
    decreases |ms|
  {
    if ms == [] {
      assert data == tail;
      if tail != [] {
        assert data[|data|..] == [];
      }
    } else {
      FirstMessage(data, ms, tail);
      NothingOwedIfSplit(data[|ms[0]|..], ms[1..], tail);
    }
  }

  lemma {:induction false} SplitIfNothingOwed(data: seq<byte>) returns (ms: seq<seq<byte>>, tail: seq<byte>)
    requires TrailingNeed(data) == 0
    ensures Splits(data, ms, tail)
    decreases |data|
  {
    if data == [] {
      ms, tail := [], [];
    } else if LengthField(data) < 4 {
      ms, tail := [], data;
    } else {
      var n := 1 + LengthField(data);
      var rest;
      rest, tail := SplitIfNothingOwed(data[n..]);
      ms := [data[..n]] + rest;
      SplitsCons(data, n, rest, tail);
    }
  }

  lemma SplitsCons(data: seq<byte>, n: nat, rest: seq<seq<byte>>, tail: seq<byte>)
    requires |data| >= HeaderSize && LengthField(data) >= 4 && n == 1 + LengthField(data) <= |data|
    requires Splits(data[n..], rest, tail)
    ensures Splits(data, [data[..n]] + rest, tail)
  {
    var m := data[..n];
    assert LengthField(m) == LengthField(data);
    var ms := [m] + rest;
    assert ms[1..] == rest;
    assert data == m + data[n..];
  }

  lemma NothingOwedExactly(data: seq<byte>)
    ensures TrailingNeed(data) == 0 <==> exists ms, tail :: Splits(data, ms, tail)
  {
    if TrailingNeed(data) == 0 {
      var ms, tail := SplitIfNothingOwed(data);
    }
    forall ms, tail | Splits(data, ms, tail)
      ensures TrailingNeed(data) == 0
    {
      NothingOwedIfSplit(data, ms, tail);
    }
  }

  /** The bytes of a message that is not all there, if there is one. */
  function Unfinished(data: seq<byte>): seq<byte> {
    if data == [] then []
    else
      var total := MessageLength(data);
      if total.None? || total.value > |data| then data else Unfinished(data[total.value..])
  }

  /** Once the header of the unfinished message is there, the need is the exact shortfall: every byte lowers it by one. */
  lemma {:induction false} NeedIsShortfall(data: seq<byte>, more: seq<byte>)
    requires |Unfinished(data)| >= HeaderSize && |more| <= TrailingNeed(data)
    ensures TrailingNeed(data + more) == TrailingNeed(data) - |more|
    decreases |data|
  {
    var total := MessageLength(data).value;
    assert LengthField(data + more) == LengthField(data);
    if total > |data| {
      assert MessageLength(data + more) == Some(total);
      if total == |data + more| { assert (data + more)[total..] == []; }
    } else if LengthField(data) >= 4 {
      NeedIsShortfall(data[total..], more);
      assert (data + more)[total..] == data[total..] + more;
    }
  }

  /** Fewer bytes than the need never finish the message, so what is asked for is never read past it. */
  lemma NeedIsNeeded(data: seq<byte>, more: seq<byte>)
    requires |more| < TrailingNeed(data)
    ensures TrailingNeed(data + more) > 0
  {
    SplitNeed(data);
    if more == [] {
      assert data + more == data;
    } else {
      NeedIsShortfall(data, more);
    }
  }

  /** A need is one while the header is not there. */
  lemma {:induction false} SplitNeed(data: seq<byte>)
    ensures TrailingNeed(data) > 1 ==> |Unfinished(data)| >= HeaderSize
    decreases |data|
  {
    if data != [] && MessageLength(data).Some? && MessageLength(data).value <= |data| {
      SplitNeed(data[MessageLength(data).value..]);
    }
  }

  /** There is only one way to read bytes as messages. */
  lemma {:induction false} OneReading(data: seq<byte>, ms: seq<seq<byte>>, tail: seq<byte>, ns: seq<seq<byte>>, end: seq<byte>)
    requires Splits(data, ms, tail) && Splits(data, ns, end)
    ensures ms == ns && tail == end
    decreases |ms|
  {
    if ms != [] && ns != [] {
      FirstMessage(data, ms, tail);
      FirstMessage(data, ns, end);
      OneReading(data[|ms[0]|..], ms[1..], tail, ns[1..], end);
      assert ms == [ms[0]] + ms[1..];
      assert ns == [ns[0]] + ns[1..];
    } else {
      assert ms == [] ==> data == tail;
      assert ns == [] ==> data == end;
      if ms != [] {
        FirstMessage(data, ms, tail);
      }
      if ns != [] {
        FirstMessage(data, ns, end);
      }
    }
  }

  // ---------------------------------------------------------------- reading requests

  /**
   A connection seen from the reader: everything the peer will ever send, and how much of it
   has been handed out.  `quiet` is how many reads will still come back empty-handed without
   an error.
   */
  class Conn {
    const stream: seq<byte>
    /** A steady connection brings what is asked for as long as there is anything to bring. */
    const steady: bool
    var pos: nat
    var quiet: nat

    ghost predicate Valid()
      reads this
    {
      pos <= |stream|
    }

    constructor (stream: seq<byte>, steady: bool, quiet: nat)
      ensures Valid() && this.stream == stream && this.steady == steady && pos == 0 && this.quiet == quiet
    {
      this.stream, this.steady, this.pos, this.quiet := stream, steady, 0, quiet;
    }

    /** How much there is to bring, if `size` is asked for. */
    function Left(size: nat): nat
      requires Valid()
      reads this
    {
      if size < |stream| - pos then size else |stream| - pos
    }

    /** Bytes handed out since the old state. */
    twostate function Taken(): seq<byte>
      requires old(pos) <= pos <= |stream|
      reads this
    {
      stream[old(pos)..pos]
    }

    /** One read: any number of the bytes that are left, with or without an error. */
    method Read(size: nat) returns (data: seq<byte>, failed: bool)
      requires Valid()
      modifies this
      ensures Valid() && old(pos) <= pos && data == Taken() && |data| <= size
      ensures quiet <= old(quiet) && (!failed && data == [] ==> quiet < old(quiet))
      ensures steady && old(Left(size)) > 0 ==> !failed && |data| == old(Left(size))
    {
      var limit := Left(size);
      var n: nat :| n <= limit && (steady ==> n == limit);
      failed := *;
      if steady && n > 0 { failed := false; }
      data := stream[pos..pos + n];
      pos := pos + n;
      if !failed && n == 0 {
        if quiet == 0 {
          failed := true;
        } else {
          quiet := quiet - 1;
        }
      }
    }

    /** io.ReadFull: the bytes asked for, or fewer and an error. */
    method ReadFull(size: nat) returns (data: seq<byte>, failed: bool)
      requires Valid()
      modifies `pos
      ensures Valid() && old(pos) <= pos && data == Taken() && |data| <= size
      ensures failed <==> |data| < size
      ensures steady ==> |data| == old(Left(size))
    {
      var limit := Left(size);
      var n: nat :| n <= limit && (steady ==> n == limit);
      data := stream[pos..pos + n];
      pos := pos + n;
      failed := n < size;
    }
  }

  datatype ReadError = NoError | TooLarge | ReadFailed

  /**
   Reads until nothing in the buffer is half-finished.  Every byte taken from the connection is
   in the result, in order; the result is never longer than the first read or seven bytes past
   the bound, the probe being applied after the bound is checked; and it always stops.  It fails
   for a reason: the bound, or a connection that gave out before what it had to bring was whole.
   */
  method ReadWholeMessage(conn: Conn, first: seq<byte>, maxBytes: nat) returns (data: seq<byte>, err: ReadError)
    requires conn.Valid()
    modifies conn
    ensures conn.Valid() && old(conn.pos) <= conn.pos && conn.quiet == old(conn.quiet)
    ensures data == first + conn.stream[old(conn.pos)..conn.pos]
    ensures err == NoError <==> TrailingNeed(data) == 0
    ensures err == TooLarge ==> |data| + TrailingNeed(data) > maxBytes
    ensures |data| <= |first| || |data| <= maxBytes + 7
    ensures conn.steady && TrailingNeed(first + conn.stream[old(conn.pos)..]) == 0 ==> err != ReadFailed
  {
    data := first;
    while true
      invariant conn.Valid() && old(conn.pos) <= conn.pos && conn.quiet == old(conn.quiet)
      invariant data == first + conn.stream[old(conn.pos)..conn.pos]
      invariant |data| <= |first| || |data| <= maxBytes + 7
      decreases maxBytes + 8 - |data|
    {
      var need := ComputeTrailingNeed(data);
      if need == 0 {
        return data, NoError;
      }
      if |data| + need > maxBytes {
        return data, TooLarge;
      }
      if need == 1 {
        need := HeaderProbe;
      }
      var more, failed := conn.ReadFull(need);
      data := data + more;
      if failed {
        assert conn.steady ==> conn.stream[old(conn.pos)..conn.pos] == conn.stream[old(conn.pos)..];
        need := ComputeTrailingNeed(data);
        err := if need == 0 then NoError else ReadFailed;
        return;
      }
    }
  }

  /** One request: whatever one read brought, completed if it ended part-way through a message. */
  method ReadRequest(conn: Conn, bufSize: nat, maxBytes: nat) returns (data: seq<byte>, err: ReadError)
    requires conn.Valid()
    modifies conn
    ensures conn.Valid() && old(conn.pos) <= conn.pos
    ensures data == conn.stream[old(conn.pos)..conn.pos]
    ensures err == NoError ==> TrailingNeed(data) == 0
    ensures err == NoError && data == [] ==> conn.quiet < old(conn.quiet)
    ensures conn.quiet <= old(conn.quiet)
    ensures |data| <= bufSize || |data| <= maxBytes + 7
    ensures err == TooLarge ==> |data| + TrailingNeed(data) > maxBytes
    ensures conn.steady && bufSize > 0 && old(conn.pos) < |conn.stream| && TrailingNeed(conn.stream[old(conn.pos)..]) == 0 ==>
              err != ReadFailed && data != []
  {
    var failed;
    data, failed := conn.Read(bufSize);
    if failed || data == [] {
      return data, if failed then ReadFailed else NoError;
    }
    var need := ComputeTrailingNeed(data);
    if need == 0 {
      return data, NoError;
    }
    ghost var mid := conn.pos;
    assert data + conn.stream[mid..] == conn.stream[old(conn.pos)..];
    data, err := ReadWholeMessage(conn, data, maxBytes);
    assert conn.stream[old(conn.pos)..mid] + conn.stream[mid..conn.pos] == conn.stream[old(conn.pos)..conn.pos];
  }

  // ---------------------------------------------------------------- a whole session

  lemma PrefixRest(a: seq<byte>, b: seq<byte>, n: nat)
    requires a <= b && n <= |a|
    ensures a[..n] == b[..n] && a[n..] <= b[n..]
  {
  }

  lemma SameHeader(a: seq<byte>, b: seq<byte>)
    requires a <= b && |a| >= HeaderSize
    ensures LengthField(a) == LengthField(b)
  {
  }

  /** Bytes at the front of whole messages that owe nothing hold the first of them. */
  lemma HoldsFirst(stream: seq<byte>, ms: seq<seq<byte>>, data: seq<byte>)
    requires Splits(stream, ms, []) && ms != [] && data <= stream && data != [] && TrailingNeed(data) == 0
    ensures |ms[0]| <= |data| && data[..|ms[0]|] == ms[0]
    ensures data[|ms[0]|..] <= stream[|ms[0]|..] && TrailingNeed(data[|ms[0]|..]) == 0
  {
    FirstMessage(stream, ms, []);
    SameHeader(data, stream);
    SameHeader(stream[..|ms[0]|], stream);
    PrefixRest(data, stream, |ms[0]|);
  }

  lemma ConcatFirst(ms: seq<seq<byte>>, j: nat)
    requires j < |ms|
    ensures Concat(ms[..j + 1]) == ms[0] + Concat(ms[1..][..j])
  {
    assert ms[..j + 1][1..] == ms[1..][..j];
  }

  /**
   On a stream of whole messages, bytes at its front that owe nothing end exactly at a message:
   the length of a message cannot make the framer stop inside one.
   */
  lemma {:induction false} EndsAtMessage(stream: seq<byte>, ms: seq<seq<byte>>, data: seq<byte>) returns (k: nat)
    requires Splits(stream, ms, []) && data <= stream && TrailingNeed(data) == 0
    ensures k <= |ms| && data == Concat(ms[..k]) && Splits(stream[|data|..], ms[k..], [])
    decreases |ms|
  {
    if data == [] {
      k := 0;
      assert stream[0..] == stream && ms[0..] == ms;
    } else {
      HoldsFirst(stream, ms, data);
      FirstMessage(stream, ms, []);
      var n := |ms[0]|;
      var j := EndsAtMessage(stream[n..], ms[1..], data[n..]);
      k := j + 1;
      ConcatFirst(ms, j);
      assert data == ms[0] + data[n..];
      assert stream[n..][|data[n..]|..] == stream[|data|..];
      assert ms[1..][j..] == ms[k..];
    }
  }

  lemma ConcatSnoc(rs: seq<seq<byte>>, r: seq<byte>)
    ensures Concat(rs + [r]) == Concat(rs) + r
  {
    ConcatAppend(rs, [r]);
    assert [r][1..] == [] && Concat([r]) == r;
  }

  /** Whole messages, less bytes at their front that owe nothing, are whole messages. */
  lemma StaysWhole(stream: seq<byte>, data: seq<byte>)
    requires WholeMessages(stream) && data <= stream && TrailingNeed(data) == 0
    ensures WholeMessages(stream[|data|..])
  {
    var ms :| Splits(stream, ms, []);
    var k := EndsAtMessage(stream, ms, data);
    assert Splits(stream[|data|..], ms[k..], []);
  }

  /** Bytes that make up what is owed are at least as many as the need. */
  lemma EnoughIsNeeded(data: seq<byte>, more: seq<byte>)
    requires TrailingNeed(data + more) == 0
    ensures TrailingNeed(data) <= |more|
  {
    if |more| < TrailingNeed(data) {
      NeedIsNeeded(data, more);
    }
  }

  /** The front of whole messages never owes more than is left of them. */
  lemma FrontOfWhole(stream: seq<byte>, data: seq<byte>)
    requires WholeMessages(stream) && data <= stream
    ensures TrailingNeed(stream) == 0 && |data| + TrailingNeed(data) <= |stream|
  {
    var ms :| Splits(stream, ms, []);
    NothingOwedIfSplit(stream, ms, []);
    var more := stream[|data|..];
    assert data + more == stream;
    EnoughIsNeeded(data, more);
  }

  /** What is left to bring is whole messages, within the bound. */
  ghost predicate Deliverable(stream: seq<byte>, from: nat, maxBytes: nat) {
    from <= |stream| && WholeMessages(stream[from..]) && |stream| - from <= maxBytes
  }

  lemma SliceStarts(stream: seq<byte>, before: nat, after: nat)
    requires before <= after <= |stream|
    ensures stream[before..after] <= stream[before..] && stream[before..][after - before..] == stream[after..]
    ensures stream[before..] == stream[before..after] + stream[after..]
  {
  }

  /** Reading from there: what is owed is to come, within the bound; and if nothing is, it can go on. */
  lemma Delivered(stream: seq<byte>, before: nat, after: nat, maxBytes: nat)
    requires Deliverable(stream, before, maxBytes) && before <= after <= |stream|
    ensures TrailingNeed(stream[before..]) == 0
    ensures after - before + TrailingNeed(stream[before..after]) <= maxBytes
    ensures TrailingNeed(stream[before..after]) == 0 ==> Deliverable(stream, after, maxBytes)
  {
    var all, data := stream[before..], stream[before..after];
    SliceStarts(stream, before, after);
    FrontOfWhole(all, data);
    if TrailingNeed(data) == 0 {
      StaysWhole(all, data);
    }
  }

  /**
   Up to `limit` requests, until one fails.  Nothing is lost, repeated or reordered: the
   requests and the bytes of the failed read are exactly what was taken from the connection.
   While the connection holds, reading whole messages stops only at their end.
   */
  method ReadRequests(conn: Conn, bufSize: nat, maxBytes: nat, limit: nat)
    returns (requests: seq<seq<byte>>, partial: seq<byte>, err: ReadError)
    requires conn.Valid()
    modifies conn
    ensures conn.Valid() && old(conn.pos) <= conn.pos
    ensures Concat(requests) + partial == conn.stream[old(conn.pos)..conn.pos]
    ensures forall i :: 0 <= i < |requests| ==> TrailingNeed(requests[i]) == 0
    ensures err == NoError ==> partial == [] && |requests| == limit
    ensures conn.steady && bufSize > 0 && Deliverable(conn.stream, old(conn.pos), maxBytes) && err != NoError ==>
              conn.pos == |conn.stream|
  {
    requests, partial, err := [], [], NoError;
    while |requests| < limit
      invariant conn.Valid() && old(conn.pos) <= conn.pos && |requests| <= limit
      invariant Deliverable(conn.stream, old(conn.pos), maxBytes) ==> Deliverable(conn.stream, conn.pos, maxBytes)
      invariant Concat(requests) == conn.stream[old(conn.pos)..conn.pos]
      invariant forall i :: 0 <= i < |requests| ==> TrailingNeed(requests[i]) == 0
    {
      ghost var before := conn.pos;
      var data;
      data, err := ReadRequest(conn, bufSize, maxBytes);
      assert conn.stream[old(conn.pos)..before] + data == conn.stream[old(conn.pos)..conn.pos];
      if Deliverable(conn.stream, before, maxBytes) {
        Delivered(conn.stream, before, conn.pos, maxBytes);
      }
      if err != NoError {
        partial := data;
        return;
      }
      ConcatSnoc(requests, data);
      requests := requests + [data];
    }
    err := NoError;
  }

  /** `r` is the messages from `a` up to `b`. */
  ghost predicate Between(r: seq<byte>, ms: seq<seq<byte>>, a: nat, b: nat) {
    a <= b <= |ms| && r == Concat(ms[a..b])
  }

  /** `cuts` are message boundaries, and request `i` is the messages between two neighbouring cuts. */
  ghost predicate CutAt(requests: seq<seq<byte>>, ms: seq<seq<byte>>, cuts: seq<nat>) {
    && |cuts| == |requests| + 1 && cuts[0] == 0 && cuts[|requests|] <= |ms|
    && (forall i :: 0 <= i < |requests| ==> Between(requests[i], ms, cuts[i], cuts[i + 1]))
  }

  lemma CutOnce(init: seq<seq<byte>>, ms: seq<seq<byte>>, cuts: seq<nat>, last: seq<byte>, k: nat)
    requires CutAt(init, ms, cuts) && Between(last, ms, cuts[|init|], k)
    ensures CutAt(init + [last], ms, cuts + [k])
  {
    var requests, more := init + [last], cuts + [k];
    forall i | 0 <= i < |requests|
      ensures Between(requests[i], ms, more[i], more[i + 1])
    {
      if i < |init| {
        assert requests[i] == init[i] && more[i] == cuts[i] && more[i + 1] == cuts[i + 1];
      }
    }
  }

  lemma RestStarts(stream: seq<byte>, done: seq<byte>, last: seq<byte>)
    requires done + last <= stream
    ensures last <= stream[|done|..] && stream[|done|..][|last|..] == stream[|done + last|..]
  {
    assert (done + last)[|done|..] == last;
  }

  /** A request read from a message boundary ends at one. */
  lemma NextCut(stream: seq<byte>, ms: seq<seq<byte>>, done: seq<byte>, from: nat, last: seq<byte>) returns (k: nat)
    requires done + last <= stream && from <= |ms|
    requires Splits(stream[|done|..], ms[from..], []) && TrailingNeed(last) == 0
    ensures Between(last, ms, from, k) && Splits(stream[|done + last|..], ms[k..], [])
  {
    RestStarts(stream, done, last);
    var n := EndsAtMessage(stream[|done|..], ms[from..], last);
    k := from + n;
    assert ms[from..][..n] == ms[from..k] && ms[from..][n..] == ms[k..];
  }

  /**
   Whatever the chunking: if the client's stream is whole messages, every successful request is
   a run of them, each request starting where the one before it ended.
   */
  lemma {:induction false} RequestsAreMessages(stream: seq<byte>, ms: seq<seq<byte>>, requests: seq<seq<byte>>)
    returns (cuts: seq<nat>)
    requires Splits(stream, ms, [])
    requires Concat(requests) <= stream
    requires forall i :: 0 <= i < |requests| ==> TrailingNeed(requests[i]) == 0
    ensures CutAt(requests, ms, cuts) && Splits(stream[|Concat(requests)|..], ms[cuts[|requests|]..], [])
    decreases |requests|
  {
    if requests == [] {
      cuts := [0];
      assert stream[0..] == stream && ms[0..] == ms;
    } else {
      var init, last := requests[..|requests| - 1], requests[|requests| - 1];
      assert requests == init + [last];
      ConcatSnoc(init, last);
      assert Concat(init) <= Concat(requests);
      var head := RequestsAreMessages(stream, ms, init);
      var k := NextCut(stream, ms, Concat(init), head[|init|], last);
      CutOnce(init, ms, head, last, k);
      cuts := head + [k];
    }
  }

  // ---------------------------------------------------------------- COPY data

  /** CopyDone or CopyFail (PostgreSQL 16 documentation, section 55.2.6, COPY Operations). */
  predicate EndsCopyTag(tag: byte) { tag == 0x63 || tag == 0x66 }

  function EndsCopyIn(data: seq<byte>): bool {
    if data == [] then false
    else
      var total := MessageLength(data);
      if total.None? || total.value > |data| then false
      else EndsCopyTag(data[0]) || EndsCopyIn(data[total.value..])
  }

  method ComputeEndsCopyIn(data: seq<byte>) returns (ends: bool)
    ensures ends == EndsCopyIn(data)
  {
    var rest := data;
    while |rest| > 0
      invariant EndsCopyIn(rest) == EndsCopyIn(data)
    {
      var total := MessageLength(rest);
      if total.None? || total.value > |rest| {
        return false;
      }
      if rest[0] == 0x63 || rest[0] == 0x66 {
        return true;
      }
      rest := rest[total.value..];
    }
    ends := false;
  }

  ghost predicate HoldsEnd(ms: seq<seq<byte>>, tail: seq<byte>)
    requires AllMessages(ms)
  {
    (exists i :: 0 <= i < |ms| && EndsCopyTag(ms[i][0])) || (tail != [] && EndsCopyTag(tail[0]))
  }

  /** A batch ends the COPY exactly when one of its messages is a CopyDone or a CopyFail. */
  lemma {:induction false} EndsCopyExactly(data: seq<byte>, ms: seq<seq<byte>>, tail: seq<byte>)
    requires Splits(data, ms, tail)
    ensures EndsCopyIn(data) <==> HoldsEnd(ms, tail)
    decreases |ms|
  {
    if ms == [] {
      assert data == tail;
      if data != [] {
        assert data[|data|..] == [];
      }
    } else {
      FirstMessage(data, ms, tail);
      EndsCopyExactly(data[|ms[0]|..], ms[1..], tail);
      assert data[0] == ms[0][0];
      assert forall i :: 0 < i < |ms| ==> ms[i] == ms[1..][i - 1];
      if HoldsEnd(ms[1..], tail) && tail == [] {
        var j :| 0 <= j < |ms[1..]| && EndsCopyTag(ms[1..][j][0]);
        assert EndsCopyTag(ms[j + 1][0]);
      }
    }
  }

  lemma LaterMessage(ms: seq<seq<byte>>, k: nat)
    requires AllMessages(ms) && k <= |ms| && HoldsEnd(ms, []) && !HoldsEnd(ms[..k], [])
    ensures HoldsEnd(ms[k..], [])
  {
    forall j | 0 <= j < k
      ensures !EndsCopyTag(ms[j][0])
    {
      assert ms[..k][j] == ms[j];
    }
    var i :| 0 <= i < |ms| && EndsCopyTag(ms[i][0]);
    assert ms[k..][i - k] == ms[i];
  }

  /** If whole messages end the COPY and their front does not, what is left does. */
  lemma EndsLater(stream: seq<byte>, data: seq<byte>, rest: seq<byte>)
    requires WholeMessages(stream) && stream == data + rest && TrailingNeed(data) == 0
    requires EndsCopyIn(stream) && !EndsCopyIn(data)
    ensures EndsCopyIn(rest)
  {
    var ms :| Splits(stream, ms, []);
    assert stream[|data|..] == rest;
    var k := EndsAtMessage(stream, ms, data);
    assert Splits(data, ms[..k], []);
    EndsAmongLater(stream, ms, data, rest, k);
  }

  lemma EndsAmongLater(stream: seq<byte>, ms: seq<seq<byte>>, front: seq<byte>, rest: seq<byte>, k: nat)
    requires k <= |ms| && Splits(stream, ms, []) && Splits(front, ms[..k], []) && Splits(rest, ms[k..], [])
    requires EndsCopyIn(stream) && !EndsCopyIn(front)
    ensures EndsCopyIn(rest)
  {
    EndsCopyExactly(stream, ms, []);
    EndsCopyExactly(front, ms[..k], []);
    LaterMessage(ms, k);
    EndsCopyExactly(rest, ms[k..], []);
  }

  /** The end of the COPY is still to come: what is left can be read, and holds it. */
  ghost predicate EndToCome(stream: seq<byte>, from: nat, maxBytes: nat) {
    Deliverable(stream, from, maxBytes) && EndsCopyIn(stream[from..])
  }

  lemma EndStillToCome(stream: seq<byte>, before: nat, after: nat, maxBytes: nat)
    requires EndToCome(stream, before, maxBytes) && before <= after <= |stream|
    requires TrailingNeed(stream[before..after]) == 0 && !EndsCopyIn(stream[before..after])
    ensures EndToCome(stream, after, maxBytes)
  {
    SliceStarts(stream, before, after);
    EndsLater(stream[before..], stream[before..after], stream[after..]);
    Delivered(stream, before, after, maxBytes);
  }

  /** One batch from the client, with what it means for the end of the COPY. */
  method ReadBatch(conn: Conn, bufSize: nat, maxBytes: nat) returns (data: seq<byte>, err: ReadError)
    requires conn.Valid()
    modifies conn
    ensures conn.Valid() && old(conn.pos) <= conn.pos && data == conn.stream[old(conn.pos)..conn.pos]
    ensures conn.quiet <= old(conn.quiet) && (err == NoError && data == [] ==> conn.quiet < old(conn.quiet))
    ensures conn.steady && bufSize > 0 && EndToCome(conn.stream, old(conn.pos), maxBytes) ==>
              err == NoError && data != [] && (EndsCopyIn(data) || EndToCome(conn.stream, conn.pos, maxBytes))
  {
    data, err := ReadRequest(conn, bufSize, maxBytes);
    if EndToCome(conn.stream, old(conn.pos), maxBytes) {
      Delivered(conn.stream, old(conn.pos), conn.pos, maxBytes);
      if err == NoError && !EndsCopyIn(data) {
        EndStillToCome(conn.stream, old(conn.pos), conn.pos, maxBytes);
      }
    }
  }

  datatype CopyResult = Ended | Interrupted | WriteFailed | ClientFailed

  /**
   Forwards client batches until one ends the COPY.  The batches written to the backend and the
   batch dropped, if any, are exactly what was taken from the client; only the last batch
   written can hold the end, and the relay stops after it.  `calm` says that nobody stops the
   relay and the backend takes what it is given: then a client that ends the COPY is heard.
   */
  method Relay(conn: Conn, bufSize: nat, maxBytes: nat, calm: bool)
    returns (written: seq<seq<byte>>, dropped: seq<byte>, result: CopyResult)
    requires conn.Valid()
    modifies conn
    ensures conn.Valid() && old(conn.pos) <= conn.pos
    ensures Concat(written) + dropped == conn.stream[old(conn.pos)..conn.pos]
    ensures forall i :: 0 <= i < |written| - 1 ==> !EndsCopyIn(written[i])
    ensures result == Ended <==> written != [] && EndsCopyIn(written[|written| - 1])
    ensures result == Ended || result == ClientFailed ==> dropped == []
    ensures calm && conn.steady && bufSize > 0 && EndToCome(conn.stream, old(conn.pos), maxBytes) ==> result == Ended
  {
    written, dropped := [], [];
    while true
      invariant conn.Valid() && old(conn.pos) <= conn.pos
      invariant Concat(written) == conn.stream[old(conn.pos)..conn.pos]
      invariant forall i :: 0 <= i < |written| ==> !EndsCopyIn(written[i])
      invariant conn.steady && bufSize > 0 && EndToCome(conn.stream, old(conn.pos), maxBytes) ==>
                  EndToCome(conn.stream, conn.pos, maxBytes)
      decreases |conn.stream| - conn.pos, conn.quiet
    {
      ghost var before := conn.pos;
      var data, err := ReadBatch(conn, bufSize, maxBytes);
      assert conn.stream[old(conn.pos)..before] + data == conn.stream[old(conn.pos)..conn.pos];
      var stopping: bool := *;
      if stopping && !calm {
        return written, data, Interrupted;
      }
      if |data| > 0 {
        var failed: bool := *;
        if failed && !calm {
          return written, data, WriteFailed;
        }
        ConcatSnoc(written, data);
        written := written + [data];
        var ends := ComputeEndsCopyIn(data);
        if ends {
          return written, [], Ended;
        }
      }
      if err != NoError {
        return written, [], ClientFailed;
      }
    }
  }
}
