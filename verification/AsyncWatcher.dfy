/**
 Forwarding messages a backend sends unprompted while the session is idle (PostgreSQL 16
 documentation, section 55.2.7, Asynchronous Operations).  The watcher may only leave between
 messages: bytes it has taken and not passed on would be missing from the middle of the next
 reply.
 */
module AsyncWatcher {
  import opened Common
  import opened Framing

  /** NotificationResponse, NoticeResponse and ParameterStatus. */
  predicate IsAsyncTag(tag: byte) { tag == 0x41 || tag == 0x4E || tag == 0x53 }

  /** Every message is an `A`, an `N` or an `S`. */
  ghost predicate AllAsync(ms: seq<seq<byte>>)
    requires AllMessages(ms)
  {
    forall i :: 0 <= i < |ms| ==> ms[i][0] in {0x41, 0x4E, 0x53}
  }

  /** Everything the backend is going to send is whole unprompted messages. */
  ghost predicate AsyncOnly(stream: seq<byte>) {
    exists ms :: Splits(stream, ms, []) && AllAsync(ms)
  }

  /** Why the watcher left. */
  datatype Leave =
    | Stopped      // asked to, and noticed between messages
    | ServerGone   // the connection failed with nothing of a message taken
    | Unexpected   // not something a backend sends unprompted
    | CutShort     // the connection failed inside a message
    | ClientGone   // the client could not be written to

  /** Bytes that owe nothing, at the front of unprompted messages, leave unprompted messages. */
  lemma StillAsync(stream: seq<byte>, data: seq<byte>)
    requires AsyncOnly(stream) && data <= stream && TrailingNeed(data) == 0
    ensures AsyncOnly(stream[|data|..])
  {
    var ms :| Splits(stream, ms, []) && AllAsync(ms);
    var k := EndsAtMessage(stream, ms, data);
    assert AllMessages(ms[k..]) && AllAsync(ms[k..]);
  }

  /** The next message of such a stream is one the watcher forwards, and it is all there. */
  lemma NextIsAsync(stream: seq<byte>)
    requires AsyncOnly(stream) && stream != []
    ensures |stream| >= HeaderSize && IsAsyncTag(stream[0]) && LengthField(stream) >= 4 && 1 + LengthField(stream) <= |stream|
  {
    var ms :| Splits(stream, ms, []) && AllAsync(ms);
    assert ms != [];
    FirstMessage(stream, ms, []);
    assert stream[0] == ms[0][0];
  }

  lemma OneMoreMessage(sent: seq<byte>, ms: seq<seq<byte>>, m: seq<byte>)
    requires Splits(sent, ms, []) && IsMessage(m)
    ensures Splits(sent + m, ms + [m], [])
  {
    ConcatSnoc(ms, m);
  }

  lemma OneMoreAsync(ms: seq<seq<byte>>, m: seq<byte>)
    requires AllMessages(ms) && AllAsync(ms) && IsMessage(m) && IsAsyncTag(m[0])
    ensures AllMessages(ms + [m]) && AllAsync(ms + [m])
  {
  }

  lemma MessageOwesNothing(sent: seq<byte>, m: seq<byte>)
    requires IsMessage(m) && IsAsyncTag(m[0]) && AsyncOnly(sent)
    ensures TrailingNeed(sent + m) == 0 && AsyncOnly(sent + m)
  {
    var ms :| Splits(sent, ms, []) && AllAsync(ms);
    OneMoreMessage(sent, ms, m);
    OneMoreAsync(ms, m);
    NothingOwedIfSplit(sent + m, ms + [m], []);
  }

  datatype HeaderRead = Took | Quiet | Gone | Cut

  /**
   The header of the next message.  A deadline before its first byte is a quiet interval; after
   it, the watcher is committed and finishes the header.
   */
  method TakeHeader(server: Conn) returns (header: seq<byte>, read: HeaderRead)
    requires server.Valid()
    modifies server
    ensures server.Valid() && old(server.pos) <= server.pos
    ensures read == Took ==> |header| == HeaderSize && header == server.stream[old(server.pos)..server.pos]
    ensures read == Quiet || read == Gone ==> server.pos == old(server.pos)
    ensures server.steady && old(server.pos) + HeaderSize <= |server.stream| ==> read == Took
    ensures server.steady && old(server.pos) == |server.stream| ==> read == Quiet || read == Gone
  {
    var failed;
    header, failed := server.ReadFull(HeaderSize);
    if header == [] {
      var deadline: bool := *;
      return header, if deadline then Quiet else Gone;
    }
    if failed {
      ghost var mid := server.pos;
      var rest, cut := server.ReadFull(HeaderSize - |header|);
      if cut {
        return header, Cut;
      }
      assert server.stream[old(server.pos)..mid] + server.stream[mid..server.pos] == server.stream[old(server.pos)..server.pos];
      header := header + rest;
    }
    read := Took;
  }

  datatype Fate = Forwarded | NotALength | Short | NoClient

  /** The body, and the whole message to the client. */
  method Forward(server: Conn, header: seq<byte>, clientTakes: bool) returns (m: seq<byte>, fate: Fate)
    requires server.Valid() && |header| == HeaderSize
    modifies server
    ensures server.Valid() && old(server.pos) <= server.pos
    ensures fate == Forwarded ==> IsMessage(m) && m == header + server.stream[old(server.pos)..server.pos]
    ensures fate == NotALength <==> LengthField(header) < 4
    ensures server.steady && clientTakes && 4 <= LengthField(header) <= |server.stream| - old(server.pos) + 4 ==>
              fate == Forwarded
  {
    m := header;
    if LengthField(header) < 4 {
      return m, NotALength;
    }
    var body, short := server.ReadFull(LengthField(header) - 4);
    if short {
      return m, Short;
    }
    var clientGone: bool := *;
    if clientGone && !clientTakes {
      return m, NoClient;
    }
    m := header + body;
    assert LengthField(m) == LengthField(header);
    fate := Forwarded;
  }

  lemma Adjoin(s: seq<byte>, a: nat, b: nat, c: nat)
    requires a <= b <= c <= |s|
    ensures s[a..b] + s[b..c] == s[a..c]
  {
  }

  /** Everything taken since `origin` has been given to the client, and it is whole unprompted messages. */
  ghost predicate Boundary(server: Conn, origin: nat, sent: seq<byte>)
    reads server
  {
    && server.Valid() && origin <= server.pos && sent == server.stream[origin..server.pos]
    && TrailingNeed(sent) == 0 && AsyncOnly(sent)
  }

  /** A message read in two parts at a boundary leaves the watcher at a boundary. */
  lemma Advances(stream: seq<byte>, origin: nat, at: nat, mid: nat, end: nat, sent: seq<byte>, m: seq<byte>)
    requires origin <= at <= mid <= end <= |stream| && sent == stream[origin..at] && m == stream[at..mid] + stream[mid..end]
    requires IsMessage(m) && IsAsyncTag(m[0]) && AsyncOnly(sent)
    ensures sent + m == stream[origin..end] && TrailingNeed(sent + m) == 0 && AsyncOnly(sent + m)
  {
    MessageOwesNothing(sent, m);
    Adjoin(stream, at, mid, end);
    Adjoin(stream, origin, at, end);
  }

  /** A whole unprompted message starts at `at`. */
  ghost predicate MessageAt(stream: seq<byte>, at: nat) {
    && at + HeaderSize <= |stream| && IsAsyncTag(stream[at])
    && 4 <= LengthField(stream[at..at + HeaderSize]) < |stream| - at
  }

  /** At a boundary in unprompted messages, with more to come, there is such a message. */
  lemma MoreIsThere(stream: seq<byte>, origin: nat, at: nat)
    requires origin <= at < |stream| && TrailingNeed(stream[origin..at]) == 0 && AsyncOnly(stream[origin..])
    ensures MessageAt(stream, at)
  {
    var all, sent := stream[origin..], stream[origin..at];
    assert all[|sent|..] == stream[at..];
    StillAsync(all, sent);
    NextIsAsync(stream[at..]);
    assert LengthField(stream[at..]) == LengthField(stream[at..at + HeaderSize]);
  }

  /** One poll interval: no message, one message passed on, or a reason to leave. */
  method Poll(server: Conn, ghost origin: nat, sent: seq<byte>, clientTakes: bool)
    returns (now: seq<byte>, leave: Option<Leave>)
    requires Boundary(server, origin, sent)
    modifies server
    ensures server.Valid() && old(server.pos) <= server.pos
    ensures leave.None? || leave.value == ServerGone ==> Boundary(server, origin, now)
    ensures leave.Some? ==> now == sent && leave.value != Stopped
    ensures leave == Some(Unexpected) ==> old(server.pos) < |server.stream| && !MessageAt(server.stream, old(server.pos))
    ensures server.steady && clientTakes && MessageAt(server.stream, old(server.pos)) ==>
              leave.None? && server.pos > old(server.pos)
    ensures server.steady && old(server.pos) == |server.stream| ==>
              now == sent && server.pos == old(server.pos) && (leave.None? || leave.value == ServerGone)
  {
    now, leave := sent, None;
    var header, read := TakeHeader(server);
    if read != Took {
      leave := match read case Gone => Some(ServerGone) case Cut => Some(CutShort) case _ => None;
      return;
    }
    if !IsAsyncTag(header[0]) {
      return sent, Some(Unexpected);
    }
    ghost var mid := server.pos;
    var m, fate := Forward(server, header, clientTakes);
    if fate != Forwarded {
      leave := match fate case NotALength => Some(Unexpected) case Short => Some(CutShort) case _ => Some(ClientGone);
      return;
    }
    now := sent + m;
    Advances(server.stream, origin, old(server.pos), mid, server.pos, sent, m);
  }

  /** The same, for a backend that is going to send unprompted messages only. */
  method Tick(server: Conn, ghost origin: nat, sent: seq<byte>, clientTakes: bool)
    returns (now: seq<byte>, leave: Option<Leave>)
    requires Boundary(server, origin, sent)
    modifies server
    ensures server.Valid() && old(server.pos) <= server.pos
    ensures leave.None? || leave.value == ServerGone ==> Boundary(server, origin, now)
    ensures leave.Some? ==> now == sent && leave.value != Stopped
    ensures leave == Some(Unexpected) ==> !AsyncOnly(server.stream[origin..])
    ensures server.steady && clientTakes && AsyncOnly(server.stream[origin..]) ==>
              if old(server.pos) < |server.stream| then leave.None? && server.pos > old(server.pos)
              else leave.None? || leave.value == ServerGone
  {
    if AsyncOnly(server.stream[origin..]) && server.pos < |server.stream| {
      MoreIsThere(server.stream, origin, server.pos);
    }
    now, leave := Poll(server, origin, sent, clientTakes);
  }

  /**
   `polls` is how many poll intervals pass before the stop flag is seen.  `sent` is what the
   client has been given: always whole unprompted messages, and always the front of what was taken.
   Leaving between messages, everything taken has been given; and a backend that sends only
   unprompted messages never makes the watcher leave for another reason than the stop flag or a
   failing connection.  What arrives is forwarded: if the connections hold up and there is time,
   the client is given all of it.
   */
  method Run(server: Conn, polls: nat, clientTakes: bool) returns (sent: seq<byte>, leave: Leave)
    requires server.Valid()
    modifies server
    ensures server.Valid() && old(server.pos) <= server.pos
    ensures AsyncOnly(sent) && sent <= server.stream[old(server.pos)..server.pos]
    ensures leave == Stopped || leave == ServerGone ==> sent == server.stream[old(server.pos)..server.pos]
    ensures leave == Unexpected ==> !AsyncOnly(server.stream[old(server.pos)..])
    ensures server.steady && clientTakes && AsyncOnly(server.stream[old(server.pos)..]) && polls >= |server.stream| ==>
              sent == server.stream[old(server.pos)..]
  {
    sent := [];
    assert Splits([], [], []) && AllAsync([]);
    for i := 0 to polls
      invariant old(server.pos) <= server.pos && Boundary(server, old(server.pos), sent)
      invariant server.steady && clientTakes && AsyncOnly(server.stream[old(server.pos)..]) ==>
                  server.pos >= i || server.pos == |server.stream|
    {
      var why;
      sent, why := Tick(server, old(server.pos), sent, clientTakes);
      if why.Some? {
        return sent, why.value;
      }
    }
    leave := Stopped;
  }
}
