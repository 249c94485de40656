/**
 Reading one's own writes through a replica.  After a statement that may write, the session asks
 its server for the current WAL position and remembers the answer; a read that is sent to a
 freshly acquired replica first waits until the replica has replayed up to what is remembered.
 */
module ReadYourWrites {

  import opened Common

  /** A WAL position; 0/0 is not one. */
  type Lsn = n: nat | n > 0 witness 1

  datatype Role = Primary | Replica

  /** A server connection, and the WAL position its server has applied. */
  datatype Server = Server(role: Role, applied: nat)

  /** GetCurrentLSN: a position, an empty answer with no error, or an error. */
  datatype Answer = Position(lsn: Lsn) | Empty | Failed

  /** LastLSN after a history of answers: an error leaves it alone, and an empty answer erases it. */
  function Remembered(answers: seq<Answer>): Option<Lsn> {
    if answers == [] then None
    else match answers[|answers| - 1]
      case Position(lsn) => Some(lsn)
      case Empty => None
      case Failed => Remembered(answers[..|answers| - 1])
  }

  /** The primary's positions never go back. */
  ghost predicate NonDecreasing(answers: seq<Answer>) {
    forall i, j :: 0 <= i < j < |answers| && answers[i].Position? && answers[j].Position? ==> answers[i].lsn <= answers[j].lsn
  }

  /** A server that has applied `applied` has every write whose position was recorded. */
  ghost predicate SeesAll(answers: seq<Answer>, applied: nat) {
    forall i :: 0 <= i < |answers| && answers[i].Position? ==> answers[i].lsn <= applied
  }

  ghost predicate AllFailed(answers: seq<Answer>, after: int) {
    forall k :: 0 <= k < |answers| && after < k ==> answers[k].Failed?
  }

  /** A position was recorded, and the last answer that was not an error was empty. */
  ghost predicate Erased(answers: seq<Answer>) {
    exists i, j :: 0 <= i < j < |answers| && answers[i].Position? && answers[j].Empty? && AllFailed(answers, j)
  }

  /** What is remembered is the last answer that was not an error. */
  lemma {:induction false} RememberedIsLast(answers: seq<Answer>)
    ensures match Remembered(answers)
      case Some(lsn) => exists j :: 0 <= j < |answers| && answers[j] == Position(lsn) && AllFailed(answers, j)
      case None => AllFailed(answers, -1) || exists j :: 0 <= j < |answers| && answers[j].Empty? && AllFailed(answers, j)
  {
    if answers != [] && answers[|answers| - 1].Failed? {
      var front := answers[..|answers| - 1];
      RememberedIsLast(front);
      match Remembered(front)
      case Some(lsn) =>
        var j :| 0 <= j < |front| && front[j] == Position(lsn) && AllFailed(front, j);
        assert answers[j] == Position(lsn);
      case None =>
        if !AllFailed(front, -1) {
          var j :| 0 <= j < |front| && front[j].Empty? && AllFailed(front, j);
          assert answers[j].Empty?;
        }
    } else if answers != [] {
      assert answers[|answers| - 1].Position? || answers[|answers| - 1].Empty?;
    }
  }

  /** The wait lets a replica through. */
  predicate CaughtUp(remembered: Option<Lsn>, applied: nat) { remembered.Some? ==> remembered.value <= applied }

  /**
   Whatever replica passes the wait has every recorded write, exactly when no recorded position
   was followed by an empty answer and then by errors alone.
   */
  lemma ReadsOwnWritesExactly(answers: seq<Answer>)
    requires NonDecreasing(answers)
    ensures (forall applied: nat :: CaughtUp(Remembered(answers), applied) ==> SeesAll(answers, applied)) <==> !Erased(answers)
  {
    RememberedIsLast(answers);
    match Remembered(answers)
    case Some(lsn) =>
      var j :| 0 <= j < |answers| && answers[j] == Position(lsn) && AllFailed(answers, j);
      forall applied: nat | lsn <= applied ensures SeesAll(answers, applied) {}
      assert !Erased(answers);
    case None =>
      assert CaughtUp(None, 0);
      assert SeesAll(answers, 0) ==> forall i :: 0 <= i < |answers| ==> !answers[i].Position?;
  }

  /** A statement in a failed transaction gets an empty answer, and the next read may miss a committed write. */
  lemma FailedTransactionForgets(lsn: Lsn)
    ensures var answers := [Position(lsn), Empty];
      NonDecreasing(answers) && CaughtUp(Remembered(answers), 0) && !SeesAll(answers, 0)
  {
    assert [Position(lsn), Empty][0].Position?;
  }

  /** One poll: how far the replica has replayed, or an error. */
  datatype Poll = Replayed(applied: nat) | PollFailed

  ghost predicate Reached(polls: seq<Poll>, i: nat, target: Lsn) { i < |polls| && polls[i].Replayed? && polls[i].applied >= target }

  /** The replica once it has replayed `target`, unless a poll fails or the time for `polls` is over first. */
  function Waited(server: Server, target: Lsn, polls: seq<Poll>): Option<Server>
    decreases |polls|
  {
    if polls == [] || polls[0].PollFailed? then None
    else if polls[0].applied >= target then Some(server.(applied := polls[0].applied))
    else Waited(server, target, polls[1..])
  }

  method WaitLsn(server: Server, target: Lsn, polls: seq<Poll>) returns (after: Option<Server>)
    ensures after == Waited(server, target, polls)
    ensures after.Some? ==> after.value.role == server.role && CaughtUp(Some(target), after.value.applied)
    ensures after.Some? <==> exists i: nat :: Reached(polls, i, target) && forall j :: 0 <= j < i ==> polls[j].Replayed?
  {
    var i := 0;
    while i < |polls|
      invariant i <= |polls| && Waited(server, target, polls[i..]) == Waited(server, target, polls)
      invariant forall j :: 0 <= j < i ==> polls[j].Replayed? && polls[j].applied < target
    {
      if polls[i].PollFailed? { return None; }
      if polls[i].applied >= target {
        assert Reached(polls, i, target);
        return Some(server.(applied := polls[i].applied));
      }
      assert polls[i..][1..] == polls[i + 1..];
      i := i + 1;
    }
    after := None;
  }

  /**
   What a read finds: the server chosen for it, how a wait on it goes, the server chosen for a
   write, and the session's home, if each can be had.
   */
  datatype Finds = Finds(found: Option<Server>, polls: seq<Poll>, balanced: Option<Server>, home: Option<Server>)

  /** A primary has applied every position it gave out; a write is balanced to a primary; the home's role is `home`. */
  ghost predicate Possible(answers: seq<Answer>, f: Finds, home: Role) {
    && Honest(answers, f.found) && Honest(answers, f.balanced) && Honest(answers, f.home)
    && (f.balanced.Some? ==> f.balanced.value.role.Primary?)
    && (f.home.Some? ==> f.home.value.role == home)
  }

  ghost predicate Honest(answers: seq<Answer>, server: Option<Server>) {
    server.Some? && server.value.role.Primary? ==> SeesAll(answers, server.value.applied)
  }

  /** The server a read is sent to: a replica that does not catch up is exchanged, without a wait, for another. */
  function Routed(remembered: Option<Lsn>, f: Finds): Option<Server> {
    var first := if f.found.Some? then f.found else f.home;
    if first.Some? && first.value.role.Replica? && remembered.Some? then
      var after := Waited(first.value, remembered.value, f.polls);
      if after.Some? then after else if f.balanced.Some? then f.balanced else f.home
    else first
  }

  /** Routing sees every recorded write when nothing was erased and the home is a primary. */
  lemma RoutedSees(answers: seq<Answer>, f: Finds)
    requires NonDecreasing(answers) && !Erased(answers) && Possible(answers, f, Primary)
    ensures var server := Routed(Remembered(answers), f); server.Some? ==> SeesAll(answers, server.value.applied)
  {
    ReadsOwnWritesExactly(answers);
    var first := if f.found.Some? then f.found else f.home;
    if first.Some? && Remembered(answers).Some? { WaitedCaughtUp(first.value, Remembered(answers).value, f.polls); }
  }

  lemma {:induction false} WaitedCaughtUp(server: Server, target: Lsn, polls: seq<Poll>)
    ensures var after := Waited(server, target, polls); after.Some? ==> after.value.applied >= target
    decreases |polls|
  {
    if polls != [] { WaitedCaughtUp(server, target, polls[1..]); }
  }

  /** Nothing replayed and no time to wait. */
  const Lagging := Finds(Some(Server(Replica, 0)), [], None, None)

  /**
   With something recorded: every read, whatever it finds, has every recorded write, exactly when
   no record was erased and the session's home is a primary.  A session opened while there was no
   primary has a replica for its home, and the exchange for it is not waited for.
   */
  lemma ReadSeesExactly(answers: seq<Answer>, home: Role)
    requires NonDecreasing(answers) && exists i :: 0 <= i < |answers| && answers[i].Position?
    ensures (forall f :: Possible(answers, f, home) ==>
               var server := Routed(Remembered(answers), f); server.Some? ==> SeesAll(answers, server.value.applied))
            <==> (!Erased(answers) && home.Primary?)
  {
    ReadsOwnWritesExactly(answers);
    if !Erased(answers) && home.Primary? {
      forall f | Possible(answers, f, home)
        ensures var server := Routed(Remembered(answers), f); server.Some? ==> SeesAll(answers, server.value.applied)
      {
        RoutedSees(answers, f);
      }
    } else {
      RememberedIsLast(answers);
      var f := if home.Replica? then Lagging.(home := Some(Server(Replica, 0))) else Lagging;
      assert Possible(answers, f, home);
      assert !SeesAll(answers, 0);
    }
  }

  /** The part of a session this is about. */
  class Reader {
    var lastLsn: Option<Lsn>
    /** Every answer the session has had. */
    ghost var answers: seq<Answer>

    ghost predicate Valid()
      reads this
    {
      NonDecreasing(answers) && lastLsn == Remembered(answers)
    }

    constructor ()
      ensures Valid() && answers == []
    {
      lastLsn, answers := None, [];
    }

    /** After a statement: one that may have written, and succeeded, is followed by asking for the position. */
    method Capture(readOnly: bool, failed: bool, answer: Answer)
      requires Valid() && NonDecreasing(answers + [answer])
      modifies this
      ensures Valid() && answers == if readOnly || failed then old(answers) else old(answers) + [answer]
    {
      if !readOnly && !failed {
        if answer.Position? { lastLsn := Some(answer.lsn); } else if answer.Empty? { lastLsn := None; }
        answers := answers + [answer];
        assert answers[..|answers| - 1] == old(answers);
      }
    }

    /**
     The connection a read is sent to, on what acquireForSession finds: at first for a read, and
     after a failed wait for a write; the home stands in for either.
     */
    method AcquireForRead(f: Finds, ghost home: Role) returns (server: Option<Server>)
      requires Valid() && Possible(answers, f, home)
      ensures server == Routed(lastLsn, f)
      ensures !Erased(answers) && home.Primary? && server.Some? ==> SeesAll(answers, server.value.applied)
    {
      server := if f.found.Some? then f.found else f.home;
      if server.Some? && lastLsn.Some? && server.value.role.Replica? {
        var after := WaitLsn(server.value, lastLsn.value, f.polls);
        server := if after.Some? then after else if f.balanced.Some? then f.balanced else f.home;
      }
      if !Erased(answers) && home.Primary? { RoutedSees(answers, f); }
    }
  }
}
