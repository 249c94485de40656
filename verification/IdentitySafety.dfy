/**
 Whose connection a statement is written to.  A connection is lent on the strength of the
 identity recorded on it, so a statement reaches the right account only if what is recorded is
 what the server authenticated, and if equal records mean equal accounts.
 */
module IdentitySafety {

  import opened Common
  import opened Lifecycle

  /** A connection recorded as `theirs` can be lent to a session that asks as `mine`: the same, or in one shared pool nobody's. */
  predicate Lends(setup: Setup, theirs: Identity, mine: Identity) {
    theirs == mine || (!setup.keyed && theirs == Nobody)
  }

  /** Anybody whose connections another session can borrow is the same account. */
  ghost predicate Faithful(setup: Setup) {
    forall s, t :: Admits(setup, s) && Admits(setup, t) && Lends(setup, setup.people[t].stated, setup.people[s].stated)
      ==> setup.people[t].truth == setup.people[s].truth
  }

  /** The record on the connection and the account it is authenticated as are those of one session. */
  ghost predicate TrueRecord(setup: Setup, k: Conn) {
    exists s :: Admits(setup, s) && k.recorded == setup.people[s].stated && k.proven == Some(setup.people[s].truth)
  }

  /** A ready connection has a true record, of the identity its pool is for if there is one for each. */
  ghost predicate Clean(setup: Setup, k: Conn) { k.ready ==> TrueRecord(setup, k) && (setup.keyed ==> k.recorded == k.pool) }

  /** What the connection a session names satisfies, by where the session's program stands. */
  ghost predicate Fit(setup: Setup, t: Session, k: Conn) {
    (setup.keyed ==> k.pool == t.who.stated) &&
    if t.pc.Naming? then k.ready && k.proven == Some(t.who.truth)
    else
      && Clean(setup, k)
      && (t.pc.Readying? ==> k.proven == Some(t.who.truth))
      && (UsesServer(t.pc) || t.pc.Catching? ==> k.ready && k.proven == Some(t.who.truth))
  }

  ghost predicate IdleClean(w: World) { forall c: nat :: IsIdle(w, c) ==> Clean(w.setup, w.conns[c]) }

  ghost predicate AllFit(w: World) {
    forall c: nat, s: nat :: HeldBy(w.conns, c, s) && s in w.sessions ==> Fit(w.setup, w.sessions[s], w.conns[c])
  }

  ghost predicate LogTrue(w: World) {
    forall e :: e in w.log ==> e.session in w.setup.people && e.proven == Some(w.setup.people[e.session].truth)
  }

  ghost predicate IdentityInv(w: World) { IdleClean(w) && AllFit(w) && LogTrue(w) }

  /** What a step may leave of the connection it touches. */
  ghost predicate Leaves(w: World, t: Session, change: Change) {
    match change
    case Same => Refers(t).Some? && Refers(t).value in w.conns ==> Fit(w.setup, t, w.conns[Refers(t).value])
    case Mark(_, k) => Fit(w.setup, t, k)
    case Acquired(_, k) => Fit(w.setup, t, k)
    case Released(_, left) => left.Some? ==> Clean(w.setup, left.value)
  }

  /** What one session may rely on before it takes a step. */
  ghost predicate Given(w: World, s: nat, t: Session, choice: Choice) {
    && IsKnown(w, s, t) && Ready(w, s, t)
    && (choice.Draws? && IsIdle(w, choice.c) ==> Clean(w.setup, w.conns[choice.c]))
    && (Refers(t).Some? ==> Fit(w.setup, t, w.conns[Refers(t).value]))
  }

  /** A ready connection whose record admits a session is authenticated as that session's account. */
  lemma BorrowedIsTrue(setup: Setup, s: nat, k: Conn)
    requires Faithful(setup) && Admits(setup, s) && TrueRecord(setup, k)
    requires Lends(setup, k.recorded, setup.people[s].stated)
    ensures k.proven == Some(setup.people[s].truth)
  {
    var t :| Admits(setup, t) && k.recorded == setup.people[t].stated && k.proven == Some(setup.people[t].truth);
    assert setup.people[t].truth == setup.people[s].truth;
  }

  lemma ShakeLeaves(w: World, s: nat, t: Session, choice: Choice)
    requires Faithful(w.setup) && Given(w, s, t, choice) && t.pc.Shaking? && CanOpen(w, t, choice)
    ensures var d := DoOpen(w, s, t, choice); Leaves(w, d.t, d.change)
  {
    var k := w.conns[t.pc.c];
    if k.ready && BelongsTo(k.recorded, t.who.stated) { BorrowedIsTrue(w.setup, s, k); }
  }

  lemma OpenLeaves(w: World, s: nat, t: Session, choice: Choice)
    requires Given(w, s, t, choice) && IsOpening(t.pc) && !t.pc.Shaking? && CanOpen(w, t, choice)
    ensures var d := DoOpen(w, s, t, choice); Leaves(w, d.t, d.change)
  {
  }

  lemma JudgeLeaves(w: World, s: nat, t: Session, choice: Choice)
    requires Faithful(w.setup) && Given(w, s, t, choice) && t.pc.Judging? && CanAcquire(w, t, choice)
    ensures var d := DoAcquire(w, s, t, choice); Leaves(w, d.t, d.change)
  {
    var k := w.conns[t.pc.c];
    if Usable(k, t.who) { BorrowedIsTrue(w.setup, s, k); }
  }

  lemma JudgeHomeLeaves(w: World, s: nat, t: Session, choice: Choice)
    requires Faithful(w.setup) && Given(w, s, t, choice) && t.pc.JudgingHome? && CanAcquire(w, t, choice)
    ensures var d := DoAcquire(w, s, t, choice); Leaves(w, d.t, d.change)
  {
    var k := w.conns[t.pc.c];
    if Usable(k, t.who) { BorrowedIsTrue(w.setup, s, k); }
  }

  lemma SeekLeaves(w: World, s: nat, t: Session, choice: Choice)
    requires Given(w, s, t, choice) && (t.pc.Seeking? || t.pc.GoingHome?) && CanAcquire(w, t, choice)
    ensures var d := DoAcquire(w, s, t, choice); Leaves(w, d.t, d.change)
  {
  }

  lemma RejectLeaves(w: World, s: nat, t: Session, choice: Choice)
    requires Given(w, s, t, choice) && (t.pc.Rejecting? || t.pc.RejectingHome? || t.pc.Catching? || t.pc.Leaving?)
    requires CanAcquire(w, t, choice)
    ensures var d := DoAcquire(w, s, t, choice); Leaves(w, d.t, d.change)
  {
  }

  /** Where a statement is run on the connection. */
  predicate IsRunning(pc: Pc) { pc.Waiting? || pc.Replaying? || pc.Writing? || pc.Relaying? }

  lemma RunLeaves(w: World, s: nat, t: Session, choice: Choice)
    requires Given(w, s, t, choice) && IsRunning(t.pc) && CanServe(w, t, choice)
    ensures var d := DoServe(w, t, choice); Leaves(w, d.t, d.change)
  {
  }

  lemma ReleaseLeaves(w: World, s: nat, t: Session, choice: Choice)
    requires Given(w, s, t, choice) && !IsOpening(t.pc) && !IsAcquiring(t.pc) && !IsRunning(t.pc) && CanServe(w, t, choice)
    ensures var d := DoServe(w, t, choice); Leaves(w, d.t, d.change)
  {
  }

  lemma ActLeaves(w: World, s: nat, t: Session, choice: Choice)
    requires Faithful(w.setup) && Given(w, s, t, choice) && CanAct(w, t, choice)
    ensures var d := DoAct(w, s, t, choice); Leaves(w, d.t, d.change)
  {
    if t.pc.Shaking? {
      ShakeLeaves(w, s, t, choice);
    } else if IsOpening(t.pc) {
      OpenLeaves(w, s, t, choice);
    } else if t.pc.Judging? {
      JudgeLeaves(w, s, t, choice);
    } else if t.pc.JudgingHome? {
      JudgeHomeLeaves(w, s, t, choice);
    } else if t.pc.Seeking? || t.pc.GoingHome? {
      SeekLeaves(w, s, t, choice);
    } else if IsAcquiring(t.pc) {
      RejectLeaves(w, s, t, choice);
    } else {
      if IsRunning(t.pc) { RunLeaves(w, s, t, choice); } else { ReleaseLeaves(w, s, t, choice); }
    }
  }

  lemma MoveFits(w: World, s: nat, t: Session, change: Change, log: seq<Wrote>)
    requires LinearInv(w) && IdleClean(w) && AllFit(w) && s in w.sessions
    requires Touches(w, s, Refers(w.sessions[s]), Refers(t), change) && Leaves(w, t, change)
    ensures var after := Moved(w, s, t, change, log); IdleClean(after) && AllFit(after)
  {
    var after := Moved(w, s, t, change, log);
    forall c: nat | IsIdle(after, c) ensures Clean(after.setup, after.conns[c]) {
      assert (change.Released? && change.c == c) || IsIdle(w, c);
    }
    forall c: nat, o: nat | HeldBy(after.conns, c, o) && o in after.sessions
      ensures Fit(after.setup, after.sessions[o], after.conns[c])
    {
      assert Some(c) != Refers(t) ==> HeldBy(w.conns, c, o);
    }
  }

  /** Only a session about to write writes. */
  lemma WritesWhere(w: World, s: nat, t: Session, choice: Choice)
    requires CanAct(w, t, choice) && DoAct(w, s, t, choice).wrote
    ensures t.pc.Writing?
  {
  }

  lemma LogGrows(w: World, after: World, e: Wrote)
    requires LogTrue(w) && after.setup == w.setup && after.log == w.log + [e]
    requires e.session in w.setup.people && e.proven == Some(w.setup.people[e.session].truth)
    ensures LogTrue(after)
  {
  }

  lemma WritesTrue(w: World, s: nat, choice: Choice)
    requires LinearInv(w) && AllFit(w) && LogTrue(w) && Enabled(w, Act(s, choice))
    ensures LogTrue(Apply(w, Act(s, choice)))
  {
    var t := w.sessions[s];
    if DoAct(w, s, t, choice).wrote {
      WritesWhere(w, s, t, choice);
      var c := t.server.value;
      assert HeldBy(w.conns, c, s);
      LogGrows(w, Apply(w, Act(s, choice)), Wrote(s, c, w.conns[c].proven));
    }
  }

  lemma IdentityStep(w: World, step: Step)
    requires Faithful(w.setup) && LinearInv(w) && IdentityInv(w) && Enabled(w, step)
    ensures IdentityInv(Apply(w, step))
  {
    match step
    case Act(s, choice) =>
      var t := w.sessions[s];
      if Refers(t).Some? { assert HeldBy(w.conns, Refers(t).value, s); }
      ActTouches(w, s, t, choice);
      ActLeaves(w, s, t, choice);
      var d := DoAct(w, s, t, choice);
      MoveFits(w, s, d.t, d.change, Apply(w, step).log);
      WritesTrue(w, s, choice);
    case _ =>
      forall c: nat | IsIdle(Apply(w, step), c) ensures IsIdle(w, c) {}
      forall c: nat, o: nat | HeldBy(Apply(w, step).conns, c, o) ensures HeldBy(w.conns, c, o) {}
  }

  lemma {:induction false} IdentityRun(w: World, steps: seq<Step>)
    requires Faithful(w.setup) && LinearInv(w) && IdentityInv(w) && Valid(w, steps)
    ensures IdentityInv(After(w, steps)) && After(w, steps).setup == w.setup
    decreases |steps|
  {
    if steps != [] {
      IdentityStep(w, steps[0]);
      LinearStep(w, steps[0]);
      IdentityRun(Apply(w, steps[0]), steps[1..]);
    }
  }

  // ---------------------------------------------------------------- exactness

  predicate At(w: World, s: nat, t: Session, c: nat, k: Conn) {
    s in w.sessions && w.sessions[s] == t && c in w.conns && w.conns[c] == k && c < w.next
  }

  /** Nothing but session `s` and connection `c` changed. */
  ghost predicate Apart(w: World, after: World, s: nat, c: nat) {
    && after.setup == w.setup && after.mode == w.mode && after.next == (if c == w.next then c + 1 else w.next)
    && (forall o :: o in w.sessions && o != s ==> o in after.sessions && after.sessions[o] == w.sessions[o])
    && (forall o :: o != s && o in after.sessions ==> o in w.sessions)
    && (forall d :: d in w.conns && d != c ==> d in after.conns && after.conns[d] == w.conns[d])
    && (forall d :: d != c && d in after.conns ==> d in w.conns)
  }

  function Newcomer(w: World, who: Profile, pc: Pc): Session { Session(pc, who, None, TxState.Idle, false, w.mode) }

  /** A session that has opened on a connection of its own, which Pontus takes back if it can authenticate another. */
  function Opened(w: World, who: Profile, c: nat): Session {
    Newcomer(w, who, Waiting).(server := if w.setup.creds then None else Some(c))
  }

  function OwnConn(w: World, who: Profile, s: nat): Conn {
    Conn(who.stated, true, false, false, 0, who.stated, Some(who.truth), if w.setup.creds then None else Some(s))
  }

  /** A connection just dialled for session `s`. */
  function Dialled(w: World, s: nat): Conn
    requires s in w.setup.people
  {
    Conn(w.setup.people[s].stated, false, false, false, 0, Nobody, None, Some(s))
  }

  lemma CanDial(reached: World -> bool, w: World, s: nat, c: nat) returns (after: World)
    requires Closed(reached) && reached(w) && s !in w.sessions && Admits(w.setup, s) && c == w.next
    ensures reached(after) && Apart(w, after, s, c)
    ensures At(after, s, Newcomer(w, w.setup.people[s], Shaking(0, c)), c, Dialled(w, s))
  {
    StepOn(reached, w, Join(s));
    var joined := Apply(w, Join(s));
    StepOn(reached, joined, Act(s, Dials(c)));
    after := Apply(joined, Act(s, Dials(c)));
  }

  lemma CanShake(reached: World -> bool, w: World, s: nat, who: Profile, c: nat, k: Conn) returns (after: World)
    requires Closed(reached) && reached(w) && At(w, s, Newcomer(w, who, Shaking(0, c)), c, k) && WellKnown(w.setup, who) && !k.ready
    ensures reached(after) && Apart(w, after, s, c)
    ensures At(after, s, Newcomer(w, who, Readying(c)), c, k.(proven := Some(who.truth)))
  {
    StepOn(reached, w, Act(s, Works));
    after := Apply(w, Act(s, Works));
  }

  lemma CanName(reached: World -> bool, w: World, s: nat, who: Profile, c: nat, k: Conn) returns (after: World)
    requires Closed(reached) && reached(w) && At(w, s, Newcomer(w, who, Readying(c)), c, k)
    ensures reached(after) && Apart(w, after, s, c)
    ensures At(after, s, Newcomer(w, who, Entering).(server := Some(c)), c, k.(ready := true, recorded := who.stated))
  {
    StepOn(reached, w, Act(s, Works));
    var ready := Apply(w, Act(s, Works));
    StepOn(reached, ready, Act(s, Works));
    after := Apply(ready, Act(s, Works));
  }

  lemma CanEnter(reached: World -> bool, w: World, s: nat, who: Profile, c: nat) returns (after: World)
    requires Closed(reached) && reached(w) && w.mode.PoolTransaction?
    requires At(w, s, Newcomer(w, who, Entering).(server := Some(c)), c,
                Conn(who.stated, true, false, false, 0, who.stated, Some(who.truth), Some(s)))
    ensures reached(after) && Apart(w, after, s, c)
    ensures At(after, s, Opened(w, who, c), c, OwnConn(w, who, s))
  {
    StepOn(reached, w, Act(s, Releases(true, 0)));
    after := Apply(w, Act(s, Releases(true, 0)));
  }

  /** Anybody can open a session on a new connection. */
  lemma CanOpenFresh(reached: World -> bool, w: World, s: nat, c: nat) returns (after: World)
    requires Closed(reached) && reached(w) && s !in w.sessions && Admits(w.setup, s) && c == w.next && w.mode.PoolTransaction?
    ensures reached(after) && Apart(w, after, s, c)
    ensures At(after, s, Opened(w, w.setup.people[s], c), c, OwnConn(w, w.setup.people[s], s))
  {
    var who := w.setup.people[s];
    var k := Dialled(w, s);
    var dialled := CanDial(reached, w, s, c);
    var shaken := CanShake(reached, dialled, s, who, c, k);
    var named := CanName(reached, shaken, s, who, c, k.(proven := Some(who.truth)));
    after := CanEnter(reached, named, s, who, c);
  }

  /** A session with a connection can write its statement to it. */
  lemma CanSend(reached: World -> bool, w: World, s: nat, t: Session, c: nat, k: Conn) returns (after: World)
    requires Closed(reached) && reached(w) && At(w, s, t, c, k) && t.pc == Replaying && t.server == Some(c)
    ensures reached(after) && Apart(w, after, s, c) && At(after, s, t.(pc := Relaying), c, k.(soiled := true))
    ensures after.log == w.log + [Wrote(s, c, k.proven)]
  {
    StepOn(reached, w, Act(s, Works));
    var replayed := Apply(w, Act(s, Works));
    StepOn(reached, replayed, Act(s, Works));
    after := Apply(replayed, Act(s, Works));
  }

  /** The session holds nothing, and the connection it opened on is anybody's to draw, as that session's. */
  predicate Free(w: World, s: nat, who: Profile, c: nat) {
    && s in w.sessions && w.sessions[s].who == who && w.sessions[s].pc == Waiting && w.sessions[s].server == None
    && IsIdle(w, c) && w.conns[c].pool == w.conns[c].recorded == who.stated
    && w.conns[c].ready && w.conns[c].proven == Some(who.truth)
  }

  lemma CanRun(reached: World -> bool, w: World, s: nat, t: Session, c: nat, k: Conn) returns (after: World)
    requires Closed(reached) && reached(w) && At(w, s, t, c, k) && t.pc == Waiting && t.server == Some(c) && t.rcMode == w.mode
    ensures reached(after) && Apart(w, after, s, c) && At(after, s, t.(pc := Relaying), c, k.(soiled := true))
  {
    StepOn(reached, w, Act(s, Executes));
    var executes := Apply(w, Act(s, Executes));
    after := CanSend(reached, executes, s, t.(pc := Replaying), c, k);
  }

  /** A reply that leaves the session idle, and `rest` further ones behind it. */
  lemma CanReply(reached: World -> bool, w: World, s: nat, t: Session, c: nat, k: Conn, rest: nat) returns (after: World)
    requires Closed(reached) && reached(w) && At(w, s, t, c, k) && t.pc == Relaying && t.server == Some(c)
    ensures reached(after) && Apart(w, after, s, c)
    ensures At(after, s, t.(pc := Settling(false), tx := TxState.Idle, pinned := false), c, k.(unread := rest))
  {
    var reply := Replies(TxState.Idle, false, false, false, false, rest);
    StepOn(reached, w, Act(s, reply));
    after := Apply(w, Act(s, reply));
  }

  /** The connection goes back once the statement is answered. */
  lemma CanSettle(reached: World -> bool, w: World, s: nat, t: Session, c: nat, k: Conn) returns (after: World)
    requires Closed(reached) && reached(w) && At(w, s, t, c, k) && w.mode.PoolTransaction? && k.ready && !k.broken
    requires t.pc == Settling(false) && t.server == Some(c) && !Stays(t)
    ensures reached(after) && Apart(w, after, s, c)
    ensures At(after, s, t.(pc := AfterChain, server := None), c, k.(soiled := k.soiled && !w.setup.creds, heldBy := None))
  {
    StepOn(reached, w, Act(s, Releases(true, k.unread)));
    after := Apply(w, Act(s, Releases(true, k.unread)));
  }

  lemma CanResume(reached: World -> bool, w: World, s: nat, t: Session, c: nat, k: Conn) returns (after: World)
    requires Closed(reached) && reached(w) && At(w, s, t, c, k) && t.pc == AfterChain && t.server == None
    ensures reached(after) && Apart(w, after, s, c) && At(after, s, t.(pc := Waiting), c, k)
  {
    StepOn(reached, w, Act(s, Releases(true, 0)));
    after := Apply(w, Act(s, Releases(true, 0)));
  }

  /** A session with a connection can run a statement and give the connection back, `rest` replies unread. */
  lemma CanFinish(reached: World -> bool, w: World, s: nat, t: Session, c: nat, k: Conn, rest: nat) returns (after: World)
    requires Closed(reached) && reached(w) && At(w, s, t, c, k) && w.mode.PoolTransaction? && k.ready && !k.broken
    requires t.pc == Relaying && t.server == Some(c) && k.soiled
    ensures reached(after) && Apart(w, after, s, c)
    ensures At(after, s, t.(pc := Waiting, server := None, tx := TxState.Idle, pinned := false), c,
               k.(soiled := !w.setup.creds, unread := rest, heldBy := None))
  {
    var replied := CanReply(reached, w, s, t, c, k, rest);
    var settled := CanSettle(reached, replied, s, replied.sessions[s], c, k.(unread := rest));
    after := CanResume(reached, settled, s, settled.sessions[s], c, settled.conns[c]);
  }

  /** A session that has opened can come to hold no connection: at once, or after its first statement. */
  lemma CanBeFree(reached: World -> bool, w: World, s: nat, who: Profile, c: nat) returns (after: World)
    requires Closed(reached) && reached(w) && At(w, s, Opened(w, who, c), c, OwnConn(w, who, s)) && w.mode.PoolTransaction?
    ensures reached(after) && Apart(w, after, s, c) && Free(after, s, who, c)
  {
    if w.setup.creds {
      after := w;
    } else {
      var running := CanRun(reached, w, s, Opened(w, who, c), c, OwnConn(w, who, s));
      after := CanFinish(reached, running, s, running.sessions[s], c, running.conns[c], 0);
    }
  }

  /** A free session can be handed any idle connection its identity lets it have. */
  lemma CanBorrow(reached: World -> bool, w: World, s: nat, c: nat) returns (after: World)
    requires Closed(reached) && reached(w) && s in w.sessions && w.sessions[s].pc == Waiting && w.sessions[s].server == None
    requires c < w.next && CanLend(w, c, w.sessions[s].who.stated) && Usable(w.conns[c], w.sessions[s].who)
    ensures reached(after) && Apart(w, after, s, c)
    ensures At(after, s, w.sessions[s].(pc := Replaying, server := Some(c), rcMode := w.mode), c, w.conns[c].(heldBy := Some(s)))
  {
    var seeking := CanSeek(reached, w, s, c);
    var drawn := CanDraw(reached, seeking, s, c);
    after := CanTake(reached, drawn, s, c);
  }

  lemma CanDraw(reached: World -> bool, w: World, s: nat, c: nat) returns (after: World)
    requires Closed(reached) && reached(w) && s in w.sessions && w.sessions[s].pc == Seeking(false)
    requires c < w.next && CanLend(w, c, w.sessions[s].who.stated)
    ensures reached(after) && Apart(w, after, s, c)
    ensures At(after, s, w.sessions[s].(pc := Judging(false, c)), c, w.conns[c].(heldBy := Some(s)))
  {
    StepOn(reached, w, Act(s, Draws(c)));
    after := Apply(w, Act(s, Draws(c)));
  }

  lemma CanSeek(reached: World -> bool, w: World, s: nat, c: nat) returns (after: World)
    requires Closed(reached) && reached(w) && s in w.sessions && w.sessions[s].pc == Waiting && w.sessions[s].server == None
    requires c in w.conns && c < w.next
    ensures reached(after) && Apart(w, after, s, c)
    ensures At(after, s, w.sessions[s].(pc := Seeking(false), rcMode := w.mode), c, w.conns[c])
  {
    StepOn(reached, w, Act(s, Executes));
    after := Apply(w, Act(s, Executes));
  }

  lemma CanTake(reached: World -> bool, w: World, s: nat, c: nat) returns (after: World)
    requires Closed(reached) && reached(w) && s in w.sessions && w.sessions[s].pc == Judging(false, c) && c in w.conns && c < w.next
    requires Usable(w.conns[c], w.sessions[s].who)
    ensures reached(after) && Apart(w, after, s, c)
    ensures At(after, s, w.sessions[s].(pc := Replaying, server := Some(c)), c, w.conns[c])
  {
    StepOn(reached, w, Act(s, Works));
    after := Apply(w, Act(s, Works));
  }

  /** Two sessions come and go free, and leave their connections in the pool. */
  lemma CanBothBeFree(reached: World -> bool, w: World, s: nat, t: nat) returns (after: World)
    requires Closed(reached) && reached(w) && w.mode.PoolTransaction? && w.conns == map[] && w.next == 0 && w.sessions == map[]
    requires Admits(w.setup, s) && Admits(w.setup, t) && s != t
    ensures reached(after) && after.setup == w.setup && after.next == 2
    ensures Free(after, t, w.setup.people[t], 0) && Free(after, s, w.setup.people[s], 1)
  {
    var there := CanOpenFresh(reached, w, t, 0);
    var left := CanBeFree(reached, there, t, w.setup.people[t], 0);
    var joined := CanOpenFresh(reached, left, s, 1);
    after := CanBeFree(reached, joined, s, w.setup.people[s], 1);
  }

  /** One of them is lent the other's connection and writes to it. */
  lemma CanMisdirect(reached: World -> bool, w: World, s: nat, t: nat) returns (after: World)
    requires Closed(reached) && reached(w) && w.mode.PoolTransaction? && w.conns == map[] && w.next == 0 && w.sessions == map[]
    requires Admits(w.setup, s) && Admits(w.setup, t) && Lends(w.setup, w.setup.people[t].stated, w.setup.people[s].stated)
    requires w.setup.people[t].truth != w.setup.people[s].truth
    ensures reached(after) && after.setup == w.setup && !LogTrue(after)
  {
    var free := CanBothBeFree(reached, w, s, t);
    var borrowed := CanBorrow(reached, free, s, 0);
    after := CanSend(reached, borrowed, s, borrowed.sessions[s], 0, borrowed.conns[0]);
    assert after.log[|after.log| - 1] in after.log;
  }

  lemma CanGoWrong(setup: Setup, mode: PoolingMode, s: nat, t: nat) returns (after: World)
    requires Admits(setup, s) && Admits(setup, t) && Lends(setup, setup.people[t].stated, setup.people[s].stated)
    requires setup.people[t].truth != setup.people[s].truth
    ensures Reaches(Begin(setup, mode), after) && after.setup == setup && !LogTrue(after)
  {
    var start := Begin(setup, mode);
    var reached := w => Reaches(start, w);
    ReachesIsClosed(start);
    assert Valid(start, []) && After(start, []) == start;
    StepOn(reached, start, Reload(PoolTransaction));
    after := CanMisdirect(reached, Apply(start, Reload(PoolTransaction)), s, t);
  }

  /** Every statement of every run reaches its own account, exactly when equal records mean equal accounts. */
  lemma SafeExactlyWhenFaithful(setup: Setup, mode: PoolingMode)
    ensures Faithful(setup) <==> forall w :: Reaches(Begin(setup, mode), w) ==> LogTrue(w)
  {
    var start := Begin(setup, mode);
    if Faithful(setup) {
      forall w | Reaches(start, w) ensures LogTrue(w) {
        var steps :| Valid(start, steps) && After(start, steps) == w;
        IdentityRun(start, steps);
      }
    } else {
      var s, t :| Admits(setup, s) && Admits(setup, t) && Lends(setup, setup.people[t].stated, setup.people[s].stated)
        && setup.people[t].truth != setup.people[s].truth;
      var w := CanGoWrong(setup, mode, s, t);
    }
  }

  /**
   PostgreSQL sessions name the account they authenticate as, and it is never empty, so every
   statement of every run reaches its own account and what is recorded on an idle connection is true.
   */
  lemma NamedSessionsAreSafe(setup: Setup, mode: PoolingMode, w: World)
    requires forall s :: Admits(setup, s) ==> setup.people[s].stated == setup.people[s].truth != Nobody
    requires Reaches(Begin(setup, mode), w)
    ensures LogTrue(w)
    ensures forall c: nat :: IsIdle(w, c) && w.conns[c].ready ==> w.conns[c].proven == Some(w.conns[c].recorded)
  {
    var start := Begin(setup, mode);
    var steps :| Valid(start, steps) && After(start, steps) == w;
    IdentityRun(start, steps);
  }

  /** Two sessions whose identity nobody fills in. */
  function Unnamed(one: Identity, other: Identity): Setup {
    Setup(map[0 := Profile(Nobody, one, false), 1 := Profile(Nobody, other, false)], false, false, true)
  }

  /** A MySQL session's identity is never filled in, so two accounts are enough for a statement to reach the wrong one. */
  lemma UnnamedSessionsMix(mode: PoolingMode, one: Identity, other: Identity)
    requires one != other
    ensures exists w :: Reaches(Begin(Unnamed(one, other), mode), w) && !LogTrue(w)
  {
    assert Admits(Unnamed(one, other), 0) && Admits(Unnamed(one, other), 1);
    var w := CanGoWrong(Unnamed(one, other), mode, 0, 1);
  }
}
