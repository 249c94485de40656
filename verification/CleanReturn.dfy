/**
 What a connection carries when it goes back to the pool.  When Pontus authenticates clients
 itself, a connection is marked dirty and reset before the next session may have it: nothing of
 a transaction or a setting should be left, and no reply unread.  One release does not mark it,
 and the reset does not know of replies that were waiting before it.
 */
module CleanReturn {

  import opened Common
  import opened Lifecycle
  import opened IdentitySafety

  /** Something a session has run is left on the connection, or a reply to it. */
  predicate Carries(k: Conn) { k.soiled || k.unread > 0 }

  /** Nothing is left on a connection that anybody may be handed. */
  ghost predicate Pristine(w: World) { forall c: nat :: IsIdle(w, c) ==> !Carries(w.conns[c]) }

  /** A connection just drawn is clean until a statement is written to it. */
  ghost predicate CleanInHand(w: World) {
    forall c: nat, s: nat :: HeldBy(w.conns, c, s) && s in w.sessions && !UsesServer(w.sessions[s].pc) ==> !Carries(w.conns[c])
  }

  /** The session is about to release its server connection. */
  predicate LetsGo(w: World, t: Session) {
    && t.server.Some?
    && match t.pc
       case Entering => ShouldRelease(w.mode, t.tx, false)
       case Settling(_) => ShouldRelease(w.mode, t.tx, t.pinned)
       case AfterChain => ShouldRelease(t.rcMode, t.tx, t.pinned)
       case Failing => true
       case Departing => true
       case _ => false
  }

  /**
   What a release leaves in the pool.  A session that ends over a failed request releases a live
   connection as it is; any other release resets it first, which leaves unread what it does not
   happen to read.
   */
  predicate Spills(w: World, step: Step) {
    && step.Act? && step.s in w.sessions && step.choice.Releases?
    && var t := w.sessions[step.s];
       LetsGo(w, t) && HasServer(w, t) && SpillsOn(w.conns[t.server.value], t.pc.Failing?, step.choice)
  }

  predicate SpillsOn(k: Conn, failing: bool, choice: Choice)
    requires choice.Releases?
  {
    k.ready && !k.broken && if failing then Carries(k) else choice.resets && k.unread > 0 && choice.left > 0
  }

  predicate LeavesClean(w: World, t: Session, change: Change) {
    match change
    case Same => !UsesServer(t.pc) && Refers(t).Some? && Refers(t).value in w.conns ==> !Carries(w.conns[Refers(t).value])
    case Mark(_, k) => !UsesServer(t.pc) ==> !Carries(k)
    case Acquired(_, k) => !Carries(k)
    case Released(_, left) => left.Some? ==> !Carries(left.value)
  }

  /** What one session may rely on before it takes a step. */
  predicate Given(w: World, s: nat, t: Session, choice: Choice) {
    && w.setup.creds && Ready(w, s, t)
    && (choice.Draws? && IsIdle(w, choice.c) ==> !Carries(w.conns[choice.c]))
    && (!UsesServer(t.pc) && Refers(t).Some? ==> !Carries(w.conns[Refers(t).value]))
  }

  lemma OpenClean(w: World, s: nat, t: Session, choice: Choice)
    requires Given(w, s, t, choice) && IsOpening(t.pc) && CanOpen(w, t, choice)
    ensures var d := DoOpen(w, s, t, choice); LeavesClean(w, d.t, d.change)
  {
  }

  lemma AcquireClean(w: World, s: nat, t: Session, choice: Choice)
    requires Given(w, s, t, choice) && IsAcquiring(t.pc) && CanAcquire(w, t, choice)
    ensures var d := DoAcquire(w, s, t, choice); LeavesClean(w, d.t, d.change)
  {
  }

  lemma ServeClean(w: World, s: nat, t: Session, choice: Choice)
    requires Given(w, s, t, choice) && !IsOpening(t.pc) && !IsAcquiring(t.pc) && CanServe(w, t, choice)
    requires choice.Releases? && LetsGo(w, t) ==> !SpillsOn(w.conns[t.server.value], t.pc.Failing?, choice)
    ensures var d := DoServe(w, t, choice); LeavesClean(w, d.t, d.change)
  {
  }

  lemma MoveClean(w: World, s: nat, t: Session, change: Change, log: seq<Wrote>)
    requires LinearInv(w) && Pristine(w) && CleanInHand(w) && s in w.sessions
    requires Touches(w, s, Refers(w.sessions[s]), Refers(t), change) && LeavesClean(w, t, change)
    ensures var after := Moved(w, s, t, change, log); Pristine(after) && CleanInHand(after)
  {
    var after := Moved(w, s, t, change, log);
    forall c: nat | IsIdle(after, c) ensures !Carries(after.conns[c]) {
      assert (change.Released? && change.c == c) || IsIdle(w, c);
    }
    forall c: nat, o: nat | HeldBy(after.conns, c, o) && o in after.sessions && !UsesServer(after.sessions[o].pc)
      ensures !Carries(after.conns[c])
    {
      assert Some(c) != Refers(t) ==> HeldBy(w.conns, c, o);
    }
  }

  /** Every step but a spill leaves the pool clean. */
  lemma CleanStep(w: World, step: Step)
    requires w.setup.creds && LinearInv(w) && Pristine(w) && CleanInHand(w) && Enabled(w, step) && !Spills(w, step)
    ensures Pristine(Apply(w, step)) && CleanInHand(Apply(w, step))
  {
    match step
    case Act(s, choice) =>
      var t := w.sessions[s];
      if Refers(t).Some? { assert HeldBy(w.conns, Refers(t).value, s); }
      ActTouches(w, s, t, choice);
      if IsOpening(t.pc) {
        OpenClean(w, s, t, choice);
      } else if IsAcquiring(t.pc) {
        AcquireClean(w, s, t, choice);
      } else {
        ServeClean(w, s, t, choice);
      }
      var d := DoAct(w, s, t, choice);
      MoveClean(w, s, d.t, d.change, Apply(w, step).log);
    case _ =>
      forall c: nat | IsIdle(Apply(w, step), c) ensures IsIdle(w, c) {}
      forall c: nat, o: nat | HeldBy(Apply(w, step).conns, c, o) ensures HeldBy(w.conns, c, o) {}
  }

  /** A spill does not. */
  lemma SpillSoils(w: World, step: Step)
    requires w.setup.creds && Enabled(w, step) && Spills(w, step)
    ensures !Pristine(Apply(w, step))
  {
    var c := w.sessions[step.s].server.value;
    assert IsIdle(Apply(w, step), c) && Carries(Apply(w, step).conns[c]);
  }

  /** A release that might leave something: the connection is live, and carries what the release need not take away. */
  predicate Risky(w: World, s: nat) {
    && s in w.sessions && LetsGo(w, w.sessions[s]) && HasServer(w, w.sessions[s])
    && var k := w.conns[w.sessions[s].server.value];
       k.ready && !k.broken && if w.sessions[s].pc.Failing? then Carries(k) else k.unread > 0
  }

  /** Before a release: it leaves the pool clean however its reset goes, exactly when it is not risky. */
  lemma SafeReleaseExactly(w: World, s: nat)
    requires w.setup.creds && LinearInv(w) && Pristine(w) && CleanInHand(w) && Enabled(w, Act(s, Releases(true, 0)))
    ensures (forall resets, left :: Pristine(AfterRelease(w, s, resets, left))) <==> !Risky(w, s)
  {
    assert forall resets, left :: Enabled(w, Act(s, Releases(resets, left)));
    if Risky(w, s) {
      var left := w.conns[w.sessions[s].server.value].unread;
      SpillSoils(w, Act(s, Releases(true, left)));
      assert !Pristine(AfterRelease(w, s, true, left));
    } else {
      forall resets, left ensures Pristine(AfterRelease(w, s, resets, left)) { CleanStep(w, Act(s, Releases(resets, left))); }
    }
  }

  /** The world once session `s` has taken a step that releases, if it can. */
  function AfterRelease(w: World, s: nat, resets: bool, left: nat): World {
    if Enabled(w, Act(s, Releases(resets, left))) then Apply(w, Act(s, Releases(resets, left))) else w
  }

  /** The pool is clean at every point of the run. */
  ghost predicate AlwaysPristine(w: World, steps: seq<Step>)
    requires Valid(w, steps)
    decreases |steps|
  {
    Pristine(w) && (steps == [] || AlwaysPristine(Apply(w, steps[0]), steps[1..]))
  }

  /** No step of the run spills. */
  ghost predicate NoSpill(w: World, steps: seq<Step>)
    requires Valid(w, steps)
    decreases |steps|
  {
    steps == [] || (!Spills(w, steps[0]) && NoSpill(Apply(w, steps[0]), steps[1..]))
  }

  lemma {:induction false} CleanRun(w: World, steps: seq<Step>)
    requires w.setup.creds && LinearInv(w) && Pristine(w) && CleanInHand(w) && Valid(w, steps)
    ensures AlwaysPristine(w, steps) <==> NoSpill(w, steps)
    decreases |steps|
  {
    if steps != [] {
      LinearStep(w, steps[0]);
      if Spills(w, steps[0]) {
        SpillSoils(w, steps[0]);
      } else {
        CleanStep(w, steps[0]);
        CleanRun(Apply(w, steps[0]), steps[1..]);
      }
    }
  }

  /**
   When Pontus authenticates clients, no connection in the pool carries anything, at any point of
   a run, exactly when no release of the run spills: none is of a live used connection after a
   failed request, and none is of one with replies unread that the reset does not happen to read.
   */
  lemma CleanExactlyWithoutSpills(setup: Setup, mode: PoolingMode, steps: seq<Step>)
    requires setup.creds && Valid(Begin(setup, mode), steps)
    ensures AlwaysPristine(Begin(setup, mode), steps) <==> NoSpill(Begin(setup, mode), steps)
  {
    CleanRun(Begin(setup, mode), steps);
  }

  /** A session whose client cannot be given a reply ends with the connection in the pool as it is. */
  lemma CanFail(reached: World -> bool, w: World, s: nat, t: Session, c: nat, k: Conn) returns (after: World)
    requires Closed(reached) && reached(w) && At(w, s, t, c, k) && t.pc == Relaying && t.server == Some(c)
    requires w.setup.creds && k.ready && !k.broken && k.soiled
    ensures reached(after) && !Pristine(after)
  {
    var cut := Replies(TxState.Failed, false, true, false, false, 0);
    StepOn(reached, w, Act(s, cut));
    var replied := Apply(w, Act(s, cut));
    after := CanEnd(reached, replied, s, replied.sessions[s], c, replied.conns[c]);
  }

  lemma CanEnd(reached: World -> bool, w: World, s: nat, t: Session, c: nat, k: Conn) returns (after: World)
    requires Closed(reached) && reached(w) && At(w, s, t, c, k) && t.pc == Settling(true) && t.server == Some(c) && Stays(t)
    requires w.setup.creds && k.ready && !k.broken && k.soiled
    ensures reached(after) && !Pristine(after)
  {
    StepOn(reached, w, Act(s, Releases(true, 0)));
    var settled := Apply(w, Act(s, Releases(true, 0)));
    StepOn(reached, settled, Act(s, Releases(true, 0)));
    SpillSoils(settled, Act(s, Releases(true, 0)));
    after := Apply(settled, Act(s, Releases(true, 0)));
  }

  /** A session that has written a statement to the one connection there is. */
  lemma CanReachWrite(reached: World -> bool, w: World, s: nat) returns (after: World)
    requires Closed(reached) && reached(w) && w.setup.creds && w.mode.PoolTransaction?
    requires w.conns == map[] && w.next == 0 && w.sessions == map[] && Admits(w.setup, s)
    ensures reached(after) && after.setup == w.setup && after.mode == w.mode && after.sessions.Keys == {s}
    ensures 0 < after.next && 0 in after.conns && after.sessions[s].pc == Relaying && after.sessions[s].server == Some(0)
    ensures after.conns[0].ready && !after.conns[0].broken && after.conns[0].soiled
  {
    var there := CanOpenFresh(reached, w, s, 0);
    var borrowed := CanBorrow(reached, there, s, 0);
    after := CanSend(reached, borrowed, s, borrowed.sessions[s], 0, borrowed.conns[0]);
  }

  /** One client is enough: wherever anybody can connect, some run leaves a used connection in the pool. */
  lemma AnyoneCanSpill(setup: Setup, mode: PoolingMode, s: nat)
    requires setup.creds && Admits(setup, s)
    ensures exists w :: Reaches(Begin(setup, mode), w) && !Pristine(w)
  {
    var start := Begin(setup, mode);
    var reached := w => Reaches(start, w);
    ReachesIsClosed(start);
    assert Valid(start, []) && After(start, []) == start;
    StepOn(reached, start, Reload(PoolTransaction));
    var sent := CanReachWrite(reached, Apply(start, Reload(PoolTransaction)), s);
    var w := CanFail(reached, sent, s, sent.sessions[s], 0, sent.conns[0]);
  }

  /**
   And without any failure: a client that sends two statements at once, whose relay ends with the
   first reply, leaves a connection in the pool with the second unread, and goes on.
   */
  lemma PipelineCanSpill(setup: Setup, mode: PoolingMode, s: nat)
    requires setup.creds && Admits(setup, s)
    ensures exists w :: Reaches(Begin(setup, mode), w) && !Pristine(w) && w.sessions.Keys == {s} && w.sessions[s].pc.Waiting?
  {
    var start := Begin(setup, mode);
    var reached := w => Reaches(start, w);
    ReachesIsClosed(start);
    assert Valid(start, []) && After(start, []) == start;
    StepOn(reached, start, Reload(PoolTransaction));
    var sent := CanReachWrite(reached, Apply(start, Reload(PoolTransaction)), s);
    var w := CanFinish(reached, sent, s, sent.sessions[s], 0, sent.conns[0], 1);
    assert IsIdle(w, 0) && Carries(w.conns[0]);
    assert w.sessions.Keys == {s};
  }
}
