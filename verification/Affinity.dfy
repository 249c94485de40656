/**
 Which connection the next message of a session goes to.  A reply that leaves a transaction, an
 unfinished batch or a pin behind ties the session to the connection it came from; under session
 pooling every reply does.
 */
module Affinity {

  import opened Common
  import opened Lifecycle

  /** The session is on its way out and reads nothing more. */
  predicate Over(pc: Pc) { pc.Failing? || pc.Departing? || pc.Ended? }

  /** The session is over, or has connection `c` and what its last reply left behind is `tx` and `pinned`. */
  predicate Tied(t: Session, c: nat, tx: TxState, pinned: bool) {
    Over(t.pc) || (UsesServer(t.pc) && t.server == Some(c) && t.tx == tx && t.pinned == pinned)
  }

  lemma TiedServe(w: World, t: Session, choice: Choice, c: nat, tx: TxState, pinned: bool)
    requires Tied(t, c, tx, pinned) && (pinned || !tx.Idle?) && !choice.Replies?
    requires !IsOpening(t.pc) && !IsAcquiring(t.pc) && !t.pc.Entering? && CanServe(w, t, choice)
    ensures var d := DoServe(w, t, choice); Tied(d.t, c, tx, pinned) && !d.t.pc.Entering? && (d.wrote ==> t.pc.Writing?)
  {
  }

  /** No step of the run is a reply to session `s`. */
  ghost predicate NoReply(steps: seq<Step>, s: nat) {
    forall i :: 0 <= i < |steps| ==> !(steps[i].Act? && steps[i].s == s && steps[i].choice.Replies?)
  }

  lemma {:induction false} TiedRun(w: World, steps: seq<Step>, s: nat, c: nat, tx: TxState, pinned: bool)
    requires Valid(w, steps) && NoReply(steps, s) && (pinned || !tx.Idle?)
    requires s in w.sessions && Tied(w.sessions[s], c, tx, pinned) && !w.sessions[s].pc.Entering?
    ensures var t := After(w, steps).sessions; s in t && Tied(t[s], c, tx, pinned) && !t[s].pc.Entering?
    decreases |steps|
  {
    if steps != [] {
      var next := Apply(w, steps[0]);
      if steps[0].Act? && steps[0].s == s { TiedServe(w, w.sessions[s], steps[0].choice, c, tx, pinned); }
      TiedRun(next, steps[1..], s, c, tx, pinned);
    }
  }

  /** The statement session `s` writes in this step, if it writes one: the connection it is written to. */
  function WrittenTo(w: World, step: Step, s: nat): Option<nat>
    requires Enabled(w, step)
  {
    var after := Apply(w, step);
    if |after.log| > |w.log| && after.log[|w.log|].session == s then Some(after.log[|w.log|].conn) else None
  }

  /**
   In every run, mode reloads included: a reply comes that leaves a transaction open or failed, an
   unfinished batch or a pin, and no other reply follows.  Then whatever else happens, the next
   statement of the session is written to the connection the session had when that reply came.
   */
  lemma TransactionAffinity(w: World, s: nat, reply: Choice, between: seq<Step>, next: Step)
    requires reply.Replies? && (reply.pinned || !reply.tx.Idle?) && Enabled(w, Act(s, reply))
    requires Valid(Apply(w, Act(s, reply)), between) && NoReply(between, s)
    requires Enabled(After(Apply(w, Act(s, reply)), between), next)
    ensures w.sessions[s].server.Some?
    ensures var written := WrittenTo(After(Apply(w, Act(s, reply)), between), next, s);
      written.Some? ==> written == w.sessions[s].server
  {
    var replied := Apply(w, Act(s, reply));
    var c := w.sessions[s].server.value;
    TiedRun(replied, between, s, c, reply.tx, reply.pinned);
    var last := After(replied, between);
    if WrittenTo(last, next, s).Some? { WritesServer(last, next, s); }
  }

  /** A statement is written by a session that is about to, and to its server connection. */
  lemma WritesServer(w: World, step: Step, s: nat)
    requires Enabled(w, step) && WrittenTo(w, step, s).Some?
    ensures s in w.sessions && w.sessions[s].pc.Writing? && w.sessions[s].server == WrittenTo(w, step, s)
  {
  }

  // ---------------------------------------------------------------- session pooling

  ghost predicate NoReload(steps: seq<Step>) { forall i :: 0 <= i < |steps| ==> !steps[i].Reload? }

  /** Under session pooling, a session past its opening has the one connection it opened on. */
  predicate Sticks(t: Session) {
    && t.rcMode.PoolSession?
    && (!IsOpening(t.pc) && !Over(t.pc) ==> UsesServer(t.pc) && t.server.Some?)
  }

  ghost predicate AllStick(w: World) { forall s :: s in w.sessions ==> Sticks(w.sessions[s]) }

  /** Everything the session has written went to the connection it has. */
  ghost predicate LogSticks(w: World) {
    forall e :: e in w.log ==>
      && e.session in w.sessions && !IsOpening(w.sessions[e.session].pc)
      && (!Over(w.sessions[e.session].pc) ==> w.sessions[e.session].server == Some(e.conn))
  }

  ghost predicate OneConn(w: World) {
    forall i, j :: 0 <= i < j < |w.log| && w.log[i].session == w.log[j].session ==> w.log[i].conn == w.log[j].conn
  }

  lemma OpenSticks(w: World, s: nat, t: Session, choice: Choice)
    requires Sticks(t) && IsOpening(t.pc) && CanOpen(w, t, choice)
    ensures var d := DoOpen(w, s, t, choice); Sticks(d.t) && !d.wrote
  {
  }

  lemma ServeSticks(w: World, t: Session, choice: Choice)
    requires w.mode.PoolSession? && Sticks(t) && !IsOpening(t.pc) && !IsAcquiring(t.pc) && CanServe(w, t, choice)
    ensures var d := DoServe(w, t, choice);
      && Sticks(d.t) && !IsOpening(d.t.pc) && (d.wrote ==> t.pc.Writing?)
      && (!Over(d.t.pc) ==> !Over(t.pc) && d.t.server == t.server)
  {
  }

  lemma SticksStep(w: World, step: Step)
    requires w.mode.PoolSession? && AllStick(w) && LogSticks(w) && OneConn(w) && Enabled(w, step) && !step.Reload?
    ensures var after := Apply(w, step); after.mode.PoolSession? && AllStick(after) && LogSticks(after) && OneConn(after)
  {
    if step.Act? {
      var t := w.sessions[step.s];
      if IsOpening(t.pc) { OpenSticks(w, step.s, t, step.choice); } else { ServeSticks(w, t, step.choice); }
    }
  }

  lemma {:induction false} SticksRun(w: World, steps: seq<Step>)
    requires w.mode.PoolSession? && AllStick(w) && LogSticks(w) && OneConn(w) && Valid(w, steps) && NoReload(steps)
    ensures OneConn(After(w, steps))
    decreases |steps|
  {
    if steps != [] {
      SticksStep(w, steps[0]);
      SticksRun(Apply(w, steps[0]), steps[1..]);
    }
  }

  /** The session is over, or has connection `c` and keeps it at the next decision of a run without reloads. */
  predicate Keeps(t: Session, c: nat) {
    Over(t.pc) || (UsesServer(t.pc) && t.server == Some(c) && (t.pc.Waiting? || t.rcMode.PoolSession?))
  }

  lemma KeepsStep(w: World, t: Session, choice: Choice, c: nat)
    requires w.mode.PoolSession? && Keeps(t, c) && !IsOpening(t.pc) && !IsAcquiring(t.pc) && CanServe(w, t, choice)
    ensures var d := DoServe(w, t, choice); Keeps(d.t, c) && (d.wrote ==> t.pc.Writing?)
  {
  }

  /**
   Over any stretch of any run in which the mode is session pooling and not reloaded: everything
   a session with a connection writes goes to that connection.
   */
  lemma {:induction false} StretchAffinity(w: World, steps: seq<Step>, s: nat, c: nat, i: nat)
    requires w.mode.PoolSession? && Valid(w, steps) && NoReload(steps) && s in w.sessions && Keeps(w.sessions[s], c)
    requires |w.log| <= i < |After(w, steps).log| && After(w, steps).log[i].session == s
    ensures After(w, steps).log[i].conn == c
    decreases |steps|
  {
    var next := Apply(w, steps[0]);
    if steps[0].Act? && steps[0].s == s { KeepsStep(w, w.sessions[s], steps[0].choice, c); }
    if i < |next.log| {
      LogOnlyGrows(next, steps[1..]);
    } else {
      StretchAffinity(next, steps[1..], s, c, i);
    }
  }

  lemma {:induction false} LogOnlyGrows(w: World, steps: seq<Step>)
    requires Valid(w, steps)
    ensures w.log <= After(w, steps).log
    decreases |steps|
  {
    if steps != [] { LogOnlyGrows(Apply(w, steps[0]), steps[1..]); }
  }

  /** Under session pooling every message of a session is written to the same connection. */
  lemma SessionAffinity(setup: Setup, steps: seq<Step>, i: nat, j: nat)
    requires Valid(Begin(setup, PoolSession), steps) && NoReload(steps)
    requires var log := After(Begin(setup, PoolSession), steps).log; i < j < |log| && log[i].session == log[j].session
    ensures var log := After(Begin(setup, PoolSession), steps).log; log[i].conn == log[j].conn
  {
    SticksRun(Begin(setup, PoolSession), steps);
  }

  // ---------------------------------------------------------------- what pooling gives back

  /** A step in which session `s` has a request answered or executed. */
  predicate Asks(step: Step, s: nat) { step.Act? && step.s == s && (step.choice.Answered? || step.choice.Executes?) }

  ghost predicate HasAsked(steps: seq<Step>, s: nat) { exists i :: 0 <= i < |steps| && Asks(steps[i], s) }

  /** Whether the last reply to session `s` left a transaction, a batch or a pin behind; `before` if there is none. */
  function LastTies(steps: seq<Step>, s: nat, before: bool): bool
    decreases |steps|
  {
    if steps == [] then before else LastTies(steps[1..], s, Ties(steps[0], s, before))
  }

  function Ties(step: Step, s: nat, before: bool): bool {
    if step.Act? && step.s == s && step.choice.Replies? then step.choice.pinned || !step.choice.tx.Idle? else before
  }

  /** The session decides in mode `mode`; and once it has asked for anything, it waits only with what it must keep. */
  predicate Spares(t: Session, mode: PoolingMode, asked: bool, tied: bool) {
    && t.rcMode == mode && (tied <==> t.pinned || !t.tx.Idle?)
    && (asked ==> !IsOpening(t.pc) && !t.pc.Entering?)
    && (asked && t.pc.Waiting? && t.server.Some? ==> tied)
  }

  lemma OpenSpares(w: World, s: nat, t: Session, choice: Choice, tied: bool)
    requires IsOpening(t.pc) && CanOpen(w, t, choice) && Spares(t, w.mode, false, tied)
    ensures Spares(DoOpen(w, s, t, choice).t, w.mode, false, tied)
    ensures !choice.Answered? && !choice.Executes? && !choice.Replies?
  {
  }

  lemma AcquireSpares(w: World, s: nat, t: Session, choice: Choice, asked: bool, tied: bool)
    requires IsAcquiring(t.pc) && CanAcquire(w, t, choice) && Spares(t, w.mode, asked, tied)
    ensures Spares(DoAcquire(w, s, t, choice).t, w.mode, asked, tied)
    ensures !choice.Answered? && !choice.Executes? && !choice.Replies?
  {
  }

  lemma ServeSpares(w: World, s: nat, t: Session, choice: Choice, asked: bool, tied: bool)
    requires !IsOpening(t.pc) && !IsAcquiring(t.pc) && CanServe(w, t, choice)
    requires !w.mode.PoolSession? && Spares(t, w.mode, asked, tied)
    ensures Spares(DoServe(w, t, choice).t, w.mode, asked || Asks(Act(s, choice), s), Ties(Act(s, choice), s, tied))
  {
  }

  /** As long as the session has not joined, it has not asked. */
  predicate SparesIn(w: World, s: nat, asked: bool, tied: bool) {
    if s in w.sessions then Spares(w.sessions[s], w.mode, asked, tied) else !asked && !tied
  }

  lemma SparesStep(w: World, step: Step, s: nat, asked: bool, tied: bool)
    requires !w.mode.PoolSession? && Enabled(w, step) && !step.Reload? && SparesIn(w, s, asked, tied)
    ensures SparesIn(Apply(w, step), s, asked || Asks(step, s), Ties(step, s, tied)) && Apply(w, step).mode == w.mode
  {
    if step.Act? && step.s == s {
      var t := w.sessions[s];
      if IsOpening(t.pc) {
        OpenSpares(w, s, t, step.choice, tied);
      } else if IsAcquiring(t.pc) {
        AcquireSpares(w, s, t, step.choice, asked, tied);
      } else {
        ServeSpares(w, s, t, step.choice, asked, tied);
      }
    }
  }

  lemma {:induction false} SparesRun(w: World, steps: seq<Step>, s: nat, asked: bool, tied: bool)
    requires !w.mode.PoolSession? && Valid(w, steps) && NoReload(steps) && SparesIn(w, s, asked, tied)
    ensures SparesIn(After(w, steps), s, asked || HasAsked(steps, s), LastTies(steps, s, tied))
    decreases |steps|
  {
    if steps != [] {
      SparesStep(w, steps[0], s, asked, tied);
      SparesRun(Apply(w, steps[0]), steps[1..], s, asked || Asks(steps[0], s), Ties(steps[0], s, tied));
      assert forall i :: 0 <= i < |steps[1..]| ==> steps[1..][i] == steps[i + 1];
      assert HasAsked(steps, s) <==> Asks(steps[0], s) || HasAsked(steps[1..], s);
    }
  }

  /**
   Pooling by transaction or by statement, the mode not reloaded: once a session has had a request
   answered or executed, it waits for the next one with a connection in hand only if the last
   reply left a transaction, a batch or a pin behind.
   */
  lemma WaitsEmptyHanded(setup: Setup, mode: PoolingMode, steps: seq<Step>, s: nat)
    requires !mode.PoolSession? && Valid(Begin(setup, mode), steps) && NoReload(steps) && HasAsked(steps, s)
    ensures var w := After(Begin(setup, mode), steps);
      && s in w.sessions
      && (w.sessions[s].pc.Waiting? && w.sessions[s].server.Some? ==> LastTies(steps, s, false))
  {
    SparesRun(Begin(setup, mode), steps, s, false, false);
  }
}
