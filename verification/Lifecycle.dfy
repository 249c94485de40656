/**
 Sessions and backend connections.  Any number of sessions open, borrow connections from one
 shared pool, authenticate fresh sockets, run statements, and give the connections back, each
 taking one step at a time in any order.  The pool lends any idle connection, or any of the
 identity asked for; beyond that nothing below rests on it choosing well.
 */
module Lifecycle {

  import opened Common

  datatype Identity = Identity(user: string, database: string)

  const Nobody := Identity("", "")

  datatype PoolingMode = PoolTransaction | PoolSession | PoolStatement

  /** shouldReleaseAt */
  predicate ShouldRelease(mode: PoolingMode, tx: TxState, pinned: bool) {
    !pinned && !mode.PoolSession? && tx.Idle?
  }

  /**
   A backend connection: the identity whose pool it belongs to, whether its startup exchange was
   recorded as complete, whether it must be destroyed on release, whether a session has run
   statements on it since it was last reset, how many replies the server owes that nobody has
   read, the identity recorded on it, and the identity the server really authenticated it as.
   */
  datatype Conn = Conn(
    pool: Identity, ready: bool, broken: bool, soiled: bool, unread: nat,
    recorded: Identity, proven: Option<Identity>, heldBy: Option<nat>)

  /** A connection with nothing recorded belongs to anybody. */
  predicate BelongsTo(recorded: Identity, who: Identity) { recorded == Nobody || recorded == who }

  /**
   Who a session is: the identity in its startup as Pontus knows it, the identity its own
   exchange with a server proves, and whether Pontus can authenticate as it.
   */
  datatype Profile = Profile(stated: Identity, truth: Identity, canAuth: bool)

  datatype Pc =
    // openSession
    | Opening(tries: nat)             // about to acquire a connection for the handshake
    | Shaking(tries: nat, c: nat)     // about to perform the handshake on it
    | Dropping(tries: nat, c: nat)    // marked broken; about to release it and try again
    | GivingBack(c: nat)              // the handshake failed; about to release it
    | Readying(c: nat)                // the handshake succeeded; about to mark it ready
    | Naming(c: nat)                  // about to record the identity
    | Entering                        // about to decide whether to keep the startup connection
    // the session loop
    | Waiting                         // reading the client
    // acquireForSession; `again` is the attempt after a failed LSN wait
    | Seeking(again: bool)
    | Judging(again: bool, c: nat)
    | Rejecting(again: bool, c: nat)  // about to release it and fall back to the home backend
    | GoingHome(again: bool)
    | JudgingHome(again: bool, c: nat)
    | RejectingHome(c: nat)
    | Catching(c: nat)                // waiting for a replica to catch up
    | Leaving(c: nat)                 // it did not; about to release it and acquire again
    // the rest of executeRequest, on session.Server
    | Replaying
    | Writing
    | Relaying
    | Settling(failed: bool)          // the first of the two release decisions
    | AfterChain                      // the second
    | Failing                         // the request failed; about to release and end
    | Departing                       // the client left; about to release and end
    | Ended

  /**
   `rcMode` is the pooling mode read when the request began; `tx` and `pinned` are what the last
   reply left behind.
   */
  datatype Session = Session(
    pc: Pc, who: Profile, server: Option<nat>, tx: TxState, pinned: bool,
    rcMode: PoolingMode)

  /** The last reply left a transaction, a batch or a pin behind, so the next message must follow it. */
  predicate Stays(t: Session) { t.pinned || !t.tx.Idle? }

  /** A statement written to a backend connection. */
  datatype Wrote = Wrote(session: nat, conn: nat, proven: Option<Identity>)

  /**
   `people` is everybody who may connect.  `creds` is set when Pontus authenticates clients
   itself; `identityFirst` when the client speaks first; `keyed` when the pool keeps connections
   apart by the identity they were asked for, as the servers' pool set does.
   */
  datatype Setup = Setup(people: map<nat, Profile>, creds: bool, identityFirst: bool, keyed: bool)

  /** Connections are numbered as they are dialled, from `next` on. */
  datatype World = World(
    setup: Setup, mode: PoolingMode, conns: map<nat, Conn>, next: nat, sessions: map<nat, Session>, log: seq<Wrote>)

  const IdentityAttempts: nat := 8

  /** How a call a session makes turns out. */
  datatype Choice =
    | Fails(authed: bool)               // an error; `authed` if the server had already accepted the startup
    | Draws(c: nat)                     // the pool hands out an idle connection
    | Dials(c: nat)                     // the pool dials a new one
    | Works
    | ClientLeaves                      // the client is gone, or says goodbye to a Pontus that can authenticate
    | Refused                           // a transaction under statement pooling
    | ChainFails                        // a failure before anything is executed
    | Answered                          // served from the cache or by a request in flight
    | Executes
    | NeedsLsn                          // a read on a replica after a recorded write
    // the reply is relayed; `rest` is how many further replies to the request stay unread
    | Replies(tx: TxState, pinned: bool, err: bool, deadline: bool, excused: bool, rest: nat)
    // if the connection is to be reset: whether that works, and how many unread replies it may leave
    | Releases(resets: bool, left: nat)

  datatype Step =
    | Join(s: nat)
    | Act(s: nat, choice: Choice)
    | Reap(c: nat)                      // the pool discards an idle connection
    | Reload(mode: PoolingMode)

  // ---------------------------------------------------------------- pool

  predicate IsIdle(w: World, c: nat) { c in w.conns && w.conns[c].heldBy.None? }

  /**
   What one step does to the connections: nothing, one marked, one acquired from the pool, or
   one released to it, which keeps `left` or destroys the connection.
   */
  datatype Change = Same | Mark(c: nat, k: Conn) | Acquired(c: nat, k: Conn) | Released(c: nat, left: Option<Conn>)

  function Effect(conns: map<nat, Conn>, change: Change): map<nat, Conn> {
    match change
    case Same => conns
    case Mark(c, k) => conns[c := k]
    case Acquired(c, k) => conns[c := k]
    case Released(c, left) => if left.Some? then conns[c := left.value] else conns - {c}
  }

  /** A number is given once. */
  function NextNumber(w: World, change: Change): nat { if change.Acquired? && change.c == w.next then w.next + 1 else w.next }

  function Hold(w: World, s: nat, id: Identity, choice: Choice): Change
    requires choice.Draws? || choice.Dials?
    requires choice.Draws? ==> IsIdle(w, choice.c)
  {
    match choice
    case Draws(c) => Acquired(c, w.conns[c].(heldBy := Some(s)))
    case Dials(c) => Acquired(c, Conn(id, false, false, false, 0, Nobody, None, Some(s)))
  }

  /**
   Replies still unread after a statement of Pontus's own: its reply joins the queue, one read
   brings `n` of those there, and the statement is over at the first end of a reply it sees.
   */
  function AfterExecute(unread: nat, n: nat): nat
    requires 1 <= n <= unread + 1
  {
    unread + 1 - n
  }

  /** After the two statements of a reset any number up to what was unread before can still be, and no more. */
  lemma ResetLeaves(unread: nat, left: nat)
    ensures left <= unread <==>
      exists n: nat, m: nat :: 1 <= n <= unread + 1 && 1 <= m <= AfterExecute(unread, n) + 1
        && AfterExecute(AfterExecute(unread, n), m) == left
  {
    if left <= unread {
      assert AfterExecute(unread, 1) == unread && AfterExecute(unread, unread - left + 1) == left;
    }
  }

  /** What the reset of a connection leaves unread. */
  function Drained(unread: nat, left: nat): nat { if left <= unread then left else unread }

  /** A connection given back: destroyed if broken or never ready, reset if marked dirty, and otherwise idle as it is. */
  function GiveBack(w: World, c: nat, markDirty: bool, choice: Choice): Change
    requires c in w.conns && choice.Releases?
  {
    var k := w.conns[c];
    if k.broken || !k.ready || (markDirty && !choice.resets) then Released(c, None)
    else if markDirty then Released(c, Some(k.(soiled := false, unread := Drained(k.unread, choice.left), heldBy := None)))
    else Released(c, Some(k.(heldBy := None)))
  }

  // ---------------------------------------------------------------- steps

  /** The pool can lend `c` to somebody who asks as `id`. */
  predicate CanLend(w: World, c: nat, id: Identity) { IsIdle(w, c) && (w.setup.keyed ==> w.conns[c].pool == id) }

  predicate Acquires(w: World, id: Identity, choice: Choice) {
    choice.Fails? || (choice.Draws? && CanLend(w, choice.c, id)) || (choice.Dials? && choice.c == w.next)
  }

  /** Two of the three handshakes write the client's own packet to the backend. */
  predicate RelaysStartup(setup: Setup) { !(setup.identityFirst && setup.creds) }

  predicate Has(w: World, c: nat) { c in w.conns }

  predicate HasServer(w: World, t: Session) { t.server.Some? && t.server.value in w.conns }

  /** In openSession. */
  predicate IsOpening(pc: Pc) {
    pc.Opening? || pc.Shaking? || pc.Dropping? || pc.GivingBack? || pc.Readying? || pc.Naming?
  }

  /** In acquireForSession, or waiting for the replica it chose. */
  predicate IsAcquiring(pc: Pc) {
    pc.Seeking? || pc.Judging? || pc.Rejecting? || pc.GoingHome? || pc.JudgingHome? || pc.RejectingHome?
    || pc.Catching? || pc.Leaving?
  }

  predicate CanOpen(w: World, t: Session, choice: Choice)
    requires IsOpening(t.pc)
  {
    match t.pc
    case Opening(_) => Acquires(w, t.who.stated, choice)
    case Shaking(_, c) => Has(w, c) && (choice.Works? || choice.Fails?)
    case Dropping(_, c) => Has(w, c) && choice.Releases?
    case GivingBack(c) => Has(w, c) && choice.Releases?
    case Readying(c) => Has(w, c) && choice.Works?
    case Naming(c) => Has(w, c) && choice.Works?
  }

  predicate CanAcquire(w: World, t: Session, choice: Choice)
    requires IsAcquiring(t.pc)
  {
    match t.pc
    case Seeking(_) => Acquires(w, t.who.stated, choice)
    case Judging(_, c) => Has(w, c) && (choice.Works? || choice.Fails? || choice.NeedsLsn?)
    case Rejecting(_, c) => Has(w, c) && choice.Releases?
    case GoingHome(_) => Acquires(w, t.who.stated, choice)
    case JudgingHome(_, c) => Has(w, c) && (choice.Works? || choice.NeedsLsn?)
    case RejectingHome(c) => Has(w, c) && choice.Releases?
    case Catching(c) => Has(w, c) && (choice.Works? || choice.Fails?)
    case Leaving(c) => Has(w, c) && choice.Releases?
  }

  predicate CanServe(w: World, t: Session, choice: Choice)
    requires !IsOpening(t.pc) && !IsAcquiring(t.pc)
  {
    match t.pc
    case Entering => HasServer(w, t) && choice.Releases?
    case Waiting =>
      choice.ClientLeaves? || (choice.Refused? && w.mode.PoolStatement?) || choice.ChainFails?
      || choice.Answered? || choice.Executes?
    case Replaying => HasServer(w, t) && (choice.Works? || choice.Fails?)
    case Writing => HasServer(w, t) && (choice.Works? || choice.Fails?)
    case Relaying => HasServer(w, t) && choice.Replies?
    case Ended => false
    case _ => choice.Releases? && (t.server.Some? ==> HasServer(w, t))
  }

  predicate CanAct(w: World, t: Session, choice: Choice) {
    if IsOpening(t.pc) then CanOpen(w, t, choice)
    else if IsAcquiring(t.pc) then CanAcquire(w, t, choice)
    else CanServe(w, t, choice)
  }

  /** What one session step does: the session after it, what it changes, and whether a statement was written. */
  datatype Done = Done(t: Session, change: Change, wrote: bool)

  /** The startup exchange ran to completion as `id`, or got as far as the server accepting it. */
  function Exchanged(k: Conn, id: Identity, choice: Choice): Conn {
    if choice.Works? || (choice.Fails? && choice.authed) then k.(proven := Some(id)) else k
  }

  function OnShaking(w: World, t: Session, tries: nat, c: nat, choice: Choice): Done
    requires Has(w, c)
  {
    var k := w.conns[c];
    if RelaysStartup(w.setup) then
      if k.ready then Done(t.(pc := Dropping(tries, c)), Mark(c, k.(broken := true)), false)
      else Done(t.(pc := if choice.Works? then Readying(c) else GivingBack(c)),
                Mark(c, Exchanged(k, t.who.truth, choice)), false)
    else if k.ready then
      if !BelongsTo(k.recorded, t.who.stated) then Done(t.(pc := Dropping(tries, c)), Mark(c, k.(broken := true)), false)
      else Done(t.(pc := if choice.Works? then Readying(c) else GivingBack(c)), Same, false)
    else Done(t.(pc := if choice.Works? then Readying(c) else GivingBack(c)),
              Mark(c, Exchanged(k, t.who.stated, choice)), false)
  }

  /** usable and belongsTo */
  predicate Usable(k: Conn, who: Profile) { k.ready && BelongsTo(k.recorded, who.stated) }

  /** The connection is the session's now, unless a replica has to catch up first. */
  function Take(t: Session, again: bool, c: nat, choice: Choice): Session {
    if choice.NeedsLsn? && !again then t.(pc := Catching(c)) else t.(pc := Replaying, server := Some(c))
  }

  function OnJudging(w: World, t: Session, again: bool, c: nat, choice: Choice): Done
    requires Has(w, c)
  {
    var k := w.conns[c];
    if Usable(k, t.who) then Done(Take(t, again, c, choice), Same, false)
    else if !k.ready && w.setup.creds && t.who.canAuth then
      if choice.Fails? then
        Done(t.(pc := Rejecting(again, c)), Mark(c, Exchanged(k, t.who.stated, choice)), false)
      else
        Done(Take(t, again, c, choice),
             Mark(c, k.(proven := Some(t.who.stated), recorded := t.who.stated, ready := true)), false)
    else Done(t.(pc := Rejecting(again, c)), Same, false)
  }

  /** Gives the server connection back if there is one, and goes on to `next`. */
  function Release(w: World, t: Session, markDirty: bool, choice: Choice, next: Pc): Done
    requires choice.Releases? && (t.server.Some? ==> HasServer(w, t))
  {
    if t.server.None? then Done(t.(pc := next), Same, false)
    else Done(t.(pc := next, server := None), GiveBack(w, t.server.value, markDirty, choice), false)
  }

  function DoOpen(w: World, s: nat, t: Session, choice: Choice): Done
    requires IsOpening(t.pc) && CanOpen(w, t, choice)
  {
    match t.pc
    case Opening(n) =>
      if choice.Fails? then Done(t.(pc := Ended), Same, false)
      else Done(t.(pc := Shaking(n, choice.c)), Hold(w, s, t.who.stated, choice), false)
    case Shaking(n, c) => OnShaking(w, t, n, c, choice)
    case Dropping(n, c) =>
      Done(t.(pc := if n + 1 >= IdentityAttempts then Ended else Opening(n + 1)), GiveBack(w, c, false, choice), false)
    case GivingBack(c) => Done(t.(pc := Ended), GiveBack(w, c, false, choice), false)
    case Readying(c) => Done(t.(pc := Naming(c)), Mark(c, w.conns[c].(ready := true)), false)
    case Naming(c) =>
      Done(t.(pc := Entering, server := Some(c)), Mark(c, w.conns[c].(recorded := t.who.stated)), false)
  }

  function DoAcquire(w: World, s: nat, t: Session, choice: Choice): Done
    requires IsAcquiring(t.pc) && CanAcquire(w, t, choice)
  {
    match t.pc
    case Seeking(again) =>
      if choice.Fails? then Done(t.(pc := GoingHome(again)), Same, false)
      else Done(t.(pc := Judging(again, choice.c)), Hold(w, s, t.who.stated, choice), false)
    case Judging(again, c) => OnJudging(w, t, again, c, choice)
    case Rejecting(again, c) => Done(t.(pc := GoingHome(again)), GiveBack(w, c, false, choice), false)
    case GoingHome(again) =>
      if choice.Fails? then Done(t.(pc := Failing), Same, false)
      else Done(t.(pc := JudgingHome(again, choice.c)), Hold(w, s, t.who.stated, choice), false)
    case JudgingHome(again, c) =>
      if Usable(w.conns[c], t.who) then Done(Take(t, again, c, choice), Same, false)
      else Done(t.(pc := RejectingHome(c)), Same, false)
    case RejectingHome(c) => Done(t.(pc := Failing), GiveBack(w, c, false, choice), false)
    case Catching(c) =>
      Done(if choice.Works? then t.(pc := Replaying, server := Some(c)) else t.(pc := Leaving(c)), Same, false)
    case Leaving(c) => Done(t.(pc := Seeking(true)), GiveBack(w, c, false, choice), false)
  }

  /** What the session loop goes on to do with a request, from how its interceptors turn out. */
  function Dispatched(t: Session, choice: Choice): Pc {
    match choice
    case ClientLeaves => Departing
    case ChainFails => Failing
    case Answered => AfterChain
    case Executes => if t.server.None? then Seeking(false) else Replaying
    case _ => Waiting
  }

  function DoServe(w: World, t: Session, choice: Choice): Done
    requires !IsOpening(t.pc) && !IsAcquiring(t.pc) && CanServe(w, t, choice)
  {
    match t.pc
    case Entering =>
      if w.setup.creds && ShouldRelease(w.mode, t.tx, false) then Release(w, t, true, choice, Waiting)
      else Done(t.(pc := Waiting), Same, false)
    case Waiting => Done(t.(pc := Dispatched(t, choice), rcMode := w.mode), Same, false)
    case Replaying =>
      var c := t.server.value;
      if choice.Works? then Done(t.(pc := Writing), Same, false)
      else Done(t.(pc := Failing), Mark(c, w.conns[c].(broken := true)), false)
    case Writing =>
      var c := t.server.value;
      if choice.Works? then Done(t.(pc := Relaying), Mark(c, w.conns[c].(soiled := true)), true)
      else Done(t.(pc := Failing, server := None), Released(c, None), true)
    case Relaying =>
      var c := t.server.value;
      Done(t.(pc := Settling(choice.err && !choice.excused), tx := choice.tx, pinned := choice.pinned),
           Mark(c, w.conns[c].(broken := w.conns[c].broken || choice.deadline, unread := choice.rest)), false)
    case Settling(failed) =>
      var next := if failed then Failing else AfterChain;
      if ShouldRelease(w.mode, t.tx, t.pinned) then Release(w, t, w.setup.creds, choice, next)
      else Done(t.(pc := next), Same, false)
    case AfterChain =>
      if ShouldRelease(t.rcMode, t.tx, t.pinned) then Release(w, t, w.setup.creds, choice, Waiting)
      else Done(t.(pc := Waiting), Same, false)
    case Failing => Release(w, t, false, choice, Ended)
    case Departing => Release(w, t, true, choice, Ended)
  }

  function DoAct(w: World, s: nat, t: Session, choice: Choice): Done
    requires CanAct(w, t, choice)
  {
    if IsOpening(t.pc) then DoOpen(w, s, t, choice)
    else if IsAcquiring(t.pc) then DoAcquire(w, s, t, choice)
    else DoServe(w, t, choice)
  }

  /** What Pontus authenticates itself, it authenticates as the identity it knows. */
  predicate WellKnown(setup: Setup, who: Profile) { who.canAuth || !RelaysStartup(setup) ==> who.truth == who.stated }

  predicate Admits(setup: Setup, s: nat) { s in setup.people && WellKnown(setup, setup.people[s]) }

  predicate Enabled(w: World, step: Step) {
    match step
    case Join(s) => s !in w.sessions && Admits(w.setup, s)
    case Act(s, choice) => s in w.sessions && CanAct(w, w.sessions[s], choice)
    case Reap(c) => IsIdle(w, c)
    case Reload(_) => true
  }

  function Apply(w: World, step: Step): World
    requires Enabled(w, step)
  {
    match step
    case Join(s) =>
      w.(sessions := w.sessions[s := Session(Opening(0), w.setup.people[s], None, TxState.Idle, false, w.mode)])
    case Act(s, choice) =>
      var t := w.sessions[s];
      var d := DoAct(w, s, t, choice);
      w.(sessions := w.sessions[s := d.t], conns := Effect(w.conns, d.change), next := NextNumber(w, d.change),
         log := if d.wrote then w.log + [Wrote(s, t.server.value, w.conns[t.server.value].proven)] else w.log)
    case Reap(c) => w.(conns := w.conns - {c})
    case Reload(mode) => w.(mode := mode)
  }

  function Begin(setup: Setup, mode: PoolingMode): World { World(setup, mode, map[], 0, map[], []) }

  ghost predicate Valid(w: World, steps: seq<Step>)
    decreases |steps|
  {
    steps == [] || (Enabled(w, steps[0]) && Valid(Apply(w, steps[0]), steps[1..]))
  }

  ghost function After(w: World, steps: seq<Step>): World
    requires Valid(w, steps)
    decreases |steps|
  {
    if steps == [] then w else After(Apply(w, steps[0]), steps[1..])
  }

  ghost predicate Reaches(w: World, goal: World) { exists steps :: Valid(w, steps) && After(w, steps) == goal }

  lemma {:induction false} AndThen(w: World, steps: seq<Step>, step: Step)
    requires Valid(w, steps) && Enabled(After(w, steps), step)
    ensures Valid(w, steps + [step]) && After(w, steps + [step]) == Apply(After(w, steps), step)
    decreases |steps|
  {
    if steps == [] {
      assert [step][1..] == [];
    } else {
      AndThen(Apply(w, steps[0]), steps[1..], step);
      assert (steps + [step])[1..] == steps[1..] + [step];
    }
  }

  /** A set of worlds that no step leaves. */
  ghost predicate Closed(reached: World -> bool) {
    forall w, step :: reached(w) && Enabled(w, step) ==> reached(Apply(w, step))
  }

  lemma ReachesIsClosed(start: World)
    ensures Closed(w => Reaches(start, w))
  {
    forall w, step | Reaches(start, w) && Enabled(w, step) ensures Reaches(start, Apply(w, step)) {
      var steps :| Valid(start, steps) && After(start, steps) == w;
      AndThen(start, steps, step);
    }
  }

  lemma StepOn(reached: World -> bool, w: World, step: Step)
    requires Closed(reached) && reached(w) && Enabled(w, step)
    ensures reached(Apply(w, step))
  {
  }

  // ---------------------------------------------------------------- linearity

  /** The session's program works on `session.Server` here, rather than on a connection of its own. */
  predicate UsesServer(pc: Pc) {
    pc.Entering? || pc.Waiting? || pc.Replaying? || pc.Writing? || pc.Relaying? || pc.Settling? || pc.AfterChain?
    || pc.Failing? || pc.Departing?
  }

  predicate NeedsServer(pc: Pc) { pc.Entering? || pc.Replaying? || pc.Writing? || pc.Relaying? }

  predicate HoldsNothing(pc: Pc) { pc.Opening? || pc.Seeking? || pc.GoingHome? || pc.Ended? }

  /** The one connection the session's program can name, if any. */
  function Refers(t: Session): Option<nat> {
    if UsesServer(t.pc) then t.server else if HoldsNothing(t.pc) then None else Some(t.pc.c)
  }

  /** The server field is set only where the program uses it, and always where it must be. */
  predicate ServerField(t: Session) {
    (!UsesServer(t.pc) ==> t.server.None?) && (NeedsServer(t.pc) ==> t.server.Some?)
  }

  predicate IsKnown(w: World, s: nat, t: Session) { Admits(w.setup, s) && t.who == w.setup.people[s] }

  ghost predicate SessionsInv(w: World) {
    forall s :: s in w.sessions ==> IsKnown(w, s, w.sessions[s]) && ServerField(w.sessions[s])
  }

  predicate HeldBy(conns: map<nat, Conn>, c: nat, s: nat) { c in conns && conns[c].heldBy == Some(s) }

  /** What a session's program names is checked out to that session. */
  ghost predicate NamedIsHeld(w: World) {
    forall s :: s in w.sessions && Refers(w.sessions[s]).Some? ==> HeldBy(w.conns, Refers(w.sessions[s]).value, s)
  }

  /** What is checked out to a session is what its program names. */
  ghost predicate HeldIsNamed(w: World) {
    forall c: nat, s: nat :: HeldBy(w.conns, c, s) ==> s in w.sessions && Refers(w.sessions[s]) == Some(c)
  }

  /** A session step touches only the connection the session names before or after it, and takes only an idle or a new one. */
  predicate Touches(w: World, s: nat, had: Option<nat>, has: Option<nat>, change: Change) {
    match change
    case Same => has == had
    case Mark(c, k) => had == Some(c) && has == had && k.heldBy == Some(s)
    case Acquired(c, k) =>
      had.None? && has == Some(c) && k.heldBy == Some(s) && if c in w.conns then w.conns[c].heldBy.None? else c == w.next
    case Released(c, left) => had == Some(c) && has.None? && (left.Some? ==> left.value.heldBy.None?)
  }

  /** What the steps of one session need to know of it and of the connection it names. */
  predicate Ready(w: World, s: nat, t: Session) {
    ServerField(t) && (Refers(t).Some? ==> HeldBy(w.conns, Refers(t).value, s)) && w.next !in w.conns
  }

  lemma OpenTouches(w: World, s: nat, t: Session, choice: Choice)
    requires IsOpening(t.pc) && CanOpen(w, t, choice) && Ready(w, s, t)
    ensures var d := DoOpen(w, s, t, choice); Touches(w, s, Refers(t), Refers(d.t), d.change)
  {
  }

  lemma AcquireTouches(w: World, s: nat, t: Session, choice: Choice)
    requires IsAcquiring(t.pc) && CanAcquire(w, t, choice) && Ready(w, s, t)
    ensures var d := DoAcquire(w, s, t, choice); Touches(w, s, Refers(t), Refers(d.t), d.change)
  {
  }

  lemma ServeTouches(w: World, s: nat, t: Session, choice: Choice)
    requires !IsOpening(t.pc) && !IsAcquiring(t.pc) && CanServe(w, t, choice) && Ready(w, s, t)
    ensures var d := DoServe(w, t, choice); Touches(w, s, Refers(t), Refers(d.t), d.change)
  {
  }

  lemma OpenKeeps(w: World, s: nat, t: Session, choice: Choice)
    requires IsOpening(t.pc) && CanOpen(w, t, choice) && ServerField(t)
    ensures var d := DoOpen(w, s, t, choice); d.t.who == t.who && ServerField(d.t)
  {
  }

  lemma AcquireKeeps(w: World, s: nat, t: Session, choice: Choice)
    requires IsAcquiring(t.pc) && CanAcquire(w, t, choice) && ServerField(t)
    ensures var d := DoAcquire(w, s, t, choice); d.t.who == t.who && ServerField(d.t)
  {
  }

  lemma ServeKeeps(w: World, t: Session, choice: Choice)
    requires !IsOpening(t.pc) && !IsAcquiring(t.pc) && CanServe(w, t, choice) && ServerField(t)
    ensures var d := DoServe(w, t, choice); d.t.who == t.who && ServerField(d.t)
  {
  }

  lemma ActTouches(w: World, s: nat, t: Session, choice: Choice)
    requires CanAct(w, t, choice) && Ready(w, s, t)
    ensures var d := DoAct(w, s, t, choice);
      Touches(w, s, Refers(t), Refers(d.t), d.change) && d.t.who == t.who && ServerField(d.t)
  {
    if IsOpening(t.pc) {
      OpenTouches(w, s, t, choice);
      OpenKeeps(w, s, t, choice);
    } else if IsAcquiring(t.pc) {
      AcquireTouches(w, s, t, choice);
      AcquireKeeps(w, s, t, choice);
    } else {
      ServeTouches(w, s, t, choice);
      ServeKeeps(w, t, choice);
    }
  }

  ghost predicate Numbered(w: World) { forall c :: c in w.conns ==> c < w.next }

  ghost predicate LinearInv(w: World) { SessionsInv(w) && NamedIsHeld(w) && HeldIsNamed(w) && Numbered(w) }

  /** The world after session `s` went on to `t`. */
  function Moved(w: World, s: nat, t: Session, change: Change, log: seq<Wrote>): World {
    w.(sessions := w.sessions[s := t], conns := Effect(w.conns, change), next := NextNumber(w, change), log := log)
  }

  lemma MoveLinear(w: World, s: nat, t: Session, change: Change, log: seq<Wrote>)
    requires LinearInv(w) && s in w.sessions && t.who == w.sessions[s].who && ServerField(t)
    requires Touches(w, s, Refers(w.sessions[s]), Refers(t), change)
    ensures LinearInv(Moved(w, s, t, change, log))
  {
    var after := Moved(w, s, t, change, log);
    forall c: nat, o: nat | HeldBy(after.conns, c, o) ensures o in after.sessions && Refers(after.sessions[o]) == Some(c) {
      assert Some(c) != Refers(t) ==> HeldBy(w.conns, c, o);
    }
  }

  lemma LinearStep(w: World, step: Step)
    requires LinearInv(w) && Enabled(w, step)
    ensures LinearInv(Apply(w, step))
  {
    if step.Act? {
      var t := w.sessions[step.s];
      ActTouches(w, step.s, t, step.choice);
      var d := DoAct(w, step.s, t, step.choice);
      MoveLinear(w, step.s, d.t, d.change, Apply(w, step).log);
    } else {
      forall c: nat, o: nat | HeldBy(Apply(w, step).conns, c, o) ensures HeldBy(w.conns, c, o) {}
    }
  }

  lemma {:induction false} LinearRun(w: World, steps: seq<Step>)
    requires LinearInv(w) && Valid(w, steps)
    ensures LinearInv(After(w, steps))
    decreases |steps|
  {
    if steps != [] {
      LinearStep(w, steps[0]);
      LinearRun(Apply(w, steps[0]), steps[1..]);
    }
  }

  /** A number that has been given and is gone does not come back. */
  lemma {:induction false} NeverReused(w: World, steps: seq<Step>, c: nat)
    requires LinearInv(w) && Valid(w, steps) && c < w.next && c !in w.conns
    ensures c !in After(w, steps).conns && After(w, steps).next >= w.next
    decreases |steps|
  {
    if steps != [] {
      if steps[0].Act? { ActTouches(w, steps[0].s, w.sessions[steps[0].s], steps[0].choice); }
      LinearStep(w, steps[0]);
      NeverReused(Apply(w, steps[0]), steps[1..], c);
    }
  }

  /** Acquires minus releases of session `s` in one step, as the step itself accounts for them. */
  function Net(w: World, step: Step, s: nat): int
    requires Enabled(w, step)
  {
    if step.Act? && step.s == s then
      match DoAct(w, s, w.sessions[s], step.choice).change
      case Acquired(_, _) => 1
      case Released(_, _) => -1
      case _ => 0
    else 0
  }

  /** Acquires minus releases of session `s` over a run. */
  ghost function Balance(w: World, steps: seq<Step>, s: nat): int
    requires Valid(w, steps)
    decreases |steps|
  {
    if steps == [] then 0 else Net(w, steps[0], s) + Balance(Apply(w, steps[0]), steps[1..], s)
  }

  function Holding(w: World, s: nat): int { if s in w.sessions && Refers(w.sessions[s]).Some? then 1 else 0 }

  lemma NetIsHolding(w: World, step: Step, s: nat)
    requires LinearInv(w) && Enabled(w, step)
    ensures Net(w, step, s) == Holding(Apply(w, step), s) - Holding(w, s)
  {
    if step.Act? { ActTouches(w, step.s, w.sessions[step.s], step.choice); }
  }

  lemma {:induction false} BalanceIsHolding(w: World, steps: seq<Step>, s: nat)
    requires LinearInv(w) && Valid(w, steps)
    ensures Balance(w, steps, s) == Holding(After(w, steps), s) - Holding(w, s)
    decreases |steps|
  {
    if steps != [] {
      NetIsHolding(w, steps[0], s);
      LinearStep(w, steps[0]);
      BalanceIsHolding(Apply(w, steps[0]), steps[1..], s);
    }
  }

  /**
   In every run, a session's acquires minus its releases is 0 or 1: 1 exactly when its program
   names a connection, which while it serves is `session.Server`, and 0 once it has ended.  The
   connection it names is the only one checked out to it, and nobody else's.
   */
  lemma ConnectionLinearity(setup: Setup, mode: PoolingMode, steps: seq<Step>, s: nat)
    requires Valid(Begin(setup, mode), steps)
    requires s in After(Begin(setup, mode), steps).sessions
    ensures var w := After(Begin(setup, mode), steps);
      var t := w.sessions[s];
      && Balance(Begin(setup, mode), steps, s) == (if Refers(t).Some? then 1 else 0)
      && (UsesServer(t.pc) ==> Refers(t) == t.server)
      && (t.pc.Ended? ==> Refers(t).None?)
      && (forall c: nat :: HeldBy(w.conns, c, s) <==> Refers(t) == Some(c))
  {
    var w := Begin(setup, mode);
    LinearRun(w, steps);
    BalanceIsHolding(w, steps, s);
  }
}
