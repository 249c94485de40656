/**
 Connections that must not be used again.  A connection is marked broken where its state is not
 known any more, and it is the release that destroys it; in between anything can happen.
 */
module Retirement {

  import opened Common
  import opened Lifecycle

  /**
   The step leaves connection `c` in a state nobody can rely on: a ready connection drawn for a
   handshake that has to start afresh or for another account, a replay that failed part-way, a
   statement that could not be written, or a reply cut off by the deadline.
   */
  predicate Condemns(w: World, step: Step, c: nat)
    requires Enabled(w, step)
  {
    step.Act? && c in w.conns &&
    var t := w.sessions[step.s];
    match t.pc
    case Shaking(_, d) =>
      d == c && w.conns[c].ready && (RelaysStartup(w.setup) || !BelongsTo(w.conns[c].recorded, t.who.stated))
    case Replaying => t.server == Some(c) && step.choice.Fails?
    case Writing => t.server == Some(c) && step.choice.Fails?
    case Relaying => t.server == Some(c) && step.choice.deadline
    case _ => false
  }

  /** `c` is gone, or is broken and still with session `s`. */
  predicate Doomed(w: World, c: nat, s: nat) {
    c < w.next && (c in w.conns ==> w.conns[c].broken && w.conns[c].heldBy == Some(s))
  }

  /** The change mends no broken connection, and destroys the one it releases. */
  predicate MendsNothing(w: World, change: Change) {
    match change
    case Mark(c, k) => c in w.conns && w.conns[c].broken ==> k.broken
    case Released(c, left) => c in w.conns && w.conns[c].broken ==> left.None?
    case _ => true
  }

  lemma OpenMendsNothing(w: World, s: nat, t: Session, choice: Choice)
    requires IsOpening(t.pc) && CanOpen(w, t, choice)
    ensures MendsNothing(w, DoOpen(w, s, t, choice).change)
  {
  }

  lemma AcquireMendsNothing(w: World, s: nat, t: Session, choice: Choice)
    requires IsAcquiring(t.pc) && CanAcquire(w, t, choice)
    ensures MendsNothing(w, DoAcquire(w, s, t, choice).change)
  {
  }

  lemma ServeMendsNothing(w: World, t: Session, choice: Choice)
    requires !IsOpening(t.pc) && !IsAcquiring(t.pc) && CanServe(w, t, choice)
    ensures MendsNothing(w, DoServe(w, t, choice).change)
  {
  }

  lemma ActMendsNothing(w: World, s: nat, t: Session, choice: Choice)
    requires CanAct(w, t, choice)
    ensures MendsNothing(w, DoAct(w, s, t, choice).change)
  {
    if IsOpening(t.pc) {
      OpenMendsNothing(w, s, t, choice);
    } else if IsAcquiring(t.pc) {
      AcquireMendsNothing(w, s, t, choice);
    } else {
      ServeMendsNothing(w, t, choice);
    }
  }

  lemma DoomedStep(w: World, step: Step, c: nat, s: nat)
    requires LinearInv(w) && Enabled(w, step) && Doomed(w, c, s)
    ensures Doomed(Apply(w, step), c, s)
  {
    if step.Act? {
      var t := w.sessions[step.s];
      ActTouches(w, step.s, t, step.choice);
      ActMendsNothing(w, step.s, t, step.choice);
    }
  }

  lemma {:induction false} DoomedRun(w: World, steps: seq<Step>, c: nat, s: nat)
    requires LinearInv(w) && Valid(w, steps) && Doomed(w, c, s)
    ensures Doomed(After(w, steps), c, s)
    decreases |steps|
  {
    if steps != [] {
      DoomedStep(w, steps[0], c, s);
      LinearStep(w, steps[0]);
      DoomedRun(Apply(w, steps[0]), steps[1..], c, s);
    }
  }

  lemma CondemnedIsDoomed(w: World, step: Step, c: nat)
    requires LinearInv(w) && Enabled(w, step) && Condemns(w, step, c)
    ensures Doomed(Apply(w, step), c, step.s)
  {
    assert Refers(w.sessions[step.s]) == Some(c);
    assert HeldBy(w.conns, c, step.s);
  }

  /**
   In every run, whatever happens afterwards: a connection that a step condemned stays with the
   session it was condemned under until it is destroyed, and no other session ever has it.
   */
  lemma CondemnedIsGone(setup: Setup, mode: PoolingMode, before: seq<Step>, step: Step, since: seq<Step>, c: nat)
    requires Valid(Begin(setup, mode), before)
    requires var w := After(Begin(setup, mode), before);
      Enabled(w, step) && Condemns(w, step, c) && Valid(Apply(w, step), since)
    ensures var now := After(Apply(After(Begin(setup, mode), before), step), since);
      && (c in now.conns ==> now.conns[c].heldBy == Some(step.s))
      && (forall o :: o in now.sessions && o != step.s ==> Refers(now.sessions[o]) != Some(c))
  {
    var w := After(Begin(setup, mode), before);
    LinearRun(Begin(setup, mode), before);
    CondemnedIsDoomed(w, step, c);
    LinearStep(w, step);
    DoomedRun(Apply(w, step), since, c, step.s);
    LinearRun(Apply(w, step), since);
  }

  // ---------------------------------------------------------------- the handshake's attempts

  /** Session `s` gives back a connection it could not shake hands on. */
  predicate IsDrop(w: World, step: Step, s: nat) { step.Act? && step.s == s && s in w.sessions && w.sessions[s].pc.Dropping? }

  ghost function Drops(w: World, steps: seq<Step>, s: nat): nat
    requires Valid(w, steps)
    decreases |steps|
  {
    if steps == [] then 0 else (if IsDrop(w, steps[0], s) then 1 else 0) + Drops(Apply(w, steps[0]), steps[1..], s)
  }

  /** The session has dropped `n` connections: it is past its attempts, or has some left. */
  predicate Counted(w: World, s: nat, n: nat) {
    if s !in w.sessions then n == 0
    else
      match w.sessions[s].pc
      case Opening(tries) => tries == n < 8
      case Shaking(tries, _) => tries == n < 8
      case Dropping(tries, _) => tries == n < 8
      case Ended => n <= 8
      case _ => n < 8
  }

  lemma CountedStep(w: World, step: Step, s: nat, n: nat)
    requires Enabled(w, step) && Counted(w, s, n)
    ensures Counted(Apply(w, step), s, n + if IsDrop(w, step, s) then 1 else 0)
  {
    if step.Act? && step.s == s {
      var t := w.sessions[s];
      if IsAcquiring(t.pc) {
        AcquireStaysOpened(w, s, t, step.choice);
      } else if !IsOpening(t.pc) {
        ServeStaysOpened(w, t, step.choice);
      }
    }
  }

  lemma AcquireStaysOpened(w: World, s: nat, t: Session, choice: Choice)
    requires IsAcquiring(t.pc) && CanAcquire(w, t, choice)
    ensures !IsOpening(DoAcquire(w, s, t, choice).t.pc)
  {
  }

  lemma ServeStaysOpened(w: World, t: Session, choice: Choice)
    requires !IsOpening(t.pc) && !IsAcquiring(t.pc) && CanServe(w, t, choice)
    ensures !IsOpening(DoServe(w, t, choice).t.pc) && !t.pc.Ended?
  {
  }

  lemma {:induction false} CountedRun(w: World, steps: seq<Step>, s: nat, n: nat)
    requires Valid(w, steps) && Counted(w, s, n)
    ensures Counted(After(w, steps), s, n + Drops(w, steps, s))
    decreases |steps|
  {
    if steps != [] {
      CountedStep(w, steps[0], s, n);
      CountedRun(Apply(w, steps[0]), steps[1..], s, n + if IsDrop(w, steps[0], s) then 1 else 0);
    }
  }

  /** In every run a session that drops a connection tries again, until it has dropped eight: then it ends. */
  lemma EightAttempts(setup: Setup, mode: PoolingMode, steps: seq<Step>, step: Step, s: nat)
    requires Valid(Begin(setup, mode), steps)
    requires var w := After(Begin(setup, mode), steps); Enabled(w, step) && IsDrop(w, step, s)
    ensures var w := Apply(After(Begin(setup, mode), steps), step);
      var dropped := Drops(Begin(setup, mode), steps, s) + 1;
      && s in w.sessions && dropped <= 8
      && (dropped < 8 <==> w.sessions[s].pc.Opening?) && (dropped == 8 <==> w.sessions[s].pc.Ended?)
  {
    CountedRun(Begin(setup, mode), steps, s, 0);
  }
}
