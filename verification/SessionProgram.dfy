/**
 The code one session runs, as the gateway has it: a loop that looks for a connection to shake
 hands on, a search for a connection to run a statement on, and the loop that reads the client.
 Every call that can block is a step of the shared machine, after which other sessions, the pool
 and the operator may have done anything they can do; the answers of the pool, the servers and
 the client are whatever they are.
 */
module SessionProgram {

  import opened Common
  import opened Lifecycle

  class Program {
    const s: nat
    /** The worlds the machine can be in. */
    ghost const reached: World -> bool
    var w: World
    /** How the calls to come turn out, and what everybody else does after each of them. */
    var answers: seq<Choice>
    var meanwhile: seq<seq<Step>>

    ghost predicate Valid()
      reads this
    {
      Closed(reached) && reached(w) && LinearInv(w) && s in w.sessions
    }

    function Me(): Session
      requires s in w.sessions
      reads this
    {
      w.sessions[s]
    }

    /** A client connects, to a world some run from `start` has led to. */
    constructor (ghost start: World, before: World, s: nat, answers: seq<Choice>, meanwhile: seq<seq<Step>>)
      requires Reaches(start, before) && LinearInv(before) && Enabled(before, Join(s))
      ensures Valid() && this.s == s && Me().pc == Opening(0)
      ensures forall x :: reached(x) <==> Reaches(start, x)
    {
      this.s, this.answers, this.meanwhile := s, answers, meanwhile;
      w := Apply(before, Join(s));
      reached := x => Reaches(start, x);
      ReachesIsClosed(start);
      LinearStep(before, Join(s));
      StepOn(x => Reaches(start, x), before, Join(s));
    }

    /** What a session can rely on others for: it and what it names are left alone. */
    twostate predicate Spared()
      reads this
    {
      && old(s in w.sessions) && s in w.sessions && Me() == old(Me()) && w.setup == old(w.setup)
      && (Refers(Me()).Some? && Refers(Me()).value in old(w.conns) ==>
            Refers(Me()).value in w.conns && w.conns[Refers(Me()).value] == old(w.conns[Refers(Me()).value]))
    }

    /** One step of somebody else. */
    method Other(step: Step)
      requires Valid()
      modifies `w
      ensures Valid() && Spared()
    {
      if Enabled(w, step) && !(step.Act? && step.s == s) {
        LeavesAlone(w, step, s);
        LinearStep(w, step);
        StepOn(reached, w, step);
        w := Apply(w, step);
      }
    }

    /** Everybody else, for a while. */
    method Others()
      requires Valid()
      modifies `w, `meanwhile
      ensures Valid() && Spared()
    {
      if meanwhile == [] { return; }
      var steps := meanwhile[0];
      meanwhile := meanwhile[1..];
      for i := 0 to |steps|
        invariant Valid() && Spared()
      {
        Other(steps[i]);
      }
    }

    /** One step of this session, and then everybody else. */
    method Perform(choice: Choice)
      requires Valid() && CanAct(w, Me(), choice)
      modifies `w, `meanwhile
      ensures Valid() && w.setup == old(w.setup)
      ensures var d := DoAct(old(w), s, old(Me()), choice);
        Me() == d.t && Finds(old(w.conns), w.conns, Refers(d.t), d.change)
    {
      ActFinds(w, s, choice);
      StepOn(reached, w, Act(s, choice));
      w := Apply(w, Act(s, choice));
      Others();
    }

    /** How the next call turns out; one that makes no sense here turns out `otherwise`. */
    method Answer(otherwise: Choice) returns (choice: Choice)
      requires Valid() && CanAct(w, Me(), otherwise)
      modifies `answers
      ensures CanAct(w, Me(), choice)
      ensures if old(answers) == [] then choice == otherwise && answers == [] else |answers| < |old(answers)|
    {
      choice := otherwise;
      if answers != [] {
        if CanAct(w, Me(), answers[0]) { choice := answers[0]; }
        answers := answers[1..];
      }
    }

    // One call each.

    /** What every call keeps. */
    twostate predicate Went(t: Session)
      reads this
    {
      Valid() && |answers| <= |old(answers)| && w.setup == old(w.setup) && Me() == t
    }

    /** acquireBackendFor, for the handshake. */
    method AcquireToShake() returns (got: bool, c: nat)
      requires Valid() && Me().pc.Opening?
      modifies this
      ensures got ==> Went(old(Me()).(pc := Shaking(old(Me()).pc.tries, c)))
      ensures !got ==> Went(old(Me()).(pc := Ended))
    {
      var a := Answer(Fails(false));
      Perform(a);
      got, c := !a.Fails?, if a.Fails? then 0 else a.c;
    }

    /** The connection drawn is not one this session can shake hands on. */
    predicate Wrong(k: Conn)
      requires s in w.sessions
      reads this
    {
      k.ready && (!w.setup.identityFirst || !w.setup.creds || (k.recorded != Nobody && k.recorded != Me().who.stated))
    }

    /** The handshake, or the discovery that the connection cannot carry one. */
    method Handshake() returns (ok: bool, wrong: bool)
      requires Valid() && Me().pc.Shaking?
      modifies this
      ensures wrong == old(Me().pc.c in w.conns && Wrong(w.conns[Me().pc.c])) && !(ok && wrong)
      ensures var pc := old(Me()).pc;
        Went(old(Me()).(pc := if ok then Readying(pc.c) else if wrong then Dropping(pc.tries, pc.c) else GivingBack(pc.c)))
    {
      assert HeldBy(w.conns, Refers(Me()).value, s);
      wrong := Wrong(w.conns[Me().pc.c]);
      var a := Answer(Fails(false));
      Perform(a);
      ok := !wrong && a.Works?;
    }

    method GiveUp()
      requires Valid() && (Me().pc.Dropping? || Me().pc.GivingBack?)
      modifies this
      ensures var pc := old(Me()).pc;
        Went(old(Me()).(pc := if pc.Dropping? && pc.tries + 1 < IdentityAttempts then Opening(pc.tries + 1) else Ended))
    {
      assert HeldBy(w.conns, Refers(Me()).value, s);
      var a := Answer(Releases(false, 0));
      Perform(a);
    }

    method MarkReady()
      requires Valid() && Me().pc.Readying?
      modifies this
      ensures Went(old(Me()).(pc := Naming(old(Me()).pc.c)))
    {
      assert HeldBy(w.conns, Refers(Me()).value, s);
      Perform(Works);
    }

    method SetIdentity()
      requires Valid() && Me().pc.Naming?
      modifies this
      ensures Went(old(Me()).(pc := Entering, server := Some(old(Me()).pc.c)))
    {
      assert HeldBy(w.conns, Refers(Me()).value, s);
      Perform(Works);
    }

    // openSession

    /** The handshake succeeded: the connection is marked ready and given the session's identity. */
    method Adopt()
      requires Valid() && Me().pc.Readying?
      modifies this
      ensures Went(old(Me()).(pc := Entering, server := Some(old(Me()).pc.c)))
    {
      MarkReady();
      SetIdentity();
    }

    /** The session is open, has another attempt to make, or is over. */
    predicate Attempted(tries: nat, ok: bool, wrong: bool)
      requires s in w.sessions
      reads this
    {
      if ok then Me().pc.Entering? && Me().server.Some?
      else Me().pc == if wrong && tries + 1 < IdentityAttempts then Opening(tries + 1) else Ended
    }

    method ShakeHands() returns (ok: bool, wrong: bool)
      requires Valid() && Me().pc.Shaking?
      modifies this
      ensures Valid() && |answers| <= |old(answers)| && Attempted(old(Me()).pc.tries, ok, wrong)
    {
      ok, wrong := Handshake();
      if ok { Adopt(); } else { GiveUp(); }
    }

    /** One attempt, on one connection. */
    method Attempt() returns (ok: bool, wrong: bool)
      requires Valid() && Me().pc.Opening?
      modifies this
      ensures Valid() && |answers| <= |old(answers)| && Attempted(old(Me()).pc.tries, ok, wrong)
    {
      ok, wrong := false, false;
      var got, c := AcquireToShake();
      if got { ok, wrong := ShakeHands(); }
    }

    method OpenSession() returns (ok: bool)
      requires Valid() && Me().pc == Opening(0)
      modifies this
      ensures Valid() && |answers| <= |old(answers)|
      ensures if ok then Me().pc.Entering? && Me().server.Some? else Me().pc.Ended?
    {
      ok := false;
      for attempt := 0 to IdentityAttempts
        invariant Valid() && |answers| <= |old(answers)| && !ok
        invariant Me().pc == if attempt < IdentityAttempts then Opening(attempt) else Ended
      {
        var wrong;
        ok, wrong := Attempt();
        if ok || !wrong { return; }
      }
    }

    // acquireForSession

    /** A connection from the balancer's choice, or from the session's home. */
    method AcquireAnother() returns (got: bool, c: nat)
      requires Valid() && (Me().pc.Seeking? || Me().pc.GoingHome?)
      modifies this
      ensures var again := old(Me()).pc.again;
        if old(Me()).pc.Seeking? then Went(old(Me()).(pc := if got then Judging(again, c) else GoingHome(again)))
        else Went(old(Me()).(pc := if got then JudgingHome(again, c) else Failing))
    {
      var a := Answer(Fails(false));
      Perform(a);
      got, c := !a.Fails?, if a.Fails? then 0 else a.c;
    }

    /** The session's, waiting for the replica first if it has to. */
    function Taken(t: Session, again: bool, c: nat, lags: bool): Session {
      if lags && !again then t.(pc := Catching(c)) else t.(pc := Replaying, server := Some(c))
    }

    /** Is it usable as it is, or can Pontus authenticate it as this session? */
    method Judge() returns (ok: bool, lags: bool)
      requires Valid() && Me().pc.Judging?
      modifies this
      ensures var t := old(Me());
        && (ok ==> Went(Taken(t, t.pc.again, t.pc.c, lags)) && t.pc.c in w.conns && Usable(w.conns[t.pc.c], t.who))
        && (!ok ==> Went(t.(pc := Rejecting(t.pc.again, t.pc.c))))
    {
      assert HeldBy(w.conns, Refers(Me()).value, s);
      var c := Me().pc.c;
      var k := w.conns[c];
      var a := Answer(Fails(false));
      ok := Usable(k, Me().who) || (!k.ready && w.setup.creds && Me().who.canAuth && !a.Fails?);
      lags := a.NeedsLsn?;
      Perform(a);
    }

    method JudgeHome() returns (ok: bool, lags: bool)
      requires Valid() && Me().pc.JudgingHome?
      modifies this
      ensures var t := old(Me());
        && (ok ==> Went(Taken(t, t.pc.again, t.pc.c, lags)) && t.pc.c in w.conns && Usable(w.conns[t.pc.c], t.who))
        && (!ok ==> Went(t.(pc := RejectingHome(t.pc.c))))
    {
      assert HeldBy(w.conns, Refers(Me()).value, s);
      ok := Usable(w.conns[Me().pc.c], Me().who);
      var a := Answer(Works);
      lags := a.NeedsLsn?;
      Perform(a);
    }

    method Reject()
      requires Valid() && (Me().pc.Rejecting? || Me().pc.RejectingHome? || Me().pc.Leaving?)
      modifies this
      ensures var t := old(Me());
        Went(t.(pc := if t.pc.Rejecting? then GoingHome(t.pc.again) else if t.pc.Leaving? then Seeking(true) else Failing))
    {
      assert HeldBy(w.conns, Refers(Me()).value, s);
      var a := Answer(Releases(false, 0));
      Perform(a);
    }

    /** WaitLSN on a replica. */
    method CatchUp() returns (ok: bool)
      requires Valid() && Me().pc.Catching?
      modifies this
      ensures var t := old(Me());
        Went(if ok then t.(pc := Replaying, server := Some(t.pc.c)) else t.(pc := Leaving(t.pc.c)))
    {
      assert HeldBy(w.conns, Refers(Me()).value, s);
      var a := Answer(Fails(false));
      Perform(a);
      ok := a.Works?;
    }

    /** The session has a connection, or a replica to wait for. */
    twostate predicate Got(again: bool)
      reads this
    {
      Valid() && |answers| <= |old(answers)| && ((Me().pc.Replaying? && Me().server.Some?) || (!again && Me().pc.Catching?))
    }

    /** The balancer's choice. */
    method TryBalanced(again: bool) returns (ok: bool)
      requires Valid() && Me().pc == Seeking(again)
      modifies this
      ensures if ok then Got(again) else Valid() && |answers| <= |old(answers)| && Me().pc == GoingHome(again)
    {
      var got, c := AcquireAnother();
      if !got { return false; }
      var lags;
      ok, lags := Judge();
      if !ok { Reject(); }
    }

    /** The fall-back to the backend that carried the handshake. */
    method TryHome(again: bool) returns (ok: bool)
      requires Valid() && Me().pc == GoingHome(again)
      modifies this
      ensures if ok then Got(again) else Valid() && |answers| <= |old(answers)| && Me().pc == Failing
    {
      var got, c := AcquireAnother();
      if !got { return false; }
      var lags;
      ok, lags := JudgeHome();
      if !ok { Reject(); }
    }

    method AcquireForSession(again: bool) returns (ok: bool)
      requires Valid() && Me().pc == Seeking(again)
      modifies this
      ensures if ok then Got(again) else Valid() && |answers| <= |old(answers)| && Me().pc == Failing
    {
      ok := TryBalanced(again);
      if !ok { ok := TryHome(again); }
    }

    /** A connection for a statement: a replica that does not catch up is given back, and the next is not waited for. */
    method EnsureServer() returns (ok: bool)
      requires Valid() && Me().pc == Seeking(false)
      modifies this
      ensures Valid() && |answers| <= |old(answers)|
      ensures if ok then Me().pc.Replaying? && Me().server.Some? else Me().pc.Failing?
    {
      ok := AcquireForSession(false);
      if ok && Me().pc.Catching? {
        ok := CatchUp();
        if !ok {
          Reject();
          ok := AcquireForSession(true);
        }
      }
    }

    // executeRequest

    method Replay() returns (ok: bool)
      requires Valid() && Me().pc.Replaying?
      modifies this
      ensures Went(old(Me()).(pc := if ok then Writing else Failing))
    {
      assert HeldBy(w.conns, Refers(Me()).value, s);
      var a := Answer(Fails(false));
      Perform(a);
      ok := a.Works?;
    }

    method Write() returns (ok: bool)
      requires Valid() && Me().pc.Writing?
      modifies this
      ensures Went(if ok then old(Me()).(pc := Relaying) else old(Me()).(pc := Failing, server := None))
    {
      assert HeldBy(w.conns, Refers(Me()).value, s);
      var a := Answer(Fails(false));
      Perform(a);
      ok := a.Works?;
    }

    method Relay() returns (failed: bool)
      requires Valid() && Me().pc.Relaying?
      modifies this
      ensures Valid() && |answers| <= |old(answers)| && Me().pc == Settling(failed)
    {
      assert HeldBy(w.conns, Refers(Me()).value, s);
      var a := Answer(Replies(Partial, false, true, true, false, 0));
      Perform(a);
      failed := a.err && !a.excused;
    }

    method Settle()
      requires Valid() && Me().pc.Settling?
      modifies this
      ensures Valid() && |answers| <= |old(answers)| && Me().pc == if old(Me()).pc.failed then Failing else AfterChain
    {
      assert Refers(Me()).Some? ==> HeldBy(w.conns, Refers(Me()).value, s);
      var a := Answer(Releases(false, 0));
      Perform(a);
    }

    method ExecuteRequest() returns (err: bool)
      requires Valid() && (Me().pc == Seeking(false) || Me().pc.Replaying?)
      modifies this
      ensures Valid() && |answers| <= |old(answers)| && Me().pc == if err then Failing else AfterChain
    {
      var ok := true;
      if Me().pc.Seeking? { ok := EnsureServer(); }
      if ok { ok := Replay(); }
      if ok { ok := Write(); }
      if !ok { return true; }
      err := Relay();
      Settle();
    }

    // handleClient

    /** The release decisions of the session loop: after the startup, and after a request. */
    method Decide()
      requires Valid() && (Me().pc.Entering? || Me().pc.AfterChain?)
      modifies this
      ensures Valid() && |answers| <= |old(answers)| && Me().pc == Waiting
    {
      assert Refers(Me()).Some? ==> HeldBy(w.conns, Refers(Me()).value, s);
      var a := Answer(Releases(false, 0));
      Perform(a);
    }

    /** The release on the way out. */
    method Finish()
      requires Valid() && (Me().pc.Failing? || Me().pc.Departing?)
      modifies this
      ensures Valid() && |answers| <= |old(answers)| && Me().pc == Ended
    {
      assert Refers(Me()).Some? ==> HeldBy(w.conns, Refers(Me()).value, s);
      var a := Answer(Releases(false, 0));
      Perform(a);
    }

    /** Reads a request and passes it through the interceptors. */
    method Listen()
      requires Valid() && Me().pc.Waiting?
      modifies this
      ensures Valid() && if old(answers) == [] then Me().pc.Departing? else |answers| < |old(answers)|
      ensures var pc := Me().pc;
        pc.Waiting? || pc.Departing? || pc.Failing? || pc.AfterChain? || pc == Seeking(false) || pc.Replaying?
    {
      var a := Answer(ClientLeaves);
      Perform(a);
    }

    /**
     A whole session.  Whatever the pool, the servers, the client and the other sessions do, it
     comes to an end, and when it does nothing is checked out to it.
     */
    method HandleClient()
      requires Valid() && Me().pc == Opening(0)
      modifies this
      ensures Valid() && Me().pc.Ended? && forall c: nat :: !HeldBy(w.conns, c, s)
    {
      var ok := OpenSession();
      if ok {
        Decide();
        ServeRequests();
      }
      assert Refers(Me()).None?;
    }

    method ServeRequests()
      requires Valid() && Me().pc.Waiting?
      modifies this
      ensures Valid() && Me().pc.Ended?
    {
      while !Me().pc.Ended?
        invariant Valid() && (Me().pc.Waiting? || Me().pc.Ended?)
        decreases !Me().pc.Ended?, |answers|
      {
        Listen();
        if Me().pc.Seeking? || Me().pc.Replaying? {
          var err := ExecuteRequest();
        }
        if Me().pc.AfterChain? { Decide(); } else if !Me().pc.Waiting? { Finish(); }
      }
    }
  }

  /** The connection a session names after a step is as the step left it. */
  predicate Finds(before: map<nat, Conn>, after: map<nat, Conn>, named: Option<nat>, change: Change) {
    named.Some? ==>
      && named.value in after
      && match change
         case Same => named.value in before && after[named.value] == before[named.value]
         case Mark(_, k) => after[named.value] == k
         case Acquired(_, k) => after[named.value] == k
         case Released(_, _) => true
  }

  /** A whole session is part of a run: what it leads to, a run from the same start leads to. */
  method ServeClient(ghost start: World, before: World, s: nat, answers: seq<Choice>, meanwhile: seq<seq<Step>>)
    returns (after: World)
    requires Reaches(start, before) && LinearInv(before) && Enabled(before, Join(s))
    ensures Reaches(start, after) && s in after.sessions && after.sessions[s].pc.Ended?
    ensures forall c: nat :: !HeldBy(after.conns, c, s)
  {
    var p := new Program(start, before, s, answers, meanwhile);
    p.HandleClient();
    after := p.w;
  }

  /** Where a session's own step leaves it. */
  lemma ActFinds(w: World, s: nat, choice: Choice)
    requires LinearInv(w) && s in w.sessions && CanAct(w, w.sessions[s], choice)
    ensures var d := DoAct(w, s, w.sessions[s], choice);
      var after := Apply(w, Act(s, choice));
      && LinearInv(after) && after.setup == w.setup && s in after.sessions && after.sessions[s] == d.t
      && Finds(w.conns, after.conns, Refers(d.t), d.change)
  {
    ActTouches(w, s, w.sessions[s], choice);
    LinearStep(w, Act(s, choice));
  }

  /** Nobody else's step touches a session or what it names. */
  lemma LeavesAlone(w: World, step: Step, s: nat)
    requires LinearInv(w) && Enabled(w, step) && s in w.sessions && !(step.Act? && step.s == s)
    ensures var after := Apply(w, step);
      && s in after.sessions && after.sessions[s] == w.sessions[s] && after.setup == w.setup
      && (Refers(w.sessions[s]).Some? ==>
            var c := Refers(w.sessions[s]).value; c in after.conns && c in w.conns && after.conns[c] == w.conns[c])
  {
    if Refers(w.sessions[s]).Some? {
      assert HeldBy(w.conns, Refers(w.sessions[s]).value, s);
    }
    if step.Act? {
      var t := w.sessions[step.s];
      if Refers(t).Some? { assert HeldBy(w.conns, Refers(t).value, step.s); }
      ActTouches(w, step.s, t, step.choice);
    }
  }
}
