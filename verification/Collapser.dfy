/**
 Request collapsing: identical reads in flight share one execution.  The first request for a
 key leads; the others wait for its record and write what it captured.  The runs below are all
 interleavings of any number of requests on any number of keys.
 */
module Collapser {
  import opened Common
  import opened Framing
  import opened ReplyScanner
  import opened ReplyRelay

  // ---------------------------------------------------------------- what a leader records

  /**
   A leader's response: whether the relay failed, the reply it read, what the capture buffer
   already held, and the bound asked for.
   */
  datatype Response = Response(relayFailed: bool, reply: seq<byte>, base: seq<byte>, limit: int)

  /** The bound is looked at when something is written. */
  predicate Overflows(r: Response) { r.reply != [] && |r.base| + |r.reply| > Bound(r.limit) }

  /** The shared record: `data` and `err` are written by the leader before it lets the followers go. */
  datatype Record = Record(released: bool, data: seq<byte>, err: bool, response: Option<Response>)

  function RecordedData(r: Response): seq<byte> { if Overflows(r) then [] else r.base + r.reply }

  function RecordedErr(r: Response): bool { r.relayFailed || Overflows(r) }

  /** The leader's capture and the two assignments that follow its relay. */
  method LeaderResponse(end: ResponseEnd, arrivals: seq<Arrival>, pumpFails: bool, base: seq<byte>, limit: int)
    returns (reply: Reply, data: seq<byte>, err: bool)
    ensures reply == RelayFrom(end, Start, arrivals, pumpFails)
    ensures err <==> RecordedErr(Response(!reply.verdict.Finished?, reply.sent, base, limit))
    ensures !err ==> data == RecordedData(Response(false, reply.sent, base, limit))
  {
    var capture := new Capture(base, limit);
    var readOnlyError;
    reply, readOnlyError := WithCapture(end, arrivals, pumpFails, capture, base);
    data := capture.buf;
    err := !reply.verdict.Finished? || capture.overflowed;
  }

  // ---------------------------------------------------------------- the protocol

  datatype Pc =
    | Looking(key: nat)              // about to take the lock and look the key up
    | Following(call: nat)           // waiting on a call's wait group
    | Leading(call: nat, key: nat)   // executing
    | Leaving(call: nat, key: nat)   // executed or given up; the deferred clean-up has to run
    | Unlisted(call: nat)            // the key is removed; the wait group is not done yet
    | Finished                       // the leader has returned
    | Served(call: nat, data: seq<byte>) // a follower wrote the record's data
    | RunsItself                     // a follower found an error and executes on its own

  datatype State = State(requests: map<nat, Pc>, inFlight: map<nat, nat>, calls: map<nat, Record>, nextCall: nat)

  const Init := State(map[], map[], map[], 0)

  datatype Step =
    | Arrive(q: nat, key: nat)
    | Look(q: nat)
    | Respond(q: nat, response: Response)
    | GiveUp(q: nat)      // an early return: no connection, no replay, no write
    | Unlist(q: nat)
    | Release(q: nat)
    | Resume(q: nat)

  predicate Enabled(s: State, step: Step) {
    match step
    case Arrive(q, _) => q !in s.requests
    case Look(q) => q in s.requests && s.requests[q].Looking?
    case Respond(q, _) => q in s.requests && s.requests[q].Leading? && s.requests[q].call in s.calls
    case GiveUp(q) => q in s.requests && s.requests[q].Leading?
    case Unlist(q) => q in s.requests && s.requests[q].Leaving?
    case Release(q) => q in s.requests && s.requests[q].Unlisted? && s.requests[q].call in s.calls
    case Resume(q) =>
      q in s.requests && s.requests[q].Following? && s.requests[q].call in s.calls && s.calls[s.requests[q].call].released
  }

  function Apply(s: State, step: Step): State
    requires Enabled(s, step)
  {
    match step
    case Arrive(q, key) => s.(requests := s.requests[q := Looking(key)])
    case Look(q) =>
      var key := s.requests[q].key;
      if key in s.inFlight then s.(requests := s.requests[q := Following(s.inFlight[key])])
      else
        State(s.requests[q := Leading(s.nextCall, key)], s.inFlight[key := s.nextCall],
              s.calls[s.nextCall := Record(false, [], false, None)], s.nextCall + 1)
    case Respond(q, r) =>
      var c := s.requests[q].call;
      s.(requests := s.requests[q := Leaving(c, s.requests[q].key)],
         calls := s.calls[c := Record(false, RecordedData(r), RecordedErr(r), Some(r))])
    case GiveUp(q) => s.(requests := s.requests[q := Leaving(s.requests[q].call, s.requests[q].key)])
    case Unlist(q) =>
      s.(requests := s.requests[q := Unlisted(s.requests[q].call)], inFlight := s.inFlight - {s.requests[q].key})
    case Release(q) =>
      var c := s.requests[q].call;
      s.(requests := s.requests[q := Pc.Finished], calls := s.calls[c := s.calls[c].(released := true)])
    case Resume(q) =>
      var c := s.requests[q].call;
      s.(requests := s.requests[q := if s.calls[c].err then RunsItself else Served(c, s.calls[c].data)])
  }

  ghost predicate Valid(s: State, steps: seq<Step>)
    decreases |steps|
  {
    steps == [] || (Enabled(s, steps[0]) && Valid(Apply(s, steps[0]), steps[1..]))
  }

  ghost function After(s: State, steps: seq<Step>): State
    requires Valid(s, steps)
    decreases |steps|
  {
    if steps == [] then s else After(Apply(s, steps[0]), steps[1..])
  }

  // ---------------------------------------------------------------- invariants

  /** Request `q` is the leader of call `c`, and has not let its followers go. */
  predicate Owns(s: State, q: nat, c: nat) {
    q in s.requests && (s.requests[q].Leading? || s.requests[q].Leaving? || s.requests[q].Unlisted?) && s.requests[q].call == c
  }

  /** Request `q` is the leader `key` is registered under. */
  predicate LeadsKey(s: State, q: nat, key: nat) {
    q in s.requests && (s.requests[q].Leading? || s.requests[q].Leaving?) && s.requests[q].key == key
  }

  predicate Waits(s: State, q: nat) { q in s.requests && (s.requests[q].Following? || s.requests[q].Served?) }

  predicate Pending(s: State, c: nat) { c in s.calls && !s.calls[c].released }

  ghost predicate CallsInv(s: State) {
    && (forall c :: c in s.calls ==> c < s.nextCall)
    && (forall q: nat, c: nat :: Owns(s, q, c) ==> Pending(s, c))
    && (forall q: nat :: Waits(s, q) ==> s.requests[q].call in s.calls)
  }

  ghost predicate OwnerInv(s: State) {
    && (forall q: nat, r: nat, c: nat :: Owns(s, q, c) && Owns(s, r, c) ==> q == r)
    && (forall c: nat :: Pending(s, c) ==> exists q: nat :: Owns(s, q, c))
  }

  ghost predicate KeyInv(s: State) {
    && (forall q: nat, key: nat :: LeadsKey(s, q, key) ==> key in s.inFlight && s.inFlight[key] == s.requests[q].call)
    && (forall key :: key in s.inFlight ==> exists q: nat :: LeadsKey(s, q, key))
  }

  /** A record holds what its leader's response left in it, or nothing. */
  predicate Fits(record: Record) {
    match record.response
    case None => record.data == [] && !record.err
    case Some(r) => record.data == RecordedData(r) && record.err == RecordedErr(r)
  }

  ghost predicate RecordInv(s: State) { forall c :: c in s.calls ==> Fits(s.calls[c]) }

  ghost predicate DataInv(s: State) {
    && (forall q :: q in s.requests && s.requests[q].Served? && s.requests[q].call in s.calls ==>
          var c := s.calls[s.requests[q].call]; c.released && s.requests[q].data == c.data && !c.err)
    && (forall q :: q in s.requests && s.requests[q].Leading? && s.requests[q].call in s.calls ==>
          s.calls[s.requests[q].call].response.None?)
  }

  ghost predicate Inv(s: State) { CallsInv(s) && OwnerInv(s) && KeyInv(s) && RecordInv(s) && DataInv(s) }

  lemma OwnedStep(s: State, step: Step, q: nat, c: nat)
    requires CallsInv(s) && OwnerInv(s) && Enabled(s, step) && Owns(Apply(s, step), q, c)
    ensures Pending(Apply(s, step), c)
  {
    if !(step.Look? && step.q == q) {
      assert Owns(s, q, c);
      if step.Release? { assert Owns(s, step.q, s.requests[step.q].call); }
    }
  }

  lemma WaitsStep(s: State, step: Step, q: nat)
    requires CallsInv(s) && KeyInv(s) && Enabled(s, step) && Waits(Apply(s, step), q)
    ensures Apply(s, step).requests[q].call in Apply(s, step).calls
  {
    if step.Look? && step.q == q {
      var key := s.requests[q].key;
      var l: nat :| LeadsKey(s, l, key);
      assert Owns(s, l, s.inFlight[key]);
    } else {
      assert Waits(s, q);
    }
  }

  lemma CallsStep(s: State, step: Step)
    requires CallsInv(s) && OwnerInv(s) && KeyInv(s) && Enabled(s, step)
    ensures CallsInv(Apply(s, step))
  {
    var s' := Apply(s, step);
    forall q: nat, c: nat | Owns(s', q, c) ensures Pending(s', c) { OwnedStep(s, step, q, c); }
    forall q: nat | Waits(s', q) ensures s'.requests[q].call in s'.calls { WaitsStep(s, step, q); }
  }

  lemma OneOwnerStep(s: State, step: Step, q: nat, r: nat, c: nat)
    requires CallsInv(s) && OwnerInv(s) && Enabled(s, step) && Owns(Apply(s, step), q, c) && Owns(Apply(s, step), r, c)
    ensures q == r
  {
    if c == s.nextCall {
      assert !Pending(s, c);
      assert !Owns(s, q, c);
      assert !Owns(s, r, c);
    } else {
      assert Owns(s, q, c) && Owns(s, r, c);
    }
  }

  lemma PendingStep(s: State, step: Step, c: nat)
    requires CallsInv(s) && OwnerInv(s) && Enabled(s, step) && Pending(Apply(s, step), c)
    ensures exists q: nat :: Owns(Apply(s, step), q, c)
  {
    if step.Look? && c == s.nextCall {
      assert Owns(Apply(s, step), step.q, c);
    } else {
      if step.Respond? { assert Owns(s, step.q, s.requests[step.q].call); }
      assert Pending(s, c);
      var q: nat :| Owns(s, q, c);
      assert Owns(Apply(s, step), q, c);
    }
  }

  lemma OwnerStep(s: State, step: Step)
    requires CallsInv(s) && OwnerInv(s) && Enabled(s, step)
    ensures OwnerInv(Apply(s, step))
  {
    var s' := Apply(s, step);
    forall q: nat, r: nat, c: nat | Owns(s', q, c) && Owns(s', r, c) ensures q == r { OneOwnerStep(s, step, q, r, c); }
    forall c: nat | Pending(s', c) ensures exists q: nat :: Owns(s', q, c) { PendingStep(s, step, c); }
  }

  /** Two requests cannot both lead a key. */
  lemma OneLeader(s: State, q: nat, r: nat, key: nat)
    requires OwnerInv(s) && KeyInv(s) && LeadsKey(s, q, key) && LeadsKey(s, r, key)
    ensures q == r
  {
    var c := s.inFlight[key];
    assert Owns(s, q, c) && Owns(s, r, c);
  }

  lemma LeadsStep(s: State, step: Step, q: nat, key: nat)
    requires OwnerInv(s) && KeyInv(s) && Enabled(s, step) && LeadsKey(Apply(s, step), q, key)
    ensures key in Apply(s, step).inFlight && Apply(s, step).inFlight[key] == Apply(s, step).requests[q].call
  {
    if !(step.Look? && q == step.q) {
      assert LeadsKey(s, q, key);
      if step.Unlist? && s.requests[step.q].key == key { OneLeader(s, q, step.q, key); }
    }
  }

  lemma ListedStep(s: State, step: Step, key: nat)
    requires KeyInv(s) && Enabled(s, step) && key in Apply(s, step).inFlight
    ensures exists q: nat :: LeadsKey(Apply(s, step), q, key)
  {
    if step.Look? && key !in s.inFlight {
      assert LeadsKey(Apply(s, step), step.q, key);
    } else {
      var q: nat :| LeadsKey(s, q, key);
      assert LeadsKey(Apply(s, step), q, key);
    }
  }

  lemma KeyStep(s: State, step: Step)
    requires OwnerInv(s) && KeyInv(s) && Enabled(s, step)
    ensures KeyInv(Apply(s, step))
  {
    var s' := Apply(s, step);
    forall q: nat, key: nat | LeadsKey(s', q, key) ensures key in s'.inFlight && s'.inFlight[key] == s'.requests[q].call {
      LeadsStep(s, step, q, key);
    }
    forall key | key in s'.inFlight ensures exists q: nat :: LeadsKey(s', q, key) { ListedStep(s, step, key); }
  }

  lemma RecordsStep(s: State, step: Step)
    requires RecordInv(s) && Enabled(s, step)
    ensures RecordInv(Apply(s, step))
  {
  }

  /** Only its own leader writes a record. */
  lemma RecordStep(s: State, step: Step, q: nat)
    requires CallsInv(s) && OwnerInv(s) && Enabled(s, step) && q in s.requests && s.requests[q] == Apply(s, step).requests[q]
    requires s.requests[q].Leading? || s.requests[q].Served?
    requires s.requests[q].Served? ==> s.requests[q].call in s.calls && s.calls[s.requests[q].call].released
    ensures s.requests[q].call in s.calls && Apply(s, step).calls[s.requests[q].call] == s.calls[s.requests[q].call]
  {
    var c := s.requests[q].call;
    assert Owns(s, q, c) || s.requests[q].Served?;
    if step.Respond? || step.Release? {
      assert Owns(s, step.q, s.requests[step.q].call);
    } else if step.Look? {
      assert Pending(s, c) || c in s.calls;
    }
  }

  lemma DataStep(s: State, step: Step)
    requires CallsInv(s) && OwnerInv(s) && DataInv(s) && Enabled(s, step)
    ensures DataInv(Apply(s, step))
  {
    var s' := Apply(s, step);
    forall q | q in s'.requests && q in s.requests && s'.requests[q] == s.requests[q]
      && (s.requests[q].Leading? || (Waits(s, q) && s.requests[q].Served?))
      ensures s.requests[q].call in s.calls && s'.calls[s.requests[q].call] == s.calls[s.requests[q].call]
    {
      RecordStep(s, step, q);
    }
  }

  lemma {:induction false} InvRun(s: State, steps: seq<Step>)
    requires Inv(s) && Valid(s, steps)
    ensures Inv(After(s, steps))
    decreases |steps|
  {
    if steps != [] {
      CallsStep(s, steps[0]);
      OwnerStep(s, steps[0]);
      KeyStep(s, steps[0]);
      RecordsStep(s, steps[0]);
      DataStep(s, steps[0]);
      InvRun(Apply(s, steps[0]), steps[1..]);
    }
  }

  // ---------------------------------------------------------------- what collapsing promises

  /**
   In every run at most one registered leader exists for a key, and every follower still waiting
   waits for a call somebody will release: its leader has not returned.
   */
  lemma LeadersAndFollowers(steps: seq<Step>)
    requires Valid(Init, steps)
    ensures var s := After(Init, steps);
      && (forall q: nat, r: nat, key: nat :: LeadsKey(s, q, key) && LeadsKey(s, r, key) ==> q == r)
      && (forall q :: q in s.requests && s.requests[q].Following? ==>
            s.requests[q].call in s.calls &&
            (s.calls[s.requests[q].call].released || exists r: nat :: Owns(s, r, s.requests[q].call)))
  {
    InvRun(Init, steps);
    var s := After(Init, steps);
    forall q: nat, r: nat, key: nat | LeadsKey(s, q, key) && LeadsKey(s, r, key) ensures q == r { OneLeader(s, q, r, key); }
    forall q | q in s.requests && s.requests[q].Following? && Pending(s, s.requests[q].call)
      ensures exists r: nat :: Owns(s, r, s.requests[q].call)
    {}
    assert forall q: nat :: q in s.requests && s.requests[q].Following? ==> Waits(s, q);
  }

  /**
   Exactly when a follower that writes the leader's record writes the leader's reply: if and only
   if the leader got as far as its response and its capture began with an empty buffer.  A leader
   that returned early leaves a record without error and without data, so its followers write
   nothing at all; one whose buffer held an earlier reply hands that out in front.
   */
  lemma FollowerExactly(steps: seq<Step>, q: nat)
    requires Valid(Init, steps) && q in After(Init, steps).requests && After(Init, steps).requests[q].Served?
    ensures var s := After(Init, steps);
      var pc := s.requests[q];
      && pc.call in s.calls
      && (s.calls[pc.call].response.None? ==> pc.data == [])
      && (s.calls[pc.call].response.Some? ==>
            var r := s.calls[pc.call].response.value;
            && !r.relayFailed && !Overflows(r)
            && (pc.data == r.reply <==> r.base == []))
  {
    InvRun(Init, steps);
    var s := After(Init, steps);
    var pc := s.requests[q];
    if s.calls[pc.call].response.Some? {
      var r := s.calls[pc.call].response.value;
      assert |r.base + r.reply| == |r.base| + |r.reply|;
      assert r.base == [] ==> r.base + r.reply == r.reply;
    }
  }

  ghost predicate Leads(s: State, steps: seq<Step>, t: State) { Valid(s, steps) && After(s, steps) == t }

  ghost predicate Reachable(s: State) { exists steps :: Leads(Init, steps, s) }

  lemma {:induction false} AndThen(s: State, steps: seq<Step>, t: State, step: Step)
    requires Leads(s, steps, t) && Enabled(t, step)
    ensures Leads(s, steps + [step], Apply(t, step))
    decreases |steps|
  {
    if steps == [] {
      assert [step][1..] == [];
    } else {
      AndThen(Apply(s, steps[0]), steps[1..], t, step);
      assert (steps + [step])[1..] == steps[1..] + [step];
    }
  }

  lemma Goes(s: State, step: Step) returns (t: State)
    requires Reachable(s) && Enabled(s, step)
    ensures t == Apply(s, step) && Reachable(t)
  {
    var steps :| Leads(Init, steps, s);
    AndThen(Init, steps, s, step);
    t := Apply(s, step);
  }

  /** An early leader and a follower behind it: the follower's client is sent nothing, without an error. */
  lemma EarlyLeaderStarvesFollower(key: nat)
    ensures exists s ::
      Reachable(s) && 1 in s.requests && s.requests[1] == Served(0, []) && 0 in s.calls && s.calls[0].response.None?
  {
    assert Leads(Init, [], Init);
    var s1 := Goes(Init, Arrive(0, key));
    var s2 := Goes(s1, Arrive(1, key));
    var s3 := Goes(s2, Look(0));
    var s4 := Goes(s3, Look(1));
    var s5 := Goes(s4, GiveUp(0));
    var s6 := Goes(s5, Unlist(0));
    var s7 := Goes(s6, Release(0));
    var s8 := Goes(s7, Resume(1));
  }
}
