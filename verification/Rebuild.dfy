/**
 Rebuilding a node as a replica: a base backup is staged beside the cluster and swapped in
 by two renames.  Every call into the file system or a PostgreSQL tool may succeed, fail, or
 be the one during which the agent dies, and a removal or a copy may be cut off half-way.

 The agent's progress is a state machine; `Agent` below is the code, and every call it makes
 is proved to be a step of that machine.
 */
module Rebuild {

  /** A complete cluster: who made it, and whether standby.signal is in it. */
  datatype Cluster = Cluster(origin: Origin, standby: bool)

  /** `Local(k)` is a cluster the node started with; `Copy(n)` was taken by the n-th rebuild. */
  datatype Origin = Local(k: nat) | Copy(n: nat)

  /** `Damaged` is a directory a removal, a copy or a rewind left incomplete. */
  datatype Dir = Absent | Damaged(hasVersion: bool) | Whole(cluster: Cluster)

  datatype Disk = Disk(data: Dir, staging: Dir, previous: Dir)

  /** How much of an interrupted call took effect. */
  datatype Extent = Untouched | Halfway(hasVersion: bool) | Finished

  /** What a call into the file system or a tool comes back with, if it comes back. */
  datatype Outcome = Ok | Err(extent: Extent) | Dies(extent: Extent)

  datatype Pc =
    | Idle
    | ClearStaging | ClearPrevious          // clearStaging at the start of a run
    | StopForRewind | Rewind
    | Backup | Stop
    | AbortStaging | AbortPrevious          // clearStaging after a failed backup or stop
    | MoveAside | MoveIn | PutBack          // swapInStaging
    | Signal | Configure | Start | CheckSignal
    | Discard

  /**
   `run` numbers the rebuild, `atStart` is the data directory it was given, `swapped` says
   whether its copy is in place and `done` whether it reported success.
   */
  datatype State = State(disk: Disk, pc: Pc, run: nat, rewind: bool, atStart: Dir, swapped: bool, done: bool)

  datatype Step = Plan(rewind: bool) | Call(outcome: Outcome)

  function Begin(cluster: Cluster): State {
    State(Disk(Whole(cluster), Absent, Absent), Idle, 0, false, Whole(cluster), false, false)
  }

  /** `validateDataDir`: the directory must hold PG_VERSION. */
  predicate LooksLikeCluster(d: Dir) { d.Whole? || (d.Damaged? && d.hasVersion) }

  predicate Enabled(s: State, step: Step) {
    match step
    case Plan(_) => s.pc.Idle? && LooksLikeCluster(s.disk.data)
    case Call(_) => !s.pc.Idle?
  }

  /** A directory being removed. */
  function Removed(d: Dir, o: Outcome): Dir {
    if o.Ok? || o.extent.Finished? || d.Absent? then Absent
    else if o.extent.Untouched? then d
    else Damaged(o.extent.hasVersion)
  }

  /** A directory being written by pg_basebackup, or in place by pg_rewind. */
  function Written(d: Dir, o: Outcome, result: Dir): Dir {
    if o.Ok? || o.extent.Finished? then result
    else if o.extent.Untouched? then d
    else Damaged(o.extent.hasVersion)
  }

  /** A rename either happened or did not. */
  predicate Renamed(o: Outcome) { o.Ok? || (o.Dies? && o.extent.Finished?) }

  function WithSignal(d: Dir, o: Outcome): Dir {
    if d.Whole? && (o.Ok? || !o.extent.Untouched?) then Whole(d.cluster.(standby := true)) else d
  }

  /** What the call in progress does to the three directories. */
  function Effect(s: State, o: Outcome): Disk {
    var d := s.disk;
    match s.pc
    case ClearStaging | AbortStaging => d.(staging := Removed(d.staging, o))
    case ClearPrevious | AbortPrevious | Discard => d.(previous := Removed(d.previous, o))
    case Rewind => d.(data := Written(d.data, o, Whole(Cluster(Copy(s.run), false))))
    case Backup => d.(staging := Written(d.staging, o, Whole(Cluster(Copy(s.run), true))))
    case MoveAside =>
      if Renamed(o) && d.previous.Absent? then Disk(Absent, d.staging, d.data) else d
    case MoveIn =>
      if Renamed(o) && d.data.Absent? then Disk(d.staging, Absent, d.previous) else d
    case PutBack =>
      if Renamed(o) && d.data.Absent? then Disk(d.previous, d.staging, Absent) else d
    case Signal => d.(data := WithSignal(d.data, o))
    case Idle | StopForRewind | Stop | Configure | Start | CheckSignal => d
  }

  /** Where the agent goes once the call has come back. */
  function Follow(s: State, o: Outcome): Pc {
    if o.Dies? then Idle
    else match s.pc
      case Idle => Idle
      case ClearStaging => if o.Ok? then ClearPrevious else Idle
      case ClearPrevious => if !o.Ok? then Idle else if s.rewind then StopForRewind else Backup
      case StopForRewind => if o.Ok? then Rewind else Idle
      case Rewind => if o.Ok? then Signal else Backup
      case Backup => if o.Ok? then Stop else AbortStaging
      case Stop => if o.Ok? then MoveAside else AbortStaging
      case AbortStaging => if o.Ok? then AbortPrevious else Idle
      case AbortPrevious => Idle
      case MoveAside => if o.Ok? && s.disk.previous.Absent? then MoveIn else Idle
      case MoveIn => if o.Ok? && s.disk.data.Absent? then Signal else PutBack
      case PutBack => Idle
      case Signal => if o.Ok? then Configure else Idle
      case Configure => if o.Ok? then Start else Idle
      case Start => if o.Ok? then CheckSignal else Idle
      case CheckSignal => if o.Ok? && s.disk.data.Whole? && s.disk.data.cluster.standby then Discard else Idle
      case Discard => Idle
  }

  function Apply(s: State, step: Step): State
    requires Enabled(s, step)
  {
    match step
    case Plan(rewind) => State(s.disk, ClearStaging, s.run + 1, rewind, s.disk.data, false, false)
    case Call(o) =>
      s.(disk := Effect(s, o), pc := Follow(s, o),
         swapped := s.swapped || (s.pc.MoveIn? && Renamed(o) && s.disk.data.Absent?),
         done := s.pc.Discard? && !o.Dies?)
  }

  ghost predicate Valid(s: State, steps: seq<Step>)
    decreases |steps|
  {
    steps == [] || (Enabled(s, steps[0]) && Valid(Apply(s, steps[0]), steps[1..]))
  }

  ghost function After(s: State, steps: seq<Step>): State
    requires Valid(s, steps)
    decreases |steps|
  {
    if steps == [] then s else After(Apply(s, steps[0]), steps[1..])
  }

  lemma {:induction false} AfterOneMore(s: State, steps: seq<Step>, step: Step)
    requires Valid(s, steps) && Enabled(After(s, steps), step)
    ensures Valid(s, steps + [step]) && After(s, steps + [step]) == Apply(After(s, steps), step)
    decreases |steps|
  {
    if steps == [] {
      assert Valid(Apply(s, step), []);
      assert (steps + [step])[1..] == [];
    } else {
      AfterOneMore(Apply(s, steps[0]), steps[1..], step);
      assert (steps + [step])[1..] == steps[1..] + [step];
    }
  }

  // ---------------------------------------------------------------- what survives

  /**
   The node's data is never gone: the data directory is a complete cluster, or it is absent
   while the complete cluster it held is in the previous directory and a complete copy of the
   primary is in the staging directory.
   */
  predicate Recoverable(d: Disk) {
    d.data.Whole? || (d.data.Absent? && d.previous.Whole? && d.staging.Whole?)
  }

  /** The window between the two renames: nothing in place, both clusters beside it. */
  predicate InWindow(s: State) {
    s.disk.data.Absent? && s.disk.previous == s.atStart && s.atStart.Whole?
    && s.disk.staging == Whole(Cluster(Copy(s.run), true))
  }

  predicate BeforeSwap(pc: Pc) {
    pc.ClearStaging? || pc.ClearPrevious? || pc.Backup? || pc.Stop? || pc.AbortStaging? || pc.AbortPrevious?
  }

  predicate AfterSwap(pc: Pc) { pc.Signal? || pc.Configure? || pc.Start? || pc.CheckSignal? || pc.Discard? }

  /** The invariant of runs that never ask for pg_rewind. */
  predicate Inv(s: State) {
    && !s.rewind && !s.pc.StopForRewind? && !s.pc.Rewind?
    && s.atStart.Whole?
    && (BeforeSwap(s.pc) ==> !s.swapped && s.disk.data == s.atStart)
    && (s.pc.ClearPrevious? ==> s.disk.staging.Absent?)
    && (s.pc.Backup? ==> s.disk.staging.Absent? && s.disk.previous.Absent?)
    && (s.pc.Stop? || s.pc.MoveAside? ==>
          s.disk.staging == Whole(Cluster(Copy(s.run), true)) && s.disk.previous.Absent? && !s.swapped && s.disk.data == s.atStart)
    && (s.pc.MoveIn? || s.pc.PutBack? ==> InWindow(s) && !s.swapped)
    && (AfterSwap(s.pc) ==> s.swapped)
    && (s.swapped ==> s.disk.data == Whole(Cluster(Copy(s.run), true)))
    && (s.swapped && !s.pc.Idle? ==> s.disk.previous == s.atStart || s.pc.Discard?)
    && (!s.swapped ==> s.disk.data == s.atStart || InWindow(s))
    && (s.done ==> s.swapped)
  }

  lemma InvStep(s: State, step: Step)
    requires Inv(s) && Enabled(s, step) && (step.Plan? ==> !step.rewind)
    ensures Inv(Apply(s, step))
  {
  }

  ghost predicate NoRewind(steps: seq<Step>) { forall i :: 0 <= i < |steps| && steps[i].Plan? ==> !steps[i].rewind }

  lemma {:induction false} InvRun(s: State, steps: seq<Step>)
    requires Inv(s) && Valid(s, steps) && NoRewind(steps)
    ensures Inv(After(s, steps))
    decreases |steps|
  {
    if steps != [] {
      InvStep(s, steps[0]);
      assert NoRewind(steps[1..]) by {
        assert forall i :: 0 <= i < |steps[1..]| ==> steps[1..][i] == steps[i + 1];
      }
      InvRun(Apply(s, steps[0]), steps[1..]);
    }
  }

  /**
   Over any number of rebuilds without pg_rewind, each failing or dying at any call, a node
   that had a cluster still has one: in place, or in the window of the swap with the old one
   and the new one beside it.  A rebuild that did not get its copy in place, and did not stop
   in that window, left the data directory as it found it; one that did put a standby there.
   */
  lemma CrashSafe(cluster: Cluster, steps: seq<Step>)
    requires Valid(Begin(cluster), steps) && NoRewind(steps)
    ensures var s := After(Begin(cluster), steps);
      && Recoverable(s.disk)
      && (!s.swapped ==> s.disk.data == s.atStart || InWindow(s))
      && (s.swapped ==> s.disk.data == Whole(Cluster(Copy(s.run), true)))
      && (s.done ==> s.swapped)
  {
    InvRun(Begin(cluster), steps);
  }

  /** The superseded cluster is kept, whole, until the replacement has started as a standby. */
  lemma OldKeptUntilProven(cluster: Cluster, steps: seq<Step>)
    requires Valid(Begin(cluster), steps) && NoRewind(steps)
    requires var s := After(Begin(cluster), steps); s.swapped && !s.pc.Idle? && !s.pc.Discard?
    ensures After(Begin(cluster), steps).disk.previous == After(Begin(cluster), steps).atStart
  {
    InvRun(Begin(cluster), steps);
  }

  /** Every rebuild in the run asks for pg_rewind, or none does. */
  ghost predicate AllRewind(steps: seq<Step>, rewind: bool) {
    forall i :: 0 <= i < |steps| && steps[i].Plan? ==> steps[i].rewind == rewind
  }

  /** A rewind that fails half-way and a backup that then fails too. */
  const BadRewind: seq<Step> := [
    Plan(true), Call(Ok), Call(Ok), Call(Ok), Call(Err(Halfway(true))), Call(Err(Untouched))
  ]

  lemma RewindCanDamage(cluster: Cluster)
    ensures Valid(Begin(cluster), BadRewind) && AllRewind(BadRewind, true)
    ensures After(Begin(cluster), BadRewind).disk.data == Damaged(true)
  {
    var rest := BadRewind;
    assert rest[1..] == [Call(Ok), Call(Ok), Call(Ok), Call(Err(Halfway(true))), Call(Err(Untouched))];
    assert rest[1..][1..] == [Call(Ok), Call(Ok), Call(Err(Halfway(true))), Call(Err(Untouched))];
    assert rest[1..][1..][1..] == [Call(Ok), Call(Err(Halfway(true))), Call(Err(Untouched))];
    assert rest[1..][1..][1..][1..] == [Call(Err(Halfway(true))), Call(Err(Untouched))];
    assert rest[1..][1..][1..][1..][1..] == [Call(Err(Untouched))];
    assert rest[1..][1..][1..][1..][1..][1..] == [];
  }

  /**
   Exactly when a rebuild request is safe: if and only if it does not ask for pg_rewind, which
   works in place and has nothing to fall back on.
   */
  lemma SafeExactlyWithoutRewind(cluster: Cluster, rewind: bool)
    ensures (forall steps :: Valid(Begin(cluster), steps) && AllRewind(steps, rewind) ==>
               Recoverable(After(Begin(cluster), steps).disk))
            <==> !rewind
  {
    if rewind {
      RewindCanDamage(cluster);
      assert !Recoverable(After(Begin(cluster), BadRewind).disk);
    } else {
      forall steps | Valid(Begin(cluster), steps) && AllRewind(steps, rewind)
        ensures Recoverable(After(Begin(cluster), steps).disk)
      {
        CrashSafe(cluster, steps);
      }
    }
  }

  // ---------------------------------------------------------------- when it counts as done

  /** The current rebuild has been past a successful check for standby.signal; `seen` says it of what came before. */
  ghost predicate Checked(s: State, steps: seq<Step>, seen: bool)
    requires Valid(s, steps)
    decreases |steps|
  {
    if steps == [] then seen
    else
      Checked(Apply(s, steps[0]), steps[1..],
              !steps[0].Plan? && (seen || (s.pc.CheckSignal? && steps[0] == Call(Ok))))
  }

  /** The old cluster has been touched since the swap, or is about to be, or success has been reported. */
  predicate Concluded(s: State) { s.done || s.pc.Discard? || (s.swapped && s.disk.previous != s.atStart) }

  lemma {:induction false} ConcludedChecked(s: State, steps: seq<Step>, seen: bool)
    requires Inv(s) && Valid(s, steps) && NoRewind(steps) && (Concluded(s) ==> seen)
    ensures Concluded(After(s, steps)) ==> Checked(s, steps, seen)
    decreases |steps|
  {
    if steps != [] {
      InvStep(s, steps[0]);
      assert forall i :: 0 <= i < |steps[1..]| ==> steps[1..][i] == steps[i + 1];
      ConcludedChecked(Apply(s, steps[0]), steps[1..],
                       !steps[0].Plan? && (seen || (s.pc.CheckSignal? && steps[0] == Call(Ok))));
    }
  }

  /**
   In every run without pg_rewind: once a rebuild has swapped, the old cluster is touched, and
   success is reported, only after standby.signal was looked for and found in that rebuild.
   */
  lemma OldGoesOnlyWhenProven(cluster: Cluster, steps: seq<Step>)
    requires Valid(Begin(cluster), steps) && NoRewind(steps)
    requires var s := After(Begin(cluster), steps); s.done || (s.swapped && s.disk.previous != s.atStart)
    ensures Checked(Begin(cluster), steps, false)
  {
    ConcludedChecked(Begin(cluster), steps, false);
  }

  // ---------------------------------------------------------------- a rebuild played through

  /** Where a rebuild ends, and what is left of the script: an answer to each call, and death when there is none. */
  ghost function Play(s: State, script: seq<Outcome>): (State, seq<Outcome>)
    decreases |script|
  {
    if s.pc.Idle? then (s, script)
    else if script == [] then (Apply(s, Call(Dies(Untouched))), [])
    else Play(Apply(s, Call(script[0])), script[1..])
  }

  /** How many successful calls are left. */
  function CallsLeft(pc: Pc): nat {
    match pc
    case ClearStaging => 11
    case ClearPrevious => 10
    case StopForRewind => 7
    case Rewind => 6
    case Backup => 9
    case Stop => 8
    case MoveAside => 7
    case MoveIn => 6
    case Signal => 5
    case Configure => 4
    case Start => 3
    case CheckSignal => 2
    case Discard => 1
    case _ => 0
  }

  predicate IsStandbyCopy(d: Dir, run: nat) { d == Whole(Cluster(Copy(run), true)) }

  /** How far a rebuild whose calls have all succeeded has got. */
  predicate GoingWell(s: State) {
    match s.pc
    case ClearStaging => true
    case ClearPrevious => s.disk.staging.Absent?
    case StopForRewind | Rewind | Backup => s.disk.staging.Absent? && s.disk.previous.Absent?
    case Stop | MoveAside => IsStandbyCopy(s.disk.staging, s.run) && s.disk.previous.Absent?
    case MoveIn => s.disk.data.Absent? && IsStandbyCopy(s.disk.staging, s.run)
    case Signal => s.disk.staging.Absent? && s.disk.data.Whole? && s.disk.data.cluster.origin == Copy(s.run)
    case Configure | Start | CheckSignal | Discard => s.disk.staging.Absent? && IsStandbyCopy(s.disk.data, s.run)
    case Idle => s.done && IsStandbyCopy(s.disk.data, s.run) && s.disk.staging.Absent? && s.disk.previous.Absent?
    case _ => false
  }

  lemma WellStep(s: State)
    requires GoingWell(s) && !s.pc.Idle?
    ensures var t := Apply(s, Call(Ok)); GoingWell(t) && t.run == s.run && CallsLeft(t.pc) < CallsLeft(s.pc)
  {
  }

  lemma {:induction false} WellPlay(s: State, script: seq<Outcome>)
    requires GoingWell(s) && (forall i :: 0 <= i < |script| ==> script[i].Ok?) && |script| >= CallsLeft(s.pc)
    ensures var t := Play(s, script).0; GoingWell(t) && t.pc.Idle? && t.run == s.run
    decreases |script|
  {
    if !s.pc.Idle? {
      WellStep(s);
      WellPlay(Apply(s, Call(Ok)), script[1..]);
    }
  }

  /**
   A rebuild of a node with a cluster, be it damaged, whose version file can be read, every call of
   which succeeds, reports success, with or without pg_rewind: the copy is in place as a standby,
   and nothing is left beside it.
   */
  lemma AllOkSucceeds(s: State, rewind: bool, script: seq<Outcome>)
    requires s.pc.Idle? && (s.disk.data.Whole? || s.disk.data == Damaged(true))
    requires |script| >= 11 && forall i :: 0 <= i < |script| ==> script[i].Ok?
    ensures Enabled(s, Plan(rewind))
    ensures var t := Play(Apply(s, Plan(rewind)), script).0;
      t.pc.Idle? && t.done && IsStandbyCopy(t.disk.data, s.run + 1) && t.disk.staging.Absent? && t.disk.previous.Absent?
  {
    WellPlay(Apply(s, Plan(rewind)), script);
  }

  /**
   A call of a rebuild without pg_rewind fails, however far it got, and the calls after it succeed.
   Before the swap, and between its two renames, the node is put back on the cluster it had; a
   failed backup or stop leaves nothing beside it; and only removing the old cluster may fail in a
   rebuild that succeeds.
   */
  lemma FailureUndone(cluster: Cluster, steps: seq<Step>, extent: Extent, script: seq<Outcome>)
    requires Valid(Begin(cluster), steps) && NoRewind(steps) && !After(Begin(cluster), steps).pc.Idle?
    requires |script| >= 2 && forall i :: 0 <= i < |script| ==> script[i].Ok?
    ensures var s := After(Begin(cluster), steps);
      var t := Play(Apply(s, Call(Err(extent))), script).0;
      && t.pc.Idle? && (t.done <==> s.pc.Discard?)
      && (!s.swapped && !s.pc.PutBack? ==> t.disk.data == s.atStart)
      && (s.swapped ==> t.disk.data == Whole(Cluster(Copy(s.run), true)))
      && (s.pc.Backup? || s.pc.Stop? ==> t.disk.staging.Absent? && t.disk.previous.Absent?)
  {
    InvRun(Begin(cluster), steps);
    FailureUndoneFrom(After(Begin(cluster), steps), extent, script);
  }

  lemma FailureUndoneFrom(s: State, extent: Extent, script: seq<Outcome>)
    requires Inv(s) && !s.pc.Idle?
    requires |script| >= 2 && script[0].Ok? && script[1].Ok?
    ensures var t := Play(Apply(s, Call(Err(extent))), script).0;
      && t.pc.Idle? && (t.done <==> s.pc.Discard?)
      && (!s.swapped && !s.pc.PutBack? ==> t.disk.data == s.atStart)
      && (s.swapped ==> t.disk.data == Whole(Cluster(Copy(s.run), true)))
      && (s.pc.Backup? || s.pc.Stop? ==> t.disk.staging.Absent? && t.disk.previous.Absent?)
  {
    var failed := Apply(s, Call(Err(extent)));
    if !failed.pc.Idle? {
      var next := Apply(failed, Call(Ok));
      assert Play(failed, script) == Play(next, script[1..]);
      if !next.pc.Idle? {
        assert Play(next, script[1..]) == Play(Apply(next, Call(Ok)), script[1..][1..]);
      }
    }
  }

  // ---------------------------------------------------------------- the agent's code

  /**
   The agent and the host it runs on.  `script` is what the file system and the tools answer,
   one entry a call; the agent dies when it runs out.  The ghost fields place the object in
   the state machine above.
   */
  class Agent {
    var data: Dir
    var staging: Dir
    var previous: Dir
    var run: nat
    var script: seq<Outcome>
    ghost var start: State
    ghost var taken: seq<Step>
    ghost var at: State

    /** The agent is where the steps it has taken lead. */
    ghost predicate Follows()
      reads this
    {
      && Valid(start, taken) && After(start, taken) == at
      && at.disk == Disk(data, staging, previous) && at.run == run
    }

    /** `step` is what happened last. */
    twostate predicate Took(step: Step)
      reads this
    {
      && Follows() && start == old(start) && taken == old(taken) + [step]
      && Enabled(old(at), step) && at == Apply(old(at), step)
      && Play(at, script) == Play(old(at), old(script))
    }

    constructor (cluster: Cluster, script: seq<Outcome>)
      ensures Follows() && start == at == Begin(cluster) && taken == [] && this.script == script
    {
      this.script := script;
      run := 0;
      data, staging, previous := Whole(cluster), Absent, Absent;
      start, at, taken := Begin(cluster), Begin(cluster), [];
    }

    /** The answer to the next call. */
    method Answer() returns (o: Outcome)
      modifies `script
      ensures old(script) == [] ==> o == Dies(Untouched) && script == []
      ensures old(script) != [] ==> o == old(script)[0] && script == old(script)[1..]
    {
      if script == [] {
        o := Dies(Untouched);
      } else {
        o, script := script[0], script[1..];
      }
    }

    ghost method Record(step: Step)
      requires Valid(start, taken) && After(start, taken) == at && Enabled(at, step)
      modifies `taken, `at
      ensures Valid(start, taken) && After(start, taken) == at
      ensures at == Apply(old(at), step) && taken == old(taken) + [step]
    {
      AfterOneMore(start, taken, step);
      taken, at := taken + [step], Apply(at, step);
    }

    /** Starting or stopping the server, or writing its settings: no directory comes or goes. */
    method Tool() returns (o: Outcome)
      requires Follows()
      requires at.pc.StopForRewind? || at.pc.Stop? || at.pc.Configure? || at.pc.Start?
      modifies this
      ensures Took(Call(o))
    {
      o := Answer();
      Record(Call(o));
    }

    method RemoveStaging() returns (o: Outcome)
      requires Follows() && (at.pc.ClearStaging? || at.pc.AbortStaging?)
      modifies this
      ensures Took(Call(o))
    {
      o := Answer();
      staging := Removed(staging, o);
      Record(Call(o));
    }

    method RemovePrevious() returns (o: Outcome)
      requires Follows() && (at.pc.ClearPrevious? || at.pc.AbortPrevious? || at.pc.Discard?)
      modifies this
      ensures Took(Call(o))
    {
      o := Answer();
      previous := Removed(previous, o);
      Record(Call(o));
    }

    method PgRewind() returns (o: Outcome)
      requires Follows() && at.pc.Rewind?
      modifies this
      ensures Took(Call(o))
    {
      o := Answer();
      data := Written(data, o, Whole(Cluster(Copy(run), false)));
      Record(Call(o));
    }

    method BaseBackup() returns (o: Outcome)
      requires Follows() && at.pc.Backup?
      modifies this
      ensures Took(Call(o))
    {
      o := Answer();
      staging := Written(staging, o, Whole(Cluster(Copy(run), true)));
      Record(Call(o));
    }

    /** The first rename: data directory to previous directory. */
    method MoveDataAside() returns (o: Outcome, moved: bool)
      requires Follows() && at.pc.MoveAside?
      modifies this
      ensures Took(Call(o))
      ensures moved <==> o.Ok? && old(previous).Absent?
    {
      o := Answer();
      moved := o.Ok? && previous.Absent?;
      if Renamed(o) && previous.Absent? {
        data, previous := Absent, data;
      }
      Record(Call(o));
    }

    /** The second rename: staging directory to data directory. */
    method MoveStagingIn() returns (o: Outcome, moved: bool)
      requires Follows() && at.pc.MoveIn?
      modifies this
      ensures Took(Call(o))
      ensures moved <==> o.Ok? && old(data).Absent?
    {
      o := Answer();
      moved := o.Ok? && data.Absent?;
      if Renamed(o) && data.Absent? {
        data, staging := staging, Absent;
      }
      Record(Call(o));
    }

    /** The rename that undoes the first one. */
    method PutDataBack() returns (o: Outcome)
      requires Follows() && at.pc.PutBack?
      modifies this
      ensures Took(Call(o))
    {
      o := Answer();
      if Renamed(o) && data.Absent? {
        data, previous := previous, Absent;
      }
      Record(Call(o));
    }

    method WriteSignal() returns (o: Outcome)
      requires Follows() && at.pc.Signal?
      modifies this
      ensures Took(Call(o))
    {
      o := Answer();
      data := WithSignal(data, o);
      Record(Call(o));
    }

    method StatSignal() returns (o: Outcome, present: bool)
      requires Follows() && at.pc.CheckSignal?
      modifies this
      ensures Took(Call(o))
      ensures present <==> o.Ok? && old(data).Whole? && old(data).cluster.standby
    {
      o := Answer();
      present := o.Ok? && data.Whole? && data.cluster.standby;
      Record(Call(o));
    }

    /** A rebuild has got this far: the same history as before, and then some. */
    twostate predicate Onward()
      reads this
    {
      Follows() && start == old(start) && old(taken) <= taken && at.run == old(at).run && at.rewind == old(at).rewind
      && (NoRewind(old(taken)) ==> NoRewind(taken)) && Play(at, script) == Play(old(at), old(script))
    }

    /** clearStaging: both leftovers go, or the first failure is reported. */
    method ClearLeftovers() returns (ok: bool)
      requires Follows() && (at.pc.ClearStaging? || at.pc.AbortStaging?)
      modifies this
      ensures Onward()
      ensures !ok ==> at.pc.Idle? && !at.done
      ensures ok && old(at).pc.ClearStaging? ==> at.pc == if at.rewind then StopForRewind else Backup
      ensures ok && old(at).pc.AbortStaging? ==> at.pc.Idle? && !at.done
    {
      ok := false;
      var o := RemoveStaging();
      if !o.Ok? { return; }
      o := RemovePrevious();
      ok := o.Ok?;
    }

    /** swapInStaging: two renames, and a third if the second fails. */
    method SwapInStaging() returns (ok: bool)
      requires Follows() && at.pc.MoveAside?
      modifies this
      ensures Onward()
      ensures if ok then at.pc.Signal? else at.pc.Idle? && !at.done
    {
      ok := false;
      var o, moved := MoveDataAside();
      if !moved { return; }
      o, moved := MoveStagingIn();
      if moved {
        ok := true;
      } else if !o.Dies? {
        o := PutDataBack();
      }
    }

    /** A base backup in staging, the server stopped, the copy swapped in. */
    method CopyAndSwap() returns (ok: bool)
      requires Follows() && at.pc.Backup?
      modifies this
      ensures Onward()
      ensures if ok then at.pc.Signal? else at.pc.Idle? && !at.done
    {
      ok := false;
      var o := BaseBackup();
      if o.Ok? {
        o := Tool();
        if o.Ok? {
          ok := SwapInStaging();
          return;
        }
      }
      if !o.Dies? {
        var cleared := ClearLeftovers();
      }
    }

    /** Standby signal, configuration and start. */
    method StartStandby() returns (ok: bool)
      requires Follows() && at.pc.Signal?
      modifies this
      ensures Onward() && !at.done && at.pc == if ok then CheckSignal else Idle
    {
      var o := WriteSignal();
      if !o.Ok? { return false; }
      ok := ConfigureAndStart();
    }

    method ConfigureAndStart() returns (ok: bool)
      requires Follows() && at.pc.Configure?
      modifies this
      ensures Onward() && !at.done && at.pc == if ok then CheckSignal else Idle
    {
      var o := Tool();
      if !o.Ok? { return false; }
      o := Tool();
      ok := o.Ok?;
    }

    /** The standby is started, standby.signal is checked for, and the old cluster is dropped. */
    method Finish() returns (done: bool)
      requires Follows() && at.pc.Signal?
      modifies this
      ensures Onward() && at.pc.Idle? && done == at.done
    {
      done := false;
      var ok := StartStandby();
      if !ok { return; }
      var o, present := StatSignal();
      if !present { return; }
      o := RemovePrevious();
      done := !o.Dies?;
    }

    /** pg_rewind in place, after stopping the server. */
    method TryRewind() returns (stopped: bool, rewound: bool)
      requires Follows() && at.pc.StopForRewind?
      modifies this
      ensures Onward()
      ensures !stopped ==> at.pc.Idle? && !at.done
      ensures stopped ==> at.pc == if rewound then Signal else Backup
    {
      stopped, rewound := false, false;
      var o := Tool();
      if !o.Ok? { return; }
      o := PgRewind();
      stopped, rewound := !o.Dies?, o.Ok?;
    }

    /**
     planReplication's refusal, then run: the whole rebuild.  Without pg_rewind, whatever the
     host answers and wherever the agent dies, the node keeps a complete cluster.
     */
    method Rebuild(rewind: bool) returns (done: bool)
      requires Follows() && at.pc.Idle?
      modifies this
      ensures Follows() && at.pc.Idle? && start == old(start) && old(taken) <= taken
      ensures LooksLikeCluster(old(data)) ==> done == at.done && at == Play(Apply(old(at), Plan(rewind)), old(script)).0
      ensures !LooksLikeCluster(old(data)) ==> !done && at == old(at) && script == old(script)
      ensures !rewind && NoRewind(old(taken)) ==> NoRewind(taken)
      ensures !rewind && NoRewind(old(taken)) && (exists c :: start == Begin(c)) ==>
                && Recoverable(Disk(data, staging, previous))
                && (done ==> data == Whole(Cluster(Copy(run), true)))
    {
      done := false;
      if LooksLikeCluster(data) {
        run := run + 1;
        Record(Plan(rewind));
        done := Perform(rewind);
      }
      if !rewind && NoRewind(taken) && exists c :: start == Begin(c) {
        ghost var c :| start == Begin(c);
        CrashSafe(c, taken);
      }
    }

    method Perform(rewind: bool) returns (done: bool)
      requires Follows() && at.pc.ClearStaging? && at.rewind == rewind && !at.done
      modifies this
      ensures Onward() && at.pc.Idle? && done == at.done
    {
      done := false;
      var ok := ClearLeftovers();
      if !ok { return; }
      var rewound := false;
      if rewind {
        ok, rewound := TryRewind();
        if !ok { return; }
      }
      if !rewound {
        ok := CopyAndSwap();
        if !ok { return; }
      }
      done := Finish();
    }
  }
}
