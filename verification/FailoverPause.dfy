/**
 The failover pause protocol of the gateway: writers park on a condition variable over the
 read side of a read/write lock, and a failover resolver or a writer's own cancellation
 goroutine wakes them under the write side.

 Every atomic instruction is a step of its own, so the runs below are all the interleavings
 of any number of writers, cancellers, resolvers and replication streams.  `Cond.Wait` is
 split as Go implements it: take a ticket, release the lock, sleep until the ticket is
 notified, take the lock again.
 */
module FailoverPause {

  import opened Common

  /** Where one call of `waitWhilePaused` is. */
  datatype WriterPc =
    | Entering                // saw the flag set and started its canceller; about to take the read lock
    | Testing                 // holds the read lock; about to load the flag
    | CheckingCtx             // saw the flag set; about to look at its context
    | Deciding                // decided to wait; the window before Wait
    | Registered(ticket: nat) // inside Wait: on the notify list, still holding the read lock
    | Parked(ticket: nat)     // inside Wait: lock released, asleep until the ticket is notified
    | Relocking               // inside Wait: notified, about to take the read lock again
    | Leaving(failed: bool)   // holds the read lock; about to return
    | Returned(failed: bool)

  /** Where one writer's cancellation goroutine is. */
  datatype CancellerPc =
    | Watching               // selecting on the context and on the writer's return
    | WantsLock
    | Holding                // inside wakePaused, before Broadcast
    | Woke                   // inside wakePaused, after Broadcast
    | Gone(broadcast: bool)

  /** Where one winner of the compare-and-swap in `triggerFailover` is. */
  datatype ResolverPc =
    | Won                          // about to end the replication streams
    | Cancelling(ctx: Option<nat>) // took the stream context away; about to cancel it
    | Running                      // orchestrating and polling for a primary
    | WantsWrite
    | Locked                       // inside resolveFailover, before the store
    | Stored                       // inside resolveFailover, flag cleared, before Broadcast
    | Announced                    // inside resolveFailover, after Broadcast
    | Resolved

  datatype Owner = ByCanceller(w: nat) | ByResolver(r: nat)

  /** A replication stream: the shared context it derives from, and how many terminations came before it. */
  datatype Stream = Stream(ctx: nat, epoch: nat)

  /** The replication streams, the context they share, and every context cancelled so far. */
  datatype Streams = Streams(ctx: Option<nat>, next: nat, cancelled: set<nat>, terminations: nat, open: map<nat, Stream>)

  datatype State = State(
    inFailover: bool,
    readers: set<nat>,
    writeLock: Option<Owner>,
    tickets: nat,   // next ticket of the notify list
    notified: nat,  // every ticket below this has been notified
    writers: map<nat, WriterPc>,
    cancellers: map<nat, CancellerPc>,
    cancelled: set<nat>, // writers whose context is done
    resolvers: map<nat, ResolverPc>,
    feed: Streams
  )

  const Init := State(false, {}, None, 0, 0, map[], map[], {}, map[], Streams(None, 0, {}, 0, map[]))

  datatype Step =
    // a writer
    | Call(w: nat) | TakeRead(w: nat) | Test(w: nat) | CheckCtx(w: nat) | Register(w: nat)
    | Park(w: nat) | Wake(w: nat) | Relock(w: nat) | Leave(w: nat)
    // a writer's context and its canceller
    | CtxDone(w: nat) | Notice(w: nat) | Dismiss(w: nat)
    | CancellerLock(w: nat) | CancellerBroadcast(w: nat) | CancellerUnlock(w: nat)
    // a failover
    | Trigger(r: nat) | TakeStreams(r: nat) | CancelStreams(r: nat) | Settle(r: nat)
    | ResolverLock(r: nat) | Store(r: nat) | ResolverBroadcast(r: nat) | ResolverUnlock(r: nat)
    // a replication client
    | OpenStream(x: nat)

  predicate At<T(==)>(m: map<nat, T>, k: nat, pc: T) { k in m && m[k] == pc }

  predicate WriteLockFree(s: State) { s.writeLock.None? && s.readers == {} }

  /** A step of a call of `waitWhilePaused`. */
  predicate IsWriters(step: Step) {
    step.Call? || step.TakeRead? || step.Test? || step.CheckCtx? || step.Register? || step.Park? || step.Wake?
    || step.Relock? || step.Leave?
  }

  /** A step of a writer's context, or of the goroutine that watches it. */
  predicate IsCancellers(step: Step) {
    step.CtxDone? || step.Notice? || step.Dismiss? || step.CancellerLock? || step.CancellerBroadcast? || step.CancellerUnlock?
  }

  predicate WriterCan(s: State, step: Step)
    requires IsWriters(step)
  {
    match step
    case Call(w) => w !in s.writers
    case TakeRead(w) => At(s.writers, w, Entering) && s.writeLock.None?
    case Test(w) => At(s.writers, w, Testing)
    case CheckCtx(w) => At(s.writers, w, CheckingCtx)
    case Register(w) => At(s.writers, w, Deciding)
    case Park(w) => w in s.writers && s.writers[w].Registered?
    case Wake(w) => w in s.writers && s.writers[w].Parked? && s.writers[w].ticket < s.notified
    case Relock(w) => At(s.writers, w, Relocking) && s.writeLock.None?
    case Leave(w) => w in s.writers && s.writers[w].Leaving?
  }

  predicate CancellerCan(s: State, step: Step)
    requires IsCancellers(step)
  {
    match step
    case CtxDone(w) => true
    case Notice(w) => At(s.cancellers, w, Watching) && w in s.cancelled
    case Dismiss(w) => At(s.cancellers, w, Watching) && w in s.writers && s.writers[w].Returned?
    case CancellerLock(w) => At(s.cancellers, w, WantsLock) && WriteLockFree(s)
    case CancellerBroadcast(w) => At(s.cancellers, w, Holding)
    case CancellerUnlock(w) => At(s.cancellers, w, Woke)
  }

  predicate ResolverCan(s: State, step: Step)
    requires !IsWriters(step) && !IsCancellers(step)
  {
    match step
    case Trigger(r) => r !in s.resolvers && !s.inFailover
    case TakeStreams(r) => At(s.resolvers, r, Won)
    case CancelStreams(r) => r in s.resolvers && s.resolvers[r].Cancelling?
    case Settle(r) => At(s.resolvers, r, Running)
    case ResolverLock(r) => At(s.resolvers, r, WantsWrite) && WriteLockFree(s)
    case Store(r) => At(s.resolvers, r, Locked)
    case ResolverBroadcast(r) => At(s.resolvers, r, Stored)
    case ResolverUnlock(r) => At(s.resolvers, r, Announced)
    case OpenStream(x) => x !in s.feed.open
  }

  predicate Enabled(s: State, step: Step) {
    if IsWriters(step) then WriterCan(s, step)
    else if IsCancellers(step) then CancellerCan(s, step)
    else ResolverCan(s, step)
  }

  /** A stream takes the shared context, and makes a new one if the last was taken away. */
  function Opened(feed: Streams, x: nat): Streams {
    if feed.ctx.Some? then feed.(open := feed.open[x := Stream(feed.ctx.value, feed.terminations)])
    else feed.(ctx := Some(feed.next), next := feed.next + 1, open := feed.open[x := Stream(feed.next, feed.terminations)])
  }

  function WriterDoes(s: State, step: Step): State
    requires IsWriters(step) && WriterCan(s, step)
  {
    match step
    case Call(w) =>
      if s.inFailover then
        s.(writers := s.writers[w := Entering], cancellers := s.cancellers[w := Watching])
      else s.(writers := s.writers[w := Returned(false)])
    case TakeRead(w) => s.(writers := s.writers[w := Testing], readers := s.readers + {w})
    case Test(w) => s.(writers := s.writers[w := if s.inFailover then CheckingCtx else Leaving(false)])
    case CheckCtx(w) => s.(writers := s.writers[w := if w in s.cancelled then Leaving(true) else Deciding])
    case Register(w) => s.(writers := s.writers[w := Registered(s.tickets)], tickets := s.tickets + 1)
    case Park(w) => s.(writers := s.writers[w := Parked(s.writers[w].ticket)], readers := s.readers - {w})
    case Wake(w) => s.(writers := s.writers[w := Relocking])
    case Relock(w) => s.(writers := s.writers[w := Testing], readers := s.readers + {w})
    case Leave(w) => s.(writers := s.writers[w := Returned(s.writers[w].failed)], readers := s.readers - {w})
  }

  function CancellerDoes(s: State, step: Step): State
    requires IsCancellers(step) && CancellerCan(s, step)
  {
    match step
    case CtxDone(w) => s.(cancelled := s.cancelled + {w})
    case Notice(w) => s.(cancellers := s.cancellers[w := WantsLock])
    case Dismiss(w) => s.(cancellers := s.cancellers[w := Gone(false)])
    case CancellerLock(w) => s.(cancellers := s.cancellers[w := Holding], writeLock := Some(ByCanceller(w)))
    case CancellerBroadcast(w) => s.(cancellers := s.cancellers[w := Woke], notified := s.tickets)
    case CancellerUnlock(w) => s.(cancellers := s.cancellers[w := Gone(true)], writeLock := None)
  }

  function ResolverDoes(s: State, step: Step): State
    requires !IsWriters(step) && !IsCancellers(step) && ResolverCan(s, step)
  {
    match step
    case Trigger(r) => s.(inFailover := true, resolvers := s.resolvers[r := Won])
    case TakeStreams(r) =>
      s.(resolvers := s.resolvers[r := Cancelling(s.feed.ctx)],
         feed := s.feed.(ctx := None, terminations := s.feed.terminations + 1))
    case CancelStreams(r) =>
      var taken := if s.resolvers[r].ctx.Some? then {s.resolvers[r].ctx.value} else {};
      s.(resolvers := s.resolvers[r := Running], feed := s.feed.(cancelled := s.feed.cancelled + taken))
    case Settle(r) => s.(resolvers := s.resolvers[r := WantsWrite])
    case ResolverLock(r) => s.(resolvers := s.resolvers[r := Locked], writeLock := Some(ByResolver(r)))
    case Store(r) => s.(resolvers := s.resolvers[r := Stored], inFailover := false)
    case ResolverBroadcast(r) => s.(resolvers := s.resolvers[r := Announced], notified := s.tickets)
    case ResolverUnlock(r) => s.(resolvers := s.resolvers[r := Resolved], writeLock := None)
    case OpenStream(x) => s.(feed := Opened(s.feed, x))
  }

  function Apply(s: State, step: Step): State
    requires Enabled(s, step)
  {
    if IsWriters(step) then WriterDoes(s, step)
    else if IsCancellers(step) then CancellerDoes(s, step)
    else ResolverDoes(s, step)
  }

  /** The steps can be taken from `s`, in order. */
  ghost predicate Valid(s: State, steps: seq<Step>)
    decreases |steps|
  {
    steps == [] || (Enabled(s, steps[0]) && Valid(Apply(s, steps[0]), steps[1..]))
  }

  ghost function After(s: State, steps: seq<Step>): State
    requires Valid(s, steps)
    decreases |steps|
  {
    if steps == [] then s else After(Apply(s, steps[0]), steps[1..])
  }

  // ---------------------------------------------------------------- invariants

  predicate HoldsRead(pc: WriterPc) {
    pc.Testing? || pc.CheckingCtx? || pc.Deciding? || pc.Registered? || pc.Leaving?
  }

  /** Committed to waiting while still holding the read lock. */
  predicate Committed(pc: WriterPc) { pc.CheckingCtx? || pc.Deciding? || pc.Registered? }

  /** Between winning the compare-and-swap and clearing the flag. */
  predicate Active(pc: ResolverPc) {
    pc.Won? || pc.Cancelling? || pc.Running? || pc.WantsWrite? || pc.Locked?
  }

  predicate InsideWake(pc: CancellerPc) { pc.Holding? || pc.Woke? }

  predicate InsideResolve(pc: ResolverPc) { pc.Locked? || pc.Stored? || pc.Announced? }

  /** Asleep, and nobody has notified its ticket. */
  predicate Asleep(s: State, w: nat) {
    w in s.writers && s.writers[w].Parked? && s.writers[w].ticket >= s.notified
  }

  /** A resolver has cleared the flag and holds the write lock for the Broadcast that follows. */
  predicate Announcing(s: State) {
    s.writeLock.Some? && s.writeLock.value.ByResolver? && At(s.resolvers, s.writeLock.value.r, Stored)
  }

  ghost predicate LockInv(s: State) {
    && (forall w :: w in s.readers <==> (w in s.writers && HoldsRead(s.writers[w])))
    && (forall w :: (w in s.cancellers && InsideWake(s.cancellers[w])) <==> s.writeLock == Some(ByCanceller(w)))
    && (forall r :: (r in s.resolvers && InsideResolve(s.resolvers[r])) <==> s.writeLock == Some(ByResolver(r)))
    && (s.writeLock.Some? ==> s.readers == {})
  }

  ghost predicate FlagInv(inFailover: bool, resolvers: map<nat, ResolverPc>) {
    && (forall r :: r in resolvers && Active(resolvers[r]) ==> inFailover)
    && (forall r, q :: r in resolvers && q in resolvers && Active(resolvers[r]) && Active(resolvers[q]) ==> r == q)
    && (inFailover ==> exists r :: r in resolvers && Active(resolvers[r]))
  }

  ghost predicate WaitInv(s: State) {
    && s.notified <= s.tickets
    && (forall w :: w in s.writers && Committed(s.writers[w]) ==> s.inFailover)
    && (forall w :: w in s.writers && (s.writers[w].Registered? || s.writers[w].Parked?) ==> s.writers[w].ticket < s.tickets)
    && (forall w :: Asleep(s, w) ==> s.inFailover || Announcing(s))
  }

  /** Returning, or about to return, the context's error. */
  predicate Fails(pc: WriterPc) { (pc.Leaving? || pc.Returned?) && pc.failed }

  /** The canceller has broadcast, so its writer can no longer be waiting. */
  predicate HasBroadcast(pc: CancellerPc) { pc.Woke? || pc == Gone(true) }

  ghost predicate CancellerInv(s: State) {
    && (forall w :: w in s.cancellers ==> w in s.writers)
    && (forall w :: w in s.writers && !s.writers[w].Returned? ==> w in s.cancellers)
    && (forall w :: w in s.cancellers && s.cancellers[w] == Gone(false) ==> s.writers[w].Returned?)
  }

  /** A writer fails, and its canceller stirs, only if its own context is done. */
  ghost predicate ContextInv(s: State) {
    && (forall w :: w in s.writers && Fails(s.writers[w]) ==> w in s.cancelled)
    && (forall w :: w in s.cancellers && !s.cancellers[w].Watching? && s.cancellers[w] != Gone(false) ==> w in s.cancelled)
  }

  /** The writer is neither asleep nor about to be. */
  predicate Awake(s: State, w: nat) {
    w in s.writers && !s.writers[w].Deciding? && !s.writers[w].Registered? && !Asleep(s, w)
  }

  ghost predicate CancelInv(s: State) {
    forall w :: w in s.cancellers && HasBroadcast(s.cancellers[w]) ==> Awake(s, w)
  }

  /** Resolver `r` is about to cancel the context `ctx`. */
  predicate Ends(resolvers: map<nat, ResolverPc>, ctx: nat, r: nat) { At(resolvers, r, Cancelling(Some(ctx))) }

  ghost predicate StreamInv(feed: Streams, resolvers: map<nat, ResolverPc>) {
    && (feed.ctx.Some? ==> feed.ctx.value < feed.next && feed.ctx.value !in feed.cancelled)
    && (forall c :: c in feed.cancelled ==> c < feed.next)
    && (forall r :: r in resolvers && resolvers[r].Cancelling? && resolvers[r].ctx.Some? ==>
          resolvers[r].ctx.value < feed.next && feed.ctx != resolvers[r].ctx)
    && (forall x :: x in feed.open ==> StreamFits(feed, resolvers, feed.open[x]))
  }

  /** A stream of the current context is not ended; one of an earlier context is, or is about to be. */
  ghost predicate StreamFits(feed: Streams, resolvers: map<nat, ResolverPc>, x: Stream) {
    && x.ctx < feed.next && x.epoch <= feed.terminations
    && (x.epoch == feed.terminations ==> feed.ctx == Some(x.ctx))
    && (x.epoch < feed.terminations ==> x.ctx in feed.cancelled || exists r: nat :: Ends(resolvers, x.ctx, r))
  }

  ghost predicate Inv(s: State) {
    LockInv(s) && FlagInv(s.inFailover, s.resolvers) && WaitInv(s) && CancellerInv(s) && ContextInv(s) && CancelInv(s)
    && StreamInv(s.feed, s.resolvers)
  }

  // ---------------------------------------------------------------- a writer's step

  /** A writer's step leaves the flag, the write lock, the resolvers, the streams and the contexts alone. */
  lemma WriterFrame(s: State, step: Step)
    requires IsWriters(step) && WriterCan(s, step)
    ensures var s' := WriterDoes(s, step);
      && s'.inFailover == s.inFailover && s'.writeLock == s.writeLock && s'.notified == s.notified
      && s'.resolvers == s.resolvers && s'.feed == s.feed && s'.cancelled == s.cancelled
      && (!step.Call? ==> s'.cancellers == s.cancellers)
  {
  }

  lemma WriterLocks(s: State, step: Step)
    requires LockInv(s) && CancellerInv(s) && IsWriters(step) && WriterCan(s, step)
    ensures LockInv(WriterDoes(s, step))
  {
    WriterFrame(s, step);
  }

  lemma WriterWaits(s: State, step: Step)
    requires LockInv(s) && WaitInv(s) && IsWriters(step) && WriterCan(s, step)
    ensures WaitInv(WriterDoes(s, step))
  {
    WriterFrame(s, step);
    var s' := WriterDoes(s, step);
    assert Announcing(s') == Announcing(s);
    forall w | Asleep(s', w) ensures s'.inFailover || Announcing(s') {
      if !(step.Park? && step.w == w) { assert Asleep(s, w); }
    }
  }

  lemma WriterGoes(s: State, step: Step)
    requires CancellerInv(s) && ContextInv(s) && IsWriters(step) && WriterCan(s, step)
    ensures CancellerInv(WriterDoes(s, step)) && ContextInv(WriterDoes(s, step))
  {
  }

  /** Once its canceller has broadcast, nothing puts a writer to sleep. */
  lemma WriterStaysUp(s: State, step: Step, w: nat)
    requires LockInv(s) && WaitInv(s) && CancellerInv(s) && ContextInv(s) && CancelInv(s) && IsWriters(step) && WriterCan(s, step)
    requires w in WriterDoes(s, step).cancellers && HasBroadcast(WriterDoes(s, step).cancellers[w])
    ensures Awake(WriterDoes(s, step), w)
  {
    WriterFrame(s, step);
    assert Awake(s, w);
  }

  // ---------------------------------------------------------------- a canceller's step

  /** A canceller's step leaves the flag, the readers, the writers, the resolvers and the streams alone. */
  lemma CancellerFrame(s: State, step: Step)
    requires IsCancellers(step) && CancellerCan(s, step)
    ensures var s' := CancellerDoes(s, step);
      && s'.inFailover == s.inFailover && s'.readers == s.readers && s'.writers == s.writers && s'.tickets == s.tickets
      && s'.resolvers == s.resolvers && s'.feed == s.feed && s'.cancelled >= s.cancelled
  {
  }

  lemma CancellerLocks(s: State, step: Step)
    requires LockInv(s) && IsCancellers(step) && CancellerCan(s, step)
    ensures LockInv(CancellerDoes(s, step))
  {
    CancellerFrame(s, step);
  }

  lemma CancellerWaits(s: State, step: Step)
    requires LockInv(s) && WaitInv(s) && IsCancellers(step) && CancellerCan(s, step)
    ensures WaitInv(CancellerDoes(s, step))
  {
    CancellerFrame(s, step);
    var s' := CancellerDoes(s, step);
    forall w | Asleep(s', w) ensures s'.inFailover || Announcing(s') { assert Asleep(s, w); }
  }

  lemma CancellerGoes(s: State, step: Step)
    requires CancellerInv(s) && ContextInv(s) && IsCancellers(step) && CancellerCan(s, step)
    ensures CancellerInv(CancellerDoes(s, step)) && ContextInv(CancellerDoes(s, step))
  {
    CancellerFrame(s, step);
  }

  lemma CancellerStaysUp(s: State, step: Step, w: nat)
    requires LockInv(s) && WaitInv(s) && CancellerInv(s) && CancelInv(s) && IsCancellers(step) && CancellerCan(s, step)
    requires w in CancellerDoes(s, step).cancellers && HasBroadcast(CancellerDoes(s, step).cancellers[w])
    ensures Awake(CancellerDoes(s, step), w)
  {
    CancellerFrame(s, step);
    if step == CancellerBroadcast(w) {
      assert s.writeLock == Some(ByCanceller(w)) && w !in s.readers;
    } else {
      assert Awake(s, w);
    }
  }

  // ---------------------------------------------------------------- a resolver's step, or a stream's

  /** A resolver's or a stream's step leaves the readers, the writers, the cancellers and the contexts alone. */
  lemma ResolverFrame(s: State, step: Step)
    requires !IsWriters(step) && !IsCancellers(step) && ResolverCan(s, step)
    ensures var s' := ResolverDoes(s, step);
      && s'.readers == s.readers && s'.writers == s.writers && s'.tickets == s.tickets
      && s'.cancellers == s.cancellers && s'.cancelled == s.cancelled && (s'.notified == s.notified || s'.notified == s.tickets)
  {
  }

  lemma ResolverLocks(s: State, step: Step)
    requires LockInv(s) && !IsWriters(step) && !IsCancellers(step) && ResolverCan(s, step)
    ensures LockInv(ResolverDoes(s, step))
  {
    ResolverFrame(s, step);
  }

  lemma ResolverFlags(s: State, step: Step)
    requires FlagInv(s.inFailover, s.resolvers) && !IsWriters(step) && !IsCancellers(step) && ResolverCan(s, step)
    ensures var s' := ResolverDoes(s, step); FlagInv(s'.inFailover, s'.resolvers)
  {
    var s' := ResolverDoes(s, step);
    if s'.inFailover {
      if step.Trigger? {
        assert step.r in s'.resolvers && Active(s'.resolvers[step.r]);
      } else {
        var r :| r in s.resolvers && Active(s.resolvers[r]);
        assert r in s'.resolvers && Active(s'.resolvers[r]);
      }
    }
  }

  lemma ResolverWaits(s: State, step: Step)
    requires LockInv(s) && WaitInv(s) && !IsWriters(step) && !IsCancellers(step) && ResolverCan(s, step)
    ensures WaitInv(ResolverDoes(s, step))
  {
    ResolverFrame(s, step);
    var s' := ResolverDoes(s, step);
    forall w | Asleep(s', w) ensures s'.inFailover || Announcing(s') { assert Asleep(s, w); }
  }

  lemma ResolverGoes(s: State, step: Step)
    requires CancellerInv(s) && ContextInv(s) && !IsWriters(step) && !IsCancellers(step) && ResolverCan(s, step)
    ensures CancellerInv(ResolverDoes(s, step)) && ContextInv(ResolverDoes(s, step))
  {
    ResolverFrame(s, step);
  }

  lemma ResolverStaysUp(s: State, step: Step, w: nat)
    requires LockInv(s) && WaitInv(s) && CancellerInv(s) && CancelInv(s)
    requires !IsWriters(step) && !IsCancellers(step) && ResolverCan(s, step)
    requires w in ResolverDoes(s, step).cancellers && HasBroadcast(ResolverDoes(s, step).cancellers[w])
    ensures Awake(ResolverDoes(s, step), w)
  {
    ResolverFrame(s, step);
    assert Awake(s, w);
  }

  lemma TakesStreams(s: State, r: nat)
    requires StreamInv(s.feed, s.resolvers) && ResolverCan(s, TakeStreams(r))
    ensures var s' := ResolverDoes(s, TakeStreams(r)); StreamInv(s'.feed, s'.resolvers)
  {
    var s' := ResolverDoes(s, TakeStreams(r));
    forall x | x in s'.feed.open ensures StreamFits(s'.feed, s'.resolvers, s'.feed.open[x]) {
      var ctx := s.feed.open[x].ctx;
      if s.feed.open[x].epoch == s.feed.terminations {
        assert Ends(s'.resolvers, ctx, r);
      } else if ctx !in s'.feed.cancelled {
        var q: nat :| Ends(s.resolvers, ctx, q);
        assert Ends(s'.resolvers, ctx, q);
      }
    }
  }

  lemma StreamsKept(s: State, step: Step)
    requires StreamInv(s.feed, s.resolvers) && !step.TakeStreams? && !IsWriters(step) && !IsCancellers(step) && ResolverCan(s, step)
    ensures var s' := ResolverDoes(s, step); StreamInv(s'.feed, s'.resolvers)
  {
    var s' := ResolverDoes(s, step);
    forall x | x in s'.feed.open ensures StreamFits(s'.feed, s'.resolvers, s'.feed.open[x]) {
      var y := s'.feed.open[x];
      if y.epoch < s'.feed.terminations && y.ctx !in s'.feed.cancelled {
        var q: nat :| Ends(s.resolvers, y.ctx, q);
        assert Ends(s'.resolvers, y.ctx, q);
      }
    }
  }

  // ---------------------------------------------------------------- any step

  lemma InvStep(s: State, step: Step)
    requires Inv(s) && Enabled(s, step)
    ensures Inv(Apply(s, step))
  {
    if IsWriters(step) {
      WriterInv(s, step);
    } else if IsCancellers(step) {
      CancellersInv(s, step);
    } else {
      ResolverInv(s, step);
    }
  }

  lemma WriterInv(s: State, step: Step)
    requires Inv(s) && IsWriters(step) && WriterCan(s, step)
    ensures Inv(WriterDoes(s, step))
  {
    WriterFrame(s, step);
    WriterLocks(s, step);
    WriterWaits(s, step);
    WriterGoes(s, step);
    var s' := WriterDoes(s, step);
    forall w | w in s'.cancellers && HasBroadcast(s'.cancellers[w]) ensures Awake(s', w) { WriterStaysUp(s, step, w); }
  }

  lemma CancellersInv(s: State, step: Step)
    requires Inv(s) && IsCancellers(step) && CancellerCan(s, step)
    ensures Inv(CancellerDoes(s, step))
  {
    CancellerFrame(s, step);
    CancellerLocks(s, step);
    CancellerWaits(s, step);
    CancellerGoes(s, step);
    var s' := CancellerDoes(s, step);
    forall w | w in s'.cancellers && HasBroadcast(s'.cancellers[w]) ensures Awake(s', w) { CancellerStaysUp(s, step, w); }
  }

  lemma ResolverInv(s: State, step: Step)
    requires Inv(s) && !IsWriters(step) && !IsCancellers(step) && ResolverCan(s, step)
    ensures Inv(ResolverDoes(s, step))
  {
    ResolverLocks(s, step);
    ResolverFlags(s, step);
    ResolverWaits(s, step);
    ResolverGoes(s, step);
    if step.TakeStreams? { TakesStreams(s, step.r); } else { StreamsKept(s, step); }
    var s' := ResolverDoes(s, step);
    forall w | w in s'.cancellers && HasBroadcast(s'.cancellers[w]) ensures Awake(s', w) { ResolverStaysUp(s, step, w); }
  }

  lemma {:induction false} InvRun(s: State, steps: seq<Step>)
    requires Inv(s) && Valid(s, steps)
    ensures Inv(After(s, steps))
    decreases |steps|
  {
    if steps != [] {
      InvStep(s, steps[0]);
      InvRun(Apply(s, steps[0]), steps[1..]);
    }
  }

  // ---------------------------------------------------------------- what the protocol promises

  /**
   No lost wakeup.  In every run, a writer asleep with nobody having notified it is owed a
   broadcast: either one failover is unresolved, and exactly one resolver is on its way to
   clearing the flag, or a resolver holds the write lock between clearing it and broadcasting.
   And a writer asleep with a done context still has its own canceller short of its broadcast.
   */
  lemma NoLostWakeup(steps: seq<Step>, w: nat)
    requires Valid(Init, steps) && Asleep(After(Init, steps), w)
    ensures var s := After(Init, steps);
      && (s.inFailover || Announcing(s))
      && (s.inFailover ==> exists r :: r in s.resolvers && Active(s.resolvers[r]))
      && w in s.cancellers && !HasBroadcast(s.cancellers[w]) && !s.cancellers[w].Gone?
  {
    InvRun(Init, steps);
  }

  /** A writer that gives up does so on its own expired context, never on somebody else's. */
  lemma FailsOnlyOnOwnContext(steps: seq<Step>, w: nat)
    requires Valid(Init, steps) && w in After(Init, steps).writers
    requires After(Init, steps).writers[w] == Returned(true)
    ensures w in After(Init, steps).cancelled
  {
    InvRun(Init, steps);
  }

  /** The flag is as `flag` says in every state of the run, from its first to its last. */
  ghost predicate FlagThroughout(s: State, steps: seq<Step>, flag: bool)
    requires Valid(s, steps)
    decreases |steps|
  {
    s.inFailover == flag && (steps == [] || FlagThroughout(Apply(s, steps[0]), steps[1..], flag))
  }

  /** Not called yet, or called and not let through. */
  predicate HeldBack(s: State, w: nat) {
    w in s.writers ==> !(s.writers[w].Leaving? && !s.writers[w].failed) && !(s.writers[w].Returned? && !s.writers[w].failed)
  }

  lemma HeldBackStep(s: State, step: Step, w: nat)
    requires s.inFailover && Enabled(s, step) && HeldBack(s, w)
    ensures HeldBack(Apply(s, step), w)
  {
  }

  lemma {:induction false} HeldBackRun(s: State, steps: seq<Step>, w: nat)
    requires Valid(s, steps) && FlagThroughout(s, steps, true) && HeldBack(s, w)
    ensures HeldBack(After(s, steps), w)
    decreases |steps|
  {
    if steps != [] {
      HeldBackStep(s, steps[0], w);
      HeldBackRun(Apply(s, steps[0]), steps[1..], w);
    }
  }

  /**
   A writer that calls during a failover stays paused: in every run, as long as the flag has been
   set in every state since the one it called in, it has not come back without an error; and it
   has not come back at all if its context is not done.
   */
  lemma PausedWhileFlagged(before: seq<Step>, since: seq<Step>, w: nat)
    requires Valid(Init, before) && w !in After(Init, before).writers && Valid(After(Init, before), since)
    requires FlagThroughout(After(Init, before), since, true)
    requires w in After(After(Init, before), since).writers
    ensures var s := After(After(Init, before), since);
      s.writers[w] != Returned(false) && (w !in s.cancelled ==> !s.writers[w].Returned?)
  {
    var s := After(Init, before);
    HeldBackRun(s, since, w);
    InvRun(Init, before);
    InvRun(s, since);
  }

  /** And only a failover pauses: as long as the flag has been clear in every state since its call, a writer has come back. */
  lemma {:induction false} PassesWhileClear(s: State, since: seq<Step>, w: nat)
    requires Valid(s, since) && FlagThroughout(s, since, false) && (w in s.writers ==> s.writers[w] == Returned(false))
    ensures w in After(s, since).writers ==> After(s, since).writers[w] == Returned(false)
    decreases |since|
  {
    if since != [] { PassesWhileClear(Apply(s, since[0]), since[1..], w); }
  }

  /**
   In every run the flag is set exactly while one failover lies between winning the
   compare-and-swap and clearing it.
   */
  lemma OneResolver(steps: seq<Step>)
    requires Valid(Init, steps)
    ensures var s := After(Init, steps);
      && (s.inFailover <==> exists r :: r in s.resolvers && Active(s.resolvers[r]))
      && (forall r, q :: r in s.resolvers && q in s.resolvers && Active(s.resolvers[r]) && Active(s.resolvers[q]) ==> r == q)
  {
    InvRun(Init, steps);
  }

  /**
   In every run, whenever no termination is between taking the stream context away and
   cancelling it, a stream has been cancelled exactly when it took its context before the
   latest termination.
   */
  lemma StreamsEndedExactly(steps: seq<Step>, x: nat)
    requires Valid(Init, steps)
    requires x in After(Init, steps).feed.open
    requires forall r :: r in After(Init, steps).resolvers ==> !After(Init, steps).resolvers[r].Cancelling?
    ensures var s := After(Init, steps);
      s.feed.open[x].ctx in s.feed.cancelled <==> s.feed.open[x].epoch < s.feed.terminations
  {
    InvRun(Init, steps);
  }

  // ---------------------------------------------------------------- no writer is ever stranded

  /** A step of a goroutine already started: no new caller, failover, stream or cancellation. */
  predicate Internal(step: Step) {
    !step.Call? && !step.CtxDone? && !step.Trigger? && !step.OpenStream?
  }

  /** Somebody is waiting for the write lock. */
  ghost predicate WriteWanted(s: State) {
    (exists w: nat :: At(s.cancellers, w, WantsLock)) || (exists r: nat :: At(s.resolvers, r, WantsWrite))
  }

  /**
   A step that lets no reader in past a waiting writer.  Go's lock holds new readers back while a
   writer waits, and lets in those already held back when it is done, so what it allows lies
   between these steps and all that are enabled.
   */
  ghost predicate Polite(s: State, step: Step) {
    Internal(step) && Enabled(s, step) && (step.TakeRead? || step.Relock? ==> !WriteWanted(s))
  }

  ghost predicate AllPolite(s: State, steps: seq<Step>)
    decreases |steps|
  {
    steps == [] || (Polite(s, steps[0]) && AllPolite(Apply(s, steps[0]), steps[1..]))
  }

  ghost predicate Leads(s: State, steps: seq<Step>, t: State) { AllPolite(s, steps) && Valid(s, steps) && After(s, steps) == t }

  /** The goroutines already started can by themselves take `s` to `t`, no reader going in past a waiting writer. */
  ghost predicate CanReach(s: State, t: State) { exists steps :: Leads(s, steps, t) }

  lemma Stay(s: State)
    ensures CanReach(s, s)
  {
    assert Leads(s, [], s);
  }

  lemma Precede(s: State, step: Step, t: State)
    requires Polite(s, step) && CanReach(Apply(s, step), t)
    ensures CanReach(s, t)
  {
    var steps :| Leads(Apply(s, step), steps, t);
    assert ([step] + steps)[1..] == steps;
    assert Leads(s, [step] + steps, t);
  }

  lemma InvReach(s: State, t: State)
    requires Inv(s) && CanReach(s, t)
    ensures Inv(t)
  {
    var steps :| Leads(s, steps, t);
    InvRun(s, steps);
  }

  // ---------------------------------------------------------------- how much the goroutines can still do

  ghost function TotalOf(keys: set<nat>, m: map<nat, nat>): nat
    requires keys <= m.Keys
  {
    if keys == {} then 0
    else
      var k :| k in keys;
      m[k] + TotalOf(keys - {k}, m)
  }

  ghost function Total(m: map<nat, nat>): nat { TotalOf(m.Keys, m) }

  lemma {:induction false} TotalSplit(keys: set<nat>, m: map<nat, nat>, k: nat)
    requires keys <= m.Keys && k in keys
    ensures TotalOf(keys, m) == m[k] + TotalOf(keys - {k}, m)
    decreases keys
  {
    var j :| j in keys && TotalOf(keys, m) == m[j] + TotalOf(keys - {j}, m);
    if j != k {
      TotalSplit(keys - {j}, m, k);
      TotalSplit(keys - {k}, m, j);
      assert keys - {j} - {k} == keys - {k} - {j};
    }
  }

  /** Entries that grow by at most `c` each make the total grow by at most `c` for each of them. */
  lemma {:induction false} TotalGrows(keys: set<nat>, a: map<nat, nat>, b: map<nat, nat>, c: nat)
    requires keys <= a.Keys && keys <= b.Keys && forall k :: k in keys ==> b[k] <= a[k] + c
    ensures TotalOf(keys, b) <= TotalOf(keys, a) + c * |keys|
    decreases keys
  {
    if keys != {} {
      var k :| k in keys;
      TotalSplit(keys, a, k);
      TotalSplit(keys, b, k);
      TotalGrows(keys - {k}, a, b, c);
      assert c * |keys| == c * (|keys| - 1) + c;
    }
  }

  lemma TotalPut(m: map<nat, nat>, k: nat, v: nat)
    requires k in m
    ensures Total(m[k := v]) + m[k] == Total(m) + v
  {
    var n := m[k := v];
    TotalSplit(m.Keys, m, k);
    TotalSplit(n.Keys, n, k);
    assert n.Keys == m.Keys;
    TotalGrows(m.Keys - {k}, m, n, 0);
    TotalGrows(m.Keys - {k}, n, m, 0);
  }

  /** How many steps a writer can take before it sleeps or has returned. */
  function WriterRank(pc: WriterPc, notified: nat): nat {
    match pc
    case Returned(_) => 0
    case Leaving(_) => 1
    case Parked(ticket) => if ticket < notified then 8 else 2
    case Registered(ticket) => if ticket < notified then 9 else 3
    case Deciding => 4
    case CheckingCtx => 5
    case Testing => 6
    case Relocking => 7
    case Entering => 7
  }

  /** A goroutine that has yet to broadcast may set `load` steps of writers going. */
  function CancellerRank(pc: CancellerPc, load: nat): nat {
    match pc
    case Watching => load + 4
    case WantsLock => load + 3
    case Holding => load + 2
    case Woke => 1
    case Gone(_) => 0
  }

  function ResolverRank(pc: ResolverPc, load: nat): nat {
    match pc
    case Won => load + 7
    case Cancelling(_) => load + 6
    case Running => load + 5
    case WantsWrite => load + 4
    case Locked => load + 3
    case Stored => load + 2
    case Announced => 1
    case Resolved => 0
  }

  function WriterRanks(writers: map<nat, WriterPc>, notified: nat): map<nat, nat> {
    map w | w in writers :: WriterRank(writers[w], notified)
  }

  function CancellerRanks(cancellers: map<nat, CancellerPc>, load: nat): map<nat, nat> {
    map w | w in cancellers :: CancellerRank(cancellers[w], load)
  }

  function ResolverRanks(resolvers: map<nat, ResolverPc>, load: nat): map<nat, nat> {
    map r | r in resolvers :: ResolverRank(resolvers[r], load)
  }

  ghost function Load(s: State): nat { 9 * |s.writers| }

  /** A bound on the steps the goroutines already started can take. */
  ghost function Measure(s: State): nat {
    Total(WriterRanks(s.writers, s.notified)) + Total(CancellerRanks(s.cancellers, Load(s)))
    + Total(ResolverRanks(s.resolvers, Load(s)))
  }

  lemma WriterMoves(writers: map<nat, WriterPc>, notified: nat, w: nat, pc: WriterPc)
    requires w in writers && WriterRank(pc, notified) < WriterRank(writers[w], notified)
    ensures |writers[w := pc]| == |writers|
    ensures Total(WriterRanks(writers[w := pc], notified)) < Total(WriterRanks(writers, notified))
  {
    var ranks := WriterRanks(writers, notified);
    assert WriterRanks(writers[w := pc], notified) == ranks[w := WriterRank(pc, notified)];
    TotalPut(ranks, w, WriterRank(pc, notified));
    assert writers[w := pc].Keys == writers.Keys;
    assert |writers[w := pc].Keys| == |writers[w := pc]| && |writers.Keys| == |writers|;
  }

  /** A canceller that moves on gives up `CancellerRank(was) - CancellerRank(pc)`. */
  lemma CancellerMoves(cancellers: map<nat, CancellerPc>, load: nat, w: nat, pc: CancellerPc)
    requires w in cancellers
    ensures Total(CancellerRanks(cancellers[w := pc], load)) + CancellerRank(cancellers[w], load)
         == Total(CancellerRanks(cancellers, load)) + CancellerRank(pc, load)
  {
    var ranks := CancellerRanks(cancellers, load);
    assert CancellerRanks(cancellers[w := pc], load) == ranks[w := CancellerRank(pc, load)];
    TotalPut(ranks, w, CancellerRank(pc, load));
  }

  lemma ResolverMoves(resolvers: map<nat, ResolverPc>, load: nat, r: nat, pc: ResolverPc)
    requires r in resolvers
    ensures Total(ResolverRanks(resolvers[r := pc], load)) + ResolverRank(resolvers[r], load)
         == Total(ResolverRanks(resolvers, load)) + ResolverRank(pc, load)
  {
    var ranks := ResolverRanks(resolvers, load);
    assert ResolverRanks(resolvers[r := pc], load) == ranks[r := ResolverRank(pc, load)];
    TotalPut(ranks, r, ResolverRank(pc, load));
  }

  /** A broadcast sets at most nine steps of each writer going. */
  lemma BroadcastLoads(writers: map<nat, WriterPc>, notified: nat, tickets: nat)
    ensures Total(WriterRanks(writers, tickets)) <= Total(WriterRanks(writers, notified)) + 9 * |writers|
  {
    TotalGrows(writers.Keys, WriterRanks(writers, notified), WriterRanks(writers, tickets), 9);
    assert WriterRanks(writers, notified).Keys == writers.Keys == WriterRanks(writers, tickets).Keys;
    assert |writers.Keys| == |writers|;
  }

  lemma WriterDescends(s: State, step: Step)
    requires s.notified <= s.tickets && Internal(step) && IsWriters(step) && WriterCan(s, step)
    ensures Measure(WriterDoes(s, step)) < Measure(s)
  {
    WriterFrame(s, step);
    var pc := WriterDoes(s, step).writers[step.w];
    assert WriterDoes(s, step).writers == s.writers[step.w := pc];
    WriterMoves(s.writers, s.notified, step.w, pc);
  }

  lemma CancellerDescends(s: State, step: Step)
    requires Internal(step) && IsCancellers(step) && CancellerCan(s, step)
    ensures Measure(CancellerDoes(s, step)) < Measure(s)
  {
    CancellerFrame(s, step);
    var pc := CancellerDoes(s, step).cancellers[step.w];
    assert CancellerDoes(s, step).cancellers == s.cancellers[step.w := pc];
    CancellerMoves(s.cancellers, Load(s), step.w, pc);
    if step.CancellerBroadcast? { BroadcastLoads(s.writers, s.notified, s.tickets); }
  }

  lemma ResolverBroadcasts(s: State, r: nat)
    requires ResolverCan(s, ResolverBroadcast(r))
    ensures Measure(ResolverDoes(s, ResolverBroadcast(r))) < Measure(s)
  {
    ResolverMoves(s.resolvers, Load(s), r, Announced);
    BroadcastLoads(s.writers, s.notified, s.tickets);
  }

  /** A resolver's step but its broadcast moves that resolver down, whatever the load. */
  lemma ResolverStepsDown(s: State, step: Step, load: nat)
    requires Internal(step) && !step.ResolverBroadcast? && !IsWriters(step) && !IsCancellers(step) && ResolverCan(s, step)
    ensures var s' := ResolverDoes(s, step);
      && step.r in s.resolvers && step.r in s'.resolvers && s'.resolvers == s.resolvers[step.r := s'.resolvers[step.r]]
      && ResolverRank(s'.resolvers[step.r], load) < ResolverRank(s.resolvers[step.r], load)
      && s'.notified == s.notified
  {
  }

  lemma MeasureByResolver(s: State, s': State, r: nat)
    requires s'.writers == s.writers && s'.notified == s.notified && s'.cancellers == s.cancellers
    requires r in s.resolvers && r in s'.resolvers && s'.resolvers == s.resolvers[r := s'.resolvers[r]]
    requires ResolverRank(s'.resolvers[r], Load(s)) < ResolverRank(s.resolvers[r], Load(s))
    ensures Measure(s') < Measure(s)
  {
    ResolverMoves(s.resolvers, Load(s), r, s'.resolvers[r]);
  }

  lemma ResolverDescends(s: State, step: Step)
    requires Internal(step) && !step.ResolverBroadcast? && !IsWriters(step) && !IsCancellers(step) && ResolverCan(s, step)
    ensures Measure(ResolverDoes(s, step)) < Measure(s)
  {
    ResolverFrame(s, step);
    ResolverStepsDown(s, step, Load(s));
    MeasureByResolver(s, ResolverDoes(s, step), step.r);
  }

  lemma Descends(s: State, step: Step)
    requires Inv(s) && Internal(step) && Enabled(s, step)
    ensures Measure(Apply(s, step)) < Measure(s)
  {
    if IsWriters(step) {
      WriterDescends(s, step);
    } else if IsCancellers(step) {
      CancellerDescends(s, step);
    } else if step.ResolverBroadcast? {
      ResolverBroadcasts(s, step.r);
    } else {
      ResolverDescends(s, step);
    }
  }

  ghost predicate AllInternal(steps: seq<Step>) { forall i :: 0 <= i < |steps| ==> Internal(steps[i]) }

  lemma InternalRest(steps: seq<Step>)
    requires steps != [] && AllInternal(steps)
    ensures AllInternal(steps[1..])
  {
  }

  /** However the goroutines already started are scheduled, they take no more steps than the measure. */
  lemma {:induction false} RunsAreShort(s: State, steps: seq<Step>)
    requires Inv(s) && Valid(s, steps) && AllInternal(steps)
    ensures |steps| + Measure(After(s, steps)) <= Measure(s)
    decreases |steps|
  {
    if steps != [] {
      Descends(s, steps[0]);
      InvStep(s, steps[0]);
      InternalRest(steps);
      RunsAreShort(Apply(s, steps[0]), steps[1..]);
    }
  }

  // ---------------------------------------------------------------- where they stop

  /** No goroutine already started can take a step, readers giving way to waiting writers. */
  ghost predicate Stuck(s: State) { forall step :: !Polite(s, step) }

  ghost predicate AllReturned(s: State) { forall w :: w in s.writers ==> s.writers[w].Returned? }

  /** Whoever holds the write lock can go on. */
  lemma OwnerMoves(s: State) returns (step: Step)
    requires LockInv(s) && s.writeLock.Some?
    ensures Polite(s, step)
  {
    match s.writeLock.value
    case ByCanceller(w) => step := if s.cancellers[w].Holding? then CancellerBroadcast(w) else CancellerUnlock(w);
    case ByResolver(r) =>
      step := match s.resolvers[r] case Locked => Store(r) case Stored => ResolverBroadcast(r) case _ => ResolverUnlock(r);
  }

  /** Whoever holds the read lock can go on: it never waits with the lock in hand. */
  lemma ReaderMoves(s: State, w: nat) returns (step: Step)
    requires LockInv(s) && w in s.readers
    ensures Polite(s, step)
  {
    step := match s.writers[w]
      case Testing => Test(w)
      case CheckingCtx => CheckCtx(w)
      case Deciding => Register(w)
      case Registered(_) => Park(w)
      case _ => Leave(w);
  }

  /** With the lock free, a resolver on its way to clearing the flag can go on. */
  lemma ResolverGoesOn(s: State, r: nat) returns (step: Step)
    requires LockInv(s) && WriteLockFree(s) && r in s.resolvers && Active(s.resolvers[r])
    ensures Polite(s, step)
  {
    step := match s.resolvers[r]
      case Won => TakeStreams(r)
      case Cancelling(_) => CancelStreams(r)
      case Running => Settle(r)
      case _ => ResolverLock(r);
  }

  /** As long as a writer has not returned, some goroutine can go on. */
  lemma SomeoneMoves(s: State, w: nat) returns (step: Step)
    requires Inv(s) && w in s.writers && !s.writers[w].Returned?
    ensures Polite(s, step)
  {
    if s.writeLock.Some? {
      step := OwnerMoves(s);
    } else if v :| v in s.readers {
      step := ReaderMoves(s, v);
    } else if s.inFailover {
      var r :| r in s.resolvers && Active(s.resolvers[r]);
      step := ResolverGoesOn(s, r);
    } else if v: nat :| At(s.cancellers, v, WantsLock) {
      step := CancellerLock(v);
    } else if q: nat :| At(s.resolvers, q, WantsWrite) {
      step := ResolverLock(q);
    } else {
      assert w !in s.readers && !Asleep(s, w);
      step := match s.writers[w] case Entering => TakeRead(w) case Relocking => Relock(w) case _ => Wake(w);
    }
  }

  lemma StuckIsOver(s: State)
    requires Inv(s) && Stuck(s)
    ensures AllReturned(s)
  {
    forall w | w in s.writers ensures s.writers[w].Returned? {
      if !s.writers[w].Returned? { var step := SomeoneMoves(s, w); }
    }
  }

  /**
   Every writer comes back, under every schedule.  From every state of every run, however the
   goroutines already started go on, they take at most `Measure` steps, and when none of them can
   take another, even with new readers held back while a writer waits, every writer has returned:
   no later failover, no context expiring and no further caller is needed, and no order of steps
   can keep a writer waiting.
   */
  lemma EveryoneReturns(steps: seq<Step>, more: seq<Step>)
    requires Valid(Init, steps) && Valid(After(Init, steps), more)
    requires AllInternal(more)
    ensures var s := After(Init, steps);
      && |more| <= Measure(s)
      && (Stuck(After(s, more)) ==> AllReturned(After(s, more)))
  {
    InvRun(Init, steps);
    ShortAndOver(After(Init, steps), more);
  }

  lemma ShortAndOver(s: State, more: seq<Step>)
    requires Inv(s) && Valid(s, more) && AllInternal(more)
    ensures |more| <= Measure(s) && (Stuck(After(s, more)) ==> AllReturned(After(s, more)))
  {
    RunsAreShort(s, more);
    InvRun(s, more);
    if Stuck(After(s, more)) { StuckIsOver(After(s, more)); }
  }

  /** The goroutines can always be run until they stop. */
  lemma {:induction false} RunOut(s: State) returns (t: State)
    requires Inv(s)
    ensures CanReach(s, t) && Stuck(t)
    decreases Measure(s)
  {
    if step :| Polite(s, step) {
      Descends(s, step);
      InvStep(s, step);
      t := RunOut(Apply(s, step));
      Precede(s, step, t);
    } else {
      t := s;
      Stay(s);
    }
  }

  /** And such an end exists: from every state of every run, the goroutines can bring all writers back. */
  lemma NeverStranded(steps: seq<Step>)
    requires Valid(Init, steps)
    ensures exists t :: CanReach(After(Init, steps), t) && AllReturned(t)
  {
    var s := After(Init, steps);
    InvRun(Init, steps);
    var t := RunOut(s);
    InvReach(s, t);
    StuckIsOver(t);
  }
}
