/** The cancellation token of `runtime/src/cancel.rs`: an atomic flag, a `tokio` `Notify`, and any number of tasks that
    cancel or wait, interleaved one atomic operation at a time.

    `Notify` is modelled by its contract: a `Notified` future belongs to the generation in which it was created, and
    `notify_waiters` starts a new generation, so it wakes exactly the futures of earlier generations, polled or not. */
module CancelToken {

  /** Where one task that runs `cancelled()` is in its loop. */
  datatype Waiter =
    | Looping                    // about to create its `Notified` future
    | Registered(since: nat)     // holds a future of generation `since`, about to load the flag
    | Waiting(since: nat)        // loaded `false`, awaits that future
    | Returned                   // loaded `true`
    | Abandoned                  // its own future was dropped

  /** Where one task that may cancel is: holding a guard, or inside `cancel()`. */
  datatype Canceller =
    | Guarding(armed: bool)      // holds a `CancelOnDrop`
    | Released                   // dropped a disarmed guard
    | Called                     // entered `cancel()`, about to store the flag
    | Stored                     // stored the flag, about to notify
    | Finished                   // `cancel()` returned

  datatype State = State(cancelled: bool, generation: nat, waiters: map<nat, Waiter>, cancellers: map<nat, Canceller>)

  datatype Step =
    | SpawnWaiter(id: nat)
    | Register(id: nat)
    | Check(id: nat)
    | Wake(id: nat)
    | Abandon(id: nat)
    | Guard(id: nat)
    | Disarm(id: nat)
    | DropGuard(id: nat)
    | Call(id: nat)
    | Store(id: nat)
    | Notify(id: nat)

  const START := State(false, 0, map[], map[])

  predicate Enabled(s: State, step: Step) {
    match step
    case SpawnWaiter(id) => id !in s.waiters
    case Register(id) => id in s.waiters && s.waiters[id].Looping?
    case Check(id) => id in s.waiters && s.waiters[id].Registered?
    case Wake(id) => id in s.waiters && Woken(s, id)
    case Abandon(id) => id in s.waiters && !s.waiters[id].Returned?
    case Guard(id) => id !in s.cancellers
    case Disarm(id) => id in s.cancellers && s.cancellers[id].Guarding?
    case DropGuard(id) => id in s.cancellers && s.cancellers[id].Guarding?
    case Call(id) => id !in s.cancellers
    case Store(id) => id in s.cancellers && s.cancellers[id].Called?
    case Notify(id) => id in s.cancellers && s.cancellers[id].Stored?
  }

  /** A waiter whose future a later generation has completed: its task is scheduled to run again. */
  predicate Woken(s: State, id: nat)
    requires id in s.waiters
  {
    s.waiters[id].Waiting? && s.waiters[id].since < s.generation
  }

  predicate Blocked(s: State, id: nat)
    requires id in s.waiters
  {
    s.waiters[id].Waiting? && !Woken(s, id)
  }

  function Next(s: State, step: Step): State
    requires Enabled(s, step)
  {
    match step
    case SpawnWaiter(id) => s.(waiters := s.waiters[id := Looping])
    case Register(id) => s.(waiters := s.waiters[id := Registered(s.generation)])
    case Check(id) =>
      s.(waiters := s.waiters[id := if s.cancelled then Returned else Waiting(s.waiters[id].since)])
    case Wake(id) => s.(waiters := s.waiters[id := Looping])
    case Abandon(id) => s.(waiters := s.waiters[id := Abandoned])
    case Guard(id) => s.(cancellers := s.cancellers[id := Guarding(true)])
    case Disarm(id) => s.(cancellers := s.cancellers[id := Guarding(false)])
    case DropGuard(id) =>
      s.(cancellers := s.cancellers[id := if s.cancellers[id].armed then Called else Released])
    case Call(id) => s.(cancellers := s.cancellers[id := Called])
    case Store(id) => s.(cancelled := true, cancellers := s.cancellers[id := Stored])
    case Notify(id) => s.(generation := s.generation + 1, cancellers := s.cancellers[id := Finished])
  }

  /** A run is a start state and the interleaved steps taken from it. */
  predicate Allowed(s: State, steps: seq<Step>)
    decreases |steps|
  {
    steps == [] || (Enabled(s, steps[0]) && Allowed(Next(s, steps[0]), steps[1..]))
  }

  function After(s: State, steps: seq<Step>): State
    requires Allowed(s, steps)
    decreases |steps|
  {
    if steps == [] then s else After(Next(s, steps[0]), steps[1..])
  }

  ghost predicate Reachable(s: State) {
    exists steps :: Allowed(START, steps) && After(START, steps) == s
  }

  ghost predicate SomeFinished(s: State) {
    exists id | id in s.cancellers :: s.cancellers[id].Finished?
  }

  /** What every interleaving keeps. A waiter that loaded `false` registered before the first notification, because
      every notification follows a store. */
  ghost predicate Invariant(s: State) {
    && (s.generation > 0 ==> s.cancelled)
    && (SomeFinished(s) ==> s.generation > 0)
    && (forall id | id in s.waiters :: s.waiters[id].Registered? ==> s.waiters[id].since <= s.generation)
    && (forall id | id in s.waiters :: s.waiters[id].Waiting? ==> s.waiters[id].since == 0)
    && (forall id | id in s.waiters :: s.waiters[id].Returned? ==> s.cancelled)
    && (forall id | id in s.cancellers :: s.cancellers[id].Stored? || s.cancellers[id].Finished? ==> s.cancelled)
    && (s.cancelled ==> exists id | id in s.cancellers :: s.cancellers[id].Stored? || s.cancellers[id].Finished?)
  }

  lemma NextKeepsInvariant(s: State, step: Step)
    requires Invariant(s) && Enabled(s, step)
    ensures Invariant(Next(s, step))
  {
    var t := Next(s, step);
    if SomeFinished(t) && !SomeFinished(s) {
      assert step.Notify?;
    }
    if t.cancelled {
      if s.cancelled {
        var id :| id in s.cancellers && (s.cancellers[id].Stored? || s.cancellers[id].Finished?);
        assert id in t.cancellers && (t.cancellers[id].Stored? || t.cancellers[id].Finished?);
      } else {
        assert step.Store? && t.cancellers[step.id].Stored?;
      }
    }
  }

  lemma {:induction false} AfterKeepsInvariant(s: State, steps: seq<Step>)
    requires Invariant(s) && Allowed(s, steps)
    ensures Invariant(After(s, steps))
    decreases |steps|
  {
    if steps != [] {
      NextKeepsInvariant(s, steps[0]);
      AfterKeepsInvariant(Next(s, steps[0]), steps[1..]);
    }
  }

  lemma ReachableInvariant(s: State)
    requires Reachable(s)
    ensures Invariant(s)
  {
    var steps :| Allowed(START, steps) && After(START, steps) == s;
    AfterKeepsInvariant(START, steps);
  }

  /** No lost wakeup: once one `cancel()` has returned, no waiter is blocked, whatever the others still do; and a
      waiter returns only if the flag is set. */
  lemma NoLostWakeup(s: State, id: nat)
    requires Reachable(s) && id in s.waiters
    ensures SomeFinished(s) ==> !Blocked(s, id)
    ensures s.waiters[id].Returned? ==> s.cancelled
  {
    ReachableInvariant(s);
  }

  /** The flag, a finished `cancel()`, and a returned waiter are for ever, over any continuation. */
  lemma {:induction false} CancellationIsLasting(s: State, steps: seq<Step>)
    requires Allowed(s, steps)
    ensures s.cancelled ==> After(s, steps).cancelled
    ensures SomeFinished(s) ==> SomeFinished(After(s, steps))
    ensures forall id | id in s.waiters && s.waiters[id].Returned? ::
              id in After(s, steps).waiters && After(s, steps).waiters[id].Returned?
    decreases |steps|
  {
    if steps != [] {
      var t := Next(s, steps[0]);
      if SomeFinished(s) {
        var id :| id in s.cancellers && s.cancellers[id].Finished?;
        assert id in t.cancellers && t.cancellers[id].Finished?;
      }
      CancellationIsLasting(t, steps[1..]);
    }
  }

  /** The steps a waiter still takes before it returns, once the flag is set and notified. */
  function Remaining(w: Waiter): nat {
    match w
    case Waiting(_) => 3
    case Looping => 2
    case Registered(_) => 1
    case Returned => 0
    case Abandoned => 0
  }

  /** The one step of its own that a waiter has in its loop. */
  function OwnStep(s: State, id: nat): Step
    requires id in s.waiters && Remaining(s.waiters[id]) > 0
  {
    match s.waiters[id]
    case Looping => Register(id)
    case Registered(_) => Check(id)
    case Waiting(_) => Wake(id)
  }

  /** The steps a waiter takes itself: of its loop, or the drop of its future. */
  predicate IsOwn(step: Step, id: nat) {
    step in {Register(id), Check(id), Wake(id)}
  }

  /** How many steps of its own loop a run gives a waiter. */
  function OwnSteps(steps: seq<Step>, id: nat): nat {
    if steps == [] then 0 else (if IsOwn(steps[0], id) then 1 else 0) + OwnSteps(steps[1..], id)
  }

  lemma WaiterSteps(s: State, id: nat, step: Step)
    requires Invariant(s) && SomeFinished(s) && id in s.waiters && !s.waiters[id].Abandoned?
    requires Enabled(s, step) && step != Abandon(id)
    ensures var t := Next(s, step);
            id in t.waiters && !t.waiters[id].Abandoned?
            && Remaining(t.waiters[id]) + (if IsOwn(step, id) then 1 else 0) == Remaining(s.waiters[id])
  {
  }

  lemma FinishedStays(s: State, step: Step)
    requires SomeFinished(s) && Enabled(s, step)
    ensures SomeFinished(Next(s, step))
  {
    var id :| id in s.cancellers && s.cancellers[id].Finished?;
    assert id in Next(s, step).cancellers && Next(s, step).cancellers[id].Finished?;
  }

  lemma {:induction false} WaiterProgress(s: State, steps: seq<Step>, id: nat)
    requires Invariant(s) && SomeFinished(s) && Allowed(s, steps)
    requires id in s.waiters && !s.waiters[id].Abandoned? && Abandon(id) !in steps
    ensures var t := After(s, steps);
            id in t.waiters && !t.waiters[id].Abandoned?
            && Remaining(t.waiters[id]) + OwnSteps(steps, id) == Remaining(s.waiters[id])
    decreases |steps|
  {
    if steps != [] {
      assert steps[0] in steps && forall step | step in steps[1..] :: step in steps;
      WaiterSteps(s, id, steps[0]);
      NextKeepsInvariant(s, steps[0]);
      FinishedStays(s, steps[0]);
      WaiterProgress(Next(s, steps[0]), steps[1..], id);
    }
  }

  /** "Every current and later waiter returns at once", over any continuation of a reachable state with a finished
      `cancel()`: a waiter that is not dropped takes at most
      three more steps, and has returned exactly when it has taken all those it had left; until then its next one is
      enabled. */
  lemma WaitersReturnOverRuns(s: State, steps: seq<Step>, id: nat)
    requires Reachable(s) && SomeFinished(s) && Allowed(s, steps)
    requires id in s.waiters && !s.waiters[id].Abandoned? && Abandon(id) !in steps
    ensures id in After(s, steps).waiters
    ensures OwnSteps(steps, id) <= Remaining(s.waiters[id]) <= 3
    ensures After(s, steps).waiters[id].Returned? <==> OwnSteps(steps, id) == Remaining(s.waiters[id])
    ensures !After(s, steps).waiters[id].Returned? ==>
              Remaining(After(s, steps).waiters[id]) > 0 && Enabled(After(s, steps), OwnStep(After(s, steps), id))
  {
    ReachableInvariant(s);
    WaiterProgress(s, steps, id);
    AfterKeepsInvariant(s, steps);
    CancellationIsLasting(s, steps);
  }

  /** Nobody wakes early: while the flag is unset no waiter has returned, and each one that awaits is blocked. */
  lemma NobodyWakesUncancelled(s: State, id: nat)
    requires Reachable(s) && !s.cancelled && id in s.waiters
    ensures !s.waiters[id].Returned? && !Enabled(s, Wake(id)) && (s.waiters[id].Waiting? ==> Blocked(s, id))
  {
    ReachableInvariant(s);
  }

  /** A waiter that comes after a finished `cancel()` returns without ever waiting. */
  lemma LaterWaiterReturns(s: State, id: nat)
    requires Reachable(s) && SomeFinished(s) && id !in s.waiters
    ensures Allowed(s, [SpawnWaiter(id), Register(id), Check(id)])
    ensures var t := After(s, [SpawnWaiter(id), Register(id), Check(id)]);
            t == s.(waiters := s.waiters[id := Returned])
  {
    ReachableInvariant(s);
    var spawned := Next(s, SpawnWaiter(id));
    var registered := Next(spawned, Register(id));
    OneStep(registered, Check(id), []);
    OneStep(spawned, Register(id), [Check(id)]);
    OneStep(s, SpawnWaiter(id), [Register(id), Check(id)]);
    assert [SpawnWaiter(id), Register(id), Check(id)] == [SpawnWaiter(id)] + [Register(id), Check(id)];
    assert [Register(id), Check(id)] == [Register(id)] + [Check(id)] && [Check(id)] == [Check(id)] + [];
  }

  lemma OneStep(s: State, step: Step, rest: seq<Step>)
    requires Enabled(s, step) && Allowed(Next(s, step), rest)
    ensures Allowed(s, [step] + rest) && After(s, [step] + rest) == After(Next(s, step), rest)
  {
    assert ([step] + rest)[0] == step && ([step] + rest)[1..] == rest;
  }

  /** A waiter whose future was dropped takes no step any more, over any continuation. */
  lemma {:induction false} AbandonedStays(s: State, steps: seq<Step>, id: nat)
    requires id in s.waiters && !s.waiters[id].Returned? && Allowed(s, [Abandon(id)] + steps)
    ensures id in After(s, [Abandon(id)] + steps).waiters
    ensures After(s, [Abandon(id)] + steps).waiters[id].Abandoned? && OwnSteps(steps, id) == 0
  {
    var run := [Abandon(id)] + steps;
    assert run[0] == Abandon(id) && run[1..] == steps;
    AbandonedRun(Next(s, Abandon(id)), steps, id);
  }

  lemma {:induction false} AbandonedRun(s: State, steps: seq<Step>, id: nat)
    requires id in s.waiters && s.waiters[id].Abandoned? && Allowed(s, steps)
    ensures id in After(s, steps).waiters && After(s, steps).waiters[id].Abandoned? && OwnSteps(steps, id) == 0
    decreases |steps|
  {
    if steps != [] {
      AbandonedRun(Next(s, steps[0]), steps[1..], id);
    }
  }

  predicate OnlyGuardsAndWaiters(step: Step) {
    !step.Call?
  }

  /** The guards' side of the flag: as long as no task calls `cancel()` itself and every guard is disarmed before it is
      dropped, the flag stays unset, over any run. */
  lemma {:induction false} DisarmedGuardsNeverCancel(s: State, steps: seq<Step>)
    requires Allowed(s, steps) && forall step | step in steps :: OnlyGuardsAndWaiters(step)
    requires !s.cancelled && forall id | id in s.cancellers :: s.cancellers[id].Guarding? || s.cancellers[id].Released?
    requires DropsDisarmed(s, steps)
    ensures !After(s, steps).cancelled
    decreases |steps|
  {
    if steps != [] {
      assert OnlyGuardsAndWaiters(steps[0]);
      DisarmedGuardsNeverCancel(Next(s, steps[0]), steps[1..]);
    }
  }

  /** Every guard the run drops was disarmed by then. */
  predicate DropsDisarmed(s: State, steps: seq<Step>)
    requires Allowed(s, steps)
    decreases |steps|
  {
    steps == [] ||
    ((steps[0].DropGuard? ==> !s.cancellers[steps[0].id].armed) && DropsDisarmed(Next(s, steps[0]), steps[1..]))
  }

  /** A new guard cancels when it is dropped, unless it was disarmed before. */
  lemma GuardCancelsUnlessDisarmed(s: State, id: nat)
    requires id !in s.cancellers
    ensures Allowed(s, [Guard(id), DropGuard(id), Store(id)])
            && After(s, [Guard(id), DropGuard(id), Store(id)]).cancelled
    ensures Allowed(s, [Guard(id), Disarm(id), DropGuard(id)])
            && After(s, [Guard(id), Disarm(id), DropGuard(id)]) == s.(cancellers := s.cancellers[id := Released])
  {
    var guarded := Next(s, Guard(id));
    var dropped := Next(guarded, DropGuard(id));
    var disarmed := Next(guarded, Disarm(id));
    OneStep(dropped, Store(id), []);
    OneStep(guarded, DropGuard(id), [Store(id)]);
    OneStep(s, Guard(id), [DropGuard(id), Store(id)]);
    OneStep(disarmed, DropGuard(id), []);
    OneStep(guarded, Disarm(id), [DropGuard(id)]);
    OneStep(s, Guard(id), [Disarm(id), DropGuard(id)]);
    assert [Guard(id), DropGuard(id), Store(id)] == [Guard(id)] + [DropGuard(id), Store(id)];
    assert [DropGuard(id), Store(id)] == [DropGuard(id)] + [Store(id)] && [Store(id)] == [Store(id)] + [];
    assert [Guard(id), Disarm(id), DropGuard(id)] == [Guard(id)] + [Disarm(id), DropGuard(id)];
    assert [Disarm(id), DropGuard(id)] == [Disarm(id)] + [DropGuard(id)] && [DropGuard(id)] == [DropGuard(id)] + [];
  }

  /** The own step of a task inside `cancel()`, or of a guard being dropped. */
  function CancelStep(s: State, id: nat): Step
    requires id in s.cancellers && (s.cancellers[id].Called? || s.cancellers[id].Stored?)
  {
    if s.cancellers[id].Called? then Store(id) else Notify(id)
  }

  /** A task that entered `cancel()` is never blocked and never set back: its own step is enabled, and every other
      task's step leaves it where it is. */
  lemma CancellersFinish(s: State, id: nat, other: Step)
    requires id in s.cancellers && (s.cancellers[id].Called? || s.cancellers[id].Stored?)
    requires Enabled(s, other)
    ensures Enabled(s, CancelStep(s, id))
    ensures Next(s, CancelStep(s, id)).cancellers[id] == if s.cancellers[id].Called? then Stored else Finished
    ensures other != CancelStep(s, id) ==>
              id in Next(s, other).cancellers && Next(s, other).cancellers[id] == s.cancellers[id]
  {
  }

  /** The steps a task inside `cancel()` still takes. */
  function Pending(c: Canceller): nat {
    match c
    case Called => 2
    case Stored => 1
    case _ => 0
  }

  predicate Cancelling(s: State, id: nat) {
    id in s.cancellers && (s.cancellers[id].Called? || s.cancellers[id].Stored? || s.cancellers[id].Finished?)
  }

  /** How many of them a run takes. */
  function CancelSteps(steps: seq<Step>, id: nat): nat {
    if steps == [] then 0
    else (if steps[0] in {Store(id), Notify(id)} then 1 else 0) + CancelSteps(steps[1..], id)
  }

  lemma {:induction false} CancelProgress(s: State, steps: seq<Step>, id: nat)
    requires Allowed(s, steps) && Cancelling(s, id)
    ensures Cancelling(After(s, steps), id)
    ensures Pending(After(s, steps).cancellers[id]) + CancelSteps(steps, id) == Pending(s.cancellers[id])
    decreases |steps|
  {
    if steps != [] {
      if !s.cancellers[id].Finished? {
        CancellersFinish(s, id, steps[0]);
      }
      CancelProgress(Next(s, steps[0]), steps[1..], id);
    }
  }

  /** A guard dropped armed cancels, whatever its drop is interleaved with: in any continuation it takes at most its two
      steps, its next one is enabled until both are taken, and from then on the flag is set and no waiter is blocked. */
  lemma ArmedDropCancelsOverRuns(s: State, steps: seq<Step>, id: nat)
    requires Reachable(s) && id in s.cancellers && s.cancellers[id] == Guarding(true)
    requires Allowed(s, [DropGuard(id)] + steps)
    ensures var t := After(s, [DropGuard(id)] + steps);
            && Cancelling(t, id) && CancelSteps(steps, id) <= 2
            && (CancelSteps(steps, id) < 2 ==> !t.cancellers[id].Finished? && Enabled(t, CancelStep(t, id)))
            && (CancelSteps(steps, id) == 2 ==> t.cancelled && forall w | w in t.waiters :: !Blocked(t, w))
  {
    var run := [DropGuard(id)] + steps;
    assert run[0] == DropGuard(id) && run[1..] == steps;
    ReachableInvariant(s);
    AfterKeepsInvariant(s, run);
    CancelProgress(Next(s, DropGuard(id)), steps, id);
    if CancelSteps(steps, id) == 2 {
      assert After(s, run).cancellers[id].Finished? && SomeFinished(After(s, run));
    }
  }

  /** The token's two fields as one task sees them when no other task runs. */
  class Token {
    var cancelled: bool
    var generation: nat

    constructor ()
      ensures !cancelled && generation == 0
    {
      cancelled, generation := false, 0;
    }

    /** `cancel()` is the store and the notification of one canceller, in that order. */
    method Cancel()
      modifies this
      ensures cancelled && generation == old(generation) + 1
    {
      cancelled := true;
      generation := generation + 1;
    }
  }

  /** Cancels its token when dropped unless disarmed. */
  class CancelOnDrop {
    const token: Token
    var armed: bool

    constructor (token: Token)
      ensures this.token == token && armed
    {
      this.token, armed := token, true;
    }

    method Disarm()
      modifies this
      ensures !armed
    {
      armed := false;
    }

    /** The `Drop` implementation. */
    method Drop()
      modifies token
      ensures token.cancelled == (old(token.cancelled) || armed)
      ensures token.generation == old(token.generation) + (if armed then 1 else 0)
    {
      if armed {
        token.Cancel();
      }
    }
  }
}
