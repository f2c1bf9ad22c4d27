/** The in-process `Budget` of `eval/cost.py`: threads of one process reserve under a lock, sleep on its condition
    variable, and wake when another thread settles. */
module BudgetWait {
  import opened Prices

  /** The fields of a `Budget`. */
  datatype Purse = Purse(cap: real, spent: real, reserved: real, unknown: nat, exceeded: nat, waits: nat)

  datatype Reply = Granted | Exhausted | Sleeps | InvalidAmount

  predicate Blocks(p: Purse, amount: real) {
    p.spent + p.reserved + amount > p.cap
  }

  /** Even with every reservation in flight settled at nothing, the amount would not fit. */
  predicate Hopeless(p: Purse, amount: real) {
    p.spent + amount > p.cap
  }

  /** What `reserve` does from the moment it holds the lock until it returns, raises, or sleeps. */
  function Attempt(p: Purse, amount: real, wait: bool, waited: bool): (Purse, Reply) {
    if amount < 0.0 then (p, InvalidAmount)
    else if !Blocks(p, amount) then
      (p.(reserved := p.reserved + amount, waits := p.waits + if waited then 1 else 0), Granted)
    else if !wait || Hopeless(p, amount) then (p, Exhausted)
    else (p, Sleeps)
  }

  /** `settle`, apart from waking the sleepers. */
  function Settled(p: Purse, amount: real, cost: Cost): Purse {
    p.(reserved := p.reserved - amount,
       spent := p.spent + if cost.known then cost.usd else Max(cost.usd, amount),
       unknown := p.unknown + (if cost.known then 0 else 1),
       exceeded := p.exceeded + (if cost.usd > amount then 1 else 0))
  }

  /** A negative amount is refused as such. Any other attempt is granted exactly when everything spent, reserved, and
      asked for is within the cap; otherwise it sleeps exactly when it may wait and would fit once nothing is
      reserved. Only a grant changes the purse. */
  lemma AttemptExact(p: Purse, amount: real, wait: bool, waited: bool)
    requires p.reserved >= 0.0
    ensures var (after, reply) := Attempt(p, amount, wait, waited);
            && (reply.InvalidAmount? <==> amount < 0.0)
            && (reply.Granted? <==> amount >= 0.0 && p.spent + p.reserved + amount <= p.cap)
            && (reply.Sleeps? <==> amount >= 0.0 && wait && p.cap - p.reserved < p.spent + amount <= p.cap)
            && after == (if reply.Granted? then
                           p.(reserved := p.reserved + amount, waits := if waited then p.waits + 1 else p.waits)
                         else p)
  {
  }

  // ---- Threads ----

  datatype Thread =
    | Trying(amount: real, wait: bool)           // about to take the lock and test the cap
    | Sleeping(amount: real, since: nat)         // released the lock after `since` settlements
    | Holding(amount: real)                      // has its reservation, its work in flight
    | Refused(amount: real, wait: bool)
    | Ended

  /** `settlements` counts the calls of `notify_all`: a sleeper is awake again once one came after it fell asleep. */
  datatype State = State(purse: Purse, settlements: nat, threads: map<nat, Thread>)

  datatype Step =
    | Arrive(id: nat, amount: real, wait: bool)
    | Pass(id: nat)
    | Settle(id: nat, cost: Cost)

  predicate Asleep(s: State, t: Thread) {
    t.Sleeping? && t.since == s.settlements
  }

  predicate Active(s: State, t: Thread) {
    t.Trying? || (t.Sleeping? && t.since != s.settlements)
  }

  predicate Enabled(s: State, step: Step) {
    match step
    case Arrive(id, amount, wait) => id !in s.threads && amount >= 0.0
    case Pass(id) => id in s.threads && Active(s, s.threads[id])
    case Settle(id, cost) => id in s.threads && s.threads[id].Holding? && cost.usd >= 0.0
  }

  /** A thread that has slept was willing to wait. */
  predicate Waits(t: Thread)
    requires t.Trying? || t.Sleeping?
  {
    t.Sleeping? || t.wait
  }

  function Passed(s: State, id: nat): State
    requires Enabled(s, Pass(id))
  {
    var t := s.threads[id];
    var (purse, reply) := Attempt(s.purse, t.amount, Waits(t), t.Sleeping?);
    var after :=
      match reply
      case Granted => Holding(t.amount)
      case Sleeps => Sleeping(t.amount, s.settlements)
      case _ => Refused(t.amount, Waits(t));
    s.(purse := purse, threads := s.threads[id := after])
  }

  function Next(s: State, step: Step): State
    requires Enabled(s, step)
  {
    match step
    case Arrive(id, amount, wait) => s.(threads := s.threads[id := Trying(amount, wait)])
    case Pass(id) => Passed(s, id)
    case Settle(id, cost) =>
      State(Settled(s.purse, s.threads[id].amount, cost), s.settlements + 1, s.threads[id := Ended])
  }

  // ---- What is reserved ----

  function Share(t: Thread): real {
    if t.Holding? then t.amount else 0.0
  }

  ghost function InFlight(threads: map<nat, Thread>): real {
    if threads == map[] then 0.0 else
      var id :| id in threads;
      Share(threads[id]) + InFlight(threads - {id})
  }

  lemma SmallerWithout(threads: map<nat, Thread>, id: nat)
    requires id in threads
    ensures |threads - {id}| == |threads| - 1
  {
    assert (threads - {id}).Keys == threads.Keys - {id};
  }

  lemma {:induction false} InFlightWithout(threads: map<nat, Thread>, id: nat)
    requires id in threads
    ensures InFlight(threads) == Share(threads[id]) + InFlight(threads - {id})
    decreases |threads|
  {
    var first :| first in threads && InFlight(threads) == Share(threads[first]) + InFlight(threads - {first});
    if first != id {
      var a, b := threads - {first}, threads - {id};
      SmallerWithout(threads, first);
      SmallerWithout(threads, id);
      InFlightWithout(a, id);
      InFlightWithout(b, first);
      assert a - {id} == b - {first};
    }
  }

  lemma InFlightMoves(threads: map<nat, Thread>, id: nat, t: Thread)
    ensures InFlight(threads[id := t])
         == InFlight(threads) + Share(t) - (if id in threads then Share(threads[id]) else 0.0)
  {
    var after := threads[id := t];
    InFlightWithout(after, id);
    assert after - {id} == threads - {id};
    if id in threads {
      InFlightWithout(threads, id);
    } else {
      assert threads - {id} == threads;
    }
  }

  /** Anything reserved is held by some thread in flight. */
  lemma {:induction false} SomeoneHolds(threads: map<nat, Thread>) returns (id: nat)
    requires InFlight(threads) > 0.0
    ensures id in threads && threads[id].Holding? && threads[id].amount > 0.0
    decreases |threads|
  {
    id :| id in threads && InFlight(threads) == Share(threads[id]) + InFlight(threads - {id});
    if Share(threads[id]) <= 0.0 {
      SmallerWithout(threads, id);
      id := SomeoneHolds(threads - {id});
    }
  }

  lemma {:induction false} InFlightNonNegative(threads: map<nat, Thread>)
    requires forall id | id in threads :: Share(threads[id]) >= 0.0
    ensures InFlight(threads) >= 0.0
    decreases |threads|
  {
    if threads != map[] {
      var id :| id in threads;
      InFlightWithout(threads, id);
      SmallerWithout(threads, id);
      InFlightNonNegative(threads - {id});
    }
  }

  // ---- The invariant ----

  predicate AmountsValid(threads: map<nat, Thread>) {
    forall id | id in threads :: threads[id].Ended? || threads[id].amount >= 0.0
  }

  /** Every sleeper that no settlement has woken is blocked by work in flight, and would fit without it. */
  predicate SleepersBlocked(s: State) {
    forall id | id in s.threads && Asleep(s, s.threads[id]) ::
      Blocks(s.purse, s.threads[id].amount) && !Hopeless(s.purse, s.threads[id].amount)
  }

  predicate SinceValid(s: State) {
    forall id | id in s.threads && s.threads[id].Sleeping? :: s.threads[id].since <= s.settlements
  }

  /** A refused thread that was willing to wait could not be admitted now either. */
  predicate RefusalsJust(s: State) {
    forall id | id in s.threads && s.threads[id].Refused? && s.threads[id].wait ::
      Hopeless(s.purse, s.threads[id].amount)
  }

  ghost predicate Sound(s: State) {
    && AmountsValid(s.threads) && SinceValid(s) && SleepersBlocked(s) && RefusalsJust(s)
    && s.purse.reserved == InFlight(s.threads)
  }

  predicate Initial(s: State) {
    s.purse == Purse(s.purse.cap, 0.0, 0.0, 0, 0, 0) && s.purse.cap >= 0.0 && s.settlements == 0 && s.threads == map[]
  }

  lemma NextKeepsSound(s: State, step: Step)
    requires Sound(s) && Enabled(s, step)
    ensures Sound(Next(s, step))
    ensures Next(s, step).purse.spent >= s.purse.spent && Next(s, step).purse.cap == s.purse.cap
  {
    var t := Next(s, step);
    InFlightMoves(s.threads, step.id, t.threads[step.id]);
  }

  ghost predicate Allowed(s: State, steps: seq<Step>)
    decreases |steps|
  {
    steps == [] || (Enabled(s, steps[0]) && Allowed(Next(s, steps[0]), steps[1..]))
  }

  ghost function After(s: State, steps: seq<Step>): State
    requires Allowed(s, steps)
    decreases |steps|
  {
    if steps == [] then s else After(Next(s, steps[0]), steps[1..])
  }

  lemma {:induction false} RunKeepsSound(s: State, steps: seq<Step>)
    requires Sound(s) && Allowed(s, steps)
    ensures Sound(After(s, steps))
    ensures After(s, steps).purse.spent >= s.purse.spent && After(s, steps).purse.cap == s.purse.cap
    decreases |steps|
  {
    if steps != [] {
      NextKeepsSound(s, steps[0]);
      RunKeepsSound(Next(s, steps[0]), steps[1..]);
    }
  }

  // ---- The cap ----

  /** What the settlements of a run took beyond their reservations. */
  ghost function Overrun(s: State, steps: seq<Step>): real
    requires Allowed(s, steps)
    decreases |steps|
  {
    if steps == [] then 0.0
    else
      (if steps[0].Settle? then Max(0.0, steps[0].cost.usd - s.threads[steps[0].id].amount) else 0.0)
      + Overrun(Next(s, steps[0]), steps[1..])
  }

  /** How much a purse has committed: spent, or reserved by work in flight. */
  function Committed(p: Purse): real {
    p.spent + p.reserved
  }

  lemma {:induction false} RunKeepsCap(s: State, steps: seq<Step>, over: real)
    requires Sound(s) && Allowed(s, steps) && over >= 0.0 && Committed(s.purse) <= s.purse.cap + over
    ensures Overrun(s, steps) >= 0.0
    ensures Committed(After(s, steps).purse) <= s.purse.cap + over + Overrun(s, steps)
    decreases |steps|
  {
    if steps != [] {
      var t := Next(s, steps[0]);
      var step := if steps[0].Settle? then Max(0.0, steps[0].cost.usd - s.threads[steps[0].id].amount) else 0.0;
      NextKeepsSound(s, steps[0]);
      RunKeepsCap(t, steps[1..], over + step);
    }
  }

  /** Cap safety over every interleaving of threads: spent and reserved together exceed the cap by no more than
      settlements exceeded their reservations. */
  lemma CapSafety(start: State, steps: seq<Step>)
    requires Initial(start) && Allowed(start, steps)
    ensures Committed(After(start, steps).purse) <= start.purse.cap + Overrun(start, steps)
  {
    RunKeepsCap(start, steps, 0.0);
  }

  /** No settlement of the run costs more than its reservation. */
  ghost predicate CostsWithin(s: State, steps: seq<Step>)
    requires Allowed(s, steps)
    decreases |steps|
  {
    steps == [] ||
    ((steps[0].Settle? ==> steps[0].cost.usd <= s.threads[steps[0].id].amount)
     && CostsWithin(Next(s, steps[0]), steps[1..]))
  }

  lemma {:induction false} NoOverrun(s: State, steps: seq<Step>)
    requires Allowed(s, steps) && CostsWithin(s, steps)
    ensures Overrun(s, steps) == 0.0
    decreases |steps|
  {
    if steps != [] {
      NoOverrun(Next(s, steps[0]), steps[1..]);
    }
  }

  /** The hard cap: then the process never spends or reserves more than its cap. */
  lemma HardCap(start: State, steps: seq<Step>)
    requires Initial(start) && Allowed(start, steps) && CostsWithin(start, steps)
    ensures Committed(After(start, steps).purse) <= start.purse.cap
  {
    CapSafety(start, steps);
    NoOverrun(start, steps);
  }

  // ---- The whole purse is accounted for ----

  datatype Item = SpentUsd | ReservedUsd | UnknownOnes | ExceededOnes | WaitedOnes

  function Total(p: Purse, item: Item): real {
    match item
    case SpentUsd => p.spent
    case ReservedUsd => p.reserved
    case UnknownOnes => p.unknown as real
    case ExceededOnes => p.exceeded as real
    case WaitedOnes => p.waits as real
  }

  /** What one settlement pays: the cost, and for an unknown one no less than was reserved. */
  function Payment(amount: real, cost: Cost): real {
    if !cost.known && cost.usd < amount then amount else cost.usd
  }

  /** What one step adds to each: a thread whose reservation is granted, after a sleep or not, and one that settles. */
  function Posted(s: State, step: Step, item: Item): real
    requires Enabled(s, step)
  {
    if step.Pass? && Next(s, step).threads[step.id].Holding? then
      var t := s.threads[step.id];
      if item.ReservedUsd? then t.amount else if item.WaitedOnes? && t.Sleeping? then 1.0 else 0.0
    else if step.Settle? then
      var amount := s.threads[step.id].amount;
      match item
      case SpentUsd => Payment(amount, step.cost)
      case ReservedUsd => -amount
      case UnknownOnes => if step.cost.known then 0.0 else 1.0
      case ExceededOnes => if step.cost.usd > amount then 1.0 else 0.0
      case WaitedOnes => 0.0
    else 0.0
  }

  ghost function Summed(s: State, steps: seq<Step>, item: Item): real
    requires Allowed(s, steps)
    decreases |steps|
  {
    if steps == [] then 0.0 else Posted(s, steps[0], item) + Summed(Next(s, steps[0]), steps[1..], item)
  }

  lemma StepPosts(s: State, step: Step, item: Item)
    requires Enabled(s, step)
    ensures Total(Next(s, step).purse, item) == Total(s.purse, item) + Posted(s, step, item)
  {
  }

  lemma {:induction false} RunPosts(s: State, steps: seq<Step>, item: Item)
    requires Allowed(s, steps)
    ensures Total(After(s, steps).purse, item) == Total(s.purse, item) + Summed(s, steps, item)
    decreases |steps|
  {
    if steps != [] {
      StepPosts(s, steps[0], item);
      RunPosts(Next(s, steps[0]), steps[1..], item);
    }
  }

  /** Conservation: at every point of every interleaving each quantity of the purse is the sum of what the steps
      added. */
  lemma PurseAccountedFor(start: State, steps: seq<Step>, item: Item)
    requires Initial(start) && Allowed(start, steps)
    ensures Total(After(start, steps).purse, item) == Summed(start, steps, item)
  {
    RunPosts(start, steps, item);
  }

  // ---- No stuck waiter, no premature refusal ----

  /** In every reachable state a sleeper is blocked only by work in flight: some thread holds a positive reservation,
      and whatever that work costs, its settlement wakes every sleeper. */
  lemma NoStuckWaiter(start: State, steps: seq<Step>, sleeper: nat) returns (holder: nat)
    requires Initial(start) && Allowed(start, steps)
    requires sleeper in After(start, steps).threads
    requires Asleep(After(start, steps), After(start, steps).threads[sleeper])
    ensures var s := After(start, steps);
            && Blocks(s.purse, s.threads[sleeper].amount) && !Hopeless(s.purse, s.threads[sleeper].amount)
            && holder in s.threads && s.threads[holder].Holding? && s.threads[holder].amount > 0.0
            && (forall cost: Cost | cost.usd >= 0.0 ::
                  Enabled(s, Settle(holder, cost)) && AllAwake(Next(s, Settle(holder, cost))))
  {
    RunKeepsSound(start, steps);
    var s := After(start, steps);
    holder := SomeoneHolds(s.threads);
  }

  predicate AllAwake(s: State) {
    forall id | id in s.threads :: !Asleep(s, s.threads[id])
  }

  /** A waiter is refused in a pass exactly when its amount does not fit beside what is already spent, and then it fits
      in no later state of any continuation. */
  lemma RefusedForGood(s: State, id: nat, steps: seq<Step>)
    requires Sound(s) && Enabled(s, Pass(id)) && Waits(s.threads[id])
    requires Allowed(Next(s, Pass(id)), steps)
    ensures Next(s, Pass(id)).threads[id].Refused? <==>
              Blocks(s.purse, s.threads[id].amount) && Hopeless(s.purse, s.threads[id].amount)
    ensures Next(s, Pass(id)).threads[id].Refused? ==>
              Attempt(After(Next(s, Pass(id)), steps).purse, s.threads[id].amount, true, true).1.Exhausted?
  {
    var t := Next(s, Pass(id));
    NextKeepsSound(s, Pass(id));
    RunKeepsSound(t, steps);
    var later := After(t, steps);
    assert forall i | i in later.threads :: Share(later.threads[i]) >= 0.0;
    InFlightNonNegative(later.threads);
  }

  // ---- Every waiter is answered ----

  ghost function Unanswered(s: State): set<nat> {
    set id | id in s.threads && (s.threads[id].Trying? || s.threads[id].Sleeping?)
  }

  ghost function Working(s: State): set<nat> {
    set id | id in s.threads && s.threads[id].Holding?
  }

  ghost function Awake(s: State): set<nat> {
    set id | id in s.threads && Active(s, s.threads[id])
  }

  /** Work left: each unanswered thread may still be granted and settle. */
  ghost function Left(s: State): nat {
    2 * |Unanswered(s)| + |Working(s)|
  }

  /** Without new arrivals a run is finite: every step lessens the work left, or leaves it and puts one more thread to
      sleep. */
  lemma StepsRunOut(s: State, step: Step)
    requires Sound(s) && Enabled(s, step) && !step.Arrive?
    ensures Left(Next(s, step)) < Left(s) || (Left(Next(s, step)) == Left(s) && |Awake(Next(s, step))| < |Awake(s)|)
  {
    match step
    case Settle(id, _) =>
      assert Unanswered(Next(s, step)) == Unanswered(s);
      assert Working(Next(s, step)) == Working(s) - {id};
    case Pass(id) => PassRunsOut(s, id);
  }

  lemma PassRunsOut(s: State, id: nat)
    requires Enabled(s, Pass(id))
    ensures Left(Passed(s, id)) < Left(s)
            || (Left(Passed(s, id)) == Left(s) && |Awake(Passed(s, id))| < |Awake(s)|)
  {
    var t := Passed(s, id);
    match t.threads[id]
    case Sleeping(_, _) =>
      assert Unanswered(t) == Unanswered(s) && Working(t) == Working(s);
      assert Awake(t) == Awake(s) - {id};
    case Holding(_) =>
      assert Unanswered(t) == Unanswered(s) - {id};
      assert Working(t) == Working(s) + {id};
    case Refused(_, _) =>
      assert Unanswered(t) == Unanswered(s) - {id};
      assert Working(t) == Working(s);
  }

  predicate NoArrival(steps: seq<Step>) {
    forall step | step in steps :: !step.Arrive?
  }

  lemma AwakeAreThreads(s: State)
    ensures |Awake(s)| <= |s.threads|
  {
    assert Awake(s) <= s.threads.Keys;
    Contained(Awake(s), s.threads.Keys);
  }

  lemma SameThreads(s: State, step: Step)
    requires Enabled(s, step) && !step.Arrive?
    ensures |Next(s, step).threads| == |s.threads|
  {
    assert Next(s, step).threads.Keys == s.threads.Keys;
  }

  lemma {:induction false} Contained(part: set<nat>, whole: set<nat>)
    requires part <= whole
    ensures |part| <= |whole|
  {
    if part != {} {
      var x :| x in part;
      Contained(part - {x}, whole - {x});
    }
  }

  /** So a run without new arrivals is no longer than the work left, once for each thread that can fall asleep again,
      and the threads awake at its start. */
  lemma {:induction false} RunsEnd(s: State, steps: seq<Step>)
    requires Sound(s) && Allowed(s, steps) && NoArrival(steps)
    ensures |steps| <= Left(s) * (|s.threads| + 1) + |Awake(s)|
    decreases |steps|
  {
    if steps != [] {
      var t := Next(s, steps[0]);
      assert steps[0] in steps && forall step | step in steps[1..] :: step in steps;
      NextKeepsSound(s, steps[0]);
      StepsRunOut(s, steps[0]);
      SameThreads(s, steps[0]);
      RunsEnd(t, steps[1..]);
      AwakeAreThreads(t);
      Bounded(Left(t), Left(s), |s.threads|, |Awake(t)|, |Awake(s)|, |steps| - 1);
    }
  }

  lemma Bounded(left: nat, before: nat, threads: nat, awake: nat, awakeBefore: nat, rest: nat)
    requires left < before || (left == before && awake < awakeBefore)
    requires awake <= threads && rest <= left * (threads + 1) + awake
    ensures rest + 1 <= before * (threads + 1) + awakeBefore
  {
    if left < before {
      assert (left + 1) * (threads + 1) <= before * (threads + 1);
    }
  }

  /** And when no thread can move any more, nobody is left asleep: every reservation was granted or refused, and one
      willing to wait was refused only because it fits no more beside what was spent. */
  lemma AllAnswered(start: State, steps: seq<Step>)
    requires Initial(start) && Allowed(start, steps)
    requires forall step: Step | !step.Arrive? :: !Enabled(After(start, steps), step)
    ensures forall id | id in After(start, steps).threads ::
              After(start, steps).threads[id].Refused? || After(start, steps).threads[id].Ended?
    ensures forall id | id in After(start, steps).threads ::
              var t := After(start, steps).threads[id];
              t.Refused? && t.wait ==> After(start, steps).purse.spent + t.amount > start.purse.cap
  {
    var s := After(start, steps);
    RunKeepsSound(start, steps);
    forall id | id in s.threads
      ensures s.threads[id].Refused? || s.threads[id].Ended?
    {
      assert !Enabled(s, Pass(id));
      assert !Enabled(s, Settle(id, Cost(0.0, true)));
      if Asleep(s, s.threads[id]) {
        var holder := SomeoneHolds(s.threads);
        assert Enabled(s, Settle(holder, Cost(0.0, true)));
      }
    }
  }

  // ---- The class ----

  /** What another thread does while this one sleeps. */
  datatype Turn =
    | Attempts(amount: real, wait: bool, waited: bool)
    | Settles(amount: real, cost: Cost)

  function Take(p: Purse, turn: Turn): Purse {
    match turn
    case Attempts(amount, wait, waited) => Attempt(p, amount, wait, waited).0
    case Settles(amount, cost) => Settled(p, amount, cost)
  }

  function TakeAll(p: Purse, turns: seq<Turn>): Purse
    decreases |turns|
  {
    if turns == [] then p else TakeAll(Take(p, turns[0]), turns[1..])
  }

  /** The outcome of `reserve` when the other threads take `between[i]` during its `i`-th sleep; `Sleeps` means the last
      sleep was not answered. */
  function Waited(p: Purse, amount: real, wait: bool, waited: bool, between: seq<seq<Turn>>): (Purse, Reply)
    decreases |between|
  {
    var (after, reply) := Attempt(p, amount, wait, waited);
    if !reply.Sleeps? || between == [] then (after, reply)
    else Waited(TakeAll(after, between[0]), amount, wait, true, between[1..])
  }

  function TurnedBy(p: Purse, between: seq<seq<Turn>>): Purse
    decreases |between|
  {
    if between == [] then p else TurnedBy(TakeAll(p, between[0]), between[1..])
  }

  /** Waiting is one attempt, made after some number of sleeps: the first that does not sleep, or the last there is. It
      counts as a wait exactly when there was a sleep. */
  lemma {:induction false} WaitedIsOneAttempt(p: Purse, amount: real, wait: bool, waited: bool,
                                              between: seq<seq<Turn>>) returns (sleeps: nat)
    ensures sleeps <= |between|
    ensures Waited(p, amount, wait, waited, between)
         == Attempt(TurnedBy(p, between[..sleeps]), amount, wait, waited || sleeps > 0)
    ensures Waited(p, amount, wait, waited, between).1.Sleeps? ==> sleeps == |between|
    ensures forall i | 0 <= i < sleeps ::
              Attempt(TurnedBy(p, between[..i]), amount, wait, waited || i > 0) == (TurnedBy(p, between[..i]), Sleeps)
    decreases |between|
  {
    var (after, reply) := Attempt(p, amount, wait, waited);
    sleeps := 0;
    if reply.Sleeps? && between != [] {
      var rest := WaitedIsOneAttempt(TakeAll(after, between[0]), amount, wait, true, between[1..]);
      sleeps := rest + 1;
      assert between[..sleeps][0] == between[0] && between[..sleeps][1..] == between[1..][..rest];
      forall i | 0 <= i < sleeps
        ensures Attempt(TurnedBy(p, between[..i]), amount, wait, waited || i > 0) == (TurnedBy(p, between[..i]), Sleeps)
      {
        if i > 0 {
          assert between[..i][0] == between[0] && between[..i][1..] == between[1..][..i - 1];
        }
      }
    }
  }

  class Budget {
    const cap: real
    var spent: real
    var unknown: nat
    var exceeded: nat
    var waits: nat
    var reserved: real
    var notifications: nat       // how often the condition's sleepers were all woken

    function Contents(): Purse
      reads this
    {
      Purse(cap, spent, reserved, unknown, exceeded, waits)
    }

    /** `None` is the `ValueError` for an invalid cap. */
    static method Create(cap: real) returns (budget: Budget?)
      ensures budget == null <==> cap < 0.0
      ensures budget != null ==> fresh(budget) && budget.Contents() == Purse(cap, 0.0, 0.0, 0, 0, 0)
    {
      if cap < 0.0 {
        return null;
      }
      budget := new Budget(cap);
    }

    constructor (cap: real)
      ensures Contents() == Purse(cap, 0.0, 0.0, 0, 0, 0) && notifications == 0
    {
      notifications := 0;
      this.cap, spent, reserved, unknown, exceeded, waits := cap, 0.0, 0.0, 0, 0, 0;
    }

    /** `reserve`: the loop sleeps on the condition while the cap is only blocked by work in flight. */
    method Reserve(amount: real, wait: bool, between: seq<seq<Turn>>) returns (reply: Reply)
      modifies this
      ensures (Contents(), reply) == Waited(old(Contents()), amount, wait, false, between)
    {
      if amount < 0.0 {
        return InvalidAmount;
      }
      var waited, slept := false, 0;
      while spent + reserved + amount > cap
        invariant slept <= |between|
        invariant Waited(Contents(), amount, wait, waited, between[slept..])
               == Waited(old(Contents()), amount, wait, false, between)
        decreases |between| - slept
      {
        if !wait || spent + amount > cap {
          return Exhausted;
        }
        if slept == |between| {
          return Sleeps;
        }
        waited := true;
        assert between[slept..][0] == between[slept] && between[slept..][1..] == between[slept + 1..];
        Yield(between[slept]);
        slept := slept + 1;
      }
      waits := waits + if waited then 1 else 0;
      reserved := reserved + amount;
      return Granted;
    }

    /** The turns other threads take while the lock is released. */
    method Yield(turns: seq<Turn>)
      modifies this
      ensures Contents() == TakeAll(old(Contents()), turns) && notifications >= old(notifications)
    {
      for i := 0 to |turns|
        invariant notifications >= old(notifications)
        invariant TakeAll(Contents(), turns[i..]) == TakeAll(old(Contents()), turns)
      {
        assert turns[i..][0] == turns[i] && turns[i..][1..] == turns[i + 1..];
        match turns[i] {
          case Attempts(amount, wait, waited) =>
            if amount >= 0.0 && spent + reserved + amount <= cap {
              waits := waits + if waited then 1 else 0;
              reserved := reserved + amount;
            }
          case Settles(amount, cost) =>
            Settle(amount, cost);
        }
      }
    }

    /** `settle`, with its `notify_all`. */
    method Settle(amount: real, cost: Cost)
      modifies this
      ensures Contents() == Settled(old(Contents()), amount, cost) && notifications == old(notifications) + 1
    {
      reserved := reserved - amount;
      spent := spent + if cost.known then cost.usd else Max(cost.usd, amount);
      unknown := unknown + if cost.known then 0 else 1;
      exceeded := exceeded + if cost.usd > amount then 1 else 0;
      notifications := notifications + 1;
    }
  }
}
