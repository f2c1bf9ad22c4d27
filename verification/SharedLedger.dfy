/** The ledger of `eval/cost.py`'s `SharedBudget`: one hard cap that every process of a run reserves from before a
    request and settles once after it. Each operation holds an exclusive lock, so it is one atomic step here. */
module SharedLedger {
  import opened Prices

  /** The state in the ledger file; `open` holds each unsettled reservation by its unique id. */
  datatype Ledger = Ledger(
    cap: real, spent: real, open: map<string, real>, unknown: nat, exceeded: nat, waits: nat)

  /** What one locked read of the file finds. */
  datatype File = Unreadable | Stored(ledger: Ledger)

  datatype Reservation = Reservation(amount: real, key: string)

  /** One pass of `reserve`'s loop. `Pending` is the pass that sleeps and polls again. */
  datatype Reply = Granted(reservation: Reservation) | Exhausted | Pending | InvalidAmount | LedgerError

  /** The whole amount of the open reservations. */
  ghost function Held(open: map<string, real>): real {
    if open == map[] then 0.0 else
      var key :| key in open;
      open[key] + Held(open - {key})
  }

  /** `_valid_ledger`, beyond the field types. */
  predicate Valid(l: Ledger) {
    l.cap >= 0.0 && l.spent >= 0.0 && forall key | key in l.open :: l.open[key] >= 0.0
  }

  ghost predicate Fits(l: Ledger, amount: real) {
    l.spent + Held(l.open) + amount <= l.cap
  }

  /** Even with every open reservation settled at nothing, the amount would not fit. */
  predicate Hopeless(l: Ledger, amount: real) {
    l.spent + amount > l.cap
  }

  ghost function Reserve(file: File, amount: real, wait: bool, waited: bool, key: string): (File, Reply) {
    if amount < 0.0 then (file, InvalidAmount)
    else if file.Unreadable? || !Valid(file.ledger) then (file, LedgerError)
    else
      var l := file.ledger;
      if Fits(l, amount) then
        (Stored(l.(open := l.open[key := amount], waits := l.waits + if waited then 1 else 0)),
         Granted(Reservation(amount, key)))
      else if !wait || Hopeless(l, amount) then (file, Exhausted)
      else (file, Pending)
  }

  /** What a settlement charges: an unknown cost keeps the whole reservation, or its known part when that is larger. */
  function Charged(amount: real, cost: Cost): real {
    if cost.known then cost.usd else Max(cost.usd, amount)
  }

  /** How far a settlement exceeds its reservation. */
  function Excess(amount: real, cost: Cost): real {
    Max(0.0, cost.usd - amount)
  }

  predicate Settles(file: File, r: Reservation) {
    file.Stored? && Valid(file.ledger) && r.key in file.ledger.open && file.ledger.open[r.key] == r.amount
  }

  /** The new state, and whether the settlement named an open reservation; otherwise `LedgerError` is raised before
      anything is written. */
  function Settle(file: File, r: Reservation, cost: Cost): (File, bool) {
    if Settles(file, r) then
      var l := file.ledger;
      (Stored(l.(spent := l.spent + Charged(r.amount, cost), open := l.open - {r.key},
                 unknown := l.unknown + (if cost.known then 0 else 1),
                 exceeded := l.exceeded + (if cost.usd > r.amount then 1 else 0))), true)
    else (file, false)
  }

  // ---- Sums over the open reservations ----

  lemma {:induction false} HeldWithout(open: map<string, real>, key: string)
    requires key in open
    ensures Held(open) == open[key] + Held(open - {key})
    decreases |open|
  {
    var first :| first in open && Held(open) == open[first] + Held(open - {first});
    if first != key {
      var a, b := open - {first}, open - {key};
      assert |a| < |open| by { SizeWithout(open, first); }
      assert |b| < |open| by { SizeWithout(open, key); }
      HeldWithout(a, key);
      HeldWithout(b, first);
      assert a - {key} == b - {first};
    }
  }

  lemma SizeWithout(open: map<string, real>, key: string)
    requires key in open
    ensures |open - {key}| == |open| - 1
  {
    assert (open - {key}).Keys == open.Keys - {key};
  }

  lemma HeldWith(open: map<string, real>, key: string, amount: real)
    requires key !in open
    ensures Held(open[key := amount]) == Held(open) + amount
  {
    HeldWithout(open[key := amount], key);
    assert open[key := amount] - {key} == open;
  }

  lemma {:induction false} HeldNonNegative(open: map<string, real>)
    requires forall key | key in open :: open[key] >= 0.0
    ensures Held(open) >= 0.0
    decreases |open|
  {
    if open != map[] {
      var key :| key in open;
      HeldWithout(open, key);
      SizeWithout(open, key);
      HeldNonNegative(open - {key});
    }
  }

  // ---- The cap ----

  /** Everything charged or still held, less what settlements took beyond their reservations. */
  ghost predicate WithinCap(l: Ledger, overrun: real) {
    l.spent + Held(l.open) <= l.cap + overrun
  }

  lemma ReserveKeepsCap(file: File, amount: real, wait: bool, waited: bool, key: string, overrun: real)
    requires file.Stored? && Valid(file.ledger) && WithinCap(file.ledger, overrun) && overrun >= 0.0
    requires key !in file.ledger.open
    ensures var (after, reply) := Reserve(file, amount, wait, waited, key);
            after.Stored? && Valid(after.ledger) && WithinCap(after.ledger, overrun)
            && (reply.Granted? ==> WithinCap(after.ledger, 0.0))
  {
    if amount >= 0.0 && Fits(file.ledger, amount) {
      HeldWith(file.ledger.open, key, amount);
    }
  }

  lemma SettleKeepsCap(file: File, r: Reservation, cost: Cost, overrun: real)
    requires file.Stored? && Valid(file.ledger) && WithinCap(file.ledger, overrun) && cost.usd >= 0.0
    ensures var (after, settled) := Settle(file, r, cost);
            after.Stored? && Valid(after.ledger)
            && WithinCap(after.ledger, overrun + if settled then Excess(r.amount, cost) else 0.0)
  {
    if Settles(file, r) {
      HeldWithout(file.ledger.open, r.key);
    }
  }

  /** A settlement closes exactly its own reservation, and charges its cost, or, when the cost is unknown, at least the
      whole reservation. */
  lemma SettlementExact(file: File, r: Reservation, cost: Cost)
    requires Settles(file, r)
    ensures var after := Settle(file, r, cost).0.ledger;
            after.open == file.ledger.open - {r.key}
            && after.spent + Held(after.open) - (file.ledger.spent + Held(file.ledger.open))
                 == Charged(r.amount, cost) - r.amount
            && (!cost.known ==> after.spent + Held(after.open) >= file.ledger.spent + Held(file.ledger.open))
  {
    HeldWithout(file.ledger.open, r.key);
  }

  /** What a settlement charges: a known cost as it is; an unknown one at least the whole reservation, and no more than
      that unless its known part already is. The settlement is counted as unknown, and as exceeding its reservation, at
      most once each. */
  lemma SettlementCharges(file: File, r: Reservation, cost: Cost)
    requires Settles(file, r)
    ensures var before, after := file.ledger, Settle(file, r, cost).0.ledger;
            var paid := after.spent - before.spent;
            && (cost.known ==> paid == cost.usd)
            && (!cost.known ==> paid >= cost.usd && paid >= r.amount && (paid == cost.usd || paid == r.amount))
            && (after.unknown == before.unknown <==> cost.known) && before.unknown <= after.unknown <= before.unknown + 1
            && (after.exceeded == before.exceeded <==> cost.usd <= r.amount)
            && before.exceeded <= after.exceeded <= before.exceeded + 1
            && after.cap == before.cap && after.waits == before.waits
  {
  }

  /** An operation raises, and leaves the file alone, exactly when the amount is negative, the file does not read as a
      ledger of non-negative amounts, or a settlement names no open reservation of its amount. */
  lemma RaisesExactly(file: File, r: Reservation, cost: Cost, wait: bool, waited: bool)
    ensures var sane := file.Stored? && file.ledger.cap >= 0.0 && file.ledger.spent >= 0.0
                        && forall key | key in file.ledger.open :: file.ledger.open[key] >= 0.0;
            var (after, reply) := Reserve(file, r.amount, wait, waited, r.key);
            && (reply.InvalidAmount? <==> r.amount < 0.0) && (reply.LedgerError? <==> r.amount >= 0.0 && !sane)
            && (reply.InvalidAmount? || reply.LedgerError? ==> after == file)
            && (Settle(file, r, cost).1 <==>
                  sane && r.key in file.ledger.open && file.ledger.open[r.key] == r.amount)
            && (!Settle(file, r, cost).1 ==> Settle(file, r, cost).0 == file)
  {
  }

  /** One pass of a reservation on a readable ledger: granted exactly when everything spent, open, and asked for is
      within the cap; otherwise it sleeps exactly when it may wait and would fit once nothing is open. A grant opens its
      reservation and counts a wait if there was one; every other answer leaves the ledger alone. */
  lemma ReserveExact(file: File, amount: real, wait: bool, waited: bool, key: string)
    requires amount >= 0.0 && file.Stored? && Valid(file.ledger) && key !in file.ledger.open
    ensures var (after, reply) := Reserve(file, amount, wait, waited, key);
            var l := file.ledger;
            && (reply.Granted? <==> l.spent + Held(l.open) + amount <= l.cap)
            && (reply.Pending? <==> wait && l.cap - Held(l.open) < l.spent + amount <= l.cap)
            && (!reply.Granted? && !reply.Pending? ==> reply.Exhausted? && after == file)
            && (reply.Pending? ==> after == file)
            && (reply.Granted? ==>
                  reply.reservation == Reservation(amount, key) && after.Stored?
                  && Held(after.ledger.open) == Held(l.open) + amount && after.ledger.open - {key} == l.open
                  && Settles(after, reply.reservation) && after.ledger.spent == l.spent && after.ledger.cap == l.cap
                  && (after.ledger.waits == l.waits + 1 <==> waited) && after.ledger.waits <= l.waits + 1)
  {
    HeldWith(file.ledger.open, key, amount);
    assert file.ledger.open[key := amount] - {key} == file.ledger.open;
    if Held(file.ledger.open) < 0.0 {
      HeldNonNegative(file.ledger.open);
    }
  }

  /** Exactly once: a second settlement of a reservation, or one the ledger never granted, raises and leaves the file
      unchanged. */
  lemma SecondSettlementRefused(file: File, r: Reservation, first: Cost, second: Cost)
    requires Settles(file, r)
    ensures Settle(Settle(file, r, first).0, r, second) == (Settle(file, r, first).0, false)
  {
  }

  /** A refused waiter could never be admitted: as long as nothing lowers `spent`, the amount never fits. */
  lemma HopelessNeverFits(l: Ledger, later: Ledger, amount: real)
    requires Hopeless(l, amount) && Valid(later) && later.cap == l.cap && later.spent >= l.spent
    ensures !Fits(later, amount)
  {
    HeldNonNegative(later.open);
  }

  /** A pass sleeps only while some reservation is open: once every one has settled, a waiter is answered. */
  lemma PendingNeedsOpen(file: File, amount: real, waited: bool, key: string)
    requires Reserve(file, amount, true, waited, key).1.Pending?
    ensures exists other :: other in file.ledger.open && file.ledger.open[other] > 0.0
  {
    if forall other | other in file.ledger.open :: file.ledger.open[other] <= 0.0 {
      HeldNonPositive(file.ledger.open);
    }
  }

  lemma {:induction false} HeldNonPositive(open: map<string, real>)
    requires forall key | key in open :: open[key] <= 0.0
    ensures Held(open) <= 0.0
    decreases |open|
  {
    if open != map[] {
      var key :| key in open;
      HeldWithout(open, key);
      SizeWithout(open, key);
      HeldNonPositive(open - {key});
    }
  }

  // ---- Several processes ----

  /** One atomic operation of another process on the same file. */
  datatype Operation =
    | Poll(amount: real, wait: bool, waited: bool, key: string)
    | Close(reservation: Reservation, cost: Cost)

  ghost function Perform(file: File, op: Operation): File {
    match op
    case Poll(amount, wait, waited, key) => Reserve(file, amount, wait, waited, key).0
    case Close(r, cost) => Settle(file, r, cost).0
  }

  ghost function PerformAll(file: File, ops: seq<Operation>): File
    decreases |ops|
  {
    if ops == [] then file else PerformAll(Perform(file, ops[0]), ops[1..])
  }

  /** The outcome of `reserve` when the other processes run `between[i]` during its `i`-th sleep: the first pass that is
      not pending decides, and `Pending` means the last sleep never ended in an answer. */
  ghost function Waited(file: File, amount: real, wait: bool, waited: bool, key: string, between: seq<seq<Operation>>)
    : (File, Reply)
    decreases |between|
  {
    var (after, reply) := Reserve(file, amount, wait, waited, key);
    if !reply.Pending? || between == [] then (after, reply)
    else Waited(PerformAll(after, between[0]), amount, wait, true, key, between[1..])
  }

  /** The file after some of the turns of other processes. */
  ghost function Turned(file: File, between: seq<seq<Operation>>): File
    decreases |between|
  {
    if between == [] then file else Turned(PerformAll(file, between[0]), between[1..])
  }

  /** Waiting is one pass, made after some number of sleeps: the first that is not pending, or the last there is. It
      counts as a wait exactly when there was a sleep. */
  lemma {:induction false} WaitedIsOnePass(file: File, amount: real, wait: bool, waited: bool, key: string,
                                           between: seq<seq<Operation>>) returns (sleeps: nat)
    ensures sleeps <= |between|
    ensures Waited(file, amount, wait, waited, key, between)
         == Reserve(Turned(file, between[..sleeps]), amount, wait, waited || sleeps > 0, key)
    ensures Waited(file, amount, wait, waited, key, between).1.Pending? ==> sleeps == |between|
    ensures forall i | 0 <= i < sleeps ::
              Reserve(Turned(file, between[..i]), amount, wait, waited || i > 0, key)
                == (Turned(file, between[..i]), Pending)
    decreases |between|
  {
    var (after, reply) := Reserve(file, amount, wait, waited, key);
    sleeps := 0;
    if reply.Pending? && between != [] {
      var next := PerformAll(after, between[0]);
      var rest := WaitedIsOnePass(next, amount, wait, true, key, between[1..]);
      sleeps := rest + 1;
      assert between[..sleeps][0] == between[0] && between[..sleeps][1..] == between[1..][..rest];
      forall i | 0 <= i < sleeps
        ensures Reserve(Turned(file, between[..i]), amount, wait, waited || i > 0, key)
             == (Turned(file, between[..i]), Pending)
      {
        if i > 0 {
          assert between[..i][0] == between[0] && between[..i][1..] == between[1..][..i - 1];
        }
      }
    }
  }

  /** What `create` comes to; an existing ledger is never replaced. */
  datatype Creation = Created | InvalidCap | FileExists

  /** The ledger file and the operations of one process on it. */
  class SharedBudget {
    var file: File

    /** `create`: a new ledger with nothing spent, where no file stands yet; the cap is checked first. */
    static method Create(occupied: bool, cap: real) returns (budget: SharedBudget?, creation: Creation)
      ensures creation == if cap < 0.0 then InvalidCap else if occupied then FileExists else Created
      ensures budget != null <==> creation.Created?
      ensures budget != null ==> fresh(budget) && budget.file == Stored(Ledger(cap, 0.0, map[], 0, 0, 0))
    {
      if cap < 0.0 {
        return null, InvalidCap;
      }
      if occupied {
        return null, FileExists;
      }
      budget := new SharedBudget(Stored(Ledger(cap, 0.0, map[], 0, 0, 0)));
      creation := Created;
    }

    constructor (file: File)
      ensures this.file == file
    {
      this.file := file;
    }

    /** `sum(state["open"].values())`. */
    method SumOpen(open: map<string, real>) returns (held: real)
      ensures held == Held(open)
    {
      held := 0.0;
      var rest := open;
      while rest != map[]
        invariant held + Held(rest) == Held(open)
        decreases |rest|
      {
        var key :| key in rest;
        HeldWithout(rest, key);
        SizeWithout(rest, key);
        held := held + rest[key];
        rest := rest - {key};
      }
    }

    /** One locked pass of `reserve`. */
    method Pass(amount: real, wait: bool, waited: bool, key: string) returns (reply: Reply)
      requires amount >= 0.0
      modifies this
      ensures (file, reply) == Reserve(old(file), amount, wait, waited, key)
    {
      if file.Unreadable? || !Valid(file.ledger) {
        return LedgerError;
      }
      var l := file.ledger;
      var held := SumOpen(l.open);
      if l.spent + held + amount <= l.cap {
        file := Stored(l.(open := l.open[key := amount], waits := l.waits + if waited then 1 else 0));
        return Granted(Reservation(amount, key));
      }
      if !wait || l.spent + amount > l.cap {
        return Exhausted;
      }
      return Pending;
    }

    /** `reserve`: the polling loop, with what the other processes do to the file during each sleep. */
    method ReserveAmount(amount: real, wait: bool, key: string, between: seq<seq<Operation>>) returns (reply: Reply)
      modifies this
      ensures (file, reply) == Waited(old(file), amount, wait, false, key, between)
    {
      if amount < 0.0 {
        return InvalidAmount;
      }
      var waited, slept := false, 0;
      while true
        invariant slept <= |between|
        invariant Waited(file, amount, wait, waited, key, between[slept..])
               == Waited(old(file), amount, wait, false, key, between)
        decreases |between| - slept
      {
        reply := Pass(amount, wait, waited, key);
        if !reply.Pending? || slept == |between| {
          return;
        }
        waited := true;
        assert between[slept..][0] == between[slept] && between[slept..][1..] == between[slept + 1..];
        PerformTurn(between[slept]);
        slept := slept + 1;
      }
    }

    /** The operations of other processes, one after another. */
    method PerformTurn(ops: seq<Operation>)
      modifies this
      ensures file == PerformAll(old(file), ops)
    {
      for i := 0 to |ops|
        invariant PerformAll(file, ops[i..]) == PerformAll(old(file), ops)
      {
        assert ops[i..][0] == ops[i] && ops[i..][1..] == ops[i + 1..];
        match ops[i] {
          case Poll(amount, wait, waited, key) =>
            if amount >= 0.0 {
              var reply := Pass(amount, wait, waited, key);
            }
          case Close(r, cost) =>
            var settled := SettleReservation(r, cost);
        }
      }
    }

    /** `settle`: true, or the `LedgerError` that leaves the file unchanged. */
    method SettleReservation(r: Reservation, cost: Cost) returns (settled: bool)
      modifies this
      ensures (file, settled) == Settle(old(file), r, cost)
    {
      if file.Unreadable? || !Valid(file.ledger) {
        return false;
      }
      var l := file.ledger;
      if r.key !in l.open || l.open[r.key] != r.amount {
        return false;
      }
      var charged := if cost.known then cost.usd else Max(cost.usd, r.amount);
      file := Stored(l.(open := l.open - {r.key}, spent := l.spent + charged,
                        unknown := l.unknown + (if cost.known then 0 else 1),
                        exceeded := l.exceeded + (if cost.usd > r.amount then 1 else 0)));
      return true;
    }
  }
}
