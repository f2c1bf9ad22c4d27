/** A whole evaluation campaign: any number of processes, each with its ceiling, send provider requests against one
    shared ledger, interleaved one locked operation at a time. */
module Campaign {
  import opened Options
  import opened Prices
  import opened CeilingRules
  import opened SharedLedger

  /** What stays the same over a campaign: the output limit, the price catalog, and the parts of Python left
      abstract. */
  datatype Setting = Setting(limit: nat, catalog: seq<Listed>, python: Python)

  /** How far one request has come. Each phase ends with one atomic operation of its thread. */
  datatype Phase =
    | Asking(waited: bool)                              // polls the ledger
    | Turned                                            // the ledger refused it
    | Reserved(reservation: Reservation)                // granted, not counted yet
    | InFlight(reservation: Reservation)                // counted under `requests`, sent or about to be
    | Settled(outcome: Outcome)                         // settled, its outcome not counted yet
    | Done(outcome: Outcome)
    | Abandoned(reservation: Reservation, counted: bool)  // never settled: its process died, or its usage has no price

  datatype Request = Request(ceiling: nat, call: Call, phase: Phase)

  /** A ceiling's outcome counts. */
  datatype Counts = Counts(
    requests: nat, refused: nat, throttled: nat, rejected: nat, failed: nat, unreported: nat)

  /** `used` are the reservation ids drawn so far, and `overrun` what settlements took beyond their reservations. */
  datatype State = State(
    file: File, requests: map<nat, Request>, counts: map<nat, Counts>, used: set<string>, overrun: real)

  datatype Step =
    | Arrive(id: nat, ceiling: nat, endpoint: Endpoint, content: Content)
    | Ask(id: nat, key: string)
    | CountRequest(id: nat)
    | Answer(id: nat, response: Response)
    | CountOutcome(id: nat)
    | Crash(id: nat)

  const NO_COUNTS := Counts(0, 0, 0, 0, 0, 0)

  ghost predicate Initial(s: State) {
    s.file.Stored? && Valid(s.file.ledger)
    && s.file.ledger == Ledger(s.file.ledger.cap, 0.0, map[], 0, 0, 0)
    && s.requests == map[] && s.used == {} && s.overrun == 0.0
    && forall c | c in s.counts :: s.counts[c] == NO_COUNTS
  }

  function Admitted(setting: Setting, endpoint: Endpoint, content: Content): Option<Call> {
    CallOf(endpoint, content, setting.limit, setting.python, setting.catalog)
  }

  predicate Enabled(setting: Setting, s: State, step: Step) {
    match step
    case Arrive(id, ceiling, endpoint, content) =>
      id !in s.requests && ceiling in s.counts && Admitted(setting, endpoint, content).Some?
    case Ask(id, key) => Has(s, id) && s.requests[id].phase.Asking? && key !in s.used
    case CountRequest(id) => Has(s, id) && s.requests[id].phase.Reserved?
    case Answer(id, response) => Has(s, id) && s.requests[id].phase.InFlight?
    case CountOutcome(id) => Has(s, id) && s.requests[id].phase.Settled?
    case Crash(id) => Has(s, id) && (s.requests[id].phase.Reserved? || s.requests[id].phase.InFlight?)
  }

  predicate Has(s: State, id: nat) {
    id in s.requests && s.requests[id].ceiling in s.counts
  }

  ghost function At(s: State, id: nat, phase: Phase): map<nat, Request>
    requires id in s.requests
  {
    s.requests[id := s.requests[id].(phase := phase)]
  }

  function Ended(counts: Counts, outcome: Outcome): Counts {
    match outcome
    case Throttled => counts.(throttled := counts.throttled + 1)
    case Rejected => counts.(rejected := counts.rejected + 1)
    case Failed => counts.(failed := counts.failed + 1)
    case Unreported => counts.(unreported := counts.unreported + 1)
    case Billed => counts
  }

  ghost function Next(setting: Setting, s: State, step: Step): State
    requires Enabled(setting, s, step)
  {
    match step
    case Arrive(id, ceiling, endpoint, content) =>
      s.(requests := s.requests[id := Request(ceiling, Admitted(setting, endpoint, content).value, Asking(false))])
    case Ask(id, key) => Asked(s, id, key)
    case CountRequest(id) =>
      var r := s.requests[id];
      var counts := s.counts[r.ceiling];
      s.(requests := At(s, id, InFlight(r.phase.reservation)),
         counts := s.counts[r.ceiling := counts.(requests := counts.requests + 1)])
    case Answer(id, response) => Answered(setting, s, id, response)
    case CountOutcome(id) =>
      var r := s.requests[id];
      s.(requests := At(s, id, Done(r.phase.outcome)),
         counts := s.counts[r.ceiling := Ended(s.counts[r.ceiling], r.phase.outcome)])
    case Crash(id) =>
      var r := s.requests[id];
      s.(requests := At(s, id, Abandoned(r.phase.reservation, r.phase.InFlight?)))
  }

  /** One pass of `reserve(amount, wait=True)`; every refusal, a `LedgerError` too, is counted as `refused`. */
  ghost function Asked(s: State, id: nat, key: string): State
    requires Has(s, id) && s.requests[id].phase.Asking?
  {
    var r := s.requests[id];
    var (file, reply) := Reserve(s.file, r.call.amount, true, r.phase.waited, key);
    match reply
    case Granted(reservation) =>
      s.(file := file, used := s.used + {key}, requests := At(s, id, Reserved(reservation)))
    case Pending => s.(file := file, requests := At(s, id, Asking(true)))
    case _ =>
      var counts := s.counts[r.ceiling];
      s.(file := file, requests := At(s, id, Turned),
         counts := s.counts[r.ceiling := counts.(refused := counts.refused + 1)])
  }

  /** Whether an answer can be priced, so that its request reaches its settlement. */
  predicate Reaches(setting: Setting, s: State, id: nat, response: Response)
    requires id in s.requests
  {
    Settleable(s.requests[id].call.endpoint, response, setting.python)
  }

  /** The settlement of one response. One that cannot be priced leaves the request as a crash leaves it; so would one
      that named no open reservation. */
  ghost function Answered(setting: Setting, s: State, id: nat, response: Response): State
    requires Has(s, id) && s.requests[id].phase.InFlight?
  {
    var r := s.requests[id];
    var cost := SettledCost(r.call.endpoint, response, r.call.rates);
    var (file, settled) := Settle(s.file, r.phase.reservation, cost);
    if settled && Reaches(setting, s, id, response) then
      s.(file := file, requests := At(s, id, Settled(OutcomeOf(r.call.endpoint, response))),
         overrun := s.overrun + Excess(r.phase.reservation.amount, cost))
    else s.(requests := At(s, id, Abandoned(r.phase.reservation, true)))
  }

  // ---- The ledger and its holders ----

  predicate Holding(r: Request) {
    r.phase.Reserved? || r.phase.InFlight? || r.phase.Abandoned?
  }

  /** The open reservations are exactly those the unsettled requests hold, one each, at their worst case. */
  ghost predicate Backed(requests: map<nat, Request>, open: map<string, real>) {
    && (forall id | id in requests && Holding(requests[id]) ::
          var r := requests[id].phase.reservation;
          r.key in open && open[r.key] == r.amount && r.amount == requests[id].call.amount)
    && (forall i, j | i in requests && j in requests && i != j && Holding(requests[i]) && Holding(requests[j]) ::
          requests[i].phase.reservation.key != requests[j].phase.reservation.key)
    && (forall key | key in open :: exists id | id in requests :: Holds(requests[id], key))
  }

  predicate Holds(r: Request, key: string) {
    Holding(r) && r.phase.reservation.key == key
  }

  ghost predicate Capped(s: State) {
    && s.file.Stored? && Valid(s.file.ledger) && s.overrun >= 0.0 && WithinCap(s.file.ledger, s.overrun)
    && (s.overrun == 0.0 <==> s.file.ledger.exceeded == 0)
  }

  ghost predicate Sound(s: State) {
    && Capped(s) && Backed(s.requests, s.file.ledger.open) && s.file.ledger.open.Keys <= s.used
    && forall id | id in s.requests :: Priced(s.requests[id].call)
  }

  /** A request moves on without touching the ledger. */
  lemma BackedMoves(requests: map<nat, Request>, open: map<string, real>, id: nat, r: Request)
    requires Backed(requests, open)
    requires id in requests ==> r.call == requests[id].call && (Holding(r) <==> Holding(requests[id]))
    requires Holding(r) ==> id in requests && r.phase.reservation == requests[id].phase.reservation
    ensures Backed(requests[id := r], open)
  {
    var after := requests[id := r];
    forall key | key in open
      ensures exists i | i in after :: Holds(after[i], key)
    {
      var i :| i in requests && Holds(requests[i], key);
      assert Holds(after[i], key);
    }
  }

  lemma BackedGrants(requests: map<nat, Request>, open: map<string, real>, id: nat, key: string)
    requires Backed(requests, open) && id in requests && !Holding(requests[id]) && key !in open
    ensures var r := requests[id].(phase := Reserved(Reservation(requests[id].call.amount, key)));
            Backed(requests[id := r], open[key := requests[id].call.amount])
  {
    var r := requests[id].(phase := Reserved(Reservation(requests[id].call.amount, key)));
    var after, grown := requests[id := r], open[key := r.call.amount];
    forall k | k in grown
      ensures exists i | i in after :: Holds(after[i], k)
    {
      if k == key {
        assert Holds(after[id], k);
      } else {
        var i :| i in requests && Holds(requests[i], k);
        assert Holds(after[i], k);
      }
    }
  }

  lemma BackedReleases(requests: map<nat, Request>, open: map<string, real>, id: nat, outcome: Outcome)
    requires Backed(requests, open) && id in requests && Holding(requests[id])
    ensures Backed(requests[id := requests[id].(phase := Settled(outcome))],
                   open - {requests[id].phase.reservation.key})
  {
    var after := requests[id := requests[id].(phase := Settled(outcome))];
    forall k | k in open - {requests[id].phase.reservation.key}
      ensures exists i | i in after :: Holds(after[i], k)
    {
      var i :| i in requests && Holds(requests[i], k);
      assert Holds(after[i], k);
    }
  }

  lemma MoveKeepsSound(s: State, t: State, id: nat)
    requires Sound(s) && id in t.requests && t.requests == s.requests[id := t.requests[id]]
    requires t.file == s.file && t.used == s.used && t.overrun == s.overrun
    requires Priced(t.requests[id].call)
    requires id in s.requests ==>
               t.requests[id].call == s.requests[id].call && (Holding(t.requests[id]) <==> Holding(s.requests[id]))
    requires Holding(t.requests[id]) ==>
               id in s.requests && t.requests[id].phase.reservation == s.requests[id].phase.reservation
    ensures Sound(t)
  {
    BackedMoves(s.requests, s.file.ledger.open, id, t.requests[id]);
  }

  lemma GrantKeepsSound(s: State, id: nat, key: string)
    requires Sound(s) && Has(s, id) && s.requests[id].phase.Asking? && key !in s.used
    requires Fits(s.file.ledger, s.requests[id].call.amount)
    ensures Sound(Asked(s, id, key))
  {
    var r := s.requests[id];
    ReserveKeepsCap(s.file, r.call.amount, true, r.phase.waited, key, s.overrun);
    BackedGrants(s.requests, s.file.ledger.open, id, key);
  }

  lemma AskKeepsSound(s: State, id: nat, key: string)
    requires Sound(s) && Has(s, id) && s.requests[id].phase.Asking? && key !in s.used
    ensures Sound(Asked(s, id, key))
  {
    if Fits(s.file.ledger, s.requests[id].call.amount) {
      GrantKeepsSound(s, id, key);
    } else {
      MoveKeepsSound(s, Asked(s, id, key), id);
    }
  }

  /** Every settlement of a request in flight names its own open reservation: no `LedgerError` can be raised, and the
      request is settled exactly when its response can be priced. */
  lemma AnswerSettles(setting: Setting, s: State, id: nat, response: Response)
    requires Sound(s) && Has(s, id) && s.requests[id].phase.InFlight?
    ensures Settles(s.file, s.requests[id].phase.reservation)
    ensures SettledCost(s.requests[id].call.endpoint, response, s.requests[id].call.rates).usd >= 0.0
    ensures HasEnded(Answered(setting, s, id, response), id) <==> Reaches(setting, s, id, response)
  {
    SettledNonNegative(s.requests[id].call.endpoint, response, s.requests[id].call.rates);
  }

  lemma AnswerKeepsSound(setting: Setting, s: State, id: nat, response: Response)
    requires Sound(s) && Has(s, id) && s.requests[id].phase.InFlight?
    ensures Sound(Answered(setting, s, id, response))
  {
    var r := s.requests[id];
    AnswerSettles(setting, s, id, response);
    if Reaches(setting, s, id, response) {
      SettleKeepsCap(s.file, r.phase.reservation, SettledCost(r.call.endpoint, response, r.call.rates), s.overrun);
      BackedReleases(s.requests, s.file.ledger.open, id, OutcomeOf(r.call.endpoint, response));
    } else {
      MoveKeepsSound(s, Answered(setting, s, id, response), id);
    }
  }

  lemma NextKeepsSound(setting: Setting, s: State, step: Step)
    requires Sound(s) && Enabled(setting, s, step)
    ensures Sound(Next(setting, s, step))
  {
    match step
    case Ask(id, key) => AskKeepsSound(s, id, key);
    case Answer(id, response) => AnswerKeepsSound(setting, s, id, response);
    case Arrive(id, ceiling, endpoint, content) =>
      CallsArePriced(endpoint, content, setting.limit, setting.python, setting.catalog);
      MoveKeepsSound(s, Next(setting, s, step), id);
    case _ => MoveKeepsSound(s, Next(setting, s, step), step.id);
  }

  // ---- Runs ----

  ghost predicate Allowed(setting: Setting, s: State, steps: seq<Step>)
    decreases |steps|
  {
    steps == [] || (Enabled(setting, s, steps[0]) && Allowed(setting, Next(setting, s, steps[0]), steps[1..]))
  }

  ghost function After(setting: Setting, s: State, steps: seq<Step>): State
    requires Allowed(setting, s, steps)
    decreases |steps|
  {
    if steps == [] then s else After(setting, Next(setting, s, steps[0]), steps[1..])
  }

  lemma InitialSound(s: State)
    requires Initial(s)
    ensures Sound(s)
  {
    assert Held(s.file.ledger.open) == 0.0;
  }

  lemma {:induction false} RunKeepsSound(setting: Setting, s: State, steps: seq<Step>)
    requires Sound(s) && Allowed(setting, s, steps)
    ensures Sound(After(setting, s, steps)) && After(setting, s, steps).file.ledger.cap == s.file.ledger.cap
    ensures After(setting, s, steps).file.ledger.spent >= s.file.ledger.spent
    decreases |steps|
  {
    if steps != [] {
      NextKeepsSound(setting, s, steps[0]);
      SpentGrows(setting, s, steps[0]);
      RunKeepsSound(setting, Next(setting, s, steps[0]), steps[1..]);
    }
  }

  /** The cap never changes and nothing spent is ever given back. */
  lemma SpentGrows(setting: Setting, s: State, step: Step)
    requires Sound(s) && Enabled(setting, s, step)
    ensures var t := Next(setting, s, step);
            t.file.Stored? && t.file.ledger.cap == s.file.ledger.cap && t.file.ledger.spent >= s.file.ledger.spent
  {
    match step
    case Ask(id, key) =>
    case Answer(id, response) => AnswerSettles(setting, s, id, response);
    case _ =>
  }

  /** Cap safety over every interleaving: what is spent or still reserved never exceeds the cap by more than settlements
      took beyond their reservations, and each such settlement is counted. */
  lemma CapSafety(setting: Setting, start: State, steps: seq<Step>)
    requires Initial(start) && Allowed(setting, start, steps)
    ensures After(setting, start, steps).file.Stored?
    ensures var s := After(setting, start, steps);
            var l := s.file.ledger;
            l.spent + Held(l.open) <= l.cap + s.overrun
            && l.cap == start.file.ledger.cap
            && (l.exceeded == 0 ==> l.spent + Held(l.open) <= l.cap)
  {
    InitialSound(start);
    RunKeepsSound(setting, start, steps);
  }

  /** Every response of a run keeps the ceiling's stated assumptions. */
  ghost predicate Trusted(setting: Setting, s: State, steps: seq<Step>)
    requires Allowed(setting, s, steps)
    decreases |steps|
  {
    steps == [] ||
    (&& (steps[0].Answer? ==>
           KeepsLimits(s.requests[steps[0].id].call, steps[0].response))
     && Trusted(setting, Next(setting, s, steps[0]), steps[1..]))
  }

  lemma TrustedStep(setting: Setting, s: State, step: Step)
    requires Sound(s) && Enabled(setting, s, step)
    requires step.Answer? ==>
               KeepsLimits(s.requests[step.id].call, step.response)
    ensures Next(setting, s, step).overrun == s.overrun
  {
    if step.Answer? {
      AnswerSettles(setting, s, step.id, step.response);
      ReservationSuffices(s.requests[step.id].call, step.response);
    }
  }

  lemma {:induction false} TrustedRun(setting: Setting, s: State, steps: seq<Step>)
    requires Sound(s) && Allowed(setting, s, steps) && Trusted(setting, s, steps)
    ensures After(setting, s, steps).overrun == s.overrun
    decreases |steps|
  {
    if steps != [] {
      TrustedStep(setting, s, steps[0]);
      NextKeepsSound(setting, s, steps[0]);
      TrustedRun(setting, Next(setting, s, steps[0]), steps[1..]);
    }
  }

  /** The hard cap: under the stated assumptions a campaign never spends or reserves more than its cap. */
  lemma HardCap(setting: Setting, start: State, steps: seq<Step>)
    requires Initial(start) && Allowed(setting, start, steps) && Trusted(setting, start, steps)
    ensures After(setting, start, steps).file.Stored?
    ensures var l := After(setting, start, steps).file.ledger;
            l.spent + Held(l.open) <= l.cap && l.spent <= l.cap && l.exceeded == 0
  {
    InitialSound(start);
    RunKeepsSound(setting, start, steps);
    TrustedRun(setting, start, steps);
    HeldNonNegative(After(setting, start, steps).file.ledger.open);
  }

  /** A refused request could never have been admitted later: its amount fits in no state of any continuation. */
  lemma RefusalIsFinal(setting: Setting, s: State, id: nat, key: string, steps: seq<Step>)
    requires Sound(s) && Enabled(setting, s, Ask(id, key)) && Asked(s, id, key).requests[id].phase.Turned?
    requires Allowed(setting, s, steps)
    ensures After(setting, s, steps).file.Stored?
    ensures !Fits(After(setting, s, steps).file.ledger, s.requests[id].call.amount)
  {
    RunKeepsSound(setting, s, steps);
    HopelessNeverFits(s.file.ledger, After(setting, s, steps).file.ledger, s.requests[id].call.amount);
  }

  /** A reservation that a crash left open stays charged at its whole amount, whatever happens later. */
  lemma {:induction false} CrashStaysCharged(setting: Setting, s: State, steps: seq<Step>, id: nat)
    requires Sound(s) && Allowed(setting, s, steps) && id in s.requests && s.requests[id].phase.Abandoned?
    ensures var t := After(setting, s, steps);
            id in t.requests && t.requests[id] == s.requests[id]
            && t.file.Stored? && s.requests[id].phase.reservation.key in t.file.ledger.open
            && t.file.ledger.open[s.requests[id].phase.reservation.key] == s.requests[id].call.amount
    decreases |steps|
  {
    if steps != [] {
      NextKeepsSound(setting, s, steps[0]);
      CrashStays(setting, s, steps[0], id);
      CrashStaysCharged(setting, Next(setting, s, steps[0]), steps[1..], id);
    }
  }

  lemma CrashStays(setting: Setting, s: State, step: Step, id: nat)
    requires Sound(s) && Enabled(setting, s, step) && id in s.requests && s.requests[id].phase.Abandoned?
    ensures id in Next(setting, s, step).requests && Next(setting, s, step).requests[id] == s.requests[id]
  {
  }

  /** Whether a step settles a request: an answer that can be priced. */
  predicate Settling(setting: Setting, s: State, step: Step, id: nat)
    requires Enabled(setting, s, step)
  {
    step.Answer? && step.id == id && Reaches(setting, s, id, step.response)
  }

  /** How often a run settles one request. */
  ghost function Settlements(setting: Setting, s: State, steps: seq<Step>, id: nat): nat
    requires Allowed(setting, s, steps)
    decreases |steps|
  {
    if steps == [] then 0
    else
      (if Settling(setting, s, steps[0], id) then 1 else 0)
      + Settlements(setting, Next(setting, s, steps[0]), steps[1..], id)
  }

  predicate Ending(phase: Phase) {
    phase.Settled? || phase.Done?
  }

  predicate HasEnded(s: State, id: nat) {
    id in s.requests && Ending(s.requests[id].phase)
  }

  lemma StepSettles(setting: Setting, s: State, step: Step, id: nat)
    requires Sound(s) && Enabled(setting, s, step)
    ensures HasEnded(s, id) ==> HasEnded(Next(setting, s, step), id) && !Settling(setting, s, step, id)
    ensures !HasEnded(s, id) ==> (HasEnded(Next(setting, s, step), id) <==> Settling(setting, s, step, id))
  {
    if step.Answer? {
      AnswerSettles(setting, s, step.id, step.response);
    } else {
      OthersEndNone(setting, s, step, id);
    }
  }

  lemma OthersEndNone(setting: Setting, s: State, step: Step, id: nat)
    requires Enabled(setting, s, step) && !step.Answer?
    ensures HasEnded(Next(setting, s, step), id) <==> HasEnded(s, id)
  {
  }

  /** Exactly once: a request that arrived unsettled is settled once if it has ended, and not at all otherwise; none is
      settled twice. */
  lemma {:induction false} SettledOnce(setting: Setting, s: State, steps: seq<Step>, id: nat)
    requires Sound(s) && Allowed(setting, s, steps)
    requires !HasEnded(s, id)
    ensures Settlements(setting, s, steps, id) == if HasEnded(After(setting, s, steps), id) then 1 else 0
    decreases |steps|
  {
    if steps != [] {
      var t := Next(setting, s, steps[0]);
      NextKeepsSound(setting, s, steps[0]);
      StepSettles(setting, s, steps[0], id);
      if HasEnded(t, id) {
        EndingIsLasting(setting, t, steps[1..], id);
      } else {
        SettledOnce(setting, t, steps[1..], id);
      }
    }
  }

  lemma {:induction false} EndingIsLasting(setting: Setting, s: State, steps: seq<Step>, id: nat)
    requires Sound(s) && Allowed(setting, s, steps) && HasEnded(s, id)
    ensures HasEnded(After(setting, s, steps), id) && Settlements(setting, s, steps, id) == 0
    decreases |steps|
  {
    if steps != [] {
      NextKeepsSound(setting, s, steps[0]);
      StepSettles(setting, s, steps[0], id);
      EndingIsLasting(setting, Next(setting, s, steps[0]), steps[1..], id);
    }
  }

  // ---- Under the assumptions every answer settles ----

  /** Every request's own limits were priced when it arrived. */
  ghost predicate AllConvertible(setting: Setting, s: State) {
    forall id | id in s.requests :: Convertible(s.requests[id].call, setting.python)
  }

  lemma NextKeepsConvertible(setting: Setting, s: State, step: Step)
    requires AllConvertible(setting, s) && Enabled(setting, s, step)
    ensures AllConvertible(setting, Next(setting, s, step))
  {
    match step
    case Arrive(_, _, endpoint, content) =>
      CallsArePriced(endpoint, content, setting.limit, setting.python, setting.catalog);
    case Ask(_, _) =>
    case Answer(_, _) =>
    case CountRequest(_) =>
    case CountOutcome(_) =>
    case Crash(_) =>
  }

  lemma {:induction false} RunKeepsConvertible(setting: Setting, s: State, steps: seq<Step>)
    requires AllConvertible(setting, s) && Allowed(setting, s, steps)
    ensures AllConvertible(setting, After(setting, s, steps))
    decreases |steps|
  {
    if steps != [] {
      NextKeepsConvertible(setting, s, steps[0]);
      RunKeepsConvertible(setting, Next(setting, s, steps[0]), steps[1..]);
    }
  }

  /** In every reachable state an answer that keeps the ceiling's assumptions settles its request, so only a crash or an
      answer outside them leaves a reservation open for good. */
  lemma TrustedAnswerSettles(setting: Setting, start: State, steps: seq<Step>, id: nat, response: Response)
    requires Initial(start) && Allowed(setting, start, steps)
    requires Enabled(setting, After(setting, start, steps), Answer(id, response))
    requires KeepsLimits(After(setting, start, steps).requests[id].call, response)
    ensures HasEnded(Next(setting, After(setting, start, steps), Answer(id, response)), id)
  {
    var s := After(setting, start, steps);
    InitialSound(start);
    RunKeepsSound(setting, start, steps);
    RunKeepsConvertible(setting, start, steps);
    AssumptionsSettle(s.requests[id].call, response, setting.python);
    AnswerSettles(setting, s, id, response);
  }
  // ---- The whole ledger is accounted for ----

  /** The quantities of a ledger that a run adds up, and the overrun. */
  datatype Item = SpentUsd | HeldUsd | OverrunUsd | ExceededOnes | WaitedOnes

  ghost function Total(s: State, item: Item): real
    requires s.file.Stored?
  {
    match item
    case SpentUsd => s.file.ledger.spent
    case HeldUsd => Held(s.file.ledger.open)
    case OverrunUsd => s.overrun
    case ExceededOnes => s.file.ledger.exceeded as real
    case WaitedOnes => s.file.ledger.waits as real
  }

  /** What an answered request is to pay: nothing when the provider refused it, its usage at its own prices when one was
      reported, and otherwise everything reserved for it. */
  function Payment(call: Call, response: Response): real {
    if Refusal(response) then 0.0
    else
      match UsageIn(call.endpoint, response)
      case Some(usage) => UsageCost(usage, call.rates)
      case None => call.amount
  }

  ghost predicate Grants(setting: Setting, s: State, step: Step)
    requires Enabled(setting, s, step)
  {
    step.Ask? && step.id in Next(setting, s, step).requests && Next(setting, s, step).requests[step.id].phase.Reserved?
  }

  /** What one step adds to each: a grant holds its request's amount, and counts a wait if it slept; a settling answer
      pays, releases the amount, and exceeds it by what it pays beyond. */
  ghost function Posted(setting: Setting, s: State, step: Step, item: Item): real
    requires Enabled(setting, s, step)
  {
    if Grants(setting, s, step) then
      var r := s.requests[step.id];
      if item.HeldUsd? then r.call.amount else if item.WaitedOnes? && r.phase.waited then 1.0 else 0.0
    else if step.Answer? && Reaches(setting, s, step.id, step.response) then
      var call := s.requests[step.id].call;
      var paid := Payment(call, step.response);
      match item
      case SpentUsd => paid
      case HeldUsd => -call.amount
      case OverrunUsd => if paid > call.amount then paid - call.amount else 0.0
      case ExceededOnes => if paid > call.amount then 1.0 else 0.0
      case WaitedOnes => 0.0
    else 0.0
  }

  ghost function Summed(setting: Setting, s: State, steps: seq<Step>, item: Item): real
    requires Allowed(setting, s, steps)
    decreases |steps|
  {
    if steps == [] then 0.0
    else Posted(setting, s, steps[0], item) + Summed(setting, Next(setting, s, steps[0]), steps[1..], item)
  }

  /** Whether some pass of a request slept during a run. */
  ghost predicate Slept(setting: Setting, s: State, steps: seq<Step>, id: nat)
    requires Allowed(setting, s, steps)
    decreases |steps|
  {
    steps != [] &&
    (|| (steps[0].Ask? && steps[0].id == id
         && Reserve(s.file, s.requests[id].call.amount, true, s.requests[id].phase.waited, steps[0].key).1.Pending?)
     || Slept(setting, Next(setting, s, steps[0]), steps[1..], id))
  }

  /** A request that asks again is marked as waiting exactly when one of its passes slept. */
  lemma {:induction false} WaitedExactly(setting: Setting, s: State, steps: seq<Step>, id: nat)
    requires Allowed(setting, s, steps)
    requires id in s.requests ==> s.requests[id].phase.Asking?
    requires id in After(setting, s, steps).requests && After(setting, s, steps).requests[id].phase.Asking?
    ensures After(setting, s, steps).requests[id].phase.waited
            <==> (id in s.requests && s.requests[id].phase.waited) || Slept(setting, s, steps, id)
    decreases |steps|
  {
    if steps != [] {
      var t := Next(setting, s, steps[0]);
      if id in t.requests && !t.requests[id].phase.Asking? {
        NeverAsksAgain(setting, t, steps[1..], id);
      }
      WaitedExactly(setting, t, steps[1..], id);
    }
  }

  lemma {:induction false} NeverAsksAgain(setting: Setting, s: State, steps: seq<Step>, id: nat)
    requires Allowed(setting, s, steps) && id in s.requests && !s.requests[id].phase.Asking?
    ensures id in After(setting, s, steps).requests && !After(setting, s, steps).requests[id].phase.Asking?
    decreases |steps|
  {
    if steps != [] {
      NeverAsksAgain(setting, Next(setting, s, steps[0]), steps[1..], id);
    }
  }

  lemma AnswerPosts(setting: Setting, s: State, id: nat, response: Response, item: Item)
    requires Sound(s) && Has(s, id) && s.requests[id].phase.InFlight?
    ensures Answered(setting, s, id, response).file.Stored?
    ensures Total(Answered(setting, s, id, response), item)
         == Total(s, item) + Posted(setting, s, Answer(id, response), item)
  {
    var r := s.requests[id];
    AnswerSettles(setting, s, id, response);
    if Reaches(setting, s, id, response) {
      assert r.phase.reservation.amount == r.call.amount;
      SettlementTotals(s, id, SettledCost(r.call.endpoint, response, r.call.rates));
      PaidAsSettled(r.call, response);
    }
  }

  /** What a settlement does to the totals of the ledger. */
  lemma SettlementTotals(s: State, id: nat, cost: Cost)
    requires id in s.requests && s.requests[id].phase.InFlight? && Settles(s.file, s.requests[id].phase.reservation)
    ensures var r := s.requests[id].phase.reservation;
            var before, after := s.file.ledger, Settle(s.file, r, cost).0.ledger;
            && after.spent == before.spent + Charged(r.amount, cost) && Held(after.open) == Held(before.open) - r.amount
            && after.exceeded as real == before.exceeded as real + (if cost.usd > r.amount then 1.0 else 0.0)
            && after.waits == before.waits
  {
    HeldWithout(s.file.ledger.open, s.requests[id].phase.reservation.key);
  }

  lemma PaidAsSettled(call: Call, response: Response)
    requires Priced(call)
    ensures var cost := SettledCost(call.endpoint, response, call.rates);
            Charged(call.amount, cost) == Payment(call, response)
            && (Payment(call, response) > call.amount <==> cost.usd > call.amount)
            && (cost.usd > call.amount ==> cost.usd == Payment(call, response))
  {
    var usage := UsageIn(call.endpoint, response);
    if !Refusal(response) && usage.Some? {
      ReportedAreKnown(call.endpoint, JsonOf(response).value);
    }
  }

  lemma AskPosts(setting: Setting, s: State, id: nat, key: string, item: Item)
    requires Sound(s) && Enabled(setting, s, Ask(id, key))
    ensures Asked(s, id, key).file.Stored?
    ensures Total(Asked(s, id, key), item) == Total(s, item) + Posted(setting, s, Ask(id, key), item)
  {
    if Fits(s.file.ledger, s.requests[id].call.amount) {
      HeldWith(s.file.ledger.open, key, s.requests[id].call.amount);
    }
  }

  lemma StepPosts(setting: Setting, s: State, step: Step, item: Item)
    requires Sound(s) && Enabled(setting, s, step)
    ensures Next(setting, s, step).file.Stored?
    ensures Total(Next(setting, s, step), item) == Total(s, item) + Posted(setting, s, step, item)
  {
    match step
    case Ask(id, key) => AskPosts(setting, s, id, key, item);
    case Answer(id, response) => AnswerPosts(setting, s, id, response, item);
    case _ =>
  }

  lemma {:induction false} RunPosts(setting: Setting, s: State, steps: seq<Step>, item: Item)
    requires Sound(s) && Allowed(setting, s, steps)
    ensures After(setting, s, steps).file.Stored?
    ensures Total(After(setting, s, steps), item) == Total(s, item) + Summed(setting, s, steps, item)
    decreases |steps|
  {
    if steps != [] {
      StepPosts(setting, s, steps[0], item);
      NextKeepsSound(setting, s, steps[0]);
      RunPosts(setting, Next(setting, s, steps[0]), steps[1..], item);
    }
  }

  /** Conservation: at every point of every interleaving, what is spent is the sum of what the answered requests had to
      pay, what is held is what was granted and not released, and the overrun and both counts are those sums too. */
  lemma LedgerAccountedFor(setting: Setting, start: State, steps: seq<Step>, item: Item)
    requires Initial(start) && Allowed(setting, start, steps)
    ensures After(setting, start, steps).file.Stored?
    ensures Total(After(setting, start, steps), item) == Summed(setting, start, steps, item)
  {
    InitialSound(start);
    RunPosts(setting, start, steps, item);
    assert Held(start.file.ledger.open) == 0.0;
  }
}
