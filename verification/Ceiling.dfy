/** The stateful ceiling of `eval/ceiling.py`, and the provider origin that admits, sends, and settles through it. */
module Ceiling {
  import opened JsonValues
  import opened Options
  import opened Prices
  import opened CeilingRules
  import opened SharedLedger

  /** The keys of `counts`. */
  datatype Counter =
    | Requests | RefusedOnes | FailedOnes | UnreportedOnes | UnsupportedOnes | ThrottledOnes | RejectedOnes
    | ClampedOnes | TerminalOnes

  /** What `admit_body` ends in. `Waiting` is a reservation whose last sleep was never answered. */
  datatype Entry =
    | Entered(sent: Content, reservation: Reservation, rates: Price)
    | UnsupportedRequest
    | RefusedRequest
    | UncaughtException
    | Waiting

  /** What `settle_body` comes to: a settlement the ledger takes or refuses, or the `OverflowError` of a usage that
      cannot be priced, which leaves it before it settles. */
  datatype Settlement = Taken | NotTaken | Unpriceable

  /** What `forward` ends in: the answer, or the exception that leaves it. */
  datatype Forwarded =
    | Answered(response: Response)
    | SendFailed
    | SettlementFailed
    | PricingFailed
    | ReadingFailed          // the answer was nested too deep to parse
    | NotAdmitted(entry: Entry)

  ghost predicate Whole(counts: map<Counter, nat>) {
    forall name: Counter :: name in counts
  }

  /** Every counter moves by how often it was counted. */
  ghost predicate Moved(before: map<Counter, nat>, after: map<Counter, nat>, counted: multiset<Counter>)
    requires Whole(before) && Whole(after)
  {
    forall name: Counter :: after[name] == before[name] + counted[name]
  }

  lemma MovedTwice(before: map<Counter, nat>, between: map<Counter, nat>, after: map<Counter, nat>,
                   first: multiset<Counter>, second: multiset<Counter>)
    requires Whole(before) && Whole(between) && Whole(after)
    requires Moved(before, between, first) && Moved(between, after, second)
    ensures Moved(before, after, first + second)
  {
  }

  /** The evidence a response adds beside its outcome. */
  function Evidence(response: Response): multiset<Counter> {
    (if Terminal(response) then multiset{TerminalOnes} else multiset{})
    + (if Stopped(response) then multiset{ClampedOnes} else multiset{})
  }

  /** The evidence is counted exactly so: `terminal` for a refused key, an account without credit, or a refusal that
      names one; `clamped` for a successful answer cut at the output limit. */
  lemma EvidenceExactly(response: Response)
    ensures var evidence, json := Evidence(response), JsonOf(response);
            && evidence[TerminalOnes]
                 == One(response.status in {Some(401), Some(402), Some(403)}
                        || (response.status in {Some(400), Some(429)} && response.terminalWord))
            && evidence[ClampedOnes] == One(response.status == Some(200) && json.Some? && StoppedAtLimit(json.value))
            && forall name | name !in {TerminalOnes, ClampedOnes} :: evidence[name] == 0
  {
  }

  function OutcomeCount(outcome: Outcome): multiset<Counter> {
    match outcome
    case Throttled => multiset{ThrottledOnes}
    case Rejected => multiset{RejectedOnes}
    case Failed => multiset{FailedOnes}
    case Unreported => multiset{UnreportedOnes}
    case Billed => multiset{}
  }

  /** What a settlement counts; its outcome only if the ledger took the settlement. */
  function SettledCount(endpoint: Endpoint, response: Response, settled: bool): multiset<Counter> {
    Evidence(response) + (if settled then OutcomeCount(OutcomeOf(endpoint, response)) else multiset{})
  }

  function EntryCount(entry: Entry): multiset<Counter> {
    match entry
    case Entered(_, _, _) => multiset{Requests}
    case UnsupportedRequest => multiset{UnsupportedOnes}
    case RefusedRequest => multiset{RefusedOnes}
    case _ => multiset{}
  }

  /** Each end of an admission moves its own counter by one, and no other counter moves. */
  lemma EntryCountedOnce(before: map<Counter, nat>, after: map<Counter, nat>, entry: Entry)
    requires Whole(before) && Whole(after) && Moved(before, after, EntryCount(entry))
    ensures forall name ::
              after[name] - before[name]
                == One((name == Requests && entry.Entered?) || (name == UnsupportedOnes && entry.UnsupportedRequest?)
                       || (name == RefusedOnes && entry.RefusedRequest?))
  {
  }

  // ---- What other processes leave alone ----

  /** The reservation id an operation names. */
  function Named(op: Operation): string {
    match op
    case Poll(_, _, _, key) => key
    case Close(r, _) => r.key
  }

  predicate Elsewise(op: Operation, key: string) {
    Named(op) != key && (op.Close? ==> op.cost.usd >= 0.0)
  }

  /** However long a request is in flight, the operations of other requests leave its own reservation open. */
  lemma {:induction false} OthersLeaveOpen(file: File, ops: seq<Operation>, r: Reservation)
    requires Settles(file, r) && forall op | op in ops :: Elsewise(op, r.key)
    ensures Settles(PerformAll(file, ops), r)
    decreases |ops|
  {
    if ops != [] {
      assert Elsewise(ops[0], r.key);
      assert Settles(Perform(file, ops[0]), r);
      OthersLeaveOpen(Perform(file, ops[0]), ops[1..], r);
    }
  }

  class Ceiling {
    const limit: nat
    const python: Python
    const catalog: seq<Listed>
    const budget: SharedBudget
    var counts: map<Counter, nat>
    var maxReservation: real

    ghost predicate ValidCounts()
      reads this
    {
      Whole(counts)
    }

    constructor (limit: nat, python: Python, catalog: seq<Listed>, budget: SharedBudget)
      ensures ValidCounts() && this.budget == budget && this.limit == limit && this.python == python
      ensures this.catalog == catalog && maxReservation == 0.0
      ensures forall name | name in counts :: counts[name] == 0
    {
      this.limit, this.python, this.catalog, this.budget := limit, python, catalog, budget;
      counts := map[Requests := 0, RefusedOnes := 0, FailedOnes := 0, UnreportedOnes := 0, UnsupportedOnes := 0,
                    ThrottledOnes := 0, RejectedOnes := 0, ClampedOnes := 0, TerminalOnes := 0];
      maxReservation := 0.0;
      new;
      forall name: Counter
        ensures name in counts && counts[name] == 0
      {
        match name
        case Requests =>
        case _ =>
      }
    }

    method Count(name: Counter)
      requires ValidCounts()
      modifies `counts
      ensures ValidCounts() && Moved(old(counts), counts, multiset{name})
    {
      counts := counts[name := counts[name] + 1];
    }

    /** The clamp of `_bounded`: a copy of the body, each set limit field rewritten in turn, then the endpoint's own. */
    method ClampLimits(body: map<string, Json>, own: string) returns (result: Clamping)
      ensures result == Clamp(body, own, limit, python)
    {
      var clamped := body;
      var i := 0;
      while i < |LIMIT_FIELDS|
        invariant i <= |LIMIT_FIELDS|
        invariant ClampEach(LIMIT_FIELDS[i..], body, clamped, limit, python)
               == ClampEach(LIMIT_FIELDS, body, body, limit, python)
      {
        var rest := LIMIT_FIELDS[i..];
        assert rest[0] == LIMIT_FIELDS[i] && rest[1..] == LIMIT_FIELDS[i + 1..];
        if !Get(body, LIMIT_FIELDS[i]).Null? {
          var reading := IntOf(Get(body, LIMIT_FIELDS[i]), python);
          if !reading.Reads? {
            return Refused(reading);
          }
          clamped := clamped[LIMIT_FIELDS[i] := Int(Min(reading.number, limit))];
        }
        i := i + 1;
      }
      assert LIMIT_FIELDS[i..] == [];
      var reading := Reads(limit);
      if Truthy(Get(body, own)) {
        reading := IntOf(Get(body, own), python);
        if !reading.Reads? {
          return Refused(reading);
        }
      }
      return Clamped(clamped[own := Int(Min(reading.number, limit))]);
    }

    /** `_bounded`, whose refusals are counted. */
    method BoundedBody(endpoint: Endpoint, content: Content) returns (result: Bounded)
      requires ValidCounts()
      modifies `counts
      ensures result == BoundBody(endpoint, content, limit, python)
      ensures ValidCounts()
      ensures Moved(old(counts), counts, if result.Unsupported? then multiset{UnsupportedOnes} else multiset{})
    {
      if endpoint.Elsewhere? || content.parsing.NotJson? {
        Count(UnsupportedOnes);
        return Unsupported;
      }
      if content.parsing.TooDeep? {
        return Crashed;
      }
      if !content.parsing.json.Dict? {
        Count(UnsupportedOnes);
        return Unsupported;
      }
      var body := content.parsing.json.fields;
      if Truthy(Get(body, "stream")) || !Get(body, "model").Text? {
        Count(UnsupportedOnes);
        return Unsupported;
      }
      var model := Get(body, "model").text;
      if endpoint.Embeddings? {
        if model !in EMBEDDING_MODELS {
          Count(UnsupportedOnes);
          return Unsupported;
        }
        return Bounded(content, model, true);
      }
      var clamping := ClampLimits(body, OwnField(endpoint).value);
      if clamping.Refused? {
        if clamping.why.Overflows? {
          return Crashed;
        }
        Count(UnsupportedOnes);
        return Unsupported;
      }
      if !Changed(body, clamping.fields) {
        return Bounded(content, model, false);
      }
      var length := python.encodedLength(Dict(clamping.fields));
      if length.None? {
        return Crashed;
      }
      return Bounded(Content(Parsed(Dict(clamping.fields)), length.value), model, false);
    }

    /** The first half of `admit_body`: the bounded body and its worst case; a request without one is counted. */
    method WorstCaseOf(endpoint: Endpoint, content: Content) returns (worst: Admission)
      requires ValidCounts()
      modifies `counts
      ensures worst == WorstCase(endpoint, content, limit, python, catalog)
      ensures ValidCounts()
      ensures Moved(old(counts), counts, if worst.NotBounded? then multiset{UnsupportedOnes} else multiset{})
    {
      var bounded := BoundedBody(endpoint, content);
      if bounded.Crashed? {
        return AdmissionCrash;
      }
      if bounded.Unsupported? {
        return NotBounded;
      }
      worst := PriceBody(bounded.sent, bounded.model, if bounded.embeddings then 0 else limit);
      if worst.NotBounded? {
        Count(UnsupportedOnes);
      }
    }

    /** The worst case of a bounded body, before it is counted. */
    method PriceBody(sent: Content, model: string, output: nat) returns (worst: Admission)
      ensures worst == PricedCase(sent, model, output, python, catalog)
    {
      var tokens := sent.length + REQUEST_ALLOWANCE_TOKENS;
      if model in PRICED_INPUT_TOKENS && tokens > PRICED_INPUT_TOKENS[model] {
        return NotBounded;
      }
      var amount := CallBound(model, tokens, output, catalog);
      if amount.None? {
        return NotBounded;
      }
      if tokens >= python.floatLimit || output >= python.floatLimit {
        return AdmissionCrash;
      }
      return Admissible(sent, model, amount.value);
    }

    /** `admit_body`: an admitted body is the bounded one, its reservation the worst case, counted once; nothing is
        reserved on any other path. */
    method AdmitBody(endpoint: Endpoint, content: Content, key: string, between: seq<seq<Operation>>)
      returns (entry: Entry)
      requires ValidCounts()
      modifies this, budget
      ensures ValidCounts()
      ensures AdmitsAs(old(budget.file), endpoint, content, key, between, entry, budget.file)
      ensures Moved(old(counts), counts, EntryCount(entry))
      ensures entry.Entered? ==>
                maxReservation == if entry.reservation.amount > old(maxReservation) then entry.reservation.amount
                                  else old(maxReservation)
      ensures !entry.Entered? ==> maxReservation == old(maxReservation)
    {
      var worst := WorstCaseOf(endpoint, content);
      match worst
      case AdmissionCrash =>
        return UncaughtException;
      case NotBounded =>
        return UnsupportedRequest;
      case Admissible(sent, model, amount) =>
        AdmissibleAmount(endpoint, content, limit, python, catalog);
        ghost var before := budget.file;
        var reply := budget.ReserveAmount(amount, true, key, between);
        match reply {
          case Granted(reservation) =>
            WaitedGrants(before, amount, key, between, false);
            Count(Requests);
            if amount > maxReservation {
              maxReservation := amount;
            }
            return Entered(sent, reservation, PriceOf(model, catalog).value);
          case Pending =>
            return Waiting;
          case _ =>
            Count(RefusedOnes);
            return RefusedRequest;
        }
    }

    /** What an admission does to the ledger and returns, in terms of the request's worst case. */
    ghost predicate AdmitsAs(before: File, endpoint: Endpoint, content: Content, key: string,
                             between: seq<seq<Operation>>, entry: Entry, after: File)
    {
      match WorstCase(endpoint, content, limit, python, catalog)
      case NotBounded => entry == UnsupportedRequest && after == before
      case AdmissionCrash => entry == UncaughtException && after == before
      case Admissible(sent, model, amount) =>
        var (file, reply) := Waited(before, amount, true, false, key, between);
        after == file &&
        match reply
        case Granted(reservation) =>
          reservation == Reservation(amount, key) && Settles(after, reservation)
          && PriceOf(model, catalog).Some? && entry == Entered(sent, reservation, PriceOf(model, catalog).value)
        case Pending => entry == Waiting
        case _ => entry == RefusedRequest
    }

    /** Settle and then count the outcome; a settlement the ledger refuses raises before it is counted. */
    method SettleAs(reservation: Reservation, cost: Cost, outcome: Outcome) returns (settled: bool)
      requires ValidCounts()
      modifies `counts, budget
      ensures ValidCounts()
      ensures (budget.file, settled) == Settle(old(budget.file), reservation, cost)
      ensures Moved(old(counts), counts, if settled then OutcomeCount(outcome) else multiset{})
    {
      settled := budget.SettleReservation(reservation, cost);
      if settled {
        match outcome {
          case Throttled => Count(ThrottledOnes);
          case Rejected => Count(RejectedOnes);
          case Failed => Count(FailedOnes);
          case Unreported => Count(UnreportedOnes);
          case Billed =>
        }
      }
    }

    /** What `settle_body` counts before it settles: a terminal refusal, and an answer cut at the output limit. */
    method CountEvidence(response: Response)
      requires ValidCounts()
      modifies `counts
      ensures ValidCounts() && Moved(old(counts), counts, Evidence(response))
    {
      if Terminal(response) {
        Count(TerminalOnes);
      }
      if Stopped(response) {
        Count(ClampedOnes);
      }
    }

    /** `settle_body`: one settlement, of the cost the response reports, whatever came back; only a usage that cannot be
        priced leaves the reservation open and no outcome counted. */
    method SettleBody(reservation: Reservation, endpoint: Endpoint, rates: Price, response: Response)
      returns (settlement: Settlement)
      requires ValidCounts()
      modifies `counts, budget
      ensures ValidCounts()
      ensures settlement.Unpriceable? <==> !Settleable(endpoint, response, python)
      ensures settlement.Unpriceable? ==> budget.file == old(budget.file)
      ensures !settlement.Unpriceable? ==>
                (budget.file, settlement.Taken?)
                  == Settle(old(budget.file), reservation, SettledCost(endpoint, response, rates))
      ensures Moved(old(counts), counts, SettledCount(endpoint, response, settlement.Taken?))
    {
      CountEvidence(response);
      ghost var noted := counts;
      var usage := UsageIn(endpoint, response);
      var cost, outcome;
      if Refusal(response) {
        cost := Cost(0.0, true);
        outcome := if response.status.value in THROTTLE_STATUSES then Throttled else Rejected;
      } else if usage.None? {
        cost := Cost(0.0, false);
        outcome := if response.status.None? || response.status.value >= 400 then Failed else Unreported;
      } else if !Priceable(usage.value, python) {
        return Unpriceable;
      } else {
        cost := Cost(UsageCost(usage.value, rates), Known(usage.value));
        outcome := Billed;
      }
      var settled := SettleAs(reservation, cost, outcome);
      MovedTwice(old(counts), noted, counts, Evidence(response), if settled then OutcomeCount(outcome) else multiset{});
      return if settled then Taken else NotTaken;
    }

    /** `ProviderOrigin.forward`: admit, send, and settle in `finally`. `response` is what the send gives, with no
        status when it raises; `during` is what other requests do to the ledger meanwhile. An admitted request's own
        reservation is then still open. It is settled once, at its response's cost and by a settlement the ledger
        takes, exactly when the response can be priced, a raising send and an unreadable body included; otherwise it
        stays open. */
    method Forward(endpoint: Endpoint, content: Content, key: string, between: seq<seq<Operation>>, response: Response,
                   during: seq<Operation>)
      returns (result: Forwarded, ghost entry: Entry)
      requires ValidCounts() && forall op | op in during :: Elsewise(op, key)
      modifies this, budget
      ensures ValidCounts()
      ensures !entry.Entered? ==>
                result == NotAdmitted(entry)
                && AdmitsAs(old(budget.file), endpoint, content, key, between, entry, budget.file)
                && Moved(old(counts), counts, EntryCount(entry))
      ensures entry.Entered? ==>
                var admitted := Waited(old(budget.file), entry.reservation.amount, true, false, key, between).0;
                var sent := PerformAll(admitted, during);
                var settles := Settleable(endpoint, response, python);
                AdmitsAs(old(budget.file), endpoint, content, key, between, entry, admitted)
                && Settles(sent, entry.reservation)
                && budget.file == (if settles
                                   then Settle(sent, entry.reservation, SettledCost(endpoint, response, entry.rates)).0
                                   else sent)
                && (Settles(budget.file, entry.reservation) <==> !settles)
                && Moved(old(counts), counts, multiset{Requests} + SettledCount(endpoint, response, settles))
                && result == Ended(endpoint, response, python)
    {
      var admission := AdmitBody(endpoint, content, key, between);
      entry := admission;
      if !admission.Entered? {
        return NotAdmitted(admission), entry;
      }
      OthersLeaveOpen(budget.file, during, admission.reservation);
      budget.PerformTurn(during);
      ghost var admitted := counts;
      var settlement := SettleBody(admission.reservation, endpoint, admission.rates, response);
      MovedTwice(old(counts), admitted, counts, multiset{Requests},
                 SettledCount(endpoint, response, settlement.Taken?));
      result :=
        if settlement.Unpriceable? then PricingFailed
        else if settlement.NotTaken? then SettlementFailed
        else if Unparsed(response) then ReadingFailed
        else if response.status.None? then SendFailed
        else Answered(response);
    }
  }

  /** A body nested too deep raises once it has been settled as unreported. */
  predicate Unparsed(response: Response) {
    !Refusal(response) && response.status.Some? && response.answer == Some(TooDeep)
  }

  /** How a forwarded request ends once it was admitted. */
  function Ended(endpoint: Endpoint, response: Response, python: Python): Forwarded {
    if !Settleable(endpoint, response, python) then PricingFailed
    else if Unparsed(response) then ReadingFailed
    else if response.status.None? then SendFailed
    else Answered(response)
  }

  /** An admitted request ends in an answer exactly when one came back whose usage can be priced and whose body,
      unless it was a refusal, is not nested too deep. */
  lemma EndedExactly(endpoint: Endpoint, response: Response, python: Python)
    ensures var ended := Ended(endpoint, response, python);
            && (ended == Answered(response) <==>
                  response.status.Some? && Settleable(endpoint, response, python)
                  && (Refusal(response) || response.answer != Some(TooDeep)))
            && (ended == PricingFailed <==> !Settleable(endpoint, response, python))
            && (ended == SendFailed <==> response.status.None?)
            && !ended.SettlementFailed? && !ended.NotAdmitted?
  {
  }

  /** Under the ceiling's stated assumptions every response to an admitted request can be priced, so every admitted
      request is settled. */
  lemma AdmittedSettles(endpoint: Endpoint, content: Content, limit: nat, python: Python, catalog: seq<Listed>,
                        response: Response)
    requires WorstCase(endpoint, content, limit, python, catalog).Admissible?
    requires var sent := WorstCase(endpoint, content, limit, python, catalog).sent;
             WithinAssumptions(endpoint, response, sent.length + REQUEST_ALLOWANCE_TOKENS,
                               if endpoint.Embeddings? then 0 else limit)
    ensures Settleable(endpoint, response, python)
  {
    CallsArePriced(endpoint, content, limit, python, catalog);
    AssumptionsSettle(CallOf(endpoint, content, limit, python, catalog).value, response, python);
  }

  lemma AdmissibleAmount(endpoint: Endpoint, content: Content, limit: nat, python: Python, catalog: seq<Listed>)
    ensures var admitted := WorstCase(endpoint, content, limit, python, catalog);
            admitted.Admissible? ==> admitted.amount >= 0.0 && PriceOf(admitted.model, catalog).Some?
  {
    CallsArePriced(endpoint, content, limit, python, catalog);
  }

  /** A granted reservation is open under its own key, for its whole amount. */
  lemma {:induction false} WaitedGrants(file: File, amount: real, key: string, between: seq<seq<Operation>>,
                                        waited: bool)
    requires Waited(file, amount, true, waited, key, between).1.Granted?
    ensures var (after, reply) := Waited(file, amount, true, waited, key, between);
            reply.reservation == Reservation(amount, key) && Settles(after, reply.reservation)
    decreases |between|
  {
    var (after, reply) := Reserve(file, amount, true, waited, key);
    if reply.Pending? && between != [] {
      WaitedGrants(PerformAll(after, between[0]), amount, key, between[1..], true);
    }
  }

  /** Once its request has been forwarded, every admitted request is counted under exactly one outcome, or was
      billed, or could not be priced. */
  lemma ForwardedOnce(before: map<Counter, nat>, after: map<Counter, nat>, endpoint: Endpoint, response: Response,
                      python: Python)
    requires Whole(before) && Whole(after)
    requires Moved(before, after,
                   multiset{Requests} + SettledCount(endpoint, response, Settleable(endpoint, response, python)))
    ensures after[Requests] == before[Requests] + 1
            && Outcomes(after) - Outcomes(before)
                 == (if Settleable(endpoint, response, python) && !OutcomeOf(endpoint, response).Billed? then 1 else 0)
            && after[RefusedOnes] == before[RefusedOnes] && after[UnsupportedOnes] == before[UnsupportedOnes]
            && after[TerminalOnes] == before[TerminalOnes] + Evidence(response)[TerminalOnes]
            && after[ClampedOnes] == before[ClampedOnes] + Evidence(response)[ClampedOnes]
    ensures var settles, outcome := Settleable(endpoint, response, python), OutcomeOf(endpoint, response);
            && after[ThrottledOnes] == before[ThrottledOnes] + One(settles && outcome.Throttled?)
            && after[RejectedOnes] == before[RejectedOnes] + One(settles && outcome.Rejected?)
            && after[FailedOnes] == before[FailedOnes] + One(settles && outcome.Failed?)
            && after[UnreportedOnes] == before[UnreportedOnes] + One(settles && outcome.Unreported?)
  {
    var outcome := if Settleable(endpoint, response, python) then OutcomeOf(endpoint, response) else Billed;
    assert OutcomeCount(Billed) == multiset{};
    CountedOnce(before, after, Evidence(response), outcome);
  }

  lemma CountedOnce(before: map<Counter, nat>, after: map<Counter, nat>, evidence: multiset<Counter>, outcome: Outcome)
    requires Whole(before) && Whole(after)
    requires Moved(before, after, multiset{Requests} + (evidence + OutcomeCount(outcome)))
    requires forall name :: name !in {TerminalOnes, ClampedOnes} ==> evidence[name] == 0
    ensures after[Requests] == before[Requests] + 1
            && Outcomes(after) - Outcomes(before) == (if outcome.Billed? then 0 else 1)
            && after[RefusedOnes] == before[RefusedOnes] && after[UnsupportedOnes] == before[UnsupportedOnes]
            && after[TerminalOnes] == before[TerminalOnes] + evidence[TerminalOnes]
            && after[ClampedOnes] == before[ClampedOnes] + evidence[ClampedOnes]
    ensures after[ThrottledOnes] == before[ThrottledOnes] + One(outcome.Throttled?)
            && after[RejectedOnes] == before[RejectedOnes] + One(outcome.Rejected?)
            && after[FailedOnes] == before[FailedOnes] + One(outcome.Failed?)
            && after[UnreportedOnes] == before[UnreportedOnes] + One(outcome.Unreported?)
  {
  }

  ghost function Outcomes(counts: map<Counter, nat>): nat
    requires Whole(counts)
  {
    counts[ThrottledOnes] + counts[RejectedOnes] + counts[FailedOnes] + counts[UnreportedOnes]
  }
}
