/** The outcome counts of the ceilings of a campaign: at every point of every interleaving they add up to the requests
    themselves. */
module Accounting {
  import opened Options
  import opened CeilingRules
  import opened SharedLedger
  import opened Campaign

  /** The groups of requests the counts speak of. */
  datatype Group =
    | Counted(ceiling: nat)                      // under `requests`
    | Open(ceiling: nat)                         // of those: not settled yet, in flight or lost to a crash
    | Uncounted(ceiling: nat)                    // of those: settled, its outcome about to be counted
    | Over(ceiling: nat, outcome: Outcome)       // of those: counted under its outcome
    | TurnedAway(ceiling: nat)
    | UnknownCost                                // settled, at any ceiling, without a usable usage report
    | UnknownUncounted

  predicate Unsettled(phase: Phase) {
    phase.InFlight? || (phase.Abandoned? && phase.counted)
  }

  predicate In(r: Request, group: Group) {
    match group
    case Counted(c) => r.ceiling == c && (Unsettled(r.phase) || Ending(r.phase))
    case Open(c) => r.ceiling == c && Unsettled(r.phase)
    case Uncounted(c) => r.ceiling == c && r.phase.Settled?
    case Over(c, outcome) => r.ceiling == c && r.phase.Done? && r.phase.outcome == outcome
    case TurnedAway(c) => r.ceiling == c && r.phase.Turned?
    case UnknownCost => Ending(r.phase) && r.phase.outcome in {Failed, Unreported}
    case UnknownUncounted => r.phase.Settled? && r.phase.outcome in {Failed, Unreported}
  }

  ghost function Members(requests: map<nat, Request>, group: Group): set<nat> {
    set id | id in requests && In(requests[id], group)
  }

  /** How many requests are in a group. */
  ghost function Number(requests: map<nat, Request>, group: Group): nat {
    |Members(requests, group)|
  }

  lemma CountOne(ids: set<nat>, id: nat)
    ensures |ids| == |ids - {id}| + One(id in ids)
  {
    if id in ids {
      assert ids == (ids - {id}) + {id};
    } else {
      assert ids == ids - {id};
    }
  }

  lemma MembersMove(requests: map<nat, Request>, id: nat, r: Request, group: Group)
    ensures var after := requests[id := r];
            Members(after, group) - {id} == Members(requests, group) - {id}
            && (id in Members(after, group) <==> In(r, group))
  {
    var after := requests[id := r];
    forall i | i != id
      ensures i in Members(after, group) <==> i in Members(requests, group)
    {
      assert i in after <==> i in requests;
    }
  }

  /** Replacing one request moves it between groups. */
  lemma NumberMoves(requests: map<nat, Request>, id: nat, r: Request, group: Group)
    ensures Number(requests[id := r], group) + One(id in requests && In(requests[id], group))
         == Number(requests, group) + One(In(r, group))
  {
    MembersMove(requests, id, r, group);
    CountOne(Members(requests[id := r], group), id);
    CountOne(Members(requests, group), id);
  }

  lemma NumberRemoves(requests: map<nat, Request>, id: nat, group: Group)
    requires id in requests
    ensures Number(requests, group) == Number(requests - {id}, group) + One(In(requests[id], group))
  {
    assert (requests - {id})[id := requests[id]] == requests;
    NumberMoves(requests - {id}, id, requests[id], group);
  }

  lemma NoneOf(requests: map<nat, Request>)
    requires requests.Keys == {}
    ensures forall group :: Number(requests, group) == 0
  {
    forall group
      ensures Number(requests, group) == 0
    {
      assert Members(requests, group) <= requests.Keys;
    }
  }

  lemma OneGroup(r: Request, c: nat)
    ensures One(In(r, Counted(c)))
         == One(In(r, Open(c))) + One(In(r, Uncounted(c))) + One(In(r, Over(c, Billed)))
          + One(In(r, Over(c, Throttled))) + One(In(r, Over(c, Rejected)))
          + One(In(r, Over(c, Failed))) + One(In(r, Over(c, Unreported)))
  {
    if r.phase.Done? {
      match r.phase.outcome
      case Billed =>
      case Throttled =>
      case Rejected =>
      case Failed =>
      case Unreported =>
    }
  }

  /** The counted requests are those still open, those about to be counted, and one group per outcome. */
  lemma {:induction false} Partition(requests: map<nat, Request>, c: nat)
    ensures Number(requests, Counted(c))
         == Number(requests, Open(c)) + Number(requests, Uncounted(c)) + Number(requests, Over(c, Billed))
          + Number(requests, Over(c, Throttled)) + Number(requests, Over(c, Rejected))
          + Number(requests, Over(c, Failed)) + Number(requests, Over(c, Unreported))
    decreases |requests|
  {
    if requests == map[] {
      NoneOf(requests);
    } else {
      var id :| id in requests;
      assert (requests - {id}).Keys == requests.Keys - {id};
      Partition(requests - {id}, c);
      OneGroup(requests[id], c);
      NumberRemoves(requests, id, Counted(c));
      NumberRemoves(requests, id, Open(c));
      NumberRemoves(requests, id, Uncounted(c));
      NumberRemoves(requests, id, Over(c, Billed));
      NumberRemoves(requests, id, Over(c, Throttled));
      NumberRemoves(requests, id, Over(c, Rejected));
      NumberRemoves(requests, id, Over(c, Failed));
      NumberRemoves(requests, id, Over(c, Unreported));
    }
  }

  /** With one ceiling, the settlements of unknown cost are those counted as failed or unreported, and those about to
      be. */
  lemma {:induction false} UnknownPartition(requests: map<nat, Request>, c: nat)
    requires forall id | id in requests :: requests[id].ceiling == c
    ensures Number(requests, UnknownCost)
         == Number(requests, Over(c, Failed)) + Number(requests, Over(c, Unreported))
          + Number(requests, UnknownUncounted)
    decreases |requests|
  {
    if requests == map[] {
      NoneOf(requests);
    } else {
      var id :| id in requests;
      assert (requests - {id}).Keys == requests.Keys - {id};
      UnknownPartition(requests - {id}, c);
      NumberRemoves(requests, id, UnknownCost);
      NumberRemoves(requests, id, UnknownUncounted);
      NumberRemoves(requests, id, Over(c, Failed));
      NumberRemoves(requests, id, Over(c, Unreported));
    }
  }

  // ---- What every step keeps ----

  ghost predicate Tallies(counts: Counts, requests: map<nat, Request>, c: nat) {
    && counts.requests == Number(requests, Counted(c))
    && counts.refused == Number(requests, TurnedAway(c))
    && counts.throttled == Number(requests, Over(c, Throttled))
    && counts.rejected == Number(requests, Over(c, Rejected))
    && counts.failed == Number(requests, Over(c, Failed))
    && counts.unreported == Number(requests, Over(c, Unreported))
  }

  ghost predicate AllTally(s: State) {
    forall c | c in s.counts :: Tallies(s.counts[c], s.requests, c)
  }

  ghost predicate Placed(s: State) {
    forall id | id in s.requests :: s.requests[id].ceiling in s.counts
  }

  ghost predicate Accounted(s: State) {
    s.file.Stored? && AllTally(s) && Placed(s) && s.file.ledger.unknown == Number(s.requests, UnknownCost)
  }

  predicate Was(s: State, id: nat, group: Group) {
    id in s.requests && In(s.requests[id], group)
  }

  /** Each count of ceiling `c` changes as the moved request enters and leaves its group. */
  predicate CountsFollow(s: State, id: nat, r: Request, c: nat, before: Counts, after: Counts) {
    && after.requests + One(Was(s, id, Counted(c))) == before.requests + One(In(r, Counted(c)))
    && after.refused + One(Was(s, id, TurnedAway(c))) == before.refused + One(In(r, TurnedAway(c)))
    && after.throttled + One(Was(s, id, Over(c, Throttled))) == before.throttled + One(In(r, Over(c, Throttled)))
    && after.rejected + One(Was(s, id, Over(c, Rejected))) == before.rejected + One(In(r, Over(c, Rejected)))
    && after.failed + One(Was(s, id, Over(c, Failed))) == before.failed + One(In(r, Over(c, Failed)))
    && after.unreported + One(Was(s, id, Over(c, Unreported))) == before.unreported + One(In(r, Over(c, Unreported)))
  }

  lemma TalliesFollow(s: State, id: nat, r: Request, c: nat, before: Counts, after: Counts)
    requires Tallies(before, s.requests, c) && CountsFollow(s, id, r, c, before, after)
    ensures Tallies(after, s.requests[id := r], c)
  {
    NumberMoves(s.requests, id, r, Counted(c));
    NumberMoves(s.requests, id, r, TurnedAway(c));
    NumberMoves(s.requests, id, r, Over(c, Throttled));
    NumberMoves(s.requests, id, r, Over(c, Rejected));
    NumberMoves(s.requests, id, r, Over(c, Failed));
    NumberMoves(s.requests, id, r, Over(c, Unreported));
  }

  /** Every request belongs to a known ceiling, and the answer of a step settles. */
  ghost predicate Orderly(s: State, step: Step) {
    && s.file.Stored? && Placed(s)
    && (step.Answer? && Has(s, step.id) && s.requests[step.id].phase.InFlight? ==>
          Settles(s.file, s.requests[step.id].phase.reservation))
  }

  lemma StepMovesOne(setting: Setting, s: State, step: Step)
    requires Orderly(s, step) && Enabled(setting, s, step)
    ensures var t := Next(setting, s, step);
            t.counts.Keys == s.counts.Keys && step.id in t.requests && t.file.Stored?
            && t.requests == s.requests[step.id := t.requests[step.id]]
            && t.requests[step.id].ceiling in s.counts
  {
    match step
    case Ask(id, key) =>
    case Answer(id, response) =>
    case Arrive(id, ceiling, endpoint, content) =>
    case CountRequest(id) =>
    case CountOutcome(id) =>
    case Crash(id) =>
  }

  lemma StepFollows(setting: Setting, s: State, step: Step, c: nat)
    requires Orderly(s, step) && Enabled(setting, s, step) && c in s.counts
    ensures var t := Next(setting, s, step);
            step.id in t.requests && c in t.counts
            && CountsFollow(s, step.id, t.requests[step.id], c, s.counts[c], t.counts[c])
  {
    var t := Next(setting, s, step);
    var r := t.requests[step.id];
    if r.ceiling != c {
      assert t.counts[c] == s.counts[c];
      OtherFollows(s, step.id, r, c);
    } else {
      match step
      case Arrive(id, _, _, _) => ArrivalFollows(s, id, r, c);
      case Ask(id, key) => AskFollows(s, id, key, c);
      case Answer(id, response) => AnswerFollows(setting, s, id, response, c);
      case CountRequest(id) => RequestFollows(setting, s, id, c);
      case CountOutcome(id) => OutcomeFollows(setting, s, id, c);
      case Crash(id) => CrashFollows(s, id, r, c);
    }
  }

  lemma OtherFollows(s: State, id: nat, r: Request, c: nat)
    requires c in s.counts && r.ceiling != c && (id in s.requests ==> s.requests[id].ceiling == r.ceiling)
    ensures CountsFollow(s, id, r, c, s.counts[c], s.counts[c])
  {
  }

  lemma ArrivalFollows(s: State, id: nat, r: Request, c: nat)
    requires c in s.counts && id !in s.requests && r.phase.Asking?
    ensures CountsFollow(s, id, r, c, s.counts[c], s.counts[c])
  {
  }

  lemma CrashFollows(s: State, id: nat, r: Request, c: nat)
    requires c in s.counts && id in s.requests && r.ceiling == s.requests[id].ceiling
    requires s.requests[id].phase.Reserved? || s.requests[id].phase.InFlight?
    requires r.phase == Abandoned(s.requests[id].phase.reservation, s.requests[id].phase.InFlight?)
    ensures CountsFollow(s, id, r, c, s.counts[c], s.counts[c])
  {
  }

  lemma AskFollows(s: State, id: nat, key: string, c: nat)
    requires Has(s, id) && s.requests[id].phase.Asking? && c in s.counts
    ensures var t := Asked(s, id, key);
            id in t.requests && c in t.counts && CountsFollow(s, id, t.requests[id], c, s.counts[c], t.counts[c])
  {
  }

  lemma AnswerFollows(setting: Setting, s: State, id: nat, response: Response, c: nat)
    requires Has(s, id) && s.requests[id].phase.InFlight? && c in s.counts
    requires Settles(s.file, s.requests[id].phase.reservation)
    ensures var t := Answered(setting, s, id, response);
            id in t.requests && c in t.counts && CountsFollow(s, id, t.requests[id], c, s.counts[c], t.counts[c])
  {
    var t := Answered(setting, s, id, response);
    assert t.counts == s.counts;
    if Reaches(setting, s, id, response) {
      assert t.requests[id].phase.Settled?;
    } else {
      assert t.requests[id].phase.Abandoned?;
    }
  }

  lemma RequestFollows(setting: Setting, s: State, id: nat, c: nat)
    requires Enabled(setting, s, CountRequest(id)) && s.requests[id].ceiling == c
    ensures var t := Next(setting, s, CountRequest(id));
            id in t.requests && c in t.counts && CountsFollow(s, id, t.requests[id], c, s.counts[c], t.counts[c])
  {
  }

  lemma OutcomeFollows(setting: Setting, s: State, id: nat, c: nat)
    requires Enabled(setting, s, CountOutcome(id)) && s.requests[id].ceiling == c
    ensures var t := Next(setting, s, CountOutcome(id));
            id in t.requests && c in t.counts && CountsFollow(s, id, t.requests[id], c, s.counts[c], t.counts[c])
  {
    var t := Next(setting, s, CountOutcome(id));
    var r := t.requests[id];
    var outcome := s.requests[id].phase.outcome;
    assert r.phase == Done(outcome) && r.ceiling == c && t.counts[c] == Ended(s.counts[c], outcome);
    EndedFollows(s, id, r, outcome, c);
  }

  lemma EndedFollows(s: State, id: nat, r: Request, outcome: Outcome, c: nat)
    requires Has(s, id) && s.requests[id].ceiling == c && s.requests[id].phase.Settled?
    requires r.phase == Done(outcome) && r.ceiling == c
    ensures CountsFollow(s, id, r, c, s.counts[c], Ended(s.counts[c], outcome))
  {
    match outcome
    case Billed =>
    case Throttled =>
    case Rejected =>
    case Failed =>
    case Unreported =>
  }

  /** The ledger's count of unknown settlements changes only with a settlement whose outcome says its cost is
      unknown. */
  lemma UnknownFollows(setting: Setting, s: State, step: Step)
    requires Orderly(s, step) && Enabled(setting, s, step)
    ensures var t := Next(setting, s, step);
            step.id in t.requests && t.file.Stored?
            && t.file.ledger.unknown + One(Was(s, step.id, UnknownCost))
                 == s.file.ledger.unknown + One(In(t.requests[step.id], UnknownCost))
  {
    match step
    case Ask(id, key) =>
    case Answer(id, response) =>
      UnknownExactly(s.requests[id].call.endpoint, response, s.requests[id].call.rates);
    case Arrive(id, ceiling, endpoint, content) =>
    case CountRequest(id) =>
    case CountOutcome(id) =>
    case Crash(id) =>
  }

  lemma NextKeepsTallies(setting: Setting, s: State, step: Step, c: nat)
    requires Orderly(s, step) && Enabled(setting, s, step) && c in s.counts && Tallies(s.counts[c], s.requests, c)
    ensures c in Next(setting, s, step).counts
            && Tallies(Next(setting, s, step).counts[c], Next(setting, s, step).requests, c)
  {
    var t := Next(setting, s, step);
    StepMovesOne(setting, s, step);
    StepFollows(setting, s, step, c);
    TalliesFollow(s, step.id, t.requests[step.id], c, s.counts[c], t.counts[c]);
  }

  lemma NextKeepsAccounts(setting: Setting, s: State, step: Step)
    requires Sound(s) && Accounted(s) && Enabled(setting, s, step)
    ensures Accounted(Next(setting, s, step)) && Next(setting, s, step).counts.Keys == s.counts.Keys
  {
    assert Orderly(s, step) by {
      if step.Answer? {
        AnswerSettles(setting, s, step.id, step.response);
      }
    }
    var t := Next(setting, s, step);
    StepMovesOne(setting, s, step);
    UnknownFollows(setting, s, step);
    assert AllTally(t) by {
      forall c | c in t.counts
        ensures Tallies(t.counts[c], t.requests, c)
      {
        NextKeepsTallies(setting, s, step, c);
      }
    }
    AccountsFollow(s, t, step.id);
  }

  lemma AccountsFollow(s: State, t: State, id: nat)
    requires Accounted(s) && t.file.Stored? && t.counts.Keys == s.counts.Keys && id in t.requests
    requires t.requests == s.requests[id := t.requests[id]] && t.requests[id].ceiling in s.counts
    requires AllTally(t)
    requires t.file.ledger.unknown + One(Was(s, id, UnknownCost))
          == s.file.ledger.unknown + One(In(t.requests[id], UnknownCost))
    ensures Accounted(t)
  {
    PlacedFollows(s, t, id);
    NumberMoves(s.requests, id, t.requests[id], UnknownCost);
  }

  lemma PlacedFollows(s: State, t: State, id: nat)
    requires Placed(s) && t.counts.Keys == s.counts.Keys && id in t.requests
    requires t.requests == s.requests[id := t.requests[id]] && t.requests[id].ceiling in s.counts
    ensures Placed(t)
  {
    forall i | i in t.requests
      ensures t.requests[i].ceiling in t.counts
    {
      assert t.requests[i].ceiling in s.counts.Keys;
    }
  }

  lemma {:induction false} RunKeepsAccounts(setting: Setting, s: State, steps: seq<Step>)
    requires Sound(s) && Accounted(s) && Allowed(setting, s, steps)
    ensures Accounted(After(setting, s, steps)) && After(setting, s, steps).counts.Keys == s.counts.Keys
    decreases |steps|
  {
    if steps != [] {
      NextKeepsSound(setting, s, steps[0]);
      NextKeepsAccounts(setting, s, steps[0]);
      RunKeepsAccounts(setting, Next(setting, s, steps[0]), steps[1..]);
    }
  }

  lemma InitialAccounted(s: State)
    requires Initial(s)
    ensures Accounted(s)
  {
    NoneOf(s.requests);
  }

  /** Outcome accounting, at every point of every interleaving: a ceiling's admitted requests are those still in flight
      or lost to a crash, those between their settlement and its count, the billed ones, and the four counted
      outcomes. */
  lemma RequestsAccountedFor(setting: Setting, start: State, steps: seq<Step>, c: nat)
    requires Initial(start) && Allowed(setting, start, steps) && c in start.counts
    ensures c in After(setting, start, steps).counts
    ensures var s := After(setting, start, steps);
            var counts := s.counts[c];
            counts.requests
              == Number(s.requests, Open(c)) + Number(s.requests, Uncounted(c)) + Number(s.requests, Over(c, Billed))
               + counts.throttled + counts.rejected + counts.failed + counts.unreported
  {
    InitialSound(start);
    InitialAccounted(start);
    RunKeepsAccounts(setting, start, steps);
    Partition(After(setting, start, steps).requests, c);
  }

  /** With one ceiling on the ledger, its unknown settlements are the failed and unreported requests, and those about to
      be counted as such. */
  lemma UnknownAccountedFor(setting: Setting, start: State, steps: seq<Step>, c: nat)
    requires Initial(start) && Allowed(setting, start, steps) && start.counts.Keys == {c}
    ensures After(setting, start, steps).file.Stored? && c in After(setting, start, steps).counts
    ensures var s := After(setting, start, steps);
            s.file.ledger.unknown == s.counts[c].failed + s.counts[c].unreported + Number(s.requests, UnknownUncounted)
  {
    InitialSound(start);
    InitialAccounted(start);
    RunKeepsAccounts(setting, start, steps);
    var s := After(setting, start, steps);
    assert forall id | id in s.requests :: s.requests[id].ceiling in {c};
    UnknownPartition(s.requests, c);
  }
}
