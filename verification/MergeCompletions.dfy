/** `merge_completions` of `eval/precision.py`: completion runs repeat only what the budget censored. */
module MergeCompletions {
  import Texts

  datatype Attempt = Attempt(
    campaign: string, provider: string, model: string, arm: string, repetition: string, scenario: string,
    effort: string, status: string)

  datatype Error =
    | DuplicateKey | OutsideSchedule | NeverRan | NotCensored | RepeatsConclusive | ChangesEffort

  datatype Result<T> = Ok(value: T) | Raised(error: Error)

  datatype Schedule = Unscheduled | Scheduled(keys: set<string>)

  datatype Summary = Summary(attempts: nat, superseded: nat, filled: nat)

  datatype Merge = Merge(merged: seq<Attempt>, superseded: seq<Attempt>, summaries: seq<Summary>)

  const BUDGET_STOPPED := "budget-stopped"

  function Key(a: Attempt): string {
    Texts.Join([a.campaign, a.provider, a.model, a.arm, a.repetition, a.scenario], '|')
  }

  /** The run an attempt belongs to, with its effort. */
  function Run(a: Attempt): (string, string, string, string, string) {
    (a.campaign, a.provider, a.model, a.arm, a.effort)
  }

  predicate Unbarred(a: Attempt) {
    forall part | part in [a.campaign, a.provider, a.model, a.arm, a.repetition, a.scenario] :: '|' !in part
  }

  /** A key identifies its six parts, as long as none holds the bar that joins them; a run identifies its five. */
  lemma KeysIdentify(a: Attempt, b: Attempt)
    requires Unbarred(a) && Unbarred(b)
    ensures Key(a) == Key(b) <==>
              a.campaign == b.campaign && a.provider == b.provider && a.model == b.model && a.arm == b.arm
              && a.repetition == b.repetition && a.scenario == b.scenario
    ensures Run(a) == Run(b) <==>
              a.campaign == b.campaign && a.provider == b.provider && a.model == b.model && a.arm == b.arm
              && a.effort == b.effort
  {
    var parts := [a.campaign, a.provider, a.model, a.arm, a.repetition, a.scenario];
    var others := [b.campaign, b.provider, b.model, b.arm, b.repetition, b.scenario];
    Texts.SplitJoin(parts, '|');
    Texts.SplitJoin(others, '|');
    if Key(a) == Key(b) {
      assert parts == others;
      assert parts[0] == others[0] && parts[1] == others[1] && parts[2] == others[2] && parts[3] == others[3]
             && parts[4] == others[4] && parts[5] == others[5];
    }
  }

  function Keys(records: seq<Attempt>): set<string> {
    set a | a in records :: Key(a)
  }

  function Runs(records: seq<Attempt>): set<(string, string, string, string, string)> {
    set a | a in records :: Run(a)
  }

  predicate Distinct(records: seq<Attempt>) {
    forall i, j | 0 <= i < j < |records| :: Key(records[i]) != Key(records[j])
  }

  predicate Conclusive(a: Attempt) {
    a.status != BUDGET_STOPPED
  }

  // ---- The insertion-ordered dictionary of attempts, by key ----

  predicate Has(records: seq<Attempt>, key: string) {
    exists i | 0 <= i < |records| :: Key(records[i]) == key
  }

  function Index(records: seq<Attempt>, key: string): (i: nat)
    requires Has(records, key)
    ensures i < |records| && Key(records[i]) == key
  {
    if Key(records[0]) == key then 0 else
      assert Has(records[1..], key) by {
        var i :| 0 <= i < |records| && Key(records[i]) == key;
        assert records[1..][i - 1] == records[i];
      }
      1 + Index(records[1..], key)
  }

  function Get(records: seq<Attempt>, key: string): Attempt
    requires Has(records, key)
  {
    records[Index(records, key)]
  }

  /** Assigning a key keeps its place, or adds it at the end. */
  function Put(records: seq<Attempt>, a: Attempt): seq<Attempt> {
    if Has(records, Key(a)) then records[Index(records, Key(a)) := a] else records + [a]
  }

  function PutAll(records: seq<Attempt>, update: seq<Attempt>): seq<Attempt>
    decreases |update|
  {
    if update == [] then records else PutAll(Put(records, update[0]), update[1..])
  }

  /** The records an update replaces, in the update's order. */
  function Replaced(records: seq<Attempt>, update: seq<Attempt>): seq<Attempt> {
    if update == [] then []
    else (if Has(records, Key(update[0])) then [Get(records, Key(update[0]))] else []) + Replaced(records, update[1..])
  }

  /** The scheduled keys a completion must run: still budget-stopped, or never recorded. */
  function Censored(merged: seq<Attempt>, schedule: set<string>): set<string> {
    (set a | a in merged && !Conclusive(a) :: Key(a)) + (schedule - Keys(merged))
  }

  // ---- What a merge is, completion by completion ----

  /** The checks one completion must pass, in the code's order. */
  function Refusal(merged: seq<Attempt>, records: seq<Attempt>, schedule: Schedule,
                   runs: set<(string, string, string, string, string)>): Result<()> {
    if !Distinct(records) then Raised(DuplicateKey)
    else if exists a | a in records :: Run(a) !in runs then Raised(NeverRan)
    else if schedule.Scheduled? && Keys(records) != Censored(merged, schedule.keys) then Raised(NotCensored)
    else if exists a | a in Replaced(merged, records) :: Conclusive(a) then Raised(RepeatsConclusive)
    else if exists a | a in records :: Has(merged, Key(a)) && Get(merged, Key(a)).effort != a.effort then
      Raised(ChangesEffort)
    else Ok(())
  }

  function Complete(state: Merge, records: seq<Attempt>): Merge {
    var replaced := Replaced(state.merged, records);
    Merge(PutAll(state.merged, records), state.superseded + replaced,
          state.summaries
          + [Summary(|records|, |replaced|, if |replaced| <= |records| then |records| - |replaced| else 0)])
  }

  function Completed(state: Merge, completions: seq<seq<Attempt>>, schedule: Schedule,
                     runs: set<(string, string, string, string, string)>): Result<Merge>
    decreases |completions|
  {
    if completions == [] then Ok(state)
    else
      match Refusal(state.merged, completions[0], schedule, runs)
      case Raised(error) => Raised(error)
      case Ok(_) => Completed(Complete(state, completions[0]), completions[1..], schedule, runs)
  }

  function Merged(attempts: seq<Attempt>, completions: seq<seq<Attempt>>, schedule: Schedule): Result<Merge> {
    if !Distinct(attempts) then Raised(DuplicateKey)
    else if schedule.Scheduled? && !(Keys(attempts) <= schedule.keys) then Raised(OutsideSchedule)
    else Completed(Merge(attempts, [], []), completions, schedule, Runs(attempts))
  }

  /** The code's first loop. */
  method Collect(attempts: seq<Attempt>) returns (merged: Result<seq<Attempt>>)
    ensures merged == if Distinct(attempts) then Ok(attempts) else Raised(DuplicateKey)
  {
    var found: seq<Attempt> := [];
    for i := 0 to |attempts|
      invariant found == attempts[..i] && Distinct(found)
    {
      if Has(found, Key(attempts[i])) {
        var j :| 0 <= j < i && Key(found[j]) == Key(attempts[i]);
        assert found[j] == attempts[j];
        return Raised(DuplicateKey);
      }
      found := Put(found, attempts[i]);
    }
    assert found == attempts;
    return Ok(found);
  }

  /** One turn of the second loop. */
  lemma CompletedNext(state: Merge, completions: seq<seq<Attempt>>, i: nat, schedule: Schedule,
                      runs: set<(string, string, string, string, string)>)
    requires i < |completions|
    ensures var refusal := Refusal(state.merged, completions[i], schedule, runs);
            Completed(state, completions[i..], schedule, runs)
              == if refusal.Raised? then Raised(refusal.error)
                 else Completed(Complete(state, completions[i]), completions[i + 1..], schedule, runs)
  {
    assert completions[i..][0] == completions[i] && completions[i..][1..] == completions[i + 1..];
  }

  /** The code's second loop. */
  method MergeCompletions(attempts: seq<Attempt>, completions: seq<seq<Attempt>>, schedule: Schedule)
    returns (result: Result<Merge>)
    ensures result == Merged(attempts, completions, schedule)
  {
    var collected := Collect(attempts);
    if collected.Raised? {
      return Raised(collected.error);
    }
    var merged := collected.value;
    if schedule.Scheduled? && !(Keys(merged) <= schedule.keys) {
      return Raised(OutsideSchedule);
    }
    var runs := Runs(attempts);
    var superseded: seq<Attempt>, summaries: seq<Summary> := [], [];
    for i := 0 to |completions|
      invariant Completed(Merge(merged, superseded, summaries), completions[i..], schedule, runs)
             == Completed(Merge(attempts, [], []), completions, schedule, runs)
    {
      var records := completions[i];
      CompletedNext(Merge(merged, superseded, summaries), completions, i, schedule, runs);
      var refusal := Refusal(merged, records, schedule, runs);
      if refusal.Raised? {
        return Raised(refusal.error);
      }
      merged, superseded, summaries := MergeOne(merged, superseded, summaries, records);
    }
    return Ok(Merge(merged, superseded, summaries));
  }

  /** One accepted completion: what it replaces, the update, and its summary. */
  method MergeOne(merged: seq<Attempt>, superseded: seq<Attempt>, summaries: seq<Summary>, records: seq<Attempt>)
    returns (after: seq<Attempt>, replacedSoFar: seq<Attempt>, counted: seq<Summary>)
    ensures Merge(after, replacedSoFar, counted) == Complete(Merge(merged, superseded, summaries), records)
  {
    var replaced := Replaced(merged, records);
    ReplacedLength(merged, records);
    replacedSoFar := superseded + replaced;
    after := PutAll(merged, records);
    counted := summaries + [Summary(|records|, |replaced|, |records| - |replaced|)];
  }

  // ---- The dictionary's laws ----

  lemma {:induction false} ReplacedLength(records: seq<Attempt>, update: seq<Attempt>)
    ensures |Replaced(records, update)| <= |update|
  {
    if update != [] {
      ReplacedLength(records, update[1..]);
    }
  }

  /** What a put replaces. */
  ghost function Old(records: seq<Attempt>, key: string): multiset<Attempt> {
    if Has(records, key) then multiset{Get(records, key)} else multiset{}
  }

  lemma PutConserves(records: seq<Attempt>, a: Attempt)
    ensures multiset(Put(records, a)) + Old(records, Key(a)) == multiset(records) + multiset{a}
  {
  }

  lemma PutKeepsOthers(records: seq<Attempt>, a: Attempt)
    requires Distinct(records)
    ensures Distinct(Put(records, a))
    ensures forall key | key != Key(a) :: Has(Put(records, a), key) <==> Has(records, key)
    ensures forall key | key != Key(a) && Has(records, key) :: Get(Put(records, a), key) == Get(records, key)
    ensures Has(Put(records, a), Key(a))
  {
    var put := Put(records, a);
    var i := if Has(records, Key(a)) then Index(records, Key(a)) else |records|;
    assert put[i] == a && forall j | 0 <= j < |records| && j != i :: put[j] == records[j];
    forall key | key != Key(a)
      ensures Has(put, key) <==> Has(records, key)
      ensures Has(records, key) ==> Get(put, key) == Get(records, key)
    {
      if Has(records, key) {
        var j := Index(records, key);
        assert put[j] == records[j];
        assert Key(put[Index(put, key)]) == key;
      }
    }
  }

  lemma KeysAre(records: seq<Attempt>, key: string)
    ensures key in Keys(records) <==> Has(records, key)
  {
    if key in Keys(records) {
      var a :| a in records && Key(a) == key;
      var i :| 0 <= i < |records| && records[i] == a;
    }
  }

  lemma {:induction false} ReplacedAfterPut(records: seq<Attempt>, a: Attempt, update: seq<Attempt>)
    requires Distinct(records) && !Has(update, Key(a))
    ensures Replaced(Put(records, a), update) == Replaced(records, update)
  {
    if update != [] {
      assert Key(update[0]) != Key(a);
      PutKeepsOthers(records, a);
      assert !Has(update[1..], Key(a)) by {
        assert forall i | 0 <= i < |update[1..]| :: update[1..][i] == update[i + 1];
      }
      ReplacedAfterPut(records, a, update[1..]);
    }
  }

  lemma DistinctRest(update: seq<Attempt>)
    requires update != [] && Distinct(update)
    ensures Distinct(update[1..]) && !Has(update[1..], Key(update[0]))
    ensures forall key :: Has(update, key) <==> key == Key(update[0]) || Has(update[1..], key)
  {
    var rest := update[1..];
    assert forall i | 0 <= i < |rest| :: rest[i] == update[i + 1];
    forall key
      ensures Has(update, key) <==> key == Key(update[0]) || Has(rest, key)
    {
      if Has(update, key) && key != Key(update[0]) {
        var i := Index(update, key);
        assert rest[i - 1] == update[i];
      }
    }
  }

  lemma {:induction false} PutAllKeys(records: seq<Attempt>, update: seq<Attempt>)
    requires Distinct(records) && Distinct(update)
    ensures Distinct(PutAll(records, update))
    ensures forall key :: Has(PutAll(records, update), key) <==> Has(records, key) || Has(update, key)
    decreases |update|
  {
    if update != [] {
      DistinctRest(update);
      PutKeepsOthers(records, update[0]);
      PutAllKeys(Put(records, update[0]), update[1..]);
    }
  }

  /** An update is conserved: it replaces exactly what it supersedes. */
  lemma {:induction false} PutAllConserves(records: seq<Attempt>, update: seq<Attempt>)
    requires Distinct(records) && Distinct(update)
    ensures multiset(PutAll(records, update)) + multiset(Replaced(records, update))
         == multiset(records) + multiset(update)
    decreases |update|
  {
    if update != [] {
      var a, rest := update[0], update[1..];
      DistinctRest(update);
      PutConserves(records, a);
      PutKeepsOthers(records, a);
      PutAllConserves(Put(records, a), rest);
      ReplacedAfterPut(records, a, rest);
      FirstReplaced(records, update);
      FirstCounted(update);
      Balance(multiset(PutAll(records, update)), multiset(Replaced(records, rest)), multiset(Put(records, a)),
              multiset(rest), Old(records, Key(a)), multiset(records), multiset{a});
    }
  }

  lemma Balance(q: multiset<Attempt>, s: multiset<Attempt>, p: multiset<Attempt>, m: multiset<Attempt>,
                o: multiset<Attempt>, r: multiset<Attempt>, a: multiset<Attempt>)
    requires q + s == p + m && p + o == r + a
    ensures q + (o + s) == r + (a + m)
  {
    assert q + (o + s) == (q + s) + o == (p + o) + m;
  }

  lemma FirstCounted(update: seq<Attempt>)
    requires update != []
    ensures multiset(update) == multiset{update[0]} + multiset(update[1..])
  {
    assert update == [update[0]] + update[1..];
  }

  lemma FirstReplaced(records: seq<Attempt>, update: seq<Attempt>)
    requires update != []
    ensures multiset(Replaced(records, update)) == Old(records, Key(update[0])) + multiset(Replaced(records, update[1..]))
  {
    var first := if Has(records, Key(update[0])) then [Get(records, Key(update[0]))] else [];
    assert Replaced(records, update) == first + Replaced(records, update[1..]);
  }

  // ---- What every merge keeps ----

  function Flatten(completions: seq<seq<Attempt>>): seq<Attempt> {
    if completions == [] then [] else completions[0] + Flatten(completions[1..])
  }

  ghost predicate AllStopped(records: seq<Attempt>) {
    forall a | a in records :: !Conclusive(a)
  }

  ghost predicate RunsWithin(records: seq<Attempt>, runs: set<(string, string, string, string, string)>) {
    forall a | a in records :: Run(a) in runs
  }

  /** Within a schedule, and filling it once a completion has run. */
  ghost predicate Follows(merged: seq<Attempt>, schedule: Schedule, started: bool) {
    schedule.Scheduled? ==>
      Keys(merged) <= schedule.keys && (started ==> Keys(merged) == schedule.keys)
  }

  ghost predicate Good(merged: seq<Attempt>, schedule: Schedule, started: bool,
                       runs: set<(string, string, string, string, string)>) {
    Distinct(merged) && RunsWithin(merged, runs) && Follows(merged, schedule, started)
  }

  lemma RunsStayWithin(merged: seq<Attempt>, records: seq<Attempt>,
                       runs: set<(string, string, string, string, string)>)
    requires Distinct(merged) && Distinct(records) && RunsWithin(merged, runs) && RunsWithin(records, runs)
    ensures RunsWithin(PutAll(merged, records), runs)
  {
    PutAllConserves(merged, records);
    var put := PutAll(merged, records);
    forall a | a in put
      ensures Run(a) in runs
    {
      assert a in multiset(put) + multiset(Replaced(merged, records));
      assert a in multiset(merged) + multiset(records);
    }
  }

  lemma ScheduleFilled(merged: seq<Attempt>, records: seq<Attempt>, keys: set<string>)
    requires Distinct(merged) && Distinct(records)
    requires Keys(merged) <= keys && Keys(records) == Censored(merged, keys)
    ensures Keys(PutAll(merged, records)) == keys
  {
    PutAllKeys(merged, records);
    forall key
      ensures key in Keys(PutAll(merged, records)) <==> key in keys
    {
      KeysAre(PutAll(merged, records), key);
      KeysAre(merged, key);
      KeysAre(records, key);
    }
  }

  lemma CompletionKeeps(state: Merge, records: seq<Attempt>, schedule: Schedule,
                        runs: set<(string, string, string, string, string)>)
    requires Good(state.merged, schedule, false, runs)
    requires Refusal(state.merged, records, schedule, runs).Ok?
    ensures Good(Complete(state, records).merged, schedule, true, runs)
    ensures AllStopped(state.superseded) ==> AllStopped(Complete(state, records).superseded)
  {
    PutAllKeys(state.merged, records);
    RunsStayWithin(state.merged, records, runs);
    if schedule.Scheduled? {
      ScheduleFilled(state.merged, records, schedule.keys);
    }
  }

  lemma CompletionConserves(state: Merge, records: seq<Attempt>)
    requires Distinct(state.merged) && Distinct(records)
    ensures var next := Complete(state, records);
            multiset(next.merged) + multiset(next.superseded)
              == multiset(state.merged) + multiset(state.superseded) + multiset(records)
  {
    PutAllConserves(state.merged, records);
    Balance(multiset(PutAll(state.merged, records)), multiset(Replaced(state.merged, records)),
            multiset(state.merged), multiset(records), multiset(state.superseded), multiset(state.merged),
            multiset(state.superseded));
  }

  lemma {:induction false} CompletedKeeps(state: Merge, completions: seq<seq<Attempt>>, schedule: Schedule,
                                          runs: set<(string, string, string, string, string)>)
    requires Good(state.merged, schedule, false, runs) && AllStopped(state.superseded)
    requires Completed(state, completions, schedule, runs).Ok?
    ensures var final := Completed(state, completions, schedule, runs).value;
            Good(final.merged, schedule, completions != [], runs)
            && AllStopped(final.superseded)
            && multiset(final.merged) + multiset(final.superseded)
                 == multiset(state.merged) + multiset(state.superseded) + multiset(Flatten(completions))
    decreases |completions|
  {
    if completions != [] {
      CompletionKeeps(state, completions[0], schedule, runs);
      CompletionConserves(state, completions[0]);
      CompletedKeeps(Complete(state, completions[0]), completions[1..], schedule, runs);
      if completions[1..] == [] {
        assert Completed(state, completions, schedule, runs).value == Complete(state, completions[0]);
      }
    }
  }

  /** The main result. Every record goes to exactly one of the two lists; only budget-stopped records are superseded;
      keys stay unique; nobody joins the campaign with another run or effort; and a schedule is filled exactly. */
  lemma Conserves(attempts: seq<Attempt>, completions: seq<seq<Attempt>>, schedule: Schedule)
    requires Merged(attempts, completions, schedule).Ok?
    ensures var merge := Merged(attempts, completions, schedule).value;
            multiset(merge.merged) + multiset(merge.superseded)
              == multiset(attempts) + multiset(Flatten(completions))
            && (forall a | a in merge.superseded :: a.status == BUDGET_STOPPED)
            && Distinct(merge.merged)
            && RunsWithin(merge.merged, Runs(attempts))
            && (schedule.Scheduled? && completions != [] ==> Keys(merge.merged) == schedule.keys)
  {
    CompletedKeeps(Merge(attempts, [], []), completions, schedule, Runs(attempts));
  }

  /** No conclusive record, a failure included, is ever replaced: each one, of the campaign or of a completion, is in
      the merge, and is its key's only record there. */
  lemma ConclusiveKept(attempts: seq<Attempt>, completions: seq<seq<Attempt>>, schedule: Schedule, a: Attempt)
    requires Merged(attempts, completions, schedule).Ok?
    requires a.status != BUDGET_STOPPED && (a in attempts || a in Flatten(completions))
    ensures var merged := Merged(attempts, completions, schedule).value.merged;
            a in merged && multiset(merged)[a] == 1
            && forall b | b in merged && Key(b) == Key(a) :: b == a
  {
    Conserves(attempts, completions, schedule);
    var merge := Merged(attempts, completions, schedule).value;
    Stays(multiset(merge.merged), multiset(merge.superseded), multiset(attempts), multiset(Flatten(completions)), a);
    var i :| 0 <= i < |merge.merged| && merge.merged[i] == a;
    OccursOnce(merge.merged, i);
  }

  lemma Stays(merged: multiset<Attempt>, superseded: multiset<Attempt>, attempts: multiset<Attempt>,
              completed: multiset<Attempt>, a: Attempt)
    requires merged + superseded == attempts + completed
    requires (a in attempts || a in completed) && a !in superseded
    ensures a in merged
  {
    assert a in attempts + completed;
  }

  lemma OccursOnce(records: seq<Attempt>, i: nat)
    requires i < |records| && Distinct(records)
    ensures multiset(records)[records[i]] == 1
    ensures forall b | b in records && Key(b) == Key(records[i]) :: b == records[i]
  {
    var a := records[i];
    assert forall j | 0 <= j < |records| && j != i :: Key(records[j]) != Key(a);
    assert records == records[..i] + [a] + records[i + 1..];
    assert a !in records[..i] && a !in records[i + 1..];
  }

  lemma CompletionKeepsEffort(merged: seq<Attempt>, records: seq<Attempt>, schedule: Schedule,
                              runs: set<(string, string, string, string, string)>, key: string)
    requires Distinct(merged) && Refusal(merged, records, schedule, runs).Ok? && Has(merged, key)
    ensures Has(PutAll(merged, records), key) && Get(PutAll(merged, records), key).effort == Get(merged, key).effort
  {
    PutAllKeepsEffort(merged, records, key);
  }

  /** A completion changes no effort: every record of one key has that key's effort. */
  lemma {:induction false} EffortKept(state: Merge, completions: seq<seq<Attempt>>, schedule: Schedule,
                                      runs: set<(string, string, string, string, string)>, key: string)
    requires Good(state.merged, schedule, false, runs)
    requires Completed(state, completions, schedule, runs).Ok? && Has(state.merged, key)
    ensures var final := Completed(state, completions, schedule, runs).value;
            Has(final.merged, key) && Get(final.merged, key).effort == Get(state.merged, key).effort
    decreases |completions|
  {
    if completions != [] {
      var next := Complete(state, completions[0]);
      CompletionKeeps(state, completions[0], schedule, runs);
      CompletionKeepsEffort(state.merged, completions[0], schedule, runs, key);
      assert next.merged == PutAll(state.merged, completions[0]);
      EffortKept(next, completions[1..], schedule, runs, key);
    }
  }

  /** A merge keeps every campaign attempt's key, with that attempt's effort. */
  lemma CampaignEffortKept(attempts: seq<Attempt>, completions: seq<seq<Attempt>>, schedule: Schedule, a: Attempt)
    requires Merged(attempts, completions, schedule).Ok? && a in attempts
    ensures var merged := Merged(attempts, completions, schedule).value.merged;
            Has(merged, Key(a)) && Get(merged, Key(a)).effort == a.effort
  {
    var i :| 0 <= i < |attempts| && attempts[i] == a;
    assert Key(attempts[Index(attempts, Key(a))]) == Key(attempts[i]);
    EffortKept(Merge(attempts, [], []), completions, schedule, Runs(attempts), Key(a));
  }

  lemma {:induction false} PutAllKeepsEffort(records: seq<Attempt>, update: seq<Attempt>, key: string)
    requires Distinct(records) && Distinct(update) && Has(records, key)
    requires forall a | a in update && Has(records, Key(a)) :: Get(records, Key(a)).effort == a.effort
    ensures Has(PutAll(records, update), key) && Get(PutAll(records, update), key).effort == Get(records, key).effort
    decreases |update|
  {
    if update != [] {
      var a, rest := update[0], update[1..];
      var put := Put(records, a);
      PutKeepsOthers(records, a);
      assert Distinct(rest) by {
        assert forall i | 0 <= i < |rest| :: rest[i] == update[i + 1];
      }
      PutGets(records, a);
      forall b | b in rest && Has(put, Key(b))
        ensures Get(put, Key(b)).effort == b.effort
      {
        var i :| 0 <= i < |rest| && rest[i] == b;
        assert update[i + 1] == b && Key(b) != Key(a);
      }
      PutAllKeepsEffort(put, rest, key);
    }
  }

  lemma PutGets(records: seq<Attempt>, a: Attempt)
    requires Distinct(records)
    ensures Has(Put(records, a), Key(a)) && Get(Put(records, a), Key(a)) == a
  {
    PutKeepsOthers(records, a);
    var put := Put(records, a);
    var i := if Has(records, Key(a)) then Index(records, Key(a)) else |records|;
    assert put[i] == a && Key(put[Index(put, Key(a))]) == Key(a);
  }

  /** Scheduled but never recorded, or recorded and stopped by the budget. */
  predicate IsCensored(merged: seq<Attempt>, schedule: set<string>, key: string) {
    (key in schedule && !Has(merged, key)) || exists b | b in merged :: Key(b) == key && b.status == BUDGET_STOPPED
  }

  /** A completion of a scheduled campaign runs exactly the censored keys. */
  ghost predicate FillsSchedule(merged: seq<Attempt>, records: seq<Attempt>, schedule: Schedule) {
    schedule.Scheduled? ==> forall key :: Has(records, key) <==> IsCensored(merged, schedule.keys, key)
  }

  /** Whatever a completion repeats was stopped by the budget and keeps its effort. */
  ghost predicate NoneClashes(merged: seq<Attempt>, records: seq<Attempt>) {
    forall a, b | a in records && b in merged && Key(a) == Key(b) :: b.status == BUDGET_STOPPED && b.effort == a.effort
  }

  lemma CensoredExactly(merged: seq<Attempt>, records: seq<Attempt>, schedule: set<string>)
    ensures Keys(records) == Censored(merged, schedule)
            <==> forall key :: Has(records, key) <==> IsCensored(merged, schedule, key)
  {
    forall key
      ensures (Has(records, key) <==> key in Keys(records)) && (Has(merged, key) <==> key in Keys(merged))
      ensures IsCensored(merged, schedule, key) <==> key in Censored(merged, schedule)
    {
      KeysAre(records, key);
      KeysAre(merged, key);
    }
    if forall key :: Has(records, key) <==> IsCensored(merged, schedule, key) {
      assert forall key :: key in Keys(records) <==> key in Censored(merged, schedule);
    } else {
      var key :| !(Has(records, key) <==> IsCensored(merged, schedule, key));
      assert !(key in Keys(records) <==> key in Censored(merged, schedule));
    }
  }

  /** A completion is refused exactly when it breaks one of its rules, stated on the keys and records themselves. */
  lemma RefusedExactly(merged: seq<Attempt>, records: seq<Attempt>, schedule: Schedule,
                       runs: set<(string, string, string, string, string)>)
    requires Distinct(merged)
    ensures Refusal(merged, records, schedule, runs).Ok? <==>
            && Distinct(records)
            && RunsWithin(records, runs)
            && FillsSchedule(merged, records, schedule)
            && NoneClashes(merged, records)
  {
    if schedule.Scheduled? {
      CensoredExactly(merged, records, schedule.keys);
    }
    ClashesExactly(merged, records);
    assert RunsWithin(records, runs) <==> !exists a | a in records :: Run(a) !in runs;
  }

  lemma ClashesExactly(merged: seq<Attempt>, records: seq<Attempt>)
    requires Distinct(merged)
    ensures NoneClashes(merged, records)
            <==> !(exists b | b in Replaced(merged, records) :: Conclusive(b))
                 && !(exists a | a in records :: Has(merged, Key(a)) && Get(merged, Key(a)).effort != a.effort)
  {
    ConclusiveReplaced(merged, records);
    EffortsReplaced(merged, records);
  }

  /** And it raises for the first rule it breaks: a repeated key, a run the campaign never had, keys other than the
      censored ones, a conclusive record, and only then another effort. */
  lemma RefusedInOrder(merged: seq<Attempt>, records: seq<Attempt>, schedule: Schedule,
                       runs: set<(string, string, string, string, string)>)
    requires Distinct(merged)
    ensures var refusal := Refusal(merged, records, schedule, runs);
            var censored := FillsSchedule(merged, records, schedule);
            && (refusal == Raised(DuplicateKey) <==> !Distinct(records))
            && (refusal == Raised(NeverRan) <==> Distinct(records) && !RunsWithin(records, runs))
            && (refusal == Raised(NotCensored) <==> Distinct(records) && RunsWithin(records, runs) && !censored)
            && (refusal == Raised(RepeatsConclusive) <==>
                  Distinct(records) && RunsWithin(records, runs) && censored
                  && exists a, b | a in records && b in merged :: Key(a) == Key(b) && b.status != BUDGET_STOPPED)
            && refusal != Raised(OutsideSchedule)
  {
    if schedule.Scheduled? {
      CensoredExactly(merged, records, schedule.keys);
    }
    ConclusiveReplaced(merged, records);
  }

  lemma ConclusiveReplaced(merged: seq<Attempt>, records: seq<Attempt>)
    requires Distinct(merged)
    ensures (exists b | b in Replaced(merged, records) :: Conclusive(b)) <==>
              exists a, b | a in records && b in merged :: Key(a) == Key(b) && b.status != BUDGET_STOPPED
  {
    if b :| b in Replaced(merged, records) && Conclusive(b) {
      ReplacedFrom(merged, records, b);
    }
    if a, b :| a in records && b in merged && Key(a) == Key(b) && b.status != BUDGET_STOPPED {
      var i :| 0 <= i < |merged| && merged[i] == b;
      assert Key(merged[Index(merged, Key(a))]) == Key(merged[i]);
      ReplacedHas(merged, records, a);
    }
  }

  lemma EffortsReplaced(merged: seq<Attempt>, records: seq<Attempt>)
    requires Distinct(merged)
    ensures (exists a | a in records :: Has(merged, Key(a)) && Get(merged, Key(a)).effort != a.effort) <==>
              exists a, b | a in records && b in merged :: Key(a) == Key(b) && b.effort != a.effort
  {
    if a :| a in records && Has(merged, Key(a)) && Get(merged, Key(a)).effort != a.effort {
      assert Get(merged, Key(a)) in merged;
    }
    if a, b :| a in records && b in merged && Key(a) == Key(b) && b.effort != a.effort {
      var i :| 0 <= i < |merged| && merged[i] == b;
      assert Key(merged[Index(merged, Key(a))]) == Key(merged[i]);
    }
  }

  lemma {:induction false} ReplacedHas(records: seq<Attempt>, update: seq<Attempt>, a: Attempt)
    requires a in update && Has(records, Key(a))
    ensures Get(records, Key(a)) in Replaced(records, update)
  {
    if a != update[0] {
      ReplacedHas(records, update[1..], a);
    }
  }

  lemma {:induction false} ReplacedFrom(records: seq<Attempt>, update: seq<Attempt>, b: Attempt)
    requires b in Replaced(records, update)
    ensures exists a :: a in update && b in records && Key(a) == Key(b)
  {
    if Has(records, Key(update[0])) && b == Get(records, Key(update[0])) {
      assert update[0] in update;
    } else {
      ReplacedFrom(records, update[1..], b);
    }
  }
  // ---- The merge grows by one completion at a time ----

  lemma {:induction false} CompletedSnoc(state: Merge, completions: seq<seq<Attempt>>, last: seq<Attempt>,
                                         schedule: Schedule, runs: set<(string, string, string, string, string)>)
    ensures Completed(state, completions + [last], schedule, runs)
         == var before := Completed(state, completions, schedule, runs);
            if before.Raised? then before
            else
              var refusal := Refusal(before.value.merged, last, schedule, runs);
              if refusal.Raised? then Raised(refusal.error) else Ok(Complete(before.value, last))
    decreases |completions|
  {
    if completions == [] {
      assert completions + [last] == [last] && [last][1..] == [];
    } else {
      assert (completions + [last])[0] == completions[0] && (completions + [last])[1..] == completions[1..] + [last];
      CompletedSnoc(Complete(state, completions[0]), completions[1..], last, schedule, runs);
    }
  }

  /** What is accepted, and the first error otherwise: the campaign itself when its keys are unique and scheduled, and
      then each completion the merge before it does not refuse. */
  lemma MergedExactly(attempts: seq<Attempt>, completions: seq<seq<Attempt>>, last: seq<Attempt>, schedule: Schedule)
    ensures !Distinct(attempts) <==> Merged(attempts, [], schedule) == Raised(DuplicateKey)
    ensures Distinct(attempts) && schedule.Scheduled? && (exists a | a in attempts :: Key(a) !in schedule.keys)
            <==> Merged(attempts, [], schedule) == Raised(OutsideSchedule)
    ensures Merged(attempts, [], schedule).Ok? ==> Merged(attempts, [], schedule).value == Merge(attempts, [], [])
    ensures var before := Merged(attempts, completions, schedule);
            var refusal := Refusal(if before.Ok? then before.value.merged else [], last, schedule, Runs(attempts));
            Merged(attempts, completions + [last], schedule)
              == if before.Raised? then before
                 else if refusal.Raised? then Raised(refusal.error)
                 else Ok(Complete(before.value, last))
  {
    CompletedSnoc(Merge(attempts, [], []), completions, last, schedule, Runs(attempts));
    if schedule.Scheduled? {
      assert (exists a | a in attempts :: Key(a) !in schedule.keys) <==> !(Keys(attempts) <= schedule.keys);
    }
  }

  function TotalSuperseded(summaries: seq<Summary>): nat {
    if summaries == [] then 0
    else TotalSuperseded(summaries[..|summaries| - 1]) + summaries[|summaries| - 1].superseded
  }

  function TotalFilled(summaries: seq<Summary>): nat {
    if summaries == [] then 0 else TotalFilled(summaries[..|summaries| - 1]) + summaries[|summaries| - 1].filled
  }

  /** The counts of a merge agree with its lists. */
  ghost predicate Counted(merge: Merge, start: nat) {
    && |merge.superseded| == TotalSuperseded(merge.summaries)
    && |merge.merged| == start + TotalFilled(merge.summaries)
    && forall i | 0 <= i < |merge.summaries| ::
         merge.summaries[i].attempts == merge.summaries[i].superseded + merge.summaries[i].filled
  }

  lemma SizesBalance(a: seq<Attempt>, b: seq<Attempt>, c: seq<Attempt>, d: seq<Attempt>)
    requires multiset(a) + multiset(b) == multiset(c) + multiset(d)
    ensures |a| + |b| == |c| + |d|
  {
    assert |multiset(a) + multiset(b)| == |a| + |b|;
    assert |multiset(c) + multiset(d)| == |c| + |d|;
  }

  lemma CompletionCounted(state: Merge, records: seq<Attempt>, start: nat)
    requires Distinct(state.merged) && Distinct(records) && Counted(state, start)
    ensures Counted(Complete(state, records), start)
    ensures Complete(state, records).summaries[|state.summaries|].attempts == |records|
  {
    var next, replaced := Complete(state, records), Replaced(state.merged, records);
    ReplacedLength(state.merged, records);
    PutAllConserves(state.merged, records);
    SizesBalance(next.merged, replaced, state.merged, records);
    assert next.summaries[..|next.summaries| - 1] == state.summaries;
  }

  /** One summary more for each completion, of its length. */
  ghost predicate SummariesFollow(before: seq<Summary>, after: seq<Summary>, completions: seq<seq<Attempt>>) {
    && |after| == |before| + |completions| && after[..|before|] == before
    && forall i | 0 <= i < |completions| :: after[|before| + i].attempts == |completions[i]|
  }

  lemma SummariesChain(before: seq<Summary>, next: seq<Summary>, after: seq<Summary>, completions: seq<seq<Attempt>>)
    requires completions != [] && |next| == |before| + 1 && next[..|before|] == before
    requires next[|before|].attempts == |completions[0]| && SummariesFollow(next, after, completions[1..])
    ensures SummariesFollow(before, after, completions)
  {
    assert after[..|before|] == after[..|next|][..|before|] && after[|before|] == after[..|next|][|before|];
    forall i | 0 <= i < |completions|
      ensures after[|before| + i].attempts == |completions[i]|
    {
      if i > 0 {
        assert completions[1..][i - 1] == completions[i] && after[|next| + (i - 1)] == after[|before| + i];
      }
    }
  }

  lemma {:induction false} CompletedCounted(state: Merge, completions: seq<seq<Attempt>>, schedule: Schedule,
                                            runs: set<(string, string, string, string, string)>, start: nat)
    requires Good(state.merged, schedule, false, runs) && Counted(state, start)
    requires Completed(state, completions, schedule, runs).Ok?
    ensures var final := Completed(state, completions, schedule, runs).value;
            Counted(final, start) && SummariesFollow(state.summaries, final.summaries, completions)
    decreases |completions|
  {
    if completions != [] {
      var next := Complete(state, completions[0]);
      CompletionKeeps(state, completions[0], schedule, runs);
      CompletionCounted(state, completions[0], start);
      CompletedCounted(next, completions[1..], schedule, runs, start);
      SummariesChain(state.summaries, next.summaries, Completed(state, completions, schedule, runs).value.summaries,
                     completions);
    }
  }

  /** The summaries add up: one for each completion, of as many attempts as it ran, each of which either superseded a
      record or filled a gap; together they are the records superseded and those the campaign gained. */
  lemma SummariesAddUp(attempts: seq<Attempt>, completions: seq<seq<Attempt>>, schedule: Schedule)
    requires Merged(attempts, completions, schedule).Ok?
    ensures var merge := Merged(attempts, completions, schedule).value;
            && |merge.summaries| == |completions|
            && (forall i | 0 <= i < |completions| ::
                  merge.summaries[i].attempts == |completions[i]|
                  == merge.summaries[i].superseded + merge.summaries[i].filled)
            && |merge.superseded| == TotalSuperseded(merge.summaries)
            && |merge.merged| == |attempts| + TotalFilled(merge.summaries)
  {
    CompletedCounted(Merge(attempts, [], []), completions, schedule, Runs(attempts), |attempts|);
    var merge := Merged(attempts, completions, schedule).value;
    FollowNothing(merge.summaries, completions);
  }

  lemma FollowNothing(summaries: seq<Summary>, completions: seq<seq<Attempt>>)
    requires SummariesFollow([], summaries, completions)
    ensures |summaries| == |completions|
    ensures forall i | 0 <= i < |completions| :: summaries[i].attempts == |completions[i]|
  {
    forall i | 0 <= i < |completions|
      ensures summaries[i].attempts == |completions[i]|
    {
      assert summaries[0 + i].attempts == |completions[i]|;
    }
  }
}
