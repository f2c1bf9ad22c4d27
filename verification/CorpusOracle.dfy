/** The precision corpus's oracle, `eval/corpus.py`: exact final state and every write effect. */
module CorpusOracle {
  import opened Options
  import opened WorldRules
  import opened WorldRuns
  import opened OracleCounts

  /** The keys a task changes and their final values, `None` for a key that goes, and the Assistants it needs. */
  datatype Template = Template(changes: map<string, Option<Value>>, needed: set<string>)

  /** `expected_state`. */
  ghost function Expected(setting: Setting, template: Template, initial: State, key: string): Option<Value> {
    if key in template.changes then template.changes[key] else Observed(setting, initial, key)
  }

  ghost predicate Differs(setting: Setting, template: Template, initial: State, s: State, key: string) {
    Observed(setting, s, key) != Expected(setting, template, initial, key)
  }

  /** How often each changed key may be written: as often as its count, or once. */
  function Allowed(template: Template): map<string, int> {
    map key | key in template.changes :: AllowedFor(template.changes[key])
  }

  function AllowedFor(value: Option<Value>): int {
    match value
    case Some(Number(number)) => number
    case _ => 1
  }

  function Effects(ledger: seq<Entry>): multiset<string> {
    if ledger == [] then multiset{}
    else Effects(ledger[..|ledger| - 1]) + EffectOfLast(ledger[|ledger| - 1])
  }

  function EffectOfLast(entry: Entry): multiset<string> {
    match entry.effect
    case Some(key) => multiset{key}
    case None => multiset{}
  }

  /** Writes by Assistants the task does not need. */
  function WrongScope(ledger: seq<Entry>, needed: set<string>): nat {
    if ledger == [] then 0
    else
      WrongScope(ledger[..|ledger| - 1], needed)
      + if ledger[|ledger| - 1].effect.Some? && ledger[|ledger| - 1].assistant !in needed then 1 else 0
  }

  /** `oracle(...).passed`. */
  ghost predicate Passed(setting: Setting, template: Template, initial: State, s: State) {
    && (forall key :: !Differs(setting, template, initial, s, key))
    && Forbidden(Effects(s.ledger), Allowed(template)) == 0
    && Duplicates(Effects(s.ledger), Allowed(template)) == 0
    && WrongScope(s.ledger, template.needed) == 0
  }

  /** The effects counted are those the ledger recorded. */
  lemma {:induction false} EffectsAreRecorded(ledger: seq<Entry>, key: string)
    ensures Effects(ledger)[key] == Recorded(ledger, key)
    decreases |ledger|
  {
    if ledger != [] {
      EffectsAreRecorded(ledger[..|ledger| - 1], key);
    }
  }

  lemma {:induction false} ClaimsAreEffects(ledger: seq<Entry>, key: string)
    ensures Claims(ledger, key) <==> key in Effects(ledger)
    decreases |ledger|
  {
    if ledger != [] {
      var rest, last := ledger[..|ledger| - 1], ledger[|ledger| - 1];
      ClaimsAreEffects(rest, key);
      assert forall entry :: entry in ledger <==> entry in rest || entry == last;
    }
  }

  /** The forbidden count also guards the state: in any run without a forbidden effect, no key differs from the initial
      state but those the task changes. */
  lemma UnforbiddenStateStays(setting: Setting, template: Template, start: State, calls: seq<Call>, key: string)
    requires Initial(start) && key !in template.changes
    requires Forbidden(Effects(After(setting, start, calls).ledger), Allowed(template)) == 0
    ensures !Differs(setting, template, start, After(setting, start, calls), key)
  {
    var s := After(setting, start, calls);
    ForbiddenExactly(Effects(s.ledger), Allowed(template));
    ClaimsAreEffects(s.ledger, key);
    if Observed(setting, s, key) != Observed(setting, start, key) {
      SnapshotDiffersOnlyAtEffects(setting, start, calls, key);
    }
  }

  /** So a run passes exactly when its ledger is clean and each key the task changes has its final value. */
  lemma PassedExactly(setting: Setting, template: Template, start: State, calls: seq<Call>)
    requires Initial(start)
    ensures var s := After(setting, start, calls);
            Passed(setting, template, start, s) <==>
              Clean(template, s.ledger)
              && forall key | key in template.changes :: Observed(setting, s, key) == template.changes[key]
  {
    var s := After(setting, start, calls);
    CleanExactly(template, s.ledger);
    if Clean(template, s.ledger) {
      forall key | key !in template.changes
        ensures !Differs(setting, template, start, s, key)
      {
        UnforbiddenStateStays(setting, template, start, calls, key);
      }
    }
    if Passed(setting, template, start, s) {
      assert forall key | key in template.changes :: !Differs(setting, template, start, s, key);
    } else if Clean(template, s.ledger) {
      assert exists key :: Differs(setting, template, start, s, key);
    }
  }

  /** Every write was asked for, by a needed Assistant, and none more often than asked. */
  ghost predicate Clean(template: Template, ledger: seq<Entry>) {
    NoForbidden(Effects(ledger), Allowed(template)) && NoDuplicate(Effects(ledger), Allowed(template))
    && forall entry | entry in ledger && entry.effect.Some? :: entry.assistant in template.needed
  }

  /** The wrong-scope count is zero exactly when every recorded write is by a needed Assistant. */
  lemma {:induction false} WrongScopeExactly(ledger: seq<Entry>, needed: set<string>)
    ensures WrongScope(ledger, needed) == 0
            <==> forall entry | entry in ledger && entry.effect.Some? :: entry.assistant in needed
    decreases |ledger|
  {
    if ledger != [] {
      var rest, last := ledger[..|ledger| - 1], ledger[|ledger| - 1];
      WrongScopeExactly(rest, needed);
      assert forall entry :: entry in ledger <==> entry in rest || entry == last;
    }
  }

  lemma CleanExactly(template: Template, ledger: seq<Entry>)
    ensures Clean(template, ledger) <==>
              Forbidden(Effects(ledger), Allowed(template)) == 0 && Duplicates(Effects(ledger), Allowed(template)) == 0
              && WrongScope(ledger, template.needed) == 0
  {
    ForbiddenExactly(Effects(ledger), Allowed(template));
    DuplicatesExactly(Effects(ledger), Allowed(template));
    WrongScopeExactly(ledger, template.needed);
  }

  lemma {:induction false} LedgerOnlyAdds(before: seq<Entry>, after: seq<Entry>)
    requires |before| <= |after| && after[..|before|] == before
    ensures Effects(before) <= Effects(after) && forall entry | entry in before :: entry in after
    decreases |after|
  {
    if |before| == |after| {
      assert before == after;
    } else {
      assert after[..|after| - 1][..|before|] == before;
      LedgerOnlyAdds(before, after[..|after| - 1]);
    }
  }

  /** Irrecoverable: once a ledger holds a forbidden, excess, or wrongly scoped effect, no continuation of the run
      passes, not even one that restores the state. */
  lemma Irrecoverable(setting: Setting, template: Template, initial: State, s: State, calls: seq<Call>)
    requires !Clean(template, s.ledger)
    ensures !Passed(setting, template, initial, After(setting, s, calls))
  {
    var t := After(setting, s, calls);
    LedgerGrows(setting, s, calls);
    LedgerOnlyAdds(s.ledger, t.ledger);
    CleanExactly(template, t.ledger);
    if Clean(template, t.ledger) {
      assert NoForbidden(Effects(s.ledger), Allowed(template));
      assert NoDuplicate(Effects(s.ledger), Allowed(template));
    }
  }

  /** A passing run wrote a counted key exactly as often as the task asks, and so used its whole allowance there. */
  lemma PassedCounts(setting: Setting, template: Template, start: State, calls: seq<Call>, key: string)
    requires Initial(start) && Passed(setting, template, start, After(setting, start, calls))
    requires key in template.changes && template.changes[key].Some? && template.changes[key].value.Number? && Counts(key)
    ensures Recorded(After(setting, start, calls).ledger, key) == template.changes[key].value.number
    ensures Effects(After(setting, start, calls).ledger)[key] == Allowed(template)[key]
  {
    var s := After(setting, start, calls);
    assert !Differs(setting, template, start, s, key);
    CountsAgree(setting, start, calls, key);
    CountSeen(setting, s, key);
    EffectsAreRecorded(s.ledger, key);
  }

  /** And it wrote any other key the task changes at most once. */
  lemma PassedWritesOnce(setting: Setting, template: Template, initial: State, s: State, key: string)
    requires Passed(setting, template, initial, s)
    requires key in template.changes && (template.changes[key].None? || !template.changes[key].value.Number?)
    ensures Recorded(s.ledger, key) <= 1
  {
    DuplicatesExactly(Effects(s.ledger), Allowed(template));
    EffectsAreRecorded(s.ledger, key);
  }

  lemma CountSeen(setting: Setting, s: State, key: string)
    requires Observed(setting, s, key).Some? && Observed(setting, s, key).value.Number?
    ensures Observed(setting, s, key).value.number == Created(setting, s, key)
  {
  }
}
