/** The two sums both oracles take over a ledger's effects: effects nobody asked for, and effects repeated too often. */
module OracleCounts {

  /** `sum(count for key, count in actual.items() if key not in allowed)`. */
  ghost function Forbidden(actual: multiset<string>, allowed: map<string, int>): nat
    decreases |actual|
  {
    if actual == multiset{} then 0
    else
      var key :| key in actual;
      (if key in allowed then 0 else actual[key]) + Forbidden(actual[key := 0], allowed)
  }

  /** `sum(max(0, actual[key] - count) for key, count in allowed.items())`. */
  ghost function Duplicates(actual: multiset<string>, allowed: map<string, int>): nat
    decreases |allowed|
  {
    if allowed == map[] then 0
    else
      var key :| key in allowed;
      SmallerWithout(allowed, key);
      Beyond(actual[key], allowed[key])
      + Duplicates(actual, allowed - {key})
  }

  function Beyond(count: nat, limit: int): nat {
    if count > limit then count - limit else 0
  }

  lemma SmallerWithout(allowed: map<string, int>, key: string)
    requires key in allowed
    ensures |allowed - {key}| < |allowed|
  {
    assert (allowed - {key}).Keys == allowed.Keys - {key};
  }

  predicate NoForbidden(actual: multiset<string>, allowed: map<string, int>) {
    forall key | key in actual :: key in allowed
  }

  predicate NoDuplicate(actual: multiset<string>, allowed: map<string, int>) {
    forall key | key in allowed :: actual[key] <= allowed[key]
  }

  lemma {:induction false} ForbiddenExactly(actual: multiset<string>, allowed: map<string, int>)
    ensures Forbidden(actual, allowed) == 0 <==> NoForbidden(actual, allowed)
    decreases |actual|
  {
    if actual != multiset{} {
      var key :| key in actual && Forbidden(actual, allowed)
                   == (if key in allowed then 0 else actual[key]) + Forbidden(actual[key := 0], allowed);
      ForbiddenExactly(actual[key := 0], allowed);
      assert forall k :: k in actual <==> k == key || k in actual[key := 0];
    }
  }

  lemma {:induction false} DuplicatesExactly(actual: multiset<string>, allowed: map<string, int>)
    ensures Duplicates(actual, allowed) == 0 <==> NoDuplicate(actual, allowed)
    decreases |allowed|
  {
    if allowed != map[] {
      var key :| key in allowed && Duplicates(actual, allowed)
                   == Beyond(actual[key], allowed[key])
                    + Duplicates(actual, allowed - {key});
      SmallerWithout(allowed, key);
      var rest := allowed - {key};
      DuplicatesExactly(actual, rest);
      NoDuplicateWithout(actual, allowed, key);
      assert Duplicates(actual, allowed) == Beyond(actual[key], allowed[key]) + Duplicates(actual, rest);
    }
  }

  lemma NoDuplicateWithout(actual: multiset<string>, allowed: map<string, int>, key: string)
    requires key in allowed
    ensures NoDuplicate(actual, allowed) <==> actual[key] <= allowed[key] && NoDuplicate(actual, allowed - {key})
  {
    var rest := allowed - {key};
    if actual[key] <= allowed[key] && NoDuplicate(actual, rest) {
      forall k | k in allowed
        ensures actual[k] <= allowed[k]
      {
        assert k == key || (k in rest && rest[k] == allowed[k]);
      }
    }
  }
}
