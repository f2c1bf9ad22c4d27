/** The working set of `eval/classes.py`: what one turn's Action results showed, in order of last sighting, and the
    rendering that drops the oldest of it until it fits. */
module WorkingSet {
  import opened Options
  import opened JsonValues
  import Texts

  const RECORD_LIMIT := 30
  const WINDOW := 10

  /** One record of a result: its id, and its short fields. */
  datatype Item = Item(id: string, fields: Json)

  datatype Sighting = Sighting(assistant: string, action: string, item: Item)

  datatype Write = Write(assistant: string, action: string, input: Json)

  /** The parts left abstract: the records of a result, a result's normalized text, the references of a message, whether
      a text mentions one, the scalar inputs of a write, and whether three lists render within the size cap. */
  datatype Python = Python(
    items: Json -> seq<Item>, normalized: Json -> string, references: string -> seq<string>,
    mentions: (string, string) -> bool, scalars: Json -> Json, fits: Parts -> bool)

  datatype Parts = Parts(records: seq<Sighting>, writes: seq<Write>, unresolved: seq<string>)

  // ---- Sightings ----

  function Key(s: Sighting): string {
    s.assistant + ":" + s.item.id
  }

  /** A key tells Assistants and ids apart, as long as no Assistant's name holds the colon that joins them. */
  lemma KeysDiffer(s: Sighting, t: Sighting)
    requires ':' !in s.assistant && ':' !in t.assistant && Key(s) == Key(t)
    ensures s.assistant == t.assistant && s.item.id == t.item.id
  {
    assert Key(s) == s.assistant + [':'] + s.item.id && Key(t) == t.assistant + [':'] + t.item.id;
    Texts.FirstPartUnique(s.assistant, t.assistant, s.item.id, t.item.id, ':');
  }

  predicate Keyed(sightings: seq<Sighting>, key: string) {
    exists s | s in sightings :: Key(s) == key
  }

  /** `records.pop(key, None)`. */
  function Popped(sightings: seq<Sighting>, key: string): seq<Sighting> {
    if sightings == [] then []
    else (if Key(sightings[0]) == key then [] else [sightings[0]]) + Popped(sightings[1..], key)
  }

  /** A sighting put into the dictionary: an earlier one of its key is gone, and it stands last. */
  function Sighted(sightings: seq<Sighting>, s: Sighting): seq<Sighting> {
    Popped(sightings, Key(s)) + [s]
  }

  /** Of a whole history, the sightings whose key is not seen again later, in their order. */
  function Latest(history: seq<Sighting>): seq<Sighting> {
    if history == [] then []
    else First(history) + Latest(history[1..])
  }

  /** The first sighting, if its key is not seen again. */
  function First(history: seq<Sighting>): seq<Sighting>
    requires history != []
  {
    if Keyed(history[1..], Key(history[0])) then [] else [history[0]]
  }

  lemma {:induction false} LatestKeys(history: seq<Sighting>, key: string)
    ensures Keyed(Latest(history), key) <==> Keyed(history, key)
  {
    if history != [] {
      var rest := history[1..];
      LatestKeys(rest, key);
      LatestKeys(rest, Key(history[0]));
      assert forall s :: s in history <==> s == history[0] || s in rest;
      var head := First(history);
      assert forall s :: s in Latest(history) <==> s in head || s in Latest(rest);
    }
  }

  /** One more sighting at the end of a history. */
  lemma {:induction false} LatestGrows(history: seq<Sighting>, s: Sighting)
    ensures Latest(history + [s]) == Sighted(Latest(history), s)
  {
    if history == [] {
      assert history + [s] == [s] && [s][1..] == [];
      assert !Keyed([], Key(s));
    } else {
      var rest := history[1..];
      assert (history + [s])[0] == history[0] && (history + [s])[1..] == rest + [s];
      LatestGrows(rest, s);
      FirstPopped(history, s);
      PoppedJoined(First(history), Latest(rest), Key(s));
      Regrouped(Popped(First(history), Key(s)), Popped(Latest(rest), Key(s)), [s]);
    }
  }

  lemma Regrouped(a: seq<Sighting>, b: seq<Sighting>, c: seq<Sighting>)
    ensures a + (b + c) == a + b + c
  {
  }

  lemma FirstPopped(history: seq<Sighting>, s: Sighting)
    requires history != []
    ensures First(history + [s]) == Popped(First(history), Key(s))
  {
    var rest := history[1..];
    assert (history + [s])[0] == history[0] && (history + [s])[1..] == rest + [s];
    assert forall t :: t in rest + [s] <==> t in rest || t == s;
    assert Keyed(rest + [s], Key(history[0])) <==> Keyed(rest, Key(history[0])) || Key(history[0]) == Key(s);
  }

  lemma {:induction false} PoppedJoined(a: seq<Sighting>, b: seq<Sighting>, key: string)
    ensures Popped(a + b, key) == Popped(a, key) + Popped(b, key)
  {
    if a == [] {
      assert a + b == b;
    } else {
      assert (a + b)[1..] == a[1..] + b;
      PoppedJoined(a[1..], b, key);
    }
  }

  /** Each key stands once, with its latest data, and the keys stand in order of last sighting. */
  lemma {:induction false} LatestExactly(history: seq<Sighting>, s: Sighting)
    ensures s in Latest(history) <==> exists i :: LastOfKey(history, i, s)
    ensures multiset(Latest(history))[s] <= 1
  {
    if history != [] {
      var first, rest := history[0], history[1..];
      LatestExactly(rest, s);
      LatestKeys(rest, Key(first));
      var head := First(history);
      assert Latest(history) == head + Latest(rest);
      if i :| LastOfKey(rest, i, s) {
        LastLater(history, i, s);
      }
      if i :| LastOfKey(history, i, s) {
        if i > 0 {
          LastLater(history, i - 1, s);
        } else {
          LastFirst(history, s);
        }
      }
      if s in head {
        LastFirst(history, s);
        assert Key(s) == Key(first) && !Keyed(Latest(rest), Key(s));
        assert s !in Latest(rest);
      }
    }
  }

  predicate LastOfKey(history: seq<Sighting>, i: int, s: Sighting) {
    0 <= i < |history| && history[i] == s && !Keyed(history[i + 1..], Key(s))
  }

  lemma LastLater(history: seq<Sighting>, i: int, s: Sighting)
    requires history != []
    ensures LastOfKey(history[1..], i, s) <==> i >= 0 && LastOfKey(history, i + 1, s)
  {
    if 0 <= i < |history| - 1 {
      assert history[1..][i] == history[i + 1] && history[1..][i + 1..] == history[i + 2..];
    }
  }

  lemma LastFirst(history: seq<Sighting>, s: Sighting)
    requires history != []
    ensures LastOfKey(history, 0, s) <==> s == history[0] && !Keyed(history[1..], Key(history[0]))
  {
  }

  lemma BeforeShifted(head: seq<Sighting>, rest: seq<Sighting>, a: int, b: int, s: Sighting, t: Sighting)
    requires Before(rest, a, b, s, t)
    ensures Before(head + rest, |head| + a, |head| + b, s, t)
  {
  }

  lemma FirstOrdered(history: seq<Sighting>, j: int, s: Sighting, t: Sighting) returns (b: int)
    requires LastOfKey(history, 0, s) && LastOfKey(history, j, t) && 0 < j
    ensures Before(Latest(history), 0, b, s, t)
  {
    var rest := Latest(history[1..]);
    LastFirst(history, s);
    LastLater(history, j - 1, t);
    LatestExactly(history[1..], t);
    b :| 0 <= b < |rest| && rest[b] == t;
    assert Latest(history) == [s] + rest;
    b := b + 1;
  }

  /** The order of the entries is the order of their last sightings. */
  lemma {:induction false} LatestOrdered(history: seq<Sighting>, i: int, j: int, s: Sighting, t: Sighting)
    returns (a: int, b: int)
    requires LastOfKey(history, i, s) && LastOfKey(history, j, t) && i < j
    ensures Before(Latest(history), a, b, s, t)
    decreases i
  {
    if i == 0 {
      a := 0;
      b := FirstOrdered(history, j, s, t);
    } else {
      LastLater(history, i - 1, s);
      LastLater(history, j - 1, t);
      var head, rest := First(history), Latest(history[1..]);
      var c, d := LatestOrdered(history[1..], i - 1, j - 1, s, t);
      BeforeShifted(head, rest, c, d, s, t);
      assert Latest(history) == head + rest;
      a, b := |head| + c, |head| + d;
    }
  }

  predicate Before(sightings: seq<Sighting>, a: int, b: int, s: Sighting, t: Sighting) {
    0 <= a < b < |sightings| && sightings[a] == s && sightings[b] == t
  }

  // ---- Rendering ----

  function LastFew<T>(s: seq<T>, n: nat): seq<T> {
    if |s| <= n then s else s[|s| - n..]
  }

  function FirstFew<T>(s: seq<T>, n: nat): seq<T> {
    if |s| <= n then s else s[..n]
  }

  function Size(parts: Parts): nat {
    |parts.records| + |parts.writes| + |parts.unresolved|
  }

  /** `k` items dropped: the oldest records first, then writes, then references. */
  function Dropped(parts: Parts, k: nat): Parts
    requires k <= Size(parts)
  {
    if k <= |parts.records| then parts.(records := parts.records[k..])
    else if k - |parts.records| <= |parts.writes| then
      Parts([], parts.writes[k - |parts.records|..], parts.unresolved)
    else Parts([], [], parts.unresolved[k - |parts.records| - |parts.writes|..])
  }

  /** The fewest drops after which the parts fit, or all of them. */
  function Drops(parts: Parts, k: nat, fits: Parts -> bool): (n: nat)
    requires k <= Size(parts)
    ensures k <= n <= Size(parts)
    decreases Size(parts) - k
  {
    if k == Size(parts) || fits(Dropped(parts, k)) then k else Drops(parts, k + 1, fits)
  }

  lemma {:induction false} DropsFewest(parts: Parts, k: nat, fits: Parts -> bool)
    requires k <= Size(parts)
    ensures var n := Drops(parts, k, fits);
            (n == Size(parts) || fits(Dropped(parts, n)))
            && forall i | k <= i < n :: !fits(Dropped(parts, i))
    decreases Size(parts) - k
  {
    if k < Size(parts) && !fits(Dropped(parts, k)) {
      DropsFewest(parts, k + 1, fits);
    }
  }

  lemma DroppedSize(parts: Parts, k: nat)
    requires k <= Size(parts)
    ensures Size(Dropped(parts, k)) == Size(parts) - k
  {
  }

  /** One more drop takes the first item of the first list that has one. */
  function DroppedOne(parts: Parts): Parts
    requires Size(parts) > 0
  {
    if parts.records != [] then parts.(records := parts.records[1..])
    else if parts.writes != [] then parts.(writes := parts.writes[1..])
    else parts.(unresolved := parts.unresolved[1..])
  }

  lemma DroppedNext(parts: Parts, k: nat)
    requires k < Size(parts)
    ensures Size(Dropped(parts, k)) > 0 && Dropped(parts, k + 1) == DroppedOne(Dropped(parts, k))
  {
    DroppedSize(parts, k);
  }

  class WorkingSet {
    const python: Python
    const message: string
    var records: seq<Sighting>
    var writes: seq<Write>
    var seen: seq<string>
    var results: nat
    ghost var history: seq<Sighting>

    ghost predicate Valid()
      reads this
    {
      records == Latest(history)
    }

    constructor (message: string, python: Python)
      ensures Valid() && history == [] && records == [] && writes == [] && seen == [] && results == 0
      ensures this.message == message && this.python == python
    {
      this.message, this.python := message, python;
      records, writes, seen, results, history := [], [], [], 0, [];
    }

    method Pop(key: string)
      modifies `records
      ensures records == Popped(old(records), key)
    {
      var kept := [];
      for i := 0 to |records|
        invariant records == old(records)
        invariant kept + Popped(records[i..], key) == Popped(records, key)
      {
        assert records[i..][0] == records[i] && records[i..][1..] == records[i + 1..];
        if Key(records[i]) != key {
          kept := kept + [records[i]];
        }
      }
      records := kept;
    }

    method Sight(s: Sighting)
      requires Valid()
      modifies `records, `history
      ensures Valid() && history == old(history) + [s]
    {
      LatestGrows(history, s);
      Pop(Key(s));
      records := records + [s];
      history := history + [s];
    }

    /** `add`: every record of the result moves to the end, and a write counts only when its result reports no error and
        no non-change. */
    method Add(assistant: string, action: string, writing: bool, input: Json, result: Json)
      requires Valid()
      modifies this
      ensures Valid() && history == old(history) + Sightings(assistant, action, python.items(result))
      ensures results == old(results) + 1 && seen == old(seen) + [python.normalized(result)]
      ensures writes == old(writes) + if writing && Changing(result)
                                      then [Write(assistant, action, python.scalars(input))] else []
    {
      results := results + 1;
      seen := seen + [python.normalized(result)];
      SightAll(assistant, action, python.items(result));
      if writing && result.Dict? && "error" !in result.fields && Get(result.fields, "changed") != Bool(false) {
        writes := writes + [Write(assistant, action, python.scalars(input))];
      }
    }

    method SightAll(assistant: string, action: string, items: seq<Item>)
      requires Valid()
      modifies `records, `history
      ensures Valid() && history == old(history) + Sightings(assistant, action, items)
    {
      for i := 0 to |items|
        invariant Valid() && history == old(history) + Sightings(assistant, action, items[..i])
      {
        Sight(Sighting(assistant, action, items[i]));
        assert items[..i + 1] == items[..i] + [items[i]];
      }
      assert items[..|items|] == items;
    }

    /** `unresolved`. */
    method Unresolved() returns (open: seq<string>)
      ensures open == Unmentioned(python, python.references(message), seen)
    {
      open := [];
      var references := python.references(message);
      for i := 0 to |references|
        invariant open == Unmentioned(python, references[..i], seen)
      {
        assert references[..i + 1] == references[..i] + [references[i]];
        if !Mentioned(python, references[i], seen) {
          open := open + [references[i]];
        }
      }
      assert references[..|references|] == references;
    }

    /** `render`: nothing before the first result; afterwards the windows with the fewest drops that fit. */
    method Render() returns (rendered: Option<Parts>)
      requires Valid()
      ensures rendered.None? <==> results == 0
      ensures rendered.Some? ==>
                var windows := Parts(LastFew(Latest(history), RECORD_LIMIT), LastFew(writes, WINDOW),
                                     FirstFew(Unmentioned(python, python.references(message), seen), WINDOW));
                rendered.value == Dropped(windows, Drops(windows, 0, python.fits))
    {
      if results == 0 {
        return None;
      }
      var unresolved := Unresolved();
      var windows := Parts(LastFew(records, RECORD_LIMIT), LastFew(writes, WINDOW), FirstFew(unresolved, WINDOW));
      var parts := Shrink(python.fits, windows);
      return Some(parts);
    }
  }

  /** The loops of `render`: each list in turn loses its first item while the whole does not fit. */
  method Shrink(fits: Parts -> bool, windows: Parts) returns (parts: Parts)
    ensures parts == Dropped(windows, Drops(windows, 0, fits))
  {
    parts := windows;
    ghost var k: nat := 0;
    while parts.records != [] && !fits(parts)
      invariant k <= Size(windows) && parts == Dropped(windows, k)
      invariant Drops(windows, k, fits) == Drops(windows, 0, fits)
      decreases |parts.records|
    {
      k := Advance(windows, k, fits);
      parts := parts.(records := parts.records[1..]);
    }
    while parts.writes != [] && !fits(parts)
      invariant k <= Size(windows) && parts == Dropped(windows, k)
      invariant parts.records == [] || fits(parts)
      invariant Drops(windows, k, fits) == Drops(windows, 0, fits)
      decreases |parts.writes|
    {
      k := Advance(windows, k, fits);
      parts := parts.(writes := parts.writes[1..]);
    }
    while parts.unresolved != [] && !fits(parts)
      invariant k <= Size(windows) && parts == Dropped(windows, k)
      invariant (parts.records == [] && parts.writes == []) || fits(parts)
      invariant Drops(windows, k, fits) == Drops(windows, 0, fits)
      decreases |parts.unresolved|
    {
      k := Advance(windows, k, fits);
      parts := parts.(unresolved := parts.unresolved[1..]);
    }
    DroppedSize(windows, k);
    assert fits(parts) || Size(parts) == 0;
  }

  lemma Advance(windows: Parts, k: nat, fits: Parts -> bool) returns (next: nat)
    requires k <= Size(windows) && !fits(Dropped(windows, k)) && Size(Dropped(windows, k)) > 0
    ensures next <= Size(windows) && Dropped(windows, next) == DroppedOne(Dropped(windows, k))
    ensures Drops(windows, next, fits) == Drops(windows, k, fits)
  {
    DroppedSize(windows, k);
    DroppedNext(windows, k);
    DropsNext(windows, k, fits);
    next := k + 1;
  }

  lemma DropsNext(windows: Parts, k: nat, fits: Parts -> bool)
    requires k < Size(windows) && !fits(Dropped(windows, k))
    ensures Drops(windows, k + 1, fits) == Drops(windows, k, fits)
  {
  }

  function Sightings(assistant: string, action: string, items: seq<Item>): seq<Sighting> {
    if items == [] then []
    else Sightings(assistant, action, items[..|items| - 1]) + [Sighting(assistant, action, items[|items| - 1])]
  }

  /** Every record of a result is one sighting, in order. */
  lemma {:induction false} SightingsEach(assistant: string, action: string, items: seq<Item>)
    ensures |Sightings(assistant, action, items)| == |items|
    ensures forall i | 0 <= i < |items| :: Sightings(assistant, action, items)[i] == Sighting(assistant, action, items[i])
  {
    if items != [] {
      SightingsEach(assistant, action, items[..|items| - 1]);
    }
  }

  /** A write counts exactly when its result is a mapping without an error that does not deny the change. */
  lemma ChangingExactly(result: Json, fields: map<string, Json>)
    ensures Changing(result) ==> result.Dict?
    ensures Changing(Dict(fields))
            <==> "error" !in fields && ("changed" in fields ==> fields["changed"] != Bool(false))
  {
  }

  /** Whether a write's result reports a change. */
  predicate Changing(result: Json) {
    result.Dict? && "error" !in result.fields && Get(result.fields, "changed") != Bool(false)
  }

  predicate Mentioned(python: Python, reference: string, seen: seq<string>) {
    exists text | text in seen :: python.mentions(text, reference)
  }

  function Unmentioned(python: Python, references: seq<string>, seen: seq<string>): seq<string> {
    if references == [] then []
    else
      var last := references[|references| - 1];
      Unmentioned(python, references[..|references| - 1], seen)
      + if Mentioned(python, last, seen) then [] else [last]
  }

  /** The references left open are those no seen text mentions, in order. */
  lemma {:induction false} UnmentionedExactly(python: Python, references: seq<string>, seen: seq<string>, item: string)
    ensures item in Unmentioned(python, references, seen)
            <==> item in references && forall text | text in seen :: !python.mentions(text, item)
  {
    if references != [] {
      var rest, last := references[..|references| - 1], references[|references| - 1];
      UnmentionedExactly(python, rest, seen, item);
      assert item in references <==> item in rest || item == last;
      assert Mentioned(python, last, seen) <==> !(forall text | text in seen :: !python.mentions(text, last));
    }
  }

  /** What a rendering is, for every history: it fits, or nothing is left; each list has lost its first items, writes
      only after every record and references only after every write; and no fewer drops would have fit. */
  lemma RenderedShape(windows: Parts, fits: Parts -> bool) returns (r: nat, w: nat, u: nat)
    ensures r <= |windows.records| && w <= |windows.writes| && u <= |windows.unresolved|
    ensures (w > 0 ==> r == |windows.records|) && (u > 0 ==> r == |windows.records| && w == |windows.writes|)
    ensures var n := Drops(windows, 0, fits);
            var d := Dropped(windows, n);
            && n == r + w + u && d == Parts(windows.records[r..], windows.writes[w..], windows.unresolved[u..])
            && (fits(d) || d == Parts([], [], []))
            && forall k: nat | k < n :: !fits(Dropped(windows, k))
  {
    DropsFewest(windows, 0, fits);
    var n := Drops(windows, 0, fits);
    r := if n <= |windows.records| then n else |windows.records|;
    w := if n - r <= |windows.writes| then n - r else |windows.writes|;
    u := n - r - w;
  }
}
