/** The counts of the complex world: over every run whose arguments are free of the effect mark, what the snapshot
    counts under a key is the number of effects the ledger recorded there. */
module ComplexCounts {
  import opened Options
  import opened Texts
  import opened WorldRules
  import opened WorldRuns
  import opened ComplexRules
  import opened ComplexRuns

  const MARK := '|'

  // ---- Plain arguments ----

  /** The arguments a snapshot key is built from are free of the mark. */
  predicate PlainArguments(scenario: Scenario, r: Request) {
    match r
    case Plain(CreateRecord(zone, _, name, _)) =>
      zone in ZONES ==> MARK !in FullName(name, ZONES[zone], scenario.python)
    case Plain(CreateTask(_, tags)) => MARK !in Join(scenario.python.folded(tags), ',')
    case Plain(CreateEvent(title, date, startTime, _)) => MARK !in date && MARK !in startTime && MARK !in title
    case Plain(Foreign(assistant, _, _)) => MARK !in assistant
    case _ => true
  }

  predicate PlainState(e: Episode) {
    && (forall id | id in e.world.records :: MARK !in e.world.records[id].name)
    && (forall id | id in e.world.tasks :: MARK !in id)
    && (forall id | id in e.customers :: MARK !in id)
  }

  predicate PlainRun(scenario: Scenario, steps: seq<Step>) {
    forall step | step in steps && step.Call? :: PlainArguments(scenario, step.request)
  }

  lemma PlainId(prefix: string, n: nat)
    requires MARK !in prefix
    ensures MARK !in NewId(prefix, n)
  {
    var number := Decimal(n);
    assert forall i | 0 <= i < |number| :: IsDigit(number[i]);
  }

  lemma PlainRecordKey(zone: string, name: string, kind: Kind)
    requires zone in ZONES && MARK !in name
    ensures MARK !in RecordKey(zone, name, kind)
  {
    assert MARK !in ZoneName(zone) by {
      assert ZoneName(zone) in {"example.com", "example.org"};
    }
    assert MARK !in KindText(kind);
  }

  lemma PlainCallKeys(scenario: Scenario, e: Episode, call: WorldRules.Call)
    requires WorldRuns.Sound(e.world) && PlainState(e) && PlainArguments(scenario, Plain(call))
    requires Dispatch(Base(scenario), e.world, call).1.Changed?
    ensures EffectOf(Base(scenario), e.world, call).Some? ==> MARK !in EffectOf(Base(scenario), e.world, call).value
  {
    match call
    case CreateRecord(zone, kind, name, _) =>
      PlainRecordKey(zone, FullName(name, ZONES[zone], scenario.python), kind);
    case UpdateRecord(_, record, _) =>
      PlainRecordKey(e.world.records[record].zone, e.world.records[record].name, e.world.records[record].kind);
    case DeleteRecord(_, record) =>
      PlainRecordKey(e.world.records[record].zone, e.world.records[record].name, e.world.records[record].kind);
    case SendMessage(contact, _) =>
      assert MARK !in "ct-ana" && MARK !in "ct-bruno" && MARK !in "ct-carla" && MARK !in "ct-ops";
    case _ =>
  }

  lemma PlainShare(document: string, contact: string)
    requires document in DOCUMENTS && contact in CONTACTS
    ensures MARK !in SharedKey(ShareName(document, contact))
  {
    assert MARK !in "ct-ana" && MARK !in "ct-bruno" && MARK !in "ct-carla" && MARK !in "ct-ops";
    assert MARK !in "doc-4k1" && MARK !in "doc-9x2" && MARK !in "doc-7m3" && MARK !in "doc-2p8";
  }

  lemma PlainCustomerKey(id: string, field: Field)
    requires MARK !in id
    ensures MARK !in CustomerKey(id, field)
  {
    assert MARK !in FieldText(field);
  }

  /** With plain arguments every claimed key is free of the mark. */
  lemma PlainClaims(scenario: Scenario, e: Episode, r: Request)
    requires WorldRuns.Sound(e.world) && PlainState(e) && PlainArguments(scenario, r)
    ensures forall key | key in ClaimedKeys(scenario, e, r) :: MARK !in key
  {
    if Perform(scenario, e, r).1.Changed? {
      match r
      case Plain(call) => PlainCallKeys(scenario, e, call);
      case ShareDocument(document, contact) => PlainShare(document, contact);
      case UpdateCustomer(id, _, _) =>
        PlainCustomerKey(id, Email);
        PlainCustomerKey(id, Plan);
      case AddNote(id, _) => PlainCustomerKey(id, Note);
    }
  }

  lemma PerformKeepsPlain(scenario: Scenario, e: Episode, r: Request)
    requires PlainState(e) && PlainArguments(scenario, r)
    ensures PlainState(Perform(scenario, e, r).0)
  {
    if r.Plain? {
      PlainId("tk", e.world.next + 1);
      match r.call
      case CreateRecord(_, _, _, _) =>
      case UpdateRecord(_, _, _) =>
      case DeleteRecord(_, _) =>
      case _ =>
    }
  }

  lemma InvokeKeepsPlain(scenario: Scenario, e: Episode, r: Request)
    requires PlainState(e) && PlainArguments(scenario, r)
    ensures PlainState(Invoke(scenario, e, r).0)
  {
    match PathOf(scenario, e, Action(r))
    case RanPath(fault) =>
      var called := e.(calls := e.calls + multiset{Action(r)});
      PerformKeepsPlain(scenario, called, r);
      RanFrame(scenario, called, r, fault);
    case _ =>
  }

  // ---- Counting ----

  ghost function NotesUnder(scenario: Scenario, customers: map<string, Customer>, key: string): int {
    if id :| id in customers && id in scenario.customers && CustomerKey(id, Note) == key then
      |customers[id].notes| - |scenario.customers[id].notes|
    else 0
  }

  predicate IsNoteKey(key: string) {
    StartsWith(key, "crm:") && EndsWith(key, ":note")
  }

  /** The keys whose snapshot value is a count. */
  predicate CountedKey(key: string) {
    Counts(key) || IsNoteKey(key)
  }

  /** What the world has counted under a key: creations, messages, foreign writes, shares, and notes. */
  ghost function Tally(scenario: Scenario, e: Episode, key: string): int {
    Created(Base(scenario), e.world, key) + SharedUnder(e.shared, key) + NotesUnder(scenario, e.customers, key)
  }

  /** How often a ledger's effects name a key. */
  function RecordedEffects(ledger: seq<Entry>, key: string): nat {
    if ledger == [] then 0
    else RecordedEffects(ledger[..|ledger| - 1], key) + multiset(EffectsOf(ledger[|ledger| - 1]))[key]
  }

  lemma RecordedGrow(ledger: seq<Entry>, entry: Entry, key: string)
    ensures RecordedEffects(ledger + [entry], key) == RecordedEffects(ledger, key) + multiset(EffectsOf(entry))[key]
  {
    assert (ledger + [entry])[..|ledger|] == ledger;
  }

  lemma NoteShown(scenario: Scenario, customers: map<string, Customer>, id: string)
    requires id in customers && id in scenario.customers
    ensures NotesUnder(scenario, customers, CustomerKey(id, Note))
         == |customers[id].notes| - |scenario.customers[id].notes|
  {
    forall other | CustomerKey(other, Note) == CustomerKey(id, Note)
      ensures other == id
    {
      CustomerKeysDiffer(other, Note, id, Note);
    }
  }

  predicate NamesNote(customers: map<string, Customer>, key: string, id: string) {
    id in customers && CustomerKey(id, Note) == key
  }

  lemma NotesMove(scenario: Scenario, before: map<string, Customer>, id: string, row: Customer, key: string)
    requires before.Keys == scenario.customers.Keys && id in before
    ensures NotesUnder(scenario, before[id := row], key)
         == NotesUnder(scenario, before, key)
          + if CustomerKey(id, Note) == key then |row.notes| - |before[id].notes| else 0
  {
    var after := before[id := row];
    assert after.Keys == before.Keys;
    if other :| NamesNote(before, key, other) {
      NoteShown(scenario, before, other);
      NoteShown(scenario, after, other);
      if other != id && CustomerKey(id, Note) == key {
        CustomerKeysDiffer(id, Note, other, Note);
      }
    } else {
      assert forall other | other in after :: CustomerKey(other, Note) == key ==> NamesNote(before, key, other);
      assert forall other | other in before :: CustomerKey(other, Note) == key ==> NamesNote(before, key, other);
      assert NamesNote(before, CustomerKey(id, Note), id);
    }
  }

  lemma FieldKeysUncounted(id: string)
    ensures !CountedKey(CustomerKey(id, Email)) && !CountedKey(CustomerKey(id, Plan))
    ensures IsNoteKey(CustomerKey(id, Note)) && !Counts(CustomerKey(id, Note))
  {
    var email, plan, note := CustomerKey(id, Email), CustomerKey(id, Plan), CustomerKey(id, Note);
    SuffixEnds(email, ":note", 0);
    SuffixEnds(plan, ":note", 1);
    assert note == "crm:" + (id + ":note") && note == ("crm:" + id) + ":note";
  }

  lemma SuffixEnds(s: string, suffix: string, back: nat)
    requires back < |suffix|
    ensures EndsWith(s, suffix) ==> s[|s| - 1 - back] == suffix[|suffix| - 1 - back]
  {
    if EndsWith(s, suffix) {
      assert s[|s| - 1 - back] == s[|s| - |suffix|..][|suffix| - 1 - back];
    }
  }

  lemma CustomerTallyMoves(scenario: Scenario, e: Episode, r: Request, key: string)
    requires e.customers.Keys == scenario.customers.Keys && CountedKey(key) && (r.UpdateCustomer? || r.AddNote?)
    ensures Tally(scenario, Perform(scenario, e, r).0, key)
         == Tally(scenario, e, key) + multiset(ClaimedKeys(scenario, e, r))[key]
  {
    if r.customer in e.customers {
      var row := e.customers[r.customer];
      FieldKeysUncounted(r.customer);
      match r
      case UpdateCustomer(id, plan, email) =>
        NotesMove(scenario, e.customers, id, Updated(row, plan, email), key);
      case AddNote(id, text) => NotesMove(scenario, e.customers, id, row.(notes := row.notes + [text]), key);
    }
  }

  lemma SharedTallyMoves(scenario: Scenario, e: Episode, r: Request, key: string)
    requires r.ShareDocument?
    ensures Tally(scenario, Perform(scenario, e, r).0, key)
         == Tally(scenario, e, key) + multiset(ClaimedKeys(scenario, e, r))[key]
  {
    SharedKeyRead(key);
  }

  /** A call adds to the tally of a counted key once for each time it claims it. */
  lemma TallyMoves(scenario: Scenario, e: Episode, r: Request, key: string)
    requires WorldRuns.Sound(e.world) && e.customers.Keys == scenario.customers.Keys && CountedKey(key)
    ensures Tally(scenario, Perform(scenario, e, r).0, key)
         == Tally(scenario, e, key) + multiset(ClaimedKeys(scenario, e, r))[key]
  {
    match r
    case Plain(call) =>
      CreatedMoves(Base(scenario), e.world, call, key);
      PlainClaimCounted(scenario, e, call, key);
    case UpdateCustomer(_, _, _) => CustomerTallyMoves(scenario, e, r, key);
    case AddNote(_, _) => CustomerTallyMoves(scenario, e, r, key);
    case ShareDocument(_, _) => SharedTallyMoves(scenario, e, r, key);
    case _ =>
  }

  lemma PlainClaimCounted(scenario: Scenario, e: Episode, call: WorldRules.Call, key: string)
    requires CountedKey(key)
    ensures multiset(ClaimedKeys(scenario, e, Plain(call)))[key]
         == One(Counts(key) && Claimed(Base(scenario), e.world, call) == Some(key))
  {
    PrefixFirst(key, "crm:");
    if EffectOf(Base(scenario), e.world, call).Some? {
      BaseClaimFirst(Base(scenario), e.world, call);
    }
  }

  lemma BaseClaimFirst(setting: Setting, s: State, call: WorldRules.Call)
    requires EffectOf(setting, s, call).Some?
    ensures EffectOf(setting, s, call).value != "" && EffectOf(setting, s, call).value[0] != 'c'
  {
    if call.CompleteTask? {
      assert TaskKey(call.task)[0] == TaskKey(call.task)[..5][0] == 't';
    }
  }

  ghost predicate Counting(scenario: Scenario, e: Episode, key: string) {
    Tally(scenario, e, key) == RecordedEffects(e.world.ledger, key)
  }

  lemma TallyUnmoved(scenario: Scenario, e: Episode, f: Episode, key: string)
    requires SameShown(e, f)
    ensures Tally(scenario, e, key) == Tally(scenario, f, key)
  {
    LedgerUnseen(Base(scenario), f.world, e.world.ledger, key);
  }

  /** The keys an entry claimed are read back exactly when none of them holds the mark. */
  lemma EffectsRead(keys: seq<string>, entry: Entry)
    requires entry.effect == EffectText(keys)
    ensures EffectsOf(entry) == keys <==> forall key | key in keys :: MARK !in key
  {
    if keys != [] {
      SplitJoinExactly(keys, MARK);
    }
  }

  lemma RanKeepsCounting(scenario: Scenario, e: Episode, r: Request, fault: Option<FaultKind>, key: string)
    requires WorldRuns.Sound(e.world) && e.customers.Keys == scenario.customers.Keys
    requires PlainState(e) && PlainArguments(scenario, r) && CountedKey(key) && Counting(scenario, e, key)
    ensures Counting(scenario, Ran(scenario, e, r, fault).0, key)
  {
    var done := Perform(scenario, e, r);
    var entry := RanEntry(Action(r), ClaimOf(scenario, e, r), done.1, fault == Some(AckLost));
    RanFrame(scenario, e, r, fault);
    PlainClaims(scenario, e, r);
    EffectsRead(ClaimedKeys(scenario, e, r), entry);
    TallyMoves(scenario, e, r, key);
    TallyUnmoved(scenario, done.0, Ran(scenario, e, r, fault).0, key);
    RecordedGrow(e.world.ledger, entry, key);
  }

  lemma InvokeKeepsCounting(scenario: Scenario, e: Episode, r: Request, key: string)
    requires Orderly(scenario, e) && PlainState(e) && PlainArguments(scenario, r) && CountedKey(key)
    requires Counting(scenario, e, key)
    ensures Counting(scenario, Invoke(scenario, e, r).0, key)
  {
    var f := Invoke(scenario, e, r).0;
    var action := Action(r);
    match PathOf(scenario, e, action)
    case RanPath(fault) =>
      var called := e.(calls := e.calls + multiset{action});
      TallyUnmoved(scenario, e, called, key);
      RanKeepsCounting(scenario, called, r, fault, key);
    case DeniedPath =>
      TallyUnmoved(scenario, e, f, key);
      RecordedGrow(e.world.ledger, Entry(action.0, action.1, None, PermissionDenied), key);
    case FailedPath =>
      TallyUnmoved(scenario, e, f, key);
      RecordedGrow(e.world.ledger, Entry(action.0, action.1, None, FailedWith(Unavailable)), key);
    case RevokedPath => TallyUnmoved(scenario, e, f, key);
  }

  lemma {:induction false} RunKeepsCounting(scenario: Scenario, e: Episode, steps: seq<Step>, key: string)
    requires Orderly(scenario, e) && PlainState(e) && PlainRun(scenario, steps) && CountedKey(key)
    requires Counting(scenario, e, key)
    ensures Counting(scenario, Played(scenario, e, steps), key)
    decreases |steps|
  {
    if steps != [] {
      var f := Next(scenario, e, steps[0]);
      NextKeepsOrderly(scenario, e, steps[0]);
      if steps[0].Call? {
        assert steps[0] in steps;
        InvokeKeepsCounting(scenario, e, steps[0].request, key);
        InvokeKeepsPlain(scenario, e, steps[0].request);
      } else {
        TallyUnmoved(scenario, e, f, key);
      }
      RunKeepsCounting(scenario, f, steps[1..], key);
    }
  }

  lemma NothingTallied(scenario: Scenario, start: Episode, key: string)
    requires Started(scenario, start)
    ensures Tally(scenario, start, key) == 0
  {
    NothingCreated(Base(scenario), start.world, key);
  }

  /** Every counted key equals the number of effects the ledger recorded under it, whatever faults, denials, and
      revocations the run met. */
  lemma TalliesAgree(scenario: Scenario, start: Episode, steps: seq<Step>, key: string)
    requires Started(scenario, start) && PlainState(start) && PlainRun(scenario, steps) && CountedKey(key)
    ensures var e := Played(scenario, start, steps);
            Tally(scenario, e, key) == RecordedEffects(e.world.ledger, key)
  {
    NothingTallied(scenario, start, key);
    RunKeepsCounting(scenario, start, steps, key);
  }

  // ---- The snapshot shows the tally ----

  lemma {:induction false} SentElsewhere(sent: seq<Message>, key: string)
    requires forall contact :: SentKey(contact) != key
    ensures SentUnder(sent, key) == 0
    decreases |sent|
  {
    if sent != [] {
      SentElsewhere(sent[..|sent| - 1], key);
    }
  }

  lemma SharedUncreated(setting: Setting, s: State, key: string)
    requires StartsWith(key, "shared:")
    ensures Created(setting, s, key) == 0
  {
    assert key[0] == key[..7][0] == 's' && key[1] == key[..7][1] == 'h';
    assert TasksUnder(setting, s.tasks, key) == {};
    assert EventsUnder(s.events, key) == {};
    forall contact
      ensures SentKey(contact) != key
    {
      assert SentKey(contact)[1] == 'e';
    }
    SentElsewhere(s.sent, key);
    PrefixFirst(key, "foreign:");
  }

  lemma NotesElsewhere(scenario: Scenario, customers: map<string, Customer>, key: string)
    requires key != "" && key[0] != 'c'
    ensures NotesUnder(scenario, customers, key) == 0 && CustomerAt(scenario, customers, key) == None
  {
    assert forall id, field :: CustomerKey(id, field) != key;
  }

  /** A positive tally is what the snapshot shows. */
  lemma TallyShows(scenario: Scenario, e: Episode, key: string)
    requires Counts(key) && Tally(scenario, e, key) > 0
    ensures Seen(scenario, e, key) == Some(Number(Tally(scenario, e, key)))
  {
    NotesElsewhere(scenario, e.customers, key);
    if StartsWith(key, "shared:") {
      SharedUncreated(Base(scenario), e.world, key);
    }
  }

  lemma NoteTallyShows(scenario: Scenario, e: Episode, id: string)
    requires id in e.customers && id in scenario.customers && Tally(scenario, e, CustomerKey(id, Note)) != 0
    ensures Seen(scenario, e, CustomerKey(id, Note)) == Some(Number(Tally(scenario, e, CustomerKey(id, Note))))
  {
    var key := CustomerKey(id, Note);
    Uncounted(Base(scenario), e.world, key);
    NoteShown(scenario, e.customers, id);
    CustomerShown(scenario, e.customers, id, Note);
    PrefixFirst(key, "shared:");
  }

  // ---- Where the mark breaks the agreement ----

  lemma NothingSeen(scenario: Scenario, start: Episode, key: string)
    requires Started(scenario, start) && Counts(key)
    ensures Seen(scenario, start, key) == None
  {
    NothingCreated(Base(scenario), start.world, key);
    NotesElsewhere(scenario, start.customers, key);
    PrefixFirst(key, "task:");
    assert forall id | id in start.world.records :: KeyOf(start.world.records[id]) != key;
  }

  lemma EventTallied(scenario: Scenario, start: Episode, call: WorldRules.Call)
    requires Started(scenario, start) && scenario.faults == [] && call.CreateEvent?
    ensures Tally(scenario, Invoke(scenario, start, Plain(call)).0, EventKey(call.date, call.startTime, call.title)) == 1
  {
    var key := EventKey(call.date, call.startTime, call.title);
    var r := Plain(call);
    var called := start.(calls := start.calls + multiset{Action(r)});
    assert PathOf(scenario, start, Action(r)) == RanPath(None);
    RanFrame(scenario, called, r, None);
    TallyUnmoved(scenario, start, called, key);
    assert ClaimedKeys(scenario, called, r) == [key];
    TallyMoves(scenario, called, r, key);
    NothingTallied(scenario, start, key);
    TallyUnmoved(scenario, Perform(scenario, called, r).0, Invoke(scenario, start, r).0, key);
  }

  /** An event whose title holds the mark is created, shown, and never named by the ledger's effects. */
  lemma MarkedTitleUnclaimed(scenario: Scenario, start: Episode, call: WorldRules.Call)
    requires Started(scenario, start) && scenario.faults == [] && call.CreateEvent? && MARK in call.title
    ensures var e := Played(scenario, start, [Call(Plain(call))]);
            var key := EventKey(call.date, call.startTime, call.title);
            Seen(scenario, e, key) == Some(Number(1)) && Seen(scenario, start, key) == None
            && !ClaimedBy(e.world.ledger, key)
  {
    var key := EventKey(call.date, call.startTime, call.title);
    var steps := [Call(Plain(call))];
    assert Played(scenario, start, steps) == Invoke(scenario, start, Plain(call)).0 by {
      assert Played(scenario, Next(scenario, start, steps[0]), steps[1..]) == Next(scenario, start, steps[0]);
    }
    EventTallied(scenario, start, call);
    TallyShows(scenario, Played(scenario, start, steps), key);
    NothingSeen(scenario, start, key);
    assert key[|key| - |call.title|..] == call.title;
    assert MARK in key;
    DifferencesClaimedExactly(scenario, start, steps, key);
  }
}
