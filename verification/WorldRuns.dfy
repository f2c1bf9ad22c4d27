/** Every run of the simulated world: its ledger and its snapshot agree. */
module WorldRuns {
  import opened Options
  import opened Texts
  import opened WorldRules

  // ---- The invariant ----

  predicate ZonesKnown(records: map<string, Record>) {
    forall id | id in records :: records[id].zone in ZONES
  }

  /** (zone, name, type) is unique among the records. */
  predicate UniqueRecords(records: map<string, Record>) {
    forall i, j | i in records && j in records ::
      records[i].zone == records[j].zone && records[i].name == records[j].name && records[i].kind == records[j].kind
      ==> i == j
  }

  /** The ids the world will give next are still free. */
  ghost predicate IdsAhead(s: State) {
    forall n: nat | n > s.next ::
      NewId("rc", n) !in s.records && NewId("tk", n) !in s.tasks && NewId("ev", n) !in s.events
  }

  ghost predicate Sound(s: State) {
    ZonesKnown(s.records) && UniqueRecords(s.records) && IdsAhead(s)
  }

  /** A fresh world: nothing created, counted, or recorded yet. */
  ghost predicate Initial(s: State) {
    && Sound(s) && s.sent == [] && s.foreign == multiset{} && s.ledger == []
    && (forall id | id in s.tasks :: !IsNew(id, "tk"))
    && (forall id | id in s.events :: !IsNew(id, "ev"))
  }

  lemma FreshId(prefix: string, n: nat)
    ensures forall m: nat | m > n + 1 :: NewId(prefix, m) != NewId(prefix, n + 1)
  {
    forall m: nat | m > n + 1
      ensures NewId(prefix, m) != NewId(prefix, n + 1)
    {
      NewIdsDiffer(prefix, m, n + 1);
    }
  }

  lemma DispatchKeepsIds(setting: Setting, s: State, call: Call)
    requires IdsAhead(s)
    ensures IdsAhead(Dispatch(setting, s, call).0)
  {
    FreshId("rc", s.next);
    FreshId("tk", s.next);
    FreshId("ev", s.next);
  }

  lemma DispatchKeepsSound(setting: Setting, s: State, call: Call)
    requires Sound(s)
    ensures Sound(Dispatch(setting, s, call).0)
  {
    DispatchKeepsIds(setting, s, call);
    match call
    case CreateRecord(_, _, _, _) =>
    case UpdateRecord(_, _, _) =>
    case DeleteRecord(_, _) =>
    case _ =>
  }

  lemma InvokedKeepsSound(setting: Setting, s: State, call: Call)
    requires Sound(s)
    ensures Sound(Invoked(setting, s, call).0)
  {
    DispatchKeepsSound(setting, s, call);
  }

  // ---- Record keys ----

  /** Three marked parts after a head can be read back when the first has a fixed length and the last is unmarked. */
  lemma PartsRead(head: string, zone: string, n: string, kind: string, other: string, m: string, otherKind: string)
    requires |zone| == |other| && ':' !in kind && ':' !in otherKind
    requires head + zone + ":" + n + ":" + kind == head + other + ":" + m + ":" + otherKind
    ensures zone == other && n == m && kind == otherKind
  {
    var a, b := zone + ":" + n, other + ":" + m;
    assert a + ":" + kind == (head + zone + ":" + n + ":" + kind)[|head|..];
    assert b + ":" + otherKind == (head + other + ":" + m + ":" + otherKind)[|head|..];
    LastPartUnique(a, b, kind, otherKind, ':');
    assert a[..|zone|] == zone && b[..|zone|] == other && a[|zone| + 1..] == n && b[|zone| + 1..] == m;
  }

  lemma ZoneNamesDiffer(z: string, y: string)
    requires z in ZONES && y in ZONES && ZoneName(z) == ZoneName(y)
    ensures z == y
  {
    assert ZoneName(z)[8] == if z == "zn-7f3a" then 'c' else 'o';
    assert ZoneName(y)[8] == if y == "zn-7f3a" then 'c' else 'o';
  }

  lemma KindTexts(k: Kind, l: Kind)
    ensures ':' !in KindText(k) && (KindText(k) == KindText(l) ==> k == l)
  {
    assert KindText(k)[0] == (match k case A => 'A' case AAAA => 'A' case CNAME => 'C' case TXT => 'T' case MX => 'M');
    assert KindText(l)[0] == (match l case A => 'A' case AAAA => 'A' case CNAME => 'C' case TXT => 'T' case MX => 'M');
    assert |KindText(k)| == (match k case A => 1 case AAAA => 4 case CNAME => 5 case TXT => 3 case MX => 2);
    assert |KindText(l)| == (match l case A => 1 case AAAA => 4 case CNAME => 5 case TXT => 3 case MX => 2);
  }

  lemma RecordKeysDiffer(z: string, n: string, k: Kind, y: string, m: string, l: Kind)
    requires z in ZONES && y in ZONES && RecordKey(z, n, k) == RecordKey(y, m, l)
    ensures z == y && n == m && k == l
  {
    KindTexts(k, l);
    KindTexts(l, k);
    PartsRead("record:", ZoneName(z), n, KindText(k), ZoneName(y), m, KindText(l));
    ZoneNamesDiffer(z, y);
  }

  /** No two records share a key, so the snapshot shows every record. */
  lemma KeysUnique(records: map<string, Record>, i: string, j: string)
    requires ZonesKnown(records) && UniqueRecords(records) && i in records && j in records
    requires KeyOf(records[i]) == KeyOf(records[j])
    ensures i == j
  {
    RecordKeysDiffer(records[i].zone, records[i].name, records[i].kind,
                     records[j].zone, records[j].name, records[j].kind);
  }

  lemma ContentShown(records: map<string, Record>, id: string)
    requires ZonesKnown(records) && UniqueRecords(records) && id in records
    ensures ContentAt(records, KeyOf(records[id])) == Some(records[id].content)
  {
    forall i | i in records && KeyOf(records[i]) == KeyOf(records[id])
      ensures i == id
    {
      KeysUnique(records, i, id);
    }
  }

  predicate Shows(records: map<string, Record>, id: string, key: string) {
    id in records && KeyOf(records[id]) == key
  }

  /** The content at a key is decided by which record, if any, has it. */
  lemma ContentSame(before: map<string, Record>, after: map<string, Record>, key: string)
    requires ZonesKnown(before) && UniqueRecords(before) && ZonesKnown(after) && UniqueRecords(after)
    requires forall id :: Shows(before, id, key) <==> Shows(after, id, key)
    requires forall id | Shows(before, id, key) && Shows(after, id, key) :: before[id].content == after[id].content
    ensures ContentAt(before, key) == ContentAt(after, key)
  {
    if id :| Shows(before, id, key) {
      assert Shows(after, id, key);
      ContentShown(before, id);
      ContentShown(after, id);
    } else {
      assert forall id | id in after :: KeyOf(after[id]) == key ==> Shows(after, id, key);
      assert forall id | id in before :: KeyOf(before[id]) == key ==> Shows(before, id, key);
    }
  }

  // ---- One call changes only the key it claims ----

  /** The key a call changes, if it changes any. */
  function Claimed(setting: Setting, s: State, call: Call): Option<string> {
    if Dispatch(setting, s, call).1.Changed? then EffectOf(setting, s, call) else None
  }

  predicate Tidy(records: map<string, Record>) {
    ZonesKnown(records) && UniqueRecords(records)
  }

  /** Writing one record leaves every other key's content alone. */
  lemma ContentElsewhere(before: map<string, Record>, after: map<string, Record>, id: string, key: string)
    requires Tidy(before) && Tidy(after) && after - {id} == before - {id}
    requires !Shows(before, id, key) && !Shows(after, id, key)
    ensures ContentAt(after, key) == ContentAt(before, key)
  {
    forall i
      ensures Shows(before, i, key) <==> Shows(after, i, key)
      ensures Shows(before, i, key) ==> before[i].content == after[i].content
    {
      if i != id {
        assert i in before <==> i in before - {id};
        assert i in after <==> i in after - {id};
        assert i in before ==> before[i] == (before - {id})[i];
        assert i in after ==> after[i] == (after - {id})[i];
      }
    }
    ContentSame(before, after, key);
  }

  /** The one record a call can write, and what a key change there says of its claim. */
  lemma WritesOneRecord(setting: Setting, s: State, call: Call, key: string) returns (id: string)
    requires Sound(s) && Claimed(setting, s, call) != Some(key)
    requires Dispatch(setting, s, call).0.records != s.records
    ensures var records := Dispatch(setting, s, call).0.records;
            records - {id} == s.records - {id} && !Shows(s.records, id, key) && !Shows(records, id, key)
  {
    if call.CreateRecord? {
      id := NewId("rc", s.next + 1);
      assert id !in s.records;
      NewRecordWritten(setting, s, call, key);
    } else {
      id := call.record;
      OldRecordWritten(setting, s, call, key);
    }
  }

  lemma NewRecordWritten(setting: Setting, s: State, call: Call, key: string)
    requires call.CreateRecord? && NewId("rc", s.next + 1) !in s.records
    requires Claimed(setting, s, call) != Some(key) && Dispatch(setting, s, call).0.records != s.records
    ensures var id, records := NewId("rc", s.next + 1), Dispatch(setting, s, call).0.records;
            records - {id} == s.records - {id} && !Shows(s.records, id, key) && !Shows(records, id, key)
  {
  }

  lemma OldRecordWritten(setting: Setting, s: State, call: Call, key: string)
    requires call.UpdateRecord? || call.DeleteRecord?
    requires Claimed(setting, s, call) != Some(key) && Dispatch(setting, s, call).0.records != s.records
    ensures var records := Dispatch(setting, s, call).0.records;
            records - {call.record} == s.records - {call.record}
            && !Shows(s.records, call.record, key) && !Shows(records, call.record, key)
  {
  }

  lemma ContentKept(setting: Setting, s: State, call: Call, key: string)
    requires Sound(s) && Claimed(setting, s, call) != Some(key)
    ensures ContentAt(Dispatch(setting, s, call).0.records, key) == ContentAt(s.records, key)
  {
    var records := Dispatch(setting, s, call).0.records;
    if records != s.records {
      DispatchKeepsSound(setting, s, call);
      var id := WritesOneRecord(setting, s, call, key);
      ContentElsewhere(s.records, records, id, key);
    }
  }

  lemma TaskKept(setting: Setting, s: State, call: Call, key: string)
    requires Sound(s) && Claimed(setting, s, call) != Some(key)
    ensures TaskAt(Dispatch(setting, s, call).0.tasks, key) == TaskAt(s.tasks, key)
  {
    match call
    case CreateTask(_, _) => NewIdIsNew("tk", s.next + 1);
    case CompleteTask(task) =>
      if StartsWith(key, "task:") && key[5..] == task {
        assert key == key[..5] + key[5..];
      }
    case _ =>
  }

  lemma TaskAdded(setting: Setting, tasks: map<string, Task>, id: string, task: Task, key: string)
    requires id !in tasks && IsNew(id, "tk")
    ensures |TasksUnder(setting, tasks[id := task], key)|
         == |TasksUnder(setting, tasks, key)| + One(TaskLabel(setting, task.tags) == key)
  {
    var after := TasksUnder(setting, tasks[id := task], key);
    if TaskLabel(setting, task.tags) == key {
      assert after == TasksUnder(setting, tasks, key) + {id};
    } else {
      assert after == TasksUnder(setting, tasks, key);
    }
  }

  lemma TaskCompleted(setting: Setting, tasks: map<string, Task>, id: string, key: string)
    requires id in tasks
    ensures TasksUnder(setting, tasks[id := tasks[id].(done := true)], key) == TasksUnder(setting, tasks, key)
  {
  }

  lemma EventAdded(events: map<string, Event>, id: string, event: Event, key: string)
    requires id !in events && IsNew(id, "ev")
    ensures |EventsUnder(events[id := event], key)|
         == |EventsUnder(events, key)| + One(EventKey(event.date, event.startTime, event.title) == key)
  {
    var after := EventsUnder(events[id := event], key);
    if EventKey(event.date, event.startTime, event.title) == key {
      assert after == EventsUnder(events, key) + {id};
    } else {
      assert after == EventsUnder(events, key);
    }
  }

  lemma TasksMove(setting: Setting, s: State, call: Call, key: string)
    requires IdsAhead(s)
    ensures |TasksUnder(setting, Dispatch(setting, s, call).0.tasks, key)|
         == |TasksUnder(setting, s.tasks, key)| + One(call.CreateTask? && TaskLabel(setting, call.tags) == key)
  {
    match call
    case CreateTask(title, tags) =>
      NewIdIsNew("tk", s.next + 1);
      TaskAdded(setting, s.tasks, NewId("tk", s.next + 1), Task(title, tags, false), key);
    case CompleteTask(task) =>
      if task in s.tasks {
        TaskCompleted(setting, s.tasks, task, key);
      }
    case _ =>
  }

  lemma EventsMove(setting: Setting, s: State, call: Call, key: string)
    requires IdsAhead(s)
    ensures |EventsUnder(Dispatch(setting, s, call).0.events, key)|
         == |EventsUnder(s.events, key)|
          + One(call.CreateEvent? && EventKey(call.date, call.startTime, call.title) == key)
  {
    match call
    case CreateEvent(title, date, startTime, minutes) =>
      NewIdIsNew("ev", s.next + 1);
      var event := Event(title, date, startTime, if minutes.Some? then minutes.value else 60);
      EventAdded(s.events, NewId("ev", s.next + 1), event, key);
    case _ =>
  }

  lemma SentMoves(setting: Setting, s: State, call: Call, key: string)
    ensures SentUnder(Dispatch(setting, s, call).0.sent, key)
         == SentUnder(s.sent, key)
          + One(call.SendMessage? && call.contact in CONTACTS && SentKey(call.contact) == key)
  {
    var t := Dispatch(setting, s, call).0;
    match call
    case SendMessage(contact, text) =>
      if contact in CONTACTS {
        assert t.sent[..|t.sent| - 1] == s.sent;
      }
    case _ =>
  }

  lemma ForeignMoves(setting: Setting, s: State, call: Call, key: string)
    ensures ForeignUnder(Dispatch(setting, s, call).0.foreign, key)
         == ForeignUnder(s.foreign, key) + One(call.Foreign? && call.writes && ForeignKey(call.assistant) == key)
  {
    if call.Foreign? && StartsWith(key, "foreign:") {
      assert key == key[..8] + key[8..];
    }
  }

  /** A call counts one more under the key it claims, if that is a counted key, and under no other. */
  lemma CreatedMoves(setting: Setting, s: State, call: Call, key: string)
    requires Sound(s)
    ensures Created(setting, Dispatch(setting, s, call).0, key)
         == Created(setting, s, key) + One(Counts(key) && Claimed(setting, s, call) == Some(key))
  {
    TasksMove(setting, s, call, key);
    EventsMove(setting, s, call, key);
    SentMoves(setting, s, call, key);
    ForeignMoves(setting, s, call, key);
    ClaimedCounts(setting, s, call, key);
  }

  lemma ClaimedCounts(setting: Setting, s: State, call: Call, key: string)
    ensures One(Counts(key) && Claimed(setting, s, call) == Some(key))
         == One(call.CreateTask? && TaskLabel(setting, call.tags) == key)
          + One(call.CreateEvent? && EventKey(call.date, call.startTime, call.title) == key)
          + One(call.SendMessage? && call.contact in CONTACTS && SentKey(call.contact) == key)
          + One(call.Foreign? && call.writes && ForeignKey(call.assistant) == key)
  {
    match call
    case CreateTask(_, _) =>
    case CreateEvent(_, _, _, _) =>
    case SendMessage(_, _) =>
    case Foreign(_, _, _) =>
    case CompleteTask(task) => assert TaskKey(task)[0] == 't';
    case _ =>
  }

  lemma DispatchChangesOnlyItsEffect(setting: Setting, s: State, call: Call, key: string)
    requires Sound(s) && Claimed(setting, s, call) != Some(key)
    ensures Observed(setting, Dispatch(setting, s, call).0, key) == Observed(setting, s, key)
  {
    ContentKept(setting, s, call, key);
    TaskKept(setting, s, call, key);
    CreatedMoves(setting, s, call, key);
  }

  lemma LedgerUnseen(setting: Setting, s: State, ledger: seq<Entry>, key: string)
    ensures Observed(setting, s.(ledger := ledger), key) == Observed(setting, s, key)
    ensures Created(setting, s.(ledger := ledger), key) == Created(setting, s, key)
  {
  }

  /** Each call changes the snapshot at no key but the one its ledger entry claims. */
  lemma CallChangesOnlyItsEffect(setting: Setting, s: State, call: Call, key: string)
    requires Sound(s)
    ensures var t := Invoked(setting, s, call).0;
            Observed(setting, t, key) != Observed(setting, s, key) ==>
              t.ledger[|t.ledger| - 1].effect == Some(key)
  {
    var t := Invoked(setting, s, call).0;
    LedgerUnseen(setting, Dispatch(setting, s, call).0, t.ledger, key);
    if Claimed(setting, s, call) != Some(key) {
      DispatchChangesOnlyItsEffect(setting, s, call, key);
    }
  }

  /** What the snapshot shows at the key of a successful write. */
  function Written(setting: Setting, s: State, call: Call, count: nat): Option<Value> {
    match call
    case CreateRecord(_, _, _, content) => Some(Content(content))
    case UpdateRecord(_, _, content) => Some(Content(content))
    case DeleteRecord(_, _) => None
    case CompleteTask(task) => if IsNew(task, "tk") then None else Some(Done(true))
    case _ => Some(Number(count + 1))
  }

  lemma {:induction false} SentUncounted(sent: seq<Message>, key: string)
    requires !Counts(key)
    ensures SentUnder(sent, key) == 0
    decreases |sent|
  {
    if sent != [] {
      SentUncounted(sent[..|sent| - 1], key);
    }
  }

  lemma Uncounted(setting: Setting, s: State, key: string)
    requires !Counts(key)
    ensures Created(setting, s, key) == 0
  {
    assert TasksUnder(setting, s.tasks, key) == {};
    assert EventsUnder(s.events, key) == {};
    SentUncounted(s.sent, key);
    PrefixFirst(key, "foreign:");
  }

  /** The keys of created things tell them apart: an event by its date, its time, and its title, a message by its
      contact, a created task by its folded tags where the contract counts by tags. */
  lemma CreatedKeysDiffer(setting: Setting, date: string, startTime: string, title: string, other: string,
                          otherTime: string, otherTitle: string, tags: seq<string>, otherTags: seq<string>)
    requires |date| == |other| && |startTime| == |otherTime|
    ensures EventKey(date, startTime, title) == EventKey(other, otherTime, otherTitle) ==>
              date == other && startTime == otherTime && title == otherTitle
    ensures SentKey(title) == SentKey(otherTitle) ==> title == otherTitle
    ensures TaskLabel(setting, tags) == TaskLabel(setting, otherTags)
            <==> setting.form.Counted?
                 || Join(setting.python.folded(tags), ',') == Join(setting.python.folded(otherTags), ',')
  {
    EventKeysDiffer(date, startTime, title, other, otherTime, otherTitle);
    assert SentKey(title)[5..] == title && SentKey(otherTitle)[5..] == otherTitle;
    var text, otherText := Join(setting.python.folded(tags), ','), Join(setting.python.folded(otherTags), ',');
    assert ("new-task:" + text)[9..] == text && ("new-task:" + otherText)[9..] == otherText;
  }

  lemma EventKeysDiffer(date: string, startTime: string, title: string, other: string, otherTime: string,
                        otherTitle: string)
    requires |date| == |other| && |startTime| == |otherTime|
    ensures EventKey(date, startTime, title) == EventKey(other, otherTime, otherTitle) ==>
              date == other && startTime == otherTime && title == otherTitle
  {
    var d, t := |date|, |startTime|;
    var one, two := EventKey(date, startTime, title)[10..], EventKey(other, otherTime, otherTitle)[10..];
    assert one == date + ":" + startTime + ":" + title && two == other + ":" + otherTime + ":" + otherTitle;
    assert one[..d] == date && two[..d] == other;
    assert one[d + 1..][..t] == startTime && two[d + 1..][..t] == otherTime;
    assert one[d + t + 2..] == title && two[d + t + 2..] == otherTitle;
  }

  /** What a create stores is what was asked for: a record under its full name, an open task with its tags, an event
      of an hour unless its length is given, a message at the end of those sent; and nothing else changes. */
  lemma CreatedAsAsked(setting: Setting, s: State, call: Call)
    requires Dispatch(setting, s, call).1.Changed?
    ensures var t := Dispatch(setting, s, call).0;
            match call
            case CreateRecord(zone, kind, name, content) =>
              zone in ZONES && t.records - {NewId("rc", s.next + 1)} == s.records - {NewId("rc", s.next + 1)}
              && NewId("rc", s.next + 1) in t.records
              && t.records[NewId("rc", s.next + 1)]
                   == Record(zone, kind, FullName(name, ZONES[zone], setting.python), content)
            case CreateTask(title, tags) =>
              t.tasks - {NewId("tk", s.next + 1)} == s.tasks - {NewId("tk", s.next + 1)}
              && NewId("tk", s.next + 1) in t.tasks && t.tasks[NewId("tk", s.next + 1)] == Task(title, tags, false)
            case CreateEvent(title, date, startTime, minutes) =>
              t.events - {NewId("ev", s.next + 1)} == s.events - {NewId("ev", s.next + 1)}
              && NewId("ev", s.next + 1) in t.events && t.events[NewId("ev", s.next + 1)].title == title
              && t.events[NewId("ev", s.next + 1)].date == date
              && t.events[NewId("ev", s.next + 1)].startTime == startTime
              && (minutes.Some? ==> t.events[NewId("ev", s.next + 1)].minutes == minutes.value)
              && (minutes.None? ==> t.events[NewId("ev", s.next + 1)].minutes == 60)
            case SendMessage(contact, text) => t.sent == s.sent + [Message(contact, text)]
            case CompleteTask(task) => task in s.tasks && t.tasks == s.tasks[task := s.tasks[task].(done := true)]
            case _ => true
    ensures var t := Dispatch(setting, s, call).0;
            && t.ledger == s.ledger
            && (!call.CreateRecord? && !call.UpdateRecord? && !call.DeleteRecord? ==> t.records == s.records)
            && (!call.CreateTask? && !call.CompleteTask? ==> t.tasks == s.tasks)
            && (!call.CreateEvent? ==> t.events == s.events) && (!call.SendMessage? ==> t.sent == s.sent)
            && t.next == s.next + One(call.CreateRecord? || call.CreateTask? || call.CreateEvent? || call.SendMessage?
                                      || call.Foreign?)
  {
  }

  /** A call fails exactly on what it names: an unknown zone before an unknown record of it, a record that already
      exists unless the contract keeps it, an unknown task or contact, or an Action the contract does not declare. */
  lemma FailuresExactly(setting: Setting, s: State, call: Call)
    ensures var (t, outcome) := Dispatch(setting, s, call);
            && (!outcome.Changed? ==> t == s)
            && match call
               case CreateRecord(zone, kind, name, _) =>
                 if zone !in ZONES then outcome == Failed(ZoneNotFound)
                 else
                   var full := FullName(name, ZONES[zone], setting.python);
                   if exists id | id in s.records ::
                        s.records[id].zone == zone && s.records[id].name == full && s.records[id].kind == kind then
                     outcome == if setting.variantB then Kept else Failed(RecordExists)
                   else outcome == Changed
               case UpdateRecord(zone, record, _) => outcome == OnRecord(s, zone, record, Changed)
               case DeleteRecord(zone, record) => outcome == OnRecord(s, zone, record, Changed)
               case GetRecord(zone, record) => outcome == OnRecord(s, zone, record, Found)
               case ListRecords(zone) => outcome == if zone in ZONES then Found else Failed(ZoneNotFound)
               case GetTask(task) => outcome == if task in s.tasks then Found else Failed(TaskNotFound)
               case CompleteTask(task) => outcome == if task in s.tasks then Changed else Failed(TaskNotFound)
               case SendMessage(contact, _) => outcome == if contact in CONTACTS then Changed else Failed(ContactNotFound)
               case Foreign(_, _, writes) => outcome == if writes then Changed else Found
               case Browse(_, _) => outcome == Found
               case Undeclared(_, _) => outcome == Failed(UndeclaredAction)
               case _ => outcome == Changed
  {
  }

  /** What an Action on one record of a zone comes to. */
  function OnRecord(s: State, zone: string, record: string, done: Outcome): Outcome {
    if zone !in ZONES then Failed(ZoneNotFound)
    else if record in s.records && s.records[record].zone == zone then done
    else Failed(RecordNotFound)
  }

  /** A successful write shows at the key it claims: its content, its status, or one more. */
  lemma WriteShows(setting: Setting, s: State, call: Call)
    requires Sound(s) && Dispatch(setting, s, call).1.Changed?
    ensures Claimed(setting, s, call).Some?
    ensures var key := Claimed(setting, s, call).value;
            Observed(setting, Dispatch(setting, s, call).0, key)
              == Written(setting, s, call, Created(setting, s, key))
  {
    match call
    case CreateRecord(_, _, _, _) => RecordWriteShows(setting, s, call, NewId("rc", s.next + 1));
    case UpdateRecord(_, record, _) => RecordWriteShows(setting, s, call, record);
    case DeleteRecord(_, record) => RecordGone(setting, s, record);
    case CompleteTask(task) => TaskShows(setting, Dispatch(setting, s, call).0, task);
    case _ => CountShows(setting, s, call);
  }

  lemma CountShows(setting: Setting, s: State, call: Call)
    requires Sound(s) && Claimed(setting, s, call).Some? && Counts(Claimed(setting, s, call).value)
    ensures var key := Claimed(setting, s, call).value;
            Observed(setting, Dispatch(setting, s, call).0, key) == Some(Number(Created(setting, s, key) + 1))
  {
    CreatedMoves(setting, s, call, Claimed(setting, s, call).value);
  }

  lemma RecordWriteShows(setting: Setting, s: State, call: Call, record: string)
    requires Sound(s) && Dispatch(setting, s, call).1.Changed?
    requires (call.CreateRecord? && record == NewId("rc", s.next + 1)) || (call.UpdateRecord? && record == call.record)
    ensures Claimed(setting, s, call).Some?
    ensures Observed(setting, Dispatch(setting, s, call).0, Claimed(setting, s, call).value)
         == Some(Content(call.content))
  {
    var t := Dispatch(setting, s, call).0;
    DispatchKeepsSound(setting, s, call);
    assert Shows(t.records, record, Claimed(setting, s, call).value);
    RecordShows(setting, t, record, Claimed(setting, s, call).value);
  }

  lemma RecordShows(setting: Setting, s: State, record: string, key: string)
    requires Sound(s) && Shows(s.records, record, key)
    ensures Observed(setting, s, key) == Some(Content(s.records[record].content))
  {
    Uncounted(setting, s, key);
    ContentShown(s.records, record);
    assert !StartsWith(key, "task:") by {
      assert key[0] == 'r' && "task:"[0] == 't';
    }
  }

  lemma RecordGone(setting: Setting, s: State, record: string)
    requires Sound(s) && record in s.records
    ensures Observed(setting, s.(records := s.records - {record}), KeyOf(s.records[record])) == None
  {
    var key := KeyOf(s.records[record]);
    var records := s.records - {record};
    Uncounted(setting, s.(records := records), key);
    forall id | id in records
      ensures KeyOf(records[id]) != key
    {
      if KeyOf(records[id]) == key {
        KeysUnique(s.records, id, record);
      }
    }
    assert !StartsWith(key, "task:") by {
      assert key[0] == 'r' && "task:"[0] == 't';
    }
  }

  lemma TaskShows(setting: Setting, s: State, task: string)
    requires task in s.tasks
    ensures Observed(setting, s, TaskKey(task)) == if IsNew(task, "tk") then None else Some(Done(s.tasks[task].done))
  {
    var key := TaskKey(task);
    assert key[0] == key[..5][0] == 't';
    Uncounted(setting, s, key);
    assert forall id | id in s.records :: KeyOf(s.records[id]) != key;
  }

  // ---- Runs ----

  function After(setting: Setting, s: State, calls: seq<Call>): State
    decreases |calls|
  {
    if calls == [] then s else After(setting, Invoked(setting, s, calls[0]).0, calls[1..])
  }

  lemma {:induction false} RunKeepsSound(setting: Setting, s: State, calls: seq<Call>)
    requires Sound(s)
    ensures Sound(After(setting, s, calls))
    decreases |calls|
  {
    if calls != [] {
      InvokedKeepsSound(setting, s, calls[0]);
      RunKeepsSound(setting, Invoked(setting, s, calls[0]).0, calls[1..]);
    }
  }

  lemma {:induction false} LedgerGrows(setting: Setting, s: State, calls: seq<Call>)
    ensures var t := After(setting, s, calls);
            |t.ledger| == |s.ledger| + |calls| && t.ledger[..|s.ledger|] == s.ledger
    decreases |calls|
  {
    if calls != [] {
      var next := Invoked(setting, s, calls[0]).0;
      LedgerGrows(setting, next, calls[1..]);
      assert next.ledger[..|s.ledger|] == s.ledger;
    }
  }

  predicate Claims(ledger: seq<Entry>, key: string) {
    exists entry | entry in ledger :: entry.effect == Some(key)
  }

  lemma {:induction false} RunChangesOnlyEffects(setting: Setting, s: State, calls: seq<Call>, key: string)
    requires Sound(s)
    requires Observed(setting, After(setting, s, calls), key) != Observed(setting, s, key)
    ensures |s.ledger| <= |After(setting, s, calls).ledger|
    ensures Claims(After(setting, s, calls).ledger[|s.ledger|..], key)
    decreases |calls|
  {
    var next := Invoked(setting, s, calls[0]).0;
    var ledger := After(setting, s, calls).ledger;
    LedgerGrows(setting, next, calls[1..]);
    assert ledger[..|next.ledger|] == next.ledger;
    if Observed(setting, next, key) != Observed(setting, s, key) {
      CallChangesOnlyItsEffect(setting, s, calls[0], key);
      assert ledger[|s.ledger|..][0] == next.ledger[|s.ledger|];
    } else {
      InvokedKeepsSound(setting, s, calls[0]);
      RunChangesOnlyEffects(setting, next, calls[1..], key);
      var entry :| entry in ledger[|next.ledger|..] && entry.effect == Some(key);
      assert entry in ledger[|s.ledger|..];
    }
  }

  /** Ledger and snapshot agree: after any run the snapshot differs from the initial one only at effects the ledger
      recorded. */
  lemma SnapshotDiffersOnlyAtEffects(setting: Setting, start: State, calls: seq<Call>, key: string)
    requires Initial(start)
    requires Observed(setting, After(setting, start, calls), key) != Observed(setting, start, key)
    ensures Claims(After(setting, start, calls).ledger, key)
  {
    RunChangesOnlyEffects(setting, start, calls, key);
    assert After(setting, start, calls).ledger[0..] == After(setting, start, calls).ledger;
  }

  lemma {:induction false} RunCounts(setting: Setting, s: State, calls: seq<Call>, key: string)
    requires Sound(s) && Counts(key) && Created(setting, s, key) == Recorded(s.ledger, key)
    ensures Created(setting, After(setting, s, calls), key) == Recorded(After(setting, s, calls).ledger, key)
    decreases |calls|
  {
    if calls != [] {
      var next := Invoked(setting, s, calls[0]).0;
      CreatedMoves(setting, s, calls[0], key);
      assert next.ledger[..|next.ledger| - 1] == s.ledger;
      InvokedKeepsSound(setting, s, calls[0]);
      RunCounts(setting, next, calls[1..], key);
    }
  }

  lemma NothingCreated(setting: Setting, start: State, key: string)
    requires Initial(start)
    ensures Created(setting, start, key) == 0
  {
    assert TasksUnder(setting, start.tasks, key) == {};
    assert EventsUnder(start.events, key) == {};
  }

  /** Every counted key of the snapshot equals the number of ledger entries that claim it. */
  lemma CountsAgree(setting: Setting, start: State, calls: seq<Call>, key: string)
    requires Initial(start) && Counts(key)
    ensures var t := After(setting, start, calls);
            Created(setting, t, key) == Recorded(t.ledger, key)
            && (Recorded(t.ledger, key) > 0 ==> Observed(setting, t, key) == Some(Number(Recorded(t.ledger, key))))
  {
    NothingCreated(setting, start, key);
    RunCounts(setting, start, calls, key);
  }

  /** (zone, name, type) stays unique among the records of every run. */
  lemma RecordsStayUnique(setting: Setting, start: State, calls: seq<Call>)
    requires Initial(start)
    ensures UniqueRecords(After(setting, start, calls).records) && ZonesKnown(After(setting, start, calls).records)
  {
    RunKeepsSound(setting, start, calls);
  }
}
