/** The simulated world itself: its starting data, and the object whose handlers change it in place. */
module World {
  import opened Options
  import opened WorldRules
  import opened WorldRuns
  import opened WorldSnapshot

  const RECORDS := map[
    "rc-www" := Record("zn-7f3a", A, "www.example.com", "192.0.2.1"),
    "rc-api" := Record("zn-7f3a", A, "api.example.com", "192.0.2.1"),
    "rc-app" := Record("zn-7f3a", A, "app.example.com", "192.0.2.10"),
    "rc-status" := Record("zn-7f3a", A, "status.example.com", "192.0.2.20"),
    "rc-cdn" := Record("zn-7f3a", CNAME, "cdn.example.com", "edge.cdn-provider.net"),
    "rc-oldv" := Record("zn-7f3a", TXT, "_old-verify.example.com", "verify-7c1d"),
    "rc-org-www" := Record("zn-91c2", A, "www.example.org", "192.0.2.30")]

  const TASKS := map[
    "tk-1" := Task("Call the dentist to reschedule", ["health"], false),
    "tk-2" := Task("Buy wall paint", ["home"], false),
    "tk-3" := Task("Fix the kitchen sink", ["home"], false),
    "tk-4" := Task("Water the balcony plants", ["home"], false),
    "tk-5" := Task("Draft the quarterly report", ["work"], false),
    "tk-6" := Task("Clean the garage", ["home"], true)]

  const EVENTS := map[
    "ev-1" := Event("Budget review", "2026-10-05", "14:30", 60),
    "ev-2" := Event("1:1 with Bruno", "2026-10-05", "10:00", 30),
    "ev-3" := Event("Dentist", "2026-10-07", "09:00", 45)]

  const START := State(RECORDS, TASKS, EVENTS, [], multiset{}, [], 0)

  lemma NewFourth(id: string, prefix: string)
    requires |prefix| == 2 && IsNew(id, prefix)
    ensures |id| >= 4 && id[3] == 'n'
  {
    assert (prefix + "-new")[3] == 'n' && id[..6][3] == id[3];
  }

  predicate Given(ids: set<string>) {
    forall id | id in ids :: |id| < 4 || id[3] != 'n'
  }

  lemma GivenAreOld(ids: set<string>, prefix: string)
    requires Given(ids) && |prefix| == 2
    ensures forall id | id in ids :: !IsNew(id, prefix)
    ensures forall n: nat :: NewId(prefix, n) !in ids
  {
    forall id | id in ids
      ensures !IsNew(id, prefix)
    {
      if IsNew(id, prefix) {
        NewFourth(id, prefix);
      }
    }
    forall n: nat
      ensures NewId(prefix, n) !in ids
    {
      NewIdIsNew(prefix, n);
    }
  }

  lemma RecordsTidy()
    ensures Tidy(RECORDS)
  {
    forall i, j | i in RECORDS && j in RECORDS && RECORDS[i].zone == RECORDS[j].zone
                  && RECORDS[i].name == RECORDS[j].name && RECORDS[i].kind == RECORDS[j].kind
      ensures i == j
    {
      FirstTells(i);
      FirstTells(j);
    }
    ZonesGiven();
  }

  lemma ZonesGiven()
    ensures ZonesKnown(RECORDS)
  {
  }

  lemma FirstTells(i: string)
    requires i in RECORDS
    ensures First(i)
  {
  }

  /** The first letters of its name and zone tell every record apart. */
  predicate First(i: string)
    requires i in RECORDS
  {
    var name := RECORDS[i].name;
    |name| > 2 &&
    match (name[0], name[2], |name|)
    case ('w', 'w', 15) => i == if RECORDS[i].zone == "zn-7f3a" then "rc-www" else "rc-org-www"
    case ('a', 'i', _) => i == "rc-api"
    case ('a', 'p', _) => i == "rc-app"
    case ('s', _, _) => i == "rc-status"
    case ('c', _, _) => i == "rc-cdn"
    case ('_', _, _) => i == "rc-oldv"
    case _ => false
  }

  lemma RecordIdsGiven()
    ensures Given(RECORDS.Keys)
  {
  }

  lemma TaskIdsGiven()
    ensures Given(TASKS.Keys)
  {
  }

  lemma EventIdsGiven()
    ensures Given(EVENTS.Keys)
  {
  }

  /** The starting data meet what every run needs of them. */
  lemma StartIsInitial()
    ensures Initial(START)
  {
    RecordsTidy();
    RecordIdsGiven();
    TaskIdsGiven();
    EventIdsGiven();
    GivenAreOld(RECORDS.Keys, "rc");
    GivenAreOld(TASKS.Keys, "tk");
    GivenAreOld(EVENTS.Keys, "ev");
  }

  class World {
    const setting: Setting
    var records: map<string, Record>
    var tasks: map<string, Task>
    var events: map<string, Event>
    var sent: seq<Message>
    var foreign: multiset<string>
    var ledger: seq<Entry>
    var next: nat

    function Contents(): State
      reads this
    {
      State(records, tasks, events, sent, foreign, ledger, next)
    }

    ghost predicate Valid()
      reads this
    {
      Sound(Contents())
    }

    constructor (setting: Setting)
      ensures Valid() && this.setting == setting && Contents() == START
    {
      this.setting := setting;
      records, tasks, events, sent, foreign, ledger, next := RECORDS, TASKS, EVENTS, [], multiset{}, [], 0;
      new;
      StartIsInitial();
    }

    /** `_id`. */
    method FreshName(prefix: string) returns (id: string)
      modifies `next
      ensures next == old(next) + 1 && id == NewId(prefix, next)
    {
      next := next + 1;
      id := NewId(prefix, next);
    }

    /** The search of `create-record` for a record of that name and type. */
    method FindRecord(zone: string, name: string, kind: Kind) returns (found: bool)
      ensures found <==> Taken(records, zone, name, kind)
    {
      var rest := records.Keys;
      while rest != {}
        invariant rest <= records.Keys
        invariant forall id | id in records && id !in rest ::
                    !(records[id].zone == zone && records[id].name == name && records[id].kind == kind)
        decreases |rest|
      {
        var id :| id in rest;
        if records[id].zone == zone && records[id].name == name && records[id].kind == kind {
          return true;
        }
        rest := rest - {id};
      }
      return false;
    }

    method CreateOneRecord(zone: string, kind: Kind, name: string, content: string) returns (outcome: Outcome)
      modifies this
      ensures (Contents(), outcome)
           == Dispatch(setting, old(Contents()), CreateRecord(zone, kind, name, content))
    {
      if zone !in ZONES {
        return Failed(ZoneNotFound);
      }
      var full := FullName(name, ZONES[zone], setting.python);
      var found := FindRecord(zone, full, kind);
      if found && setting.variantB {
        return Kept;
      }
      if found {
        return Failed(RecordExists);
      }
      var id := FreshName("rc");
      records := records[id := Record(zone, kind, full, content)];
      return Changed;
    }

    /** `_existing`: `Found`, or the failure. */
    method ExistingRecord(zone: string, record: string) returns (outcome: Outcome)
      ensures outcome == if zone !in ZONES then Failed(ZoneNotFound)
                         else if Exists(records, zone, record) then Found else Failed(RecordNotFound)
    {
      if zone !in ZONES {
        return Failed(ZoneNotFound);
      }
      if record !in records || records[record].zone != zone {
        return Failed(RecordNotFound);
      }
      return Found;
    }

    method WriteRecord(call: Call) returns (outcome: Outcome)
      requires call.UpdateRecord? || call.DeleteRecord?
      modifies this
      ensures (Contents(), outcome) == Dispatch(setting, old(Contents()), call)
    {
      var existing := ExistingRecord(call.zone, call.record);
      if existing.Failed? {
        return existing;
      }
      if call.UpdateRecord? {
        records := records[call.record := records[call.record].(content := call.content)];
      } else {
        records := records - {call.record};
      }
      return Changed;
    }

    method WriteTask(call: Call) returns (outcome: Outcome)
      requires call.CreateTask? || call.CompleteTask?
      modifies this
      ensures (Contents(), outcome) == Dispatch(setting, old(Contents()), call)
    {
      if call.CreateTask? {
        var id := FreshName("tk");
        tasks := tasks[id := Task(call.title, call.tags, false)];
        return Changed;
      }
      if call.task !in tasks {
        return Failed(TaskNotFound);
      }
      tasks := tasks[call.task := tasks[call.task].(done := true)];
      return Changed;
    }

    method CreateOneEvent(title: string, date: string, startTime: string, minutes: Option<int>) returns (outcome: Outcome)
      modifies this
      ensures (Contents(), outcome)
           == Dispatch(setting, old(Contents()), CreateEvent(title, date, startTime, minutes))
    {
      var id := FreshName("ev");
      events := events[id := Event(title, date, startTime, if minutes.Some? then minutes.value else 60)];
      return Changed;
    }

    method SendOneMessage(contact: string, text: string) returns (outcome: Outcome)
      modifies this
      ensures (Contents(), outcome) == Dispatch(setting, old(Contents()), SendMessage(contact, text))
    {
      if contact !in CONTACTS {
        return Failed(ContactNotFound);
      }
      sent := sent + [Message(contact, text)];
      var id := FreshName("msg");
      return Changed;
    }

    /** `_dispatch`. */
    method Run(call: Call) returns (outcome: Outcome)
      modifies this
      ensures (Contents(), outcome) == Dispatch(setting, old(Contents()), call)
    {
      match call
      case CreateRecord(zone, kind, name, content) => outcome := CreateOneRecord(zone, kind, name, content);
      case UpdateRecord(_, _, _) => outcome := WriteRecord(call);
      case DeleteRecord(_, _) => outcome := WriteRecord(call);
      case CreateTask(_, _) => outcome := WriteTask(call);
      case CompleteTask(_) => outcome := WriteTask(call);
      case CreateEvent(title, date, startTime, minutes) =>
        outcome := CreateOneEvent(title, date, startTime, minutes);
      case SendMessage(contact, text) => outcome := SendOneMessage(contact, text);
      case Foreign(assistant, _, writes) =>
        if !writes {
          return Found;
        }
        foreign := foreign + multiset{assistant};
        var id := FreshName(assistant);
        return Changed;
      case ListRecords(zone) => return if zone in ZONES then Found else Failed(ZoneNotFound);
      case GetRecord(zone, record) => outcome := ExistingRecord(zone, record);
      case GetTask(task) => return if task in tasks then Found else Failed(TaskNotFound);
      case Undeclared(_, _) => return Failed(UndeclaredAction);
      case Browse(_, _) => return Found;
    }

    /** `invoke`: the entry is appended first, the effect read before the Action runs, and claimed only afterwards. */
    method Invoke(call: Call) returns (outcome: Outcome)
      requires Valid()
      modifies this
      ensures Valid()
      ensures (Contents(), outcome) == Invoked(setting, old(Contents()), call)
    {
      ghost var after := Invoked(setting, Contents(), call).0;
      InvokedKeepsSound(setting, Contents(), call);
      var effect := EffectOf(setting, Contents(), call);
      outcome := Run(call);
      var claimed := if outcome.Changed? then effect else None;
      ledger := ledger + [Entry(AssistantOf(call), ActionOf(call), claimed, EndingOf(outcome))];
      assert Contents() == after;
    }

    /** `snapshot`: record contents, then task statuses over them, then the counts over both. */
    method Snapshot() returns (state: map<string, Value>)
      requires Valid()
      ensures forall key :: Lookup(state, key) == Observed(setting, Contents(), key)
    {
      var contents := RecordContents(records);
      var statuses := TaskStatuses(tasks);
      var created := AddTasks(setting, tasks, multiset{});
      created := AddEvents(events, created);
      created := AddSent(sent, created);
      created := AddForeign(foreign, created);
      state := contents + statuses + Numbers(created);
      forall key
        ensures Lookup(state, key) == Observed(setting, Contents(), key)
      {
        SnapshotLooked(setting, Contents(), contents, statuses, created, key);
      }
    }
  }
}
