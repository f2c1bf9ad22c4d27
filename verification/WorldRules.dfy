/** The rules of the simulated world in `eval/world.py`: what every Action does to its state, which snapshot key it
    claims to have changed, and what the snapshot holds. */
module WorldRules {
  import opened Options
  import opened Texts

  datatype Kind = A | AAAA | CNAME | TXT | MX

  datatype Record = Record(zone: string, kind: Kind, name: string, content: string)
  datatype Task = Task(title: string, tags: seq<string>, done: bool)
  datatype Event = Event(title: string, date: string, startTime: string, minutes: int)
  datatype Message = Message(contact: string, text: string)

  /** Every failure code; `Timeout` and `Unavailable` are injected faults. */
  datatype Code =
    | ZoneNotFound | RecordExists | RecordNotFound | TaskNotFound | ContactNotFound | UndeclaredAction
    | CustomerNotFound | DocumentNotFound | AssistantRevoked | Timeout | Unavailable

  datatype Ending = Returned | FailedWith(code: Code) | PermissionDenied

  /** One ledger entry: an invocation, the snapshot key it claims to have changed, and how it ended. */
  datatype Entry = Entry(assistant: string, action: string, effect: Option<string>, ending: Ending)

  datatype State = State(
    records: map<string, Record>, tasks: map<string, Task>, events: map<string, Event>, sent: seq<Message>,
    foreign: multiset<string>, ledger: seq<Entry>, next: nat)

  /** One invocation, its arguments valid under the Action's schema. `Browse` is any lookup that cannot fail, `Foreign`
      any Action of an Assistant no scenario needs, and `Undeclared` one that no contract of the variant declares. */
  datatype Call =
    | Browse(assistant: string, action: string)
    | ListRecords(zone: string)
    | GetRecord(zone: string, record: string)
    | CreateRecord(zone: string, kind: Kind, name: string, content: string)
    | UpdateRecord(zone: string, record: string, content: string)
    | DeleteRecord(zone: string, record: string)
    | GetTask(task: string)
    | CreateTask(title: string, tags: seq<string>)
    | CompleteTask(task: string)
    | CreateEvent(title: string, date: string, startTime: string, minutes: Option<int>)
    | SendMessage(contact: string, text: string)
    | Foreign(assistant: string, action: string, writes: bool)
    | Undeclared(assistant: string, action: string)

  /** How a call ends for its caller. `Kept` is an arm-B create that found the record already there. */
  datatype Outcome = Found | Changed | Kept | Failed(code: Code)

  /** How created tasks are counted: all under one key, or by their tags. */
  datatype Form = Counted | ByTags

  /** The parts of Python left abstract: `strip`, `lower`, and the case-folded tags in sorted order. */
  datatype Python = Python(strip: string -> string, lower: string -> string, folded: seq<string> -> seq<string>)

  datatype Setting = Setting(form: Form, variantB: bool, python: Python)

  const ZONES := map["zn-7f3a" := "example.com", "zn-91c2" := "example.org"]
  const CONTACTS := {"ct-ana", "ct-bruno", "ct-carla", "ct-ops"}

  // ---- Names and keys ----

  function RightStripped(s: string, c: char): string {
    if s != [] && s[|s| - 1] == c then RightStripped(s[..|s| - 1], c) else s
  }

  lemma {:induction false} RightStrippedExactly(s: string, c: char)
    ensures var rest := RightStripped(s, c);
            (rest == "" || rest[|rest| - 1] != c) && rest <= s && forall i | |rest| <= i < |s| :: s[i] == c
    decreases |s|
  {
    if s != [] && s[|s| - 1] == c {
      RightStrippedExactly(s[..|s| - 1], c);
    }
  }

  /** A record name as it is compared: without outer blanks and trailing points, in lower case. */
  function Spelling(name: string, python: Python): string {
    python.lower(RightStripped(python.strip(name), '.'))
  }

  /** `_fqdn`. */
  function FullName(name: string, zone: string, python: Python): string {
    var text := Spelling(name, python);
    if text == "" || text == "@" then zone
    else if text == zone || EndsWith(text, "." + zone) then text
    else text + "." + zone
  }

  /** A full name is the zone or a name below it, and starts with what was spelled unless that meant the zone. */
  lemma FullNameInZone(name: string, zone: string, python: Python)
    ensures var full := FullName(name, zone, python);
            (full == zone || EndsWith(full, "." + zone))
            && (full == zone <==> Spelling(name, python) in {"", "@", zone})
            && (full != zone ==> Spelling(name, python) <= full)
  {
    var full := FullName(name, zone, python);
    if full != zone {
      var text := Spelling(name, python);
      assert text + "." + zone == text + ("." + zone);
    }
  }

  /** The relative and the full spelling of a name are the same name. */
  lemma SpellingsAgree(name: string, full: string, zone: string, python: Python)
    requires Spelling(name, python) !in {"", "@", zone} && !EndsWith(Spelling(name, python), "." + zone)
    requires Spelling(full, python) == Spelling(name, python) + "." + zone
    ensures FullName(name, zone, python) == FullName(full, zone, python) == Spelling(full, python)
  {
    var text := Spelling(name, python);
    assert Spelling(full, python) == text + ("." + zone);
  }

  function ZoneName(zone: string): string {
    if zone in ZONES then ZONES[zone] else ""
  }

  function KindText(kind: Kind): string {
    match kind
    case A => "A"
    case AAAA => "AAAA"
    case CNAME => "CNAME"
    case TXT => "TXT"
    case MX => "MX"
  }

  function RecordKey(zone: string, name: string, kind: Kind): (key: string)
    ensures key != "" && key[0] == 'r'
  {
    "record:" + ZoneName(zone) + ":" + name + ":" + KindText(kind)
  }

  function KeyOf(r: Record): (key: string)
    ensures key != "" && key[0] == 'r'
  {
    RecordKey(r.zone, r.name, r.kind)
  }

  function TaskKey(task: string): (key: string)
    ensures StartsWith(key, "task:") && key[5..] == task
  {
    "task:" + task
  }

  /** The key under which a created task is counted. */
  function TaskLabel(setting: Setting, tags: seq<string>): (key: string)
    ensures key != "" && key[0] == 'n'
  {
    match setting.form
    case Counted => "new-task"
    case ByTags => "new-task:" + Join(setting.python.folded(tags), ',')
  }

  function EventKey(date: string, startTime: string, title: string): (key: string)
    ensures key != "" && key[0] == 'n'
  {
    "new-event:" + date + ":" + startTime + ":" + title
  }

  function SentKey(contact: string): (key: string)
    ensures key != "" && key[0] == 's'
  {
    "sent:" + contact
  }

  function ForeignKey(assistant: string): (key: string)
    ensures StartsWith(key, "foreign:") && key[8..] == assistant && key[0] == 'f'
  {
    "foreign:" + assistant
  }

  /** The keys whose value is a count of created things. */
  predicate Counts(key: string) {
    key != "" && key[0] in {'n', 's', 'f'}
  }

  function NewId(prefix: string, n: nat): string {
    prefix + "-new-" + Decimal(n)
  }

  lemma NewIdsDiffer(prefix: string, m: nat, n: nat)
    requires m != n
    ensures NewId(prefix, m) != NewId(prefix, n)
  {
    var head := prefix + "-new-";
    if head + Decimal(m) == head + Decimal(n) {
      assert (head + Decimal(m))[|head|..] == Decimal(m) && (head + Decimal(n))[|head|..] == Decimal(n);
      DecimalInjective(m, n);
    }
  }

  /** Whether an id was given by the world itself. */
  predicate IsNew(id: string, prefix: string) {
    StartsWith(id, prefix + "-new")
  }

  lemma NewIdIsNew(prefix: string, n: nat)
    ensures IsNew(NewId(prefix, n), prefix)
  {
    assert NewId(prefix, n) == (prefix + "-new") + ("-" + Decimal(n));
  }

  // ---- Actions ----

  predicate Taken(records: map<string, Record>, zone: string, name: string, kind: Kind) {
    exists id | id in records :: records[id].zone == zone && records[id].name == name && records[id].kind == kind
  }

  predicate Exists(records: map<string, Record>, zone: string, record: string) {
    record in records && records[record].zone == zone
  }

  /** `_dispatch`: what a call does to everything but the ledger. */
  function Dispatch(setting: Setting, s: State, call: Call): (State, Outcome) {
    match call
    case Browse(_, _) => (s, Found)
    case ListRecords(zone) => (s, if zone in ZONES then Found else Failed(ZoneNotFound))
    case GetRecord(zone, record) =>
      (s, if zone !in ZONES then Failed(ZoneNotFound)
          else if Exists(s.records, zone, record) then Found else Failed(RecordNotFound))
    case CreateRecord(zone, kind, name, content) => CreatedRecord(setting, s, zone, kind, name, content)
    case UpdateRecord(zone, record, content) =>
      if zone !in ZONES then (s, Failed(ZoneNotFound))
      else if !Exists(s.records, zone, record) then (s, Failed(RecordNotFound))
      else (s.(records := s.records[record := s.records[record].(content := content)]), Changed)
    case DeleteRecord(zone, record) =>
      if zone !in ZONES then (s, Failed(ZoneNotFound))
      else if !Exists(s.records, zone, record) then (s, Failed(RecordNotFound))
      else (s.(records := s.records - {record}), Changed)
    case GetTask(task) => (s, if task in s.tasks then Found else Failed(TaskNotFound))
    case CreateTask(title, tags) =>
      (s.(tasks := s.tasks[NewId("tk", s.next + 1) := Task(title, tags, false)], next := s.next + 1), Changed)
    case CompleteTask(task) =>
      if task in s.tasks then (s.(tasks := s.tasks[task := s.tasks[task].(done := true)]), Changed)
      else (s, Failed(TaskNotFound))
    case CreateEvent(title, date, startTime, minutes) =>
      var event := Event(title, date, startTime, if minutes.Some? then minutes.value else 60);
      (s.(events := s.events[NewId("ev", s.next + 1) := event], next := s.next + 1), Changed)
    case SendMessage(contact, text) =>
      if contact in CONTACTS then (s.(sent := s.sent + [Message(contact, text)], next := s.next + 1), Changed)
      else (s, Failed(ContactNotFound))
    case Foreign(assistant, _, writes) =>
      if writes then (s.(foreign := s.foreign + multiset{assistant}, next := s.next + 1), Changed) else (s, Found)
    case Undeclared(_, _) => (s, Failed(UndeclaredAction))
  }

  function CreatedRecord(setting: Setting, s: State, zone: string, kind: Kind, name: string, content: string)
    : (State, Outcome)
  {
    if zone !in ZONES then (s, Failed(ZoneNotFound))
    else
      var full := FullName(name, ZONES[zone], setting.python);
      if Taken(s.records, zone, full, kind) then (s, if setting.variantB then Kept else Failed(RecordExists))
      else
        (s.(records := s.records[NewId("rc", s.next + 1) := Record(zone, kind, full, content)], next := s.next + 1),
         Changed)
  }

  /** `_effect`: the snapshot key a successful write changes, read before it runs. */
  function EffectOf(setting: Setting, s: State, call: Call): Option<string> {
    match call
    case CreateRecord(zone, kind, name, _) =>
      if zone in ZONES then Some(RecordKey(zone, FullName(name, ZONES[zone], setting.python), kind)) else None
    case UpdateRecord(_, record, _) => if record in s.records then Some(KeyOf(s.records[record])) else None
    case DeleteRecord(_, record) => if record in s.records then Some(KeyOf(s.records[record])) else None
    case CreateTask(_, tags) => Some(TaskLabel(setting, tags))
    case CompleteTask(task) => Some(TaskKey(task))
    case CreateEvent(title, date, startTime, _) => Some(EventKey(date, startTime, title))
    case SendMessage(contact, _) => Some(SentKey(contact))
    case Foreign(assistant, _, writes) => if writes then Some(ForeignKey(assistant)) else None
    case _ => None
  }

  function AssistantOf(call: Call): string {
    match call
    case Browse(assistant, _) => assistant
    case Foreign(assistant, _, _) => assistant
    case Undeclared(assistant, _) => assistant
    case GetTask(_) => "tasks"
    case CreateTask(_, _) => "tasks"
    case CompleteTask(_) => "tasks"
    case CreateEvent(_, _, _, _) => "calendar"
    case SendMessage(_, _) => "messages"
    case _ => "dns"
  }

  function ActionOf(call: Call): string {
    match call
    case Browse(_, action) => action
    case Foreign(_, action, _) => action
    case Undeclared(_, action) => action
    case ListRecords(_) => "list-records"
    case GetRecord(_, _) => "get-record"
    case CreateRecord(_, _, _, _) => "create-record"
    case UpdateRecord(_, _, _) => "update-record"
    case DeleteRecord(_, _) => "delete-record"
    case GetTask(_) => "get-task"
    case CreateTask(_, _) => "create-task"
    case CompleteTask(_) => "complete-task"
    case CreateEvent(_, _, _, _) => "create-event"
    case SendMessage(_, _) => "send-message"
  }

  function EndingOf(outcome: Outcome): Ending {
    if outcome.Failed? then FailedWith(outcome.code) else Returned
  }

  /** `invoke`: every call leaves one entry; it claims its effect only if it succeeded and created what it says. */
  function Invoked(setting: Setting, s: State, call: Call): (State, Outcome) {
    var (t, outcome) := Dispatch(setting, s, call);
    var claimed := if outcome.Changed? then EffectOf(setting, s, call) else None;
    (t.(ledger := s.ledger + [Entry(AssistantOf(call), ActionOf(call), claimed, EndingOf(outcome))]), outcome)
  }

  // ---- The snapshot ----

  datatype Value = Content(content: string) | Done(done: bool) | Number(number: int)

  ghost function ContentAt(records: map<string, Record>, key: string): Option<string> {
    if id :| id in records && KeyOf(records[id]) == key then Some(records[id].content) else None
  }

  function TaskAt(tasks: map<string, Task>, key: string): Option<bool> {
    if StartsWith(key, "task:") && key[5..] in tasks && !IsNew(key[5..], "tk") then Some(tasks[key[5..]].done) else None
  }

  ghost function TasksUnder(setting: Setting, tasks: map<string, Task>, key: string): set<string> {
    set id | id in tasks && IsNew(id, "tk") && TaskLabel(setting, tasks[id].tags) == key
  }

  ghost function EventsUnder(events: map<string, Event>, key: string): set<string> {
    set id | id in events && IsNew(id, "ev") && EventKey(events[id].date, events[id].startTime, events[id].title) == key
  }

  function SentUnder(sent: seq<Message>, key: string): nat {
    if sent == [] then 0
    else SentUnder(sent[..|sent| - 1], key) + if SentKey(sent[|sent| - 1].contact) == key then 1 else 0
  }

  function ForeignUnder(foreign: multiset<string>, key: string): nat {
    if StartsWith(key, "foreign:") then foreign[key[8..]] else 0
  }

  /** How many created tasks and events, messages, and foreign writes a key counts. */
  ghost function Created(setting: Setting, s: State, key: string): nat {
    |TasksUnder(setting, s.tasks, key)| + |EventsUnder(s.events, key)| + SentUnder(s.sent, key)
    + ForeignUnder(s.foreign, key)
  }

  /** `snapshot().get(key)`: a count overwrites a task's status, and that a record's content. */
  ghost function Observed(setting: Setting, s: State, key: string): Option<Value> {
    if Created(setting, s, key) > 0 then Some(Number(Created(setting, s, key)))
    else if TaskAt(s.tasks, key).Some? then Some(Done(TaskAt(s.tasks, key).value))
    else if ContentAt(s.records, key).Some? then Some(Content(ContentAt(s.records, key).value))
    else None
  }

  /** How many ledger entries claim a key. */
  function Recorded(ledger: seq<Entry>, key: string): nat {
    if ledger == [] then 0
    else Recorded(ledger[..|ledger| - 1], key) + if ledger[|ledger| - 1].effect == Some(key) then 1 else 0
  }
}
