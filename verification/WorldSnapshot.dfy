/** The snapshot of the simulated world as a dictionary, built the way `snapshot` in `eval/world.py` builds it. */
module WorldSnapshot {
  import opened Options
  import opened Texts
  import opened WorldRules
  import opened WorldRuns

  function Lookup(state: map<string, Value>, key: string): Option<Value> {
    if key in state then Some(state[key]) else None
  }

  function Contained(content: Option<string>): Option<Value> {
    match content
    case Some(text) => Some(Content(text))
    case None => None
  }

  function Statused(done: Option<bool>): Option<Value> {
    match done
    case Some(finished) => Some(Done(finished))
    case None => None
  }

  lemma TidyPart(records: map<string, Record>, rest: set<string>)
    requires Tidy(records)
    ensures Tidy(records - rest)
  {
  }

  lemma RecordListed(records: map<string, Record>, rest: set<string>, id: string)
    requires Tidy(records) && id in rest && rest <= records.Keys
    ensures forall key :: ContentAt(records - (rest - {id}), key)
                       == if KeyOf(records[id]) == key then Some(records[id].content)
                          else ContentAt(records - rest, key)
  {
    var before, after := records - rest, records - (rest - {id});
    TidyPart(records, rest);
    TidyPart(records, rest - {id});
    forall key
      ensures ContentAt(after, key)
           == if KeyOf(records[id]) == key then Some(records[id].content) else ContentAt(before, key)
    {
      if KeyOf(records[id]) == key {
        ContentShown(after, id);
      } else {
        assert after - {id} == before - {id};
        ContentElsewhere(before, after, id, key);
      }
    }
  }

  /** The record part: no key is written twice. */
  method RecordContents(records: map<string, Record>) returns (state: map<string, Value>)
    requires Tidy(records)
    ensures forall key :: Lookup(state, key) == Contained(ContentAt(records, key))
  {
    state := map[];
    var ids := records.Keys;
    assert records - ids == map[];
    while ids != {}
      invariant ids <= records.Keys
      invariant forall key :: Lookup(state, key) == Contained(ContentAt(records - ids, key))
      decreases |ids|
    {
      var id :| id in ids;
      RecordListed(records, ids, id);
      state := state[KeyOf(records[id]) := Content(records[id].content)];
      ids := ids - {id};
    }
    assert records - {} == records;
  }

  lemma StatusListed(tasks: map<string, Task>, rest: set<string>, id: string)
    requires id in rest && rest <= tasks.Keys
    ensures forall key :: TaskAt(tasks - (rest - {id}), key)
                       == if !IsNew(id, "tk") && TaskKey(id) == key then Some(tasks[id].done)
                          else TaskAt(tasks - rest, key)
  {
    forall key
      ensures TaskAt(tasks - (rest - {id}), key)
           == if !IsNew(id, "tk") && TaskKey(id) == key then Some(tasks[id].done) else TaskAt(tasks - rest, key)
    {
      TaskKeyRead(key);
    }
  }

  lemma TaskKeyRead(key: string)
    ensures StartsWith(key, "task:") ==> TaskKey(key[5..]) == key
  {
    if StartsWith(key, "task:") {
      assert key[..5] + key[5..] == key;
    }
  }

  method TaskStatuses(tasks: map<string, Task>) returns (state: map<string, Value>)
    ensures forall key :: Lookup(state, key) == Statused(TaskAt(tasks, key))
  {
    state := map[];
    var ids := tasks.Keys;
    assert tasks - ids == map[];
    while ids != {}
      invariant ids <= tasks.Keys
      invariant forall key :: Lookup(state, key) == Statused(TaskAt(tasks - ids, key))
      decreases |ids|
    {
      var id :| id in ids;
      StatusListed(tasks, ids, id);
      if !IsNew(id, "tk") {
        state := state[TaskKey(id) := Done(tasks[id].done)];
      }
      ids := ids - {id};
    }
    assert tasks - {} == tasks;
  }

  function Numbers(created: multiset<string>): map<string, Value> {
    map key | key in created :: Number(created[key])
  }

  /** Later parts of the dictionary overwrite earlier ones. */
  lemma SnapshotLooked(setting: Setting, s: State, contents: map<string, Value>, statuses: map<string, Value>,
                       created: multiset<string>, key: string)
    requires Lookup(contents, key) == Contained(ContentAt(s.records, key))
    requires Lookup(statuses, key) == Statused(TaskAt(s.tasks, key))
    requires created[key] == Created(setting, s, key)
    ensures Lookup(contents + statuses + Numbers(created), key) == Observed(setting, s, key)
  {
    Merged(contents, statuses, Numbers(created), key);
  }

  lemma Merged(first: map<string, Value>, second: map<string, Value>, third: map<string, Value>, key: string)
    ensures Lookup(first + second + third, key)
         == if Lookup(third, key).Some? then Lookup(third, key)
            else if Lookup(second, key).Some? then Lookup(second, key) else Lookup(first, key)
  {
  }

  // ---- The counter ----

  method AddTasks(setting: Setting, tasks: map<string, Task>, counted: multiset<string>)
    returns (created: multiset<string>)
    ensures forall key :: created[key] == counted[key] + |TasksUnder(setting, tasks, key)|
  {
    created := counted;
    var ids := tasks.Keys;
    assert tasks - ids == map[];
    assert forall key :: TasksUnder(setting, tasks - ids, key) == {};
    while ids != {}
      invariant ids <= tasks.Keys
      invariant forall key :: created[key] == counted[key] + |TasksUnder(setting, tasks - ids, key)|
      decreases |ids|
    {
      var id :| id in ids;
      TaskCounted(setting, tasks, ids, id);
      if IsNew(id, "tk") {
        created := created + multiset{TaskLabel(setting, tasks[id].tags)};
      }
      ids := ids - {id};
    }
    assert tasks - {} == tasks;
  }

  method AddEvents(events: map<string, Event>, counted: multiset<string>) returns (created: multiset<string>)
    ensures forall key :: created[key] == counted[key] + |EventsUnder(events, key)|
  {
    created := counted;
    var ids := events.Keys;
    assert forall key :: EventsUnder(events - ids, key) == {};
    while ids != {}
      invariant ids <= events.Keys
      invariant forall key :: created[key] == counted[key] + |EventsUnder(events - ids, key)|
      decreases |ids|
    {
      var id :| id in ids;
      EventCounted(events, ids, id);
      if IsNew(id, "ev") {
        created := created + multiset{KeyOfEvent(events[id])};
      }
      ids := ids - {id};
    }
    assert events - {} == events;
  }

  method AddSent(sent: seq<Message>, counted: multiset<string>) returns (created: multiset<string>)
    ensures forall key :: created[key] == counted[key] + SentUnder(sent, key)
  {
    created := counted;
    for i := 0 to |sent|
      invariant forall key :: created[key] == counted[key] + SentUnder(sent[..i], key)
    {
      assert sent[..i + 1][..i] == sent[..i];
      created := created + multiset{SentKey(sent[i].contact)};
    }
    assert sent[..|sent|] == sent;
  }

  method AddForeign(foreign: multiset<string>, counted: multiset<string>) returns (created: multiset<string>)
    ensures forall key :: created[key] == counted[key] + ForeignUnder(foreign, key)
  {
    created := counted;
    var left := foreign;
    while left != multiset{}
      invariant left <= foreign
      invariant forall key :: created[key] == counted[key] + ForeignUnder(foreign - left, key)
      decreases |left|
    {
      var assistant :| assistant in left;
      ForeignCounted(foreign, left, assistant);
      created := created + multiset{ForeignKey(assistant)};
      left := left - multiset{assistant};
    }
    assert foreign - multiset{} == foreign;
  }

  function KeyOfEvent(event: Event): string {
    EventKey(event.date, event.startTime, event.title)
  }

  lemma TaskCounted(setting: Setting, tasks: map<string, Task>, rest: set<string>, id: string)
    requires id in rest && rest <= tasks.Keys
    ensures forall key :: |TasksUnder(setting, tasks - (rest - {id}), key)|
                       == |TasksUnder(setting, tasks - rest, key)|
                        + One(IsNew(id, "tk") && TaskLabel(setting, tasks[id].tags) == key)
  {
    var before := tasks - rest;
    assert tasks - (rest - {id}) == before[id := tasks[id]];
    forall key
      ensures |TasksUnder(setting, before[id := tasks[id]], key)|
           == |TasksUnder(setting, before, key)| + One(IsNew(id, "tk") && TaskLabel(setting, tasks[id].tags) == key)
    {
      if IsNew(id, "tk") {
        TaskAdded(setting, before, id, tasks[id], key);
      } else {
        assert TasksUnder(setting, before[id := tasks[id]], key) == TasksUnder(setting, before, key);
      }
    }
  }

  lemma EventCounted(events: map<string, Event>, rest: set<string>, id: string)
    requires id in rest && rest <= events.Keys
    ensures forall key :: |EventsUnder(events - (rest - {id}), key)|
                       == |EventsUnder(events - rest, key)| + One(IsNew(id, "ev") && KeyOfEvent(events[id]) == key)
  {
    var before := events - rest;
    assert events - (rest - {id}) == before[id := events[id]];
    forall key
      ensures |EventsUnder(before[id := events[id]], key)|
           == |EventsUnder(before, key)| + One(IsNew(id, "ev") && KeyOfEvent(events[id]) == key)
    {
      if IsNew(id, "ev") {
        EventAdded(before, id, events[id], key);
      } else {
        assert EventsUnder(before[id := events[id]], key) == EventsUnder(before, key);
      }
    }
  }

  lemma ForeignCounted(foreign: multiset<string>, left: multiset<string>, assistant: string)
    requires assistant in left && left <= foreign
    ensures forall key :: ForeignUnder(foreign - (left - multiset{assistant}), key)
                       == ForeignUnder(foreign - left, key) + One(ForeignKey(assistant) == key)
  {
    forall key
      ensures ForeignUnder(foreign - (left - multiset{assistant}), key)
           == ForeignUnder(foreign - left, key) + One(ForeignKey(assistant) == key)
    {
      ForeignKeyRead(key);
    }
  }

  lemma ForeignKeyRead(key: string)
    ensures StartsWith(key, "foreign:") ==> ForeignKey(key[8..]) == key
  {
    if StartsWith(key, "foreign:") {
      assert key[..8] + key[8..] == key;
    }
  }
}
