/** The complex world itself: the object whose handlers change it in place, over the simulated world it extends. */
module ComplexWorld {
  import opened Options
  import opened Texts
  import opened WorldRules
  import opened WorldSnapshot
  import opened ComplexRules
  import opened ComplexRuns
  import World

  class ComplexWorld {
    const scenario: Scenario
    const base: World.World
    var customers: map<string, Customer>
    var shared: multiset<string>
    var calls: multiset<(string, string)>
    var denied: set<(string, string)>
    var revoked: set<string>
    var revokedDispatches: nat
    var dispatchesAfterDenial: nat
    var providerFaultPending: bool

    function Contents(): Episode
      reads this, base
    {
      Episode(base.Contents(), customers, shared, calls, denied, revoked, revokedDispatches, dispatchesAfterDenial,
              providerFaultPending)
    }

    ghost predicate Valid()
      reads this, base
    {
      base.setting == Base(scenario) && base.Valid() && customers.Keys == scenario.customers.Keys
    }

    constructor (scenario: Scenario)
      ensures Valid() && fresh(base) && this.scenario == scenario
      ensures Contents() == Episode(World.START, scenario.customers, multiset{}, multiset{}, {}, {}, 0, 0, false)
    {
      this.scenario := scenario;
      customers, shared, calls, denied, revoked := scenario.customers, multiset{}, multiset{}, {}, {};
      revokedDispatches, dispatchesAfterDenial, providerFaultPending := 0, 0, false;
      base := new World.World(Base(scenario));
    }

    method Revoke(assistant: string)
      requires Valid()
      modifies this
      ensures Valid() && Contents() == Next(scenario, old(Contents()), ComplexRuns.Revoke(assistant))
    {
      revoked := revoked + {assistant};
    }

    /** `_fault`. */
    method FindFault(action: (string, string)) returns (fault: Option<FaultKind>)
      ensures fault == FaultAt(scenario.faults, action, calls[action])
    {
      for i := 0 to |scenario.faults|
        invariant FaultAt(scenario.faults[i..], action, calls[action])
               == FaultAt(scenario.faults, action, calls[action])
      {
        assert scenario.faults[i..][0] == scenario.faults[i] && scenario.faults[i..][1..] == scenario.faults[i + 1..];
        var f := scenario.faults[i];
        if (f.assistant, f.action) == action && f.occurrence == calls[action] && !f.kind.Stale? {
          return Some(f.kind);
        }
      }
      return None;
    }

    method Record(entry: Entry)
      modifies base
      ensures base.Contents() == old(base.Contents()).(ledger := old(base.ledger) + [entry])
    {
      base.ledger := base.ledger + [entry];
    }

    /** The handlers. */
    method Handle(r: Request) returns (outcome: Outcome)
      requires base.setting == Base(scenario)
      modifies this, base
      ensures (Contents(), outcome) == Perform(scenario, old(Contents()), r)
    {
      match r
      case Plain(call) => outcome := base.Run(call);
      case GetCustomer(customer) => return if customer in customers then Found else Failed(CustomerNotFound);
      case ReadDocument(document) => return if document in DOCUMENTS then Found else Failed(DocumentNotFound);
      case UpdateCustomer(customer, plan, email) =>
        if customer !in customers {
          return Failed(CustomerNotFound);
        }
        var row := customers[customer];
        if plan.Some? {
          row := row.(plan := plan.value);
        }
        if email.Some? {
          row := row.(email := email.value);
        }
        customers := customers[customer := row.(version := row.version + 1)];
        return Changed;
      case AddNote(customer, text) =>
        if customer !in customers {
          return Failed(CustomerNotFound);
        }
        var row := customers[customer];
        customers := customers[customer := row.(notes := row.notes + [text])];
        return Changed;
      case ShareDocument(document, contact) =>
        if document !in DOCUMENTS {
          return Failed(DocumentNotFound);
        }
        if contact !in CONTACTS {
          return Failed(ContactNotFound);
        }
        shared := shared + multiset{ShareName(document, contact)};
        return Changed;
    }

    /** The call that runs: effect first, then the handler, then its one entry. */
    method RunCall(r: Request, fault: Option<FaultKind>) returns (reply: Reply)
      requires base.setting == Base(scenario)
      modifies this, base
      ensures (Contents(), reply) == Ran(scenario, old(Contents()), r, fault)
    {
      var effect := EffectText(EffectKeys(scenario, Contents(), r));
      var outcome := Handle(r);
      reply := Close(RanEntry(Action(r), if outcome.Changed? then effect else None, outcome, fault == Some(AckLost)),
                     outcome, fault);
    }

    method Close(entry: Entry, outcome: Outcome, fault: Option<FaultKind>) returns (reply: Reply)
      modifies this, base
      ensures (Contents(), reply) == Closed(old(Contents()), entry, outcome, fault)
    {
      Record(entry);
      if outcome.Failed? {
        return Replied(outcome);
      }
      if fault == Some(AckLost) {
        return Replied(Failed(Timeout));
      }
      providerFaultPending := providerFaultPending || fault == Some(ProviderError);
      return Replied(outcome);
    }

    /** A lasting refusal; one of an Action denied before is a violation. */
    method Deny(action: (string, string))
      modifies this, base
      ensures Contents() == Denying(old(Contents()), action)
    {
      dispatchesAfterDenial := dispatchesAfterDenial + if action in denied then 1 else 0;
      denied := denied + {action};
      Record(Entry(action.0, action.1, None, PermissionDenied));
    }

    /** `invoke` after its Assistant was found in place: a fault may deny it or fail it before it runs. */
    method InvokePlaced(r: Request, action: (string, string)) returns (reply: Reply)
      requires base.setting == Base(scenario) && action == Action(r) && action.0 !in revoked
      requires action in calls
      modifies this, base
      ensures (Contents(), reply)
           == ComplexRules.Invoke(scenario, old(Contents()).(calls := old(calls) - multiset{action}), r)
    {
      ghost var before := Contents().(calls := calls - multiset{action});
      assert before.(calls := before.calls + multiset{action}) == Contents();
      var fault := FindFault(action);
      InvokedAlong(scenario, before, r, fault);
      if action in denied || fault == Some(FaultKind.Deny) {
        Deny(action);
        return Denied;
      }
      if fault == Some(FailBefore) {
        Record(Entry(action.0, action.1, None, FailedWith(Unavailable)));
        return Replied(Failed(Unavailable));
      }
      reply := RunCall(r, fault);
    }

    /** `invoke`. */
    method Invoke(r: Request) returns (reply: Reply)
      requires Valid()
      modifies this, base
      ensures Valid() && (Contents(), reply) == ComplexRules.Invoke(scenario, old(Contents()), r)
    {
      InvokeKeepsWorld(scenario, Contents(), r);
      var action := Action(r);
      ghost var before := calls;
      calls := calls + multiset{action};
      if action.0 in revoked {
        revokedDispatches := revokedDispatches + 1;
        return Replied(Failed(AssistantRevoked));
      }
      assert calls - multiset{action} == before;
      reply := InvokePlaced(r, action);
    }

    /** `snapshot`: the base snapshot, then each customer's changed fields, then the shares. */
    method Snapshot() returns (state: map<string, Value>)
      requires Valid()
      ensures forall key :: Lookup(state, key) == Seen(scenario, Contents(), key)
    {
      var plain := base.Snapshot();
      var rows := WriteCustomers(scenario, customers, plain);
      state := WriteShares(shared, rows);
    }
  }

  /** A call whose Assistant is in place, by the fault found for it. */
  lemma InvokedAlong(scenario: Scenario, e: Episode, r: Request, fault: Option<FaultKind>)
    requires Action(r).0 !in e.revoked && fault == FaultAt(scenario.faults, Action(r), e.calls[Action(r)] + 1)
    ensures var action := Action(r);
            var called := e.(calls := e.calls + multiset{action});
            ComplexRules.Invoke(scenario, e, r)
              == if action in e.denied || fault == Some(FaultKind.Deny) then (Denying(called, action), Denied)
                 else if fault == Some(FailBefore) then
                   (Recording(called, Entry(action.0, action.1, None, FailedWith(Unavailable))),
                    Replied(Failed(Unavailable)))
                 else Ran(scenario, called, r, fault)
  {
  }

  method WriteCustomers(scenario: Scenario, customers: map<string, Customer>, plain: map<string, Value>)
    returns (state: map<string, Value>)
    requires customers.Keys == scenario.customers.Keys
    ensures forall key :: Lookup(state, key) == Over(CustomerAt(scenario, customers, key), Lookup(plain, key))
  {
    state := plain;
    var ids := customers.Keys;
    assert customers - ids == map[];
    while ids != {}
      invariant ids <= customers.Keys
      invariant forall key :: Lookup(state, key) == Over(CustomerAt(scenario, customers - ids, key), Lookup(plain, key))
      decreases |ids|
    {
      var id :| id in ids;
      ghost var before := state;
      state := WriteField(state, scenario.customers[id], customers[id], id, Plan);
      state := WriteField(state, scenario.customers[id], customers[id], id, Email);
      state := WriteField(state, scenario.customers[id], customers[id], id, Note);
      forall key
        ensures Lookup(state, key) == Over(CustomerAt(scenario, customers - (ids - {id}), key), Lookup(plain, key))
      {
        CustomerListed(scenario, customers, ids, id, key);
        FieldsWritten(scenario.customers[id], customers[id], before, state, id, key);
      }
      ids := ids - {id};
    }
    assert customers - {} == customers;
  }

  method WriteShares(shared: multiset<string>, rows: map<string, Value>) returns (state: map<string, Value>)
    ensures forall key ::
              Lookup(state, key)
                == Over(if SharedUnder(shared, key) > 0 then Some(Number(SharedUnder(shared, key))) else None,
                        Lookup(rows, key))
  {
    state := rows;
    var names := shared;
    while names != multiset{}
      invariant names <= shared
      invariant forall key :: Lookup(state, key) == Over(ShareListed(shared, names, key), Lookup(rows, key))
      decreases |names|
    {
      var name :| name in names;
      SharesListed(shared, names, name);
      state := state[SharedKey(name) := Number(shared[name])];
      names := names[name := 0];
    }
  }

  /** A later dictionary's value, where it has one, over an earlier one's. */
  function Over(upper: Option<Value>, lower: Option<Value>): Option<Value> {
    if upper.Some? then upper else lower
  }

  function WriteField(state: map<string, Value>, original: Customer, row: Customer, id: string, field: Field)
    : (after: map<string, Value>)
    ensures forall key :: Lookup(after, key)
                       == Over(if key == CustomerKey(id, field) then Shown(original, row, field) else None,
                               Lookup(state, key))
  {
    match Shown(original, row, field)
    case Some(value) => state[CustomerKey(id, field) := value]
    case None => state
  }

  /** The three writes of one customer: every field's key shows the field, and no other key moves. */
  lemma FieldsWritten(original: Customer, row: Customer, before: map<string, Value>, after: map<string, Value>, id: string,
                      key: string)
    requires after == WriteField(WriteField(WriteField(before, original, row, id, Plan), original, row, id, Email),
                                 original, row, id, Note)
    ensures forall field | key == CustomerKey(id, field) ::
              Lookup(after, key) == Over(Shown(original, row, field), Lookup(before, key))
    ensures (forall field :: key != CustomerKey(id, field)) ==> Lookup(after, key) == Lookup(before, key)
  {
    forall field | key == CustomerKey(id, field)
      ensures Lookup(after, key) == Over(Shown(original, row, field), Lookup(before, key))
    {
      OtherFields(id, field);
    }
  }

  lemma OtherFields(id: string, field: Field)
    ensures forall other :: CustomerKey(id, other) == CustomerKey(id, field) ==> other == field
  {
    forall other | CustomerKey(id, other) == CustomerKey(id, field)
      ensures other == field
    {
      CustomerKeysDiffer(id, other, id, field);
    }
  }

  lemma CustomerListed(scenario: Scenario, customers: map<string, Customer>, rest: set<string>, id: string, key: string)
    requires id in rest && rest <= customers.Keys && customers.Keys == scenario.customers.Keys
    ensures forall field | key == CustomerKey(id, field) ::
              CustomerAt(scenario, customers - (rest - {id}), key) == Shown(scenario.customers[id], customers[id], field)
              && CustomerAt(scenario, customers - rest, key) == None
    ensures (forall field :: key != CustomerKey(id, field)) ==>
              CustomerAt(scenario, customers - (rest - {id}), key) == CustomerAt(scenario, customers - rest, key)
  {
    var before, after := customers - rest, customers - (rest - {id});
    forall field | key == CustomerKey(id, field)
      ensures CustomerAt(scenario, after, key) == Shown(scenario.customers[id], customers[id], field)
      ensures CustomerAt(scenario, before, key) == None
    {
      CustomerShown(scenario, after, id, field);
      forall other, otherField | other in before
        ensures CustomerKey(other, otherField) != key
      {
        if CustomerKey(other, otherField) == key {
          CustomerKeysDiffer(other, otherField, id, field);
        }
      }
    }
    if forall field :: key != CustomerKey(id, field) {
      CustomerUnlisted(scenario, before, after, id, key);
    }
  }

  lemma CustomerUnlisted(scenario: Scenario, before: map<string, Customer>, after: map<string, Customer>, id: string,
                         key: string)
    requires id in after && before == after - {id} && after.Keys <= scenario.customers.Keys
    requires forall field :: key != CustomerKey(id, field)
    ensures CustomerAt(scenario, after, key) == CustomerAt(scenario, before, key)
  {
    if other, field :| NamesField(before, key, other, field) {
      CustomerShown(scenario, before, other, field);
      CustomerShown(scenario, after, other, field);
    } else {
      assert forall other, field | other in after ::
          CustomerKey(other, field) == key ==> NamesField(before, key, other, field);
      assert forall other, field | other in before ::
          CustomerKey(other, field) == key ==> NamesField(before, key, other, field);
    }
  }

  /** The shares already written while `rest` is still to come. */
  function ShareListed(shared: multiset<string>, rest: multiset<string>, key: string): Option<Value> {
    if StartsWith(key, "shared:") && key[7..] in shared && key[7..] !in rest then Some(Number(shared[key[7..]]))
    else None
  }

  lemma SharesListed(shared: multiset<string>, rest: multiset<string>, name: string)
    requires name in rest && rest <= shared
    ensures forall key :: ShareListed(shared, rest[name := 0], key)
                       == if key == SharedKey(name) then Some(Number(shared[name])) else ShareListed(shared, rest, key)
  {
    forall key
      ensures ShareListed(shared, rest[name := 0], key)
           == if key == SharedKey(name) then Some(Number(shared[name])) else ShareListed(shared, rest, key)
    {
      SharedKeyRead(key);
    }
  }
}
