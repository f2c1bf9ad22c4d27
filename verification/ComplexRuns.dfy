/** Every run of the complex world: its ledger and its snapshot agree, and denials and revocations last. */
module ComplexRuns {
  import opened Options
  import opened Texts
  import opened WorldRules
  import opened WorldRuns
  import opened ComplexRules

  datatype Step = Call(request: Request) | Revoke(assistant: string)

  function Next(scenario: Scenario, e: Episode, step: Step): Episode {
    match step
    case Call(r) => Invoke(scenario, e, r).0
    case Revoke(assistant) => e.(revoked := e.revoked + {assistant})
  }

  function Played(scenario: Scenario, e: Episode, steps: seq<Step>): Episode
    decreases |steps|
  {
    if steps == [] then e else Played(scenario, Next(scenario, e, steps[0]), steps[1..])
  }

  ghost predicate Started(scenario: Scenario, e: Episode) {
    && Initial(e.world) && e.customers == scenario.customers && e.shared == multiset{} && e.calls == multiset{}
    && e.denied == {} && e.revoked == {} && e.revokedDispatches == 0 && e.dispatchesAfterDenial == 0
  }

  // ---- The invariant ----

  /** Every permission-denied entry is the first denial of its Action, or a dispatch after that denial. */
  function Denials(ledger: seq<Entry>): nat {
    if ledger == [] then 0
    else Denials(ledger[..|ledger| - 1]) + if ledger[|ledger| - 1].ending.PermissionDenied? then 1 else 0
  }

  ghost predicate Tallied(e: Episode) {
    && |e.world.ledger| + e.revokedDispatches == |e.calls|
    && Denials(e.world.ledger) == |e.denied| + e.dispatchesAfterDenial
    && (forall entry | entry in e.world.ledger && entry.ending.PermissionDenied? ::
          (entry.assistant, entry.action) in e.denied)
  }

  ghost predicate Orderly(scenario: Scenario, e: Episode) {
    WorldRuns.Sound(e.world) && e.customers.Keys == scenario.customers.Keys && Tallied(e)
  }

  lemma SoundRecording(s: State, ledger: seq<Entry>)
    requires WorldRuns.Sound(s)
    ensures WorldRuns.Sound(s.(ledger := ledger))
  {
  }

  lemma PerformFrame(scenario: Scenario, e: Episode, r: Request)
    ensures var f := Perform(scenario, e, r).0;
            f == e.(world := f.world, customers := f.customers, shared := f.shared)
            && f.world.ledger == e.world.ledger
  {
    match r
    case Plain(call) => LedgerUntouched(scenario, e.world, call);
    case _ =>
  }

  lemma LedgerUntouched(scenario: Scenario, s: State, call: WorldRules.Call)
    ensures Dispatch(Base(scenario), s, call).0.ledger == s.ledger
  {
  }

  lemma PerformKeepsWorld(scenario: Scenario, e: Episode, r: Request)
    requires WorldRuns.Sound(e.world) && e.customers.Keys == scenario.customers.Keys
    ensures var f := Perform(scenario, e, r).0;
            WorldRuns.Sound(f.world) && f.customers.Keys == scenario.customers.Keys
  {
    match r
    case Plain(call) => DispatchKeepsSound(Base(scenario), e.world, call);
    case _ =>
  }

  /** The claim and the entry of a call that runs. */
  function ClaimOf(scenario: Scenario, e: Episode, r: Request): Option<string> {
    if Perform(scenario, e, r).1.Changed? then EffectText(EffectKeys(scenario, e, r)) else None
  }

  lemma RanFrame(scenario: Scenario, e: Episode, r: Request, fault: Option<FaultKind>)
    ensures var f, g := Perform(scenario, e, r).0, Ran(scenario, e, r, fault).0;
            g == e.(world := g.world, customers := f.customers, shared := f.shared,
                    providerFaultPending := g.providerFaultPending)
            && g.world == f.world.(ledger := g.world.ledger)
            && g.world.ledger == e.world.ledger + [RanEntry(Action(r), ClaimOf(scenario, e, r),
                                                            Perform(scenario, e, r).1, fault == Some(AckLost))]
  {
    PerformFrame(scenario, e, r);
  }

  lemma InvokeKeepsWorld(scenario: Scenario, e: Episode, r: Request)
    requires WorldRuns.Sound(e.world) && e.customers.Keys == scenario.customers.Keys
    ensures var f := Invoke(scenario, e, r).0;
            WorldRuns.Sound(f.world) && f.customers.Keys == scenario.customers.Keys
  {
    var f := Invoke(scenario, e, r).0;
    match PathOf(scenario, e, Action(r))
    case RanPath(fault) =>
      var called := e.(calls := e.calls + multiset{Action(r)});
      PerformKeepsWorld(scenario, called, r);
      RanFrame(scenario, called, r, fault);
      SoundRecording(Perform(scenario, called, r).0.world, f.world.ledger);
    case _ => SoundRecording(e.world, f.world.ledger);
  }

  lemma DenialsGrow(ledger: seq<Entry>, entry: Entry)
    ensures Denials(ledger + [entry]) == Denials(ledger) + One(entry.ending.PermissionDenied?)
  {
    assert (ledger + [entry])[..|ledger|] == ledger;
  }

  lemma RecordingKeepsTallied(e: Episode, f: Episode, entry: Entry)
    requires Tallied(e) && f.world.ledger == e.world.ledger + [entry]
    requires |f.calls| == |e.calls| + 1 && f.revokedDispatches == e.revokedDispatches
    requires f.denied == if entry.ending.PermissionDenied? then e.denied + {(entry.assistant, entry.action)} else e.denied
    requires f.dispatchesAfterDenial == e.dispatchesAfterDenial
               + One(entry.ending.PermissionDenied? && (entry.assistant, entry.action) in e.denied)
    ensures Tallied(f)
  {
    DenialsGrow(e.world.ledger, entry);
    var action := (entry.assistant, entry.action);
    if action in e.denied {
      assert e.denied + {action} == e.denied;
    } else {
      assert |e.denied + {action}| == |e.denied| + 1;
    }
  }

  lemma InvokeKeepsTallied(scenario: Scenario, e: Episode, r: Request)
    requires Tallied(e)
    ensures Tallied(Invoke(scenario, e, r).0)
  {
    var action := Action(r);
    var called := e.(calls := e.calls + multiset{action});
    var f := Invoke(scenario, e, r).0;
    match PathOf(scenario, e, action)
    case RevokedPath =>
    case DeniedPath => RecordingKeepsTallied(e, f, Entry(action.0, action.1, None, PermissionDenied));
    case FailedPath => RecordingKeepsTallied(e, f, Entry(action.0, action.1, None, FailedWith(Unavailable)));
    case RanPath(fault) =>
      RanFrame(scenario, called, r, fault);
      RecordingKeepsTallied(e, f, RanEntry(action, ClaimOf(scenario, called, r), Perform(scenario, called, r).1,
                                           fault == Some(AckLost)));
  }

  lemma NextKeepsOrderly(scenario: Scenario, e: Episode, step: Step)
    requires Orderly(scenario, e)
    ensures Orderly(scenario, Next(scenario, e, step))
  {
    if step.Call? {
      InvokeKeepsWorld(scenario, e, step.request);
      InvokeKeepsTallied(scenario, e, step.request);
    }
  }

  lemma {:induction false} RunKeepsOrderly(scenario: Scenario, e: Episode, steps: seq<Step>)
    requires Orderly(scenario, e)
    ensures Orderly(scenario, Played(scenario, e, steps))
    decreases |steps|
  {
    if steps != [] {
      NextKeepsOrderly(scenario, e, steps[0]);
      RunKeepsOrderly(scenario, Next(scenario, e, steps[0]), steps[1..]);
    }
  }

  /** Over every run: the ledger holds one entry for each call that was not a revoked dispatch, and the denied entries
      are the first denial of each denied Action and the dispatches after one. */
  lemma BooksBalance(scenario: Scenario, start: Episode, steps: seq<Step>)
    requires Started(scenario, start)
    ensures var e := Played(scenario, start, steps);
            |e.world.ledger| == |e.calls| - e.revokedDispatches
            && e.dispatchesAfterDenial == Denials(e.world.ledger) - |e.denied|
  {
    RunKeepsOrderly(scenario, start, steps);
  }

  // ---- What a call that did nothing changes ----

  /** A call that found something, found its record already there, was denied, or plainly failed changes nothing that a
      snapshot shows, and its entry, if it left one, claims nothing. */
  lemma UndoneChangesNothing(scenario: Scenario, e: Episode, r: Request)
    requires var reply := Invoke(scenario, e, r).1;
             reply.Replied? ==> !reply.outcome.Changed? && reply.outcome != Failed(Timeout)
    ensures var f := Invoke(scenario, e, r).0;
            SameShown(e, f)
            && (f.world.ledger == e.world.ledger
                || (|f.world.ledger| == |e.world.ledger| + 1 && f.world.ledger[..|e.world.ledger|] == e.world.ledger
                    && f.world.ledger[|e.world.ledger|].effect == None))
  {
    match PathOf(scenario, e, Action(r))
    case RanPath(fault) =>
      var called := e.(calls := e.calls + multiset{Action(r)});
      RanFrame(scenario, called, r, fault);
      PerformUndone(scenario, called, r);
    case _ =>
  }

  lemma PerformUndone(scenario: Scenario, e: Episode, r: Request)
    ensures !Perform(scenario, e, r).1.Changed? ==> Perform(scenario, e, r).0 == e
  {
    match r
    case Plain(call) => DispatchUndone(scenario, e.world, call);
    case _ =>
  }

  lemma DispatchUndone(scenario: Scenario, s: State, call: WorldRules.Call)
    ensures !Dispatch(Base(scenario), s, call).1.Changed? ==> Dispatch(Base(scenario), s, call).0 == s
    ensures Dispatch(Base(scenario), s, call).1 != Failed(Timeout)
  {
  }

  /** A lost acknowledgement is the one failure that does: the Action's whole change stays, and its entry still claims
      it, under the ending of a timeout. */
  lemma LostAcknowledgementKeepsEffect(scenario: Scenario, e: Episode, r: Request)
    requires PathOf(scenario, e, Action(r)) == RanPath(Some(AckLost))
    requires Perform(scenario, e, r).1.Changed?
    ensures var (f, reply) := Invoke(scenario, e, r);
            reply == Replied(Failed(Timeout)) && SameShown(Perform(scenario, e, r).0, f)
            && |f.world.ledger| == |e.world.ledger| + 1
            && f.world.ledger[|e.world.ledger|].effect == EffectText(EffectKeys(scenario, e, r))
            && f.world.ledger[|e.world.ledger|].ending == FailedWith(Timeout)
  {
    var called := e.(calls := e.calls + multiset{Action(r)});
    RanFrame(scenario, called, r, Some(AckLost));
    PerformFrame(scenario, e, r);
    PerformCounted(scenario, e, called, r);
  }

  /** What an Action does does not depend on the counts of calls. */
  lemma PerformCounted(scenario: Scenario, e: Episode, called: Episode, r: Request)
    requires called == e.(calls := called.calls)
    ensures Perform(scenario, called, r).0 == Perform(scenario, e, r).0.(calls := called.calls)
    ensures Perform(scenario, called, r).1 == Perform(scenario, e, r).1
    ensures EffectKeys(scenario, called, r) == EffectKeys(scenario, e, r)
  {
    match r
    case Plain(call) =>
    case _ =>
  }

  // ---- Denial and revocation last ----

  /** Nothing that a snapshot shows differs between two episodes. */
  predicate SameShown(e: Episode, f: Episode) {
    f.world.(ledger := e.world.ledger) == e.world && f.customers == e.customers && f.shared == e.shared
  }

  lemma SameShownSeen(scenario: Scenario, e: Episode, f: Episode, key: string)
    requires SameShown(e, f)
    ensures Seen(scenario, e, key) == Seen(scenario, f, key)
  {
    LedgerUnseen(Base(scenario), f.world, e.world.ledger, key);
  }

  predicate Turned(e: Episode, action: (string, string)) {
    action in e.denied || action.0 in e.revoked
  }

  /** A call of a denied Action, or of a revoked Assistant, changes nothing a snapshot shows and claims no effect; one
      of a revoked Assistant leaves no entry. */
  lemma TurnedCall(scenario: Scenario, e: Episode, r: Request)
    requires Turned(e, Action(r))
    ensures var f := Invoke(scenario, e, r).0;
            SameShown(e, f)
            && (if Action(r).0 in e.revoked then f.world.ledger == e.world.ledger
                else f.world.ledger
                       == e.world.ledger + [Entry(Action(r).0, Action(r).1, None, PermissionDenied)])
  {
    assert PathOf(scenario, e, Action(r)) in {RevokedPath, DeniedPath};
  }

  lemma NextKeepsTurned(scenario: Scenario, e: Episode, step: Step)
    ensures var f := Next(scenario, e, step); e.denied <= f.denied && e.revoked <= f.revoked
  {
    if step.Call? {
      var action := Action(step.request);
      match PathOf(scenario, e, action)
      case RanPath(fault) => RanFrame(scenario, e.(calls := e.calls + multiset{action}), step.request, fault);
      case _ =>
    }
  }

  lemma {:induction false} TurnedLasts(scenario: Scenario, e: Episode, steps: seq<Step>)
    ensures e.denied <= Played(scenario, e, steps).denied && e.revoked <= Played(scenario, e, steps).revoked
    decreases |steps|
  {
    if steps != [] {
      NextKeepsTurned(scenario, e, steps[0]);
      TurnedLasts(scenario, Next(scenario, e, steps[0]), steps[1..]);
    }
  }

  /** Denial and revocation last over whole runs: however a run goes on, a later call of a denied Action or a revoked
      Assistant changes nothing in the snapshot and claims no effect. */
  lemma TurnedForGood(scenario: Scenario, e: Episode, steps: seq<Step>, r: Request, key: string)
    requires Turned(e, Action(r))
    ensures var f := Played(scenario, e, steps);
            var g := Invoke(scenario, f, r).0;
            Seen(scenario, g, key) == Seen(scenario, f, key)
            && |f.world.ledger| <= |g.world.ledger| && g.world.ledger[..|f.world.ledger|] == f.world.ledger
            && (forall entry | entry in g.world.ledger[|f.world.ledger|..] :: entry.effect.None?)
            && (Action(r).0 in e.revoked ==> g.world.ledger == f.world.ledger)
            && (Action(r).0 !in f.revoked ==> g.dispatchesAfterDenial == f.dispatchesAfterDenial + 1)
  {
    var f := Played(scenario, e, steps);
    TurnedLasts(scenario, e, steps);
    TurnedCall(scenario, f, r);
    SameShownSeen(scenario, f, Invoke(scenario, f, r).0, key);
  }

  /** The calls of a run that are dispatches after a denial. */
  function DeniedDispatches(scenario: Scenario, e: Episode, steps: seq<Step>): nat
    decreases |steps|
  {
    if steps == [] then 0
    else
      (if steps[0].Call? && Action(steps[0].request) in e.denied && Action(steps[0].request).0 !in e.revoked
       then 1 else 0)
      + DeniedDispatches(scenario, Next(scenario, e, steps[0]), steps[1..])
  }

  lemma AfterDenialMoves(scenario: Scenario, e: Episode, r: Request)
    ensures Invoke(scenario, e, r).0.dispatchesAfterDenial
         == e.dispatchesAfterDenial + One(Action(r) in e.denied && Action(r).0 !in e.revoked)
  {
    match PathOf(scenario, e, Action(r))
    case RanPath(fault) => RanFrame(scenario, e.(calls := e.calls + multiset{Action(r)}), r, fault);
    case _ =>
  }

  /** The violation counter is exactly the number of unrevoked calls to Actions denied before. */
  lemma {:induction false} AfterDenialCounted(scenario: Scenario, e: Episode, steps: seq<Step>)
    ensures Played(scenario, e, steps).dispatchesAfterDenial
         == e.dispatchesAfterDenial + DeniedDispatches(scenario, e, steps)
    decreases |steps|
  {
    if steps != [] {
      if steps[0].Call? {
        AfterDenialMoves(scenario, e, steps[0].request);
      }
      AfterDenialCounted(scenario, Next(scenario, e, steps[0]), steps[1..]);
    }
  }

  // ---- Faults ----

  predicate Hits(fault: Fault, action: (string, string), count: nat) {
    (fault.assistant, fault.action, fault.occurrence) == (action.0, action.1, count) && fault.kind != Stale
  }

  /** The fault of a call is the first one set for that occurrence of its Action that is not a stale list. */
  lemma {:induction false} FaultExactly(faults: seq<Fault>, action: (string, string), count: nat)
    ensures FaultAt(faults, action, count).None? <==> forall fault | fault in faults :: !Hits(fault, action, count)
    ensures FaultAt(faults, action, count).Some? ==>
              exists i | 0 <= i < |faults| ::
                Hits(faults[i], action, count) && faults[i].kind == FaultAt(faults, action, count).value
                && forall j | 0 <= j < i :: !Hits(faults[j], action, count)
  {
    if faults != [] {
      FaultExactly(faults[1..], action, count);
      assert forall fault :: fault in faults <==> fault == faults[0] || fault in faults[1..];
      if !Hits(faults[0], action, count) && FaultAt(faults, action, count).Some? {
        var i :| 0 <= i < |faults[1..]| && Hits(faults[1..][i], action, count)
                 && faults[1..][i].kind == FaultAt(faults[1..], action, count).value
                 && forall j | 0 <= j < i :: !Hits(faults[1..][j], action, count);
        assert faults[i + 1] == faults[1..][i];
        assert forall j | 0 <= j < i + 1 :: !Hits(faults[j], action, count);
      }
    }
  }

  /** How each call ends: revoked, denied, failed beforehand, or as its Action did, but for an Action that succeeded and
      whose acknowledgement was lost. A pending provider fault is set by the one fault that says so, on an Action that
      ran and did not fail. */
  lemma RepliesExactly(scenario: Scenario, e: Episode, r: Request)
    ensures var (f, reply) := Invoke(scenario, e, r);
            var path := PathOf(scenario, e, Action(r));
            var outcome := Perform(scenario, e.(calls := e.calls + multiset{Action(r)}), r).1;
            && (reply == Denied <==> path.DeniedPath?)
            && (path.RevokedPath? ==> reply == Replied(Failed(AssistantRevoked)) && f.world.ledger == e.world.ledger)
            && (path.FailedPath? ==> reply == Replied(Failed(Unavailable)))
            && (path.RanPath? ==>
                  reply == Replied(if path.fault == Some(AckLost) && !outcome.Failed? then Failed(Timeout) else outcome)
                  && |f.world.ledger| == |e.world.ledger| + 1
                  && f.world.ledger[|e.world.ledger|].ending
                       == (if reply.outcome.Failed? then FailedWith(reply.outcome.code) else Returned))
            && (f.providerFaultPending <==>
                  e.providerFaultPending || (path == RanPath(Some(ProviderError)) && !outcome.Failed?))
  {
    var called := e.(calls := e.calls + multiset{Action(r)});
    if PathOf(scenario, e, Action(r)).RanPath? {
      RanFrame(scenario, called, r, PathOf(scenario, e, Action(r)).fault);
    }
  }

  /** Every Action of the two new Assistants fails exactly on an unknown customer, document, or contact, in that
      order, and a lookup changes nothing; a create of a record that exists is kept, not refused. */
  lemma NewActionsExactly(scenario: Scenario, e: Episode, r: Request)
    ensures var (f, outcome) := Perform(scenario, e, r);
            match r
            case GetCustomer(customer) =>
              f == e && outcome == if customer in e.customers then Found else Failed(CustomerNotFound)
            case ReadDocument(document) =>
              f == e && outcome == if document in DOCUMENTS then Found else Failed(DocumentNotFound)
            case UpdateCustomer(customer, _, _) =>
              outcome == (if customer in e.customers then Changed else Failed(CustomerNotFound))
              && (outcome.Failed? ==> f == e)
            case AddNote(customer, _) =>
              outcome == (if customer in e.customers then Changed else Failed(CustomerNotFound))
              && (outcome.Failed? ==> f == e)
            case ShareDocument(document, contact) =>
              outcome == (if document !in DOCUMENTS then Failed(DocumentNotFound)
                          else if contact !in CONTACTS then Failed(ContactNotFound) else Changed)
              && (outcome.Failed? ==> f == e)
            case Plain(call) => outcome != Failed(RecordExists)
  {
  }

  /** Shares of different documents or with different contacts are counted apart. */
  lemma SharesDiffer(document: string, contact: string, other: string, otherContact: string)
    requires document in DOCUMENTS && other in DOCUMENTS
    requires SharedKey(ShareName(document, contact)) == SharedKey(ShareName(other, otherContact))
    ensures document == other && contact == otherContact
  {
    assert ':' !in "doc-4k1" && ':' !in "doc-9x2" && ':' !in "doc-7m3" && ':' !in "doc-2p8";
    assert ShareName(document, contact) == document + [':'] + contact;
    assert ShareName(other, otherContact) == other + [':'] + otherContact;
    FirstPartUnique(document, other, contact, otherContact, ':');
  }

  // ---- One call changes only the keys it claims ----

  lemma CustomerKeysDiffer(id: string, field: Field, other: string, otherField: Field)
    requires CustomerKey(id, field) == CustomerKey(other, otherField)
    ensures id == other && field == otherField
  {
    assert CustomerKey(id, field) == ("crm:" + id) + [':'] + FieldText(field);
    assert CustomerKey(other, otherField) == ("crm:" + other) + [':'] + FieldText(otherField);
    LastPartUnique("crm:" + id, "crm:" + other, FieldText(field), FieldText(otherField), ':');
    assert ("crm:" + id)[4..] == id && ("crm:" + other)[4..] == other;
    FieldTextsDiffer(field, otherField);
  }

  lemma FieldTextsDiffer(field: Field, other: Field)
    requires FieldText(field) == FieldText(other)
    ensures field == other
  {
    assert FieldText(field)[0] == match field case Email => 'e' case Plan => 'p' case Note => 'n';
    assert FieldText(other)[0] == match other case Email => 'e' case Plan => 'p' case Note => 'n';
  }

  lemma CustomerShown(scenario: Scenario, customers: map<string, Customer>, id: string, field: Field)
    requires id in customers && id in scenario.customers
    ensures CustomerAt(scenario, customers, CustomerKey(id, field))
         == Shown(scenario.customers[id], customers[id], field)
  {
    forall other, otherField | CustomerKey(other, otherField) == CustomerKey(id, field)
      ensures other == id && otherField == field
    {
      CustomerKeysDiffer(other, otherField, id, field);
    }
  }

  /** The snapshot shows a customer's field as it differs from the start. */
  lemma FieldSeen(scenario: Scenario, e: Episode, id: string, field: Field)
    requires id in e.customers && id in scenario.customers
    ensures Seen(scenario, e, CustomerKey(id, field)) == Shown(scenario.customers[id], e.customers[id], field)
  {
    var key := CustomerKey(id, field);
    CustomerShown(scenario, e.customers, id, field);
    PrefixFirst(key, "shared:");
    PrefixFirst(key, "task:");
    Uncounted(Base(scenario), e.world, key);
    assert forall record | record in e.world.records :: KeyOf(e.world.records[record]) != key;
  }

  /** A successful update shows: a given plan or e-mail, unless it is the starting one, a field not given as before, and
      the version one higher; a note adds one to its count. */
  lemma CustomerWriteShows(scenario: Scenario, e: Episode, id: string, plan: Option<string>, email: Option<string>,
                           text: string)
    requires id in e.customers && id in scenario.customers
    ensures var f := Perform(scenario, e, UpdateCustomer(id, plan, email)).0;
            var start := scenario.customers[id];
            && id in f.customers && f.customers[id].version == e.customers[id].version + 1
            && Seen(scenario, f, CustomerKey(id, Plan))
                 == (if plan.None? then Seen(scenario, e, CustomerKey(id, Plan))
                     else if plan.value == start.plan then None else Some(Content(plan.value)))
            && Seen(scenario, f, CustomerKey(id, Email))
                 == (if email.None? then Seen(scenario, e, CustomerKey(id, Email))
                     else if email.value == start.email then None else Some(Content(email.value)))
    ensures var f := Perform(scenario, e, AddNote(id, text)).0;
            id in f.customers && f.customers[id].notes == e.customers[id].notes + [text]
  {
    var f := Perform(scenario, e, UpdateCustomer(id, plan, email)).0;
    assert f.customers[id] == Updated(e.customers[id], plan, email);
    FieldSeen(scenario, e, id, Plan);
    FieldSeen(scenario, e, id, Email);
    UpdateSeen(scenario, f, id, e.customers[id], plan, email);
  }

  lemma UpdateSeen(scenario: Scenario, f: Episode, id: string, row: Customer, plan: Option<string>, email: Option<string>)
    requires id in f.customers && id in scenario.customers && f.customers[id] == Updated(row, plan, email)
    ensures var start := scenario.customers[id];
            && Seen(scenario, f, CustomerKey(id, Plan))
                 == (if plan.None? then Shown(start, row, Plan)
                     else if plan.value == start.plan then None else Some(Content(plan.value)))
            && Seen(scenario, f, CustomerKey(id, Email))
                 == (if email.None? then Shown(start, row, Email)
                     else if email.value == start.email then None else Some(Content(email.value)))
  {
    FieldSeen(scenario, f, id, Plan);
    FieldSeen(scenario, f, id, Email);
  }

  predicate NamesField(customers: map<string, Customer>, key: string, id: string, field: Field) {
    id in customers && CustomerKey(id, field) == key
  }

  /** A customer's row changes the snapshot only at the fields that changed. */
  lemma CustomersElsewhere(scenario: Scenario, before: map<string, Customer>, id: string, row: Customer, key: string)
    requires before.Keys == scenario.customers.Keys && id in before
    requires forall field ::
               Shown(scenario.customers[id], row, field) != Shown(scenario.customers[id], before[id], field)
               ==> CustomerKey(id, field) != key
    ensures CustomerAt(scenario, before[id := row], key) == CustomerAt(scenario, before, key)
  {
    var after := before[id := row];
    assert after.Keys == before.Keys;
    if other, field :| NamesField(before, key, other, field) {
      CustomerShown(scenario, before, other, field);
      CustomerShown(scenario, after, other, field);
    } else {
      forall other, field | other in after
        ensures CustomerKey(other, field) != key
      {
        assert !NamesField(before, key, other, field);
      }
      forall other, field | other in before
        ensures CustomerKey(other, field) != key
      {
        assert !NamesField(before, key, other, field);
      }
    }
  }

  /** The keys a call claims: none unless it changed something. */
  function ClaimedKeys(scenario: Scenario, e: Episode, r: Request): seq<string> {
    if Perform(scenario, e, r).1.Changed? then EffectKeys(scenario, e, r) else []
  }

  lemma CustomersKept(scenario: Scenario, e: Episode, r: Request, key: string)
    requires e.customers.Keys == scenario.customers.Keys && key !in ClaimedKeys(scenario, e, r)
    ensures CustomerAt(scenario, Perform(scenario, e, r).0.customers, key) == CustomerAt(scenario, e.customers, key)
  {
    match r
    case UpdateCustomer(id, plan, email) =>
      if id in e.customers {
        var keys := EffectKeys(scenario, e, r);
        assert email.Some? ==> CustomerKey(id, Email) in keys;
        assert plan.Some? ==> CustomerKey(id, Plan) in keys;
        CustomersElsewhere(scenario, e.customers, id, Updated(e.customers[id], plan, email), key);
      }
    case AddNote(id, text) =>
      if id in e.customers {
        assert CustomerKey(id, Note) in EffectKeys(scenario, e, r);
        var row := e.customers[id];
        CustomersElsewhere(scenario, e.customers, id, row.(notes := row.notes + [text]), key);
      }
    case _ =>
  }

  lemma SharedKept(scenario: Scenario, e: Episode, r: Request, key: string)
    requires key !in ClaimedKeys(scenario, e, r)
    ensures SharedUnder(Perform(scenario, e, r).0.shared, key) == SharedUnder(e.shared, key)
  {
    SharedKeyRead(key);
    match r
    case ShareDocument(document, contact) =>
      assert SharedKey(ShareName(document, contact)) in EffectKeys(scenario, e, r);
    case _ =>
  }

  lemma SharedKeyRead(key: string)
    ensures StartsWith(key, "shared:") ==> SharedKey(key[7..]) == key
  {
    if StartsWith(key, "shared:") {
      assert key[..7] + key[7..] == key;
    }
  }

  lemma PerformChangesOnlyClaims(scenario: Scenario, e: Episode, r: Request, key: string)
    requires WorldRuns.Sound(e.world) && e.customers.Keys == scenario.customers.Keys
    requires key !in ClaimedKeys(scenario, e, r)
    ensures Seen(scenario, Perform(scenario, e, r).0, key) == Seen(scenario, e, key)
  {
    CustomersKept(scenario, e, r, key);
    SharedKept(scenario, e, r, key);
    WorldKept(scenario, e, r, key);
    SeenKept(scenario, e, Perform(scenario, e, r).0, key);
  }

  lemma WorldKept(scenario: Scenario, e: Episode, r: Request, key: string)
    requires WorldRuns.Sound(e.world) && key !in ClaimedKeys(scenario, e, r)
    ensures Observed(Base(scenario), Perform(scenario, e, r).0.world, key) == Observed(Base(scenario), e.world, key)
  {
    if r.Plain? {
      DispatchChangesOnlyItsEffect(Base(scenario), e.world, r.call, key);
    }
  }

  lemma SeenKept(scenario: Scenario, e: Episode, f: Episode, key: string)
    requires CustomerAt(scenario, f.customers, key) == CustomerAt(scenario, e.customers, key)
    requires SharedUnder(f.shared, key) == SharedUnder(e.shared, key)
    requires Observed(Base(scenario), f.world, key) == Observed(Base(scenario), e.world, key)
    ensures Seen(scenario, f, key) == Seen(scenario, e, key)
  {
  }

  predicate ClaimedBy(ledger: seq<Entry>, key: string) {
    exists entry | entry in ledger :: key in EffectsOf(entry)
  }

  lemma InvokeChangesOnlyClaims(scenario: Scenario, e: Episode, r: Request, key: string)
    requires WorldRuns.Sound(e.world) && e.customers.Keys == scenario.customers.Keys && '|' !in key
    ensures var f := Invoke(scenario, e, r).0;
            |e.world.ledger| <= |f.world.ledger| <= |e.world.ledger| + 1
            && f.world.ledger[..|e.world.ledger|] == e.world.ledger
            && (Seen(scenario, f, key) != Seen(scenario, e, key) ==>
                  |f.world.ledger| > |e.world.ledger| && key in EffectsOf(f.world.ledger[|e.world.ledger|]))
  {
    var f := Invoke(scenario, e, r).0;
    match PathOf(scenario, e, Action(r))
    case RanPath(fault) =>
      var called := e.(calls := e.calls + multiset{Action(r)});
      RanFrame(scenario, called, r, fault);
      SameShownSeen(scenario, Perform(scenario, called, r).0, f, key);
      SameShownSeen(scenario, e, called, key);
      if key in ClaimedKeys(scenario, called, r) {
        SplitKeeps(ClaimedKeys(scenario, called, r), key, '|');
      } else {
        PerformChangesOnlyClaims(scenario, called, r, key);
      }
    case _ => SameShownSeen(scenario, e, f, key);
  }

  lemma {:induction false} RunChangesOnlyClaims(scenario: Scenario, e: Episode, steps: seq<Step>, key: string)
    requires Orderly(scenario, e) && '|' !in key
    requires Seen(scenario, Played(scenario, e, steps), key) != Seen(scenario, e, key) || ClaimedBy(e.world.ledger, key)
    ensures ClaimedBy(Played(scenario, e, steps).world.ledger, key)
    decreases |steps|
  {
    if steps != [] {
      var f := Next(scenario, e, steps[0]);
      NextKeepsOrderly(scenario, e, steps[0]);
      if steps[0].Call? {
        InvokeChangesOnlyClaims(scenario, e, steps[0].request, key);
        ClaimsGrow(e.world.ledger, f.world.ledger, key);
      } else {
        SameShownSeen(scenario, e, f, key);
      }
      RunChangesOnlyClaims(scenario, f, steps[1..], key);
    }
  }

  lemma ClaimsGrow(before: seq<Entry>, after: seq<Entry>, key: string)
    requires |before| <= |after| && after[..|before|] == before
    ensures ClaimedBy(before, key) ==> ClaimedBy(after, key)
    ensures |before| < |after| && key in EffectsOf(after[|before|]) ==> ClaimedBy(after, key)
  {
    if ClaimedBy(before, key) {
      var entry :| entry in before && key in EffectsOf(entry);
      assert entry in after[..|before|];
    }
  }

  /** Ledger and snapshot agree on every run, faults and lost acknowledgements included: wherever the snapshot differs
      from the first one, the ledger claims the key, except exactly where the key itself contains the mark at which
      `effects` splits. */
  lemma DifferencesClaimedExactly(scenario: Scenario, start: Episode, steps: seq<Step>, key: string)
    requires Started(scenario, start)
    requires Seen(scenario, Played(scenario, start, steps), key) != Seen(scenario, start, key)
    ensures ClaimedBy(Played(scenario, start, steps).world.ledger, key) <==> '|' !in key
  {
    var ledger := Played(scenario, start, steps).world.ledger;
    if '|' !in key {
      RunChangesOnlyClaims(scenario, start, steps, key);
    } else {
      forall entry | entry in ledger
        ensures key !in EffectsOf(entry)
      {
        if entry.effect.Some? {
          SplitParts(entry.effect.value, '|');
        }
      }
    }
  }
}
