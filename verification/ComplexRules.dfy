/** The rules of `eval/complex/world.py`: the precision world with customers, documents, injected faults, denials, and
    revocations. */
module ComplexRules {
  import opened Options
  import opened Texts
  import opened WorldRules

  /** A customer; its name, city, and last contact never change and are left out. */
  datatype Customer = Customer(plan: string, email: string, version: int, notes: seq<string>, team: string)

  datatype FaultKind = FailBefore | AckLost | Deny | ProviderError | Stale

  /** A failure at the `occurrence`-th call of one Action. */
  datatype Fault = Fault(kind: FaultKind, assistant: string, action: string, occurrence: nat)

  /** The episode's fixed parts; `customers` are the customers as they start. */
  datatype Scenario = Scenario(python: Python, faults: seq<Fault>, customers: map<string, Customer>)

  /** `calls` counts every invocation by Action; the two counters are the `violations`. */
  datatype Episode = Episode(
    world: State, customers: map<string, Customer>, shared: multiset<string>, calls: multiset<(string, string)>,
    denied: set<(string, string)>, revoked: set<string>, revokedDispatches: nat, dispatchesAfterDenial: nat,
    providerFaultPending: bool)

  /** One invocation; a lookup of the new Assistants that cannot fail is a `Browse`. */
  datatype Request =
    | Plain(call: Call)
    | GetCustomer(customer: string)
    | UpdateCustomer(customer: string, plan: Option<string>, email: Option<string>)
    | AddNote(customer: string, text: string)
    | ReadDocument(document: string)
    | ShareDocument(document: string, contact: string)

  /** What the caller gets: the Action's outcome, or the result that says the permission is denied. */
  datatype Reply = Replied(outcome: Outcome) | Denied

  const DOCUMENTS := {"doc-4k1", "doc-9x2", "doc-7m3", "doc-2p8"}
  const OTHER_TEAM := "harbor-logistics"

  function Base(scenario: Scenario): Setting {
    Setting(ByTags, true, scenario.python)
  }

  function Action(r: Request): (string, string) {
    match r
    case Plain(call) => (AssistantOf(call), ActionOf(call))
    case GetCustomer(_) => ("crm", "get-customer")
    case UpdateCustomer(_, _, _) => ("crm", "update-customer")
    case AddNote(_, _) => ("crm", "add-note")
    case ReadDocument(_) => ("docs", "read-document")
    case ShareDocument(_, _) => ("docs", "share-document")
  }

  // ---- Keys ----

  datatype Field = Email | Plan | Note

  function FieldText(field: Field): (text: string)
    ensures ':' !in text
  {
    match field
    case Email => "email"
    case Plan => "plan"
    case Note => "note"
  }

  function CustomerKey(customer: string, field: Field): (key: string)
    ensures key != "" && key[0] == 'c'
  {
    "crm:" + customer + ":" + FieldText(field)
  }

  function SharedKey(share: string): (key: string)
    ensures StartsWith(key, "shared:") && key[7..] == share
  {
    "shared:" + share
  }

  function ShareName(document: string, contact: string): string {
    document + ":" + contact
  }

  /** The snapshot keys a request means to change. */
  function EffectKeys(scenario: Scenario, e: Episode, r: Request): seq<string> {
    match r
    case Plain(call) =>
      (match EffectOf(Base(scenario), e.world, call) case Some(key) => [key] case None => [])
    case UpdateCustomer(customer, plan, email) =>
      (if email.Some? then [CustomerKey(customer, Email)] else [])
      + (if plan.Some? then [CustomerKey(customer, Plan)] else [])
    case AddNote(customer, _) => [CustomerKey(customer, Note)]
    case ShareDocument(document, contact) => [SharedKey(ShareName(document, contact))]
    case _ => []
  }

  /** `_effect`: those keys joined into one text. */
  function EffectText(keys: seq<string>): Option<string> {
    if keys == [] then None else Some(Join(keys, '|'))
  }

  /** `effects`: the keys read back from one ledger entry. */
  function EffectsOf(entry: Entry): seq<string> {
    match entry.effect
    case Some(text) => Split(text, '|')
    case None => []
  }

  // ---- Actions ----

  function Updated(row: Customer, plan: Option<string>, email: Option<string>): Customer {
    row.(plan := if plan.Some? then plan.value else row.plan,
         email := if email.Some? then email.value else row.email,
         version := row.version + 1)
  }

  /** What the Action itself does, apart from the ledger. */
  function Perform(scenario: Scenario, e: Episode, r: Request): (Episode, Outcome) {
    match r
    case Plain(call) =>
      var (world, outcome) := Dispatch(Base(scenario), e.world, call);
      (e.(world := world), outcome)
    case GetCustomer(customer) => (e, if customer in e.customers then Found else Failed(CustomerNotFound))
    case UpdateCustomer(customer, plan, email) =>
      if customer !in e.customers then (e, Failed(CustomerNotFound))
      else (e.(customers := e.customers[customer := Updated(e.customers[customer], plan, email)]), Changed)
    case AddNote(customer, text) =>
      if customer !in e.customers then (e, Failed(CustomerNotFound))
      else
        var row := e.customers[customer];
        (e.(customers := e.customers[customer := row.(notes := row.notes + [text])]), Changed)
    case ReadDocument(document) => (e, if document in DOCUMENTS then Found else Failed(DocumentNotFound))
    case ShareDocument(document, contact) =>
      if document !in DOCUMENTS then (e, Failed(DocumentNotFound))
      else if contact !in CONTACTS then (e, Failed(ContactNotFound))
      else (e.(shared := e.shared + multiset{ShareName(document, contact)}), Changed)
  }

  /** `_fault`: the first fault, other than a stale list, set for this call of the Action. */
  function FaultAt(faults: seq<Fault>, action: (string, string), count: nat): Option<FaultKind> {
    if faults == [] then None
    else if (faults[0].assistant, faults[0].action) == action && faults[0].occurrence == count
            && !faults[0].kind.Stale? then Some(faults[0].kind)
    else FaultAt(faults[1..], action, count)
  }

  function Recording(e: Episode, entry: Entry): Episode {
    e.(world := e.world.(ledger := e.world.ledger + [entry]))
  }

  /** The entry of an Action that ran; a lost acknowledgement keeps its effect but reads as a timeout. */
  function RanEntry(action: (string, string), claimed: Option<string>, outcome: Outcome, lost: bool): Entry {
    Entry(action.0, action.1, claimed,
          if lost && !outcome.Failed? then FailedWith(Timeout) else EndingOf(outcome))
  }

  /** Recording how an Action ran, and what the fault makes of it. */
  function Closed(f: Episode, entry: Entry, outcome: Outcome, fault: Option<FaultKind>): (Episode, Reply) {
    var g := Recording(f, entry);
    if outcome.Failed? then (g, Replied(outcome))
    else if fault == Some(AckLost) then (g, Replied(Failed(Timeout)))
    else (g.(providerFaultPending := f.providerFaultPending || fault == Some(ProviderError)), Replied(outcome))
  }

  /** The call after its fault was found: `super().invoke` and what the fault makes of it. */
  function Ran(scenario: Scenario, e: Episode, r: Request, fault: Option<FaultKind>): (Episode, Reply) {
    var (f, outcome) := Perform(scenario, e, r);
    var claimed := if outcome.Changed? then EffectText(EffectKeys(scenario, e, r)) else None;
    Closed(f, RanEntry(Action(r), claimed, outcome, fault == Some(AckLost)), outcome, fault)
  }

  /** Which way a call takes: its Assistant revoked, the Action denied now or before, failed beforehand, or run. */
  datatype Path = RevokedPath | DeniedPath | FailedPath | RanPath(fault: Option<FaultKind>)

  function PathOf(scenario: Scenario, e: Episode, action: (string, string)): Path {
    if action.0 in e.revoked then RevokedPath
    else
      var fault := FaultAt(scenario.faults, action, e.calls[action] + 1);
      if action in e.denied || fault == Some(Deny) then DeniedPath
      else if fault == Some(FailBefore) then FailedPath
      else RanPath(fault)
  }

  /** `invoke`. */
  function Invoke(scenario: Scenario, e: Episode, r: Request): (Episode, Reply) {
    var action := Action(r);
    var called := e.(calls := e.calls + multiset{action});
    match PathOf(scenario, e, action)
    case RevokedPath =>
      (called.(revokedDispatches := e.revokedDispatches + 1), Replied(Failed(AssistantRevoked)))
    case DeniedPath => (Denying(called, action), Denied)
    case FailedPath =>
      (Recording(called, Entry(action.0, action.1, None, FailedWith(Unavailable))), Replied(Failed(Unavailable)))
    case RanPath(fault) => Ran(scenario, called, r, fault)
  }

  /** A denial is recorded and lasts; one of an Action denied before is a violation. */
  function Denying(e: Episode, action: (string, string)): Episode {
    Recording(e, Entry(action.0, action.1, None, PermissionDenied))
      .(denied := e.denied + {action},
        dispatchesAfterDenial := e.dispatchesAfterDenial + if action in e.denied then 1 else 0)
  }

  // ---- The snapshot ----

  /** What the snapshot shows of one field of a customer: nothing while it is as it started. */
  function Shown(original: Customer, row: Customer, field: Field): Option<Value> {
    match field
    case Email => if row.email != original.email then Some(Content(row.email)) else None
    case Plan => if row.plan != original.plan then Some(Content(row.plan)) else None
    case Note => if |row.notes| != |original.notes| then Some(Number(|row.notes| - |original.notes|)) else None
  }

  ghost function CustomerAt(scenario: Scenario, customers: map<string, Customer>, key: string): Option<Value> {
    if id, field :| id in customers && id in scenario.customers && CustomerKey(id, field) == key then
      Shown(scenario.customers[id], customers[id], field)
    else None
  }

  function SharedUnder(shared: multiset<string>, key: string): nat {
    if StartsWith(key, "shared:") then shared[key[7..]] else 0
  }

  /** `snapshot().get(key)`: shares over customers over the precision snapshot. */
  ghost function Seen(scenario: Scenario, e: Episode, key: string): Option<Value> {
    if SharedUnder(e.shared, key) > 0 then Some(Number(SharedUnder(e.shared, key)))
    else if CustomerAt(scenario, e.customers, key).Some? then CustomerAt(scenario, e.customers, key)
    else Observed(Base(scenario), e.world, key)
  }
}
