/** The loyalty and shipping Assistants of `eval/fresh2.py`: their handlers, and what every run of them keeps. */
module FreshWorld {
  import opened Options
  import opened Texts
  import WorldRules
  import WorldRuns

  datatype Service = Standard | Express
  datatype Status = LabelCreated | InTransit | Delivered | Returned | Cancelled

  datatype Shipment = Shipment(
    address: string, reference: string, service: Service, weight: nat, signature: bool, status: Status, cost: nat)

  datatype Member = Member(email: string, points: int)

  /** One invocation with schema-valid arguments. */
  datatype Call =
    | CreateShipment(address: string, weight: nat, service: Option<Service>, reference: string, signature: bool)
    | ChangeService(shipment: string, chosen: Service)
    | CancelShipment(shipment: string)
    | AddPoints(customer: string, points: nat)
    | RedeemReward(customer: string, reward: string)
    | UpdateEmail(customer: string, email: string)
    | Browse
      // one of the five lookups, which never fail
    | Elsewhere
      // a call of another Assistant, which leaves these two alone: their ids are counted apart

  datatype Code =
    | AddressNotFound
    | ReferenceInUse
    | ShipmentNotFound
    | ShipmentNotEditable
    | CustomerNotFound
    | RewardNotFound
    | InsufficientPoints
    | EmailInUse

  datatype Outcome = Done(effect: Option<string>) | Failed(code: Code)

  datatype Entry = Entry(call: Call, outcome: Outcome)

  datatype Shop = Shop(
    shipments: map<string, Shipment>, customers: map<string, Member>, grants: multiset<string>,
    redemptions: multiset<string>, serial: nat, ledger: seq<Entry>)

  /** The parts of Python left abstract: `strip` with `upper`, and with `lower`. */
  datatype Setting = Setting(upper: string -> string, lower: string -> string)

  /** The saved recipient addresses. */
  const ADDRESSES := {"adr-k2p7", "adr-m3t9", "adr-h1x4", "adr-q4m8", "adr-c6v2", "adr-b2r5"}

  const REWARDS: map<string, int> := map["rwd-a1" := 100, "rwd-b2" := 150, "rwd-c3" := 400]

  /** `_cost`, in cents: a weight tier, plus the express surcharge. */
  function Cost(weight: nat, service: Service): nat {
    (if weight <= 1000 then 490 else if weight <= 5000 then 690 else 1190) + if service.Express? then 800 else 0
  }

  /** The label price: the three tiers at their limits, never falling with the weight, and eight euros more for express
      whatever the weight. */
  lemma CostTiers(weight: nat, more: nat, service: Service)
    requires weight <= more
    ensures Cost(weight, service) <= Cost(more, service)
    ensures Cost(weight, Express) == Cost(weight, Standard) + 800
    ensures Cost(0, Standard) == Cost(1000, Standard) == 490
    ensures Cost(1001, Standard) == Cost(5000, Standard) == 690
    ensures weight > 5000 ==> Cost(weight, Standard) == 1190
  {
  }

  function GrantKey(customer: string, points: nat): string {
    "points-grant:" + customer + ":" + Decimal(points)
  }

  function RedemptionKey(customer: string, reward: string): string {
    "redemption:" + customer + ":" + reward
  }

  /** The keys of grants and of redemptions tell their parts apart, as long as no id holds the colon that joins them. */
  lemma LoyaltyKeysDiffer(customer: string, points: nat, other: string, otherPoints: nat, reward: string,
                          otherReward: string)
    requires ':' !in customer && ':' !in other
    ensures GrantKey(customer, points) == GrantKey(other, otherPoints) ==> customer == other && points == otherPoints
    ensures RedemptionKey(customer, reward) == RedemptionKey(other, otherReward) ==>
              customer == other && reward == otherReward
  {
    assert GrantKey(customer, points)[13..] == customer + [':'] + Decimal(points);
    assert GrantKey(other, otherPoints)[13..] == other + [':'] + Decimal(otherPoints);
    assert RedemptionKey(customer, reward)[11..] == customer + [':'] + reward;
    assert RedemptionKey(other, otherReward)[11..] == other + [':'] + otherReward;
    if GrantKey(customer, points) == GrantKey(other, otherPoints) {
      FirstPartUnique(customer, other, Decimal(points), Decimal(otherPoints), ':');
      DecimalInjective(points, otherPoints);
    }
    if RedemptionKey(customer, reward) == RedemptionKey(other, otherReward) {
      FirstPartUnique(customer, other, reward, otherReward, ':');
    }
  }

  // ---- Actions ----

  predicate InUse(shipments: map<string, Shipment>, reference: string) {
    exists id | id in shipments :: shipments[id].reference == reference && !shipments[id].status.Cancelled?
  }

  predicate Taken(customers: map<string, Member>, customer: string, email: string) {
    exists other | other in customers :: other != customer && customers[other].email == email
  }

  /** `_editable`. */
  function Uneditable(shop: Shop, shipment: string): Option<Code> {
    if shipment !in shop.shipments then Some(ShipmentNotFound)
    else if !shop.shipments[shipment].status.LabelCreated? then Some(ShipmentNotEditable)
    else None
  }

  /** The first check a call fails, in the order of the handlers. */
  function Failure(setting: Setting, shop: Shop, call: Call): Option<Code> {
    match call
    case CreateShipment(address, _, _, reference, _) =>
      if address !in ADDRESSES then Some(AddressNotFound)
      else if setting.upper(reference) != "" && InUse(shop.shipments, setting.upper(reference)) then Some(ReferenceInUse)
      else None
    case ChangeService(shipment, _) => Uneditable(shop, shipment)
    case CancelShipment(shipment) => Uneditable(shop, shipment)
    case AddPoints(customer, _) => if customer in shop.customers then None else Some(CustomerNotFound)
    case RedeemReward(customer, reward) =>
      if customer !in shop.customers then Some(CustomerNotFound)
      else if reward !in REWARDS then Some(RewardNotFound)
      else if shop.customers[customer].points < REWARDS[reward] then Some(InsufficientPoints)
      else None
    case UpdateEmail(customer, email) =>
      if customer !in shop.customers then Some(CustomerNotFound)
      else if Taken(shop.customers, customer, setting.lower(email)) then Some(EmailInUse)
      else None
    case _ => None
  }

  predicate Succeeds(setting: Setting, shop: Shop, call: Call) {
    Failure(setting, shop, call).None?
  }

  function Earned(shop: Shop, customer: string, points: int): map<string, Member>
    requires customer in shop.customers
  {
    shop.customers[customer := shop.customers[customer].(points := shop.customers[customer].points + points)]
  }

  function NewShipment(setting: Setting, call: Call): Shipment
    requires call.CreateShipment?
  {
    var service := if call.service.Some? then call.service.value else Standard;
    Shipment(call.address, setting.upper(call.reference), service, call.weight, call.signature, LabelCreated,
             Cost(call.weight, service))
  }

  /** A successful call's change to everything but the ledger, and its effect. */
  function Performed(setting: Setting, shop: Shop, call: Call): (Shop, Option<string>)
    requires Succeeds(setting, shop, call)
  {
    match call
    case CreateShipment(_, _, _, _, _) =>
      var id := WorldRules.NewId("shp", shop.serial + 1);
      (shop.(shipments := shop.shipments[id := NewShipment(setting, call)], serial := shop.serial + 1),
       Some("shipment:" + id))
    case ChangeService(id, service) =>
      var item := shop.shipments[id];
      (shop.(shipments := shop.shipments[id := item.(service := service, cost := Cost(item.weight, service))]),
       Some("shipment:" + id + ":service"))
    case CancelShipment(id) =>
      (shop.(shipments := shop.shipments[id := shop.shipments[id].(status := Cancelled)]),
       Some("shipment:" + id + ":status"))
    case AddPoints(customer, points) =>
      (shop.(customers := Earned(shop, customer, points), grants := shop.grants + multiset{GrantKey(customer, points)}),
       Some(GrantKey(customer, points)))
    case RedeemReward(customer, reward) =>
      (shop.(customers := Earned(shop, customer, -REWARDS[reward]),
             redemptions := shop.redemptions + multiset{RedemptionKey(customer, reward)}),
       Some(RedemptionKey(customer, reward)))
    case UpdateEmail(customer, email) =>
      (shop.(customers := shop.customers[customer := shop.customers[customer].(email := setting.lower(email))]),
       Some("customer:" + customer + ":email"))
    case Browse => (shop, None)
    case Elsewhere => (shop, None)
  }

  /** `_dispatch`: a failed call changes nothing. */
  function Dispatched(setting: Setting, shop: Shop, call: Call): (Shop, Outcome) {
    match Failure(setting, shop, call)
    case Some(code) => (shop, Failed(code))
    case None =>
      var (after, effect) := Performed(setting, shop, call);
      (after, Done(effect))
  }

  /** Whatever the outcome, one entry more. */
  function Invoked(setting: Setting, shop: Shop, call: Call): Shop {
    var (after, outcome) := Dispatched(setting, shop, call);
    after.(ledger := shop.ledger + [Entry(call, outcome)])
  }

  function After(setting: Setting, shop: Shop, calls: seq<Call>): Shop
    decreases |calls|
  {
    if calls == [] then shop else After(setting, Invoked(setting, shop, calls[0]), calls[1..])
  }

  // ---- What every run keeps ----

  /** The points a ledger gave to and took from a customer. */
  function Granted(ledger: seq<Entry>, customer: string): int {
    if ledger == [] then 0
    else
      var last := ledger[|ledger| - 1];
      Granted(ledger[..|ledger| - 1], customer)
      + if last.outcome.Done? && last.call.AddPoints? && last.call.customer == customer then last.call.points else 0
  }

  function Spent(ledger: seq<Entry>, customer: string): int {
    if ledger == [] then 0
    else
      var last := ledger[|ledger| - 1];
      Spent(ledger[..|ledger| - 1], customer)
      + if last.outcome.Done? && last.call.RedeemReward? && last.call.customer == customer && last.call.reward in REWARDS
        then REWARDS[last.call.reward] else 0
  }

  /** How many entries claim a key with an Action of that kind. */
  function Claims(ledger: seq<Entry>, key: string): nat {
    if ledger == [] then 0
    else Claims(ledger[..|ledger| - 1], key) + One(ledger[|ledger| - 1].outcome == Done(Some(key)))
  }

  predicate EmailsUnique(customers: map<string, Member>) {
    forall i, j | i in customers && j in customers && i != j :: customers[i].email != customers[j].email
  }

  predicate NeverNegative(customers: map<string, Member>) {
    forall id | id in customers :: customers[id].points >= 0
  }

  predicate Active(shipments: map<string, Shipment>, id: string) {
    id in shipments && shipments[id].reference != "" && !shipments[id].status.Cancelled?
  }

  ghost predicate ReferencesUnique(shipments: map<string, Shipment>) {
    forall i, j | Active(shipments, i) && Active(shipments, j) && i != j ::
      shipments[i].reference != shipments[j].reference
  }

  predicate CostsRight(shipments: map<string, Shipment>) {
    forall id | id in shipments :: shipments[id].cost == Cost(shipments[id].weight, shipments[id].service)
  }

  ghost predicate IdsAhead(shop: Shop) {
    forall n: nat | n > shop.serial :: WorldRules.NewId("shp", n) !in shop.shipments
  }

  ghost predicate Sound(shop: Shop) {
    EmailsUnique(shop.customers) && NeverNegative(shop.customers) && ReferencesUnique(shop.shipments)
    && CostsRight(shop.shipments) && IdsAhead(shop)
  }

  ghost predicate Initial(shop: Shop) {
    Sound(shop) && shop.grants == multiset{} && shop.redemptions == multiset{} && shop.ledger == []
  }

  /** A call on a known item is refused exactly when carrying it out would break what every run keeps: a reference or an
      e-mail used twice, a negative balance, or a change to a shipment past its label. */
  lemma RefusalsExact(setting: Setting, shop: Shop, call: Call)
    requires Sound(shop)
    ensures match call
            case CreateShipment(address, _, _, reference, _) =>
              (Failure(setting, shop, call) == Some(AddressNotFound) <==> address !in ADDRESSES)
              && (address in ADDRESSES ==>
                    (Failure(setting, shop, call) == Some(Code.ReferenceInUse) <==>
                       !ReferencesUnique(shop.shipments[WorldRules.NewId("shp", shop.serial + 1)
                                                          := NewShipment(setting, call)])))
            case ChangeService(id, _) =>
              (Failure(setting, shop, call) == Some(ShipmentNotFound) <==> id !in shop.shipments)
              && (id in shop.shipments ==>
                    Failure(setting, shop, call)
                      == if shop.shipments[id].status == LabelCreated then None else Some(ShipmentNotEditable))
            case CancelShipment(id) =>
              (Failure(setting, shop, call) == Some(ShipmentNotFound) <==> id !in shop.shipments)
              && (id in shop.shipments ==>
                    Failure(setting, shop, call)
                      == if shop.shipments[id].status == LabelCreated then None else Some(ShipmentNotEditable))
            case AddPoints(customer, _) =>
              Failure(setting, shop, call) == if customer in shop.customers then None else Some(CustomerNotFound)
            case RedeemReward(customer, reward) =>
              (Failure(setting, shop, call) == Some(CustomerNotFound) <==> customer !in shop.customers)
              && (customer in shop.customers ==>
                    (Failure(setting, shop, call) == Some(RewardNotFound) <==> reward !in REWARDS)
                    && (reward in REWARDS ==>
                          (Failure(setting, shop, call) == Some(InsufficientPoints) <==>
                             !NeverNegative(Earned(shop, customer, -REWARDS[reward])))))
            case UpdateEmail(customer, email) =>
              (Failure(setting, shop, call) == Some(CustomerNotFound) <==> customer !in shop.customers)
              && (customer in shop.customers ==>
                    (Failure(setting, shop, call) == Some(Code.EmailInUse) <==>
                       !EmailsUnique(shop.customers[customer
                                                      := shop.customers[customer].(email := setting.lower(email))])))
            case _ => Failure(setting, shop, call).None?
  {
    match call
    case CreateShipment(address, _, _, _, _) =>
      if address in ADDRESSES {
        ReferenceRefused(setting, shop, call);
      }
    case RedeemReward(customer, reward) =>
      if customer in shop.customers && reward in REWARDS {
        assert Earned(shop, customer, -REWARDS[reward])[customer].points
            == shop.customers[customer].points - REWARDS[reward];
      }
    case UpdateEmail(customer, email) =>
      if customer in shop.customers {
        EmailRefused(setting, shop, customer, email);
      }
    case _ =>
  }

  lemma ReferenceRefused(setting: Setting, shop: Shop, call: Call)
    requires Sound(shop) && call.CreateShipment? && call.address in ADDRESSES
    ensures Failure(setting, shop, call) == Some(Code.ReferenceInUse) <==>
              !ReferencesUnique(shop.shipments[WorldRules.NewId("shp", shop.serial + 1) := NewShipment(setting, call)])
  {
    var id := WorldRules.NewId("shp", shop.serial + 1);
    var after := shop.shipments[id := NewShipment(setting, call)];
    var upper := setting.upper(call.reference);
    if Failure(setting, shop, call).Some? {
      var other :| other in shop.shipments && shop.shipments[other].reference == upper
                   && !shop.shipments[other].status.Cancelled?;
      assert Active(after, id) && Active(after, other) && other != id;
    } else {
      CreatedKeepsShipments(setting, shop, call);
    }
  }

  lemma EmailRefused(setting: Setting, shop: Shop, customer: string, email: string)
    requires Sound(shop) && customer in shop.customers
    ensures Failure(setting, shop, UpdateEmail(customer, email)) == Some(Code.EmailInUse) <==>
              !EmailsUnique(shop.customers[customer := shop.customers[customer].(email := setting.lower(email))])
  {
    var after := shop.customers[customer := shop.customers[customer].(email := setting.lower(email))];
    if Taken(shop.customers, customer, setting.lower(email)) {
      var other :| other in shop.customers && other != customer && shop.customers[other].email == setting.lower(email);
      assert after[other].email == after[customer].email;
    } else {
      PerformedKeepsCustomers(setting, shop, UpdateEmail(customer, email));
    }
  }

  /** What a successful call leaves: the one item it names as asked, everything else as it was, and one effect. */
  lemma CallShows(setting: Setting, shop: Shop, call: Call, id: string)
    requires Succeeds(setting, shop, call)
    ensures var (after, effect) := Performed(setting, shop, call);
            match call
            case CreateShipment(address, weight, service, reference, signature) =>
              var added := WorldRules.NewId("shp", shop.serial + 1);
              && after.shipments.Keys == shop.shipments.Keys + {added}
              && (id != added && id in shop.shipments ==> after.shipments[id] == shop.shipments[id])
              && after.shipments[added].address == address && after.shipments[added].weight == weight
              && after.shipments[added].service == (if service == Some(Express) then Express else Standard)
              && after.shipments[added].reference == setting.upper(reference)
              && after.shipments[added].signature == signature
              && after.shipments[added].status == LabelCreated
              && after.serial == shop.serial + 1 && effect == Some("shipment:" + added)
            case ChangeService(shipment, chosen) =>
              && after.shipments.Keys == shop.shipments.Keys
              && (id in shop.shipments ==>
                    after.shipments[id] == if id == shipment then
                                             shop.shipments[id].(service := chosen,
                                                                 cost := Cost(shop.shipments[id].weight, chosen))
                                           else shop.shipments[id])
              && effect == Some("shipment:" + shipment + ":service")
            case CancelShipment(shipment) =>
              && after.shipments.Keys == shop.shipments.Keys
              && (id in shop.shipments ==>
                    after.shipments[id] == if id == shipment then shop.shipments[id].(status := Cancelled)
                                           else shop.shipments[id])
              && effect == Some("shipment:" + shipment + ":status")
            case AddPoints(customer, points) =>
              && (id in shop.customers ==>
                    id in after.customers && after.customers[id].email == shop.customers[id].email
                    && after.customers[id].points
                         == shop.customers[id].points + if id == customer then points else 0)
              && effect == Some("points-grant:" + customer + ":" + Decimal(points))
            case RedeemReward(customer, reward) =>
              && (id in shop.customers ==>
                    id in after.customers && after.customers[id].email == shop.customers[id].email
                    && after.customers[id].points
                         == shop.customers[id].points - if id == customer then REWARDS[reward] else 0)
              && effect == Some("redemption:" + customer + ":" + reward)
            case UpdateEmail(customer, email) =>
              && (id in shop.customers ==>
                    id in after.customers && after.customers[id].points == shop.customers[id].points
                    && after.customers[id].email == if id == customer then setting.lower(email)
                                                    else shop.customers[id].email)
              && effect == Some("customer:" + customer + ":email")
            case _ => after == shop && effect == None
    ensures var after := Performed(setting, shop, call).0;
            && (!call.CreateShipment? && !call.ChangeService? && !call.CancelShipment? ==>
                  after.shipments == shop.shipments && after.serial == shop.serial)
            && (!call.AddPoints? && !call.RedeemReward? && !call.UpdateEmail? ==> after.customers == shop.customers)
            && (!call.AddPoints? ==> after.grants == shop.grants)
            && (!call.RedeemReward? ==> after.redemptions == shop.redemptions)
  {
  }

  lemma PerformedKeepsShipments(setting: Setting, shop: Shop, call: Call)
    requires Sound(shop) && Succeeds(setting, shop, call)
    ensures var after := Performed(setting, shop, call).0;
            ReferencesUnique(after.shipments) && CostsRight(after.shipments) && IdsAhead(after)
  {
    match call
    case CreateShipment(_, _, _, _, _) => CreatedKeepsShipments(setting, shop, call);
    case ChangeService(id, _) => assert Performed(setting, shop, call).0.serial == shop.serial;
    case CancelShipment(id) => assert Performed(setting, shop, call).0.serial == shop.serial;
    case _ =>
  }

  lemma CreatedKeepsShipments(setting: Setting, shop: Shop, call: Call)
    requires Sound(shop) && call.CreateShipment? && Succeeds(setting, shop, call)
    ensures var after := Performed(setting, shop, call).0;
            ReferencesUnique(after.shipments) && CostsRight(after.shipments) && IdsAhead(after)
  {
    WorldRuns.FreshId("shp", shop.serial);
    CreatedKeepsReferences(setting, shop, call);
  }

  lemma CreatedKeepsReferences(setting: Setting, shop: Shop, call: Call)
    requires ReferencesUnique(shop.shipments) && call.CreateShipment? && Succeeds(setting, shop, call)
    ensures ReferencesUnique(Performed(setting, shop, call).0.shipments)
  {
    var id := WorldRules.NewId("shp", shop.serial + 1);
    var after := Performed(setting, shop, call).0;
    forall other | Active(after.shipments, other) && Active(after.shipments, id) && other != id
      ensures after.shipments[other].reference != after.shipments[id].reference
    {
      assert Active(shop.shipments, other) && !InUse(shop.shipments, setting.upper(call.reference));
    }
    forall i, j | Active(after.shipments, i) && Active(after.shipments, j) && i != j && i != id && j != id
      ensures after.shipments[i].reference != after.shipments[j].reference
    {
      assert Active(shop.shipments, i) && Active(shop.shipments, j);
    }
  }

  lemma PerformedKeepsCustomers(setting: Setting, shop: Shop, call: Call)
    requires Sound(shop) && Succeeds(setting, shop, call)
    ensures var after := Performed(setting, shop, call).0;
            EmailsUnique(after.customers) && NeverNegative(after.customers)
  {
    match call
    case UpdateEmail(customer, email) =>
      assert !Taken(shop.customers, customer, setting.lower(email));
    case AddPoints(_, _) =>
    case RedeemReward(_, _) =>
    case _ =>
  }

  lemma InvokedKeepsSound(setting: Setting, shop: Shop, call: Call)
    requires Sound(shop)
    ensures Sound(Invoked(setting, shop, call))
  {
    if Succeeds(setting, shop, call) {
      PerformedKeepsShipments(setting, shop, call);
      PerformedKeepsCustomers(setting, shop, call);
    }
  }

  lemma {:induction false} RunKeepsSound(setting: Setting, shop: Shop, calls: seq<Call>)
    requires Sound(shop)
    ensures Sound(After(setting, shop, calls))
    decreases |calls|
  {
    if calls != [] {
      InvokedKeepsSound(setting, shop, calls[0]);
      RunKeepsSound(setting, Invoked(setting, shop, calls[0]), calls[1..]);
    }
  }

  /** Over every run: shipment costs are right, active references and e-mails unique, and no balance negative. */
  lemma ShopStaysSound(setting: Setting, start: Shop, calls: seq<Call>)
    requires Initial(start)
    ensures var shop := After(setting, start, calls);
            CostsRight(shop.shipments) && ReferencesUnique(shop.shipments)
            && EmailsUnique(shop.customers) && NeverNegative(shop.customers)
  {
    RunKeepsSound(setting, start, calls);
  }

  // ---- Loyalty conservation ----

  /** A customer's points, less what the ledger granted, plus what it took. */
  function Opening(shop: Shop, customer: string): int
    requires customer in shop.customers
  {
    shop.customers[customer].points - Granted(shop.ledger, customer) + Spent(shop.ledger, customer)
  }

  lemma InvokedKeepsOpening(setting: Setting, shop: Shop, call: Call, customer: string)
    requires customer in shop.customers
    ensures var after := Invoked(setting, shop, call);
            after.customers.Keys == shop.customers.Keys && Opening(after, customer) == Opening(shop, customer)
  {
    var after := Invoked(setting, shop, call);
    assert after.ledger[..|after.ledger| - 1] == shop.ledger;
    match call
    case AddPoints(_, _) =>
    case RedeemReward(_, _) =>
    case UpdateEmail(_, _) =>
    case _ =>
  }

  lemma {:induction false} RunKeepsOpening(setting: Setting, shop: Shop, calls: seq<Call>, customer: string)
    requires customer in shop.customers
    ensures var after := After(setting, shop, calls);
            after.customers.Keys == shop.customers.Keys && Opening(after, customer) == Opening(shop, customer)
    decreases |calls|
  {
    if calls != [] {
      InvokedKeepsOpening(setting, shop, calls[0], customer);
      RunKeepsOpening(setting, Invoked(setting, shop, calls[0]), calls[1..], customer);
    }
  }

  /** Loyalty conservation: on every run a balance is what it started at, plus the points granted, less the rewards
      redeemed, and is never negative. */
  lemma PointsConserved(setting: Setting, start: Shop, calls: seq<Call>, customer: string)
    requires Initial(start) && customer in start.customers
    ensures var shop := After(setting, start, calls);
            customer in shop.customers
            && shop.customers[customer].points
                 == start.customers[customer].points + Granted(shop.ledger, customer) - Spent(shop.ledger, customer)
            && Spent(shop.ledger, customer) <= start.customers[customer].points + Granted(shop.ledger, customer)
  {
    RunKeepsOpening(setting, start, calls, customer);
    RunKeepsSound(setting, start, calls);
  }

  // ---- The counters ----

  /** The two counters agree with the ledger at a key. */
  predicate CountersAgree(shop: Shop, key: string) {
    && (StartsWith(key, "points-grant:") ==> shop.grants[key] == Claims(shop.ledger, key))
    && (StartsWith(key, "redemption:") ==> shop.redemptions[key] == Claims(shop.ledger, key))
  }

  lemma GrantKeyStarts(customer: string, points: nat)
    ensures StartsWith(GrantKey(customer, points), "points-grant:")
    ensures !StartsWith(GrantKey(customer, points), "redemption:")
  {
    PrefixFirst(GrantKey(customer, points), "points-grant:");
    PrefixFirst(GrantKey(customer, points), "redemption:");
  }

  lemma RedemptionKeyStarts(customer: string, reward: string)
    ensures StartsWith(RedemptionKey(customer, reward), "redemption:")
    ensures !StartsWith(RedemptionKey(customer, reward), "points-grant:")
  {
    PrefixFirst(RedemptionKey(customer, reward), "points-grant:");
    PrefixFirst(RedemptionKey(customer, reward), "redemption:");
  }

  /** The other effects begin with neither prefix. */
  lemma OtherEffects(setting: Setting, shop: Shop, call: Call)
    requires Succeeds(setting, shop, call) && !call.AddPoints? && !call.RedeemReward?
    ensures var effect := Performed(setting, shop, call).1;
            effect.Some? ==> !StartsWith(effect.value, "points-grant:") && !StartsWith(effect.value, "redemption:")
  {
    var effect := Performed(setting, shop, call).1;
    if effect.Some? {
      assert effect.value[0] == 's' || effect.value[0] == 'c';
      PrefixFirst(effect.value, "points-grant:");
      PrefixFirst(effect.value, "redemption:");
    }
  }

  lemma InvokedKeepsCounters(setting: Setting, shop: Shop, call: Call, key: string)
    requires CountersAgree(shop, key)
    ensures CountersAgree(Invoked(setting, shop, call), key)
  {
    var after := Invoked(setting, shop, call);
    assert after.ledger[..|after.ledger| - 1] == shop.ledger;
    if Succeeds(setting, shop, call) {
      match call
      case AddPoints(customer, points) => GrantKeyStarts(customer, points);
      case RedeemReward(customer, reward) => RedemptionKeyStarts(customer, reward);
      case _ => OtherEffects(setting, shop, call);
    }
  }

  lemma {:induction false} RunKeepsCounters(setting: Setting, shop: Shop, calls: seq<Call>, key: string)
    requires CountersAgree(shop, key)
    ensures CountersAgree(After(setting, shop, calls), key)
    decreases |calls|
  {
    if calls != [] {
      InvokedKeepsCounters(setting, shop, calls[0], key);
      RunKeepsCounters(setting, Invoked(setting, shop, calls[0]), calls[1..], key);
    }
  }

  /** On every run the grant and redemption counters equal the numbers of effects the ledger recorded. */
  lemma CountersMatchLedger(setting: Setting, start: Shop, calls: seq<Call>, key: string)
    requires Initial(start)
    ensures var shop := After(setting, start, calls);
            && (StartsWith(key, "points-grant:") ==> shop.grants[key] == Claims(shop.ledger, key))
            && (StartsWith(key, "redemption:") ==> shop.redemptions[key] == Claims(shop.ledger, key))
  {
    RunKeepsCounters(setting, start, calls, key);
  }

  // ---- The starting data ----

  /** A starting shipment, priced as the constructor prices it. */
  function Parcel(address: string, reference: string, service: Service, weight: nat, signature: bool, status: Status)
    : Shipment
  {
    Shipment(address, reference, service, weight, signature, status, Cost(weight, service))
  }

  const SHIPMENTS := map[
    "shp-7c1e" := Parcel("adr-q4m8", "ORD-2268", Standard, 900, false, Delivered),
    "shp-2a9d" := Parcel("adr-c6v2", "ORD-2271", Express, 2400, true, Delivered),
    "shp-5e3b" := Parcel("adr-h1x4", "ORD-2279", Standard, 1500, false, Returned),
    "shp-9f4c" := Parcel("adr-b2r5", "ORD-2283", Standard, 5600, false, InTransit),
    "shp-1d8a" := Parcel("adr-m3t9", "ORD-2285", Express, 700, false, InTransit),
    "shp-6b2f" := Parcel("adr-q4m8", "ORD-2287", Standard, 1100, false, LabelCreated),
    "shp-3e7d" := Parcel("adr-k2p7", "ORD-2289", Standard, 400, false, LabelCreated)]

  const CUSTOMERS := map[
    "cus-41ad" := Member("leila.haddad@example.net", 140),
    "cus-82be" := Member("omar.h@example.com", 75),
    "cus-17cf" := Member("d.okafor@example.com", 310),
    "cus-63d0" := Member("daniel.weber@example.org", 95),
    "cus-95e1" := Member("tomas.rivera@example.es", 520),
    "cus-28f2" := Member("sophie.laurent@example.fr", 230),
    "cus-70a3" := Member("s.martin@example.com", 180),
    "cus-54b4" := Member("marta.k@example.pl", 60),
    "cus-39c5" := Member("kenji.w@example.jp", 410)]

  const START := Shop(SHIPMENTS, CUSTOMERS, multiset{}, multiset{}, 0, [])

  /** Two letters of its reference tell every starting shipment apart, and no id is one the world would give. */
  lemma ShipmentTold(id: string)
    requires id in SHIPMENTS
    ensures |id| == 8 && id[4] != 'n' && |SHIPMENTS[id].reference| == 8
    ensures id == match (SHIPMENTS[id].reference[6], SHIPMENTS[id].reference[7])
                  case ('6', _) => "shp-7c1e"
                  case ('7', '1') => "shp-2a9d"
                  case ('7', _) => "shp-5e3b"
                  case (_, '3') => "shp-9f4c"
                  case (_, '5') => "shp-1d8a"
                  case (_, '7') => "shp-6b2f"
                  case (_, _) => "shp-3e7d"
    ensures SHIPMENTS[id].cost == Cost(SHIPMENTS[id].weight, SHIPMENTS[id].service)
  {
  }

  /** The first letter and the length of its e-mail tell every starting customer apart. */
  lemma CustomerTold(id: string)
    requires id in CUSTOMERS
    ensures |CUSTOMERS[id].email| > 0 && CUSTOMERS[id].points >= 0
    ensures id == match (CUSTOMERS[id].email[0], |CUSTOMERS[id].email|)
                  case ('l', _) => "cus-41ad"
                  case ('o', _) => "cus-82be"
                  case ('d', 20) => "cus-17cf"
                  case ('d', _) => "cus-63d0"
                  case ('t', _) => "cus-95e1"
                  case ('s', 25) => "cus-28f2"
                  case ('s', _) => "cus-70a3"
                  case ('m', _) => "cus-54b4"
                  case (_, _) => "cus-39c5"
  {
  }

  lemma NoStartIdIsNew(n: nat)
    ensures WorldRules.NewId("shp", n) !in SHIPMENTS
  {
    var id := WorldRules.NewId("shp", n);
    assert id[4] == ("shp" + "-new-")[4] == 'n';
    if id in SHIPMENTS {
      ShipmentTold(id);
    }
  }

  /** The starting data meet what every run needs of them. */
  lemma StartIsInitial()
    ensures Initial(START)
  {
    forall id | id in SHIPMENTS
      ensures SHIPMENTS[id].cost == Cost(SHIPMENTS[id].weight, SHIPMENTS[id].service)
    {
      ShipmentTold(id);
    }
    forall i, j | Active(SHIPMENTS, i) && Active(SHIPMENTS, j) && i != j
      ensures SHIPMENTS[i].reference != SHIPMENTS[j].reference
    {
      ShipmentTold(i);
      ShipmentTold(j);
    }
    forall i, j | i in CUSTOMERS && j in CUSTOMERS && i != j
      ensures CUSTOMERS[i].email != CUSTOMERS[j].email
    {
      CustomerTold(i);
      CustomerTold(j);
    }
    forall id | id in CUSTOMERS
      ensures CUSTOMERS[id].points >= 0
    {
      CustomerTold(id);
    }
    forall n: nat | n > 0
      ensures WorldRules.NewId("shp", n) !in SHIPMENTS
    {
      NoStartIdIsNew(n);
    }
  }

  // ---- The class ----

  class FreshWorld {
    const setting: Setting
    var shipments: map<string, Shipment>
    var customers: map<string, Member>
    var grants: multiset<string>
    var redemptions: multiset<string>
    var serial: nat
    var ledger: seq<Entry>

    function Contents(): Shop
      reads this
    {
      Shop(shipments, customers, grants, redemptions, serial, ledger)
    }

    ghost predicate Valid()
      reads this
    {
      Sound(Contents())
    }

    constructor (setting: Setting)
      ensures Valid() && this.setting == setting && Contents() == START
    {
      this.setting, shipments, customers := setting, SHIPMENTS, CUSTOMERS;
      grants, redemptions, serial, ledger := multiset{}, multiset{}, 0, [];
      new;
      StartIsInitial();
    }

    method ReferenceInUse(reference: string) returns (found: bool)
      ensures found == InUse(shipments, reference)
    {
      var rest := shipments.Keys;
      while rest != {}
        invariant rest <= shipments.Keys
        invariant forall id | id in shipments && id !in rest ::
                    shipments[id].reference != reference || shipments[id].status.Cancelled?
        decreases |rest|
      {
        var id :| id in rest;
        if shipments[id].reference == reference && !shipments[id].status.Cancelled? {
          return true;
        }
        rest := rest - {id};
      }
      return false;
    }

    method EmailInUse(customer: string, email: string) returns (found: bool)
      ensures found == Taken(customers, customer, email)
    {
      var rest := customers.Keys;
      while rest != {}
        invariant rest <= customers.Keys
        invariant forall other | other in customers && other !in rest ::
                    other == customer || customers[other].email != email
        decreases |rest|
      {
        var other :| other in rest;
        if other != customer && customers[other].email == email {
          return true;
        }
        rest := rest - {other};
      }
      return false;
    }

    /** `_editable`: the failure, if any. */
    method CheckEditable(shipment: string) returns (failure: Option<Code>)
      ensures failure == Uneditable(Contents(), shipment)
    {
      if shipment !in shipments {
        return Some(ShipmentNotFound);
      }
      if !shipments[shipment].status.LabelCreated? {
        return Some(ShipmentNotEditable);
      }
      return None;
    }

    /** The shipping handlers. */
    method Ship(call: Call) returns (outcome: Outcome)
      requires call.CreateShipment? || call.ChangeService? || call.CancelShipment?
      modifies `shipments, `serial
      ensures (Contents(), outcome) == Dispatched(setting, old(Contents()), call)
    {
      match call
      case CreateShipment(address, weight, service, reference, signature) =>
        if address !in ADDRESSES {
          return Failed(AddressNotFound);
        }
        var upper := setting.upper(reference);
        if upper != "" {
          var used := ReferenceInUse(upper);
          if used {
            return Failed(Code.ReferenceInUse);
          }
        }
        serial := serial + 1;
        var id := WorldRules.NewId("shp", serial);
        var chosen := if service.Some? then service.value else Standard;
        shipments := shipments[id := Shipment(address, upper, chosen, weight, signature, LabelCreated,
                                              Cost(weight, chosen))];
        return Done(Some("shipment:" + id));
      case ChangeService(id, chosen) =>
        var failure := CheckEditable(id);
        if failure.Some? {
          return Failed(failure.value);
        }
        var item := shipments[id];
        shipments := shipments[id := item.(service := chosen, cost := Cost(item.weight, chosen))];
        return Done(Some("shipment:" + id + ":service"));
      case CancelShipment(id) =>
        var failure := CheckEditable(id);
        if failure.Some? {
          return Failed(failure.value);
        }
        shipments := shipments[id := shipments[id].(status := Cancelled)];
        return Done(Some("shipment:" + id + ":status"));
    }

    /** The loyalty handlers. */
    method Reward(call: Call) returns (outcome: Outcome)
      requires call.AddPoints? || call.RedeemReward? || call.UpdateEmail?
      modifies `customers, `grants, `redemptions
      ensures (Contents(), outcome) == Dispatched(setting, old(Contents()), call)
    {
      if call.customer !in customers {
        return Failed(CustomerNotFound);
      }
      var row := customers[call.customer];
      match call
      case AddPoints(customer, points) =>
        customers := customers[customer := row.(points := row.points + points)];
        grants := grants + multiset{GrantKey(customer, points)};
        return Done(Some(GrantKey(customer, points)));
      case RedeemReward(customer, reward) =>
        if reward !in REWARDS {
          return Failed(RewardNotFound);
        }
        if row.points < REWARDS[reward] {
          return Failed(InsufficientPoints);
        }
        customers := customers[customer := row.(points := row.points - REWARDS[reward])];
        redemptions := redemptions + multiset{RedemptionKey(customer, reward)};
        return Done(Some(RedemptionKey(customer, reward)));
      case UpdateEmail(customer, email) =>
        var lower := setting.lower(email);
        var used := EmailInUse(customer, lower);
        if used {
          return Failed(Code.EmailInUse);
        }
        customers := customers[customer := row.(email := lower)];
        return Done(Some("customer:" + customer + ":email"));
    }

    /** `invoke`: one entry, whatever the outcome. */
    method Invoke(call: Call) returns (outcome: Outcome)
      requires Valid()
      modifies this
      ensures Valid() && Contents() == Invoked(setting, old(Contents()), call)
      ensures outcome == Dispatched(setting, old(Contents()), call).1
    {
      InvokedKeepsSound(setting, Contents(), call);
      if call.CreateShipment? || call.ChangeService? || call.CancelShipment? {
        outcome := Ship(call);
      } else if call.Browse? || call.Elsewhere? {
        outcome := Done(None);
      } else {
        outcome := Reward(call);
      }
      ledger := ledger + [Entry(call, outcome)];
    }
  }
}
