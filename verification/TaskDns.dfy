/** The DNS of the task-shaped world in `eval/large_api_arms.py`: one Action that creates or changes a record, over the
    record list of `eval/large_api.py`. */
module TaskDns {
  import opened Options
  import opened Texts
  import opened WorldRules
  import World
  import WorldRuns

  const EDGE_ZONES := map["zn-1a2b" := "example.com", "zn-3c4d" := "example.org"]

  /** The DNS part of the world; no other Action of the task contract writes it. */
  datatype Edge = Edge(records: map<string, Record>, next: nat, effects: seq<Option<string>>)

  datatype SetCall = SetCall(domain: string, name: string, kind: Kind, content: string)

  /** What identifies a record: its zone, name, and type. */
  datatype Place = Place(zone: string, name: string, kind: Kind)

  // ---- Names ----

  predicate IsUpper(c: char) {
    'A' <= c <= 'Z'
  }

  function LowerChar(c: char): (d: char)
    ensures !IsUpper(d) && (!IsUpper(c) ==> d == c)
  {
    if IsUpper(c) then ((c as int) - ('A' as int) + ('a' as int)) as char else c
  }

  /** `str.lower` of ASCII text. */
  function Lower(s: string): string {
    if s == [] then [] else [LowerChar(s[0])] + Lower(s[1..])
  }

  predicate IsLower(s: string) {
    forall c | c in s :: !IsUpper(c)
  }

  lemma {:induction false} LowerIsLower(s: string)
    ensures IsLower(Lower(s))
  {
    if s != [] {
      LowerIsLower(s[1..]);
    }
  }

  lemma {:induction false} LowerFixed(s: string)
    requires IsLower(s)
    ensures Lower(s) == s
  {
    if s != [] {
      assert s[0] in s && forall c | c in s[1..] :: c in s;
      LowerFixed(s[1..]);
    }
  }

  /** Lower case moves exactly the ASCII capitals, each to its own small letter, and every other character stays. */
  lemma {:induction false} LowerExactly(s: string)
    ensures |Lower(s)| == |s|
    ensures forall i | 0 <= i < |s| ::
              (!('A' <= s[i] <= 'Z') ==> Lower(s)[i] == s[i])
              && ('A' <= s[i] <= 'Z' ==> Lower(s)[i] as int - 'a' as int == s[i] as int - 'A' as int)
  {
    if s != [] {
      LowerExactly(s[1..]);
    }
  }

  /** The normalization both layers apply: trailing points off, lower case, and the domain appended unless it ends the
      name. */
  function Normal(name: string, domain: string): string {
    var text := Lower(RightStripped(name, '.'));
    if EndsWith(text, domain) then text else text + "." + domain
  }

  predicate ProperDomain(domain: string) {
    domain != "" && domain[|domain| - 1] != '.' && IsLower(domain)
  }

  /** A lower-case name that ends with the domain is normal. */
  lemma NormalFixed(s: string, domain: string)
    requires ProperDomain(domain) && EndsWith(s, domain) && IsLower(s)
    ensures Normal(s, domain) == s
  {
    assert s[|s| - 1] == s[|s| - |domain|..][|domain| - 1];
    assert RightStripped(s, '.') == s;
    LowerFixed(s);
  }

  /** The normalization is idempotent, so that of the second layer changes nothing the first one made. */
  lemma NormalTwice(name: string, domain: string)
    requires ProperDomain(domain)
    ensures Normal(Normal(name, domain), domain) == Normal(name, domain)
  {
    var text := Lower(RightStripped(name, '.'));
    var normal := Normal(name, domain);
    LowerIsLower(RightStripped(name, '.'));
    if !EndsWith(text, domain) {
      assert normal[|normal| - |domain|..] == domain;
    }
    NormalFixed(normal, domain);
  }

  /** The relative and the full spelling of a name normalize to the same one, which is the full spelling. */
  lemma SpellingsAgree(name: string, domain: string)
    requires ProperDomain(domain) && IsLower(name) && !EndsWith(name, domain)
    requires name == "" || name[|name| - 1] != '.'
    ensures Normal(name, domain) == Normal(name + "." + domain, domain) == name + "." + domain
  {
    var full := name + "." + domain;
    assert RightStripped(name, '.') == name;
    LowerFixed(name);
    assert full[|full| - |domain|..] == domain;
    forall c | c in full
      ensures !IsUpper(c)
    {
      assert c in name || c == '.' || c in domain;
    }
    NormalFixed(full, domain);
  }

  lemma DomainsLower()
    ensures IsLower("example.com") && IsLower("example.org")
  {
  }

  lemma EdgeZonesProper(zone: string)
    requires zone in EDGE_ZONES
    ensures ProperDomain(EDGE_ZONES[zone]) && |EDGE_ZONES[zone]| == 11
  {
    DomainsLower();
    assert EDGE_ZONES[zone] == "example.com" || EDGE_ZONES[zone] == "example.org";
  }

  // ---- The Action ----

  function ZoneOf(domain: string): (zone: Option<string>)
    ensures zone.Some? ==> zone.value in EDGE_ZONES && EDGE_ZONES[zone.value] == domain
  {
    if domain == "example.com" then Some("zn-1a2b")
    else if domain == "example.org" then Some("zn-3c4d")
    else None
  }

  function DnsKey(place: Place): string {
    "edge:dns:" + (if place.zone in EDGE_ZONES then EDGE_ZONES[place.zone] else "") + ":" + place.name + ":"
    + KindText(place.kind)
  }

  function PlaceOf(r: Record): Place {
    Place(r.zone, r.name, r.kind)
  }

  predicate At(records: map<string, Record>, id: string, place: Place) {
    id in records && PlaceOf(records[id]) == place
  }

  /** Each place has at most one record. */
  predicate Unique(records: map<string, Record>) {
    forall i, j | i in records && j in records :: PlaceOf(records[i]) == PlaceOf(records[j]) ==> i == j
  }

  ghost predicate Sound(e: Edge) {
    Unique(e.records) && (forall id | id in e.records :: e.records[id].zone in EDGE_ZONES)
    && forall n: nat | n > e.next :: NewId("dr", n) !in e.records
  }

  /** The map the records stand for: exactly their places, each with its content. */
  ghost predicate Represents(records: map<string, Record>, zonefile: map<Place, string>) {
    && (forall id | id in records ::
          PlaceOf(records[id]) in zonefile && zonefile[PlaceOf(records[id])] == records[id].content)
    && (forall place | place in zonefile :: exists id :: At(records, id, place))
  }

  /** Where a call writes, if its domain is known. */
  function Target(call: SetCall): Option<Place> {
    match ZoneOf(call.domain)
    case Some(zone) => Some(Place(zone, Normal(call.name, call.domain), call.kind))
    case None => None
  }

  /** Only the two known domains have a place, whose key names the domain, the normal name, and the type. */
  lemma TargetExactly(call: SetCall)
    ensures Target(call).Some? <==> call.domain == "example.com" || call.domain == "example.org"
    ensures Target(call).Some? ==>
              DnsKey(Target(call).value)
                == "edge:dns:" + call.domain + ":" + Normal(call.name, call.domain) + ":" + KindText(call.kind)
  {
  }

  const EDGE_RECORDS := map[
    "dr-1" := Record("zn-1a2b", A, "www.example.com", "192.0.2.1"),
    "dr-2" := Record("zn-3c4d", A, "www.example.org", "192.0.2.30"),
    "dr-3" := Record("zn-3c4d", MX, "example.org", "mail.example.org")]

  ghost const START: map<Place, string> := map[
    Place("zn-1a2b", "www.example.com", A) := "192.0.2.1",
    Place("zn-3c4d", "www.example.org", A) := "192.0.2.30",
    Place("zn-3c4d", "example.org", MX) := "mail.example.org"]

  lemma StartUnique()
    ensures Unique(EDGE_RECORDS) && forall id | id in EDGE_RECORDS :: EDGE_RECORDS[id].zone in EDGE_ZONES
  {
  }

  lemma StartRepresents()
    ensures Represents(EDGE_RECORDS, START)
  {
    assert At(EDGE_RECORDS, "dr-1", Place("zn-1a2b", "www.example.com", A));
    assert At(EDGE_RECORDS, "dr-2", Place("zn-3c4d", "www.example.org", A));
    assert At(EDGE_RECORDS, "dr-3", Place("zn-3c4d", "example.org", MX));
  }

  lemma StartIsSound()
    ensures Sound(Edge(EDGE_RECORDS, 0, [])) && Represents(EDGE_RECORDS, START)
  {
    StartUnique();
    StartRepresents();
    assert World.Given(EDGE_RECORDS.Keys);
    World.GivenAreOld(EDGE_RECORDS.Keys, "dr");
  }

  // ---- The snapshot ----

  lemma DnsKeysDiffer(p: Place, q: Place)
    requires p.zone in EDGE_ZONES && q.zone in EDGE_ZONES && DnsKey(p) == DnsKey(q)
    ensures p == q
  {
    var d, f := EDGE_ZONES[p.zone], EDGE_ZONES[q.zone];
    EdgeZonesProper(p.zone);
    EdgeZonesProper(q.zone);
    WorldRuns.KindTexts(p.kind, q.kind);
    WorldRuns.KindTexts(q.kind, p.kind);
    WorldRuns.PartsRead("edge:dns:", d, p.name, KindText(p.kind), f, q.name, KindText(q.kind));
    assert d[8] == if p.zone == "zn-1a2b" then 'c' else 'o';
    assert f[8] == if q.zone == "zn-1a2b" then 'c' else 'o';
  }

  predicate HasKey(zonefile: map<Place, string>, place: Place, key: string) {
    place in zonefile && DnsKey(place) == key
  }

  /** The snapshot's DNS part at a key. */
  ghost function ShownAt(zonefile: map<Place, string>, key: string): Option<string> {
    if place :| HasKey(zonefile, place, key) then Some(zonefile[place]) else None
  }

  predicate ZonesKnown(zonefile: map<Place, string>) {
    forall place | place in zonefile :: place.zone in EDGE_ZONES
  }

  lemma PlaceShown(zonefile: map<Place, string>, place: Place)
    requires ZonesKnown(zonefile) && place in zonefile
    ensures ShownAt(zonefile, DnsKey(place)) == Some(zonefile[place])
  {
    forall other | HasKey(zonefile, other, DnsKey(place))
      ensures other == place
    {
      DnsKeysDiffer(other, place);
    }
    assert HasKey(zonefile, place, DnsKey(place));
  }

  /** A record's snapshot key. */
  function ShownKey(r: Record): string {
    DnsKey(PlaceOf(r))
  }

  function Lookup(state: map<string, string>, key: string): Option<string> {
    if key in state then Some(state[key]) else None
  }

  /** A record that puts its content at a key. */
  predicate Writes(records: map<string, Record>, id: string, key: string, content: string) {
    id in records && ShownKey(records[id]) == key && records[id].content == content
  }

  /** Only the records write the state. */
  ghost predicate Written(records: map<string, Record>, state: map<string, string>) {
    forall key | key in state :: exists id :: Writes(records, id, key, state[key])
  }

  lemma SoundKnowsZones(e: Edge, zonefile: map<Place, string>)
    requires Sound(e) && Represents(e.records, zonefile)
    ensures ZonesKnown(zonefile)
  {
    forall place | place in zonefile
      ensures place.zone in EDGE_ZONES
    {
      var id :| At(e.records, id, place);
    }
  }

  /** What only the records write, and all of them write, shows the map they stand for. */
  lemma WrittenShows(e: Edge, zonefile: map<Place, string>, state: map<string, string>, key: string)
    requires Sound(e) && Represents(e.records, zonefile) && Written(e.records, state)
    requires forall id | id in e.records :: ShownKey(e.records[id]) in state
    ensures Lookup(state, key) == ShownAt(zonefile, key)
  {
    SoundKnowsZones(e, zonefile);
    forall place | HasKey(zonefile, place, key)
      ensures key in state
    {
      var id :| At(e.records, id, place);
      assert ShownKey(e.records[id]) in state;
    }
    if key in state {
      var id :| Writes(e.records, id, key, state[key]);
      PlaceShown(zonefile, PlaceOf(e.records[id]));
    }
  }

  class TaskWorld {
    var records: map<string, Record>
    var next: nat
    var effects: seq<Option<string>>
    ghost var zonefile: map<Place, string>

    function Contents(): Edge
      reads this
    {
      Edge(records, next, effects)
    }

    ghost predicate Valid()
      reads this
    {
      Sound(Contents()) && Represents(records, zonefile)
    }

    constructor ()
      ensures Valid() && Contents() == Edge(EDGE_RECORDS, 0, []) && zonefile == START
    {
      records, next, effects, zonefile := EDGE_RECORDS, 0, [], START;
      new;
      StartIsSound();
    }

    /** The DNS part of `snapshot`. */
    method Snapshot() returns (state: map<string, string>)
      requires Valid()
      ensures forall key :: Lookup(state, key) == ShownAt(zonefile, key)
    {
      state := map[];
      var rest := records.Keys;
      while rest != {}
        invariant rest <= records.Keys && Written(records, state)
        invariant forall id | id in records && id !in rest :: ShownKey(records[id]) in state
        decreases |rest|
      {
        var id :| id in rest;
        assert Writes(records, id, ShownKey(records[id]), records[id].content);
        state := state[ShownKey(records[id]) := records[id].content];
        rest := rest - {id};
      }
      forall key
        ensures Lookup(state, key) == ShownAt(zonefile, key)
      {
        WrittenShows(Contents(), zonefile, state, key);
      }
    }

    /** The search for the first record at a place. */
    method FindRecord(place: Place) returns (existing: Option<string>)
      ensures existing.Some? ==> At(records, existing.value, place)
      ensures existing.None? ==> forall id | id in records :: PlaceOf(records[id]) != place
    {
      var rest := records.Keys;
      while rest != {}
        invariant rest <= records.Keys
        invariant forall id | id in records && id !in rest :: PlaceOf(records[id]) != place
        decreases |rest|
      {
        var id :| id in rest;
        if PlaceOf(records[id]) == place {
          return Some(id);
        }
        rest := rest - {id};
      }
      return None;
    }

    /** The endpoint `dns-records-create`, which normalizes the name once more. */
    method CreateDns(zone: string, kind: Kind, name: string, content: string) returns (effect: string)
      requires zone in EDGE_ZONES
      modifies `records, `next
      ensures next == old(next) + 1
      ensures var full := Normal(name, EDGE_ZONES[zone]);
              records == old(records)[NewId("dr", next) := Record(zone, kind, full, content)]
              && effect == DnsKey(Place(zone, full, kind))
    {
      var full := Normal(name, EDGE_ZONES[zone]);
      next := next + 1;
      records := records[NewId("dr", next) := Record(zone, kind, full, content)];
      return DnsKey(Place(zone, full, kind));
    }

    /** The endpoint `dns-records-update` on a record found in its zone. */
    method UpdateDns(id: string, content: string) returns (effect: string)
      requires id in records
      modifies `records
      ensures records == old(records)[id := old(records)[id].(content := content)]
      ensures effect == DnsKey(PlaceOf(old(records)[id]))
    {
      records := records[id := records[id].(content := content)];
      return DnsKey(PlaceOf(records[id]));
    }

    /** `set-dns-record`: a map put at the normalized place, which is also the effect it records; an unknown domain
        fails and changes nothing. */
    method SetDnsRecord(call: SetCall) returns (done: bool)
      requires Valid()
      modifies this
      ensures Valid() && done == Target(call).Some?
      ensures done ==>
                zonefile == old(zonefile)[Target(call).value := call.content]
                && effects == old(effects) + [Some(DnsKey(Target(call).value))]
      ensures !done ==>
                records == old(records) && next == old(next) && zonefile == old(zonefile)
                && effects == old(effects) + [None]
      ensures Settled(old(records), call) ==> records == old(records) && next == old(next)
    {
      var zone := ZoneOf(call.domain);
      if zone.None? {
        effects := effects + [None];
        return false;
      }
      var place := Place(zone.value, Normal(call.name, call.domain), call.kind);
      var existing := FindRecord(place);
      var effect;
      if existing.None? {
        EdgeZonesProper(zone.value);
        NormalTwice(call.name, call.domain);
        effect := WriteNew(place, call.content);
      } else {
        effect := WriteOld(place, existing.value, call.content);
      }
      effects := effects + [Some(effect)];
      return true;
    }

    /** The endpoint for a place that has no record. */
    method WriteNew(place: Place, content: string) returns (effect: string)
      requires Valid() && place.zone in EDGE_ZONES && Normal(place.name, EDGE_ZONES[place.zone]) == place.name
      requires forall id | id in records :: PlaceOf(records[id]) != place
      modifies this
      ensures Valid() && zonefile == old(zonefile)[place := content] && effects == old(effects)
      ensures effect == DnsKey(place)
    {
      var r := Record(place.zone, place.kind, place.name, content);
      ghost var after := Edge(records[NewId("dr", next + 1) := r], next + 1, effects);
      PutKeepsSound(Contents(), zonefile, NewId("dr", next + 1), r, next + 1);
      effect := CreateDns(place.zone, place.kind, place.name, content);
      zonefile := zonefile[place := content];
      assert Contents() == after;
    }

    /** The endpoint for the record found at a place. */
    method WriteOld(place: Place, id: string, content: string) returns (effect: string)
      requires Valid() && place.zone in EDGE_ZONES && At(records, id, place)
      modifies this
      ensures Valid() && zonefile == old(zonefile)[place := content] && effects == old(effects)
      ensures effect == DnsKey(place) && next == old(next)
      ensures old(records)[id].content == content ==> records == old(records)
    {
      var r := Record(place.zone, place.kind, place.name, content);
      ghost var after := Edge(records[id := r], next, effects);
      PutKeepsSound(Contents(), zonefile, id, r, next);
      effect := UpdateDns(id, content);
      zonefile := zonefile[place := content];
      assert Contents() == after;
    }
  }

  lemma PutKeepsSound(e: Edge, zonefile: map<Place, string>, id: string, r: Record, next: nat)
    requires Sound(e) && Represents(e.records, zonefile) && r.zone in EDGE_ZONES
    requires forall other | other in e.records && PlaceOf(e.records[other]) == PlaceOf(r) :: other == id
    requires (id in e.records && PlaceOf(e.records[id]) == PlaceOf(r) && next == e.next)
             || (id == NewId("dr", e.next + 1) && next == e.next + 1)
    ensures Sound(Edge(e.records[id := r], next, e.effects))
    ensures Represents(e.records[id := r], zonefile[PlaceOf(r) := r.content])
  {
    WorldRuns.FreshId("dr", e.next);
    RecordPut(e.records, zonefile, id, r);
  }

  /** The records already say what the call asks for. */
  predicate Settled(records: map<string, Record>, call: SetCall) {
    Target(call).Some? &&
    exists id | id in records :: PlaceOf(records[id]) == Target(call).value && records[id].content == call.content
  }

  /** Writing the one record of a place is a put into the map the records stand for. */
  lemma RecordPut(records: map<string, Record>, zonefile: map<Place, string>, id: string, r: Record)
    requires Unique(records) && Represents(records, zonefile)
    requires forall other | other in records && PlaceOf(records[other]) == PlaceOf(r) :: other == id
    requires id in records ==> PlaceOf(records[id]) == PlaceOf(r)
    ensures Unique(records[id := r])
    ensures Represents(records[id := r], zonefile[PlaceOf(r) := r.content])
  {
    var after, put := records[id := r], zonefile[PlaceOf(r) := r.content];
    forall place | place in put
      ensures exists i :: At(after, i, place)
    {
      if place == PlaceOf(r) {
        assert At(after, id, place);
      } else {
        var i :| At(records, i, place);
        assert At(after, i, place);
      }
    }
  }

  // ---- Runs ----

  /** The Action as a step on the map it refines. */
  function Put(zonefile: map<Place, string>, call: SetCall): map<Place, string> {
    match Target(call)
    case Some(place) => zonefile[place := call.content]
    case None => zonefile
  }

  /** What a call records: the key of its place, or nothing. */
  function DnsEffect(call: SetCall): Option<string> {
    match Target(call)
    case Some(place) => Some(DnsKey(place))
    case None => None
  }

  function DnsEffects(calls: seq<SetCall>): seq<Option<string>> {
    if calls == [] then [] else [DnsEffect(calls[0])] + DnsEffects(calls[1..])
  }

  function PutAll(zonefile: map<Place, string>, calls: seq<SetCall>): map<Place, string>
    decreases |calls|
  {
    if calls == [] then zonefile else PutAll(Put(zonefile, calls[0]), calls[1..])
  }

  /** Setting a record again, under any spelling with the same normal name such as the one listed back, is setting it
      once. */
  lemma PutTwice(zonefile: map<Place, string>, call: SetCall)
    ensures var again := call.(name := Normal(call.name, call.domain));
            Target(again) == Target(call) && Put(Put(zonefile, call), again) == Put(zonefile, call)
  {
    var zone := ZoneOf(call.domain);
    if zone.Some? {
      EdgeZonesProper(zone.value);
      NormalTwice(call.name, call.domain);
    }
  }

  /** The effect a call records is the only snapshot key it changes, and shows what was set. */
  lemma PutChangesOnlyItsKey(zonefile: map<Place, string>, call: SetCall, key: string)
    requires ZonesKnown(zonefile) && Target(call).Some?
    ensures ZonesKnown(Put(zonefile, call))
    ensures ShownAt(Put(zonefile, call), DnsKey(Target(call).value)) == Some(call.content)
    ensures key != DnsKey(Target(call).value) ==> ShownAt(Put(zonefile, call), key) == ShownAt(zonefile, key)
  {
    var place := Target(call).value;
    var after := Put(zonefile, call);
    PlaceShown(after, place);
    if key != DnsKey(place) {
      if other :| HasKey(zonefile, other, key) {
        PlaceShown(zonefile, other);
        PlaceShown(after, other);
      } else {
        assert forall other :: HasKey(after, other, key) ==> HasKey(zonefile, other, key);
      }
    }
  }

  /** Over a whole run the DNS part of the snapshot changes only at effects its calls record. */
  lemma {:induction false} PutsChangeOnlyEffects(zonefile: map<Place, string>, calls: seq<SetCall>, key: string)
    requires ZonesKnown(zonefile) && ShownAt(PutAll(zonefile, calls), key) != ShownAt(zonefile, key)
    ensures Some(key) in DnsEffects(calls)
    decreases |calls|
  {
    var after, effect, rest := Put(zonefile, calls[0]), DnsEffect(calls[0]), DnsEffects(calls[1..]);
    assert DnsEffects(calls)[0] == effect && forall other | other in rest :: other in DnsEffects(calls);
    if effect.Some? {
      PutChangesOnlyItsKey(zonefile, calls[0], key);
    }
    if effect != Some(key) {
      PutsChangeOnlyEffects(after, calls[1..], key);
    }
  }

  /** Refinement over every run: the records stay unique and stand for the map that the puts alone would give, every
      call records its own effect, and what the snapshot shows changed only at effects the run recorded. */
  method Run(world: TaskWorld, calls: seq<SetCall>)
    requires world.Valid()
    modifies world
    ensures world.Valid() && world.zonefile == PutAll(old(world.zonefile), calls)
    ensures world.effects == old(world.effects) + DnsEffects(calls)
    ensures forall key | ShownAt(world.zonefile, key) != ShownAt(old(world.zonefile), key) ::
              Some(key) in world.effects[|old(world.effects)|..]
  {
    ghost var before, recorded := world.zonefile, world.effects;
    SoundKnowsZones(world.Contents(), before);
    for i := 0 to |calls|
      invariant world.Valid()
      invariant PutAll(world.zonefile, calls[i..]) == PutAll(before, calls)
      invariant world.effects + DnsEffects(calls[i..]) == recorded + DnsEffects(calls)
    {
      assert calls[i..][0] == calls[i] && calls[i..][1..] == calls[i + 1..];
      var done := world.SetDnsRecord(calls[i]);
    }
    assert calls[|calls|..] == [] && world.effects == recorded + DnsEffects(calls);
    forall key | ShownAt(world.zonefile, key) != ShownAt(before, key)
      ensures Some(key) in DnsEffects(calls)
    {
      PutsChangeOnlyEffects(before, calls, key);
    }
  }
}
