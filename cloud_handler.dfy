/** The GCP cloud handler: building a handler from a provider's settings
    and the layered default parameters, making sure the project has the
    monkey firewall rule, listing instances and jobs zone by zone,
    checking the connection, creating an instance and waiting for an
    operation to finish. The compute API is a model object holding the
    project's firewall rules and the instances inserted, with the
    per-zone instance listings as an oracle. */
module CloudHandler {
  import opened Common
  import opened PyValues
  import opened CloudParams
  import opened CloudInstance

  const ProviderTypeGcp := "gcp"
  const UnsupportedSuffix := " type for provider not supported yet"
  const DefaultCredentialsKey := "gcp-service-key.json"
  const RequiredPorts: seq<string> := ["9991"]
  const FirewallDescription := "Monkey Job runner monkey-client firewall rule.  Allows for connection to monkey-client"

  /** Service-account credentials, as far as the handler reads them. */
  datatype Credentials = Credentials(serviceAccountEmail: string)

  /** The answer to listing a zone's instances: the call raised, or the
      response dictionary. */
  datatype Listing = ListRaises | Listed(response: Dict)

  /** The compute API of one project. */
  class ComputeApi {
    /** The project's firewall rules, as listing them returns them. */
    var firewalls: seq<Dict>
    /** Every instance inserted: project, zone and request body. */
    var instanceInserts: seq<(Value, Value, Dict)>
    /** What listing the instances of a zone answers. */
    const instanceListing: Value -> Listing

    constructor(rules: seq<Dict>, listing: Value -> Listing)
      ensures firewalls == rules && instanceInserts == [] && instanceListing == listing
    {
      firewalls := rules;
      instanceInserts := [];
      instanceListing := listing;
    }

    /** `firewalls().insert(body=rule)`: the rule is listed from now on. */
    method InsertFirewall(rule: Dict)
      modifies this`firewalls
      ensures firewalls == old(firewalls) + [rule]
    {
      firewalls := firewalls + [rule];
    }

    /** `instances().insert(project, zone, body=config)`. */
    method InsertInstance(project: Value, zone: Value, config: Dict)
      modifies this`instanceInserts
      ensures instanceInserts == old(instanceInserts) + [(project, zone, config)]
    {
      instanceInserts := instanceInserts + [(project, zone, config)];
    }
  }

  // ---------------------------------------------------------------------
  // The firewall rule
  // ---------------------------------------------------------------------

  /** One protocol the rule opens on the required ports. */
  function Allowed(protocol: string): Value {
    VDict([("IPProtocol", VStr(protocol)), ("ports", VList([VStr(RequiredPorts[0])]))])
  }

  /** The rule `create_firewall_rule` inserts: tcp and udp on the required
      ports, for instances tagged with the rule's name. */
  function FirewallRule(): Dict {
    [("name", VStr(FirewallRuleName)),
     ("description", VStr(FirewallDescription)),
     ("allowed", VList([Allowed("tcp"), Allowed("udp")])),
     ("targetTags", VList([VStr(FirewallRuleName)]))]
  }

  /** `item.get('name', None) == 'monkey-firewall'` */
  predicate IsMonkeyRule(item: Dict) {
    Lookup(item, "name") == Some(VStr(FirewallRuleName))
  }

  predicate HasMonkeyRule(rules: seq<Dict>) {
    exists i :: 0 <= i < |rules| && IsMonkeyRule(rules[i])
  }

  /** The project's rules after `check_for_firewall_rule`: unchanged when
      a rule of that name is listed, the monkey rule added otherwise. */
  function FirewallsAfterCheck(rules: seq<Dict>): seq<Dict> {
    if HasMonkeyRule(rules) then rules else rules + [FirewallRule()]
  }

  /** The rule the check creates is one the check recognises, and it opens
      port 9991 for tcp and udp on instances tagged `monkey-firewall`. */
  lemma CreatedRuleIsRecognised()
    ensures IsMonkeyRule(FirewallRule())
    ensures Lookup(FirewallRule(), "allowed")
         == Some(VList([VDict([("IPProtocol", VStr("tcp")), ("ports", VList([VStr("9991")]))]),
                        VDict([("IPProtocol", VStr("udp")), ("ports", VList([VStr("9991")]))])]))
    ensures Lookup(FirewallRule(), "targetTags") == Some(VList([VStr("monkey-firewall")]))
  {
    LookupAt(FirewallRule(), 2);
    LookupAt(FirewallRule(), 3);
  }

  /** After the check the project has the monkey rule; a second check
      changes nothing; and the check adds at most the one rule, keeping
      the existing ones. */
  lemma FirewallCheckIsIdempotent(rules: seq<Dict>)
    ensures HasMonkeyRule(FirewallsAfterCheck(rules))
    ensures FirewallsAfterCheck(FirewallsAfterCheck(rules)) == FirewallsAfterCheck(rules)
    ensures rules <= FirewallsAfterCheck(rules) && |FirewallsAfterCheck(rules)| <= |rules| + 1
  {
    if !HasMonkeyRule(rules) {
      CreatedRuleIsRecognised();
      var after := rules + [FirewallRule()];
      assert IsMonkeyRule(after[|rules|]);
    }
  }

  // ---------------------------------------------------------------------
  // Listing instances and jobs, zone by zone
  // ---------------------------------------------------------------------

  /** `[inst["name"] for inst in items]`: every item's name, or `None`
      when some item has none (the comprehension raises). */
  function Names(items: seq<Value>): (r: Option<seq<Value>>)
    ensures r.Some? <==> forall i :: 0 <= i < |items| ==> Subscript(items[i], "name").Ok?
    ensures r.Some? ==> |r.value| == |items|
                        && forall i :: 0 <= i < |items| ==> Ok(r.value[i]) == Subscript(items[i], "name")
    decreases |items|
  {
    if items == [] then Some([])
    else match Subscript(items[0], "name")
      case Raised(_) => None
      case Ok(n) =>
        match Names(items[1..])
        case None => None
        case Some(rest) => Some([n] + rest)
  }

  /** The items of a zone's listing, when there is something to scan:
      the call succeeded, the response has truthy `items`, and they can
      be iterated. */
  function ZoneItems(l: Listing): Option<seq<Value>> {
    match l
    case ListRaises => None
    case Listed(response) =>
      match Lookup(response, "items")
      case None => None
      case Some(items) => if Truthy(items) then Iterate(items) else None
  }

  /** A truthy value that can be iterated yields at least one item. */
  lemma TruthyIterableIsNonEmpty(v: Value)
    requires Truthy(v) && Iterate(v).Some?
    ensures Iterate(v).value != []
  {
  }

  /** What one item of a zone tells `list_jobs`: its labels (none when it
      has no `labels`) carry the target identifier and its name is
      appended, or it is skipped, or looking at it raises, which abandons
      the rest of the zone. */
  datatype Verdict = Raises | Skip | Append(name: Value)

  function JobVerdict(item: Value, target: Option<Value>): Verdict {
    var labels :=
      match Contains(item, "labels")
      case None => Raised(TypeError)
      case Some(false) => Ok(VList([]))
      case Some(true) => Subscript(item, "labels");
    if labels.Raised? || target.None? then Raises
    else match Contains(labels.value, IdentifierKey)
      case None => Raises
      case Some(false) => Skip
      case Some(true) =>
        match Subscript(labels.value, IdentifierKey)
        case Raised(_) => Raises
        case Ok(v) =>
          if v != target.value then Skip
          else match Subscript(item, "name")
            case Raised(_) => Raises
            case Ok(n) => Append(n)
  }

  /** The job names one zone's items give: those appended before the
      first item that raises. */
  function JobsAmong(items: seq<Value>, target: Option<Value>): seq<Value>
    decreases |items|
  {
    if items == [] then []
    else match JobVerdict(items[0], target)
      case Raises => []
      case Skip => JobsAmong(items[1..], target)
      case Append(n) => [n] + JobsAmong(items[1..], target)
  }

  /** What is asked of each zone: all instance names, or the job names
      for a target identifier. */
  datatype Query = Instances | Jobs(target: Option<Value>)

  /** The names one zone contributes; a zone that raises contributes none,
      and a zone whose names cannot all be read contributes no instances. */
  function ZoneNames(q: Query, l: Listing): seq<Value> {
    match ZoneItems(l)
    case None => []
    case Some(items) =>
      match q
      case Instances => (match Names(items) case Some(ns) => ns case None => [])
      case Jobs(target) => JobsAmong(items, target)
  }

  /** The names of all zones, in zone order. */
  function Collect(q: Query, listing: Value -> Listing, zones: seq<Value>): seq<Value>
    decreases |zones|
  {
    if zones == [] then [] else ZoneNames(q, listing(zones[0])) + Collect(q, listing, zones[1..])
  }

  /** The names from zone `i` on are zone `i`'s followed by the rest. */
  lemma CollectStep(q: Query, listing: Value -> Listing, zones: seq<Value>, i: nat)
    requires i < |zones|
    ensures Collect(q, listing, zones[i..]) == ZoneNames(q, listing(zones[i])) + Collect(q, listing, zones[i + 1..])
  {
    assert zones[i..][0] == zones[i] && zones[i..][1..] == zones[i + 1..];
  }

  /** One more zone scanned: its names follow those gathered so far. */
  lemma CollectAfter(q: Query, listing: Value -> Listing, zs: seq<Value>, i: nat, names: seq<Value>)
    requires i < |zs|
    ensures names + Collect(q, listing, zs[i..])
         == (names + ZoneNames(q, listing(zs[i]))) + Collect(q, listing, zs[i + 1..])
  {
    CollectStep(q, listing, zs, i);
  }

  /** A single zone that raises gives no names. */
  lemma CollectOfRaising(q: Query, listing: Value -> Listing, z: Value)
    requires listing(z) == ListRaises
    ensures Collect(q, listing, [z]) == []
  {
    assert ZoneItems(listing(z)).None?;
    assert ZoneNames(q, listing(z)) == [];
    assert [z][1..] == [];
  }

  /** Zones are scanned in order: the names of `a + b` are those of `a`
      followed by those of `b`. */
  lemma {:induction false} CollectAppend(q: Query, listing: Value -> Listing, a: seq<Value>, b: seq<Value>)
    ensures Collect(q, listing, a + b) == Collect(q, listing, a) + Collect(q, listing, b)
    decreases |a|
  {
    if a == [] {
      assert a + b == b;
    } else {
      assert (a + b)[0] == a[0] && (a + b)[1..] == a[1..] + b;
      CollectAppend(q, listing, a[1..], b);
    }
  }

  /** A zone whose listing raises contributes nothing, and the zones
      around it are listed as if it were not there. */
  lemma RaisingZoneContributesNothing(q: Query, listing: Value -> Listing, a: seq<Value>, z: Value, b: seq<Value>)
    requires listing(z) == ListRaises
    ensures Collect(q, listing, a + [z] + b) == Collect(q, listing, a) + Collect(q, listing, b)
  {
    CollectAppend(q, listing, a + [z], b);
    CollectAppend(q, listing, a, [z]);
    CollectOfRaising(q, listing, z);
    assert Collect(q, listing, a) + [] == Collect(q, listing, a);
  }

  /** Every name listed comes from the listing of one of the zones. */
  lemma {:induction false} CollectedNamesComeFromZones(q: Query, listing: Value -> Listing, zones: seq<Value>, n: Value)
    requires n in Collect(q, listing, zones)
    ensures exists i :: 0 <= i < |zones| && n in ZoneNames(q, listing(zones[i]))
    decreases |zones|
  {
    if n !in ZoneNames(q, listing(zones[0])) {
      CollectedNamesComeFromZones(q, listing, zones[1..], n);
      var i :| 0 <= i < |zones[1..]| && n in ZoneNames(q, listing(zones[1..][i]));
      assert zones[1..][i] == zones[i + 1];
    }
  }

  /** A zone whose items all have names contributes all of them, in
      order; otherwise it contributes no instance. */
  lemma ZoneInstances(l: Listing)
    requires ZoneItems(l).Some?
    ensures var items := ZoneItems(l).value;
            var ns := ZoneNames(Instances, l);
            && ((forall i :: 0 <= i < |items| ==> Subscript(items[i], "name").Ok?) ==>
                  |ns| == |items| && forall i :: 0 <= i < |items| ==> Ok(ns[i]) == Subscript(items[i], "name"))
            && ((exists i :: 0 <= i < |items| && Subscript(items[i], "name").Raised?) ==> ns == [])
  {
  }

  /** An appended job is an item whose labels carry the target identifier,
      appended under its name. */
  lemma AppendedJobMatches(item: Value, target: Option<Value>, n: Value)
    requires JobVerdict(item, target) == Append(n)
    ensures item.VDict? && Subscript(item, "name") == Ok(n) && target.Some?
    ensures Subscript(item, "labels").Ok? && Subscript(Subscript(item, "labels").value, IdentifierKey) == Ok(target.value)
  {
  }

  /** Every job listed for a zone comes from one of its items that
      matches the target. */
  lemma {:induction false} JobsAreMatchingItems(items: seq<Value>, target: Option<Value>, n: Value)
    requires n in JobsAmong(items, target)
    ensures exists i :: 0 <= i < |items| && JobVerdict(items[i], target) == Append(n)
    decreases |items|
  {
    if JobVerdict(items[0], target) != Append(n) {
      JobsAreMatchingItems(items[1..], target, n);
      var i :| 0 <= i < |items[1..]| && JobVerdict(items[1..][i], target) == Append(n);
      assert items[1..][i] == items[i + 1];
    }
  }

  /** When no item of a zone raises, every matching item is listed. */
  lemma {:induction false} MatchingItemsAreJobs(items: seq<Value>, target: Option<Value>, i: nat)
    requires i < |items| && JobVerdict(items[i], target).Append?
    requires forall j :: 0 <= j < |items| ==> !JobVerdict(items[j], target).Raises?
    ensures JobVerdict(items[i], target).name in JobsAmong(items, target)
    decreases i
  {
    if i > 0 {
      assert items[1..][i - 1] == items[i];
      assert forall j :: 0 <= j < |items| - 1 ==> items[1..][j] == items[j + 1];
      MatchingItemsAreJobs(items[1..], target, i - 1);
      assert !JobVerdict(items[0], target).Raises?;
    }
  }

  /** An item that raises abandons the rest of its zone: the items after
      it are never looked at. */
  lemma {:induction false} RaisingItemEndsZone(items: seq<Value>, target: Option<Value>, k: nat)
    requires k < |items| && JobVerdict(items[k], target).Raises?
    ensures JobsAmong(items, target) == JobsAmong(items[..k], target)
    decreases k
  {
    if k == 0 {
      assert items[..0] == [];
    } else {
      assert items[1..][k - 1] == items[k];
      RaisingItemEndsZone(items[1..], target, k - 1);
      assert items[..k][0] == items[0] && items[..k][1..] == items[1..][..k - 1];
    }
  }

  // ---------------------------------------------------------------------
  // Waiting for an operation
  // ---------------------------------------------------------------------

  /** The outcome of `wait_for_operation` over the poll results the API
      gives: the first `DONE` result, an exception, or still pending when
      the polls modelled run out. */
  datatype Wait = Done(result: Value) | WaitRaised(exc: Exception) | StillPending

  /** `result['status'] == 'DONE'`, when the status can be read. */
  predicate IsDone(result: Value) {
    Subscript(result, "status") == Ok(VStr("DONE"))
  }

  /** Polling from the first of `polls` on. */
  function PollFrom(polls: seq<Value>): Wait
    decreases |polls|
  {
    if polls == [] then StillPending
    else match Subscript(polls[0], "status")
      case Raised(e) => WaitRaised(e)
      case Ok(status) =>
        if status != VStr("DONE") then PollFrom(polls[1..])
        else match Lookup(polls[0].entries, "error")
          case Some(err) => WaitRaised(OperationError(err))
          case None => Done(polls[0])
  }

  /** Each poll reads `zones[0]` before asking, so a handler without a
      first zone raises before any poll. */
  function WaitOutcome(zones: Value, polls: seq<Value>): Wait {
    match Index0(zones)
    case Raised(e) => WaitRaised(e)
    case Ok(_) => PollFrom(polls)
  }

  /** Every poll before position `k` had a readable status other than
      `DONE`. */
  predicate PendingBefore(polls: seq<Value>, k: nat)
    requires k <= |polls|
  {
    forall j :: 0 <= j < k ==> Subscript(polls[j], "status").Ok? && !IsDone(polls[j])
  }

  /** The poll at `k` is the first `DONE` one, and it carries no error. */
  predicate FirstDoneAt(polls: seq<Value>, k: nat) {
    k < |polls| && IsDone(polls[k]) && Lookup(polls[k].entries, "error").None? && PendingBefore(polls, k)
  }

  /** A returned result is the first `DONE` poll, and it carries no
      `error`. */
  lemma {:induction false} WaitReturnsFirstDone(polls: seq<Value>, r: Value)
    requires PollFrom(polls) == Done(r)
    ensures exists k: nat :: FirstDoneAt(polls, k) && polls[k] == r
    decreases |polls|
  {
    if IsDone(polls[0]) {
      assert FirstDoneAt(polls, 0);
    } else {
      WaitReturnsFirstDone(polls[1..], r);
      var k: nat :| FirstDoneAt(polls[1..], k) && polls[1..][k] == r;
      assert polls[k + 1] == r;
      forall j | 0 <= j < k + 1 ensures Subscript(polls[j], "status").Ok? && !IsDone(polls[j]) {
        if j > 0 {
          assert polls[j] == polls[1..][j - 1];
        }
      }
      assert FirstDoneAt(polls, k + 1);
    }
  }

  /** The first `DONE` poll, when it carries no `error`, is returned. */
  lemma {:induction false} FirstDoneIsReturned(polls: seq<Value>, k: nat)
    requires FirstDoneAt(polls, k)
    ensures PollFrom(polls) == Done(polls[k])
    decreases k
  {
    if k > 0 {
      assert Subscript(polls[0], "status").Ok? && !IsDone(polls[0]);
      assert polls[1..][k - 1] == polls[k];
      forall j | 0 <= j < k - 1 ensures Subscript(polls[1..][j], "status").Ok? && !IsDone(polls[1..][j]) {
        assert polls[1..][j] == polls[j + 1];
      }
      assert FirstDoneAt(polls[1..], k - 1);
      FirstDoneIsReturned(polls[1..], k - 1);
    }
  }

  /** A first `DONE` result that carries an error raises it. */
  lemma {:induction false} WaitRaisesDoneError(polls: seq<Value>, k: nat)
    requires k < |polls| && IsDone(polls[k]) && Lookup(polls[k].entries, "error").Some?
    requires PendingBefore(polls, k)
    ensures PollFrom(polls) == WaitRaised(OperationError(Lookup(polls[k].entries, "error").value))
    decreases k
  {
    if k > 0 {
      assert Subscript(polls[0], "status").Ok? && !IsDone(polls[0]);
      assert polls[1..][k - 1] == polls[k];
      forall j | 0 <= j < k - 1 ensures Subscript(polls[1..][j], "status").Ok? && !IsDone(polls[1..][j]) {
        assert polls[1..][j] == polls[j + 1];
      }
      WaitRaisesDoneError(polls[1..], k - 1);
    }
  }

  // ---------------------------------------------------------------------
  // Building a handler
  // ---------------------------------------------------------------------

  /** What a handler is built from. */
  datatype Settings = Settings(name: Value, zones: Value, project: Value, machineDefaults: Dict,
                               credentials: Credentials)

  /** `name in default_params`: a string names a section; a list or a
      dictionary cannot be hashed (`TypeError`); any other value is no
      key of the defaults. */
  function NameSection(name: Value): Result<Option<string>> {
    match name
    case VStr(n) => Ok(Some(n))
    case VList(_) => Raised(TypeError)
    case VDict(_) => Raised(TypeError)
    case _ => Ok(None)
  }

  /** `", ".join(zones)` succeeds: logging the new handler formats its
      zones this way. */
  predicate ZonesJoinable(zones: Value) {
    Iterate(zones).Some? && forall i :: 0 <= i < |Iterate(zones).value| ==> Iterate(zones).value[i].VStr?
  }

  /** `CloudHandler.create_cloud_handler` up to checking the firewall:
      the provider's type must be `gcp`; the name, zones and project must
      be given; the defaults are layered; the zones must be printable; and
      the credentials are loaded from the `credentials-key` file (default
      `gcp-service-key.json`), `load` giving `None` when that fails. */
  function HandlerSettings(info: Dict, defaults: Defaults, load: Value -> Option<Credentials>): Result<Settings> {
    match Lookup(info, "type")
    case None => Raised(KeyError("type"))
    case Some(t) =>
      if t != VStr(ProviderTypeGcp) then Raised(ValueError(Format(t) + UnsupportedSuffix))
      else match Lookup(info, "name")
        case None => Raised(KeyError("name"))
        case Some(name) =>
          match Lookup(info, "zones")
          case None => Raised(KeyError("zones"))
          case Some(zones) =>
            match Lookup(info, "project")
            case None => Raised(KeyError("project"))
            case Some(project) =>
              var afterGcp := LayeredDefaults(defaults, None);
              if afterGcp.failed then Raised(TypeError)
              else match NameSection(name)
                case Raised(e) => Raised(e)
                case Ok(section) =>
                  var layered := LayeredDefaults(defaults, section);
                  if layered.failed || !ZonesJoinable(zones) then Raised(TypeError)
                  else
                    var key := match Lookup(info, "credentials-key") case Some(k) => k case None => VStr(DefaultCredentialsKey);
                    match load(key)
                    case None => Raised(OSError(Format(key)))
                    case Some(credentials) => Ok(Settings(name, zones, project, layered.dict, credentials))
  }

  /** Only `gcp` providers are accepted: any other type raises
      `ValueError` naming it, and a missing type raises `KeyError`. */
  lemma OnlyGcpIsSupported(info: Dict, defaults: Defaults, load: Value -> Option<Credentials>)
    ensures HandlerSettings(info, defaults, load).Ok? ==> Lookup(info, "type") == Some(VStr("gcp"))
    ensures Lookup(info, "type").None? ==> HandlerSettings(info, defaults, load) == Raised(KeyError("type"))
    ensures Lookup(info, "type").Some? && Lookup(info, "type").value != VStr("gcp") ==>
              (HandlerSettings(info, defaults, load)
               == Raised(ValueError(Format(Lookup(info, "type").value) + " type for provider not supported yet")))
  {
  }

  /** A handler is built from the provider's name, zones and project as
      given, with the defaults layered `all`, `gcp`, then the provider's
      own section; its zones are never `None`. */
  lemma SettingsAreLayered(info: Dict, defaults: Defaults, load: Value -> Option<Credentials>)
    requires HandlerSettings(info, defaults, load).Ok?
    ensures var s := HandlerSettings(info, defaults, load).value;
            && Some(s.name) == Lookup(info, "name") && Some(s.zones) == Lookup(info, "zones")
            && Some(s.project) == Lookup(info, "project")
            && NameSection(s.name).Ok?
            && s.machineDefaults == LayeredDefaults(defaults, NameSection(s.name).value).dict
            && s.zones != VNull
  {
  }

  /** The fields `is_valid` inspects. */
  predicate SettingsValid(s: Settings) {
    s.name != VNull && s.zones != VNull && s.project != VNull
  }

  /** A handler that could be built is valid exactly when its name and
      project are not `None`: its zones cannot be `None`. */
  lemma BuiltHandlerValidity(info: Dict, defaults: Defaults, load: Value -> Option<Credentials>)
    requires HandlerSettings(info, defaults, load).Ok?
    ensures SettingsValid(HandlerSettings(info, defaults, load).value)
        <==> Lookup(info, "name") != Some(VNull) && Lookup(info, "project") != Some(VNull)
  {
    SettingsAreLayered(info, defaults, load);
  }

  /** Prepared parameters for `create_instance`: the defaults merged with
      the machine parameters in place, and `zone` set from them or from
      the first zone. A merge that raises leaves the keys before it
      merged; a missing first zone raises after the merge. */
  function Prepare(defaults: Dict, machineParams: Dict, zones: Value): (Dict, Option<Exception>) {
    var merged := Merge(defaults, machineParams);
    if merged.failed then (merged.dict, Some(TypeError))
    else match Lookup(merged.dict, "zone")
      case Some(z) => (Update(merged.dict, "zone", z), None)
      case None =>
        match Index0(zones)
        case Raised(e) => (merged.dict, Some(e))
        case Ok(z) => (Update(merged.dict, "zone", z), None)
  }

  /** The prepared parameters hold the merged zone, or else the first
      zone, and every other key as merged. */
  lemma PreparedZone(defaults: Dict, machineParams: Dict, zones: Value, k: string)
    requires Prepare(defaults, machineParams, zones).1.None?
    ensures var params := Prepare(defaults, machineParams, zones).0;
            var merged := Merge(defaults, machineParams).dict;
            && !Merge(defaults, machineParams).failed
            && Lookup(params, "zone") == (if Lookup(merged, "zone").Some? then Lookup(merged, "zone") else Some(Index0(zones).value))
            && (k != "zone" ==> Lookup(params, k) == Lookup(merged, k))
  {
    var merged := Merge(defaults, machineParams).dict;
    var z := if Lookup(merged, "zone").Some? then Lookup(merged, "zone").value else Index0(zones).value;
    UpdateSets(merged, "zone", z);
    if k != "zone" {
      UpdateKeeps(merged, "zone", z, k);
    }
  }

  /** The dictionary `create_instance` returns. */
  function LaunchReport(name: string, project: Value, zone: Value, reply: Dict): Dict {
    [("machine_name", VStr(name)),
     ("machine_project", project),
     ("machine_zone", zone),
     ("operation_name", match Lookup(reply, "name") case Some(n) => n case None => VNull)]
  }

  // ---------------------------------------------------------------------
  // The handler
  // ---------------------------------------------------------------------

  class CloudHandlerGCP {
    const name: Value
    const zones: Value
    const project: Value
    const providerType: string
    const credentials: Credentials
    const computeApi: ComputeApi
    /** The layered defaults; `create_instance` merges into them in place. */
    var machineDefaults: Dict

    /** `CloudHandlerGCP.__init__` once the settings are known: the
        handler keeps them and checks the project's firewall. */
    constructor(s: Settings, api: ComputeApi)
      modifies api`firewalls
      ensures name == s.name && zones == s.zones && project == s.project && credentials == s.credentials
      ensures providerType == ProviderTypeGcp && computeApi == api && machineDefaults == s.machineDefaults
      ensures api.firewalls == FirewallsAfterCheck(old(api.firewalls))
    {
      name := s.name;
      zones := s.zones;
      project := s.project;
      providerType := ProviderTypeGcp;
      credentials := s.credentials;
      computeApi := api;
      machineDefaults := s.machineDefaults;
      new;
      CheckForFirewallRule();
    }

    /** `is_valid`: credentials, provider type and compute API are always
        set here; the provider's settings must not be `None`. */
    predicate IsValid() {
      name != VNull && zones != VNull && project != VNull
    }

    /** `check_for_firewall_rule`: scan the listed rules for the monkey
        rule and create it when none is found. */
    method CheckForFirewallRule()
      modifies computeApi`firewalls
      ensures computeApi.firewalls == FirewallsAfterCheck(old(computeApi.firewalls))
    {
      var items := computeApi.firewalls;
      var found := false;
      var i := 0;
      while i < |items|
        invariant 0 <= i <= |items|
        invariant forall j :: 0 <= j < i ==> !IsMonkeyRule(items[j])
      {
        if Lookup(items[i], "name") == Some(VStr(FirewallRuleName)) {
          found := true;
          break;
        }
        i := i + 1;
      }
      if !found {
        CreateFirewallRule();
      }
    }

    /** `create_firewall_rule` */
    method CreateFirewallRule()
      modifies computeApi`firewalls
      ensures computeApi.firewalls == old(computeApi.firewalls) + [FirewallRule()]
    {
      computeApi.InsertFirewall(FirewallRule());
    }

    /** `check_connection`: listing the first zone succeeds and its
        response has truthy `items` (anything truthy, iterable or not);
        any exception means no connection. */
    predicate CheckConnection() {
      match Index0(zones)
      case Raised(_) => false
      case Ok(z) =>
        match computeApi.instanceListing(z)
        case ListRaises => false
        case Listed(response) =>
          match Lookup(response, "items")
          case None => false
          case Some(items) => Truthy(items)
    }

    /** A connected handler's zones can be iterated and its first zone's
        listing has truthy `items`. When those items can be iterated, the
        listings scan them, there is at least one, and when they all have
        names `list_instances` lists at least one instance. */
    lemma ConnectionMeansFirstZoneListed()
      requires CheckConnection()
      ensures Iterate(zones).Some? && Iterate(zones).value != []
      ensures var l := computeApi.instanceListing(Iterate(zones).value[0]);
              l.Listed? && Lookup(l.response, "items").Some? && Truthy(Lookup(l.response, "items").value)
      ensures var zs := Iterate(zones).value;
              var l := computeApi.instanceListing(zs[0]);
              var items := Lookup(l.response, "items").value;
              Iterate(items).Some? ==>
                && ZoneItems(l) == Iterate(items)
                && Iterate(items).value != []
                && ((forall i :: 0 <= i < |Iterate(items).value| ==> Subscript(Iterate(items).value[i], "name").Ok?) ==>
                      Collect(Instances, computeApi.instanceListing, zs) != [])
    {
      var zs := Iterate(zones).value;
      var l := computeApi.instanceListing(zs[0]);
      var items := Lookup(l.response, "items").value;
      if Iterate(items).Some? {
        TruthyIterableIsNonEmpty(items);
        var its := Iterate(items).value;
        if forall i :: 0 <= i < |its| ==> Subscript(its[i], "name").Ok? {
          ZoneInstances(l);
          assert |ZoneNames(Instances, l)| == |its|;
        }
      }
    }

    /** Truthy items that cannot be iterated, such as `True`, still count
        as a connection, although no listing can scan them. */
    lemma ConnectionWithUniterableItems()
      requires zones == VList([VStr("z")])
      requires computeApi.instanceListing(VStr("z")) == Listed([("items", VBool(true))])
      ensures CheckConnection()
      ensures ZoneItems(computeApi.instanceListing(VStr("z"))).None?
      ensures Collect(Instances, computeApi.instanceListing, [VStr("z")]) == []
    {
      assert [VStr("z")][1..] == [];
    }

    /** `list_instances`: the names of every zone's instances, zone by
        zone; zones that are not iterable raise. */
    method ListInstances() returns (r: Result<seq<Value>>)
      ensures Iterate(zones).None? ==> r == Raised(TypeError)
      ensures Iterate(zones).Some? ==> r == Ok(Collect(Instances, computeApi.instanceListing, Iterate(zones).value))
    {
      var zs := Iterate(zones);
      if zs.None? {
        return Raised(TypeError);
      }
      var instances := CollectZones(Instances, computeApi.instanceListing, zs.value);
      return Ok(instances);
    }

    /** `list_jobs`: zone by zone, the names of the instances labelled
        with the handler's monkey identifier. */
    method ListJobs() returns (r: Result<seq<Value>>)
      ensures Iterate(zones).None? ==> r == Raised(TypeError)
      ensures Iterate(zones).Some? ==>
                r == Ok(Collect(Jobs(Lookup(machineDefaults, IdentifierKey)), computeApi.instanceListing, Iterate(zones).value))
    {
      var zs := Iterate(zones);
      if zs.None? {
        return Raised(TypeError);
      }
      var jobs := CollectZones(Jobs(Lookup(machineDefaults, IdentifierKey)), computeApi.instanceListing, zs.value);
      return Ok(jobs);
    }

    /** The loop over the zones both listings share: each zone's `try`
        body adds its names to those of the zones before it. */
    method CollectZones(q: Query, listing: Value -> Listing, zs: seq<Value>) returns (names: seq<Value>)
      ensures names == Collect(q, listing, zs)
    {
      names := [];
      var i := 0;
      while i < |zs|
        invariant 0 <= i <= |zs|
        invariant Collect(q, listing, zs) == names + Collect(q, listing, zs[i..])
      {
        var contribution := ZoneQueryNames(q, listing(zs[i]));
        CollectAfter(q, listing, zs, i, names);
        names := names + contribution;
        i := i + 1;
      }
      assert zs[i..] == [];
      assert names + [] == names;
    }

    /** The `try` body of one zone, for either listing. */
    method ZoneQueryNames(q: Query, l: Listing) returns (names: seq<Value>)
      ensures names == ZoneNames(q, l)
    {
      match q {
        case Instances => names := ZoneInstanceNames(l);
        case Jobs(target) => names := ZoneJobNames(l, target);
      }
    }

    /** The body of `list_instances`'s `try` for one zone: a zone that
        raises, has no items, or has an item without a name adds nothing. */
    method ZoneInstanceNames(l: Listing) returns (names: seq<Value>)
      ensures names == ZoneNames(Instances, l)
    {
      names := [];
      var items := ZoneItems(l);
      if items.Some? {
        var all := Names(items.value);
        if all.Some? {
          names := all.value;
        }
      }
    }

    /** The body of `list_jobs`'s `try` for one zone. */
    method ZoneJobNames(l: Listing, target: Option<Value>) returns (found: seq<Value>)
      ensures found == ZoneNames(Jobs(target), l)
    {
      found := [];
      var items := ZoneItems(l);
      if items.Some? {
        found := ScanZone(items.value, target);
      }
    }

    /** The inner loop of `list_jobs` over one zone's items. */
    method ScanZone(items: seq<Value>, target: Option<Value>) returns (found: seq<Value>)
      ensures found == JobsAmong(items, target)
    {
      found := [];
      var j := 0;
      while j < |items|
        invariant 0 <= j <= |items|
        invariant JobsAmong(items, target) == found + JobsAmong(items[j..], target)
      {
        assert items[j..][0] == items[j] && items[j..][1..] == items[j + 1..];
        var verdict := JobVerdict(items[j], target);
        if verdict.Raises? {
          return;
        }
        if verdict.Append? {
          found := found + [verdict.name];
        }
        j := j + 1;
      }
      assert items[j..] == [];
    }

    /** `wait_for_operation` over the results the successive polls give. */
    method WaitForOperation(polls: seq<Value>) returns (w: Wait)
      ensures w == WaitOutcome(zones, polls)
    {
      var first := Index0(zones);
      if first.Raised? {
        return WaitRaised(first.exc);
      }
      var i := 0;
      while i < |polls|
        invariant 0 <= i <= |polls|
        invariant PollFrom(polls) == PollFrom(polls[i..])
      {
        assert polls[i..][0] == polls[i] && polls[i..][1..] == polls[i + 1..];
        var result := polls[i];
        var status := Subscript(result, "status");
        if status.Raised? {
          return WaitRaised(status.exc);
        }
        if status.value == VStr("DONE") {
          var err := Lookup(result.entries, "error");
          if err.Some? {
            return WaitRaised(OperationError(err.value));
          }
          return Done(result);
        }
        i := i + 1;
      }
      return StillPending;
    }

    /** `create_instance`: merge the machine parameters into the handler's
        defaults (in place: the merge and the zone persist in the handler
        whatever follows), then build the configuration and insert the
        instance, returning its name, project, zone and operation name.
        `reply` is the API's answer to the insert. */
    method CreateInstance(machineParams: Dict, suffix: string, now: string, readFile: Value -> Option<string>,
                          injectStart: Option<string>, injectEnd: Option<string>, reply: Dict)
      returns (r: Result<Option<Dict>>)
      requires IsNameSuffix(suffix)
      modifies this`machineDefaults, computeApi`instanceInserts
      ensures var (params, err) := Prepare(old(machineDefaults), machineParams, zones);
              && machineDefaults == params
              && (err.Some? ==> r == Raised(err.value) && computeApi.instanceInserts == old(computeApi.instanceInserts))
              && (err.None? ==>
                    match InstancePlan(params, project, credentials.serviceAccountEmail, suffix, now, readFile, injectStart, injectEnd)
                    case NoInstance => r == Ok(None) && computeApi.instanceInserts == old(computeApi.instanceInserts)
                    case PlanRaises(e) => r == Raised(e) && computeApi.instanceInserts == old(computeApi.instanceInserts)
                    case Launch(zone, parts) =>
                      && r == Ok(Some(LaunchReport(parts.name, project, zone, reply)))
                      && computeApi.instanceInserts == old(computeApi.instanceInserts) + [(project, zone, ConfigDict(parts))])
    {
      var merged, ok := MergeParams(machineDefaults, machineParams);
      machineDefaults := merged;
      if !ok {
        return Raised(TypeError);
      }
      var zone: Value;
      var given := Lookup(machineDefaults, "zone");
      if given.Some? {
        zone := given.value;
      } else {
        var first := Index0(zones);
        if first.Raised? {
          return Raised(first.exc);
        }
        zone := first.value;
      }
      machineDefaults := Update(machineDefaults, "zone", zone);

      var plan := BuildPlan(machineDefaults, project, credentials.serviceAccountEmail, suffix, now, readFile,
                            injectStart, injectEnd);
      match plan
      case NoInstance => return Ok(None);
      case PlanRaises(e) => return Raised(e);
      case Launch(instanceZone, parts) =>
        computeApi.InsertInstance(project, instanceZone, ConfigDict(parts));
        return Ok(Some(LaunchReport(parts.name, project, instanceZone, reply)));
    }
  }

  /** `CloudHandler.create_cloud_handler`: a handler when the settings
      can be read, after which the project's firewall is checked; the
      exception otherwise, with nothing sent. */
  method CreateCloudHandler(info: Dict, defaults: Defaults, load: Value -> Option<Credentials>, api: ComputeApi)
    returns (r: Result<CloudHandlerGCP>)
    modifies api`firewalls
    ensures HandlerSettings(info, defaults, load).Raised? ==>
              r.Raised? && r.exc == HandlerSettings(info, defaults, load).exc && api.firewalls == old(api.firewalls)
    ensures HandlerSettings(info, defaults, load).Ok? ==>
              var s := HandlerSettings(info, defaults, load).value;
              && r.Ok? && r.value.computeApi == api && r.value.providerType == ProviderTypeGcp
              && r.value.name == s.name && r.value.zones == s.zones && r.value.project == s.project
              && r.value.machineDefaults == s.machineDefaults && r.value.credentials == s.credentials
              && api.firewalls == FirewallsAfterCheck(old(api.firewalls))
              && (r.value.IsValid() <==> Lookup(info, "name") != Some(VNull) && Lookup(info, "project") != Some(VNull))
  {
    var settings := HandlerSettings(info, defaults, load);
    if settings.Raised? {
      return Raised(settings.exc);
    }
    BuiltHandlerValidity(info, defaults, load);
    var handler := new CloudHandlerGCP(settings.value, api);
    return Ok(handler);
  }
}
