/** The instance configuration `create_instance` sends to the compute API,
    built from the machine parameters once they are merged and hold a
    zone: the checks that give up or raise, in the order the code makes
    them, the instance name, machine and disk types, labels, accelerators,
    and the metadata items ending in the wrapped startup script. */
module CloudInstance {
  import opened Common
  import opened PyValues

  const FirewallRuleName := "monkey-firewall"
  const DefaultNamePrefix := "monkey-"
  const SuffixLength := 6
  const SourceImage := "projects/gce-uefi-images/global/images/family/ubuntu-1804-lts"
  const DefaultDiskSize := "10"
  const DefaultDiskType := "pd-standard"
  const DiskTypeBase := "https://www.googleapis.com/compute/v1/"
  const CreationTimeLabel := "job-creation-time"
  const IdentifierKey := "monkey-identifier"
  const IdentifierMsg := "You must have a the monkey-identifier set for each user in cloud_providers.yaml"
  const ScriptMsg := "Could not read startup script file"
  const StartupScriptKey := "startup-script"
  const InjectStartPath := "../monkey-client/inject-start.sh"
  const InjectEndPath := "../monkey-client/inject-end.sh"
  const StorageScope := "https://www.googleapis.com/auth/devstorage.read_write"
  const LoggingScope := "https://www.googleapis.com/auth/logging.write"

  /** The random part of an instance name: six lowercase letters. */
  predicate IsNameSuffix(s: string) {
    |s| == SuffixLength && forall i :: 0 <= i < |s| ==> 'a' <= s[i] <= 'z'
  }

  /** `"zones/{}/machineTypes/{}".format(zone, type)` */
  function MachineType(zone: Value, instanceType: Value): string {
    "zones/" + Format(zone) + "/machineTypes/" + Format(instanceType)
  }

  /** `"projects/{}/zones/{}/".format(project, zone)` */
  function ProjectZone(project: Value, zone: Value): string {
    "projects/" + Format(project) + "/zones/" + Format(zone) + "/"
  }

  /** The value under `key`, or `default` when the parameters lack it. */
  function ValueOr(params: Dict, key: string, default: Value): Value {
    match Lookup(params, key)
    case Some(v) => v
    case None => default
  }

  /** The instance name: `name-prefix` (default `monkey-`) followed by the
      random suffix; a prefix that is not a string cannot be concatenated
      with one (`TypeError`). */
  function InstanceName(params: Dict, suffix: string): Result<string> {
    match ValueOr(params, "name-prefix", VStr(DefaultNamePrefix))
    case VStr(prefix) => Ok(prefix + suffix)
    case _ => Raised(TypeError)
  }

  /** `params[key].items()` when the key is present, nothing otherwise; a
      value that is not a dictionary has no `items` (`AttributeError`). */
  function UserEntries(params: Dict, key: string): Result<Dict> {
    match Lookup(params, key)
    case None => Ok([])
    case Some(VDict(entries)) => Ok(entries)
    case Some(_) => Raised(AttributeError)
  }

  /** The instance labels: the user's labels copied one by one, then the
      creation time, then the monkey identifier. */
  function Labels(userLabels: Dict, now: string, identifier: Value): Dict {
    Update(Update(Assign([], userLabels), CreationTimeLabel, VStr(now)), IdentifierKey, identifier)
  }

  /** The accelerator of a `gpus` entry, as its full type path and count;
      an entry that is not a dictionary or lacks either key raises. */
  function Accelerator(params: Dict, projectZone: string): Result<Option<(string, Value)>> {
    match Lookup(params, "gpus")
    case None => Ok(None)
    case Some(gpus) =>
      match Subscript(gpus, "acceleratorType")
      case Raised(e) => Raised(e)
      case Ok(acceleratorType) =>
        match Subscript(gpus, "acceleratorCount")
        case Raised(e) => Raised(e)
        case Ok(count) => Ok(Some((projectZone + "acceleratorTypes/" + Format(acceleratorType), count)))
  }

  /** One item of the instance metadata. */
  function MetadataItem(key: string, value: Value): Value {
    VDict([("key", VStr(key)), ("value", value)])
  }

  /** The metadata items of the user's metadata entries, in their order. */
  function MetadataItems(entries: Dict): seq<Value> {
    seq(|entries|, i requires 0 <= i < |entries| => MetadataItem(entries[i].0, entries[i].1))
  }

  /** Every metadata value is a string, as `str.replace` needs. */
  predicate AllStrings(entries: Dict) {
    forall i :: 0 <= i < |entries| ==> entries[i].1.VStr?
  }

  /** The user's startup script: empty without `startup-script-file`,
      otherwise the file's text. The substitution of `$key` by each
      metadata value discards its result, so the text is returned
      unchanged; but a metadata value that is not a string makes the
      substitution raise, and every failure there is reported as the
      script being unreadable. */
  function StartupScript(params: Dict, metadata: Dict, readFile: Value -> Option<string>): (r: Result<string>)
    ensures r.Raised? ==> r.exc == ValueError(ScriptMsg)
    ensures Lookup(params, "startup-script-file").None? ==> r == Ok("")
    ensures Lookup(params, "startup-script-file").Some? ==>
              (r.Ok? <==> readFile(Lookup(params, "startup-script-file").value).Some? && AllStrings(metadata))
    ensures Lookup(params, "startup-script-file").Some? && r.Ok? ==>
              r.value == readFile(Lookup(params, "startup-script-file").value).value
  {
    match Lookup(params, "startup-script-file")
    case None => Ok("")
    case Some(file) =>
      match readFile(file)
      case None => Raised(ValueError(ScriptMsg))
      case Some(text) => if AllStrings(metadata) then Ok(text) else Raised(ValueError(ScriptMsg))
  }

  /** The parts of the configuration that depend on the parameters. */
  datatype InstanceParts = InstanceParts(
    name: string,
    machineType: string,
    diskSize: Value,
    diskType: string,
    email: string,
    labels: Dict,
    preemptible: Option<Value>,
    accelerator: Option<(string, Value)>,
    metadata: seq<Value>)

  /** The request body: the fixed boot disk image, the default network
      with external NAT, the service account with storage and logging
      scopes and the firewall tag, then the labels, the scheduling and
      accelerators when asked for, and the metadata items. */
  function ConfigDict(p: InstanceParts): (config: Dict)
    ensures Lookup(config, "name") == Some(VStr(p.name))
    ensures Lookup(config, "machineType") == Some(VStr(p.machineType))
    ensures Lookup(config, "labels") == Some(VDict(p.labels))
    ensures Lookup(config, "tags") == Some(VDict([("items", VList([VStr(FirewallRuleName)]))]))
    ensures Lookup(config, "metadata") == Some(VDict([("items", VList(p.metadata))]))
  {
    var fixed := FixedEntries(p);
    var rest := SchedulingEntry(p) + AcceleratorEntry(p) + [MetadataEntry(p)];
    LookupAt(fixed, 0);
    LookupAt(fixed, 1);
    LookupAt(fixed, 5);
    LookupAt(fixed, 6);
    LookupInPrefix(fixed, rest);
    assert Lookup(fixed + rest, "metadata") == Some(MetadataEntry(p).1) by {
      assert fixed + rest == (fixed + SchedulingEntry(p) + AcceleratorEntry(p)) + [MetadataEntry(p)];
      LookupLast(fixed + SchedulingEntry(p) + AcceleratorEntry(p), "metadata", MetadataEntry(p).1);
    }
    fixed + rest
  }

  /** The entries every request body has, up to the labels. */
  function FixedEntries(p: InstanceParts): Dict {
    [
      ("name", VStr(p.name)),
      ("machineType", VStr(p.machineType)),
      ("disks", VList([VDict([
        ("boot", VBool(true)),
        ("autoDelete", VBool(true)),
        ("initializeParams", VDict([
          ("sourceImage", VStr(SourceImage)),
          ("diskSizeGb", p.diskSize),
          ("diskType", VStr(p.diskType))]))])])),
      ("networkInterfaces", VList([VDict([
        ("network", VStr("global/networks/default")),
        ("accessConfigs", VList([VDict([("type", VStr("ONE_TO_ONE_NAT")), ("name", VStr("External NAT"))])]))])])),
      ("serviceAccounts", VList([VDict([
        ("email", VStr(p.email)),
        ("scopes", VList([VStr(StorageScope), VStr(LoggingScope)]))])])),
      ("tags", VDict([("items", VList([VStr(FirewallRuleName)]))])),
      ("labels", VDict(p.labels))]
  }

  /** `config['scheduling']`, set only when `preemptible` is given. */
  function SchedulingEntry(p: InstanceParts): Dict {
    if p.preemptible.Some? then [("scheduling", VDict([("preemptible", p.preemptible.value)]))] else []
  }

  /** `config['guestAccelerators']`, set only when `gpus` is given. */
  function AcceleratorEntry(p: InstanceParts): Dict {
    if p.accelerator.Some? then
      [("guestAccelerators", VList([VDict([("acceleratorType", VStr(p.accelerator.value.0)),
                                           ("acceleratorCount", p.accelerator.value.1)])]))]
    else []
  }

  /** The metadata items, always last. */
  function MetadataEntry(p: InstanceParts): (string, Value) {
    ("metadata", VDict([("items", VList(p.metadata))]))
  }

  /** The body has `scheduling` exactly when `preemptible` was given, with
      that value, and `guestAccelerators` exactly when `gpus` was given,
      with one accelerator of the given type and count. */
  lemma ConfigOptionalSettings(p: InstanceParts)
    ensures Lookup(ConfigDict(p), "scheduling")
         == if p.preemptible.Some? then Some(VDict([("preemptible", p.preemptible.value)])) else None
    ensures Lookup(ConfigDict(p), "guestAccelerators")
         == if p.accelerator.Some?
            then Some(VList([VDict([("acceleratorType", VStr(p.accelerator.value.0)),
                                    ("acceleratorCount", p.accelerator.value.1)])]))
            else None
  {
    var fixed, sched, acc, meta := FixedEntries(p), SchedulingEntry(p), AcceleratorEntry(p), [MetadataEntry(p)];
    assert ConfigDict(p) == fixed + (sched + (acc + meta));
    LookupPastPrefix(fixed, sched + (acc + meta), "scheduling");
    LookupPastPrefix(fixed, sched + (acc + meta), "guestAccelerators");
    LookupPastPrefix(sched, acc + meta, "guestAccelerators");
    if p.preemptible.None? {
      assert sched + (acc + meta) == acc + meta;
      LookupPastPrefix(acc, meta, "scheduling");
    }
    if p.accelerator.None? {
      assert acc + meta == meta;
    }
  }

  /** A key that no entry of `a` has is looked up in `b`. */
  lemma {:induction false} LookupPastPrefix(a: Dict, b: Dict, k: string)
    requires forall i :: 0 <= i < |a| ==> a[i].0 != k
    ensures Lookup(a + b, k) == Lookup(b, k)
    decreases |a|
  {
    if a != [] {
      assert (a + b)[0] == a[0] && (a + b)[1..] == a[1..] + b;
      assert a[0].0 != k;
      LookupPastPrefix(a[1..], b, k);
    } else {
      assert a + b == b;
    }
  }

  /** A key found in `a` is found in `a + b`. */
  lemma {:induction false} LookupInPrefix(a: Dict, b: Dict)
    ensures forall k :: Lookup(a, k).Some? ==> Lookup(a + b, k) == Lookup(a, k)
    decreases |a|
  {
    if a != [] {
      LookupInPrefix(a[1..], b);
      assert (a + b)[1..] == a[1..] + b;
    }
  }

  /** The first entry holding a key decides it. */
  lemma {:induction false} LookupAt(d: Dict, i: nat)
    requires i < |d| && forall j :: 0 <= j < i ==> d[j].0 != d[i].0
    ensures Lookup(d, d[i].0) == Some(d[i].1)
    decreases i
  {
    if i > 0 {
      assert d[1..][i - 1] == d[i];
      LookupAt(d[1..], i - 1);
    }
  }

  /** The last entry decides a key no earlier entry holds. */
  lemma {:induction false} LookupLast(a: Dict, k: string, v: Value)
    requires forall i :: 0 <= i < |a| ==> a[i].0 != k
    ensures Lookup(a + [(k, v)], k) == Some(v)
    decreases |a|
  {
    if a != [] {
      assert (a + [(k, v)])[1..] == a[1..] + [(k, v)];
      LookupLast(a[1..], k, v);
    }
  }

  /** What the code decides once the parameters are merged: give up
      (`None`), raise, or insert an instance in `zone` configured by
      `parts`. */
  datatype Plan = NoInstance | PlanRaises(exc: Exception) | Launch(zone: Value, parts: InstanceParts)

  /** `create_instance` from reading the source image on: the inputs the
      code cannot compute are the random suffix, the creation time, the
      file contents (`readFile`, and the two inject scripts, `None` when
      they cannot be opened) and the service account's e-mail. */
  function InstancePlan(params: Dict, project: Value, email: string, suffix: string, now: string,
                        readFile: Value -> Option<string>, injectStart: Option<string>, injectEnd: Option<string>): Plan
  {
    if Lookup(params, "source-image").None? then NoInstance
    else if Lookup(params, "instance-type").None? || Lookup(params, "zone").None? then NoInstance
    else
      var zone := Lookup(params, "zone").value;
      var projectZone := ProjectZone(project, zone);
      match InstanceName(params, suffix)
      case Raised(e) => PlanRaises(e)
      case Ok(name) =>
        match UserEntries(params, "labels")
        case Raised(e) => PlanRaises(e)
        case Ok(userLabels) =>
          match Lookup(params, IdentifierKey)
          case None => PlanRaises(ValueError(IdentifierMsg))
          case Some(identifier) =>
            match Accelerator(params, projectZone)
            case Raised(e) => PlanRaises(e)
            case Ok(accelerator) =>
              match UserEntries(params, "metadata")
              case Raised(e) => PlanRaises(e)
              case Ok(metadata) =>
                match StartupScript(params, metadata, readFile)
                case Raised(e) => PlanRaises(e)
                case Ok(script) =>
                  if injectStart.None? then PlanRaises(OSError(InjectStartPath))
                  else if injectEnd.None? then PlanRaises(OSError(InjectEndPath))
                  else
                    var diskType := DiskTypeBase + projectZone + "diskTypes/" + Format(ValueOr(params, "disk-type", VStr(DefaultDiskType)));
                    Launch(zone, InstanceParts(
                      name,
                      MachineType(zone, Lookup(params, "instance-type").value),
                      ValueOr(params, "disk-size", VStr(DefaultDiskSize)),
                      diskType,
                      email,
                      Labels(userLabels, now, identifier),
                      Lookup(params, "preemptible"),
                      accelerator,
                      MetadataItems(metadata) + [MetadataItem(StartupScriptKey, VStr(injectStart.value + script + injectEnd.value))]))
  }

  // ---------------------------------------------------------------------
  // What the plan promises
  // ---------------------------------------------------------------------

  /** The checks come in order and before anything is sent: without a
      source image, and then without an instance type, there is no
      instance; an instance is only ever planned when the source image,
      the instance type and the monkey identifier are all present. */
  lemma PlanChecksInOrder(params: Dict, project: Value, email: string, suffix: string, now: string,
                          readFile: Value -> Option<string>, injectStart: Option<string>, injectEnd: Option<string>)
    ensures var plan := InstancePlan(params, project, email, suffix, now, readFile, injectStart, injectEnd);
            && (Lookup(params, "source-image").None? ==> plan == NoInstance)
            && (Lookup(params, "instance-type").None? ==> plan == NoInstance)
            && (plan.Launch? ==> Lookup(params, "source-image").Some? && Lookup(params, "instance-type").Some?
                                 && Lookup(params, IdentifierKey).Some?)
  {
  }

  /** A missing monkey identifier raises `ValueError` once the image, the
      type and the zone are there and the name prefix and labels (when
      given) are a string and a dictionary. */
  lemma MissingIdentifierRaises(params: Dict, project: Value, email: string, suffix: string, now: string,
                                readFile: Value -> Option<string>, injectStart: Option<string>, injectEnd: Option<string>)
    requires Lookup(params, "source-image").Some? && Lookup(params, "instance-type").Some? && Lookup(params, "zone").Some?
    requires Lookup(params, "name-prefix").None? || Lookup(params, "name-prefix").value.VStr?
    requires Lookup(params, "labels").None? || Lookup(params, "labels").value.VDict?
    requires Lookup(params, IdentifierKey).None?
    ensures InstancePlan(params, project, email, suffix, now, readFile, injectStart, injectEnd)
         == PlanRaises(ValueError(IdentifierMsg))
  {
  }

  /** A planned instance sits in the parameters' zone, has machine type
      `zones/<zone>/machineTypes/<type>`, is named by the prefix
      (`monkey-` by default) and the six-letter suffix, and has a boot disk
      of the given size and type, `10` and `pd-standard` by default. */
  lemma LaunchShape(params: Dict, project: Value, email: string, suffix: string, now: string,
                    readFile: Value -> Option<string>, injectStart: Option<string>, injectEnd: Option<string>)
    requires IsNameSuffix(suffix)
    requires InstancePlan(params, project, email, suffix, now, readFile, injectStart, injectEnd).Launch?
    ensures var Launch(zone, parts) := InstancePlan(params, project, email, suffix, now, readFile, injectStart, injectEnd);
            && Lookup(params, "zone") == Some(zone)
            && parts.machineType == "zones/" + Format(zone) + "/machineTypes/" + Format(Lookup(params, "instance-type").value)
            && (Lookup(params, "name-prefix").None? ==> parts.name == "monkey-" + suffix)
            && (Lookup(params, "name-prefix").Some? ==> parts.name == Lookup(params, "name-prefix").value.s + suffix)
            && parts.name[|parts.name| - SuffixLength..] == suffix
            && (Lookup(params, "disk-size").None? ==> parts.diskSize == VStr("10"))
            && (Lookup(params, "disk-type").None? ==>
                  parts.diskType == DiskTypeBase + ProjectZone(project, zone) + "diskTypes/pd-standard")
            && parts.email == email
  {
    var name := InstancePlan(params, project, email, suffix, now, readFile, injectStart, injectEnd).parts.name;
    var prefix := ValueOr(params, "name-prefix", VStr(DefaultNamePrefix)).s;
    assert name == prefix + suffix;
    assert name[|name| - SuffixLength..] == suffix;
  }

  /** A planned instance's labels hold the creation time and the monkey
      identifier, and every other label the user gave, with the user's
      labels first in their order. */
  lemma LaunchLabels(params: Dict, project: Value, email: string, suffix: string, now: string,
                     readFile: Value -> Option<string>, injectStart: Option<string>, injectEnd: Option<string>,
                     userLabels: Dict, k: string)
    requires InstancePlan(params, project, email, suffix, now, readFile, injectStart, injectEnd).Launch?
    requires UserEntries(params, "labels") == Ok(userLabels) && UniqueKeys(userLabels)
    ensures var labels := InstancePlan(params, project, email, suffix, now, readFile, injectStart, injectEnd).parts.labels;
            && Lookup(labels, IdentifierKey) == Lookup(params, IdentifierKey)
            && Lookup(labels, CreationTimeLabel) == Some(VStr(now))
            && (k != IdentifierKey && k != CreationTimeLabel ==> Lookup(labels, k) == Lookup(userLabels, k))
            && Keys(userLabels) <= Keys(labels)
  {
    var id := Lookup(params, IdentifierKey).value;
    assert [] + userLabels == userLabels;
    AssignCopies([], userLabels);
    var withTime := Update(userLabels, CreationTimeLabel, VStr(now));
    UpdateSets(userLabels, CreationTimeLabel, VStr(now));
    UpdateSets(withTime, IdentifierKey, id);
    UpdateKeeps(withTime, IdentifierKey, id, CreationTimeLabel);
    if k != IdentifierKey && k != CreationTimeLabel {
      UpdateKeeps(userLabels, CreationTimeLabel, VStr(now), k);
      UpdateKeeps(withTime, IdentifierKey, id, k);
    }
    UpdateKeyOrder(userLabels, CreationTimeLabel, VStr(now));
    UpdateKeyOrder(withTime, IdentifierKey, id);
  }

  /** A planned instance's metadata items are the user's metadata in order
      and, last, the startup script: the start inject script, the user's
      script unchanged (empty without a script file) and the end inject
      script. */
  lemma LaunchMetadata(params: Dict, project: Value, email: string, suffix: string, now: string,
                       readFile: Value -> Option<string>, injectStart: Option<string>, injectEnd: Option<string>,
                       userMetadata: Dict)
    requires InstancePlan(params, project, email, suffix, now, readFile, injectStart, injectEnd).Launch?
    requires UserEntries(params, "metadata") == Ok(userMetadata)
    ensures var items := InstancePlan(params, project, email, suffix, now, readFile, injectStart, injectEnd).parts.metadata;
            var file := Lookup(params, "startup-script-file");
            var script := if file.None? then "" else readFile(file.value).value;
            && injectStart.Some? && injectEnd.Some?
            && |items| == |userMetadata| + 1
            && (forall i :: 0 <= i < |userMetadata| ==> items[i] == MetadataItem(userMetadata[i].0, userMetadata[i].1))
            && items[|userMetadata|] == MetadataItem(StartupScriptKey, VStr(injectStart.value + script + injectEnd.value))
            && (file.Some? ==> readFile(file.value).Some?)
  {
  }

  // ---------------------------------------------------------------------
  // The configuration built step by step
  // ---------------------------------------------------------------------

  /** `for key, value in entries: all[key] = value` into an empty `all`. */
  method CopyEntries(entries: Dict) returns (all: Dict)
    ensures all == Assign([], entries)
  {
    all := [];
    var i := 0;
    while i < |entries|
      invariant 0 <= i <= |entries|
      invariant Assign([], entries) == Assign(all, entries[i..])
    {
      assert entries[i..][0] == entries[i] && entries[i..][1..] == entries[i + 1..];
      all := Update(all, entries[i].0, entries[i].1);
      i := i + 1;
    }
  }

  /** The metadata items appended one per user entry. */
  method CollectMetadata(entries: Dict) returns (items: seq<Value>)
    ensures items == MetadataItems(entries)
  {
    items := [];
    var i := 0;
    while i < |entries|
      invariant 0 <= i <= |entries|
      invariant items == MetadataItems(entries[..i])
    {
      items := items + [MetadataItem(entries[i].0, entries[i].1)];
      i := i + 1;
    }
    assert entries[..i] == entries;
  }

  /** The substitution loop over the metadata items: it raises at the
      first value that is not a string, and otherwise has no effect. */
  method SubstitutionRaises(entries: Dict) returns (raised: bool)
    ensures raised <==> !AllStrings(entries)
  {
    var i := 0;
    while i < |entries|
      invariant 0 <= i <= |entries|
      invariant forall j :: 0 <= j < i ==> entries[j].1.VStr?
    {
      if !entries[i].1.VStr? {
        return true;
      }
      i := i + 1;
    }
    return false;
  }

  /** The configuration built as the code builds it, checks first. */
  method BuildPlan(params: Dict, project: Value, email: string, suffix: string, now: string,
                   readFile: Value -> Option<string>, injectStart: Option<string>, injectEnd: Option<string>)
    returns (plan: Plan)
    ensures plan == InstancePlan(params, project, email, suffix, now, readFile, injectStart, injectEnd)
  {
    var sourceImage := Lookup(params, "source-image");
    if sourceImage.None? {
      return NoInstance;
    }
    var instanceType := Lookup(params, "instance-type");
    var instanceZone := Lookup(params, "zone");
    if instanceType.None? || instanceZone.None? {
      return NoInstance;
    }
    var zone := instanceZone.value;
    var machineType := MachineType(zone, instanceType.value);
    var projectZone := ProjectZone(project, zone);
    var name := InstanceName(params, suffix);
    if name.Raised? {
      return PlanRaises(name.exc);
    }
    var diskSize := ValueOr(params, "disk-size", VStr(DefaultDiskSize));
    var diskType := DiskTypeBase + projectZone + "diskTypes/" + Format(ValueOr(params, "disk-type", VStr(DefaultDiskType)));

    var userLabels := UserEntries(params, "labels");
    if userLabels.Raised? {
      return PlanRaises(userLabels.exc);
    }
    var labels := CopyEntries(userLabels.value);
    labels := Update(labels, CreationTimeLabel, VStr(now));
    var identifier := Lookup(params, IdentifierKey);
    if identifier.None? {
      return PlanRaises(ValueError(IdentifierMsg));
    }
    labels := Update(labels, IdentifierKey, identifier.value);

    var preemptible := Lookup(params, "preemptible");
    var accelerator := Accelerator(params, projectZone);
    if accelerator.Raised? {
      return PlanRaises(accelerator.exc);
    }

    var metadata := UserEntries(params, "metadata");
    if metadata.Raised? {
      return PlanRaises(metadata.exc);
    }
    var items := CollectMetadata(metadata.value);

    var script := "";
    var file := Lookup(params, "startup-script-file");
    if file.Some? {
      var text := readFile(file.value);
      if text.None? {
        return PlanRaises(ValueError(ScriptMsg));
      }
      script := text.value;
      var raised := SubstitutionRaises(metadata.value);
      if raised {
        return PlanRaises(ValueError(ScriptMsg));
      }
    }

    if injectStart.None? {
      return PlanRaises(OSError(InjectStartPath));
    }
    if injectEnd.None? {
      return PlanRaises(OSError(InjectEndPath));
    }
    items := items + [MetadataItem(StartupScriptKey, VStr(injectStart.value + script + injectEnd.value))];
    return Launch(zone, InstanceParts(name.value, machineType, diskSize, diskType, email, labels,
                                      preemptible, accelerator.value, items));
  }
}
