/**
 * The in-memory part of the MICS (Medical Implant Communication Service)
 * device identifier: a catalogue of implant records keyed by MAC address,
 * manufacturer lookup by MAC prefix, two classification rules, and the
 * insert, lookup, update, filter and report operations over the catalogue.
 */
module DeviceIdentification {
  import opened Wrappers
  import opened Counting
  import opened MacAddress

  datatype DeviceType =
    | Pacemaker | Defibrillator | CardiacMonitor | Neurostimulator | DeepBrainStimulator
    | InsulinPump | GlucoseMonitor | BoneGrowthStimulator | ResearchDevice | Unknown
  {
    function Value(): string {
      match this
      case Pacemaker => "pacemaker"
      case Defibrillator => "defibrillator"
      case CardiacMonitor => "cardiac_monitor"
      case Neurostimulator => "neurostimulator"
      case DeepBrainStimulator => "deep_brain_stimulator"
      case InsulinPump => "insulin_pump"
      case GlucoseMonitor => "glucose_monitor"
      case BoneGrowthStimulator => "bone_growth_stimulator"
      case ResearchDevice => "research_device"
      case Unknown => "unknown"
    }
  }

  datatype DeviceManufacturer =
    | Medtronic | BostonScientific | Abbott | Biotronik | StJude | Sorin | Ela | Vitatron | Unknown
  {
    function Value(): string {
      match this
      case Medtronic => "medtronic"
      case BostonScientific => "boston_scientific"
      case Abbott => "abbott"
      case Biotronik => "biotronik"
      case StJude => "st_jude"
      case Sorin => "sorin"
      case Ela => "ela"
      case Vitatron => "vitatron"
      case Unknown => "unknown"
    }
  }

  datatype SecurityLevel = Low | Medium | High | Critical
  {
    function Value(): string {
      match this
      case Low => "low"
      case Medium => "medium"
      case High => "high"
      case Critical => "critical"
    }
  }

  /** One catalogue record (the floating-point power and duty-cycle fields and the free-form communication pattern are not modelled). */
  datatype MICSDevice = MICSDevice(
    macAddress: string,
    deviceType: DeviceType,
    manufacturer: DeviceManufacturer,
    model: string,
    serialNumber: string,
    firmwareVersion: string,
    securityLevel: SecurityLevel,
    frequencyChannels: seq<int>,
    lastSeen: Timestamp,
    firstSeen: Timestamp,
    securityFeatures: seq<string>,
    vulnerabilities: seq<string>,
    complianceStatus: map<string, bool>,
    notes: string)

  /** The RF signature fields the classification reads. */
  datatype DeviceSignature = DeviceSignature(
    macAddress: string,
    frequencyHoppingPattern: seq<int>,
    modulationType: string,
    dataRate: int)

  /** One row of the manufacturer pattern table (its per-model regular expressions are not modelled). */
  datatype ManufacturerPattern = ManufacturerPattern(
    manufacturer: DeviceManufacturer,
    macPrefixes: seq<string>,
    securityFeatures: seq<string>)

  /** The table in its dictionary order. */
  const ManufacturerPatterns: seq<ManufacturerPattern> := [
    ManufacturerPattern(Medtronic, ["00:11:22", "00:11:23", "00:11:24"],
                        ["AES-128", "Authentication", "Frequency Hopping"]),
    ManufacturerPattern(BostonScientific, ["00:11:25", "00:11:26", "00:11:27"],
                        ["AES-256", "Multi-factor Authentication", "Frequency Hopping"]),
    ManufacturerPattern(Abbott, ["00:11:28", "00:11:29", "00:11:2A"],
                        ["AES-128", "Authentication", "Frequency Hopping"])
  ]

  /** No prefix is listed for two manufacturers, so a lookup has at most one answer. */
  lemma PrefixListsDisjoint()
    ensures forall i, j, p :: 0 <= i < j < |ManufacturerPatterns| && p in ManufacturerPatterns[i].macPrefixes
              ==> p !in ManufacturerPatterns[j].macPrefixes
    ensures forall i, j :: 0 <= i < j < |ManufacturerPatterns|
              ==> ManufacturerPatterns[i].manufacturer != ManufacturerPatterns[j].manufacturer
    ensures forall i :: 0 <= i < |ManufacturerPatterns| ==> ManufacturerPatterns[i].manufacturer != DeviceManufacturer.Unknown
  {
  }

  /** The manufacturer of the first row listing `prefix`, or UNKNOWN when none does. */
  function MatchPrefix(table: seq<ManufacturerPattern>, prefix: string): (r: DeviceManufacturer)
    ensures r != DeviceManufacturer.Unknown ==>
              exists i :: 0 <= i < |table| && table[i].manufacturer == r && prefix in table[i].macPrefixes
    ensures (forall i :: 0 <= i < |table| ==> prefix !in table[i].macPrefixes) ==> r == DeviceManufacturer.Unknown
    ensures forall i :: (0 <= i < |table| && prefix in table[i].macPrefixes &&
                         forall j :: 0 <= j < i ==> prefix !in table[j].macPrefixes) ==> r == table[i].manufacturer
    decreases |table|
  {
    if table == [] then DeviceManufacturer.Unknown
    else if prefix in table[0].macPrefixes then table[0].manufacturer
    else
      var r := MatchPrefix(table[1..], prefix);
      assert forall i :: 1 <= i < |table| ==> table[i] == table[1..][i - 1];
      r
  }

  /** The first eight characters, or the whole string when it is shorter (`mac_address[:8]`). */
  function MacPrefix(mac: string): (r: string)
    ensures |r| == Min(8, |mac|) && r <= mac
  {
    mac[..Min(8, |mac|)]
  }

  /**
   * The manufacturer whose prefix list holds the address's first eight
   * characters; UNKNOWN exactly when no list holds them.
   */
  function IdentifyManufacturer(mac: string): (r: DeviceManufacturer)
    ensures r == DeviceManufacturer.Unknown <==>
              forall i :: 0 <= i < |ManufacturerPatterns| ==> MacPrefix(mac) !in ManufacturerPatterns[i].macPrefixes
    ensures forall i :: 0 <= i < |ManufacturerPatterns| && MacPrefix(mac) in ManufacturerPatterns[i].macPrefixes
              ==> r == ManufacturerPatterns[i].manufacturer
  {
    PrefixListsDisjoint();
    MatchPrefix(ManufacturerPatterns, MacPrefix(mac))
  }

  /** The security features the table lists for `m` (the first row naming it), or none. */
  function FeaturesOf(table: seq<ManufacturerPattern>, m: DeviceManufacturer): (r: seq<string>)
    ensures (forall i :: 0 <= i < |table| ==> table[i].manufacturer != m) ==> r == []
    ensures forall i :: (0 <= i < |table| && table[i].manufacturer == m &&
                         forall j :: 0 <= j < i ==> table[j].manufacturer != m) ==> r == table[i].securityFeatures
    decreases |table|
  {
    if table == [] then []
    else if table[0].manufacturer == m then table[0].securityFeatures
    else
      var r := FeaturesOf(table[1..], m);
      assert forall i :: 1 <= i < |table| ==> table[i] == table[1..][i - 1];
      r
  }

  /**
   * The type heuristic: no signature gives UNKNOWN; otherwise a data rate
   * above 100 gives CARDIAC_MONITOR, else a hopping pattern longer than 5
   * gives DEFIBRILLATOR, else PACEMAKER.
   */
  function IdentifyDeviceType(mac: string, signature: Option<DeviceSignature>): (r: DeviceType)
    ensures r == DeviceType.Unknown <==> signature.None?
    ensures r == CardiacMonitor <==> signature.Some? && signature.value.dataRate > 100
    ensures r == Defibrillator <==>
              signature.Some? && signature.value.dataRate <= 100 && |signature.value.frequencyHoppingPattern| > 5
    ensures r == Pacemaker <==>
              signature.Some? && signature.value.dataRate <= 100 && |signature.value.frequencyHoppingPattern| <= 5
  {
    match signature
    case None => DeviceType.Unknown
    case Some(s) =>
      if s.dataRate > 100 then CardiacMonitor
      else if |s.frequencyHoppingPattern| > 5 then Defibrillator
      else Pacemaker
  }

  /** The security level is a function of the device type alone. */
  function DetermineSecurityLevel(deviceType: DeviceType, manufacturer: DeviceManufacturer): (r: SecurityLevel)
    ensures r == Critical <==> deviceType in {Defibrillator, DeepBrainStimulator}
    ensures r == High <==> deviceType in {Pacemaker, Neurostimulator}
    ensures r == Medium <==> deviceType in {InsulinPump, GlucoseMonitor}
    ensures r == Low <==> deviceType !in {Defibrillator, DeepBrainStimulator, Pacemaker, Neurostimulator, InsulinPump, GlucoseMonitor}
  {
    if deviceType in [Defibrillator, DeepBrainStimulator] then Critical
    else if deviceType in [Pacemaker, Neurostimulator] then High
    else if deviceType in [InsulinPump, GlucoseMonitor] then Medium
    else Low
  }

  /** The manufacturer argument never changes the level. */
  lemma SecurityLevelIgnoresManufacturer(t: DeviceType, m1: DeviceManufacturer, m2: DeviceManufacturer)
    ensures DetermineSecurityLevel(t, m1) == DetermineSecurityLevel(t, m2)
  {
  }

  /**
   * The level an identified device receives from its signature: none gives
   * LOW, a data rate above 100 gives LOW, else a hopping pattern longer than 5
   * gives CRITICAL, else HIGH.
   */
  lemma {:induction false} IdentifiedSecurityLevel(mac: string, signature: Option<DeviceSignature>, m: DeviceManufacturer)
    ensures var level := DetermineSecurityLevel(IdentifyDeviceType(mac, signature), m);
      && (signature.None? ==> level == Low)
      && (signature.Some? && signature.value.dataRate > 100 ==> level == Low)
      && (signature.Some? && signature.value.dataRate <= 100 && |signature.value.frequencyHoppingPattern| > 5 ==> level == Critical)
      && (signature.Some? && signature.value.dataRate <= 100 && |signature.value.frequencyHoppingPattern| <= 5 ==> level == High)
  {
  }

  /** The record `identify_device` creates for an address not yet in the catalogue. */
  function AutoIdentified(key: string, deviceType: DeviceType, manufacturer: DeviceManufacturer, now: Timestamp): MICSDevice {
    MICSDevice(
      key, deviceType, manufacturer, "Unknown", "", "Unknown",
      DetermineSecurityLevel(deviceType, manufacturer),
      [1, 3, 5, 7, 9], now, now,
      FeaturesOf(ManufacturerPatterns, manufacturer), [],
      map["fcc_part_95" := true, "fda_approved" := false, "hipaa_compliant" := false],
      "Auto-identified " + deviceType.Value() + " from " + manufacturer.Value())
  }

  /** One `setattr` of `update_device`: a known attribute and its new value, or a name the record lacks. */
  datatype Update =
    | SetMacAddress(macAddress: string)
    | SetDeviceType(deviceType: DeviceType)
    | SetManufacturer(manufacturer: DeviceManufacturer)
    | SetModel(model: string)
    | SetSerialNumber(serialNumber: string)
    | SetFirmwareVersion(firmwareVersion: string)
    | SetSecurityLevel(securityLevel: SecurityLevel)
    | SetFrequencyChannels(frequencyChannels: seq<int>)
    | SetLastSeen(lastSeen: Timestamp)
    | SetFirstSeen(firstSeen: Timestamp)
    | SetSecurityFeatures(securityFeatures: seq<string>)
    | SetVulnerabilities(vulnerabilities: seq<string>)
    | SetComplianceStatus(complianceStatus: map<string, bool>)
    | SetNotes(notes: string)
    | Other(name: string)

  /** The attributes of a record, as names for `Update`s. */
  datatype Field =
    | MacAddressField | DeviceTypeField | ManufacturerField | ModelField | SerialNumberField
    | FirmwareVersionField | SecurityLevelField | FrequencyChannelsField | LastSeenField
    | FirstSeenField | SecurityFeaturesField | VulnerabilitiesField | ComplianceStatusField | NotesField

  /** The attribute an update writes; None for a name the record lacks. */
  function Target(u: Update): Option<Field> {
    match u
    case SetMacAddress(_) => Some(MacAddressField)
    case SetDeviceType(_) => Some(DeviceTypeField)
    case SetManufacturer(_) => Some(ManufacturerField)
    case SetModel(_) => Some(ModelField)
    case SetSerialNumber(_) => Some(SerialNumberField)
    case SetFirmwareVersion(_) => Some(FirmwareVersionField)
    case SetSecurityLevel(_) => Some(SecurityLevelField)
    case SetFrequencyChannels(_) => Some(FrequencyChannelsField)
    case SetLastSeen(_) => Some(LastSeenField)
    case SetFirstSeen(_) => Some(FirstSeenField)
    case SetSecurityFeatures(_) => Some(SecurityFeaturesField)
    case SetVulnerabilities(_) => Some(VulnerabilitiesField)
    case SetComplianceStatus(_) => Some(ComplianceStatusField)
    case SetNotes(_) => Some(NotesField)
    case Other(_) => None
  }

  /** `a` and `b` hold the same value in attribute `f`. */
  predicate Agree(a: MICSDevice, b: MICSDevice, f: Field) {
    match f
    case MacAddressField => a.macAddress == b.macAddress
    case DeviceTypeField => a.deviceType == b.deviceType
    case ManufacturerField => a.manufacturer == b.manufacturer
    case ModelField => a.model == b.model
    case SerialNumberField => a.serialNumber == b.serialNumber
    case FirmwareVersionField => a.firmwareVersion == b.firmwareVersion
    case SecurityLevelField => a.securityLevel == b.securityLevel
    case FrequencyChannelsField => a.frequencyChannels == b.frequencyChannels
    case LastSeenField => a.lastSeen == b.lastSeen
    case FirstSeenField => a.firstSeen == b.firstSeen
    case SecurityFeaturesField => a.securityFeatures == b.securityFeatures
    case VulnerabilitiesField => a.vulnerabilities == b.vulnerabilities
    case ComplianceStatusField => a.complianceStatus == b.complianceStatus
    case NotesField => a.notes == b.notes
  }

  /** `d` holds the value `u` writes (trivially so for an unknown name). */
  predicate Carries(d: MICSDevice, u: Update) {
    match u
    case SetMacAddress(v) => d.macAddress == v
    case SetDeviceType(v) => d.deviceType == v
    case SetManufacturer(v) => d.manufacturer == v
    case SetModel(v) => d.model == v
    case SetSerialNumber(v) => d.serialNumber == v
    case SetFirmwareVersion(v) => d.firmwareVersion == v
    case SetSecurityLevel(v) => d.securityLevel == v
    case SetFrequencyChannels(v) => d.frequencyChannels == v
    case SetLastSeen(v) => d.lastSeen == v
    case SetFirstSeen(v) => d.firstSeen == v
    case SetSecurityFeatures(v) => d.securityFeatures == v
    case SetVulnerabilities(v) => d.vulnerabilities == v
    case SetComplianceStatus(v) => d.complianceStatus == v
    case SetNotes(v) => d.notes == v
    case Other(_) => true
  }

  /** One `setattr`: the named attribute takes the value, every other attribute keeps its own. */
  function ApplyUpdate(d: MICSDevice, u: Update): (r: MICSDevice)
    ensures Carries(r, u)
    ensures forall f :: Target(u) != Some(f) ==> Agree(d, r, f)
  {
    match u
    case SetMacAddress(v) => d.(macAddress := v)
    case SetDeviceType(v) => d.(deviceType := v)
    case SetManufacturer(v) => d.(manufacturer := v)
    case SetModel(v) => d.(model := v)
    case SetSerialNumber(v) => d.(serialNumber := v)
    case SetFirmwareVersion(v) => d.(firmwareVersion := v)
    case SetSecurityLevel(v) => d.(securityLevel := v)
    case SetFrequencyChannels(v) => d.(frequencyChannels := v)
    case SetLastSeen(v) => d.(lastSeen := v)
    case SetFirstSeen(v) => d.(firstSeen := v)
    case SetSecurityFeatures(v) => d.(securityFeatures := v)
    case SetVulnerabilities(v) => d.(vulnerabilities := v)
    case SetComplianceStatus(v) => d.(complianceStatus := v)
    case SetNotes(v) => d.(notes := v)
    case Other(_) => d
  }

  /** The updates applied in order. */
  function ApplyUpdates(d: MICSDevice, us: seq<Update>): MICSDevice
    decreases |us|
  {
    if us == [] then d else ApplyUpdate(ApplyUpdates(d, us[..|us| - 1]), us[|us| - 1])
  }

  /** An attribute no update names keeps its value. */
  lemma {:induction false} UntouchedFieldKept(d: MICSDevice, us: seq<Update>, f: Field)
    requires forall i :: 0 <= i < |us| ==> Target(us[i]) != Some(f)
    ensures Agree(d, ApplyUpdates(d, us), f)
    decreases |us|
  {
    if us != [] {
      UntouchedFieldKept(d, us[..|us| - 1], f);
    }
  }

  /** Names the record lacks are skipped: a list of only such names changes nothing. */
  lemma {:induction false} UnknownNamesIgnored(d: MICSDevice, us: seq<Update>)
    requires forall i :: 0 <= i < |us| ==> us[i].Other?
    ensures ApplyUpdates(d, us) == d
    decreases |us|
  {
    if us != [] {
      UnknownNamesIgnored(d, us[..|us| - 1]);
    }
  }

  /** An update that no later update of the same attribute overrides is in the result. */
  lemma {:induction false} LastUpdateWins(d: MICSDevice, us: seq<Update>, i: nat)
    requires i < |us|
    requires forall j :: i < j < |us| ==> Target(us[j]) != Target(us[i])
    ensures Carries(ApplyUpdates(d, us), us[i])
    decreases |us|
  {
    var front := us[..|us| - 1];
    var last := us[|us| - 1];
    if i < |us| - 1 {
      LastUpdateWins(d, front, i);
      var before := ApplyUpdates(d, front);
      var after := ApplyUpdate(before, last);
      assert front[i] == us[i];
      if Target(us[i]).Some? {
        assert Agree(before, after, Target(us[i]).value);
      }
    }
  }

  /** A filter of the catalogue listings. */
  datatype Criterion =
    | ByType(deviceType: DeviceType)
    | ByManufacturer(manufacturer: DeviceManufacturer)
    | BySecurityLevel(securityLevel: SecurityLevel)

  predicate Matches(d: MICSDevice, c: Criterion) {
    match c
    case ByType(t) => d.deviceType == t
    case ByManufacturer(m) => d.manufacturer == m
    case BySecurityLevel(l) => d.securityLevel == l
  }

  /** The records of `ds` meeting `c`, in their order. */
  function Select(ds: seq<MICSDevice>, c: Criterion): (r: seq<MICSDevice>)
    ensures |r| <= |ds|
    ensures forall d {:trigger d in r} :: d in r <==> d in ds && Matches(d, c)
    ensures forall d {:trigger multiset(r)[d]} :: multiset(r)[d] == if Matches(d, c) then multiset(ds)[d] else 0
    decreases |ds|
  {
    if ds == [] then []
    else
      assert ds == [ds[0]] + ds[1..];
      (if Matches(ds[0], c) then [ds[0]] else []) + Select(ds[1..], c)
  }

  /** The keys of `order` whose record meets `c`. */
  ghost function MatchingKeys(db: map<string, MICSDevice>, order: seq<string>, c: Criterion): set<string>
    requires forall k :: k in order ==> k in db
  {
    set k | k in order && Matches(db[k], c)
  }

  lemma MatchingKeysFirst(db: map<string, MICSDevice>, order: seq<string>, c: Criterion)
    requires order != [] && order[0] !in order[1..]
    requires forall k :: k in order ==> k in db
    ensures |MatchingKeys(db, order, c)| == (if Matches(db[order[0]], c) then 1 else 0) + |MatchingKeys(db, order[1..], c)|
  {
    var here, there := MatchingKeys(db, order, c), MatchingKeys(db, order[1..], c);
    assert forall k :: k in order <==> k == order[0] || k in order[1..];
    if Matches(db[order[0]], c) {
      assert here == there + {order[0]};
    } else {
      assert here == there;
    }
  }

  /**
   * Listing the records of distinct keys and filtering gives one entry per
   * key whose record meets the criterion: records are never merged.
   */
  lemma {:induction false} SelectCountsKeys(db: map<string, MICSDevice>, order: seq<string>, c: Criterion)
    requires Distinct(order)
    requires forall k :: k in order ==> k in db
    ensures |Select(ValuesInOrder(db, order), c)| == |MatchingKeys(db, order, c)|
    decreases |order|
  {
    if order != [] {
      var rest := order[1..];
      DistinctTail(order);
      SelectCountsKeys(db, rest, c);
      var vs := ValuesInOrder(db, order);
      assert vs[1..] == ValuesInOrder(db, rest);
      SelectFirst(vs, c);
      MatchingKeysFirst(db, order, c);
    }
  }

  /** The filter works piecewise: filtering a concatenation concatenates the filtered parts, in order. */
  lemma {:induction false} SelectAppend(a: seq<MICSDevice>, b: seq<MICSDevice>, c: Criterion)
    ensures Select(a + b, c) == Select(a, c) + Select(b, c)
    ensures |a| == 1 ==> Select(a, c) == if Matches(a[0], c) then a else []
    decreases |a|
  {
    if a == [] {
      assert a + b == b;
    } else {
      var head := if Matches(a[0], c) then [a[0]] else [];
      assert (a + b)[0] == a[0] && (a + b)[1..] == a[1..] + b;
      SelectCons(a + b, c);
      SelectCons(a, c);
      SelectAppend(a[1..], b, c);
      assert Select(a + b, c) == head + (Select(a[1..], c) + Select(b, c));
      assert head + (Select(a[1..], c) + Select(b, c)) == (head + Select(a[1..], c)) + Select(b, c);
      if |a| == 1 {
        assert a[1..] == [];
      }
    }
  }

  /** One step of the filter, as an equation. */
  lemma SelectCons(ds: seq<MICSDevice>, c: Criterion)
    requires ds != []
    ensures Select(ds, c) == (if Matches(ds[0], c) then [ds[0]] else []) + Select(ds[1..], c)
  {
  }

  /** The keys of `order` whose record meets `c`, in the order of `order`. */
  function KeysWhere(db: map<string, MICSDevice>, order: seq<string>, c: Criterion): (r: seq<string>)
    requires forall k :: k in order ==> k in db
    ensures forall k :: k in r <==> k in order && Matches(db[k], c)
    decreases |order|
  {
    if order == [] then []
    else (if Matches(db[order[0]], c) then [order[0]] else []) + KeysWhere(db, order[1..], c)
  }

  lemma {:induction false} KeysWhereDistinct(db: map<string, MICSDevice>, order: seq<string>, c: Criterion)
    requires Distinct(order)
    requires forall k :: k in order ==> k in db
    ensures Distinct(KeysWhere(db, order, c))
    decreases |order|
  {
    if order != [] {
      DistinctTail(order);
      KeysWhereDistinct(db, order[1..], c);
      var tail := KeysWhere(db, order[1..], c);
      if Matches(db[order[0]], c) {
        var r := [order[0]] + tail;
        assert order[0] !in tail;
        assert forall i, j :: 0 < i < j < |r| ==> r[i] == tail[i - 1] && r[j] == tail[j - 1];
      }
    }
  }

  lemma ValuesInOrderCons(db: map<string, MICSDevice>, order: seq<string>)
    requires order != []
    requires forall k :: k in order ==> k in db
    ensures ValuesInOrder(db, order) == [db[order[0]]] + ValuesInOrder(db, order[1..])
  {
  }

  lemma ValuesInOrderAppend(db: map<string, MICSDevice>, a: seq<string>, b: seq<string>)
    requires forall k :: k in a + b ==> k in db
    ensures ValuesInOrder(db, a + b) == ValuesInOrder(db, a) + ValuesInOrder(db, b)
  {
  }

  /** Filtering the records of `order` is listing the records of the matching keys. */
  lemma {:induction false} SelectByKeys(db: map<string, MICSDevice>, order: seq<string>, c: Criterion)
    requires forall k :: k in order ==> k in db
    ensures Select(ValuesInOrder(db, order), c) == ValuesInOrder(db, KeysWhere(db, order, c))
    decreases |order|
  {
    if order != [] {
      var rest := order[1..];
      var vs := ValuesInOrder(db, order);
      ValuesInOrderCons(db, order);
      SelectCons(vs, c);
      assert vs[1..] == ValuesInOrder(db, rest);
      SelectByKeys(db, rest, c);
      var head := if Matches(db[order[0]], c) then [order[0]] else [];
      ValuesInOrderAppend(db, head, KeysWhere(db, rest, c));
      assert ValuesInOrder(db, head) == if Matches(db[order[0]], c) then [db[order[0]]] else [];
    }
  }

  /** The keys holding `d`: the first key and those of the rest. */
  lemma HoldersFirst(db: map<string, MICSDevice>, keys: seq<string>, d: MICSDevice)
    requires keys != [] && keys[0] !in keys[1..]
    requires forall k :: k in keys ==> k in db
    ensures |set k | k in keys && db[k] == d| == (if db[keys[0]] == d then 1 else 0) + |set k | k in keys[1..] && db[k] == d|
  {
    var here := set k | k in keys && db[k] == d;
    var there := set k | k in keys[1..] && db[k] == d;
    assert forall k :: k in keys <==> k == keys[0] || k in keys[1..];
    if db[keys[0]] == d {
      assert here == there + {keys[0]};
    } else {
      assert here == there;
    }
  }

  /** Listing the records of distinct keys repeats a record once per key holding it. */
  lemma {:induction false} ValuesMultiplicity(db: map<string, MICSDevice>, keys: seq<string>, d: MICSDevice)
    requires Distinct(keys)
    requires forall k :: k in keys ==> k in db
    ensures multiset(ValuesInOrder(db, keys))[d] == |set k | k in keys && db[k] == d|
    decreases |keys|
  {
    if keys != [] {
      DistinctTail(keys);
      ValuesMultiplicity(db, keys[1..], d);
      ValuesInOrderCons(db, keys);
      HoldersFirst(db, keys, d);
    }
  }

  /**
   * A listing of the whole catalogue under a criterion holds exactly the
   * matching stored records, one entry per key holding one.
   */
  lemma ListingContents(db: map<string, MICSDevice>, order: seq<string>, c: Criterion)
    requires Distinct(order) && (set k | k in order) == db.Keys
    ensures var r := Select(ValuesInOrder(db, order), c);
      && (forall d :: d in r <==> Matches(d, c) && exists k :: k in db && db[k] == d)
      && |r| == |set k | k in db && Matches(db[k], c)|
  {
    SelectCountsKeys(db, order, c);
    assert MatchingKeys(db, order, c) == set k | k in db && Matches(db[k], c);
    var vs := ValuesInOrder(db, order);
    assert forall k :: k in db ==> exists i :: 0 <= i < |order| && order[i] == k;
    assert forall d :: d in vs <==> exists k :: k in db && db[k] == d;
  }

  /**
   * The same listing, entry by entry: the records of the matching keys in
   * insertion order, so each record appears as often as keys hold it.
   */
  lemma ListingByKeys(db: map<string, MICSDevice>, order: seq<string>, c: Criterion)
    requires Distinct(order) && (set k | k in order) == db.Keys
    ensures var r, ks := Select(ValuesInOrder(db, order), c), KeysWhere(db, order, c);
      && |r| == |ks|
      && (forall i :: 0 <= i < |ks| ==> r[i] == db[ks[i]])
      && (forall d :: multiset(r)[d] == if Matches(d, c) then |set k | k in db && db[k] == d| else 0)
  {
    SelectByKeys(db, order, c);
    forall d ensures multiset(ValuesInOrder(db, KeysWhere(db, order, c)))[d]
                     == if Matches(d, c) then |set k | k in db && db[k] == d| else 0 {
      MatchingHolders(db, order, c, d);
    }
  }

  /** The matching keys hold `d` once each if `d` matches, and never otherwise. */
  lemma MatchingHolders(db: map<string, MICSDevice>, order: seq<string>, c: Criterion, d: MICSDevice)
    requires Distinct(order) && (set k | k in order) == db.Keys
    ensures multiset(ValuesInOrder(db, KeysWhere(db, order, c)))[d]
            == if Matches(d, c) then |set k | k in db && db[k] == d| else 0
  {
    var ks := KeysWhere(db, order, c);
    KeysWhereDistinct(db, order, c);
    ValuesMultiplicity(db, ks, d);
    if Matches(d, c) {
      assert (set k | k in ks && db[k] == d) == (set k | k in db && db[k] == d);
    } else {
      assert (set k | k in ks && db[k] == d) == {};
    }
  }

  /** Every record has exactly one of the four levels, so the four listings together are as long as the catalogue. */
  lemma {:induction false} SecurityLevelsPartition(ds: seq<MICSDevice>)
    ensures |Select(ds, BySecurityLevel(Critical))| + |Select(ds, BySecurityLevel(High))|
            + |Select(ds, BySecurityLevel(Medium))| + |Select(ds, BySecurityLevel(Low))| == |ds|
    decreases |ds|
  {
    if ds != [] {
      SecurityLevelsPartition(ds[1..]);
      SelectFirst(ds, BySecurityLevel(Critical));
      SelectFirst(ds, BySecurityLevel(High));
      SelectFirst(ds, BySecurityLevel(Medium));
      SelectFirst(ds, BySecurityLevel(Low));
    }
  }

  /** One step of the filter: the first record is kept exactly when it matches. */
  lemma SelectFirst(ds: seq<MICSDevice>, c: Criterion)
    requires ds != []
    ensures |Select(ds, c)| == (if Matches(ds[0], c) then 1 else 0) + |Select(ds[1..], c)|
  {
  }

  /** `compliance_status.get(key, False)`. */
  predicate Complies(d: MICSDevice, key: string) {
    key in d.complianceStatus && d.complianceStatus[key]
  }

  /** How many records of `ds` have `key` set in their compliance status. */
  function CountCompliant(ds: seq<MICSDevice>, key: string): nat
    decreases |ds|
  {
    if ds == [] then 0
    else CountCompliant(ds[..|ds| - 1], key) + (if Complies(ds[|ds| - 1], key) then 1 else 0)
  }

  /** The count is bounded by the number of records: zero exactly when none complies, all exactly when each does. */
  lemma {:induction false} CountCompliantBounds(ds: seq<MICSDevice>, key: string)
    ensures CountCompliant(ds, key) <= |ds|
    ensures CountCompliant(ds, key) == 0 <==> forall i :: 0 <= i < |ds| ==> !Complies(ds[i], key)
    ensures CountCompliant(ds, key) == |ds| <==> forall i :: 0 <= i < |ds| ==> Complies(ds[i], key)
    decreases |ds|
  {
    if ds != [] {
      var front := ds[..|ds| - 1];
      CountCompliantBounds(front, key);
      assert forall i :: 0 <= i < |ds| - 1 ==> front[i] == ds[i];
    }
  }

  /** The vulnerability lists of `ds`, concatenated in order. */
  function AllVulnerabilities(ds: seq<MICSDevice>): seq<string>
    decreases |ds|
  {
    if ds == [] then [] else AllVulnerabilities(ds[..|ds| - 1]) + ds[|ds| - 1].vulnerabilities
  }

  /** A vulnerability is reported exactly when some record lists it. */
  lemma {:induction false} AllVulnerabilitiesMembership(ds: seq<MICSDevice>)
    ensures forall v :: v in AllVulnerabilities(ds) <==> exists i :: 0 <= i < |ds| && v in ds[i].vulnerabilities
    decreases |ds|
  {
    if ds != [] {
      var front := ds[..|ds| - 1];
      AllVulnerabilitiesMembership(front);
      assert forall i :: 0 <= i < |front| ==> front[i] == ds[i];
    }
  }

  function ManufacturerNames(ds: seq<MICSDevice>): (r: seq<string>)
    ensures |r| == |ds| && forall i :: 0 <= i < |ds| ==> r[i] == ds[i].manufacturer.Value()
  {
    seq(|ds|, i requires 0 <= i < |ds| => ds[i].manufacturer.Value())
  }

  function DeviceTypeNames(ds: seq<MICSDevice>): (r: seq<string>)
    ensures |r| == |ds| && forall i :: 0 <= i < |ds| ==> r[i] == ds[i].deviceType.Value()
  {
    seq(|ds|, i requires 0 <= i < |ds| => ds[i].deviceType.Value())
  }

  datatype SecuritySummary = SecuritySummary(critical: nat, high: nat, medium: nat, low: nat)
  datatype ComplianceSummary = ComplianceSummary(fccCompliant: nat, fdaApproved: nat, hipaaCompliant: nat)

  datatype SecurityReport = SecurityReport(
    reportDate: Timestamp,
    totalDevices: nat,
    securitySummary: SecuritySummary,
    manufacturerSummary: map<string, nat>,
    deviceTypeSummary: map<string, nat>,
    complianceSummary: ComplianceSummary,
    vulnerabilities: seq<string>)

  predicate Distinct<T(==)>(s: seq<T>) {
    forall i, j :: 0 <= i < j < |s| ==> s[i] != s[j]
  }

  lemma {:induction false} DistinctCardinality<T>(s: seq<T>)
    requires Distinct(s)
    ensures |set x | x in s| == |s|
    decreases |s|
  {
    if s != [] {
      var front := s[..|s| - 1];
      DistinctCardinality(front);
      assert (set x | x in s) == (set x | x in front) + {s[|s| - 1]};
      assert s[|s| - 1] !in front;
    }
  }

  lemma DistinctTail<T>(s: seq<T>)
    requires Distinct(s) && s != []
    ensures Distinct(s[1..]) && s[0] !in s[1..]
  {
    var rest := s[1..];
    assert forall i, j :: 0 <= i < j < |rest| ==> rest[i] == s[i + 1] && rest[j] == s[j + 1];
  }

  /** The records of `db` in the order of `order`. */
  function ValuesInOrder(db: map<string, MICSDevice>, order: seq<string>): (r: seq<MICSDevice>)
    requires forall k :: k in order ==> k in db
    ensures |r| == |order| && forall i :: 0 <= i < |order| ==> r[i] == db[order[i]]
  {
    seq(|order|, i requires 0 <= i < |order| => db[order[i]])
  }

  class MICSDeviceIdentifier {
    /** The catalogue, keyed by MAC address. */
    var deviceDatabase: map<string, MICSDevice>
    /** The catalogue's keys in the order a Python dict iterates them: first insertion first. */
    var insertionOrder: seq<string>

    ghost predicate Valid()
      reads this
    {
      Distinct(insertionOrder) && (set k | k in insertionOrder) == deviceDatabase.Keys
    }

    /** An empty catalogue (the stored copies on disk are not modelled). */
    constructor ()
      ensures Valid()
      ensures deviceDatabase == map[] && insertionOrder == []
    {
      deviceDatabase := map[];
      insertionOrder := [];
    }

    /** The records in dict order (`device_database.values()`). */
    function Devices(): (r: seq<MICSDevice>)
      reads this
      requires Valid()
      ensures |r| == |deviceDatabase| == |insertionOrder|
      ensures forall i :: 0 <= i < |insertionOrder| ==> r[i] == deviceDatabase[insertionOrder[i]]
      ensures forall d :: d in r <==> exists k :: k in deviceDatabase && deviceDatabase[k] == d
    {
      DistinctCardinality(insertionOrder);
      var r := ValuesInOrder(deviceDatabase, insertionOrder);
      assert forall k :: k in deviceDatabase ==> exists i :: 0 <= i < |insertionOrder| && insertionOrder[i] == k;
      r
    }

    /** The record stored under exactly `mac`, if any. */
    function GetDevice(mac: string): (r: Option<MICSDevice>)
      reads this
      ensures r.None? <==> mac !in deviceDatabase
      ensures r.Some? ==> r.value == deviceDatabase[mac]
    {
      if mac in deviceDatabase then Some(deviceDatabase[mac]) else None
    }

    /** The stored records of type `t`, one per key holding one, in insertion order. */
    function GetDevicesByType(t: DeviceType): (r: seq<MICSDevice>)
      reads this
      requires Valid()
      ensures forall d :: d in r <==> Matches(d, ByType(t)) && exists k :: k in deviceDatabase && deviceDatabase[k] == d
      ensures |r| == |set k | k in deviceDatabase && Matches(deviceDatabase[k], ByType(t))|
      ensures forall d :: multiset(r)[d] == if Matches(d, ByType(t)) then |set k | k in deviceDatabase && deviceDatabase[k] == d| else 0
      ensures var keys := KeysWhere(deviceDatabase, insertionOrder, ByType(t));
                |r| == |keys| && forall i :: 0 <= i < |keys| ==> r[i] == deviceDatabase[keys[i]]
    {
      ListingContents(deviceDatabase, insertionOrder, ByType(t));
      ListingByKeys(deviceDatabase, insertionOrder, ByType(t));
      Select(Devices(), ByType(t))
    }

    /** The stored records of manufacturer `m`, one per key holding one, in insertion order. */
    function GetDevicesByManufacturer(m: DeviceManufacturer): (r: seq<MICSDevice>)
      reads this
      requires Valid()
      ensures forall d :: d in r <==> Matches(d, ByManufacturer(m)) && exists k :: k in deviceDatabase && deviceDatabase[k] == d
      ensures |r| == |set k | k in deviceDatabase && Matches(deviceDatabase[k], ByManufacturer(m))|
      ensures forall d :: multiset(r)[d] == if Matches(d, ByManufacturer(m)) then |set k | k in deviceDatabase && deviceDatabase[k] == d| else 0
      ensures var keys := KeysWhere(deviceDatabase, insertionOrder, ByManufacturer(m));
                |r| == |keys| && forall i :: 0 <= i < |keys| ==> r[i] == deviceDatabase[keys[i]]
    {
      ListingContents(deviceDatabase, insertionOrder, ByManufacturer(m));
      ListingByKeys(deviceDatabase, insertionOrder, ByManufacturer(m));
      Select(Devices(), ByManufacturer(m))
    }

    /** The stored records at level `l`, one per key holding one, in insertion order. */
    function GetDevicesBySecurityLevel(l: SecurityLevel): (r: seq<MICSDevice>)
      reads this
      requires Valid()
      ensures forall d :: d in r <==> Matches(d, BySecurityLevel(l)) && exists k :: k in deviceDatabase && deviceDatabase[k] == d
      ensures |r| == |set k | k in deviceDatabase && Matches(deviceDatabase[k], BySecurityLevel(l))|
      ensures forall d :: multiset(r)[d] == if Matches(d, BySecurityLevel(l)) then |set k | k in deviceDatabase && deviceDatabase[k] == d| else 0
      ensures var keys := KeysWhere(deviceDatabase, insertionOrder, BySecurityLevel(l));
                |r| == |keys| && forall i :: 0 <= i < |keys| ==> r[i] == deviceDatabase[keys[i]]
    {
      ListingContents(deviceDatabase, insertionOrder, BySecurityLevel(l));
      ListingByKeys(deviceDatabase, insertionOrder, BySecurityLevel(l));
      Select(Devices(), BySecurityLevel(l))
    }

    /**
     * Identify by normalised address: a known address has only its
     * `lastSeen` refreshed; an unknown one gets exactly one new record built
     * from the prefix table and the signature. The answer is never None.
     */
    method IdentifyDevice(mac: string, signature: Option<DeviceSignature>, now: Timestamp) returns (r: Option<MICSDevice>)
      requires Valid()
      modifies this
      ensures Valid()
      ensures r.Some? && r.value.lastSeen == now
      ensures var key := NormalizeMacAddress(mac);
        && deviceDatabase == old(deviceDatabase)[key := r.value]
        && (key in old(deviceDatabase) ==>
              r.value == old(deviceDatabase)[key].(lastSeen := now) && insertionOrder == old(insertionOrder))
        && (key !in old(deviceDatabase) ==>
              && insertionOrder == old(insertionOrder) + [key]
              && r.value.macAddress == key
              && r.value.manufacturer == IdentifyManufacturer(key)
              && r.value.deviceType == IdentifyDeviceType(key, signature)
              && r.value.securityLevel == DetermineSecurityLevel(r.value.deviceType, r.value.manufacturer)
              && r.value.model == "Unknown" && r.value.serialNumber == "" && r.value.firmwareVersion == "Unknown"
              && r.value.frequencyChannels == [1, 3, 5, 7, 9]
              && r.value.firstSeen == now
              && r.value.securityFeatures == FeaturesOf(ManufacturerPatterns, r.value.manufacturer)
              && r.value.vulnerabilities == []
              && r.value.complianceStatus == map["fcc_part_95" := true, "fda_approved" := false, "hipaa_compliant" := false]
              && r.value.notes == "Auto-identified " + r.value.deviceType.Value() + " from " + r.value.manufacturer.Value())
    {
      var key := NormalizeMacAddress(mac);
      if key in deviceDatabase {
        var device := deviceDatabase[key].(lastSeen := now);
        deviceDatabase := deviceDatabase[key := device];
        return Some(device);
      }
      var manufacturer := IdentifyManufacturer(key);
      var deviceType := IdentifyDeviceType(key, signature);
      var device := AutoIdentified(key, deviceType, manufacturer, now);
      deviceDatabase := deviceDatabase[key := device];
      insertionOrder := insertionOrder + [key];
      r := Some(device);
    }

    /** Store `device` under its own address, replacing any record there; a new key goes last. */
    method AddDevice(device: MICSDevice)
      requires Valid()
      modifies this
      ensures Valid()
      ensures deviceDatabase == old(deviceDatabase)[device.macAddress := device]
      ensures insertionOrder == if device.macAddress in old(deviceDatabase) then old(insertionOrder)
                                else old(insertionOrder) + [device.macAddress]
      ensures GetDevice(device.macAddress) == Some(device)
    {
      if device.macAddress !in deviceDatabase {
        insertionOrder := insertionOrder + [device.macAddress];
      }
      deviceDatabase := deviceDatabase[device.macAddress := device];
    }

    /**
     * Apply the updates to the record under `mac`, in order, then set its
     * `lastSeen`; an absent key changes nothing, and no other record changes.
     */
    method UpdateDevice(mac: string, updates: seq<Update>, now: Timestamp)
      requires Valid()
      modifies this
      ensures Valid()
      ensures insertionOrder == old(insertionOrder)
      ensures mac !in old(deviceDatabase) ==> deviceDatabase == old(deviceDatabase)
      ensures mac in old(deviceDatabase) ==>
                deviceDatabase == old(deviceDatabase)[mac := ApplyUpdates(old(deviceDatabase)[mac], updates).(lastSeen := now)]
    {
      if mac in deviceDatabase {
        var device := deviceDatabase[mac];
        ghost var original := device;
        for i := 0 to |updates|
          invariant device == ApplyUpdates(original, updates[..i])
        {
          assert updates[..i + 1][..i] == updates[..i];
          device := ApplyUpdate(device, updates[i]);
        }
        assert updates[..|updates|] == updates;
        device := device.(lastSeen := now);
        deviceDatabase := deviceDatabase[mac := device];
      }
    }

    /**
     * The counting report: the four level counts and each summary's counts
     * add up to the number of records, and each compliance count is at most it.
     */
    method GenerateSecurityReport(now: Timestamp) returns (report: SecurityReport)
      requires Valid()
      ensures report.reportDate == now
      ensures report.totalDevices == |deviceDatabase|
      ensures report.securitySummary == SecuritySummary(
                |GetDevicesBySecurityLevel(Critical)|, |GetDevicesBySecurityLevel(High)|,
                |GetDevicesBySecurityLevel(Medium)|, |GetDevicesBySecurityLevel(Low)|)
      ensures var s := report.securitySummary; s.critical + s.high + s.medium + s.low == report.totalDevices
      ensures report.manufacturerSummary == Tally(ManufacturerNames(Devices()))
      ensures report.deviceTypeSummary == Tally(DeviceTypeNames(Devices()))
      ensures MapSum(report.manufacturerSummary) == report.totalDevices
      ensures MapSum(report.deviceTypeSummary) == report.totalDevices
      ensures report.complianceSummary == ComplianceSummary(
                CountCompliant(Devices(), "fcc_part_95"), CountCompliant(Devices(), "fda_approved"),
                CountCompliant(Devices(), "hipaa_compliant"))
      ensures var c := report.complianceSummary;
        c.fccCompliant <= report.totalDevices && c.fdaApproved <= report.totalDevices && c.hipaaCompliant <= report.totalDevices
      ensures report.vulnerabilities == AllVulnerabilities(Devices())
    {
      var devices := Devices();
      var summary := SecuritySummary(
        |GetDevicesBySecurityLevel(Critical)|, |GetDevicesBySecurityLevel(High)|,
        |GetDevicesBySecurityLevel(Medium)|, |GetDevicesBySecurityLevel(Low)|);
      SecurityLevelsPartition(devices);
      var manufacturerSummary, deviceTypeSummary, compliance, vulnerabilities := SummarizeDevices(devices);
      report := SecurityReport(
        now, |deviceDatabase|, summary, manufacturerSummary, deviceTypeSummary, compliance, vulnerabilities);
    }
  }

  /** The per-record counts and lists grow by one record per step of the loop. */
  lemma PrefixStep(ds: seq<MICSDevice>, i: nat)
    requires i < |ds|
    ensures AllVulnerabilities(ds[..i + 1]) == AllVulnerabilities(ds[..i]) + ds[i].vulnerabilities
    ensures ManufacturerNames(ds[..i + 1]) == ManufacturerNames(ds[..i]) + [ds[i].manufacturer.Value()]
    ensures DeviceTypeNames(ds[..i + 1]) == DeviceTypeNames(ds[..i]) + [ds[i].deviceType.Value()]
  {
    assert ds[..i + 1][..i] == ds[..i];
  }

  lemma CountCompliantStep(ds: seq<MICSDevice>, i: nat, key: string)
    requires i < |ds|
    ensures CountCompliant(ds[..i + 1], key) == CountCompliant(ds[..i], key) + (if Complies(ds[i], key) then 1 else 0)
  {
    assert ds[..i + 1][..i] == ds[..i];
  }

  /**
   * The report's loop over the records: per-manufacturer and per-type counts
   * that add up to the number of records, the three compliance counts, and
   * the concatenated vulnerability lists.
   */
  method SummarizeDevices(devices: seq<MICSDevice>)
    returns (manufacturerSummary: map<string, nat>, deviceTypeSummary: map<string, nat>,
             compliance: ComplianceSummary, vulnerabilities: seq<string>)
    ensures manufacturerSummary == Tally(ManufacturerNames(devices))
    ensures deviceTypeSummary == Tally(DeviceTypeNames(devices))
    ensures MapSum(manufacturerSummary) == |devices| && MapSum(deviceTypeSummary) == |devices|
    ensures compliance == ComplianceSummary(
              CountCompliant(devices, "fcc_part_95"), CountCompliant(devices, "fda_approved"),
              CountCompliant(devices, "hipaa_compliant"))
    ensures compliance.fccCompliant <= |devices| && compliance.fdaApproved <= |devices|
            && compliance.hipaaCompliant <= |devices|
    ensures vulnerabilities == AllVulnerabilities(devices)
  {
    manufacturerSummary, deviceTypeSummary := map[], map[];
    var fcc, fda, hipaa := 0, 0, 0;
    vulnerabilities := [];
    for i := 0 to |devices|
      invariant manufacturerSummary == Tally(ManufacturerNames(devices[..i]))
      invariant deviceTypeSummary == Tally(DeviceTypeNames(devices[..i]))
      invariant fcc == CountCompliant(devices[..i], "fcc_part_95")
      invariant fda == CountCompliant(devices[..i], "fda_approved")
      invariant hipaa == CountCompliant(devices[..i], "hipaa_compliant")
      invariant vulnerabilities == AllVulnerabilities(devices[..i])
    {
      var device := devices[i];
      PrefixStep(devices, i);

      var manufacturer := device.manufacturer.Value();
      manufacturerSummary := Increment(manufacturerSummary, manufacturer);
      TallySnoc(ManufacturerNames(devices[..i]), manufacturer);

      var deviceType := device.deviceType.Value();
      deviceTypeSummary := Increment(deviceTypeSummary, deviceType);
      TallySnoc(DeviceTypeNames(devices[..i]), deviceType);

      CountCompliantStep(devices, i, "fcc_part_95");
      CountCompliantStep(devices, i, "fda_approved");
      CountCompliantStep(devices, i, "hipaa_compliant");
      fcc := fcc + if Complies(device, "fcc_part_95") then 1 else 0;
      fda := fda + if Complies(device, "fda_approved") then 1 else 0;
      hipaa := hipaa + if Complies(device, "hipaa_compliant") then 1 else 0;
      vulnerabilities := vulnerabilities + device.vulnerabilities;
    }
    assert devices[..|devices|] == devices;
    TallySum(ManufacturerNames(devices));
    TallySum(DeviceTypeNames(devices));
    CountCompliantBounds(devices, "fcc_part_95");
    CountCompliantBounds(devices, "fda_approved");
    CountCompliantBounds(devices, "hipaa_compliant");
    compliance := ComplianceSummary(fcc, fda, hipaa);
  }
}
