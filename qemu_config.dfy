/** UTMQemuConfigurationQEMU: the "QEMU tweaks" part of a VM configuration.
    Eight feature flags, an optional machine-property override and a list of
    extra command-line arguments are persisted under fixed keys; the VM
    bundle's location (`dataURL`) lives only in memory and is supplied by the
    decoder's context. Fresh objects take their flags from the guest
    architecture, the machine target and the host; old-format configurations
    are migrated field by field. */
module QemuTweaks {
  import opened VmTypes

  /** One extra QEMU command-line argument (QEMUArgument), built from its text. */
  datatype QemuArgument = QemuArgument(text: string)

  /** Everything the object persists: all of its fields except `dataURL`. */
  datatype Tweaks = Tweaks(
    hasDebugLog: bool,
    hasUefiBoot: bool,
    hasRNGDevice: bool,
    hasBalloonDevice: bool,
    hasTPMDevice: bool,
    hasHypervisor: bool,
    hasRTCLocalTime: bool,
    hasPS2Controller: bool,
    machinePropertyOverride: Option<string>,
    additionalArguments: seq<QemuArgument>)

  // ---------------------------------------------------------------------
  // Persisted form

  /** A value stored in the document. */
  datatype Value =
    | BoolValue(b: bool)
    | StringValue(s: string)
    | ArgumentsValue(args: seq<QemuArgument>)
    | NullValue

  /** CodingKeys: one key per persisted field, each written to the document
      as its fixed raw string. `dataURL` has no key. */
  datatype CodingKey =
    | DebugLogKey | UefiBootKey | RngDeviceKey | BalloonDeviceKey | TpmDeviceKey
    | HypervisorKey | RtcLocalTimeKey | Ps2ControllerKey
    | MachinePropertyOverrideKey | AdditionalArgumentsKey
  {
    function RawValue(): string {
      match this
      case DebugLogKey => "DebugLog"
      case UefiBootKey => "UEFIBoot"
      case RngDeviceKey => "RNGDevice"
      case BalloonDeviceKey => "BalloonDevice"
      case TpmDeviceKey => "TPMDevice"
      case HypervisorKey => "Hypervisor"
      case RtcLocalTimeKey => "RTCLocalTime"
      case Ps2ControllerKey => "PS2Controller"
      case MachinePropertyOverrideKey => "MachinePropertyOverride"
      case AdditionalArgumentsKey => "AdditionalArguments"
    }
  }

  const BoolKeys: set<CodingKey> :=
    {DebugLogKey, UefiBootKey, RngDeviceKey, BalloonDeviceKey,
     TpmDeviceKey, HypervisorKey, RtcLocalTimeKey, Ps2ControllerKey}

  const AllKeys: set<CodingKey> :=
    {DebugLogKey, UefiBootKey, RngDeviceKey, BalloonDeviceKey, TpmDeviceKey,
     HypervisorKey, RtcLocalTimeKey, Ps2ControllerKey, MachinePropertyOverrideKey, AdditionalArgumentsKey}

  lemma InAllKeys(k: CodingKey)
    ensures k in AllKeys
  {
  }

  /** The raw strings of all coding keys: the only keys a document is ever
      given by encoding. */
  const RawKeys: set<string> :=
    {"DebugLog", "UEFIBoot", "RNGDevice", "BalloonDevice", "TPMDevice",
     "Hypervisor", "RTCLocalTime", "PS2Controller", "MachinePropertyOverride", "AdditionalArguments"}

  /** What a keyed container holds under each coding key. */
  type Container = map<CodingKey, Value>

  /** Why decoding stopped, and at which key (the kinds of DecodingError). */
  datatype DecodeError =
    | KeyNotFound(key: CodingKey)
    | ValueNotFound(key: CodingKey)
    | TypeMismatch(key: CodingKey)

  // ---------------------------------------------------------------------
  // Encoding and decoding the keyed container

  /** What `encode(to:)` writes under one key: each field under its own key,
      the override only when there is one. Nothing written is null. */
  function Field(t: Tweaks, k: CodingKey): (v: Option<Value>)
    ensures v.None? <==> k == MachinePropertyOverrideKey && t.machinePropertyOverride.None?
    ensures v.Some? ==> v.value != NullValue
  {
    match k
    case DebugLogKey => Some(BoolValue(t.hasDebugLog))
    case UefiBootKey => Some(BoolValue(t.hasUefiBoot))
    case RngDeviceKey => Some(BoolValue(t.hasRNGDevice))
    case BalloonDeviceKey => Some(BoolValue(t.hasBalloonDevice))
    case TpmDeviceKey => Some(BoolValue(t.hasTPMDevice))
    case HypervisorKey => Some(BoolValue(t.hasHypervisor))
    case RtcLocalTimeKey => Some(BoolValue(t.hasRTCLocalTime))
    case Ps2ControllerKey => Some(BoolValue(t.hasPS2Controller))
    case MachinePropertyOverrideKey =>
      if t.machinePropertyOverride.Some? then Some(StringValue(t.machinePropertyOverride.value)) else None
    case AdditionalArgumentsKey => Some(ArgumentsValue(t.additionalArguments))
  }

  /** The container has `v` under `k`; where nothing is written, the key is
      absent or null. */
  predicate Holds(c: Container, k: CodingKey, v: Option<Value>) {
    if v.Some? then k in c && c[k] == v.value else k !in c || c[k] == NullValue
  }

  /** The container holds exactly the persisted fields of `t` under their
      keys; a missing override is an absent or null entry. */
  predicate Carries(c: Container, t: Tweaks) {
    forall k: CodingKey :: Holds(c, k, Field(t, k))
  }

  /** A container that decodes: the flags are booleans, the arguments a list,
      and the override, if present, a string or null. */
  predicate WellFormed(c: Container) {
    && (forall k | k in BoolKeys :: k in c && c[k].BoolValue?)
    && AdditionalArgumentsKey in c && c[AdditionalArgumentsKey].ArgumentsValue?
    && (MachinePropertyOverrideKey in c ==>
          c[MachinePropertyOverrideKey].StringValue? || c[MachinePropertyOverrideKey].NullValue?)
  }

  /** The error really describes the container at its key. */
  predicate Explains(c: Container, e: DecodeError) {
    match e
    case KeyNotFound(k) => k !in c
    case ValueNotFound(k) => k in c && c[k] == NullValue
    case TypeMismatch(k) => k in c && c[k] != NullValue
  }

  /** `encode(to:)` on the keyed container: every key is written except the
      override when there is none, and what is written is the fields. */
  function EncodeContainer(t: Tweaks): (c: Container)
    ensures forall k: CodingKey :: k in c <==> k != MachinePropertyOverrideKey || t.machinePropertyOverride.Some?
    ensures Carries(c, t)
  {
    forall k: CodingKey {
      InAllKeys(k);
    }
    map k | k in AllKeys && Field(t, k).Some? :: Field(t, k).value
  }

  /** `decode(Bool.self, forKey:)`: required, non-null, boolean. */
  function DecodeBool(c: Container, key: CodingKey): (r: Result<bool, DecodeError>)
    ensures r.Success? <==> key in c && c[key].BoolValue?
    ensures r.Success? ==> c[key] == BoolValue(r.value)
    ensures r.Failure? ==> r.error.key == key && Explains(c, r.error)
  {
    if key !in c then Failure(KeyNotFound(key))
    else match c[key]
      case BoolValue(b) => Success(b)
      case NullValue => Failure(ValueNotFound(key))
      case _ => Failure(TypeMismatch(key))
  }

  /** `decodeIfPresent(String.self, forKey:)`: absent or null gives none. */
  function DecodeOptionalString(c: Container, key: CodingKey): (r: Result<Option<string>, DecodeError>)
    ensures r.Success? <==> key !in c || c[key].StringValue? || c[key].NullValue?
    ensures r.Success? && r.value.Some? ==> key in c && c[key] == StringValue(r.value.value)
    ensures r.Success? && r.value.None? ==> key !in c || c[key] == NullValue
    ensures r.Failure? ==> r.error.key == key && Explains(c, r.error)
  {
    if key !in c then Success(None)
    else match c[key]
      case StringValue(s) => Success(Some(s))
      case NullValue => Success(None)
      case _ => Failure(TypeMismatch(key))
  }

  /** `decode([QEMUArgument].self, forKey:)`: required, non-null, a list. */
  function DecodeArguments(c: Container, key: CodingKey): (r: Result<seq<QemuArgument>, DecodeError>)
    ensures r.Success? <==> key in c && c[key].ArgumentsValue?
    ensures r.Success? ==> c[key] == ArgumentsValue(r.value)
    ensures r.Failure? ==> r.error.key == key && Explains(c, r.error)
  {
    if key !in c then Failure(KeyNotFound(key))
    else match c[key]
      case ArgumentsValue(a) => Success(a)
      case NullValue => Failure(ValueNotFound(key))
      case _ => Failure(TypeMismatch(key))
  }

  /** The persisted fields of `init(from:)`: the keys are read in declaration
      order and the first one that does not decode is reported. It succeeds
      exactly on well-formed containers. */
  function DecodeContainer(c: Container): (r: Result<Tweaks, DecodeError>)
    ensures r.Success? <==> WellFormed(c)
    ensures r.Failure? ==> Explains(c, r.error)
  {
    var debugLog :- DecodeBool(c, DebugLogKey);
    var uefiBoot :- DecodeBool(c, UefiBootKey);
    var rngDevice :- DecodeBool(c, RngDeviceKey);
    var balloonDevice :- DecodeBool(c, BalloonDeviceKey);
    var tpmDevice :- DecodeBool(c, TpmDeviceKey);
    var hypervisor :- DecodeBool(c, HypervisorKey);
    var rtcLocalTime :- DecodeBool(c, RtcLocalTimeKey);
    var ps2Controller :- DecodeBool(c, Ps2ControllerKey);
    var machinePropertyOverride :- DecodeOptionalString(c, MachinePropertyOverrideKey);
    var additionalArguments :- DecodeArguments(c, AdditionalArgumentsKey);
    Success(Tweaks(debugLog, uefiBoot, rngDevice, balloonDevice, tpmDevice, hypervisor,
                   rtcLocalTime, ps2Controller, machinePropertyOverride, additionalArguments))
  }

  /** What decodes is what the container carries. */
  lemma DecodeCarries(c: Container)
    requires DecodeContainer(c).Success?
    ensures Carries(c, DecodeContainer(c).value)
  {
  }

  /** A container carries at most one `Tweaks`. */
  lemma {:induction false} CarriesUnique(c: Container, t1: Tweaks, t2: Tweaks)
    requires Carries(c, t1) && Carries(c, t2)
    ensures t1 == t2
  {
    forall k: CodingKey
      ensures Field(t1, k) == Field(t2, k)
    {
      assert Holds(c, k, Field(t1, k)) && Holds(c, k, Field(t2, k));
    }
    assert Field(t1, DebugLogKey) == Field(t2, DebugLogKey);
    assert Field(t1, UefiBootKey) == Field(t2, UefiBootKey);
    assert Field(t1, RngDeviceKey) == Field(t2, RngDeviceKey);
    assert Field(t1, BalloonDeviceKey) == Field(t2, BalloonDeviceKey);
    assert Field(t1, TpmDeviceKey) == Field(t2, TpmDeviceKey);
    assert Field(t1, HypervisorKey) == Field(t2, HypervisorKey);
    assert Field(t1, RtcLocalTimeKey) == Field(t2, RtcLocalTimeKey);
    assert Field(t1, Ps2ControllerKey) == Field(t2, Ps2ControllerKey);
    assert Field(t1, MachinePropertyOverrideKey) == Field(t2, MachinePropertyOverrideKey);
    assert Field(t1, AdditionalArgumentsKey) == Field(t2, AdditionalArgumentsKey);
  }

  /** A container that carries some fields decodes. */
  lemma CarriesWellFormed(c: Container, t: Tweaks)
    requires Carries(c, t)
    ensures WellFormed(c)
  {
    forall k | k in BoolKeys
      ensures k in c && c[k].BoolValue?
    {
      assert Holds(c, k, Field(t, k));
    }
    assert Holds(c, AdditionalArgumentsKey, Field(t, AdditionalArgumentsKey));
    assert Holds(c, MachinePropertyOverrideKey, Field(t, MachinePropertyOverrideKey));
  }

  /** Whatever is encoded decodes to the same persisted fields. */
  lemma DecodeEncodeContainer(t: Tweaks)
    ensures DecodeContainer(EncodeContainer(t)) == Success(t)
  {
    var c := EncodeContainer(t);
    CarriesWellFormed(c, t);
    DecodeCarries(c);
    CarriesUnique(c, DecodeContainer(c).value, t);
  }

  /** Whatever decodes re-encodes to the same content: every written key
      holds the value that was read, and the only key that is not written
      back is an override that was null. */
  lemma EncodeDecodeContainer(c: Container, t: Tweaks)
    requires DecodeContainer(c) == Success(t)
    ensures forall k | k in EncodeContainer(t) :: k in c && c[k] == EncodeContainer(t)[k]
    ensures forall k | k in c && k !in EncodeContainer(t) :: k == MachinePropertyOverrideKey && c[k] == NullValue
  {
    DecodeCarries(c);
    var e := EncodeContainer(t);
    forall k | k in e
      ensures k in c && c[k] == e[k]
    {
      assert Holds(c, k, Field(t, k)) && Holds(e, k, Field(t, k));
    }
    forall k | k in c && k !in e
      ensures k == MachinePropertyOverrideKey && c[k] == NullValue
    {
      assert Holds(c, k, Field(t, k));
    }
  }

  // ---------------------------------------------------------------------
  // The stored document

  /** CodingKeys(stringValue:): the key a document string stands for. */
  function KeyNamed(s: string): Option<CodingKey> {
    if s == "DebugLog" then Some(DebugLogKey)
    else if s == "UEFIBoot" then Some(UefiBootKey)
    else if s == "RNGDevice" then Some(RngDeviceKey)
    else if s == "BalloonDevice" then Some(BalloonDeviceKey)
    else if s == "TPMDevice" then Some(TpmDeviceKey)
    else if s == "Hypervisor" then Some(HypervisorKey)
    else if s == "RTCLocalTime" then Some(RtcLocalTimeKey)
    else if s == "PS2Controller" then Some(Ps2ControllerKey)
    else if s == "MachinePropertyOverride" then Some(MachinePropertyOverrideKey)
    else if s == "AdditionalArguments" then Some(AdditionalArgumentsKey)
    else None
  }

  /** Raw strings and keys correspond one to one. */
  lemma KeyNamedInverse(k: CodingKey, s: string)
    ensures KeyNamed(k.RawValue()) == Some(k)
    ensures k.RawValue() in RawKeys
    ensures KeyNamed(s) == Some(k) ==> s == k.RawValue()
  {
  }

  /** The container a document presents when read with these coding keys:
      entries under other strings are invisible. */
  function KeyedView(doc: map<string, Value>): (c: Container)
    ensures forall k: CodingKey :: k in c <==> k.RawValue() in doc
    ensures forall k | k in c :: c[k] == doc[k.RawValue()]
  {
    forall k: CodingKey {
      InAllKeys(k);
    }
    map k | k in AllKeys && k.RawValue() in doc :: doc[k.RawValue()]
  }

  /** The document a container is written out as: its entries under their
      keys' raw strings, and nothing else. */
  function Document(c: Container): (doc: map<string, Value>)
    ensures KeyedView(doc) == c
    ensures doc.Keys <= RawKeys
  {
    forall k: CodingKey {
      KeyNamedInverse(k, "");
    }
    map s | s in RawKeys && KeyNamed(s).Some? && KeyNamed(s).value in c :: c[KeyNamed(s).value]
  }

  /** `encode(to:)`: the document holds raw key strings only (so never
      anything for `dataURL`), and reads back as the encoded container. */
  function Encode(t: Tweaks): (doc: map<string, Value>)
    ensures doc.Keys <= RawKeys
    ensures forall k: CodingKey :: k.RawValue() in doc <==> k != MachinePropertyOverrideKey || t.machinePropertyOverride.Some?
    ensures KeyedView(doc) == EncodeContainer(t)
  {
    Document(EncodeContainer(t))
  }

  /** Decoding a document reads it through the coding keys; a key reported
      missing has no entry under its raw string. */
  function Decode(doc: map<string, Value>): (r: Result<Tweaks, DecodeError>)
    ensures r.Success? <==> WellFormed(KeyedView(doc))
    ensures r.Failure? && r.error.KeyNotFound? ==> r.error.key.RawValue() !in doc
  {
    DecodeContainer(KeyedView(doc))
  }

  /** Decoding fails when a flag or the argument list is missing. */
  lemma DecodeNeedsKey(doc: map<string, Value>, k: CodingKey)
    requires k != MachinePropertyOverrideKey && k.RawValue() !in doc
    ensures Decode(doc).Failure?
  {
  }

  /** A document without the override decodes, if at all, to none. */
  lemma DecodeAbsentOverride(doc: map<string, Value>)
    requires Decode(doc).Success? && MachinePropertyOverrideKey.RawValue() !in doc
    ensures Decode(doc).value.machinePropertyOverride == None
  {
  }

  /** A stored document loads back as what was saved. */
  lemma DecodeEncode(t: Tweaks)
    ensures Decode(Encode(t)) == Success(t)
  {
    DecodeEncodeContainer(t);
  }

  /** A document that loads is saved back with the same entry under every
      key it writes; the one coding key it may drop is a null override. */
  lemma EncodeDecode(doc: map<string, Value>, t: Tweaks)
    requires Decode(doc) == Success(t)
    ensures forall k: CodingKey | k.RawValue() in Encode(t) ::
      k.RawValue() in doc && doc[k.RawValue()] == Encode(t)[k.RawValue()]
    ensures forall k: CodingKey | k.RawValue() in doc && k.RawValue() !in Encode(t) ::
      k == MachinePropertyOverrideKey && doc[k.RawValue()] == NullValue
  {
    EncodeDecodeContainer(KeyedView(doc), t);
  }

  // ---------------------------------------------------------------------
  // Default derivation

  /** Targets of the PC family: the raw value starts with "pc" or "q35". */
  predicate IsPcTarget(target: string) {
    "pc" <= target || "q35" <= target
  }

  /** The generic ARM board: an ARM guest on "virt" or a versioned "virt-…". */
  predicate IsArmVirt(architecture: Architecture, target: string) {
    (architecture == Arm || architecture == Aarch64) && ("virt-" <= target || target == "virt")
  }

  /** The host can run this guest under its hypervisor: a macOS host whose
      own CPU family is the guest's. */
  predicate HostAccelerates(host: Host, architecture: Architecture) {
    host.os == MacOS &&
    ((host.cpu == HostArm64 && architecture == Aarch64) || (host.cpu == HostX86_64 && architecture == X86_64))
  }

  // ---------------------------------------------------------------------
  // Migration from the old configuration format

  /** The fields of UTMLegacyQemuConfiguration that the migration reads. */
  datatype LegacyConfig = LegacyConfig(
    debugLogEnabled: bool,
    systemBootUefi: bool,
    systemRngEnabled: bool,
    useHypervisor: bool,
    rtcUseLocalTime: bool,
    forcePs2Controller: bool,
    systemMachineProperties: Option<string>,
    systemArguments: Option<seq<string>>,
    existingPath: Option<Url>)

  /** Each old argument string wrapped as an argument, in the same order. */
  function WrapArguments(args: seq<string>): (r: seq<QemuArgument>)
    ensures |r| == |args|
    ensures forall i | 0 <= i < |args| :: r[i] == QemuArgument(args[i])
  {
    if args == [] then [] else [QemuArgument(args[0])] + WrapArguments(args[1..])
  }

  // ---------------------------------------------------------------------
  // The object

  class QemuConfig {
    /** Location of the VM bundle; never persisted. */
    var dataURL: Option<Url>
    var hasDebugLog: bool
    var hasUefiBoot: bool
    var hasRNGDevice: bool
    var hasBalloonDevice: bool
    var hasTPMDevice: bool
    var hasHypervisor: bool
    var hasRTCLocalTime: bool
    var hasPS2Controller: bool
    var machinePropertyOverride: Option<string>
    var additionalArguments: seq<QemuArgument>

    /** The fields that `encode(to:)` writes. */
    function Persisted(): Tweaks
      reads this
    {
      Tweaks(hasDebugLog, hasUefiBoot, hasRNGDevice, hasBalloonDevice, hasTPMDevice,
             hasHypervisor, hasRTCLocalTime, hasPS2Controller, machinePropertyOverride, additionalArguments)
    }

    /** `init()`: every flag off, no override, no arguments, no location. */
    constructor ()
      ensures !hasDebugLog && !hasUefiBoot && !hasRNGDevice && !hasBalloonDevice
      ensures !hasTPMDevice && !hasHypervisor && !hasRTCLocalTime && !hasPS2Controller
      ensures machinePropertyOverride == None && additionalArguments == [] && dataURL == None
    {
      dataURL := None;
      hasDebugLog, hasUefiBoot, hasRNGDevice, hasBalloonDevice := false, false, false, false;
      hasTPMDevice, hasHypervisor, hasRTCLocalTime, hasPS2Controller := false, false, false, false;
      machinePropertyOverride := None;
      additionalArguments := [];
    }

    /** `init(forArchitecture:target:)`, with the host that the source picks
        at compile time passed in. UEFI and the RNG device go together: on for
        PC-family targets whatever the architecture, and for the ARM generic
        board; the hypervisor is on exactly when the host accelerates the
        guest; nothing else is turned on. */
    constructor ForArchitecture(architecture: Architecture, target: string, host: Host)
      ensures hasUefiBoot == (IsPcTarget(target) || IsArmVirt(architecture, target))
      ensures hasRNGDevice == hasUefiBoot
      ensures hasHypervisor == HostAccelerates(host, architecture)
      ensures !hasDebugLog && !hasBalloonDevice && !hasTPMDevice && !hasRTCLocalTime && !hasPS2Controller
      ensures machinePropertyOverride == None && additionalArguments == [] && dataURL == None
    {
      dataURL := None;
      hasDebugLog, hasUefiBoot, hasRNGDevice, hasBalloonDevice := false, false, false, false;
      hasTPMDevice, hasHypervisor, hasRTCLocalTime, hasPS2Controller := false, false, false, false;
      machinePropertyOverride := None;
      additionalArguments := [];
      new;
      if "pc" <= target || "q35" <= target {
        hasUefiBoot := true;
        hasRNGDevice := true;
      } else if (architecture == Arm || architecture == Aarch64) && ("virt-" <= target || target == "virt") {
        hasUefiBoot := true;
        hasRNGDevice := true;
      }
      if host.cpu == HostArm64 && host.os == MacOS {
        if architecture == Aarch64 {
          hasHypervisor := true;
        }
      } else if host.cpu == HostX86_64 && host.os == MacOS {
        if architecture == X86_64 {
          hasHypervisor := true;
        }
      }
    }

    /** `init(migrating:)`: the six old flags and the machine properties are
        copied as they are, balloon and TPM stay off, an absent argument list
        becomes an empty one, and the old bundle path becomes `dataURL`. */
    constructor Migrating(oldConfig: LegacyConfig)
      ensures hasDebugLog == oldConfig.debugLogEnabled
      ensures hasUefiBoot == oldConfig.systemBootUefi
      ensures hasRNGDevice == oldConfig.systemRngEnabled
      ensures hasHypervisor == oldConfig.useHypervisor
      ensures hasRTCLocalTime == oldConfig.rtcUseLocalTime
      ensures hasPS2Controller == oldConfig.forcePs2Controller
      ensures !hasBalloonDevice && !hasTPMDevice
      ensures machinePropertyOverride == oldConfig.systemMachineProperties
      ensures oldConfig.systemArguments.None? ==> additionalArguments == []
      ensures oldConfig.systemArguments.Some? ==> additionalArguments == WrapArguments(oldConfig.systemArguments.value)
      ensures dataURL == oldConfig.existingPath
    {
      dataURL := None;
      hasDebugLog, hasUefiBoot, hasRNGDevice, hasBalloonDevice := false, false, false, false;
      hasTPMDevice, hasHypervisor, hasRTCLocalTime, hasPS2Controller := false, false, false, false;
      machinePropertyOverride := None;
      additionalArguments := [];
      hasDebugLog := oldConfig.debugLogEnabled;
      hasUefiBoot := oldConfig.systemBootUefi;
      hasRNGDevice := oldConfig.systemRngEnabled;
      hasHypervisor := oldConfig.useHypervisor;
      hasRTCLocalTime := oldConfig.rtcUseLocalTime;
      hasPS2Controller := oldConfig.forcePs2Controller;
      machinePropertyOverride := oldConfig.systemMachineProperties;
      if oldConfig.systemArguments.Some? {
        additionalArguments := WrapArguments(oldConfig.systemArguments.value);
      }
      dataURL := oldConfig.existingPath;
    }

    /** The object holding the given persisted fields and location. */
    constructor Restored(t: Tweaks, dataURL: Option<Url>)
      ensures Persisted() == t && this.dataURL == dataURL
    {
      this.dataURL := dataURL;
      hasDebugLog, hasUefiBoot, hasRNGDevice, hasBalloonDevice := t.hasDebugLog, t.hasUefiBoot, t.hasRNGDevice, t.hasBalloonDevice;
      hasTPMDevice, hasHypervisor, hasRTCLocalTime, hasPS2Controller := t.hasTPMDevice, t.hasHypervisor, t.hasRTCLocalTime, t.hasPS2Controller;
      machinePropertyOverride := t.machinePropertyOverride;
      additionalArguments := t.additionalArguments;
    }

    /** `init(from:)`: each key is decoded in turn and the first failure is
        thrown; on success the fields are the decoded ones and `dataURL` is
        whatever the decoder's context carries, never the container. */
    static method InitFromDecoder(doc: map<string, Value>, contextDataURL: Option<Url>)
      returns (r: Result<QemuConfig, DecodeError>)
      ensures r.Failure? <==> !WellFormed(KeyedView(doc))
      ensures r.Failure? ==> Decode(doc) == Failure(r.error)
      ensures r.Success? ==> fresh(r.value)
      ensures r.Success? ==> Decode(doc) == Success(r.value.Persisted())
      ensures r.Success? ==> r.value.dataURL == contextDataURL
    {
      var tweaks :- Decode(doc);
      var c := new QemuConfig.Restored(tweaks, contextDataURL);
      r := Success(c);
    }
  }

  /** Saving an object and loading the result back, with the context it is
      loaded under, gives the same persisted fields and the context's
      location, whatever the object's own location was. */
  method SaveThenLoad(c: QemuConfig, contextDataURL: Option<Url>) returns (loaded: QemuConfig)
    ensures fresh(loaded)
    ensures loaded.Persisted() == c.Persisted()
    ensures loaded.dataURL == contextDataURL
  {
    DecodeEncode(c.Persisted());
    var r := QemuConfig.InitFromDecoder(Encode(c.Persisted()), contextDataURL);
    loaded := r.value;
  }
}
