/** Flattening of the nested payloads mobile agents send
    (`_normalize_mobile_heartbeat`): a flat field wins over the same field
    inside a wrapper (`android_info`, `imei_info`, `storage_info`, ...), the
    RAM and storage texts lose their spaces, the IMEIs always become a
    non-empty list, and `None` and `""` values are dropped. */
module MobilePayload {
  import opened Wrappers
  import opened PyValue

  /** `data.get(name) or {}`: a wrapper object, an empty dictionary when
      it is missing or falsy. */
  function Wrapper(data: map<string, Value>, name: string): Value
  {
    Or(Get(data, name), Dict(map[]))
  }

  /** `first or wrapper.get(key)`. The lookup in the wrapper happens only
      when `first` is falsy, and raises `AttributeError` when the wrapper
      is not a dictionary. */
  function OrGet(first: Value, wrapper: Value, key: string): (r: Result<Value, PyError>)
    ensures r.Success? <==> CanPick(first, wrapper)
    ensures r.Success? ==> r.value == Pick(first, wrapper, key)
    ensures r.Failure? ==> r.error == AttributeError
  {
    if Truthy(first) then Success(first)
    else if wrapper.Dict? then Success(Get(wrapper.entries, key))
    else Failure(AttributeError)
  }

  /** `wrapper.get(key)` for the wrapper `name` of the payload; `None` when
      that wrapper is not a dictionary, where the lookup would raise. */
  function Nested(data: map<string, Value>, name: string, key: string): Value
  {
    var wrapper := Wrapper(data, name);
    if wrapper.Dict? then Get(wrapper.entries, key) else Null
  }

  /** `first or wrapper.get(key)` can be evaluated without an error. */
  predicate CanPick(first: Value, wrapper: Value)
  {
    Truthy(first) || wrapper.Dict?
  }

  /** The value `first or wrapper.get(key)` evaluates to, `None` when it
      raises. */
  function Pick(first: Value, wrapper: Value, key: string): Value
  {
    if Truthy(first) then first
    else if wrapper.Dict? then Get(wrapper.entries, key)
    else Null
  }

  /** A value kept by `{k: v ... if v is not None and v != ""}`. */
  predicate IsPresent(v: Value)
  {
    v != Null && v != Str("")
  }

  /** The dictionary without its `None` and `""` values. */
  function DropEmpty<K>(m: map<K, Value>): (r: map<K, Value>)
    ensures r.Keys <= m.Keys
    ensures forall k :: k in r ==> r[k] == m[k] && IsPresent(r[k])
    ensures forall k :: k in m && IsPresent(m[k]) ==> k in r
  {
    map k | k in m && IsPresent(m[k]) :: m[k]
  }

  const NoImeiSentinel: Value := List([Str("NO_IMEI_FOUND")])

  /** The IMEI coercion: a string becomes a one-element list, a non-empty
      list is kept, an empty list or `None` becomes the sentinel of a
      device without IMEIs, and anything else becomes `[str(value)]`. */
  function CoerceImeis(imeis: Value): (r: Value)
    ensures r.List? && r.items != []
  {
    if imeis.Null? then NoImeiSentinel
    else if imeis.Str? then List([imeis])
    else if imeis.List? then (if imeis.items != [] then imeis else NoImeiSentinel)
    else List([Str(PyStr(imeis))])
  }

  /** `str(value).replace(" ", "")` */
  function SpacelessText(v: Value): (r: Value)
    ensures r.Str? && ' ' !in r.s
  {
    Str(RemoveSpaces(PyStr(v)))
  }

  /** A text value without the space character. */
  predicate SpacelessStr(v: Value)
  {
    v.Str? && ' ' !in v.s
  }

  /** The keys of the flattened heartbeat; `Name()` is the dictionary key. */
  datatype HeartbeatKey =
    | AndroidId | Model | Manufacturer | SerialNumber | DeviceFingerprint | Bootloader
    | OsVersion | OsEdition | SdkVersion | SecurityPatchLevel
    | InstalledRam | TotalStorage | DeviceImeis | Latitude | Longitude
    | InstalledAppsHash | SystemPropertiesHash
    | IsDeviceRooted | IsUsbDebuggingEnabled | IsDeveloperModeEnabled
    | IsBootloaderUnlocked | IsCustomRom | BatteryLevel
  {
    function Name(): string
    {
      match this
      case AndroidId => "android_id"
      case Model => "model"
      case Manufacturer => "manufacturer"
      case SerialNumber => "serial_number"
      case DeviceFingerprint => "device_fingerprint"
      case Bootloader => "bootloader"
      case OsVersion => "os_version"
      case OsEdition => "os_edition"
      case SdkVersion => "sdk_version"
      case SecurityPatchLevel => "security_patch_level"
      case InstalledRam => "installed_ram"
      case TotalStorage => "total_storage"
      case DeviceImeis => "device_imeis"
      case Latitude => "latitude"
      case Longitude => "longitude"
      case InstalledAppsHash => "installed_apps_hash"
      case SystemPropertiesHash => "system_properties_hash"
      case IsDeviceRooted => "is_device_rooted"
      case IsUsbDebuggingEnabled => "is_usb_debugging_enabled"
      case IsDeveloperModeEnabled => "is_developer_mode_enabled"
      case IsBootloaderUnlocked => "is_bootloader_unlocked"
      case IsCustomRom => "is_custom_rom"
      case BatteryLevel => "battery_level"
    }

    /** Read first from the flat payload under the key's own name. */
    predicate FlatFirst()
    {
      !(this.SerialNumber? || this.DeviceFingerprint? || this.InstalledRam? || this.TotalStorage? || this.DeviceImeis?)
    }

    /** The wrapper, and the key inside it, that a flat-first field falls
        back to when the flat payload has no truthy value for it. */
    function NestedSource(): Option<(string, string)>
    {
      match this
      case OsVersion => Some(("android_info", "version_release"))
      case OsEdition => Some(("android_info", "version_incremental"))
      case SdkVersion => Some(("android_info", "version_sdk_int"))
      case SecurityPatchLevel => Some(("android_info", "security_patch"))
      case Latitude => Some(("location_info", Name()))
      case Longitude => Some(("location_info", Name()))
      case InstalledAppsHash => Some(("system_integrity", Name()))
      case SystemPropertiesHash => Some(("system_integrity", Name()))
      case IsDeviceRooted => Some(("security_info", Name()))
      case IsUsbDebuggingEnabled => Some(("security_info", Name()))
      case IsDeveloperModeEnabled => Some(("security_info", Name()))
      case IsBootloaderUnlocked => Some(("security_info", Name()))
      case IsCustomRom => Some(("security_info", Name()))
      case _ => None
    }
  }

  /** The wrappers whose contents are consulted. */
  const ConsultedWrappers: set<string> := {
    "android_info", "imei_info", "storage_info", "location_info", "security_info", "system_integrity"
  }

  /** The flattened heartbeat and the extra data kept beside it. */
  datatype NormalizedHeartbeat = NormalizedHeartbeat(fields: map<HeartbeatKey, Value>, extra: map<string, Value>)

  /** None of the wrapper lookups of `_normalize_mobile_heartbeat` raises. */
  predicate HeartbeatLookupsSucceed(data: map<string, Value>)
  {
    var androidInfo := Wrapper(data, "android_info");
    var imeiInfo := Wrapper(data, "imei_info");
    var storageInfo := Wrapper(data, "storage_info");
    var locationInfo := Wrapper(data, "location_info");
    var securityInfo := Wrapper(data, "security_info");
    var systemIntegrity := Wrapper(data, "system_integrity");
    && CanPick(Get(data, "os_version"), androidInfo)
    && CanPick(Get(data, "os_edition"), androidInfo)
    && CanPick(Get(data, "sdk_version"), androidInfo)
    && CanPick(Get(data, "security_patch_level"), androidInfo)
    && CanPick(Get(data, "installed_ram"), storageInfo)
    && CanPick(Get(data, "total_storage"), storageInfo)
    && CanPick(Get(data, "device_imeis"), imeiInfo)
    && CanPick(Get(data, "latitude"), locationInfo)
    && CanPick(Get(data, "longitude"), locationInfo)
    && CanPick(Get(data, "installed_apps_hash"), systemIntegrity)
    && CanPick(Get(data, "system_properties_hash"), systemIntegrity)
    && CanPick(Get(data, "is_device_rooted"), securityInfo)
    && CanPick(Get(data, "is_usb_debugging_enabled"), securityInfo)
    && CanPick(Get(data, "is_developer_mode_enabled"), securityInfo)
    && CanPick(Get(data, "is_bootloader_unlocked"), securityInfo)
    && CanPick(Get(data, "is_custom_rom"), securityInfo)
  }

  /** One value for every key of the flattened heartbeat. */
  datatype FieldValues = FieldValues(
    androidId: Value, model: Value, manufacturer: Value, serialNumber: Value,
    deviceFingerprint: Value, bootloader: Value,
    osVersion: Value, osEdition: Value, sdkVersion: Value, securityPatchLevel: Value,
    installedRam: Value, totalStorage: Value, deviceImeis: Value, latitude: Value, longitude: Value,
    installedAppsHash: Value, systemPropertiesHash: Value,
    isDeviceRooted: Value, isUsbDebuggingEnabled: Value, isDeveloperModeEnabled: Value,
    isBootloaderUnlocked: Value, isCustomRom: Value, batteryLevel: Value)
  {
    function Of(key: HeartbeatKey): Value
    {
      match key
      case AndroidId => androidId
      case Model => model
      case Manufacturer => manufacturer
      case SerialNumber => serialNumber
      case DeviceFingerprint => deviceFingerprint
      case Bootloader => bootloader
      case OsVersion => osVersion
      case OsEdition => osEdition
      case SdkVersion => sdkVersion
      case SecurityPatchLevel => securityPatchLevel
      case InstalledRam => installedRam
      case TotalStorage => totalStorage
      case DeviceImeis => deviceImeis
      case Latitude => latitude
      case Longitude => longitude
      case InstalledAppsHash => installedAppsHash
      case SystemPropertiesHash => systemPropertiesHash
      case IsDeviceRooted => isDeviceRooted
      case IsUsbDebuggingEnabled => isUsbDebuggingEnabled
      case IsDeveloperModeEnabled => isDeveloperModeEnabled
      case IsBootloaderUnlocked => isBootloaderUnlocked
      case IsCustomRom => isCustomRom
      case BatteryLevel => batteryLevel
    }
  }

  /** The assignments of `_normalize_mobile_heartbeat`, in the order of the
      source: RAM and storage only when `ram` and `storage` hold. */
  function AssignmentChain(v: FieldValues, ram: bool, storage: bool): map<HeartbeatKey, Value>
  {
    SecurityAssignments(ImeiAndHashAssignments(SystemAssignments(DeviceAssignments(v), v, ram, storage), v), v)
  }

  predicate InDeviceGroup(key: HeartbeatKey)
  {
    key.AndroidId? || key.Model? || key.Manufacturer? || key.SerialNumber? || key.DeviceFingerprint?
  }

  predicate InSystemGroup(key: HeartbeatKey)
  {
    key.Bootloader? || key.OsVersion? || key.OsEdition? || key.SdkVersion? || key.SecurityPatchLevel?
  }

  predicate InImeiAndHashGroup(key: HeartbeatKey)
  {
    key.DeviceImeis? || key.Latitude? || key.Longitude? || key.InstalledAppsHash? || key.SystemPropertiesHash?
  }

  predicate InSecurityGroup(key: HeartbeatKey)
  {
    key.IsDeviceRooted? || key.IsUsbDebuggingEnabled? || key.IsDeveloperModeEnabled?
    || key.IsBootloaderUnlocked? || key.IsCustomRom? || key.BatteryLevel?
  }

  /** The assignments from the Android id to the fingerprint. */
  function DeviceAssignments(v: FieldValues): map<HeartbeatKey, Value>
  {
    map[][AndroidId := v.androidId][Model := v.model][Manufacturer := v.manufacturer]
      [SerialNumber := v.serialNumber][DeviceFingerprint := v.deviceFingerprint]
  }

  /** The assignments from the bootloader to the storage. */
  function SystemAssignments(m: map<HeartbeatKey, Value>, v: FieldValues, ram: bool, storage: bool): map<HeartbeatKey, Value>
  {
    var system := m[Bootloader := v.bootloader][OsVersion := v.osVersion][OsEdition := v.osEdition]
      [SdkVersion := v.sdkVersion][SecurityPatchLevel := v.securityPatchLevel];
    var withRam := if ram then system[InstalledRam := v.installedRam] else system;
    if storage then withRam[TotalStorage := v.totalStorage] else withRam
  }

  /** The assignments from the IMEIs to the integrity hashes. */
  function ImeiAndHashAssignments(m: map<HeartbeatKey, Value>, v: FieldValues): map<HeartbeatKey, Value>
  {
    m[DeviceImeis := v.deviceImeis][Latitude := v.latitude][Longitude := v.longitude]
      [InstalledAppsHash := v.installedAppsHash][SystemPropertiesHash := v.systemPropertiesHash]
  }

  /** The assignments from the security flags to the battery level. */
  function SecurityAssignments(m: map<HeartbeatKey, Value>, v: FieldValues): map<HeartbeatKey, Value>
  {
    m[IsDeviceRooted := v.isDeviceRooted][IsUsbDebuggingEnabled := v.isUsbDebuggingEnabled]
      [IsDeveloperModeEnabled := v.isDeveloperModeEnabled][IsBootloaderUnlocked := v.isBootloaderUnlocked]
      [IsCustomRom := v.isCustomRom][BatteryLevel := v.batteryLevel]
  }

  lemma DeviceAssignmentsLookup(v: FieldValues, key: HeartbeatKey)
    ensures key in DeviceAssignments(v) <==> InDeviceGroup(key)
    ensures key in DeviceAssignments(v) ==> DeviceAssignments(v)[key] == v.Of(key)
  {
  }

  lemma SystemAssignmentsLookup(m: map<HeartbeatKey, Value>, v: FieldValues, ram: bool, storage: bool, key: HeartbeatKey)
    ensures key in SystemAssignments(m, v, ram, storage) <==>
      key in m || InSystemGroup(key) || (key.InstalledRam? && ram) || (key.TotalStorage? && storage)
    ensures InSystemGroup(key) || (key.InstalledRam? && ram) || (key.TotalStorage? && storage) ==>
      SystemAssignments(m, v, ram, storage)[key] == v.Of(key)
    ensures key in m && !InSystemGroup(key) && !key.InstalledRam? && !key.TotalStorage? ==>
      SystemAssignments(m, v, ram, storage)[key] == m[key]
  {
  }

  lemma ImeiAndHashAssignmentsLookup(m: map<HeartbeatKey, Value>, v: FieldValues, key: HeartbeatKey)
    ensures key in ImeiAndHashAssignments(m, v) <==> key in m || InImeiAndHashGroup(key)
    ensures InImeiAndHashGroup(key) ==> ImeiAndHashAssignments(m, v)[key] == v.Of(key)
    ensures key in m && !InImeiAndHashGroup(key) ==> ImeiAndHashAssignments(m, v)[key] == m[key]
  {
  }

  lemma SecurityAssignmentsLookup(m: map<HeartbeatKey, Value>, v: FieldValues, key: HeartbeatKey)
    ensures key in SecurityAssignments(m, v) <==> key in m || InSecurityGroup(key)
    ensures InSecurityGroup(key) ==> SecurityAssignments(m, v)[key] == v.Of(key)
    ensures key in m && !InSecurityGroup(key) ==> SecurityAssignments(m, v)[key] == m[key]
  {
  }

  /** Every key ends up with its own value; RAM and storage are there only
      when they were assigned. */
  lemma AssignmentLookup(v: FieldValues, ram: bool, storage: bool, key: HeartbeatKey)
    ensures key in AssignmentChain(v, ram, storage) <==>
      (key.InstalledRam? ==> ram) && (key.TotalStorage? ==> storage)
    ensures key in AssignmentChain(v, ram, storage) ==> AssignmentChain(v, ram, storage)[key] == v.Of(key)
  {
    var device := DeviceAssignments(v);
    var system := SystemAssignments(device, v, ram, storage);
    DeviceAssignmentsLookup(v, key);
    SystemAssignmentsLookup(device, v, ram, storage, key);
    ImeiAndHashAssignmentsLookup(system, v, key);
    SecurityAssignmentsLookup(ImeiAndHashAssignments(system, v), v, key);
  }

  /** The value `_normalize_mobile_heartbeat` chooses for every key, when
      none of its lookups raises. */
  function HeartbeatChoices(data: map<string, Value>): FieldValues
  {
    var androidInfo := Wrapper(data, "android_info");
    var imeiInfo := Wrapper(data, "imei_info");
    var storageInfo := Wrapper(data, "storage_info");
    var locationInfo := Wrapper(data, "location_info");
    var securityInfo := Wrapper(data, "security_info");
    var systemIntegrity := Wrapper(data, "system_integrity");
    FieldValues(
      androidId := Get(data, "android_id"),
      model := Get(data, "model"),
      manufacturer := Get(data, "manufacturer"),
      serialNumber := Or(Get(data, "serial"), Get(data, "serial_number")),
      deviceFingerprint := Get(data, "fingerprint"),
      bootloader := Get(data, "bootloader"),
      osVersion := Pick(Get(data, "os_version"), androidInfo, "version_release"),
      osEdition := Pick(Get(data, "os_edition"), androidInfo, "version_incremental"),
      sdkVersion := Pick(Get(data, "sdk_version"), androidInfo, "version_sdk_int"),
      securityPatchLevel := Pick(Get(data, "security_patch_level"), androidInfo, "security_patch"),
      installedRam := SpacelessText(Pick(Get(data, "installed_ram"), storageInfo, "installed_ram")),
      totalStorage := SpacelessText(Pick(Get(data, "total_storage"), storageInfo, "total_storage")),
      deviceImeis := CoerceImeis(Pick(Get(data, "device_imeis"), imeiInfo, "device_imeis")),
      latitude := Pick(Get(data, "latitude"), locationInfo, "latitude"),
      longitude := Pick(Get(data, "longitude"), locationInfo, "longitude"),
      installedAppsHash := Pick(Get(data, "installed_apps_hash"), systemIntegrity, "installed_apps_hash"),
      systemPropertiesHash := Pick(Get(data, "system_properties_hash"), systemIntegrity, "system_properties_hash"),
      isDeviceRooted := Pick(Get(data, "is_device_rooted"), securityInfo, "is_device_rooted"),
      isUsbDebuggingEnabled := Pick(Get(data, "is_usb_debugging_enabled"), securityInfo, "is_usb_debugging_enabled"),
      isDeveloperModeEnabled := Pick(Get(data, "is_developer_mode_enabled"), securityInfo, "is_developer_mode_enabled"),
      isBootloaderUnlocked := Pick(Get(data, "is_bootloader_unlocked"), securityInfo, "is_bootloader_unlocked"),
      isCustomRom := Pick(Get(data, "is_custom_rom"), securityInfo, "is_custom_rom"),
      batteryLevel := Get(data, "battery_level"))
  }

  /** RAM is assigned only when the value found for it is truthy. */
  predicate RamAssigned(data: map<string, Value>)
  {
    Truthy(Pick(Get(data, "installed_ram"), Wrapper(data, "storage_info"), "installed_ram"))
  }

  /** Storage is assigned only when the value found for it is truthy. */
  predicate StorageAssigned(data: map<string, Value>)
  {
    Truthy(Pick(Get(data, "total_storage"), Wrapper(data, "storage_info"), "total_storage"))
  }

  /** The dictionary `_normalize_mobile_heartbeat` builds before it drops
      the empty values, when none of its lookups raises. */
  function HeartbeatFields(data: map<string, Value>): map<HeartbeatKey, Value>
  {
    AssignmentChain(HeartbeatChoices(data), RamAssigned(data), StorageAssigned(data))
  }

  /** The flattened heartbeat once its `None` and `""` values are dropped. */
  function HeartbeatFieldsKept(data: map<string, Value>): map<HeartbeatKey, Value>
  {
    DropEmpty(HeartbeatFields(data))
  }

  /** The `extra` dictionary: the build fields and the wrappers as read. */
  function HeartbeatExtra(data: map<string, Value>): map<string, Value>
  {
    map[
      "brand" := Get(data, "brand"),
      "product" := Get(data, "product"),
      "device" := Get(data, "device"),
      "board" := Get(data, "board"),
      "hardware" := Get(data, "hardware"),
      "build_id" := Get(data, "build_id"),
      "build_type" := Get(data, "build_type"),
      "build_tags" := Get(data, "build_tags"),
      "build_time" := Get(data, "build_time"),
      "build_user" := Get(data, "build_user"),
      "build_host" := Get(data, "build_host"),
      "fingerprint" := Get(data, "fingerprint"),
      "android_info" := Wrapper(data, "android_info"),
      "imei_info" := Wrapper(data, "imei_info"),
      "storage_info" := Wrapper(data, "storage_info"),
      "location_info" := Wrapper(data, "location_info"),
      "app_info" := Wrapper(data, "app_info"),
      "security_info" := Wrapper(data, "security_info"),
      "system_integrity" := Wrapper(data, "system_integrity")
    ]
  }

  /** What `_normalize_mobile_heartbeat(payload)` returns or raises. */
  function NormalizeHeartbeatSpec(data: map<string, Value>): Result<NormalizedHeartbeat, PyError>
  {
    if HeartbeatLookupsSucceed(data)
    then Success(NormalizedHeartbeat(HeartbeatFieldsKept(data), DropEmpty(HeartbeatExtra(data))))
    else Failure(AttributeError)
  }

  /** `_normalize_mobile_heartbeat(payload)`, building the dictionary key by
      key. Consulting a wrapper that is present but not a dictionary
      raises `AttributeError`. */
  method NormalizeMobileHeartbeat(data: map<string, Value>) returns (r: Result<NormalizedHeartbeat, PyError>)
    ensures r == NormalizeHeartbeatSpec(data)
  {
    var androidInfo := Wrapper(data, "android_info");
    var imeiInfo := Wrapper(data, "imei_info");
    var storageInfo := Wrapper(data, "storage_info");
    var locationInfo := Wrapper(data, "location_info");
    var securityInfo := Wrapper(data, "security_info");
    var systemIntegrity := Wrapper(data, "system_integrity");
    var appInfo := Wrapper(data, "app_info");

    var normalized: map<HeartbeatKey, Value> := map[];
    normalized := normalized[AndroidId := Get(data, "android_id")];
    normalized := normalized[Model := Get(data, "model")];
    normalized := normalized[Manufacturer := Get(data, "manufacturer")];
    normalized := normalized[SerialNumber := Or(Get(data, "serial"), Get(data, "serial_number"))];
    normalized := normalized[DeviceFingerprint := Get(data, "fingerprint")];
    normalized := normalized[Bootloader := Get(data, "bootloader")];

    var osVersion :- OrGet(Get(data, "os_version"), androidInfo, "version_release");
    normalized := normalized[OsVersion := osVersion];
    var osEdition :- OrGet(Get(data, "os_edition"), androidInfo, "version_incremental");
    normalized := normalized[OsEdition := osEdition];
    var sdkVersion :- OrGet(Get(data, "sdk_version"), androidInfo, "version_sdk_int");
    normalized := normalized[SdkVersion := sdkVersion];
    var patchLevel :- OrGet(Get(data, "security_patch_level"), androidInfo, "security_patch");
    normalized := normalized[SecurityPatchLevel := patchLevel];

    var installedRam :- OrGet(Get(data, "installed_ram"), storageInfo, "installed_ram");
    if Truthy(installedRam) {
      normalized := normalized[InstalledRam := SpacelessText(installedRam)];
    }
    var totalStorage :- OrGet(Get(data, "total_storage"), storageInfo, "total_storage");
    if Truthy(totalStorage) {
      normalized := normalized[TotalStorage := SpacelessText(totalStorage)];
    }

    var deviceImeis :- OrGet(Get(data, "device_imeis"), imeiInfo, "device_imeis");
    normalized := normalized[DeviceImeis := CoerceImeis(deviceImeis)];

    var latitude :- OrGet(Get(data, "latitude"), locationInfo, "latitude");
    normalized := normalized[Latitude := latitude];
    var longitude :- OrGet(Get(data, "longitude"), locationInfo, "longitude");
    normalized := normalized[Longitude := longitude];

    var appsHash :- OrGet(Get(data, "installed_apps_hash"), systemIntegrity, "installed_apps_hash");
    normalized := normalized[InstalledAppsHash := appsHash];
    var propertiesHash :- OrGet(Get(data, "system_properties_hash"), systemIntegrity, "system_properties_hash");
    normalized := normalized[SystemPropertiesHash := propertiesHash];

    var rooted :- OrGet(Get(data, "is_device_rooted"), securityInfo, "is_device_rooted");
    normalized := normalized[IsDeviceRooted := rooted];
    var usbDebugging :- OrGet(Get(data, "is_usb_debugging_enabled"), securityInfo, "is_usb_debugging_enabled");
    normalized := normalized[IsUsbDebuggingEnabled := usbDebugging];
    var developerMode :- OrGet(Get(data, "is_developer_mode_enabled"), securityInfo, "is_developer_mode_enabled");
    normalized := normalized[IsDeveloperModeEnabled := developerMode];
    var bootloaderUnlocked :- OrGet(Get(data, "is_bootloader_unlocked"), securityInfo, "is_bootloader_unlocked");
    normalized := normalized[IsBootloaderUnlocked := bootloaderUnlocked];
    var customRom :- OrGet(Get(data, "is_custom_rom"), securityInfo, "is_custom_rom");
    normalized := normalized[IsCustomRom := customRom];

    normalized := normalized[BatteryLevel := Get(data, "battery_level")];

    normalized := DropEmpty(normalized);

    var extra := map[
      "brand" := Get(data, "brand"),
      "product" := Get(data, "product"),
      "device" := Get(data, "device"),
      "board" := Get(data, "board"),
      "hardware" := Get(data, "hardware"),
      "build_id" := Get(data, "build_id"),
      "build_type" := Get(data, "build_type"),
      "build_tags" := Get(data, "build_tags"),
      "build_time" := Get(data, "build_time"),
      "build_user" := Get(data, "build_user"),
      "build_host" := Get(data, "build_host"),
      "fingerprint" := Get(data, "fingerprint"),
      "android_info" := androidInfo,
      "imei_info" := imeiInfo,
      "storage_info" := storageInfo,
      "location_info" := locationInfo,
      "app_info" := appInfo,
      "security_info" := securityInfo,
      "system_integrity" := systemIntegrity
    ];
    extra := DropEmpty(extra);
    return Success(NormalizedHeartbeat(normalized, extra));
  }

  // ---------------------------------------------------------------------
  // Properties of the flattened heartbeat

  /** For any chosen values: a key survives the assignments and the
      clean-up exactly when it is assigned and its value is neither `None`
      nor `""`, and then keeps that value. */
  lemma ChainKept(v: FieldValues, ram: bool, storage: bool, key: HeartbeatKey)
    ensures var out := DropEmpty(AssignmentChain(v, ram, storage));
      && (key in out <==>
            (key.InstalledRam? ==> ram) && (key.TotalStorage? ==> storage) && IsPresent(v.Of(key)))
      && (key in out ==> out[key] == v.Of(key))
  {
    AssignmentLookup(v, ram, storage, key);
  }

  /** The IMEIs are never dropped. */
  lemma HeartbeatImeisKept(data: map<string, Value>)
    ensures DeviceImeis in HeartbeatFieldsKept(data)
  {
    ChainKept(HeartbeatChoices(data), RamAssigned(data), StorageAssigned(data), DeviceImeis);
  }

  /** RAM and storage are kept only when assigned and not reduced to `""`,
      every other key exactly when its chosen value is neither `None` nor
      `""`; a kept key keeps its chosen value. */
  lemma HeartbeatShape(data: map<string, Value>, key: HeartbeatKey)
    ensures key in HeartbeatFieldsKept(data) <==>
              (key.InstalledRam? ==> RamAssigned(data)) && (key.TotalStorage? ==> StorageAssigned(data))
              && IsPresent(HeartbeatChoices(data).Of(key))
    ensures key in HeartbeatFieldsKept(data) ==> HeartbeatFieldsKept(data)[key] == HeartbeatChoices(data).Of(key)
  {
    ChainKept(HeartbeatChoices(data), RamAssigned(data), StorageAssigned(data), key);
  }

  /** A flat field wins over its wrapper; when it is falsy the wrapper's
      entry is taken instead. */
  lemma HeartbeatFlatFirst(data: map<string, Value>, field: HeartbeatKey)
    requires field.FlatFirst()
    ensures HeartbeatChoices(data).Of(field)
            == if field.NestedSource().Some? && !Truthy(Get(data, field.Name()))
               then Nested(data, field.NestedSource().value.0, field.NestedSource().value.1)
               else Get(data, field.Name())
  {
  }

  /** `serial` wins over `serial_number`; the fingerprint is read from
      `fingerprint`. */
  lemma HeartbeatSerialAlias(data: map<string, Value>)
    ensures HeartbeatChoices(data).serialNumber == Or(Get(data, "serial"), Get(data, "serial_number"))
    ensures HeartbeatChoices(data).deviceFingerprint == Get(data, "fingerprint")
  {
  }

  /** The IMEIs are always a non-empty list: one string becomes a
      one-element list, a non-empty list is kept, and a missing value or an
      empty list becomes the sentinel. */
  lemma HeartbeatImeis(data: map<string, Value>)
    ensures var chosen := if Truthy(Get(data, "device_imeis")) then data["device_imeis"]
                          else Nested(data, "imei_info", "device_imeis");
      var imeis := HeartbeatChoices(data).deviceImeis;
      && imeis.List? && imeis.items != []
      && (chosen.Null? || chosen == List([]) ==> imeis == NoImeiSentinel)
      && (chosen.Str? ==> imeis == List([chosen]))
      && (chosen.List? && chosen.items != [] ==> imeis == chosen)
  {
  }

  /** RAM and storage are assigned only when the value found (flat first,
      then `storage_info`) is truthy, and then as its text without spaces,
      so a truthy value made of spaces alone disappears. */
  lemma HeartbeatStorageSpaceless(data: map<string, Value>, field: HeartbeatKey)
    requires field.InstalledRam? || field.TotalStorage?
    ensures var flat := Get(data, field.Name());
      var chosen := if Truthy(flat) then flat else Nested(data, "storage_info", field.Name());
      && (if field.InstalledRam? then RamAssigned(data) else StorageAssigned(data)) == Truthy(chosen)
      && HeartbeatChoices(data).Of(field) == Str(RemoveSpaces(PyStr(chosen)))
      && SpacelessStr(HeartbeatChoices(data).Of(field))
  {
  }

  /** The only error is `AttributeError`, raised only when a consulted
      wrapper is truthy but not a dictionary. */
  lemma HeartbeatErrors(data: map<string, Value>)
    ensures (forall w :: w in ConsultedWrappers ==> Wrapper(data, w).Dict?) ==>
              NormalizeHeartbeatSpec(data).Success?
    ensures NormalizeHeartbeatSpec(data).Success? ==> NormalizeHeartbeatSpec(data).value.fields == HeartbeatFieldsKept(data)
    ensures NormalizeHeartbeatSpec(data).Failure? ==>
              && NormalizeHeartbeatSpec(data).error == AttributeError
              && exists w :: w in ConsultedWrappers && !Wrapper(data, w).Dict?
  {
  }
}
