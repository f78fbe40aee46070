/** Flattening of the payload a mobile agent registers with
    (`_normalize_mobile_payload`). It follows the heartbeat's rules (flat
    fields first, spaceless RAM and storage, IMEIs always a non-empty list,
    `None` and `""` dropped) and adds fallback aliases (`device_info` or
    `device_data`, `imeis`, `serial`, `android_version`, ...). Every
    already-flat allowed field the payload carries is kept, and no other
    field survives, so the result always passes the field check of the
    mobile registration endpoint. */
module RegistrationPayload {
  import opened Wrappers
  import opened PyValue
  import MobilePayload
  import FieldValidation

  /** The fields the mobile registration endpoint accepts. */
  const MobileBaseFields: set<string> := {
    "device_id", "loan_number", "device_type", "manufacturer", "model", "platform", "system_type",
    "os_version", "os_edition", "processor", "installed_ram", "total_storage", "build_number",
    "sdk_version", "system_uptime", "installed_apps_hash", "system_properties_hash",
    "tamper_severity", "tamper_flags", "battery_level", "language", "latitude", "longitude",
    "android_id", "bootloader", "security_patch_level"
  }

  const MobileOnlyFields: set<string> := {
    "device_imeis", "serial_number", "machine_name", "device_fingerprint",
    "is_device_rooted", "is_usb_debugging_enabled", "is_developer_mode_enabled",
    "is_bootloader_unlocked", "is_custom_rom"
  }

  /** The keys of the flattened registration payload: exactly the accepted
      fields; `Name()` is the dictionary key. */
  datatype RegistrationKey =
    | DeviceId | LoanNumber | DeviceType | Manufacturer | Model | Platform | SystemType
    | OsVersion | OsEdition | Processor | InstalledRam | TotalStorage | BuildNumber
    | SdkVersion | SystemUptime | InstalledAppsHash | SystemPropertiesHash
    | TamperSeverity | TamperFlags | BatteryLevel | Language | Latitude | Longitude
    | AndroidId | Bootloader | SecurityPatchLevel
    | DeviceImeis | SerialNumber | MachineName | DeviceFingerprint
    | IsDeviceRooted | IsUsbDebuggingEnabled | IsDeveloperModeEnabled
    | IsBootloaderUnlocked | IsCustomRom
  {
    function Name(): string
    {
      match this
      case DeviceId => "device_id"
      case LoanNumber => "loan_number"
      case DeviceType => "device_type"
      case Manufacturer => "manufacturer"
      case Model => "model"
      case Platform => "platform"
      case SystemType => "system_type"
      case OsVersion => "os_version"
      case OsEdition => "os_edition"
      case Processor => "processor"
      case InstalledRam => "installed_ram"
      case TotalStorage => "total_storage"
      case BuildNumber => "build_number"
      case SdkVersion => "sdk_version"
      case SystemUptime => "system_uptime"
      case InstalledAppsHash => "installed_apps_hash"
      case SystemPropertiesHash => "system_properties_hash"
      case TamperSeverity => "tamper_severity"
      case TamperFlags => "tamper_flags"
      case BatteryLevel => "battery_level"
      case Language => "language"
      case Latitude => "latitude"
      case Longitude => "longitude"
      case AndroidId => "android_id"
      case Bootloader => "bootloader"
      case SecurityPatchLevel => "security_patch_level"
      case DeviceImeis => "device_imeis"
      case SerialNumber => "serial_number"
      case MachineName => "machine_name"
      case DeviceFingerprint => "device_fingerprint"
      case IsDeviceRooted => "is_device_rooted"
      case IsUsbDebuggingEnabled => "is_usb_debugging_enabled"
      case IsDeveloperModeEnabled => "is_developer_mode_enabled"
      case IsBootloaderUnlocked => "is_bootloader_unlocked"
      case IsCustomRom => "is_custom_rom"
    }

    /** Set by name in `_normalize_mobile_payload`; the other three are
        only copied from the flat payload. */
    predicate SetByName()
    {
      !(this.DeviceType? || this.TamperSeverity? || this.TamperFlags?)
    }
  }

  const AllRegistrationKeys: set<RegistrationKey> := {
    DeviceId, LoanNumber, DeviceType, Manufacturer, Model, Platform, SystemType,
    OsVersion, OsEdition, Processor, InstalledRam, TotalStorage, BuildNumber,
    SdkVersion, SystemUptime, InstalledAppsHash, SystemPropertiesHash,
    TamperSeverity, TamperFlags, BatteryLevel, Language, Latitude, Longitude,
    AndroidId, Bootloader, SecurityPatchLevel,
    DeviceImeis, SerialNumber, MachineName, DeviceFingerprint,
    IsDeviceRooted, IsUsbDebuggingEnabled, IsDeveloperModeEnabled,
    IsBootloaderUnlocked, IsCustomRom
  }

  /** Every key is an accepted field. */
  lemma KeyNameAccepted(key: RegistrationKey)
    ensures key.Name() in MobileBaseFields + MobileOnlyFields
    ensures key in AllRegistrationKeys
  {
  }

  /** `data.get("device_info") or data.get("device_data") or {}` */
  function DeviceInfo(data: map<string, Value>): Value
  {
    Or(Or(Get(data, "device_info"), Get(data, "device_data")), Dict(map[]))
  }

  /** `device_info.get(key)` once `device_info` has been settled; `None`
      when it is not a dictionary. */
  function DeviceInfoField(data: map<string, Value>, key: string): Value
  {
    var deviceInfo := DeviceInfo(data);
    if deviceInfo.Dict? then Get(deviceInfo.entries, key) else Null
  }

  /** RAM or storage as found: the flat field, else `storage_info`'s entry. */
  function StorageFound(data: map<string, Value>, key: RegistrationKey): Value
  {
    Or(Get(data, key.Name()), MobilePayload.Nested(data, "storage_info", key.Name()))
  }

  /** The IMEIs as found: `device_imeis`, `imeis`, `device_info.imeis`,
      `imei_info.device_imeis`, the first truthy (else the last). */
  function ImeisFound(data: map<string, Value>): Value
  {
    Or(Or(Or(Get(data, "device_imeis"), Get(data, "imeis")), DeviceInfoField(data, "imeis")),
       MobilePayload.Nested(data, "imei_info", "device_imeis"))
  }

  /** One value for every key set by name, as found in the payload; RAM,
      storage and the IMEIs are converted when they are assigned. */
  datatype RegistrationValues = RegistrationValues(
    loanNumber: Value, deviceId: Value, androidId: Value, model: Value, manufacturer: Value,
    platform: Value, systemType: Value, osVersion: Value, osEdition: Value, processor: Value,
    installedRam: Value, totalStorage: Value, buildNumber: Value, sdkVersion: Value, deviceFingerprint: Value,
    bootloader: Value, securityPatchLevel: Value, systemUptime: Value, installedAppsHash: Value, systemPropertiesHash: Value,
    isDeviceRooted: Value, isUsbDebuggingEnabled: Value, isDeveloperModeEnabled: Value, isBootloaderUnlocked: Value, isCustomRom: Value,
    latitude: Value, longitude: Value, batteryLevel: Value, language: Value, deviceImeis: Value,
    serialNumber: Value, machineName: Value)
  {
    /** The value assigned to a key set by name: RAM, storage and the
        IMEIs as converted in `c`, every other value as found. */
    function Of(c: Converted, key: RegistrationKey): Value
    {
      if key.InstalledRam? then c.ramText
      else if key.TotalStorage? then c.storageText
      else if key.DeviceImeis? then c.imeis
      else Found(key)
    }

    /** The value found for a key set by name, group by group (`None` for
        the three keys only copied from the flat payload). */
    function Found(key: RegistrationKey): Value
    {
      if InDeviceGroup(key) then DeviceValue(key)
      else if InSystemGroup(key) then SystemValue(key)
      else if key.InstalledRam? then installedRam
      else if key.TotalStorage? then totalStorage
      else if InBuildGroup(key) then BuildValue(key)
      else if InIntegrityGroup(key) then IntegrityValue(key)
      else if InSecurityGroup(key) then SecurityValue(key)
      else if InLocaleGroup(key) then LocaleValue(key)
      else Null
    }

    /** The values of the loan number to the manufacturer. */
    function DeviceValue(key: RegistrationKey): Value
      requires InDeviceGroup(key)
    {
      if key.LoanNumber? then loanNumber
      else if key.DeviceId? then deviceId
      else if key.AndroidId? then androidId
      else if key.Model? then model
      else manufacturer
    }

    /** The values of the platform to the processor. */
    function SystemValue(key: RegistrationKey): Value
      requires InSystemGroup(key)
    {
      if key.Platform? then platform
      else if key.SystemType? then systemType
      else if key.OsVersion? then osVersion
      else if key.OsEdition? then osEdition
      else processor
    }

    /** The values of the build number to the bootloader. */
    function BuildValue(key: RegistrationKey): Value
      requires InBuildGroup(key)
    {
      if key.BuildNumber? then buildNumber
      else if key.SdkVersion? then sdkVersion
      else if key.DeviceFingerprint? then deviceFingerprint
      else bootloader
    }

    /** The values of the security patch level to the integrity hashes. */
    function IntegrityValue(key: RegistrationKey): Value
      requires InIntegrityGroup(key)
    {
      if key.SecurityPatchLevel? then securityPatchLevel
      else if key.SystemUptime? then systemUptime
      else if key.InstalledAppsHash? then installedAppsHash
      else systemPropertiesHash
    }

    /** The values of the five security flags. */
    function SecurityValue(key: RegistrationKey): Value
      requires InSecurityGroup(key)
    {
      if key.IsDeviceRooted? then isDeviceRooted
      else if key.IsUsbDebuggingEnabled? then isUsbDebuggingEnabled
      else if key.IsDeveloperModeEnabled? then isDeveloperModeEnabled
      else if key.IsBootloaderUnlocked? then isBootloaderUnlocked
      else isCustomRom
    }

    /** The values of the latitude to the machine name (the IMEIs as found). */
    function LocaleValue(key: RegistrationKey): Value
      requires InLocaleGroup(key)
    {
      if key.Latitude? then latitude
      else if key.Longitude? then longitude
      else if key.BatteryLevel? then batteryLevel
      else if key.Language? then language
      else if key.DeviceImeis? then deviceImeis
      else if key.SerialNumber? then serialNumber
      else machineName
    }
  }

  /** RAM and storage as text without spaces, and the IMEIs as a list. */
  datatype Converted = Converted(ramText: Value, storageText: Value, imeis: Value)

  /** The conversions `_normalize_mobile_payload` applies to the RAM, the
      storage and the IMEIs it found: `str(x).replace(" ", "")` and the
      IMEI coercion. */
  function Convert(v: RegistrationValues): (c: Converted)
    ensures MobilePayload.SpacelessStr(c.ramText) && MobilePayload.SpacelessStr(c.storageText)
    ensures c.imeis.List? && c.imeis.items != []
  {
    Converted(MobilePayload.SpacelessText(v.installedRam), MobilePayload.SpacelessText(v.totalStorage),
              MobilePayload.CoerceImeis(v.deviceImeis))
  }

  /** The choices of `_normalize_mobile_payload` for the keys it sets by
      name, before the conversions. */
  function RegistrationChoices(data: map<string, Value>): RegistrationValues
  {
    var registrationInfo := MobilePayload.Wrapper(data, "registration_info");
    var deviceInfo := DeviceInfo(data);
    var androidInfo := MobilePayload.Wrapper(data, "android_info");
    var imeiInfo := MobilePayload.Wrapper(data, "imei_info");
    var storageInfo := MobilePayload.Wrapper(data, "storage_info");
    var locationInfo := MobilePayload.Wrapper(data, "location_info");
    var securityInfo := MobilePayload.Wrapper(data, "security_info");
    var systemIntegrity := MobilePayload.Wrapper(data, "system_integrity");
    var flatImeis := Or(Get(data, "device_imeis"), Get(data, "imeis"));
    RegistrationValues(
      loanNumber := MobilePayload.Pick(MobilePayload.Pick(Get(data, "loan_number"), deviceInfo, "loan_number"), registrationInfo, "loan_number"),
      deviceId := MobilePayload.Pick(Get(data, "device_id"), deviceInfo, "device_id"),
      androidId := MobilePayload.Pick(MobilePayload.Pick(Get(data, "android_id"), deviceInfo, "android_id"), deviceInfo, "device_id"),
      model := MobilePayload.Pick(Get(data, "model"), deviceInfo, "model"),
      manufacturer := MobilePayload.Pick(Get(data, "manufacturer"), deviceInfo, "manufacturer"),
      platform := Or(MobilePayload.Pick(Get(data, "platform"), deviceInfo, "hardware"), Get(data, "hardware")),
      systemType := Or(MobilePayload.Pick(Get(data, "system_type"), deviceInfo, "device"), Get(data, "device")),
      osVersion := MobilePayload.Pick(Or(Get(data, "os_version"), Get(data, "android_version")), androidInfo, "version_release"),
      osEdition := MobilePayload.Pick(Get(data, "os_edition"), androidInfo, "version_incremental"),
      processor := Or(MobilePayload.Pick(Get(data, "processor"), deviceInfo, "hardware"), Get(data, "hardware")),
      installedRam := MobilePayload.Pick(Get(data, "installed_ram"), storageInfo, "installed_ram"),
      totalStorage := MobilePayload.Pick(Get(data, "total_storage"), storageInfo, "total_storage"),
      buildNumber := Get(data, "build_number"),
      sdkVersion := MobilePayload.Pick(Get(data, "sdk_version"), androidInfo, "version_sdk_int"),
      deviceFingerprint := Or(MobilePayload.Pick(Get(data, "device_fingerprint"), deviceInfo, "fingerprint"), Get(data, "fingerprint")),
      bootloader := MobilePayload.Pick(Get(data, "bootloader"), deviceInfo, "bootloader"),
      securityPatchLevel := MobilePayload.Pick(Get(data, "security_patch_level"), androidInfo, "security_patch"),
      systemUptime := Get(data, "system_uptime"),
      installedAppsHash := MobilePayload.Pick(Get(data, "installed_apps_hash"), systemIntegrity, "installed_apps_hash"),
      systemPropertiesHash := MobilePayload.Pick(Get(data, "system_properties_hash"), systemIntegrity, "system_properties_hash"),
      isDeviceRooted := MobilePayload.Pick(Get(data, "is_device_rooted"), securityInfo, "is_device_rooted"),
      isUsbDebuggingEnabled := MobilePayload.Pick(Get(data, "is_usb_debugging_enabled"), securityInfo, "is_usb_debugging_enabled"),
      isDeveloperModeEnabled := MobilePayload.Pick(Get(data, "is_developer_mode_enabled"), securityInfo, "is_developer_mode_enabled"),
      isBootloaderUnlocked := MobilePayload.Pick(Get(data, "is_bootloader_unlocked"), securityInfo, "is_bootloader_unlocked"),
      isCustomRom := MobilePayload.Pick(Get(data, "is_custom_rom"), securityInfo, "is_custom_rom"),
      latitude := MobilePayload.Pick(Get(data, "latitude"), locationInfo, "latitude"),
      longitude := MobilePayload.Pick(Get(data, "longitude"), locationInfo, "longitude"),
      batteryLevel := Get(data, "battery_level"),
      language := Get(data, "language"),
      deviceImeis := MobilePayload.Pick(MobilePayload.Pick(flatImeis, deviceInfo, "imeis"), imeiInfo, "device_imeis"),
      serialNumber := MobilePayload.Pick(Or(Get(data, "serial_number"), Get(data, "serial")), deviceInfo, "serial"),
      machineName := MobilePayload.Pick(Get(data, "machine_name"), deviceInfo, "machine_name"))
  }

  /** A key is assigned by name unless it is RAM or storage and the value
      found for it is falsy. */
  predicate Assigned(key: RegistrationKey, ram: bool, storage: bool)
  {
    key.SetByName() && (key.InstalledRam? ==> ram) && (key.TotalStorage? ==> storage)
  }

  /** The dictionary the assignments by name build, key by key: every
      assigned key with its value from `v`. */
  function FieldsOf(v: RegistrationValues, c: Converted, ram: bool, storage: bool): map<RegistrationKey, Value>
  {
    map key | key in AllRegistrationKeys && Assigned(key, ram, storage) :: v.Of(c, key)
  }

  /** The dictionary after the assignments by name. */
  function RegistrationFields(data: map<string, Value>): map<RegistrationKey, Value>
  {
    var v := RegistrationChoices(data);
    FieldsOf(v, Convert(v), MobilePayload.RamAssigned(data), MobilePayload.StorageAssigned(data))
  }

  predicate InDeviceGroup(key: RegistrationKey)
  {
    key.LoanNumber? || key.DeviceId? || key.AndroidId? || key.Model? || key.Manufacturer?
  }

  predicate InSystemGroup(key: RegistrationKey)
  {
    key.Platform? || key.SystemType? || key.OsVersion? || key.OsEdition? || key.Processor?
  }

  predicate InIdentityGroup(key: RegistrationKey)
  {
    InDeviceGroup(key) || InSystemGroup(key)
  }

  /** The assignments of `_normalize_mobile_payload` from the loan number
      to the manufacturer, taking the values from `v`. */
  function DeviceAssignments(v: RegistrationValues): map<RegistrationKey, Value>
  {
    map[][LoanNumber := v.loanNumber][DeviceId := v.deviceId]
      [AndroidId := v.androidId][Model := v.model][Manufacturer := v.manufacturer]
  }

  /** The assignments from the platform to the storage: RAM and storage
      only when `ram` and `storage` hold. */
  function SystemAssignments(m: map<RegistrationKey, Value>, v: RegistrationValues, c: Converted, ram: bool, storage: bool): map<RegistrationKey, Value>
  {
    var system := m[Platform := v.platform][SystemType := v.systemType][OsVersion := v.osVersion]
      [OsEdition := v.osEdition][Processor := v.processor];
    var withRam := if ram then system[InstalledRam := c.ramText] else system;
    if storage then withRam[TotalStorage := c.storageText] else withRam
  }

  /** The assignments from the loan number to the storage, in the order of
      the source. */
  function IdentityAndHardware(v: RegistrationValues, c: Converted, ram: bool, storage: bool): map<RegistrationKey, Value>
  {
    SystemAssignments(DeviceAssignments(v), v, c, ram, storage)
  }

  predicate InBuildGroup(key: RegistrationKey)
  {
    key.BuildNumber? || key.SdkVersion? || key.DeviceFingerprint? || key.Bootloader?
  }

  predicate InIntegrityGroup(key: RegistrationKey)
  {
    key.SecurityPatchLevel? || key.SystemUptime? || key.InstalledAppsHash? || key.SystemPropertiesHash?
  }

  /** The assignments from the build number to the bootloader. */
  function BuildAssignments(m: map<RegistrationKey, Value>, v: RegistrationValues): map<RegistrationKey, Value>
  {
    m[BuildNumber := v.buildNumber][SdkVersion := v.sdkVersion]
      [DeviceFingerprint := v.deviceFingerprint][Bootloader := v.bootloader]
  }

  /** The assignments from the security patch level to the integrity hashes. */
  function IntegrityAssignments(m: map<RegistrationKey, Value>, v: RegistrationValues): map<RegistrationKey, Value>
  {
    m[SecurityPatchLevel := v.securityPatchLevel][SystemUptime := v.systemUptime]
      [InstalledAppsHash := v.installedAppsHash][SystemPropertiesHash := v.systemPropertiesHash]
  }

  /** The assignments from the build number to the integrity hashes. */
  function BuildAndIntegrity(m: map<RegistrationKey, Value>, v: RegistrationValues): map<RegistrationKey, Value>
  {
    IntegrityAssignments(BuildAssignments(m, v), v)
  }

  predicate InSecurityGroup(key: RegistrationKey)
  {
    key.IsDeviceRooted? || key.IsUsbDebuggingEnabled? || key.IsDeveloperModeEnabled?
    || key.IsBootloaderUnlocked? || key.IsCustomRom?
  }

  predicate InLocationGroup(key: RegistrationKey)
  {
    key.Latitude? || key.Longitude? || key.BatteryLevel? || key.Language?
  }

  predicate InIdentifierGroup(key: RegistrationKey)
  {
    key.DeviceImeis? || key.SerialNumber? || key.MachineName?
  }

  predicate InLocaleGroup(key: RegistrationKey)
  {
    InLocationGroup(key) || InIdentifierGroup(key)
  }

  predicate InAliasGroup(key: RegistrationKey)
  {
    InSecurityGroup(key) || InLocaleGroup(key)
  }

  /** The assignments of the five security flags. */
  function SecurityAssignments(m: map<RegistrationKey, Value>, v: RegistrationValues): map<RegistrationKey, Value>
  {
    m[IsDeviceRooted := v.isDeviceRooted][IsUsbDebuggingEnabled := v.isUsbDebuggingEnabled]
      [IsDeveloperModeEnabled := v.isDeveloperModeEnabled]
      [IsBootloaderUnlocked := v.isBootloaderUnlocked][IsCustomRom := v.isCustomRom]
  }

  /** The assignments from the latitude to the language. */
  function LocationAssignments(m: map<RegistrationKey, Value>, v: RegistrationValues): map<RegistrationKey, Value>
  {
    m[Latitude := v.latitude][Longitude := v.longitude]
      [BatteryLevel := v.batteryLevel][Language := v.language]
  }

  /** The assignments of the IMEIs, the serial number and the machine name. */
  function IdentifierAssignments(m: map<RegistrationKey, Value>, v: RegistrationValues, c: Converted): map<RegistrationKey, Value>
  {
    m[DeviceImeis := c.imeis][SerialNumber := v.serialNumber][MachineName := v.machineName]
  }

  /** The assignments from the latitude to the machine name. */
  function LocaleAssignments(m: map<RegistrationKey, Value>, v: RegistrationValues, c: Converted): map<RegistrationKey, Value>
  {
    IdentifierAssignments(LocationAssignments(m, v), v, c)
  }

  /** The assignments from the security flags to the machine name. */
  function SecurityAndAliases(m: map<RegistrationKey, Value>, v: RegistrationValues, c: Converted): map<RegistrationKey, Value>
  {
    LocaleAssignments(SecurityAssignments(m, v), v, c)
  }

  /** All the assignments by name, in the order of the source. */
  function AssignmentChain(v: RegistrationValues, c: Converted, ram: bool, storage: bool): map<RegistrationKey, Value>
  {
    SecurityAndAliases(BuildAndIntegrity(IdentityAndHardware(v, c, ram, storage), v), v, c)
  }

  /** The keys set by name are the six groups of assignments. */
  lemma SetByNameGroups(key: RegistrationKey)
    ensures key.SetByName() <==>
      InIdentityGroup(key) || (key.InstalledRam? || key.TotalStorage?) || InBuildGroup(key)
      || InIntegrityGroup(key) || InAliasGroup(key)
  {
  }

  /** Every key present in `m` holds the value `v` and `c` give it. */
  predicate HoldsValue(m: map<RegistrationKey, Value>, v: RegistrationValues, c: Converted, key: RegistrationKey)
  {
    key in m ==> m[key] == v.Of(c, key)
  }

  lemma DeviceAssignmentsLookup(v: RegistrationValues, c: Converted, key: RegistrationKey)
    ensures key in DeviceAssignments(v) <==> InDeviceGroup(key)
    ensures HoldsValue(DeviceAssignments(v), v, c, key)
  {
  }

  /** RAM and storage join the system group when they are assigned. */
  predicate SetBySystem(key: RegistrationKey, ram: bool, storage: bool)
  {
    InSystemGroup(key) || (key.InstalledRam? && ram) || (key.TotalStorage? && storage)
  }

  lemma SystemAssignmentsLookup(m: map<RegistrationKey, Value>, v: RegistrationValues, c: Converted, ram: bool, storage: bool, key: RegistrationKey)
    requires HoldsValue(m, v, c, key)
    ensures key in SystemAssignments(m, v, c, ram, storage) <==> key in m || SetBySystem(key, ram, storage)
    ensures HoldsValue(SystemAssignments(m, v, c, ram, storage), v, c, key)
  {
  }

  lemma BuildAssignmentsLookup(m: map<RegistrationKey, Value>, v: RegistrationValues, c: Converted, key: RegistrationKey)
    requires HoldsValue(m, v, c, key)
    ensures key in BuildAssignments(m, v) <==> key in m || InBuildGroup(key)
    ensures HoldsValue(BuildAssignments(m, v), v, c, key)
  {
  }

  lemma IntegrityAssignmentsLookup(m: map<RegistrationKey, Value>, v: RegistrationValues, c: Converted, key: RegistrationKey)
    requires HoldsValue(m, v, c, key)
    ensures key in IntegrityAssignments(m, v) <==> key in m || InIntegrityGroup(key)
    ensures HoldsValue(IntegrityAssignments(m, v), v, c, key)
  {
  }

  lemma SecurityAssignmentsLookup(m: map<RegistrationKey, Value>, v: RegistrationValues, c: Converted, key: RegistrationKey)
    requires HoldsValue(m, v, c, key)
    ensures key in SecurityAssignments(m, v) <==> key in m || InSecurityGroup(key)
    ensures HoldsValue(SecurityAssignments(m, v), v, c, key)
  {
  }

  lemma LocaleAssignmentsLookup(m: map<RegistrationKey, Value>, v: RegistrationValues, c: Converted, key: RegistrationKey)
    requires HoldsValue(m, v, c, key)
    ensures key in LocaleAssignments(m, v, c) <==> key in m || InLocaleGroup(key)
    ensures HoldsValue(LocaleAssignments(m, v, c), v, c, key)
  {
    LocationAssignmentsLookup(m, v, c, key);
    IdentifierAssignmentsLookup(LocationAssignments(m, v), v, c, key);
  }

  lemma LocationAssignmentsLookup(m: map<RegistrationKey, Value>, v: RegistrationValues, c: Converted, key: RegistrationKey)
    requires HoldsValue(m, v, c, key)
    ensures key in LocationAssignments(m, v) <==> key in m || InLocationGroup(key)
    ensures HoldsValue(LocationAssignments(m, v), v, c, key)
  {
  }

  lemma IdentifierAssignmentsLookup(m: map<RegistrationKey, Value>, v: RegistrationValues, c: Converted, key: RegistrationKey)
    requires HoldsValue(m, v, c, key)
    ensures key in IdentifierAssignments(m, v, c) <==> key in m || InIdentifierGroup(key)
    ensures HoldsValue(IdentifierAssignments(m, v, c), v, c, key)
  {
  }

  /** Every key set by name ends up with its value from `v` and `c`; RAM
      and storage are there only when they were assigned. */
  lemma AssignmentLookup(v: RegistrationValues, c: Converted, ram: bool, storage: bool, key: RegistrationKey)
    ensures key in AssignmentChain(v, c, ram, storage) <==> Assigned(key, ram, storage)
    ensures key in AssignmentChain(v, c, ram, storage) ==> AssignmentChain(v, c, ram, storage)[key] == v.Of(c, key)
  {
    var device := DeviceAssignments(v);
    var system := SystemAssignments(device, v, c, ram, storage);
    var build := BuildAssignments(system, v);
    var integrity := IntegrityAssignments(build, v);
    var security := SecurityAssignments(integrity, v);
    DeviceAssignmentsLookup(v, c, key);
    SystemAssignmentsLookup(device, v, c, ram, storage, key);
    BuildAssignmentsLookup(system, v, c, key);
    IntegrityAssignmentsLookup(build, v, c, key);
    SecurityAssignmentsLookup(integrity, v, c, key);
    LocaleAssignmentsLookup(security, v, c, key);
    SetByNameGroups(key);
  }

  /** The assignments one after the other build the dictionary the
      specification describes key by key. */
  lemma ChainIsFields(v: RegistrationValues, c: Converted, ram: bool, storage: bool)
    ensures AssignmentChain(v, c, ram, storage) == FieldsOf(v, c, ram, storage)
  {
    forall key | key in AssignmentChain(v, c, ram, storage)
      ensures key in FieldsOf(v, c, ram, storage) && AssignmentChain(v, c, ram, storage)[key] == v.Of(c, key)
    {
      AssignmentLookup(v, c, ram, storage, key);
      KeyNameAccepted(key);
    }
    forall key | key in FieldsOf(v, c, ram, storage)
      ensures key in AssignmentChain(v, c, ram, storage)
    {
      AssignmentLookup(v, c, ram, storage, key);
    }
  }

  /** The first part of the lookups never raises. */
  predicate IdentityLookupsSucceed(data: map<string, Value>)
  {
    var registrationInfo := MobilePayload.Wrapper(data, "registration_info");
    var deviceInfo := DeviceInfo(data);
    var androidInfo := MobilePayload.Wrapper(data, "android_info");
    var storageInfo := MobilePayload.Wrapper(data, "storage_info");
    && MobilePayload.CanPick(Get(data, "loan_number"), deviceInfo)
    && MobilePayload.CanPick(MobilePayload.Pick(Get(data, "loan_number"), deviceInfo, "loan_number"), registrationInfo)
    && MobilePayload.CanPick(Get(data, "device_id"), deviceInfo)
    && MobilePayload.CanPick(Get(data, "android_id"), deviceInfo)
    && MobilePayload.CanPick(MobilePayload.Pick(Get(data, "android_id"), deviceInfo, "android_id"), deviceInfo)
    && MobilePayload.CanPick(Get(data, "model"), deviceInfo)
    && MobilePayload.CanPick(Get(data, "manufacturer"), deviceInfo)
    && MobilePayload.CanPick(Get(data, "platform"), deviceInfo)
    && MobilePayload.CanPick(Get(data, "system_type"), deviceInfo)
    && MobilePayload.CanPick(Or(Get(data, "os_version"), Get(data, "android_version")), androidInfo)
    && MobilePayload.CanPick(Get(data, "os_edition"), androidInfo)
    && MobilePayload.CanPick(Get(data, "processor"), deviceInfo)
    && MobilePayload.CanPick(Get(data, "installed_ram"), storageInfo)
    && MobilePayload.CanPick(Get(data, "total_storage"), storageInfo)
  }

  /** The lookups from the build number to the integrity hashes never raise. */
  predicate IntegrityLookupsSucceed(data: map<string, Value>)
  {
    var deviceInfo := DeviceInfo(data);
    var androidInfo := MobilePayload.Wrapper(data, "android_info");
    var systemIntegrity := MobilePayload.Wrapper(data, "system_integrity");
    && MobilePayload.CanPick(Get(data, "sdk_version"), androidInfo)
    && MobilePayload.CanPick(Get(data, "device_fingerprint"), deviceInfo)
    && MobilePayload.CanPick(Get(data, "bootloader"), deviceInfo)
    && MobilePayload.CanPick(Get(data, "security_patch_level"), androidInfo)
    && MobilePayload.CanPick(Get(data, "installed_apps_hash"), systemIntegrity)
    && MobilePayload.CanPick(Get(data, "system_properties_hash"), systemIntegrity)
  }

  /** The lookups from the security flags to the machine name never raise. */
  predicate AliasLookupsSucceed(data: map<string, Value>)
  {
    var deviceInfo := DeviceInfo(data);
    var imeiInfo := MobilePayload.Wrapper(data, "imei_info");
    var locationInfo := MobilePayload.Wrapper(data, "location_info");
    var securityInfo := MobilePayload.Wrapper(data, "security_info");
    var flatImeis := Or(Get(data, "device_imeis"), Get(data, "imeis"));
    && MobilePayload.CanPick(Get(data, "is_device_rooted"), securityInfo)
    && MobilePayload.CanPick(Get(data, "is_usb_debugging_enabled"), securityInfo)
    && MobilePayload.CanPick(Get(data, "is_developer_mode_enabled"), securityInfo)
    && MobilePayload.CanPick(Get(data, "is_bootloader_unlocked"), securityInfo)
    && MobilePayload.CanPick(Get(data, "is_custom_rom"), securityInfo)
    && MobilePayload.CanPick(Get(data, "latitude"), locationInfo)
    && MobilePayload.CanPick(Get(data, "longitude"), locationInfo)
    && MobilePayload.CanPick(flatImeis, deviceInfo)
    && MobilePayload.CanPick(MobilePayload.Pick(flatImeis, deviceInfo, "imeis"), imeiInfo)
    && MobilePayload.CanPick(Or(Get(data, "serial_number"), Get(data, "serial")), deviceInfo)
    && MobilePayload.CanPick(Get(data, "machine_name"), deviceInfo)
  }

  /** None of the wrapper lookups of `_normalize_mobile_payload` raises. */
  predicate RegistrationLookupsSucceed(data: map<string, Value>)
  {
    IdentityLookupsSucceed(data) && IntegrityLookupsSucceed(data) && AliasLookupsSucceed(data)
  }

  /** `m` once the keys of `done` the payload carries under their own name
      and `m` lacks have been copied from the payload. */
  function KeptFlat(m: map<RegistrationKey, Value>, data: map<string, Value>, done: set<RegistrationKey>)
    : map<RegistrationKey, Value>
  {
    map key | key in m || (key in done && key.Name() in data) :: if key in m then m[key] else data[key.Name()]
  }

  /** The dictionary `_normalize_mobile_payload` returns when none of its
      lookups raises. */
  function NormalizedRegistration(data: map<string, Value>): map<RegistrationKey, Value>
  {
    MobilePayload.DropEmpty(KeptFlat(RegistrationFields(data), data, AllRegistrationKeys))
  }

  /** What `_normalize_mobile_payload(payload)` returns or raises. */
  function NormalizeRegistrationSpec(data: map<string, Value>): Result<map<RegistrationKey, Value>, PyError>
  {
    if RegistrationLookupsSucceed(data) then Success(NormalizedRegistration(data)) else Failure(AttributeError)
  }
  /** The loop that keeps the already-flat accepted fields: each key of the
      accepted set (in any order) that the payload carries and the
      dictionary lacks is copied over. */
  method KeepFlatFields(normalized: map<RegistrationKey, Value>, data: map<string, Value>)
    returns (r: map<RegistrationKey, Value>)
    ensures r == KeptFlat(normalized, data, AllRegistrationKeys)
  {
    r := normalized;
    var remaining := AllRegistrationKeys;
    while remaining != {}
      invariant remaining <= AllRegistrationKeys
      invariant r == KeptFlat(normalized, data, AllRegistrationKeys - remaining)
      decreases remaining
    {
      var key :| key in remaining;
      ghost var done := AllRegistrationKeys - remaining;
      if key.Name() in data && key !in r {
        r := r[key := data[key.Name()]];
      }
      remaining := remaining - {key};
      assert AllRegistrationKeys - remaining == done + {key};
    }
  }

  /** The assignments from the loan number to the storage. */
  method AssignIdentityAndHardware(data: map<string, Value>) returns (r: Result<map<RegistrationKey, Value>, PyError>)
    ensures r == if IdentityLookupsSucceed(data)
                 then Success(IdentityAndHardware(RegistrationChoices(data), Convert(RegistrationChoices(data)),
                                                  MobilePayload.RamAssigned(data), MobilePayload.StorageAssigned(data)))
                 else Failure(AttributeError)
  {
    var registrationInfo := MobilePayload.Wrapper(data, "registration_info");
    var deviceInfo := DeviceInfo(data);
    var androidInfo := MobilePayload.Wrapper(data, "android_info");
    var storageInfo := MobilePayload.Wrapper(data, "storage_info");
    var normalized: map<RegistrationKey, Value> := map[];

    var loanFromDevice :- MobilePayload.OrGet(Get(data, "loan_number"), deviceInfo, "loan_number");
    var loanNumber :- MobilePayload.OrGet(loanFromDevice, registrationInfo, "loan_number");
    normalized := normalized[LoanNumber := loanNumber];

    var deviceId :- MobilePayload.OrGet(Get(data, "device_id"), deviceInfo, "device_id");
    normalized := normalized[DeviceId := deviceId];
    var androidFromDevice :- MobilePayload.OrGet(Get(data, "android_id"), deviceInfo, "android_id");
    var androidId :- MobilePayload.OrGet(androidFromDevice, deviceInfo, "device_id");
    normalized := normalized[AndroidId := androidId];
    var model :- MobilePayload.OrGet(Get(data, "model"), deviceInfo, "model");
    normalized := normalized[Model := model];
    var manufacturer :- MobilePayload.OrGet(Get(data, "manufacturer"), deviceInfo, "manufacturer");
    normalized := normalized[Manufacturer := manufacturer];

    var platform :- MobilePayload.OrGet(Get(data, "platform"), deviceInfo, "hardware");
    normalized := normalized[Platform := Or(platform, Get(data, "hardware"))];
    var systemType :- MobilePayload.OrGet(Get(data, "system_type"), deviceInfo, "device");
    normalized := normalized[SystemType := Or(systemType, Get(data, "device"))];
    var osVersion :- MobilePayload.OrGet(Or(Get(data, "os_version"), Get(data, "android_version")), androidInfo, "version_release");
    normalized := normalized[OsVersion := osVersion];
    var osEdition :- MobilePayload.OrGet(Get(data, "os_edition"), androidInfo, "version_incremental");
    normalized := normalized[OsEdition := osEdition];
    var processor :- MobilePayload.OrGet(Get(data, "processor"), deviceInfo, "hardware");
    normalized := normalized[Processor := Or(processor, Get(data, "hardware"))];

    var installedRam :- MobilePayload.OrGet(Get(data, "installed_ram"), storageInfo, "installed_ram");
    if Truthy(installedRam) {
      normalized := normalized[InstalledRam := MobilePayload.SpacelessText(installedRam)];
    }
    var totalStorage :- MobilePayload.OrGet(Get(data, "total_storage"), storageInfo, "total_storage");
    if Truthy(totalStorage) {
      normalized := normalized[TotalStorage := MobilePayload.SpacelessText(totalStorage)];
    }
    return Success(normalized);
  }

  /** The assignments from the build number to the integrity hashes. */
  method AssignBuildAndIntegrity(normalized: map<RegistrationKey, Value>, data: map<string, Value>)
    returns (r: Result<map<RegistrationKey, Value>, PyError>)
    ensures r == if IntegrityLookupsSucceed(data)
                 then Success(BuildAndIntegrity(normalized, RegistrationChoices(data)))
                 else Failure(AttributeError)
  {
    var deviceInfo := DeviceInfo(data);
    var androidInfo := MobilePayload.Wrapper(data, "android_info");
    var systemIntegrity := MobilePayload.Wrapper(data, "system_integrity");
    var m := normalized[BuildNumber := Get(data, "build_number")];
    var sdkVersion :- MobilePayload.OrGet(Get(data, "sdk_version"), androidInfo, "version_sdk_int");
    m := m[SdkVersion := sdkVersion];
    var fingerprint :- MobilePayload.OrGet(Get(data, "device_fingerprint"), deviceInfo, "fingerprint");
    m := m[DeviceFingerprint := Or(fingerprint, Get(data, "fingerprint"))];
    var bootloader :- MobilePayload.OrGet(Get(data, "bootloader"), deviceInfo, "bootloader");
    m := m[Bootloader := bootloader];
    var patchLevel :- MobilePayload.OrGet(Get(data, "security_patch_level"), androidInfo, "security_patch");
    m := m[SecurityPatchLevel := patchLevel];
    m := m[SystemUptime := Get(data, "system_uptime")];
    var appsHash :- MobilePayload.OrGet(Get(data, "installed_apps_hash"), systemIntegrity, "installed_apps_hash");
    m := m[InstalledAppsHash := appsHash];
    var propertiesHash :- MobilePayload.OrGet(Get(data, "system_properties_hash"), systemIntegrity, "system_properties_hash");
    m := m[SystemPropertiesHash := propertiesHash];
    return Success(m);
  }

  /** The assignments from the security flags to the machine name. */
  method AssignSecurityAndAliases(normalized: map<RegistrationKey, Value>, data: map<string, Value>)
    returns (r: Result<map<RegistrationKey, Value>, PyError>)
    ensures r == if AliasLookupsSucceed(data)
                 then Success(SecurityAndAliases(normalized, RegistrationChoices(data), Convert(RegistrationChoices(data))))
                 else Failure(AttributeError)
  {
    var deviceInfo := DeviceInfo(data);
    var imeiInfo := MobilePayload.Wrapper(data, "imei_info");
    var locationInfo := MobilePayload.Wrapper(data, "location_info");
    var securityInfo := MobilePayload.Wrapper(data, "security_info");

    var rooted :- MobilePayload.OrGet(Get(data, "is_device_rooted"), securityInfo, "is_device_rooted");
    var m := normalized[IsDeviceRooted := rooted];
    var usbDebugging :- MobilePayload.OrGet(Get(data, "is_usb_debugging_enabled"), securityInfo, "is_usb_debugging_enabled");
    m := m[IsUsbDebuggingEnabled := usbDebugging];
    var developerMode :- MobilePayload.OrGet(Get(data, "is_developer_mode_enabled"), securityInfo, "is_developer_mode_enabled");
    m := m[IsDeveloperModeEnabled := developerMode];
    var bootloaderUnlocked :- MobilePayload.OrGet(Get(data, "is_bootloader_unlocked"), securityInfo, "is_bootloader_unlocked");
    m := m[IsBootloaderUnlocked := bootloaderUnlocked];
    var customRom :- MobilePayload.OrGet(Get(data, "is_custom_rom"), securityInfo, "is_custom_rom");
    m := m[IsCustomRom := customRom];

    var latitude :- MobilePayload.OrGet(Get(data, "latitude"), locationInfo, "latitude");
    m := m[Latitude := latitude];
    var longitude :- MobilePayload.OrGet(Get(data, "longitude"), locationInfo, "longitude");
    m := m[Longitude := longitude];
    m := m[BatteryLevel := Get(data, "battery_level")];
    m := m[Language := Get(data, "language")];

    var imeisFromDevice :- MobilePayload.OrGet(Or(Get(data, "device_imeis"), Get(data, "imeis")), deviceInfo, "imeis");
    var imeis :- MobilePayload.OrGet(imeisFromDevice, imeiInfo, "device_imeis");
    m := m[DeviceImeis := MobilePayload.CoerceImeis(imeis)];

    var serial :- MobilePayload.OrGet(Or(Get(data, "serial_number"), Get(data, "serial")), deviceInfo, "serial");
    m := m[SerialNumber := serial];
    var machineName :- MobilePayload.OrGet(Get(data, "machine_name"), deviceInfo, "machine_name");
    m := m[MachineName := machineName];
    return Success(m);
  }

  /** `_normalize_mobile_payload(payload)`: the assignments by name, in the
      order of the source, then the copy of the already-flat accepted
      fields, then the removal of `None` and `""`. Consulting a wrapper
      that is present but not a dictionary raises `AttributeError`. */
  method NormalizeMobilePayload(data: map<string, Value>) returns (r: Result<map<RegistrationKey, Value>, PyError>)
    ensures r == NormalizeRegistrationSpec(data)
  {
    var identity :- AssignIdentityAndHardware(data);
    var integrity :- AssignBuildAndIntegrity(identity, data);
    var byName :- AssignSecurityAndAliases(integrity, data);
    ChainIsFields(RegistrationChoices(data), Convert(RegistrationChoices(data)), MobilePayload.RamAssigned(data), MobilePayload.StorageAssigned(data));
    var kept := KeepFlatFields(byName, data);
    return Success(MobilePayload.DropEmpty(kept));
  }


  /** The copy loop adds exactly the accepted keys the payload carries and
      the dictionary lacks, and changes nothing already set. */
  lemma KeptFlatLookup(m: map<RegistrationKey, Value>, data: map<string, Value>, key: RegistrationKey)
    ensures key in KeptFlat(m, data, AllRegistrationKeys) <==> key in m || key.Name() in data
    ensures key in m ==> KeptFlat(m, data, AllRegistrationKeys)[key] == m[key]
    ensures key !in m && key.Name() in data ==> KeptFlat(m, data, AllRegistrationKeys)[key] == data[key.Name()]
  {
    KeyNameAccepted(key);
  }

  /** `key` is in `out` exactly when `chosen` is neither `None` nor `""`,
      and then holds `chosen`. */
  predicate KeptAs(out: map<RegistrationKey, Value>, key: RegistrationKey, chosen: Value)
  {
    (key in out <==> MobilePayload.IsPresent(chosen)) && (key in out ==> out[key] == chosen)
  }

  /** Assignments, copy and clean-up, for any values: an assigned key keeps
      its value, any other key the payload's own entry, and either is
      dropped when `None` or `""`. */
  lemma FieldOutcome(v: RegistrationValues, c: Converted, ram: bool, storage: bool, data: map<string, Value>,
                     key: RegistrationKey)
    ensures KeptAs(MobilePayload.DropEmpty(KeptFlat(FieldsOf(v, c, ram, storage), data, AllRegistrationKeys)), key,
                   if Assigned(key, ram, storage) then v.Of(c, key) else Get(data, key.Name()))
  {
    KeyNameAccepted(key);
    KeptFlatLookup(FieldsOf(v, c, ram, storage), data, key);
  }

  /** Where the normaliser finds the value of `key` before dropping the
      empty ones: the chosen value for a key it assigns by name, else the
      payload's own entry. */
  lemma RegistrationKeyOutcome(data: map<string, Value>, key: RegistrationKey)
    ensures KeptAs(NormalizedRegistration(data), key,
                   if Assigned(key, MobilePayload.RamAssigned(data), MobilePayload.StorageAssigned(data))
                   then RegistrationChoices(data).Of(Convert(RegistrationChoices(data)), key)
                   else Get(data, key.Name()))
  {
    FieldOutcome(RegistrationChoices(data), Convert(RegistrationChoices(data)), MobilePayload.RamAssigned(data), MobilePayload.StorageAssigned(data),
                 data, key);
  }

  /** Fields completed from `device_info` under the same name: the flat
      field wins when truthy, else `device_info`'s entry. */
  lemma ChoicesFromDeviceInfo(data: map<string, Value>, key: RegistrationKey)
    requires (key.DeviceId? || key.Model? || key.Manufacturer? || key.Bootloader? || key.MachineName?)
    ensures RegistrationChoices(data).Found(key) == Or(Get(data, key.Name()), DeviceInfoField(data, key.Name()))
  {
  }

  /** The `android_info` entry a field falls back to. */
  function AndroidInfoEntry(key: RegistrationKey): string
  {
    match key
    case OsEdition => "version_incremental"
    case SdkVersion => "version_sdk_int"
    case _ => "security_patch"
  }

  /** Build details completed from `android_info`: the OS edition from
      `version_incremental`, the SDK version from `version_sdk_int`, the
      patch level from `security_patch`; the flat field wins when truthy. */
  lemma ChoicesFromAndroidInfo(data: map<string, Value>, key: RegistrationKey)
    requires (key.OsEdition? || key.SdkVersion? || key.SecurityPatchLevel?)
    ensures RegistrationChoices(data).Found(key)
            == Or(Get(data, key.Name()), MobilePayload.Nested(data, "android_info", AndroidInfoEntry(key)))
  {
  }

  /** The integrity hashes, completed from `system_integrity`. */
  lemma ChoicesFromIntegrityInfo(data: map<string, Value>, key: RegistrationKey)
    requires (key.InstalledAppsHash? || key.SystemPropertiesHash?)
    ensures RegistrationChoices(data).Found(key) == Or(Get(data, key.Name()), MobilePayload.Nested(data, "system_integrity", key.Name()))
  {
  }

  /** The coordinates, completed from `location_info`. */
  lemma ChoicesFromLocationInfo(data: map<string, Value>, key: RegistrationKey)
    requires (key.Latitude? || key.Longitude?)
    ensures RegistrationChoices(data).Found(key) == Or(Get(data, key.Name()), MobilePayload.Nested(data, "location_info", key.Name()))
  {
  }

  /** The five security flags, completed from `security_info`. */
  lemma ChoicesFromSecurityInfo(data: map<string, Value>, key: RegistrationKey)
    requires (key.IsDeviceRooted? || key.IsUsbDebuggingEnabled? || key.IsDeveloperModeEnabled? || key.IsBootloaderUnlocked? || key.IsCustomRom?)
    ensures RegistrationChoices(data).Found(key) == Or(Get(data, key.Name()), MobilePayload.Nested(data, "security_info", key.Name()))
  {
  }

  /** The identity aliases, first truthy wins: the loan number from the
      payload, `device_info`, then `registration_info`; the Android id from
      the payload, `device_info.android_id`, then `device_info.device_id`;
      the serial from `serial_number`, `serial`, then `device_info.serial`. */
  lemma ChoicesIdentityAliases(data: map<string, Value>)
    ensures RegistrationChoices(data).loanNumber
            == Or(Or(Get(data, "loan_number"), DeviceInfoField(data, "loan_number")),
                  MobilePayload.Nested(data, "registration_info", "loan_number"))
    ensures RegistrationChoices(data).androidId
            == Or(Or(Get(data, "android_id"), DeviceInfoField(data, "android_id")), DeviceInfoField(data, "device_id"))
    ensures RegistrationChoices(data).serialNumber
            == Or(Or(Get(data, "serial_number"), Get(data, "serial")), DeviceInfoField(data, "serial"))
  {
  }

  /** The hardware and build aliases, first truthy wins: platform and
      processor fall back to `device_info.hardware` then the flat
      `hardware`; the system type to `device_info.device` then `device`;
      the OS version to `android_version` then
      `android_info.version_release`; the fingerprint to
      `device_info.fingerprint` then `fingerprint`. */
  lemma ChoicesHardwareAliases(data: map<string, Value>)
    ensures RegistrationChoices(data).platform
            == Or(Or(Get(data, "platform"), DeviceInfoField(data, "hardware")), Get(data, "hardware"))
    ensures RegistrationChoices(data).processor
            == Or(Or(Get(data, "processor"), DeviceInfoField(data, "hardware")), Get(data, "hardware"))
    ensures RegistrationChoices(data).systemType
            == Or(Or(Get(data, "system_type"), DeviceInfoField(data, "device")), Get(data, "device"))
    ensures RegistrationChoices(data).osVersion
            == Or(Or(Get(data, "os_version"), Get(data, "android_version")),
                  MobilePayload.Nested(data, "android_info", "version_release"))
    ensures RegistrationChoices(data).deviceFingerprint
            == Or(Or(Get(data, "device_fingerprint"), DeviceInfoField(data, "fingerprint")), Get(data, "fingerprint"))
  {
  }

  /** RAM and storage as found: the flat field, else `storage_info`'s
      entry. */
  lemma ChoicesStorage(data: map<string, Value>)
    ensures RegistrationChoices(data).installedRam == StorageFound(data, InstalledRam)
    ensures RegistrationChoices(data).totalStorage == StorageFound(data, TotalStorage)
  {
  }

  /** RAM and storage are assigned by name exactly when the value found is
      truthy. */
  lemma StorageAssignedWhenTruthy(data: map<string, Value>)
    ensures MobilePayload.RamAssigned(data) == Truthy(StorageFound(data, InstalledRam))
    ensures MobilePayload.StorageAssigned(data) == Truthy(StorageFound(data, TotalStorage))
  {
  }

  /** The IMEIs as found: the first truthy of `device_imeis`, `imeis`,
      `device_info.imeis` and `imei_info.device_imeis`. They are always
      assigned, coerced to a non-empty list. */
  lemma ChoicesImeis(data: map<string, Value>)
    ensures RegistrationChoices(data).deviceImeis == ImeisFound(data)
    ensures Assigned(DeviceImeis, MobilePayload.RamAssigned(data), MobilePayload.StorageAssigned(data))
  {
  }

  /** The three keys the normaliser never assigns by name (device type and
      tamper details) are taken as the payload sends them, unless `None`
      or `""`. */
  lemma RegistrationCopiedAsSent(data: map<string, Value>, key: RegistrationKey)
    requires (key.DeviceType? || key.TamperSeverity? || key.TamperFlags?)
    ensures KeptAs(NormalizedRegistration(data), key, Get(data, key.Name()))
  {
    RegistrationKeyOutcome(data, key);
  }

  /** The registration normaliser prefers `serial_number` to `serial`,
      the heartbeat normaliser the other way round. */
  lemma SerialPriorityReversed(data: map<string, Value>)
    requires Truthy(Get(data, "serial_number")) && Truthy(Get(data, "serial"))
    ensures RegistrationChoices(data).serialNumber == Get(data, "serial_number")
    ensures MobilePayload.HeartbeatChoices(data).serialNumber == Get(data, "serial")
  {
    ChoicesIdentityAliases(data);
    MobilePayload.HeartbeatSerialAlias(data);
  }

  /** The names of the keys of a normalised payload. */
  function KeyNames(m: map<RegistrationKey, Value>): set<string>
  {
    set key | key in m :: key.Name()
  }

  /** The mobile registration view adds `device_type = "phone"` when the
      normalised payload has none. */
  function WithDefaultDeviceType(m: map<RegistrationKey, Value>): (r: map<RegistrationKey, Value>)
    ensures DeviceType in r
    ensures DeviceType in m ==> r == m
    ensures DeviceType !in m ==> r[DeviceType] == Str("phone")
    ensures forall key :: key in m ==> key in r && r[key] == m[key]
  {
    if DeviceType in m then m else m[DeviceType := Str("phone")]
  }

  /** Whatever the agent sends, the normalised payload (with the default
      device type) never trips the unexpected-field check of the mobile
      registration endpoint. */
  lemma RegistrationPassesFieldCheck(data: map<string, Value>, payload: map<string, Value>)
    requires payload.Keys == KeyNames(WithDefaultDeviceType(NormalizedRegistration(data)))
    ensures FieldValidation.RejectUnexpectedFields(payload, MobileBaseFields + MobileOnlyFields) == None
  {
    forall name | name in payload
      ensures name in MobileBaseFields + MobileOnlyFields
    {
      var key :| key in WithDefaultDeviceType(NormalizedRegistration(data)) && key.Name() == name;
      KeyNameAccepted(key);
    }
  }

  /** The wrappers consulted besides `device_info`/`device_data`. */
  const RegistrationWrappers: set<string> := {
    "registration_info", "android_info", "imei_info", "storage_info", "location_info", "security_info",
    "system_integrity"
  }

  /** Every wrapper being a dictionary is enough for the lookups to succeed. */
  lemma LookupsSucceedWithDictionaries(data: map<string, Value>)
    requires DeviceInfo(data).Dict?
    requires forall w :: w in RegistrationWrappers ==> MobilePayload.Wrapper(data, w).Dict?
    ensures RegistrationLookupsSucceed(data)
  {
    assert MobilePayload.Wrapper(data, "registration_info").Dict?;
    assert MobilePayload.Wrapper(data, "android_info").Dict?;
    assert MobilePayload.Wrapper(data, "storage_info").Dict?;
    assert MobilePayload.Wrapper(data, "system_integrity").Dict?;
    assert MobilePayload.Wrapper(data, "imei_info").Dict?;
    assert MobilePayload.Wrapper(data, "location_info").Dict?;
    assert MobilePayload.Wrapper(data, "security_info").Dict?;
  }

  /** A lookup fails only on a wrapper that is not a dictionary. */
  lemma LookupFailureCause(data: map<string, Value>)
    requires !RegistrationLookupsSucceed(data)
    ensures !DeviceInfo(data).Dict? || exists w :: w in RegistrationWrappers && !MobilePayload.Wrapper(data, w).Dict?
  {
    if DeviceInfo(data).Dict? && forall w :: w in RegistrationWrappers ==> MobilePayload.Wrapper(data, w).Dict? {
      LookupsSucceedWithDictionaries(data);
      assert false;
    }
  }

  /** The only error is `AttributeError`, raised only when a wrapper the
      normaliser consults is truthy but not a dictionary; otherwise the
      result is the normalised dictionary. */
  lemma RegistrationErrors(data: map<string, Value>)
    ensures (&& DeviceInfo(data).Dict?
             && forall w :: w in RegistrationWrappers ==> MobilePayload.Wrapper(data, w).Dict?) ==>
              NormalizeRegistrationSpec(data).Success?
    ensures NormalizeRegistrationSpec(data).Failure? ==>
              && NormalizeRegistrationSpec(data).error == AttributeError
              && (!DeviceInfo(data).Dict? || exists w :: w in RegistrationWrappers && !MobilePayload.Wrapper(data, w).Dict?)
  {
    if DeviceInfo(data).Dict? && forall w :: w in RegistrationWrappers ==> MobilePayload.Wrapper(data, w).Dict? {
      LookupsSucceedWithDictionaries(data);
    }
    if !RegistrationLookupsSucceed(data) {
      LookupFailureCause(data);
    }
  }
}
