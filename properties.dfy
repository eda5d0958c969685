/** Properties of the session model that relate several operations. */
module KasaProperties {
  import opened Wrappers
  import opened Js
  import opened Cloud
  import opened Kasa

  /** The resolver reads the type case-insensitively: lowering it first changes nothing. */
  lemma ResolveIgnoresTypeCase(deviceType: string, deviceModel: Option<string>)
    ensures Resolve(Some(ToLower(deviceType)), deviceModel) == Resolve(Some(deviceType), deviceModel)
  {
    ToLowerIdempotent(deviceType);
  }

  /** A type naming the bulb family resolves to a bulb even if it also names the plug family. */
  lemma BulbWinsOverPlug(deviceType: Option<string>, deviceModel: Option<string>)
    requires TypeHas(deviceType, "bulb") && deviceModel.Some?
    ensures Resolve(deviceType, deviceModel) == Ok(LB100) || Resolve(deviceType, deviceModel) == Ok(LB130)
  {
  }

  /** Resolutions of common Kasa plug models. */
  lemma PlugExamples()
    ensures Resolve(Some("IOT.SMARTPLUGSWITCH"), Some("HS110(US)")) == Ok(HS110)
    ensures Resolve(Some("IOT.SMARTPLUGSWITCH"), Some("HS100(US)")) == Ok(HS100)
  {
    var lowered := ToLower("IOT.SMARTPLUGSWITCH");
    assert lowered == "iot.smartplugswitch";
    MissingCharExcludes(lowered, "bulb", 0);
    assert OccursAt(lowered, "plug", 9);
    assert OccursAt("HS110(US)", "110", 2);
    if Contains("HS100(US)", "110") {
      var i :| OccursAt("HS100(US)", "110", i);
      OccursAtChar("HS100(US)", "110", i, 0);
      OccursAtChar("HS100(US)", "110", i, 1);
      assert false;
    }
  }

  /** Resolutions of common Kasa bulb models; the model test is loose,
      so "LB1300" still picks the LB130 variant. */
  lemma BulbExamples()
    ensures Resolve(Some("IOT.SMARTBULB"), Some("LB130(US)")) == Ok(LB130)
    ensures Resolve(Some("IOT.SMARTBULB"), Some("LB1300")) == Ok(LB130)
    ensures Resolve(Some("IOT.SMARTBULB"), Some("LB120(US)")) == Ok(LB100)
  {
    var lowered := ToLower("IOT.SMARTBULB");
    assert lowered == "iot.smartbulb";
    assert OccursAt(lowered, "bulb", 9);
    assert OccursAt("LB130(US)", "130", 2);
    assert OccursAt("LB1300", "130", 2);
    MissingCharExcludes("LB120(US)", "130", 1);
  }

  /** An unrecognised type resolves to the generic variant, even without a model. */
  lemma GenericExample()
    ensures Resolve(Some("IOT.UNKNOWN"), None) == Ok(Generic)
  {
    var lowered := ToLower("IOT.UNKNOWN");
    assert lowered == "iot.unknown";
    MissingCharExcludes(lowered, "bulb", 0);
    MissingCharExcludes(lowered, "plug", 0);
  }

  /** The variant of a handle depends on the descriptor's type and model
      only: its alias and id play no part. */
  lemma ResolutionReadsOnlyTypeAndModel(s: TPLink, a: DeviceInfo, b: DeviceInfo)
    requires a.deviceType == b.deviceType && a.deviceModel == b.deviceModel
    ensures s.NewDevice(Object(a)).Ok? <==> s.NewDevice(Object(b)).Ok?
    ensures s.NewDevice(Object(a)).Ok? ==> s.NewDevice(Object(a)).value.kind == s.NewDevice(Object(b)).value.kind
  {
  }

  /** A descriptor with an unrecognised type and no model at all. */
  function UnknownDevice(): DeviceInfo {
    DeviceInfo(Some("hub"), Some("IOT.UNKNOWN"), None, Some("8006"))
  }

  /** With the generic branch corrected, an unrecognised type gives a generic handle. */
  lemma UnknownTypeIsGeneric(s: TPLink)
    ensures s.NewDevice(Object(UnknownDevice())) == Ok(Device(Generic, s, UnknownDevice()))
  {
    GenericExample();
  }

  /** As written, the same descriptor makes `newDevice` throw, because the
      generic branch names an unbound `Device`. */
  lemma UnknownTypeRaisesReferenceError(s: TPLink)
    ensures s.NewDeviceAsWritten(Object(UnknownDevice())) == Err(ReferenceError("Device"))
  {
    GenericExample();
  }

  /** The entry `findDevice` returns is the first one carrying the alias,
      also when several entries carry it. */
  lemma FindDeviceReturnsFirstMatch(s: TPLink, alias: string, i: int)
    requires s.deviceList.Some? && IsFirstMatch(s.deviceList.value, alias, i)
    ensures s.FindDevice(alias) == Ok(s.deviceList.value[i])
  {
  }

  /** For a non-empty alias, `newDevice(alias)` builds the same handle as the
      named getter of the variant the resolver picks, and fails the same way
      when the alias is unknown. */
  lemma NamedGetterAgreesWithResolver(s: TPLink, alias: string)
    requires alias != ""
    ensures s.FindDevice(alias).Err? ==>
      && s.NewDevice(Str(alias)) == s.GetHS100(alias) == s.GetHS110(alias)
      && s.NewDevice(Str(alias)) == s.GetLB100(alias) == s.GetLB130(alias)
      && s.NewDevice(Str(alias)) == s.GetLB110(alias) == s.GetLB120(alias)
    ensures s.FindDevice(alias).Ok? ==>
      var info := s.FindDevice(alias).value;
      match Resolve(info.deviceType, info.deviceModel)
      case Ok(HS100) => s.NewDevice(Str(alias)) == s.GetHS100(alias)
      case Ok(HS110) => s.NewDevice(Str(alias)) == s.GetHS110(alias)
      case Ok(LB100) => s.NewDevice(Str(alias)) == s.GetLB100(alias)
      case Ok(LB130) => s.NewDevice(Str(alias)) == s.GetLB130(alias)
      case _ => true
  {
  }

  /** The empty alias is where `newDevice` and the getters part ways:
      `newDevice("")` is rejected as missing before any lookup, while
      `getHS100("")` looks the empty alias up in the catalog. */
  lemma EmptyAliasDiverges(s: TPLink, entry: DeviceInfo)
    requires s.deviceList == Some([entry]) && entry.alias == Some("")
    ensures s.NewDevice(Str("")) == Err(MissingNameOrInfo)
    ensures s.GetHS100("") == Ok(Device(HS100, s, entry))
  {
  }

  /** `getLB110` and `getLB120` build exactly what `getLB100` builds. */
  lemma LegacyBulbGettersAgree(s: TPLink, alias: string)
    ensures s.GetLB110(alias) == s.GetLB100(alias) && s.GetLB120(alias) == s.GetLB100(alias)
  {
  }
}
