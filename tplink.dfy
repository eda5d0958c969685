/** The session object of the Kasa cloud client (lib/tplink.js): login,
    the cached device catalog, alias lookup and the device-type resolver
    that turns a descriptor into a typed device handle. */
module Kasa {
  import opened Wrappers
  import opened Js
  import opened Cloud

  /** The device variants the resolver can pick. `Generic` is the base
      device exposing only the raw command relay. */
  datatype Kind = HS100 | HS110 | LB100 | LB130 | Generic

  /** The descriptor's (lower-cased) type names the given family. */
  ghost predicate TypeHas(deviceType: Option<string>, family: string) {
    deviceType.Some? && Contains(ToLower(deviceType.value), family)
  }

  /** The descriptor's model contains the given sub-model digits (case-sensitive). */
  ghost predicate ModelHas(deviceModel: Option<string>, digits: string) {
    deviceModel.Some? && Contains(deviceModel.value, digits)
  }

  /** The resolver of `newDevice`. A bulb type wins over a plug type; the
      sub-model is picked by a substring test on the model. Reading
      `toLowerCase` of a missing type, or `includes` of a missing model where
      one is tested, throws a TypeError. */
  function Resolve(deviceType: Option<string>, deviceModel: Option<string>): (r: Result<Kind, Error>)
    ensures r == Ok(LB130) <==> TypeHas(deviceType, "bulb") && ModelHas(deviceModel, "130")
    ensures r == Ok(LB100) <==> TypeHas(deviceType, "bulb") && deviceModel.Some? && !ModelHas(deviceModel, "130")
    ensures r == Ok(HS110) <==>
      !TypeHas(deviceType, "bulb") && TypeHas(deviceType, "plug") && ModelHas(deviceModel, "110")
    ensures r == Ok(HS100) <==>
      !TypeHas(deviceType, "bulb") && TypeHas(deviceType, "plug") && deviceModel.Some? && !ModelHas(deviceModel, "110")
    ensures r == Ok(Generic) <==>
      deviceType.Some? && !TypeHas(deviceType, "bulb") && !TypeHas(deviceType, "plug")
    ensures r.Err? ==> r.error.TypeError?
  {
    match deviceType
    case None => Err(TypeError("deviceType is undefined"))
    case Some(t) =>
      var lowered := ToLower(t);
      if Includes(lowered, "bulb") then
        match deviceModel
        case None => Err(TypeError("deviceModel is undefined"))
        case Some(m) => if Includes(m, "130") then Ok(LB130) else Ok(LB100)
      else if Includes(lowered, "plug") then
        match deviceModel
        case None => Err(TypeError("deviceModel is undefined"))
        case Some(m) => if Includes(m, "110") then Ok(HS110) else Ok(HS100)
      else
        Ok(Generic)
  }

  /** Entry `i` is the first entry whose alias equals `alias` exactly. */
  ghost predicate IsFirstMatch(entries: seq<DeviceInfo>, alias: string, i: int) {
    && 0 <= i < |entries|
    && entries[i].alias == Some(alias)
    && forall j :: 0 <= j < i ==> entries[j].alias != Some(alias)
  }

  /** The first-match search `find(list, {alias})` over a fetched catalog. */
  function FirstMatch(entries: seq<DeviceInfo>, alias: string): (r: Option<nat>)
    ensures r.Some? ==> IsFirstMatch(entries, alias, r.value)
    ensures r.None? ==> forall j :: 0 <= j < |entries| ==> entries[j].alias != Some(alias)
  {
    if entries == [] then
      None
    else if entries[0].alias == Some(alias) then
      Some(0)
    else
      match FirstMatch(entries[1..], alias)
      case None => None
      case Some(k) => Some(k + 1)
  }

  /** A device handle: the resolved variant, bound to the session that made
      it and to the descriptor it was made from. */
  datatype Device = Device(kind: Kind, session: TPLink, info: DeviceInfo)

  /** The session: a cloud token, a terminal id and the device catalog
      cached by the last `GetDeviceList` (None until the first fetch). */
  class TPLink {
    var token: Option<string>
    var termid: string
    var deviceList: Option<seq<DeviceInfo>>

    constructor (token: Option<string>, termid: string)
      ensures this.token == token && this.termid == termid && deviceList.None?
    {
      this.token := token;
      this.termid := termid;
      deviceList := None;
    }

    /** `TPLink.login`: validate the credentials (user first), send the login
        request built from them through `transport`, check the reply and
        build a session from `result.token` and the terminal id. `sent` is
        the request handed to the transport, if any. */
    static method Login(user: Arg, passwd: Arg, termid: string, transport: Request -> Reply)
      returns (sent: Option<Request>, r: Result<TPLink, Error>)
      ensures !Truthy(user) ==> sent.None? && r == Err(MissingUser)
      ensures Truthy(user) && !Truthy(passwd) ==> sent.None? && r == Err(MissingPassword)
      ensures Truthy(user) && Truthy(passwd) ==> sent == Some(LoginRequest(user, passwd, termid).value)
      ensures sent.Some? ==>
        match Validate(transport(sent.value))
        case Err(e) => r == Err(e)
        case Ok(result) =>
          && r.Ok? && fresh(r.value)
          && r.value.GetToken() == result.token
          && r.value.termid == termid
          && r.value.deviceList.None?
    {
      var request := LoginRequest(user, passwd, termid);
      if request.Err? {
        return None, Err(request.error);
      }
      sent := Some(request.value);
      var checked := Validate(transport(request.value));
      if checked.Err? {
        return sent, Err(checked.error);
      }
      var session := new TPLink(checked.value.token, termid);
      r := Ok(session);
    }

    /** `getToken`: the token the session was built with. */
    function GetToken(): (t: Option<string>)
      reads this
      ensures t == token
    {
      token
    }

    /** `getDeviceList`: send the token-only request through `transport`;
        on an accepted reply, replace the catalog wholesale with the reply's
        `result.deviceList` and return it. On any error the catalog is left
        as it was. The token and the terminal id never change. */
    method GetDeviceList(transport: Request -> Reply) returns (sent: Request, r: Result<Option<seq<DeviceInfo>>, Error>)
      modifies this
      ensures sent == DeviceListRequest(old(token))
      ensures token == old(token) && termid == old(termid)
      ensures
        match Validate(transport(sent))
        case Err(e) => r == Err(e) && deviceList == old(deviceList)
        case Ok(result) => r == Ok(result.deviceList) && deviceList == result.deviceList
    {
      sent := DeviceListRequest(token);
      var checked := Validate(transport(sent));
      if checked.Err? {
        return sent, Err(checked.error);
      }
      deviceList := checked.value.deviceList;
      r := Ok(deviceList);
    }

    /** `findDevice`: the first catalog entry whose alias equals `alias`
        exactly; not found when there is none or the catalog was never fetched. */
    function FindDevice(alias: string): (r: Result<DeviceInfo, Error>)
      reads this
      ensures r.Ok? <==>
        deviceList.Some? && exists i :: 0 <= i < |deviceList.value| && deviceList.value[i].alias == Some(alias)
      ensures r.Ok? ==> exists i :: IsFirstMatch(deviceList.value, alias, i) && r.value == deviceList.value[i]
      ensures r.Err? ==> r.error == AliasNotFound
    {
      match deviceList
      case None => Err(AliasNotFound)
      case Some(entries) =>
        match FirstMatch(entries, alias)
        case None => Err(AliasNotFound)
        case Some(i) => Ok(entries[i])
    }

    /** The argument checks of `newDevice`: a falsy argument is missing, one
        that is neither a string nor an object has the wrong type, a string
        is looked up as an alias and an object is the descriptor itself. */
    function Descriptor(nameOrInfo: Arg): (r: Result<DeviceInfo, Error>)
      reads this
      ensures !Truthy(nameOrInfo) ==> r == Err(MissingNameOrInfo)
      ensures Truthy(nameOrInfo) && !nameOrInfo.Str? && !nameOrInfo.Object? ==> r == Err(InvalidNameOrInfoType)
      ensures nameOrInfo.Str? && nameOrInfo.s != "" ==> r == FindDevice(nameOrInfo.s)
      ensures nameOrInfo.Object? ==> r == Ok(nameOrInfo.obj)
    {
      if !Truthy(nameOrInfo) then
        Err(MissingNameOrInfo)
      else if TypeOf(nameOrInfo) != "string" && TypeOf(nameOrInfo) != "object" then
        Err(InvalidNameOrInfoType)
      else if TypeOf(nameOrInfo) == "string" then
        FindDevice(nameOrInfo.s)
      else
        Ok(nameOrInfo.obj)
    }

    /** `newDevice`, with the generic branch building a `Generic` handle.
        The handle is bound to this session and to the descriptor, and its
        variant is the one the resolver picks for that descriptor. */
    function NewDevice(nameOrInfo: Arg): (r: Result<Device, Error>)
      reads this
      ensures Descriptor(nameOrInfo).Err? ==> r == Err(Descriptor(nameOrInfo).error)
      ensures Descriptor(nameOrInfo).Ok? ==>
        var info := Descriptor(nameOrInfo).value;
        && (r.Ok? <==> Resolve(info.deviceType, info.deviceModel).Ok?)
        && (r.Ok? ==> r.value.session == this && r.value.info == info
                      && Resolve(info.deviceType, info.deviceModel) == Ok(r.value.kind))
        && (r.Err? ==> r.error.TypeError?)
    {
      match Descriptor(nameOrInfo)
      case Err(e) => Err(e)
      case Ok(info) =>
        match Resolve(info.deviceType, info.deviceModel)
        case Err(e) => Err(e)
        case Ok(kind) => Ok(Device(kind, this, info))
    }

    /** `newDevice` as lib/tplink.js writes it: the generic branch constructs
        `Device`, a name the file never binds, so it throws a ReferenceError.
        Everywhere else it agrees with `NewDevice`. */
    function NewDeviceAsWritten(nameOrInfo: Arg): (r: Result<Device, Error>)
      reads this
      ensures r.Err? && r.error.ReferenceError? <==> NewDevice(nameOrInfo).Ok? && NewDevice(nameOrInfo).value.kind == Generic
      ensures !(NewDevice(nameOrInfo).Ok? && NewDevice(nameOrInfo).value.kind == Generic) ==> r == NewDevice(nameOrInfo)
    {
      match Descriptor(nameOrInfo)
      case Err(e) => Err(e)
      case Ok(info) =>
        match Resolve(info.deviceType, info.deviceModel)
        case Err(e) => Err(e)
        case Ok(Generic) => Err(ReferenceError("Device"))
        case Ok(kind) => Ok(Device(kind, this, info))
    }

    /** `r` is the handle of the given variant built from `findDevice(alias)`,
        or the error `findDevice` raised. */
    ghost predicate BuiltFromAlias(r: Result<Device, Error>, kind: Kind, alias: string)
      reads this
    {
      match FindDevice(alias)
      case Err(e) => r == Err(e)
      case Ok(info) => r == Ok(Device(kind, this, info))
    }

    /** `getHS100`: an HS100 handle for the alias, whatever its descriptor says. */
    function GetHS100(alias: string): (r: Result<Device, Error>)
      reads this
      ensures BuiltFromAlias(r, HS100, alias)
    {
      match FindDevice(alias)
      case Err(e) => Err(e)
      case Ok(info) => Ok(Device(HS100, this, info))
    }

    /** `getHS110`: an HS110 handle for the alias. */
    function GetHS110(alias: string): (r: Result<Device, Error>)
      reads this
      ensures BuiltFromAlias(r, HS110, alias)
    {
      match FindDevice(alias)
      case Err(e) => Err(e)
      case Ok(info) => Ok(Device(HS110, this, info))
    }

    /** `getLB100`: an LB100 handle for the alias. */
    function GetLB100(alias: string): (r: Result<Device, Error>)
      reads this
      ensures BuiltFromAlias(r, LB100, alias)
    {
      match FindDevice(alias)
      case Err(e) => Err(e)
      case Ok(info) => Ok(Device(LB100, this, info))
    }

    /** `getLB110`: the LB100 getter under another name. */
    function GetLB110(alias: string): (r: Result<Device, Error>)
      reads this
      ensures BuiltFromAlias(r, LB100, alias)
    {
      GetLB100(alias)
    }

    /** `getLB120`: the LB100 getter under another name. */
    function GetLB120(alias: string): (r: Result<Device, Error>)
      reads this
      ensures BuiltFromAlias(r, LB100, alias)
    {
      GetLB100(alias)
    }

    /** `getLB130`: an LB130 handle for the alias. */
    function GetLB130(alias: string): (r: Result<Device, Error>)
      reads this
      ensures BuiltFromAlias(r, LB130, alias)
    {
      match FindDevice(alias)
      case Err(e) => Err(e)
      case Ok(info) => Ok(Device(LB130, this, info))
    }
  }
}
