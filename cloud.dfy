/** The wire side of the Kasa cloud client: device descriptors as the cloud
    returns them, the requests lib/tplink.js builds, the outcomes of an
    exchange with the cloud, and the errors the client raises. */
module Cloud {
  import opened Wrappers
  import opened Js

  /** Every request goes to this endpoint with this verb. */
  const CloudUrl := "https://wap.tplinkcloud.com"
  const Post := "POST"

  /** The fixed application identification sent on login. */
  const AppName := "Kasa_Android"
  const AppVer := "1.4.4.607"
  const Ospf := "Android+6.0.1"
  const NetType := "wifi"
  const Locale := "es_ES"

  /** One entry of the cloud's device list. It is a JSON object, so any of
      the properties the client reads may be missing. */
  datatype DeviceInfo = DeviceInfo(
    alias: Option<string>,
    deviceType: Option<string>,
    deviceModel: Option<string>,
    deviceId: Option<string>)

  /** A value a caller passes to the client; an object is read as a descriptor. */
  type Arg = Value<DeviceInfo>

  /** The query string of a request. */
  datatype Query =
    | AppQuery(appName: string, termID: string, appVer: string, ospf: string, netType: string, locale: string)
    | TokenQuery(token: Option<string>)

  /** The `params` member of a request body. */
  datatype Params =
    | LoginParams(appType: string, cloudPassword: Arg, cloudUserName: Arg, terminalUUID: string)
    | NoParams

  /** A JSON request body `{method, url?, params?}`; `methodName` is its `method` member. */
  datatype Body = Body(methodName: string, url: Option<string>, params: Params)

  /** One HTTP exchange as the client describes it to the transport. */
  datatype Request = Request(verb: string, url: string, query: Query, data: Body)

  /** The `result` member of an accepted reply, as far as the core reads it. */
  datatype CloudResult = CloudResult(token: Option<string>, deviceList: Option<seq<DeviceInfo>>)

  /** What one exchange yields: the transport failed, the reply carried an
      error that the response check rejects, or the reply was accepted
      (its `result` member possibly missing). */
  datatype Reply =
    | TransportFailed(reason: string)
    | Rejected(code: int, msg: string)
    | Accepted(result: Option<CloudResult>)

  /** The errors the client raises. */
  datatype Error =
    | MissingUser
    | MissingPassword
    | MissingNameOrInfo
    | InvalidNameOrInfoType
    | AliasNotFound
    | CloudApi(code: int, msg: string)
    | Transport(reason: string)
    | TypeError(what: string)
    | ReferenceError(name: string)

  /** The login request: the user is checked first, then the password, and
      only then is a request built, carrying the terminal id both in the
      query (`termID`) and in the body (`params.terminalUUID`). */
  function LoginRequest(user: Arg, passwd: Arg, termid: string): (r: Result<Request, Error>)
    ensures !Truthy(user) ==> r == Err(MissingUser)
    ensures Truthy(user) && !Truthy(passwd) ==> r == Err(MissingPassword)
    ensures r.Ok? <==> Truthy(user) && Truthy(passwd)
    ensures r.Ok? ==>
      && r.value.verb == Post && r.value.url == CloudUrl
      && r.value.query.AppQuery? && r.value.query.termID == termid
      && r.value.data.methodName == "login"
      && r.value.data.params.LoginParams?
      && r.value.data.params.cloudUserName == user
      && r.value.data.params.cloudPassword == passwd
      && r.value.data.params.terminalUUID == termid
  {
    if !Truthy(user) then
      Err(MissingUser)
    else if !Truthy(passwd) then
      Err(MissingPassword)
    else
      var query := AppQuery(AppName, termid, AppVer, Ospf, NetType, Locale);
      var body := Body("login", Some(CloudUrl), LoginParams(AppName, passwd, user, termid));
      Ok(Request(Post, CloudUrl, query, body))
  }

  /** The device-list request: only the token as query, only the method name as body. */
  function DeviceListRequest(token: Option<string>): (r: Request)
    ensures r.verb == Post && r.url == CloudUrl
    ensures r.query == TokenQuery(token)
    ensures r.data.methodName == "getDeviceList" && r.data.url.None? && r.data.params.NoParams?
  {
    Request(Post, CloudUrl, TokenQuery(token), Body("getDeviceList", None, NoParams))
  }

  /** The response check followed by the read of `response.data.result`:
      a transport failure propagates unchanged, a rejected reply becomes a
      cloud error with its code and message, a missing `result` is a
      TypeError, and otherwise the result is passed through unchanged. */
  function Validate(reply: Reply): (r: Result<CloudResult, Error>)
    ensures r.Ok? <==> reply.Accepted? && reply.result.Some?
    ensures r.Ok? ==> r.value == reply.result.value
    ensures reply.TransportFailed? ==> r == Err(Transport(reply.reason))
    ensures reply.Rejected? ==> r == Err(CloudApi(reply.code, reply.msg))
    ensures reply.Accepted? && reply.result.None? ==> r.Err? && r.error.TypeError?
  {
    match reply
    case TransportFailed(reason) => Err(Transport(reason))
    case Rejected(code, msg) => Err(CloudApi(code, msg))
    case Accepted(None) => Err(TypeError("response.data.result is undefined"))
    case Accepted(Some(result)) => Ok(result)
  }
}
