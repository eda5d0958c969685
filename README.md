# TP-Link Kasa cloud client: session and device resolution

This project models the session object `TPLink` of the tplink-cloud-api
client (lib/tplink.js) and proves properties of it in Dafny. The session
logs a user in to the Kasa cloud and keeps the token and terminal id it was
given. It caches the device catalog the cloud returns. From that catalog it
builds typed device handles, either through the resolver `newDevice` or
through the named getters `getHS100` … `getLB130`.

Files:

- `wrappers.dfy` (module `Wrappers`): `Option` stands for `undefined`, `Result` for a return or a throw.
- `js.dfy` (module `Js`): the JavaScript semantics the file relies on. This covers values passed by a caller, their truthiness and `typeof`. It also covers `toLowerCase` and `includes`, the latter proved equal to an existential substring definition `Contains`.
- `cloud.dfy` (module `Cloud`): the wire side. It holds device descriptors, the two request shapes (login and device list), the outcome of one exchange with the cloud, the response check, and the client's errors.
- `tplink.dfy` (module `Kasa`): the resolver `Resolve`, the first-match search `FirstMatch`, the class `TPLink` and the handle datatype `Device`.
- `properties.dfy` (module `KasaProperties`): lemmas that relate several operations, and concrete resolutions of common plug and bulb models.

Modelling choices:

- The transport is a parameter `transport: Request -> Reply`. A `Reply` is one of three outcomes:
  1. the transport failed (its error is passed on unchanged);
  2. the reply was rejected by the response check (`checkError`), which becomes `CloudApi(code, msg)`;
  3. the reply was accepted, with its `result` member possibly missing.
- Reading `.token` or `.deviceList` of a missing `result` is a `TypeError`.
- `Login` also returns the request it handed to the transport (`sent`). When the credentials fail validation, `sent` is `None`, so no request was built or sent.
- The catalog is the mutable field `deviceList`. It is `None` until the first successful fetch, and also after a reply whose `result.deviceList` is missing. `GetDeviceList` assigns it wholesale.
- `findDevice`, `newDevice` and the getters are functions that only read the session. Because they are functions, they cannot change `token`, `termid` or `deviceList`.
- A device descriptor is a JSON object, so each of its properties is an `Option`:
  - a missing `deviceType` makes `toLowerCase` throw a `TypeError`;
  - a missing `deviceModel` throws only in the bulb and plug branches, where `includes` is called on it;
  - a generic device needs no model.
- The resolver returns the closed enumeration `Kind = HS100 | HS110 | LB100 | LB130 | Generic`. A handle records its kind, the session, and the descriptor it was built from.
- The generic branch of `newDevice` (lib/tplink.js:143) constructs `Device`, a name that lib/tplink.js never imports (lines 25-32). As written, that branch throws a `ReferenceError`. An unrecognised type is evidently meant to give a generic handle; `NewDevice` models that, and `NewDeviceAsWritten` keeps the code as written (see Findings).

The model follows the code in these points:
- The errors are distinct values (`MissingUser`, `MissingPassword`, `MissingNameOrInfo`, `InvalidNameOrInfoType`, `AliasNotFound`). The code throws plain `Error`s with distinct messages, and a failed login is just whatever the response check raises.
- Missing descriptor properties throw `TypeError`s.

## Model

| member | source | states |
|---|---|---|
| `Js.ToLower` | lib/tplink.js:130 | the lowered type has the same length, and each character is the ASCII lower-case of the original |
| `Js.ToLowerIdempotent` | lib/tplink.js:130 | lowering an already lowered string changes nothing |
| `Js.Includes` | lib/tplink.js:132-138 | `includes` is true exactly when the substring occurs at some index (`Contains`); the test is case-sensitive and the empty string is always included |
| `Js.MissingCharExcludes` | lib/tplink.js:132-138 | a string lacking one character of the substring does not contain it |
| `Cloud.LoginRequest` | lib/tplink.js:41-76 | the user is checked before the password, and each must be truthy. If both are falsy, the user error wins. Otherwise the request is a POST to the cloud URL carrying the same terminal id as query `termID` and as body `params.terminalUUID`, with the user and password and method `login` |
| `Cloud.DeviceListRequest` | lib/tplink.js:99-104 | the device-list request is a POST to the cloud URL carrying only the token as query, and only the method name `getDeviceList` as body |
| `Cloud.Validate` | lib/tplink.js:78-80 | a transport failure propagates unchanged and a rejected reply raises the cloud error with its code and message. A missing `result` is a TypeError. Otherwise `result` is returned unmodified |
| `Kasa.Resolve` | lib/tplink.js:129-144 | for each variant, the exact condition that selects it. A lower-cased type containing "bulb" gives LB130 when the model contains "130" and LB100 otherwise; this holds whether or not the type also contains "plug". Failing that, a type containing "plug" gives HS110 for a model containing "110" and HS100 otherwise. Any other type gives Generic. A missing type, or a missing model in the bulb or plug branches, is a TypeError |
| `Kasa.FirstMatch` | lib/tplink.js:148 | the index found is the first entry whose alias equals the argument exactly; no index means no entry carries it |
| `Kasa.TPLink.constructor` | lib/tplink.js:35-38 | the session holds the given token and terminal id, and no catalog |
| `Kasa.TPLink.Login` | lib/tplink.js:40-82 | a falsy user or password fails with the user error checked first, and no request is sent. Otherwise exactly the `LoginRequest` is sent. A failed exchange propagates its error; a successful one yields a fresh session whose token is `result.token`, whose terminal id is the one supplied, and which has no catalog |
| `Kasa.TPLink.GetToken` | lib/tplink.js:84-86 | the accessor returns the session's token and reads nothing else |
| `Kasa.TPLink.GetDeviceList` | lib/tplink.js:88-109 | sends the token-only request. On success, the catalog becomes exactly the reply's `result.deviceList`, in order and with nothing merged, and that list is returned. On failure, the error is returned and the catalog is unchanged. Token and terminal id never change |
| `Kasa.TPLink.FindDevice` | lib/tplink.js:147-153 | succeeds exactly when a fetched catalog has an entry with that exact alias, and returns the first such entry. Otherwise it fails with not-found, also when the catalog was never fetched |
| `Kasa.TPLink.Descriptor` | lib/tplink.js:112-127 | a falsy argument (including "") is missing. A truthy value that is neither a string nor an object has an invalid type. A string is looked up by `FindDevice`, and an object is used as the descriptor unchanged |
| `Kasa.TPLink.NewDevice` | lib/tplink.js:112-144 | argument errors propagate. Otherwise the handle exists exactly when the resolver succeeds on the descriptor's type and model. It is bound to this session and that descriptor, and its variant is the resolver's (generic branch corrected, see Findings) |
| `Kasa.TPLink.NewDeviceAsWritten` | lib/tplink.js:142-144 | as written, `newDevice` raises a ReferenceError exactly where the corrected version gives a Generic handle, and agrees with it everywhere else |
| `Kasa.TPLink.GetHS100` | lib/tplink.js:156-158 | an HS100 handle built from this session and `findDevice(alias)`, whatever the descriptor's type or model; fails exactly as `findDevice` fails |
| `Kasa.TPLink.GetHS110` | lib/tplink.js:161-163 | the same, with variant HS110 |
| `Kasa.TPLink.GetLB100` | lib/tplink.js:166-168 | the same, with variant LB100 |
| `Kasa.TPLink.GetLB110` | lib/tplink.js:169-171 | the same, with variant LB100 |
| `Kasa.TPLink.GetLB120` | lib/tplink.js:172-174 | the same, with variant LB100 |
| `Kasa.TPLink.GetLB130` | lib/tplink.js:177-179 | the same, with variant LB130 |
| `KasaProperties.ResolveIgnoresTypeCase` | lib/tplink.js:130 | resolving a lower-cased type gives the same result as resolving the original: the type is read case-insensitively |
| `KasaProperties.BulbWinsOverPlug` | lib/tplink.js:132-137 | a type naming the bulb family, given a model, always resolves to a bulb variant, even if it also names the plug family |
| `KasaProperties.PlugExamples` | lib/tplink.js:137-141 | IOT.SMARTPLUGSWITCH with HS110(US) resolves to HS110; with HS100(US) it resolves to HS100 |
| `KasaProperties.BulbExamples` | lib/tplink.js:132-136 | IOT.SMARTBULB with LB130(US) gives LB130, with LB1300 also LB130 (the loose substring test), and with LB120(US) gives LB100 |
| `KasaProperties.GenericExample` | lib/tplink.js:142-144 | IOT.UNKNOWN resolves to Generic, even with no model |
| `KasaProperties.ResolutionReadsOnlyTypeAndModel` | lib/tplink.js:130-131 | two descriptors that agree on type and model get handles of the same variant (or fail alike) |
| `KasaProperties.UnknownTypeIsGeneric` | lib/tplink.js:142-144 | with the generic branch corrected, `newDevice` on an IOT.UNKNOWN descriptor yields a Generic handle bound to the session and descriptor |
| `KasaProperties.UnknownTypeRaisesReferenceError` | lib/tplink.js:143 | as written, `newDevice` on that descriptor raises a ReferenceError for `Device` |
| `KasaProperties.FindDeviceReturnsFirstMatch` | lib/tplink.js:147-152 | with duplicate aliases, `findDevice` returns the first entry carrying the alias |
| `KasaProperties.NamedGetterAgreesWithResolver` | lib/tplink.js:124-179 | for a non-empty alias, `newDevice(alias)` gives the same handle as the named getter of the variant the resolver picks. On an unknown alias, it fails the same way as all six getters |
| `KasaProperties.EmptyAliasDiverges` | lib/tplink.js:112-158 | the empty alias is where `newDevice` and the getters part ways: `newDevice("")` fails as missing before any lookup, while `getHS100("")` looks `""` up in the catalog and returns the handle of an entry whose alias is empty |
| `KasaProperties.LegacyBulbGettersAgree` | lib/tplink.js:165-174 | `getLB110` and `getLB120` give exactly what `getLB100` gives |

## Left out

- The HTTP exchange (`axios`), `async`/`await` and the User-Agent header are network I/O. Each exchange is the `transport` parameter, whose result is an abstract `Reply`.
- `checkError` (`./api-utils`) is not part of this model. Its outcome is the `Rejected` case of `Reply`.
- The default terminal id `uuidV4()` is random. `termid` is an ordinary parameter, and a caller that wants the default passes a freshly generated id.
- The device classes `./hs100`, `./hs110`, `./lb100`, `./lb130` and `Device` are not part of this model. A handle is a variant tag plus the session and descriptor it was given.
- The app-identification strings are kept as fixed constants. Nothing is proved about their values.
- The unused local `params` object in `getDeviceList` (lib/tplink.js:89-97) has no effect and is not modelled.
- `Kasa.TPLink.GetDeviceList`, `Kasa.TPLink.FindDevice` and `Kasa.TPLink.Descriptor` treat the catalog and the descriptors as values, so they do not capture aliasing. In the source, `getDeviceList` returns the very array it stores (lib/tplink.js:108), and `findDevice` and `newDevice` hand out the catalog's or the caller's own descriptor objects (lines 124, 152). A caller that mutates the returned list or a descriptor therefore changes what later lookups see; in the model that cannot happen.
- The race between overlapping `getDeviceList` calls (the last reply wins) needs concurrency, which is not modelled. Each call is atomic in the model.
- `Js.ToLower`: lower-cases ASCII A to Z only, because full Unicode case mapping is out of scope. The outcome of the "bulb"/"plug" tests is unaffected: the only non-ASCII characters whose lower case contains an ASCII letter are the Kelvin sign (to "k") and the dotted capital I (to "i" plus a combining dot), and neither letter occurs in "bulb" or "plug".
- JavaScript numbers are integers here, so NaN is not modelled (NaN is falsy). BigInt values are not modelled either.
- Only strings or absent values are modelled for descriptor properties, because the cloud sends strings. A non-string `deviceType` (which would make `toLowerCase` throw) is not modelled, and neither is a non-string `deviceModel` such as an array, which has its own `includes`.
- `Kasa.FirstMatch`: models lodash `find` with an `{alias}` matcher only for a string alias and an array catalog. Lodash's other matcher forms and object-valued catalogs are not modelled.

## Findings

| source | as written | input that shows it | evidently intended | confidence | as-written member | corrected member |
|---|---|---|---|---|---|---|
| lib/tplink.js:143 | the generic branch calls `new Device(this, deviceInfo)`, but `Device` is never imported (lines 25-32), so the branch throws a ReferenceError | `newDevice({deviceType: "IOT.UNKNOWN"})` | an unrecognised type yields a generic device handle | high (not executed) | `KasaProperties.UnknownTypeRaisesReferenceError` | `KasaProperties.UnknownTypeIsGeneric` |
