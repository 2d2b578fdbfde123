# deconz-rs: a verified model of the connection and light-state core

deconz-rs is a typed client for the REST API of a deCONZ home-automation gateway. This project models the part of it that makes decisions. The rest of the crate is record declarations and HTTP plumbing.

- **Light state mutators.** `change_brightness`, `change_hue`, `change_color_temperature` and `on` update the `state` of a `Light` in place and return the same light, so calls can be chained. There are two copies. `src/light.rs` is the older one and always clamps the colour temperature (`LegacyLight`). `src/endpoints/light.rs` is the copy the connection uses, and it guards the colour-temperature change with a test on the optional bounds (`EndpointLight`). Both files declare the same `LightState` record, so both modules share it (`LightStates`). The value-level effect of each mutator is a function there, and the class methods are proved against those functions.
- **Token requests.** `TokenRequest::new` checks the optional username (10 to 40 bytes) and the device type (at most 40 bytes). Lengths are UTF-8 byte lengths, as `String::len` counts them (`Configuration`).
- **Error codes and envelopes.** The gateway's numeric error table, and the success/error envelope it returns, one element per attribute (`ErrorCodes`).
- **Connection.** Building the API root and the resource paths with `Url::join` (`Urls`, `Connection`). Picking the first envelope of the token reply (`new_without_key`). Classifying what `get_request` and `put_request` make of a response: transport failure, HTTP 403, a body that decodes, a body that does not. The HTTP transport is a parameter: a function from the outgoing request to what came back.

Rust panics are values (`Wrappers.Panic`) inside an `Outcome` or `Result`, not preconditions. This covers `unwrap`/`expect` on a failed join, `remove(0)` on an empty reply, the `panic!` after a failed decode, and `unwrap` of an absent `ct_min`. Fixed-width integers are ranges of `int` (`Ints`).

Points where the code's behaviour is easy to misread, and which the model keeps as written:
- `get_request` and `put_request` panic on a body that does not decode (src/connection.rs:146, src/connection.rs:161). They do not return an error.
- `DeconzErrorType` has no fallback variant (src/connection.rs:13-40). An unknown code therefore makes the whole reply undecodable.
- `remove(0)` panics on an empty token reply (src/connection.rs:105).
- src/endpoints/light.rs:109 never clamps the colour temperature (see Findings).

## Model

| member | source | states |
|---|---|---|
| Ints.Clamp | src/light.rs:110 | `x.max(lo).min(hi)` is at most `hi`, at least `lo` when `lo <= hi`, equals `x` inside the window, and equals `hi` when the window is inverted |
| LightStates.WithBrightnessDelta | src/endpoints/light.rs:96-99 | brightness becomes `Some` of the old value (0 if absent) plus delta: the sum itself inside 0..=255, 0 below, 255 above; every other field is unchanged |
| LightStates.WithHueDelta | src/endpoints/light.rs:102-105 | hue becomes `Some` of the old value (0 if absent) plus delta, clamped to 0..=u32::MAX; every other field is unchanged |
| LightStates.WithColorTemperatureDelta | src/light.rs:108-111 | ct becomes `Some` of the old value (0 if absent) plus delta: at most ct_max; at least ct_min when ct_min <= ct_max; exactly ct_max when ct_min > ct_max; every other field is unchanged |
| LightStates.WithPower | src/endpoints/light.rs:114-117 | `on` becomes `Some(b)` and nothing else changes |
| LightStates.PowerIdempotent | src/endpoints/light.rs:114-117 | `on(b)` twice equals `on(b)` once |
| LightStates.PowerLastWins | src/light.rs:113-116 | of two `on` calls only the last is visible |
| LightStates.MutatorsCommute | src/endpoints/light.rs:96-117 | mutators of different fields commute, because each touches only its own field |
| LightStates.DimFromUnknown | src/light.rs:137 | from an absent brightness, `change_brightness(-254)` gives `Some(0)` |
| LightStates.DimBy254 | src/light.rs:137 | `change_brightness(-254)` gives 0, or 1 when starting from 255 |
| LightStates.StepsSaturate | src/light.rs:148-155 | n unit brightness steps give `min(b + n, 255)` and never exceed 255; no other field changes |
| LightStates.WarmingSaturates | src/light.rs:143-155 | starting at ct_min, n unit ct steps give `min(ct_min + n, ct_max)`, also for an inverted window |
| LegacyLight.Light.ChangeBrightness | src/light.rs:96-100 | given no i16 overflow, the new state is WithBrightnessDelta of the old; only `state` may change; returns the same light |
| LegacyLight.Light.ChangeHue | src/light.rs:102-106 | given no i64 overflow, the new state is WithHueDelta of the old; only `state` may change; returns the same light |
| LegacyLight.Light.ChangeColorTemperature | src/light.rs:108-112 | given no i128 overflow, the new state is WithColorTemperatureDelta with the light's own bounds; only `state` may change; returns the same light |
| LegacyLight.Light.On | src/light.rs:113-116 | the new state is WithPower of the old; only `state` may change; returns the same light |
| LegacyLight.DimThenRamp | src/light.rs:137-155 | the test's sequence (dim by 254, on, ct := ct_min, 254 chained unit steps) leaves on = true, brightness 254 (255 if it began at 255) and ct = min(ct_min + 254, ct_max); every other state field is as it was |
| EndpointLight.ColorTemperatureAsWritten | src/endpoints/light.rs:108-113 | fails (panics) exactly when ct_max is present and ct_min absent, with an overflow or an unwrap panic; every normal return leaves the state unchanged |
| EndpointLight.AsWrittenNeverChanges | src/endpoints/light.rs:109-112 | for every bounds and delta, the result is the unchanged state or a panic |
| EndpointLight.InvertedGuardSkipsClamp | src/endpoints/light.rs:109 | with window [153, 500] and ct 600 the code as written keeps 600, where the intended clamp gives 500 |
| EndpointLight.ColorTemperatureIntended | src/endpoints/light.rs:108-113 | intended behaviour: no-op when either bound is absent; with both present it is the clamp: the sum inside [ct_min, ct_max], ct_min below it, ct_max above it or when the window is inverted; no other field changes |
| EndpointLight.Light.ChangeBrightness | src/endpoints/light.rs:96-100 | given no i16 overflow, the new state is WithBrightnessDelta of the old; only `state` may change; returns the same light |
| EndpointLight.Light.ChangeHue | src/endpoints/light.rs:102-106 | given no i64 overflow, the new state is WithHueDelta of the old; only `state` may change; returns the same light |
| EndpointLight.Light.ChangeColorTemperature | src/endpoints/light.rs:108-113 | writes nothing (no modifies clause); returns the light itself, except that it panics exactly when ct_max is present and ct_min absent; matches ColorTemperatureAsWritten |
| EndpointLight.Light.ChangeColorTemperatureIntended | src/endpoints/light.rs:108-113 | corrected method: the new state is ColorTemperatureIntended of the old |
| EndpointLight.Light.On | src/endpoints/light.rs:114-117 | the new state is WithPower of the old; only `state` may change; returns the same light |
| Configuration.Utf8Width | src/endpoints/configuration.rs:27 | a character takes 1 to 4 bytes, and exactly 1 byte iff it is ASCII |
| Configuration.Utf8Len | src/endpoints/configuration.rs:27 | the byte length lies between the character count and four times it |
| Configuration.AsciiLen | src/endpoints/configuration.rs:36 | byte length equals character count iff the text is ASCII |
| Configuration.NewTokenRequest | src/endpoints/configuration.rs:24-47 | succeeds iff (no username, or a username of 10..=40 bytes) and a device type of at most 40 bytes; on success stores both inputs unchanged; a bad username is reported first, with its length; with a good or absent username, a device type over 40 bytes gives `InvalidDevicetypeLength` with its length |
| Configuration.CheckDevicetype | src/endpoints/configuration.rs:36-46 | the device type passes iff it is at most 40 bytes, and then stores both inputs; otherwise the error carries its byte length, which exceeds 40 |
| Configuration.AsciiBoundaries | src/endpoints/configuration.rs:27-36 | usernames of 9 and 41 characters are refused; 10 and 40 are accepted when the device type fits; device types of 40 are accepted and 41 refused |
| Configuration.BytesNotCharacters | src/endpoints/configuration.rs:27 | five two-byte characters count as 10 and pass the username check |
| Configuration.EmptyDevicetypeAccepted | src/endpoints/configuration.rs:36-45 | an empty device type with no username gives exactly that request |
| Configuration.ShortUsernameRefused | src/endpoints/configuration.rs:25-33 | a 5-character username is refused with length 5, whatever the device type |
| Urls.Dir | src/connection.rs:72 | the base directory is a prefix of the path, ends in `/` (or is empty), and no `/` follows it |
| Urls.BaseDir | src/connection.rs:72 | the directory a reference is merged into: `/` for an empty base path (the base has a host), otherwise the prefix of the path through its last `/` (empty if there is none) |
| Urls.Join | src/connection.rs:72 | `join` fails iff the base cannot be a base; it keeps the origin; an empty reference keeps the path, a `/`-reference replaces it, any other is appended to the base directory |
| Urls.DirOfDirectory | src/connection.rs:166 | a path ending in `/` is its own directory |
| Urls.DirAfterSegment | src/connection.rs:117 | appending a segment without `/` to a directory leaves the directory unchanged |
| Urls.JoinIntoDirectory | src/connection.rs:171-174 | joining onto a path ending in `/` appends the reference |
| Urls.JoinReplacesLastSegment | src/connection.rs:117 | joining onto a path whose last segment lacks a trailing `/` replaces that segment |
| ErrorCodes.Code | src/connection.rs:13-40 | every variant's code is in the table and is a positive u16 |
| ErrorCodes.FromCode | src/connection.rs:13-40 | a number decodes iff it is in the table, and then to the variant with that code; there is no fallback |
| ErrorCodes.CodeRoundTrip | src/connection.rs:13-40 | decoding a variant's code gives that variant |
| ErrorCodes.CodesDistinct | src/connection.rs:13-40 | no two variants share a code |
| ErrorCodes.EncodeResponse | src/connection.rs:42-52 | a success stays a success with its payload; an error is written as the number that reads back as its kind, with its address and description |
| ErrorCodes.DecodeResponse | src/connection.rs:42-52 | an envelope fails to decode iff it is an error with an unknown code; encoding a decoded envelope gives back the wire form |
| ErrorCodes.DecodeResponses | src/connection.rs:103 | a reply array decodes iff every element does; the decoded array has the same length and order |
| ErrorCodes.EncodeResponses | src/connection.rs:42-52 | encoding keeps length and order |
| ErrorCodes.ResponsesRoundTrip | src/connection.rs:42-52 | encoding and then decoding an envelope array gives it back |
| ErrorCodes.UnknownCodeSpoilsReply | src/connection.rs:103 | a single envelope with an unknown code makes the whole reply undecodable |
| ErrorCodes.PartialWriteReply | src/connection.rs:182-189 | a reply with one success and one error 201 decodes to one accepted attribute and one DeviceOff error, in that order |
| Connection.New | src/connection.rs:71-83 | fails iff the base URL cannot be a base; otherwise stores url and key unchanged, and the root is `<base dir>api/<key>/` (`/` for an empty key) |
| Connection.GetApiKey | src/connection.rs:128-130 | returns the key the connection holds |
| Connection.NewKeepsKey | src/connection.rs:128-130 | `get_api_key` on a connection from `new` returns the given key, and the url is stored unchanged |
| Connection.NewRootUnderBase | src/connection.rs:72 | for a base path ending in `/`, the root is `base + "api/" + key + "/"` |
| Connection.TokenPath | src/connection.rs:89 | the token request is posted to `<base dir>api` |
| Connection.FirstToken | src/connection.rs:94-114 | transport failure gives a network error; an undecodable body gives an unexpected-response error; an empty array panics; otherwise the first element decides (success gives its token, error gives its address, description and kind) |
| Connection.OnlyFirstEnvelopeCounts | src/connection.rs:104-111 | the outcome depends only on the first envelope, not on the later ones or the status |
| Connection.ProvisionedApiUrl | src/connection.rs:117 | the root of `new_without_key` is `<base dir>api/<key>` with no trailing `/` |
| Connection.Provisioned | src/connection.rs:85-125 | panics if the base cannot be a base; succeeds iff the first envelope is a success, and then holds url, key and the as-written root; otherwise returns the first envelope's error or panic |
| Connection.NewWithoutKey | src/connection.rs:85-125 | the step-by-step method (post, decode, `remove(0)`, match, join) has exactly the outcome of Provisioned |
| Connection.ProvisionedRootDropsKey | src/connection.rs:117 | on a connection from `new_without_key`, `join("lights")` gives `<base dir>api/lights`: the key is lost |
| Connection.ProvisionedLightsPath | src/connection.rs:117 | under the as-written root of `new_without_key`, for any base and non-empty key, `join("lights")` gives `<base dir>api/lights` |
| Connection.ProvisionedRootExample | src/connection.rs:117 | on a bare host such as the test's gateway, `new_without_key` lists lights at `/api/lights` for every non-empty key |
| Connection.ProvisionedCorrected | src/connection.rs:117 | corrected `new_without_key`: once a token is obtained, the connection is exactly the one `new` builds from it |
| Connection.NewLightsPath | src/connection.rs:72 | under `new` on a base path ending in `/`, the lights collection is `base + "api/" + key + "/lights"` |
| Connection.CorrectedRootKeepsKey | src/connection.rs:117 | with the corrected root, the lights path is `base + "api/" + key + "/lights"` |
| Connection.GetRequest | src/connection.rs:133-148 | network error iff the transport failed; unauthorized iff status 403, checked before decoding; panic iff a non-403 body does not parse; otherwise the parsed body |
| Connection.PutRequest | src/connection.rs:150-163 | network error iff the transport failed; panic iff the body does not parse; otherwise the parsed body, whatever the status (no 403 check) |
| Connection.ForbiddenOnlyStopsReads | src/connection.rs:141-143 | a 403 with a good body: a read gets unauthorized, a write gets the body |
| Connection.ForbiddenIsNotGarbled | src/connection.rs:141-146 | a 403 is an unauthorized error, unlike a 200 with a garbled body, which panics |
| Connection.AllLightsUrl | src/connection.rs:166 | succeeds iff the root can be a base, with path `<root dir>lights` |
| Connection.LightsDirUrl | src/connection.rs:171-173 | `join("lights/")` gives `<root dir>lights/` |
| Connection.LightUrl | src/connection.rs:171-174 | the path is `<root dir>lights/<id>` |
| Connection.LightDir | src/connection.rs:186 | `join("<id>/")` appends `<id>/`; for an empty id the reference `/` replaces the whole path |
| Connection.LightStateUrl | src/connection.rs:183-187 | the path is `<root dir>lights/<id>/state`, or `/state` for an empty id |
| Connection.LightAttributesUrl | src/connection.rs:197-200 | the attributes path equals the path `get_light_state` reads |
| Connection.ResourcePathsUnderNew | src/connection.rs:166-200 | under `new` on a base ending in `/`: `root+"lights"`, `root+"lights/"+id`, `root+"lights/"+id+"/state"`, `root+"lights/"+id` |
| Connection.GetAllLights | src/connection.rs:165-168 | a GET of `<root dir>lights`; panics at `unwrap` only when the root cannot be a base |
| Connection.GetLightState | src/connection.rs:170-176 | a GET of `<root dir>lights/<id>` |
| Connection.SetLightState | src/connection.rs:178-190 | a PUT of the state to `<root dir>lights/<id>/state`, or to `/state` for an empty id (the reference `/` replaces the path) |
| Connection.SetLightAttributes | src/connection.rs:192-202 | a PUT of the attributes to `<root dir>lights/<id>` |

## Left out

- HTTP: building the reqwest client, `send().await` and status handling beyond the 403 test. These are network I/O in a foreign library. Their results enter as the transport parameter (`Exchange`).
- JSON decoding and encoding of records: the serde field renames, `skip_serializing_if`, and the lowercase enum tokens. This code is generated by serde. Only the numeric error-code mapping of the envelope is modelled. The body of a non-envelope reply is either parsed or unparsable.
- `LightState.xy` (`[f64; 2]`): floating point. It is carried as a pair of reals that no mutator touches.
- Non-plain references in `Url::join`: percent-encoding, dot segments, query and fragment references, and `//` references are not modelled. This is part of the url crate's parser.
- Connection.New: requires the key to be a plain path segment (ASCII letters, digits, `-`, `_`, `~`). Only such keys are resolved by the join model. The same restriction applies to `ApiToken.username` and to light ids, through the `Segment` type.
- LegacyLight.Light.ChangeBrightness: requires the i16 sum not to overflow. On overflow the source panics in debug builds and wraps in release builds; neither is modelled. EndpointLight.Light.ChangeBrightness has the same requirement.
- LegacyLight.Light.ChangeHue: requires the i64 sum not to overflow, for the same reason. EndpointLight.Light.ChangeHue has the same requirement.
- LegacyLight.Light.ChangeColorTemperature: requires the i128 sum not to overflow, for the same reason. In the endpoint copy this overflow is modelled as a panic, because every path past the guard panics anyway.
- The error text the source formats into its boxed errors. Errors carry their kind and the envelope's fields instead.
- The `Error` struct at src/connection.rs:54-58. It is declared but never used.
- `TokenResponse` (src/endpoints/configuration.rs:17-20). It is declared but never used: `new_without_key` decodes `RequestResponse<ApiToken>`.
- `LightEffect`. Only src/groups.rs uses it, and that file is not part of this model.
- In the gateway test (src/light.rs:120-175): the network pushes, the sleeps and the printing of each envelope of the reply. `LegacyLight.DimThenRamp` keeps the mutations, including the direct `state.on` write. The test's lights come from `get_all_lights` (src/connection.rs:165), so they are `crate::endpoints::light::Light` (src/connection.rs:8). With that class, `Some(ceiling.ct_min)` at src/light.rs:143 does not type-check, because `ct_min` is already an `Option`. Each `change_color_temperature(1)` would also do nothing or panic (see Findings). The model therefore runs the sequence on the older `Light` of src/light.rs. That class is a substitute, chosen so the sequence has its evident meaning.
- src/groups.rs, src/endpoints/rules.rs, src/endpoints/schedules.rs, src/endpoints/scenes.rs. They hold only record and enum declarations, with no behaviour.
- Callers that sort a write reply into accepted attributes and errors. The library leaves this to the caller, and no such function exists in the core.

## Findings

| source | as written | input that shows it | evidently intended | confidence | as-written member | corrected member |
|---|---|---|---|---|---|---|
| src/endpoints/light.rs:109 | returns early unless `ct_max` is present and `ct_min` absent; in that remaining case `ct_min.unwrap()` panics, so ct is never changed | `ct_min = Some(153)`, `ct_max = Some(500)`, ct 600, delta 0: ct stays 600; `ct_min = None`, `ct_max = Some(500)`: panic | clamp into `[ct_min, ct_max]` when both bounds are present, no-op otherwise | high; not executed | EndpointLight.InvertedGuardSkipsClamp | EndpointLight.ColorTemperatureIntended |
| src/connection.rs:117 | the root is `join("api/").join(key)`, without the trailing `/` that `new` adds at line 72, so resource paths replace the key | base `http://192.168.0.166:80/`, any non-empty key: `get_all_lights` requests `/api/lights` | the root `<base>api/<key>/`, as `new` builds it | high; not executed | Connection.ProvisionedRootDropsKey | Connection.ProvisionedCorrected |
