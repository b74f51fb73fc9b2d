# StopLight client — a Dafny model

StopLight is an iOS app that drives a three-lamp traffic signal (red, yellow,
green) on a device reachable through one of three backends. The plain HTTP
backend (port 4001) and the HTTPS backend (port 4002) send requests directly.
The SRPC backend (port 4003) sends them through sessions of the Knoxen library.
This project models the app's client logic in Dafny and proves properties of it:

- **StopNet** (`stop_net.dfy`) is the part every backend shares:
  - the interface table (name, domain, port);
  - discovery of the device's address, with at most two lookups or a static host;
  - the "Host not resolved" guard on every request;
  - the GET/POST choice by body;
  - the `{action, light}` body;
  - decoding of the device status, the lamps' status and a lamp's status;
  - confirmation of `on` and `blink`.
- **HttpNet** (`http_net.dfy`) and **HttpsNet** (`https_net.dfy`) cover the direct transport:
  - session configuration;
  - the 2xx classification of replies;
  - the credential POST for login and pairing, accepted exactly on `"status": "ok"`.
- **SrpcNet** (`srpc_net.dfy`) is the authenticated backend's session state:
  - requests are routed through the user channel, the cached library channel, or a library channel negotiated on demand;
  - login promotes the session and closes the library channel;
  - pairing logs in only when the registration code is `ok`.
- **StopLight** (`stop_light.dfy`) is one lamp, with its four statuses and its on, off, blink and timer-tick transitions.
- **StopLightController** (`controller.dfy`) is the screen:
  - the backend selector;
  - the access workflow: device status, then login, pairing or rejection, then the lamps' status;
  - the rule that every rejection clears the selection;
  - applying the lamps' status to the three lamps;
  - the tap and double-tap handlers.
- **Common** (`common.dfy`) holds what the others share: `Result`, the error value, the part of SwiftyJSON the app reads, credentials, and decimal rendering.

Some things are parameters of the model, so every property holds whatever they answer:
- name lookups;
- the network;
- the Knoxen library's negotiations;
- the credential prompt.

The controller is modelled with the backends' answers as inputs. It returns the observable steps of a workflow as a list of events: requests, prompts, alerts and rejections.

Behaviour of the code worth knowing, as the model states it:
- `SrpcNet.login` (iOS/StopLight/StopNet/SrpcNet.swift:69-90) closes and drops the library channel only when login succeeds. After a failed login the library channel stays cached and open (`SrpcNet.SrpcNet.Login`, `SrpcNet.SrpcNet.Pair`).
- The `libClient` helper (iOS/StopLight/StopNet/SrpcNet.swift:118-133) looks only at the library channel, never at the user channel. So after a login, a further login or pairing negotiates a new library channel (`SrpcNet.SrpcNet.LibClient`).
- `on` and `blink` (iOS/StopLight/StopNet/StopNet.swift:163-190) confirm the requested colour for any 2xx reply, even one whose body is `{"status":"fail"}`: the reply body is not inspected. `HttpNet.OnIgnoresReplyBody` proves it for that reply.

## Model

| member | source | states |
|---|---|---|
| Common.Field | iOS/StopLight/StopNet/StopNet.swift:114-115 | `json[key]` is the member of an object when present, and the null value for a missing key or a non-object |
| Common.StringOf | iOS/StopLight/StopNet/StopNet.swift:115 | `.string` is present exactly for a JSON string and gives that string |
| Common.Dictionary | iOS/StopLight/StopNet/StopNet.swift:134 | `.dictionary` is present exactly for a JSON object and gives its members |
| Common.StringValueIsText | iOS/StopLight/StopNet/HttpNet.swift:39 | for texts such as "ok", "on" and "blinking", `stringValue` equals the text exactly when the JSON value is that string, never a number, boolean or null |
| StopLight.ColorNameRoundTrip | iOS/StopLight/StopLight.swift:16-18 | `Color(rawValue:)` inverts `rawValue`, and a name parses to a colour only if it is that colour's name |
| StopLight.StatusNameRoundTrip | iOS/StopLight/StopLight.swift:20-25 | the raw values "off", "on", "blinking" and "blinking off" parse back to their statuses and to nothing else |
| StopLight.After | iOS/StopLight/StopLight.swift:48-66 | on ends in on, off ends in off, and blink leaves a blinking lamp as it is or starts one in the dark phase |
| StopLight.Ticked | iOS/StopLight/StopLight.swift:67-82 | a tick switches a blinking lamp to the other phase, so it stays blinking, and leaves any other lamp alone |
| StopLight.AfterIdempotent | iOS/StopLight/StopLight.swift:48-66 | on, off and blink are idempotent |
| StopLight.TickTwice | iOS/StopLight/StopLight.swift:69-78 | two ticks restore the phase |
| StopLight.StopLight.constructor | iOS/StopLight/StopLight.swift:35-46 | a new lamp has its colour and is off |
| StopLight.StopLight.On | iOS/StopLight/StopLight.swift:48-53 | the lamp ends on |
| StopLight.StopLight.Off | iOS/StopLight/StopLight.swift:55-60 | the lamp ends off |
| StopLight.StopLight.Blink | iOS/StopLight/StopLight.swift:62-66 | the lamp ends blinking; an already blinking lamp keeps its phase |
| StopLight.StopLight.Tick | iOS/StopLight/StopLight.swift:67-82 | one firing of the blink timer toggles the phase and keeps blinking as it was |
| StopLight.ExactlyOnePredicate | iOS/StopLight/StopLight.swift:90-92 | exactly one of `isOn`, `isOff` and `isBlinking` holds |
| StopNet.Upper | iOS/StopLight/StopNet/StopNet.swift:28-30 | `uppercased()` on ASCII: the length is kept, no lower-case letter remains, every character that is not a lower-case letter is kept, and each lower-case letter becomes the capital at the same place in the alphabet |
| StopNet.UpperIdempotent | iOS/StopLight/StopNet/StopNet.swift:28-30 | upper-casing an upper-cased name changes nothing |
| StopNet.InterfaceTable | iOS/StopLight/StopNet/StopNet.swift:26-44 | http/https/srpc have names HTTP/HTTPS/SRPC, domains `<raw>.local` and ports 4001/4002/4003 |
| StopNet.InterfacesDistinct | iOS/StopLight/StopNet/StopNet.swift:26-44 | no two interfaces share a port, a domain or a name |
| StopNet.SchemeFor | iOS/StopLight/StopNet/StopNet.swift:83-86 | the scheme is "https" exactly when built with `https: true`, else "http" |
| StopNet.DeviceStatusNameRoundTrip | iOS/StopLight/StopNet/StopNet.swift:46-48 | "ready", "pairing" and "blocked" parse back to their statuses and to nothing else |
| StopNet.CreateRequest | iOS/StopLight/StopNet/StopNet.swift:197-206 | a request is a POST carrying the body exactly when a body is given, otherwise a GET without one, on the given path and base URL |
| StopNet.Action | iOS/StopLight/StopNet/StopNet.swift:193-195 | the body has exactly the keys "action" and "light", holding the action and the colour's name |
| StopNet.ParseDeviceStatus | iOS/StopLight/StopNet/StopNet.swift:110-125 | success exactly when `status` is the JSON string "ready", "pairing" or "blocked", decoded to that status; transport errors pass unchanged; anything else is "Invalid device status response" |
| StopNet.ParseLightsStatus | iOS/StopLight/StopNet/StopNet.swift:128-145 | success exactly when `status` is a JSON object, yielding its members; transport errors pass unchanged; otherwise "Failed parsing StopLight response" |
| StopNet.ParseLightStatus | iOS/StopLight/StopNet/StopNet.swift:147-161 | the reply text is read as the lamp status whose name it is; errors pass unchanged |
| StopNet.Acknowledge | iOS/StopLight/StopNet/StopNet.swift:163-190 | any successful round trip confirms the requested colour; an error passes unchanged |
| StopNet.ResolveBounded | iOS/StopLight/StopNet/StopNet.swift:228-254 | discovery asks for consecutive attempts from the given one, at most `resolveAttempts` = 2 of them, and never for attempt 2 or later |
| StopNet.ResolveStatic | iOS/StopLight/StopNet/StopNet.swift:234-239 | with a static host, no lookup is made and the URL is `scheme://staticHost:port` while attempts remain |
| StopNet.ResolveFirstSuccess | iOS/StopLight/StopNet/StopNet.swift:240-253 | without a static host, discovery succeeds exactly when some remaining attempt's lookup succeeds, stops at the first success and keeps its URL, and on failure has tried every remaining attempt |
| StopNet.StopNet.constructor | iOS/StopLight/StopNet/StopNet.swift:83-86 | the interface and scheme chosen, no host resolved |
| StopNet.StopNet.Prepare | iOS/StopLight/StopNet/StopNet.swift:88-96 | before discovery no request is built and the result is "Host not resolved"; after it, the request `createRequest` builds |
| StopNet.StopNet.Get | iOS/StopLight/StopNet/StopNet.swift:88-91 | before discovery "Host not resolved" without calling `handle`; after it, `handle`'s answer for a GET of the path |
| StopNet.StopNet.Post | iOS/StopLight/StopNet/StopNet.swift:93-96 | before discovery "Host not resolved" without calling `handle`; after it, `handle`'s answer for a POST of the body |
| StopNet.StopNet.DeviceStatus | iOS/StopLight/StopNet/StopNet.swift:110-125 | the decoded answer to a GET of "device/status", or "Host not resolved" |
| StopNet.StopNet.LightsStatus | iOS/StopLight/StopNet/StopNet.swift:128-145 | the decoded answer to a GET of "status", or "Host not resolved" |
| StopNet.StopNet.LightStatus | iOS/StopLight/StopNet/StopNet.swift:147-161 | the decoded answer to a POST of the "status" action to "light", or "Host not resolved" |
| StopNet.StopNet.On | iOS/StopLight/StopNet/StopNet.swift:163-175 | success, with the requested colour, exactly when the host is resolved and the POST of the "switch" action succeeds |
| StopNet.StopNet.Blink | iOS/StopLight/StopNet/StopNet.swift:177-190 | success, with the requested colour, exactly when the host is resolved and the POST of the "blink" action succeeds |
| StopNet.StopNet.ResolveHost | iOS/StopLight/StopNet/StopNet.swift:228-254 | the retry loop agrees with `Resolve`: same lookups (at most 2, none for a static host); on success the URL is stored; on failure "Failed resolving host …" and the URL is unchanged |
| HttpNet.CreateSession | iOS/StopLight/StopNet/HttpNet.swift:64-71 | Content-Type "text/plain" exactly for GET and "application/json" otherwise; timeout 15 |
| HttpNet.StatusCodeLostAsWritten | iOS/StopLight/StopNet/HttpNet.swift:55 | as written, the error for status 404 equals the error for status 500 |
| HttpNet.StatusCodeError | iOS/StopLight/StopNet/HttpNet.swift:55 | the intended error text starts with "Status code: " and goes on |
| HttpNet.StatusCodeErrorRoundTrip | iOS/StopLight/StopNet/HttpNet.swift:55 | the intended error text gives back the status code it was made from |
| HttpNet.Handle | iOS/StopLight/StopNet/HttpNet.swift:47-62 | success exactly when the task completes with a 2xx status, and then with its data and code; other codes give the status-code error naming the code (corrected text, see Findings); task errors pass unchanged |
| HttpNet.HandleAsWritten | iOS/StopLight/StopNet/HttpNet.swift:47-62 | the same classification with the literal error text of line 55, which is the same for every non-2xx code |
| HttpNet.HandleDiffersOnlyInStatusText | iOS/StopLight/StopNet/HttpNet.swift:55 | the code as written and the corrected `Handle` succeed on the same requests and give the same result except for the text of a non-2xx error |
| HttpNet.CredentialBody | iOS/StopLight/StopNet/HttpNet.swift:34 | exactly the keys "username" and "password", taken from the credentials |
| HttpNet.CredentialAccepted | iOS/StopLight/StopNet/HttpNet.swift:35-44 | true exactly when the round trip succeeded and the reply's `status` is the JSON string "ok" |
| HttpNet.Action | iOS/StopLight/StopNet/HttpNet.swift:33-45 | true exactly when the host is resolved, the POST of the credentials to the path completes with 2xx, and the reply's `status` is "ok" |
| HttpNet.Login | iOS/StopLight/StopNet/HttpNet.swift:25-27 | as `Action` on the path "login" |
| HttpNet.Pair | iOS/StopLight/StopNet/HttpNet.swift:29-31 | as `Action` on the path "pair" |
| HttpNet.NewHttpNet | iOS/StopLight/StopNet/HttpNet.swift:17-19 | the http interface, scheme "http", not resolved |
| HttpNet.OnIgnoresReplyBody | iOS/StopLight/StopNet/StopNet.swift:163-175 | a 200 reply whose body says `"status": "fail"` still confirms the colour |
| HttpsNet.NewHttpsNet | iOS/StopLight/StopNet/HttpsNet.swift:13-15 | the https interface, scheme "https", not resolved |
| HttpsNet.HttpsEndpoint | iOS/StopLight/StopNet/HttpsNet.swift:14 | port 4002, domain https.local, and a static host resolves to `https://host:4002` |
| SrpcNet.Wrap | iOS/StopLight/StopNet/SrpcNet.swift:57-67 | a channel's success becomes a response with the same data and metadata; its failure passes unchanged |
| SrpcNet.SrpcEndpoint | iOS/StopLight/StopNet/SrpcNet.swift:22-24 | port 4003, domain srpc.local, and a static host resolves to `http://host:4003` |
| SrpcNet.Client.Close | iOS/StopLight/StopNet/SrpcNet.swift:77 | a closed channel is no longer open |
| SrpcNet.SrpcNet.constructor | iOS/StopLight/StopNet/SrpcNet.swift:22-24 | the srpc interface, not resolved, no channel |
| SrpcNet.SrpcNet.ResolveHost | iOS/StopLight/StopNet/SrpcNet.swift:26-35 | discovery as for every backend; on success the library is set up for the resolved URL with nonce size 4 and retry on; channels untouched |
| SrpcNet.SrpcNet.LibClient | iOS/StopLight/StopNet/SrpcNet.swift:118-133 | the cached library channel without negotiating; otherwise a negotiated one, which is cached, or the negotiation's error with nothing cached; the user channel is not consulted |
| SrpcNet.SrpcNet.Handle | iOS/StopLight/StopNet/SrpcNet.swift:37-55 | the user channel if present, else the cached library channel, else a newly negotiated one that is cached; a failed negotiation returns its error and caches nothing |
| SrpcNet.SrpcNet.Send | iOS/StopLight/StopNet/StopNet.swift:88-96 | before discovery "Host not resolved" with nothing negotiated or sent; after it, routed as `Handle` with the request `createRequest` builds: the cached channels are kept, a library channel negotiated now is cached, and a failed negotiation returns its error and caches nothing |
| SrpcNet.SrpcNet.Login | iOS/StopLight/StopNet/SrpcNet.swift:69-90 | true exactly when a library channel is obtained and promotion succeeds; then the user channel is stored, the library channel is closed and cleared; otherwise the user channel is unchanged |
| SrpcNet.SrpcNet.Pair | iOS/StopLight/StopNet/SrpcNet.swift:92-133 | the library channel is the cached one or a newly negotiated one, and none only when negotiation fails; login runs exactly when a channel is obtained and registration answers `ok`; the result is login's; on success the user channel is new and the library channel closed and dropped, otherwise the user channel is unchanged and the library channel stays cached and open |
| StopLightController.SegmentCorrespondence | iOS/StopLight/StopLightController.swift:22-37 | indices 0/1/2 and the three backends correspond one to one, and -1 names no backend |
| StopLightController.CommandFor | iOS/StopLight/StopLightController.swift:156-165 | "on" switches on, "blinking" blinks, "off" and every other text switch off |
| StopLightController.CommandForEntry | iOS/StopLight/StopLightController.swift:156-165 | a lamp is switched on exactly for the JSON string "on", blinks exactly for "blinking", and is off for any other JSON entry |
| StopLightController.BlockedFlow | iOS/StopLight/StopLightController.swift:97-100 | a blocked device gives one rejection ("blocked") and one alert, with no login or pairing |
| StopLightController.LoginWithFlow | iOS/StopLight/StopLightController.swift:118-128 | login is requested with the given credentials; a successful login fetches the lamps' status exactly once; a failed one rejects with "Invalid login", alerts, and fetches nothing |
| StopLightController.ReadyFlow | iOS/StopLight/StopLightController.swift:107-128 | a ready device logs in with the submitted credentials and never pairs; a successful login fetches the lamps' status exactly once; a failed one rejects with "Invalid login" and fetches nothing |
| StopLightController.PairingFlow | iOS/StopLight/StopLightController.swift:130-146 | a device in pairing mode pairs with the submitted credentials; login follows only a successful pairing, right after it and with the same credentials; otherwise "Unable to pair"; after pairing, a successful login fetches the lamps' status exactly once and a failed one rejects with "Invalid login" and fetches nothing |
| StopLightController.CancelledFlow | iOS/StopLight/StopLightController.swift:107-146 | a cancelled prompt ends the flow with a rejection before any login or pairing |
| StopLightController.LightsEnding | iOS/StopLight/StopLightController.swift:148-175 | fetching the lamps' status either applies it or rejects once |
| StopLightController.LoginWithEnding | iOS/StopLight/StopLightController.swift:118-128 | login with credentials ends in one rejection or in an applied lamps' status with none |
| StopLightController.LoginEnding | iOS/StopLight/StopLightController.swift:107-116 | the login flow ends in one rejection or in an applied lamps' status with none |
| StopLightController.PairEnding | iOS/StopLight/StopLightController.swift:130-146 | the pairing flow ends in one rejection or in an applied lamps' status with none |
| StopLightController.RejectOrApply | iOS/StopLight/StopLightController.swift:75-146 | every workflow ends in exactly one rejection, or in the lamps' status applied with no rejection |
| StopLightController.StopLightController.LightFor | iOS/StopLight/StopLightController.swift:183-192 | the lamp chosen for a colour has that colour |
| StopLightController.StopLightController.constructor | iOS/StopLight/StopLightController.swift:55-73 | three lamps of the three colours, all off, no current lamp, no backend, selection -1 |
| StopLightController.StopLightController.Reject | iOS/StopLight/StopLightController.swift:194-197 | the selection becomes -1, and the rejection is the one event |
| StopLightController.StopLightController.SetStopLight | iOS/StopLight/StopLightController.swift:183-192 | the current lamp becomes the lamp of the colour |
| StopLightController.StopLightController.ApplyLightsStatus | iOS/StopLight/StopLightController.swift:153-167 | each lamp ends in the status its colour's entry commands |
| StopLightController.StopLightController.LightsStatus | iOS/StopLight/StopLightController.swift:148-175 | on success every lamp follows its entry and the lamp named by "light" becomes current; on failure the lamps are untouched and the selection is cleared |
| StopLightController.StopLightController.LoginWith | iOS/StopLight/StopLightController.swift:118-128 | the events of the login step; the lamps and current lamp change exactly when a lamps' status is applied; the selection is cleared exactly on rejection |
| StopLightController.StopLightController.Login | iOS/StopLight/StopLightController.swift:107-116 | as `LoginWith`, after the prompt; a cancelled prompt rejects |
| StopLightController.StopLightController.Pair | iOS/StopLight/StopLightController.swift:130-146 | the pairing flow's events and effects, logging in only after a successful pairing |
| StopLightController.StopLightController.Connect | iOS/StopLight/StopLightController.swift:75-105 | the current lamp is switched off, the backend chosen, then the flow the device status selects runs, with its events and effects |
| StopLightController.StopLightController.StopNetChange | iOS/StopLight/StopLightController.swift:39-41 | the chosen position's backend is connected, and the selection stands exactly when the lamps' status was applied |
| StopLightController.StopLightController.Tap | iOS/StopLight/StopLightController.swift:201-217 | a lamp already on, or no backend, sends nothing; a confirmed "switch" turns the previous current lamp off and the tapped one on and makes it current; a failure changes nothing |
| StopLightController.StopLightController.DoubleTap | iOS/StopLight/StopLightController.swift:219-235 | as `Tap`, for a lamp not blinking, with "blink": the tapped lamp ends blinking in its dark phase |

## Left out

- `resolveHostUrl` (iOS/StopLight/StopNet/StopNet.swift:256-282) is left out: it is a CFHost lookup and a `getnameinfo` call. Each attempt's outcome is the parameter `lookup`.
- A static host that `URL(string:)` rejects (StopNet.swift:236) is not modelled. The source would store no URL yet report success; the model always forms the URL.
- Asynchronous delivery is not modelled: `URLSession` data tasks and the `DispatchQueue` hops are sequential steps. Interleavings of callbacks, such as a tap whose reply arrives after another flow changed the lamps, are not modelled.
- `resolveHosts` (iOS/StopLight/StopLightController.swift:238-283) is left out. It is a concurrent fan-out over the three backends that sets selector titles and enables segments behind a progress HUD. Each backend's discovery is modelled on its own.
- The Knoxen library (KnoxenLib.h, KnoxenClient.h, Knoxen.h) is foreign code. Negotiating a library channel, registering, promoting to a user channel and a channel's replies are the parameters `negotiation`, `register`, `promote` and `reply`. Only a channel's open/closed lifetime is kept.
- The `invalidLogin` and `blocked` alerts (StopNet.swift:291-321) are UI; they appear only as events. The credential prompt (iOS/StopLight/User.swift) is an input that is either submitted or cancelled.
- StopLight's alpha values, `blinkRate`, the real `Timer`, `blinkTimer` and `stop()` are not modelled. `StopLight.StopLight.Tick` is one firing of the timer's closure; the timer invalidating itself once the lamp stops blinking is not modelled.
- `userAgent()` (StopNet.swift:208-220) and the User-Agent header are not modelled.
- SwiftyJSON's parser is not modelled. Each reply carries its text and the JSON value parsed from it. JSON numbers are integers, because floating point is not modelled.
- The error descriptions in reject messages are simplified. The source formats `\(error)` and `error.localizedDescription`; the model uses the error's description for both.
- `clearLights` (StopLightController.swift:177-181) is left out because nothing calls it.
- The controller does not hold the three backend objects. It receives their answers (device status, prompt, pairing, login, lamps' status, on/blink confirmation) as inputs (`Answers`, `answer`). The backend modules state how each backend computes those answers.
- StopLight's `==` compares views; the model compares lamps by identity.
- The base `handle`, `login` and `pair` of StopNet are abstract and not modelled; each backend supplies its own.
- Force-unwraps that crash the app are preconditions:
  - `StopNet.StopNet.LightStatus` requires a readable status text (StopNet.swift:153-154).
  - The controller's flows require a lamps' status with every colour and a valid "light" entry (`SafeFor`, `WellFormedLights`; StopLightController.swift:156, 168-169).
  - `StopNetChange` requires a valid selector index (line 40).
  - The SRPC operations require a resolved host or a cached channel, since `knoxen!` is used at SrpcNet.swift:123.
- HttpNet.Handle: uses the corrected status-code text (see Findings), not the literal of HttpNet.swift:55. `HttpNet.HandleAsWritten` models the code as written, and `HttpNet.HandleDiffersOnlyInStatusText` proves the two differ only in that text.
- SrpcNet.SrpcNet.ResolveHost: the library is configured once. In the source the retry's re-invocation dispatches to the override again, so the library is configured once per attempt made. Each time it gets the same URL and settings, so the final state is the same.

## Findings

| source | as written | input that shows it | evidently intended | confidence | as-written member | corrected member |
|---|---|---|---|---|---|---|
| iOS/StopLight/StopNet/HttpNet.swift:55 | the error text is the literal `Status code: #{response.statusCode}`; Swift does not interpolate `#{…}` | replies with status 404 and with status 500 give the same error text | `Status code: 404`, the code in decimal, which `\(response.statusCode)` would give | not executed | HttpNet.StatusCodeLostAsWritten | HttpNet.StatusCodeErrorRoundTrip |
