# Game map client core, modelled in Dafny

This project models the logic inside a React game client. A player signs in with Google, picks a class, and then uses a zone map of the campus. The model covers five pieces of that client:

- **The map viewport** (`GameMap.tsx`). This is the pan offset, clamped against a 16:10 virtual map with a 40% visible margin, and the zoom scale, clamped to [0.5, 3]. Wheel, mouse, touch and button gestures drive both, through the component's refs. Those refs are fields of the class `GameMap.GameMapState`.
- **The zones** (`MAP_ZONES.ts`, `GameMap.tsx`). This is the static layout of 11 zones, and the replacement of their placeholder ids by backend ids matched by zone name. It also covers the spawn prompt: only the `nightbringer` class may open it, and a NightBringer id must exist before the backend is called.
- **The per-zone stream registry** (`useUbicacionStreams.ts`). This is the `sourcesRef` dictionary from zone-id strings to an EventSource or `null`. The effect body fills in missing entries and closes and deletes stale ones. The cleanup closes everything. The class is `UbicacionStreams.StreamRegistry`. Its ghost sets `created` and `closed` track every source handle that was ever opened or closed.
- **The fetch wrapper** (`lib/api.ts`). This is URL prefixing, the Authorization and Content-Type header decisions, and the debug log of the last 20 failed requests. The log is `Api.ApiErrorLog`, with a ghost history of every recorded error.
- **The session store** (`AuthContext.tsx`). This covers the credential, the profile, expiry and its timer, and the selected class and NightBringer id. localStorage is modelled as a `map<string, string>`, with per-user keys namespaced by email. The class is `AuthContext.AuthStore`.

Numbers on the map are `real`. DOM sizes and pinch distances (`Math.hypot`) are inputs. `fetch`, `jwtDecode`, `encodeURIComponent` and the `EventSource` constructor's failures are parameters. So are the backend's answers and `Date.now()`, one parameter per read of the clock. JavaScript truthiness is written out explicitly: an empty string, `null`, and the number 0 are falsy. JavaScript's `String(n)` for integers is `Text.IntToString`. `Number(s)` on decimal strings is `Text.ParseInt`.

Modules: `Wrappers` (Option, Result), `Text` (strings and integer formatting), `MapZones`, `Viewport`, `ZoneResolution`, `GameMap`, `UbicacionStreams`, `Api`, `AuthContext`.

Two consequences of the code are worth stating:

- **Zooms clamp after every step.** Repeated zooms therefore compose by the product of their factors only while no step is clamped (`Viewport.ZoomAllIsOneStep`). `Viewport.ClampedZoomIsNotMultiplicative` gives a sequence where clamping per step and clamping the product differ.
- **Cleanup runs before every re-run of the stream effect.** Every change of the joined id list or of `baseUrl` therefore closes and reopens every stream, including the ones that stay listed (`UbicacionStreams.StreamRegistry.DependenciesChanged`). Within a single run of the effect body, an existing non-null source is kept (`UbicacionStreams.StreamRegistry.Reconcile`).

## Model

| member | source | states |
|---|---|---|
| MapZones.Layout | src/data/MAP_ZONES.ts:3-33 | There are exactly 11 zones. Ids are pairwise distinct, which matters because they are the render keys. Names are pairwise distinct. Every rectangle has positive size and lies inside 0..100 percent. Only "Dptos" is rotated, by -22 degrees. |
| Viewport.VirtualMapSize | src/components/GameMap.tsx:38-51 | In both aspect branches the virtual map keeps width = 1.6 × height. It fits inside the scaled viewport and touches it on one axis. |
| Viewport.MaxOffset | src/components/GameMap.tsx:53-58 | The allowed offset on each axis is never negative: it is max(0, (map side - 0.4 × view side) / 2). |
| Viewport.ClampAxis | src/components/GameMap.tsx:60-63 | The result lies in [-max, max]. A value already in range is unchanged. Values above or below the range go to the nearer end. |
| Viewport.ClampOffset | src/components/GameMap.tsx:31-64 | With no container the offset is returned unchanged. Otherwise each axis is clamped on its own to [-max, max] from MaxOffset: a coordinate in range is kept, and one beyond either end goes to that end. |
| Viewport.ClampOffsetIdempotent | src/components/GameMap.tsx:31-64 | Clamping twice equals clamping once. |
| Viewport.ApplyZoom | src/components/GameMap.tsx:66-71 | The new scale is always in [0.5, 3]. It equals prev × factor when that product is in range, and otherwise the nearer end of the range. |
| Viewport.WheelZoomFactor | src/components/GameMap.tsx:131-135 | The factor is 1.1 exactly when -deltaY > 0, and 0.9 otherwise, including deltaY = 0. |
| Viewport.ZoomComposes | src/components/GameMap.tsx:66-71 | Two zooms whose first step is not clamped equal one zoom by the product of the two factors. |
| Viewport.ZoomAll | src/components/GameMap.tsx:66-71 | A non-empty sequence of zooms ends in [0.5, 3]. The empty sequence leaves the scale unchanged. |
| Viewport.ZoomAllIsOneStep | src/components/GameMap.tsx:66-71 | When no intermediate step is clamped, a sequence of zooms equals one zoom by the product of all the factors. |
| Viewport.ClampedZoomIsNotMultiplicative | src/components/GameMap.tsx:66-71 | Zooming from 1 by 4 and then by 0.5 gives 1.5, but one zoom by the product gives 2. Clamping happens per step, not once on the product. |
| ZoneResolution.NameIndex | src/components/GameMap.tsx:78 | Every backend record's name is a key of the index, and every key is some record's name. |
| ZoneResolution.NameIndexLastWins | src/components/GameMap.tsx:78 | When names repeat, a name maps to the id of the last record that carries it. |
| ZoneResolution.ResolveZone | src/components/GameMap.tsx:81-82 | A zone takes the indexed id when that id is truthy (present and non-zero). Otherwise the zone is returned unchanged. No field but the id ever changes. |
| ZoneResolution.ResolveZones | src/components/GameMap.tsx:80-83 | The result keeps the length and the order of the zones. Each zone only has its id replaced, by the resolved id. |
| ZoneResolution.ResolvedFromLastRecord | src/components/GameMap.tsx:78-83 | A zone named by a record that no later record overrides takes that record's id when it is truthy, and keeps its placeholder otherwise. |
| ZoneResolution.UnnamedZoneKeepsPlaceholder | src/components/GameMap.tsx:81-82 | A zone that no backend record names is left exactly as it was. |
| ZoneResolution.LoadUbicaciones | src/components/GameMap.tsx:74-92 | On a failed request the zones stay as they were. On success they are the layout resolved against the records. |
| ZoneResolution.ResolveSUM | src/components/GameMap.tsx:78-83 | With a single record ("SUM", 1), the SUM zone gets id 1 and the first zone is untouched. |
| GameMap.SpiritName | src/components/GameMap.tsx:116 | The spirit name is never empty. A typed name is kept, and an empty one becomes "Espíritu". |
| GameMap.SpawnRequest | src/components/GameMap.tsx:113-116 | A null or 0 NightBringer id refuses the spawn before any backend call, and that is the only case that does. A missing zone refuses it, as the throw inside the `try` does. Otherwise the call carries the NightBringer id, the zone's id and the spirit name. |
| GameMap.RedirectTarget | src/components/GameMap.tsx:95-103 | A signed-out player is sent to "/". A signed-in player with no class is sent to "/dashboard". A signed-in player with a class stays. |
| GameMap.GameMapState.constructor | src/components/GameMap.tsx:18-28 | Initially the modal is closed, no zone is selected, the name is empty, the zones are the layout, the scale is 1, the offset is (0, 0), there is no panning and there is no pinch. |
| GameMap.GameMapState.Zoom | src/components/GameMap.tsx:66-71 | The scale becomes ApplyZoom of the old scale, so it stays in [0.5, 3]. |
| GameMap.GameMapState.Wheel | src/components/GameMap.tsx:131-136 | The scale becomes ApplyZoom(old scale, wheel factor). |
| GameMap.GameMapState.ZoomButton | src/components/GameMap.tsx:233-240 | The + button zooms by 1.15 and the − button by 0.85. |
| GameMap.GameMapState.PanTo | src/components/GameMap.tsx:143-146 | The pointer's movement since the last position is added to the offset, and the sum is clamped. The last position becomes the pointer. |
| GameMap.GameMapState.MouseDown | src/components/GameMap.tsx:137-140 | Panning starts at the pointer. |
| GameMap.GameMapState.MouseMove | src/components/GameMap.tsx:141-147 | When not panning, nothing changes. When panning, the offset moves by the clamped delta and the last position follows the pointer. |
| GameMap.GameMapState.MouseUp | src/components/GameMap.tsx:148-153 | Panning stops. The same holds for mouse leave. |
| GameMap.GameMapState.TouchStart | src/components/GameMap.tsx:154-168 | Two touches record the pinch distance and stop panning. One touch starts panning at the touch and clears the pinch. Any other count changes nothing. |
| GameMap.GameMapState.TouchMove | src/components/GameMap.tsx:169-186 | A two-touch move during a pinch zooms by distance / last distance, records the new distance and never pans. A recorded distance of 0 with a positive new distance zooms to 3. Otherwise a one-touch move while panning pans by the clamped delta, and any other move changes nothing. |
| GameMap.GameMapState.TouchEnd | src/components/GameMap.tsx:187-190 | Touch end stops panning and clears the pinch. |
| GameMap.GameMapState.LoadZones | src/components/GameMap.tsx:74-92 | The zones become LoadUbicaciones of the old zones and the response. They are unchanged on failure. |
| GameMap.GameMapState.OpenModal | src/components/GameMap.tsx:105-111 | For any class but "nightbringer", nothing changes. For a nightbringer, the zone is selected, the name is reset to "" and the modal opens. |
| GameMap.GameMapState.Spawn | src/components/GameMap.tsx:113-122 | With no NightBringer the backend is not called and "NightBringer no creado" is alerted. With no zone, "Error al spawnear" is alerted. Otherwise the request is issued. The modal closes only when it succeeds, and a failure alerts "Error al spawnear". |
| UbicacionStreams.Key | src/lib/useUbicacionStreams.ts:49 | A string id is its own key. A number's key parses back to that number. |
| UbicacionStreams.NumberAndStringShareKey | src/lib/useUbicacionStreams.ts:49-56 | The ids 1 and "1" give a single key, "1". |
| UbicacionStreams.StreamUrl | src/lib/useUbicacionStreams.ts:20-25 | The URL always starts with base + "/ubicacion/" + id + "/stream". With no token it is exactly that. With a token it is followed by "&" if the URL already contains "?" and "?" otherwise, then "token=" and the encoded token. |
| UbicacionStreams.DeliveriesAsWritten | src/lib/useUbicacionStreams.ts:27-35 | Unparsable text is delivered once as raw text. Parsed data is delivered once when the callback returns normally. When the callback throws, it is first called with the parsed value and then a second time with the raw text. |
| UbicacionStreams.ThrowingCallbackCalledTwice | src/lib/useUbicacionStreams.ts:27-35 | A throwing callback receives two deliveries for one message: the parsed value, then the raw text. |
| UbicacionStreams.Deliveries | src/lib/useUbicacionStreams.ts:27-35 | Every message is delivered exactly once, with the string id. The payload is the parsed value when parsing succeeds and the raw text otherwise. |
| UbicacionStreams.DeliveriesAgreeWithoutThrow | src/lib/useUbicacionStreams.ts:27-35 | When the callback does not throw, the code as written and the corrected delivery agree. |
| UbicacionStreams.StreamRegistry.constructor | src/lib/useUbicacionStreams.ts:14 | The registry starts empty, with nothing created or closed. |
| UbicacionStreams.StreamRegistry.CreateSource | src/lib/useUbicacionStreams.ts:18-45 | A constructor failure stores null. Otherwise a fresh handle is stored under the id. No handle is closed. |
| UbicacionStreams.StreamRegistry.EnsureSource | src/lib/useUbicacionStreams.ts:49-52 | A key holding a live source is kept. A missing key or a null entry gets a new source, or null when creation fails. No other entry changes. |
| UbicacionStreams.StreamRegistry.CreateMissing | src/lib/useUbicacionStreams.ts:48-53 | After the creation loop, the keys are the old keys plus String of every id. Every listed key is either kept live, or newly created or null. Unlisted entries are untouched and nothing is closed. |
| UbicacionStreams.StreamRegistry.CloseAndDelete | src/lib/useUbicacionStreams.ts:59-63 | The entry is removed, and its source is closed when it is not null. |
| UbicacionStreams.StreamRegistry.DeleteStale | src/lib/useUbicacionStreams.ts:56-65 | Exactly the keys outside the current set are deleted, and exactly their live sources are closed. Other entries are untouched. |
| UbicacionStreams.StreamRegistry.Reconcile | src/lib/useUbicacionStreams.ts:48-65 | After the effect body, the key set is {String(u)}. Each entry is kept live, newly created or null. Exactly the dropped keys' sources are closed. |
| UbicacionStreams.StreamRegistry.Cleanup | src/lib/useUbicacionStreams.ts:68-73 | Every live source is closed and the registry is empty. |
| UbicacionStreams.StreamRegistry.DependenciesChanged | src/lib/useUbicacionStreams.ts:48-75 | Cleanup runs, then the body. Every old source is closed, and every listed key gets a brand-new source, or null when creation fails. |
| Text.LowerAsciiString | src/lib/api.ts:9 | The string is lower-cased letter by letter, as the `i` flag compares, and keeps its length. |
| Api.BuildUrl | src/lib/api.ts:8-11 | An absolute http(s) URL is used unchanged. Any other input follows the base, with exactly one "/" added when the input does not start with "/". |
| Api.UpperCaseSchemeIsAbsolute | src/lib/api.ts:9 | "HTTP://" counts as absolute, but "/http://" does not. |
| Api.PrepareHeaders | src/lib/api.ts:13-22 | Given headers are kept. Authorization "Bearer <token>" is added exactly when auth is not skipped, a token is stored and none was given. Content-Type application/json is added exactly when none was given and the body is truthy and not FormData. Nothing else is added. |
| Api.LastN | src/lib/api.ts:45 | The result is the last min(n, length) elements. |
| Api.LastNAppend | src/lib/api.ts:42-45 | Trimming to 20 after each push equals keeping the last 20 of the whole history. |
| Api.LastNAppendShape | src/lib/api.ts:43-45 | After a push the new item is last, and the items before it are the most recent old ones in their old order. |
| Api.ApiErrorLog.constructor | src/lib/api.ts:42 | The log starts unset, with an empty history. |
| Api.ApiErrorLog.AddApiError | src/lib/api.ts:39-49 | The entry stamped with the clock is appended to the history. The buffer becomes the last 20 of old buffer + entry, and never holds more than 20. |
| Api.ApiErrorLog.GetApiErrors | src/lib/api.ts:51-53 | The result is the last 20 recorded errors, or an empty list when nothing was ever recorded. |
| Api.ApiFetch | src/lib/api.ts:5-37 | The request uses BuildUrl and the decided headers. An ok response is returned and nothing is logged. A non-ok response is returned and exactly one error is logged, with its status, status text and body text ("" if reading fails). A throw logs status 0 with the message and text "", then is rethrown. |
| Text.IntToString | src/auth/AuthContext.tsx:207 | String of an integer is never empty and starts with "-" exactly when the integer is negative. |
| Text.IntToStringRoundTrip | src/auth/AuthContext.tsx:207 | Number(String(n)) = n for every integer, so an id written to storage reads back unchanged. |
| Text.IntToStringInjective | src/lib/useUbicacionStreams.ts:49 | Distinct numeric ids get distinct keys. |
| AuthContext.UserClassKey | src/auth/AuthContext.tsx:42 | The key is "selected_player_class_" followed by the email. |
| AuthContext.UserNBKey | src/auth/AuthContext.tsx:43 | The key is "nightbringer_id_" followed by the email. |
| AuthContext.UserKeysSeparate | src/auth/AuthContext.tsx:37-43 | Per-user keys are equal only for equal emails. Class keys never equal NightBringer keys, and no per-user key equals one of the three global keys. |
| AuthContext.StoredClass | src/auth/AuthContext.tsx:114-119 | The restored class is the stored per-user value when that is non-empty, and null otherwise. |
| AuthContext.StoredNightBringer | src/auth/AuthContext.tsx:121-126 | A non-empty stored per-user value is restored as its Number. An absent or empty value restores null. |
| AuthContext.StorageAfterSetClass | src/auth/AuthContext.tsx:184-191 | With no email, storage is untouched. Otherwise the user's class key is written with cls when cls is truthy and removed otherwise, and no other entry changes. |
| AuthContext.StorageAfterSetNightBringer | src/auth/AuthContext.tsx:202-209 | With no email, storage is untouched. Otherwise the user's NightBringer key is written with String(id), or removed for null, and no other entry changes. |
| AuthContext.StorageAfterLogout | src/auth/AuthContext.tsx:88-91 | Exactly the credential key and the two unsuffixed keys are removed. Every other entry keeps its value. |
| AuthContext.SetClassThenRestore | src/auth/AuthContext.tsx:184-191 | A class set by a user is what that user's next login restores. An empty or null class restores null. |
| AuthContext.SetNightBringerThenRestore | src/auth/AuthContext.tsx:202-209 | A NightBringer id set by a user is what that user's next login restores. |
| AuthContext.SetClassIsolated | src/auth/AuthContext.tsx:184-191 | Setting one user's class changes neither another user's class nor any NightBringer id that a login restores. |
| AuthContext.LogoutKeepsUserData | src/auth/AuthContext.tsx:84-98 | Logout keeps every user's saved class and NightBringer id. |
| AuthContext.ExpirationVerdict | src/auth/AuthContext.tsx:65-75 | The session is expired exactly when there is no payload, exp is missing or 0, or exp - floor(now / 1000) <= 0. Otherwise the remaining seconds are positive. |
| AuthContext.StartupTestAgreesWithVerdict | src/auth/AuthContext.tsx:143-148 | For every clock reading, the startup test `exp && exp > now` holds exactly when evaluateExpiration, reading the same clock value, finds time left. |
| AuthContext.StartupReadsCanStraddleExpiry | src/auth/AuthContext.tsx:143-148 | The startup test and evaluateExpiration read the clock separately. With `exp` 2, the test passes at 1999 ms and the verdict at 2000 ms is expired, so a restored session can be marked expired at once. |
| AuthContext.AuthStore.constructor | src/auth/AuthContext.tsx:48-56 | All session fields start null or false, with no timer. |
| AuthContext.AuthStore.IsAuthenticated | src/auth/AuthContext.tsx:197 | Authenticated exactly when the credential is non-empty, a profile exists and the session is not expired. |
| AuthContext.AuthStore.ClearTimer | src/auth/AuthContext.tsx:58-63 | No timer remains. |
| AuthContext.AuthStore.EvaluateExpiration | src/auth/AuthContext.tsx:65-82 | isExpired becomes the verdict. An expired verdict leaves the timer as it was. A live one replaces the timer with one due at now + remaining × 1000. |
| AuthContext.AuthStore.Logout | src/auth/AuthContext.tsx:84-98 | No timer remains, storage loses the three global keys, the session fields are null, isExpired is false and the store is not authenticated. |
| AuthContext.AuthStore.Login | src/auth/AuthContext.tsx:100-136 | A failed decode logs out, after the credential was stored. A decoded token stores the credential and profile. With an email, the class and NightBringer id become the stored per-user values or null. Without one, they are kept. Expiry follows the verdict: time left sets a timer due when the token expires, and an expired verdict leaves any earlier timer as it was. The store is authenticated exactly when the credential is non-empty and time is left. |
| AuthContext.AuthStore.ExpiryTimerFires | src/auth/AuthContext.tsx:78-81 | The timer callback ends logged out: no timer, the three global keys removed, credential, profile, class and NightBringer id null, and isExpired false again. |
| AuthContext.AuthStore.Startup | src/auth/AuthContext.tsx:138-180 | With no stored credential, only `initialized` changes. A decodable credential whose exp is in the future at the first clock reading is restored. It is then marked expired exactly when evaluateExpiration, at the second reading, finds no time left; otherwise it gets a timer due at its expiry, and it is not expired when both readings fall in the same second. Any other stored credential is logged out, with no timer. Then, for a token with an email, a saved class and a non-empty saved NightBringer id are loaded. A value that is not saved, or a token without an email, leaves the class or id as restored, or null after a logout. |
| AuthContext.AuthStore.Unmount | src/auth/AuthContext.tsx:181 | No timer remains. |
| AuthContext.AuthStore.SetSelectedClass | src/auth/AuthContext.tsx:184-191 | The class becomes cls, and storage becomes StorageAfterSetClass for the profile's email. |
| AuthContext.AuthStore.SetNightBringerId | src/auth/AuthContext.tsx:202-209 | The id becomes the argument, and storage becomes StorageAfterSetNightBringer for the profile's email. |

## Left out

- JSX rendering, styling and routing are not modelled. They are UI only, and so is every other component.
- Floating-point rounding and `Math.hypot` are not modelled. Numbers are `real`, and pinch distances and container sizes are inputs.
- `GameMap.GameMapState.TouchMove`: a pinch from a recorded distance of 0 to a distance of 0 is NaN in the browser, and NaN would spread into the scale. The model keeps the scale unchanged instead.
- React's scheduling is not modelled. State updates apply at once and in order. Stale closures (`clampOffset` reading the rendered `scale`) and batching are not modelled.
- `navigate`, `alert`, `googleLogout`, `console.error`, `setTimeout` and `clearTimeout` are not called. Their effects are values: a redirect target, an alert string, or the timer's due time.
- `UbicacionStreams.StreamRegistry`: the EventSource transport, its reconnects and the empty `onerror` handler are not modelled. A source is a handle number. Constructor failures are the URLs in a given set.
- `UbicacionStreams.StreamRegistry.DependenciesChanged`: `token` and `onMessage` are not effect dependencies (line 75). A new token therefore reaches only sources created later. The model passes the token of the run in which a source is created.
- `Text.ParseInt`: decimal integers only. `Number` of other strings (hex, exponents, whitespace, fractions) is read as no id.
- `Text.IntToString`: JavaScript writes integers of 22 or more digits (1e21 and above) in exponent notation, and its numbers are not exact above 2^53. The model always writes the exact decimal digits.
- `UbicacionStreams.Key`: backend ids are modelled as integers or strings. Fractional numbers are not modelled.
- `Api.PrepareHeaders`: header names are compared in lower case, which is what a `Headers` object does. Given headers are assumed to be lower-case already.
- `Api.ApiErrorLog.AddApiError`: the `try`/`catch` that swallows a failure to write the global is not modelled, since the model's log cannot fail.
- `Api.ApiErrorLog.GetApiErrors`: the function returns the live global array, so later errors show up in a list obtained earlier. The model returns a value.
- `src/api/api.ts` is not part of this model. Its endpoints are parameters: the ubicaciones response and the spawn call's outcome.
- `AuthContext.AuthStore.Startup`: the second block loads the saved class and NightBringer id even after logging out an expired credential. The model keeps this as written.

## Findings

| source | as written | input that shows it | evidently intended | confidence | as-written member | corrected member |
|---|---|---|---|---|---|---|
| src/lib/useUbicacionStreams.ts:27-35 | The `try` around `JSON.parse` also wraps the `onMessage` call. When the callback throws on parsed data, the `catch` calls it again with the raw text. | A message `{"a":1}` whose handler throws: the handler runs with `{a: 1}` and then with the string `{"a":1}` | Each message reaches `onMessage` exactly once: parsed data when parsing succeeds, raw text otherwise | medium, not executed | UbicacionStreams.DeliveriesAsWritten, UbicacionStreams.ThrowingCallbackCalledTwice | UbicacionStreams.Deliveries |
