# Open Agent Platform: authentication and settings core, modelled in Dafny

This project models five small pieces of the Open Agent Platform web apps and
proves what they promise:

- **OAuth callback** (`callback.dfy`, module `Callback`): the `/api/auth/callback`
  route reads `code`, `redirect`, `error` and `error_description` and chooses
  one redirect: back to `/signin` with the upstream error, back to `/signin`
  after a failed code exchange, or to the requested destination. The
  backend's client creation and code exchange are a parameter that succeeds,
  returns an error or throws. Resolving the destination is taken to succeed
  (see Left out).
- **Authentication context** (`auth.dfy`, module `Auth`): choosing the provider
  (a supplied one, else the default one, else none when its constructor
  throws), the `session`/`user`/`isLoading` state cells driven by mount,
  `getSession` completion or failure, change notifications and unmount, the
  context value with `isAuthenticated` and the seven bound operations with
  their "Auth disabled" fallbacks, and `useAuthContext`. The state machine is a
  set of pure step functions over `AuthState`; the class `AuthProvider` holds
  the cells, and each of its methods is one event proved equal to its step
  function.
- **Configuration-field edits** (`config_fields.dfy`, module `ConfigFields`):
  the unified change handler, JSON text edits, JSON formatting, number input,
  the Format button's `disabled` and the JSON text shown. `JSON.parse`,
  `JSON.stringify` and `Number` are partial oracles passed as parameters.
- **Deployment list** (`deployments.dfy`, module `Deployments`): the scan of the
  parsed list with its `defaultExists` flag, proved to return the list
  unchanged and to emit exactly the warnings a reference definition gives.
- **API-key presence** (`api_keys.dfy`, module `ApiKeys`): the ten settings
  read from local storage with "" as default, and the check that some key
  is non-blank after trimming.

`js.dfy` (module `Js`) holds the JavaScript semantics the others share:
null/undefined, string truthiness, `||` on strings and `String.prototype.trim`
with the white-space and line-terminator code points of ECMA-262,
sections 12.2 and 12.3.

Foreign calls are parameters: the Supabase client and its
`exchangeCodeForSession`, the default provider's constructor, the provider's
seven operations (`backend` in `Auth.Invoke`), `JSON.parse`, `JSON.stringify`
and `Number`, the `NEXT_PUBLIC_DEPLOYMENTS` variable, whether `window` exists,
and local storage (a map).
Asynchronous completions are explicit events applied in an order the caller
chooses.

### Behaviour one might not expect (the model follows the code)

- One might expect a "still mounted" check before each asynchronous state
  update. `initializeAuth` has none (apps/web/src/providers/Auth.tsx:79-94):
  a `getSession` result that arrives after unmount still calls the setters,
  and the model's cells change (`Auth.CompletionAfterTeardownApplies`). React
  discards updates to an unmounted component, so nothing can observe them;
  the model records the calls, not what is rendered.
- One might expect the latest change notification to win over the initial
  `getSession` call. In the code a `getSession` result that arrives after a
  notification overwrites it (`Auth.LateGetSessionOverwritesChange`).
- One might expect `user`, when set, always to be the session's user, since
  the change listener keeps them so (apps/web/src/providers/Auth.tsx:102-105).
  A null `getSession` result does not clear `user`
  (apps/web/src/providers/Auth.tsx:86-88), so a user can be set while the
  session is null, and `isAuthenticated` is then false
  (`Auth.NullSessionKeepsUser`). Every change notification restores the
  agreement (`Auth.ChangeRestoresAgreement`).
- The callback's last-resort message "Google sign-in failed"
  (apps/web/src/app/api/auth/callback/route.ts:18) reads as a fallback for an
  upstream error without description or code. It is unreachable, because that
  branch is taken only when `error` is non-empty
  (`Callback.UpstreamFallbackUnreachable`).
- One might expect the success redirect to stay on the request's origin. The
  code resolves `redirect` with `new URL(redirect, origin)`
  (apps/web/src/app/api/auth/callback/route.ts:42), where an absolute or
  protocol-relative `redirect` replaces the origin. URL resolution is abstract
  here and no such property is claimed.
- One might expect the context to expose every provider method. It binds
  seven operations (apps/web/src/providers/Auth.tsx:117-123); the provider's
  `getSession` and `onAuthStateChange` are used only by the effects.
- One might expect the provider to be built once per component. `AuthProvider`
  calls `createDefaultAuthProvider()` on every render when no custom provider
  is given (apps/web/src/providers/Auth.tsx:67). The model fixes the provider
  per component instance (see Left out).
- A comment in `handleJsonChange` says the raw string is stored on a
  successful parse; the code stores the parsed value. The model stores the
  parsed value. As a result, after a JSON edit, Format stays disabled unless
  the text parses to a non-empty string (`ConfigFields.FormatAfterJsonEdit`).

## Model

| member | source | states |
|---|---|---|
| `Js.Trim` | apps/web/src/hooks/use-api-keys.tsx:69 | `trim` returns a contiguous part of its input that neither starts nor ends with white space, and everything before and after that part is white space |
| `Js.TrimStart` | apps/web/src/hooks/use-api-keys.tsx:69 | the leading part removed is all white space and what remains is a suffix not starting with white space |
| `Js.TrimEnd` | apps/web/src/hooks/use-api-keys.tsx:69 | the trailing part removed is all white space and what remains is a prefix not ending with white space |
| `Js.TrimEmptyIffBlank` | apps/web-v2/src/components/config-fields/index.tsx:46 | `s.trim()` is empty exactly when every character of `s` is white space |
| `Callback.Param` | apps/web/src/app/api/auth/callback/route.ts:8-12 | `searchParams.get` is null iff no pair has the name, else the value of the first pair with that name |
| `Callback.Decide` | apps/web/src/app/api/auth/callback/route.ts:14-42 | the exchange block (client creation, then the exchange) is entered, with the code, iff `code` non-empty and `error` empty; upstream error goes to `/signin` with `error_description` else `error`; a failed or throwing exchange block goes to `/signin` with "Authentication failed. Please try again."; otherwise `redirect` (default "/"); every location is resolved against the request's origin, and every error redirect is `/signin` |
| `Callback.Get` | apps/web/src/app/api/auth/callback/route.ts:6-43 | the exchange block is entered, with `code`, iff the first `code` pair is non-empty and the first `error` pair is missing or empty; an upstream error goes to `/signin`; every location is resolved against the request's origin, and every error redirect is `/signin` |
| `Callback.Route` | apps/web/src/app/api/auth/callback/route.ts:6-45 | both exported handlers answer every request as the GET handler does |
| `Callback.PostIsGet` | apps/web/src/app/api/auth/callback/route.ts:45 | POST gives the same response as GET for every request |
| `Callback.UpstreamFallbackUnreachable` | apps/web/src/app/api/auth/callback/route.ts:14-19 | with `error` non-empty the message is `error_description` or `error`, never the generic fallback |
| `Callback.ExchangeFailureDetailHidden` | apps/web/src/app/api/auth/callback/route.ts:29-38 | exchanges that agree on success give identical responses: a returned error and a throw, whatever their detail, redirect the same way |
| `Callback.EmptyParamsAreAbsent` | apps/web/src/app/api/auth/callback/route.ts:9-23 | replacing any empty parameter by a missing one changes nothing: `?error=` does not short-circuit, `?code=` does not exchange, `?redirect=` falls back to "/" |
| `Callback.UpstreamErrorScenario` | apps/web/src/app/api/auth/callback/route.ts:14-21 | `?code=abc123&error=access_denied&error_description=User denied` goes to `/signin` with "User denied" and never enters the exchange block |
| `Callback.SuccessScenario` | apps/web/src/app/api/auth/callback/route.ts:23-42 | `?code=abc123&redirect=/dashboard` with a successful exchange goes to `/dashboard` |
| `Callback.ExchangeFailureScenario` | apps/web/src/app/api/auth/callback/route.ts:23-38 | `?code=abc123` with a failing exchange goes to `/signin` with the fixed message |
| `Callback.NoParamsScenario` | apps/web/src/app/api/auth/callback/route.ts:9-42 | no parameters: straight to "/" without entering the exchange block |
| `Auth.CreateDefaultAuthProvider` | apps/web/src/providers/Auth.tsx:43-54 | null exactly when the constructor throws, else the constructed provider; the constructor gets the window origin or undefined |
| `Auth.RedirectUrl` | apps/web/src/providers/Auth.tsx:46-47 | the default provider's redirect URL is the window's origin when a window exists, and undefined otherwise |
| `Auth.SelectProvider` | apps/web/src/providers/Auth.tsx:67 | a supplied provider is always used; without one the default is used, or null when its constructor throws |
| `Auth.MountEffects` | apps/web/src/providers/Auth.tsx:74-110 | the mount effects run once (a second mount does nothing) and touch neither session nor user; without a provider only loading ends, with one exactly one getSession call is outstanding and one listener registered |
| `Auth.SessionResolved` | apps/web/src/providers/Auth.tsx:82-93 | with a call outstanding: the session becomes the result, the user only when the result carries one, and loading ends; phase, listener and call counts are untouched; with none outstanding nothing changes |
| `Auth.SessionFailed` | apps/web/src/providers/Auth.tsx:89-93 | a thrown getSession only ends loading and the outstanding call; session and user keep their values |
| `Auth.Changed` | apps/web/src/providers/Auth.tsx:102-105 | with the listener registered, session becomes the payload and user its user (null for a null payload), nothing else changes; without a listener nothing changes |
| `Auth.Teardown` | apps/web/src/providers/Auth.tsx:107-109 | unmount moves a mounted component to unmounted, unsubscribes the registered listener exactly once, and leaves the cells and the outstanding call alone |
| `Auth.Step` | apps/web/src/providers/Auth.tsx:74-110 | only mount and unmount move the lifecycle phase, one step forward; only a delivered session (a getSession result or a notification) changes session or user; no call count goes down |
| `Auth.Run` | apps/web/src/providers/Auth.tsx:74-110 | over any sequence of events the phase never goes back and no call count goes down; events that deliver no session leave session and user as they were |
| `Auth.InitialWellformed` | apps/web/src/providers/Auth.tsx:69-71 | the first-render state (session null, user null, loading) satisfies the lifecycle invariant |
| `Auth.StepPreservesWellformed` | apps/web/src/providers/Auth.tsx:74-110 | every event keeps the invariant: loading iff not yet mounted or getSession outstanding; getSession called and listener registered once at mount and only with a provider; unsubscribe called once at unmount; nothing set without a provider |
| `Auth.RunPreservesWellformed` | apps/web/src/providers/Auth.tsx:74-110 | the invariant holds after any sequence of events |
| `Auth.RunLeavesRendered` | apps/web/src/providers/Auth.tsx:74-97 | once the effects have run, the component never returns to the first-render phase |
| `Auth.NoProviderNeverContactsBackend` | apps/web/src/providers/Auth.tsx:74-101 | without a provider, after mount loading is over, and whatever happens getSession is never called, no listener is registered or unsubscribed, and session and user stay null |
| `Auth.GetSessionOutcomes` | apps/web/src/providers/Auth.tsx:79-94 | loading ends whether getSession resolves or throws; a throw keeps session and user; a result replaces the session and sets the user only when the result has one |
| `Auth.ChangeRestoresAgreement` | apps/web/src/providers/Auth.tsx:102-105 | after a change notification the user is null or the session's user |
| `Auth.ResolvedAgreement` | apps/web/src/providers/Auth.tsx:82-88 | a getSession result keeps user and session agreeing iff no user was set or the result has a user |
| `Auth.ChangesAreLastWriteWins` | apps/web/src/providers/Auth.tsx:102-105 | after any non-empty run of notifications, session is the last payload and user its user; the listener stays registered |
| `Auth.NullSessionKeepsUser` | apps/web/src/providers/Auth.tsx:79-105 | mount, sign-in notification, then getSession resolving null: user still set, session null, isAuthenticated false |
| `Auth.LateGetSessionOverwritesChange` | apps/web/src/providers/Auth.tsx:79-105 | a getSession result arriving after a notification replaces the notified session |
| `Auth.CompletionAfterTeardownApplies` | apps/web/src/providers/Auth.tsx:79-110 | after unmount (one unsubscribe call) a getSession result still calls the setters, so the modelled session and loading cells change; React discards those updates |
| `Auth.Invoke` | apps/web/src/providers/Auth.tsx:117-123 | with a provider each operation is the provider's; without one it resolves to error {"Auth disabled", 500} in the operation's own shape, with user and session null |
| `Auth.ValueOf` | apps/web/src/providers/Auth.tsx:112-116 | the context carries the three cells and the provider; isAuthenticated iff the session is non-null and has a user |
| `Auth.AuthenticatedIffUser` | apps/web/src/providers/Auth.tsx:116 | while the user cell is the session's user, isAuthenticated iff a user is set |
| `Auth.UseAuthContext` | apps/web/src/providers/Auth.tsx:129-136 | throws, with its message, exactly outside a provider; otherwise returns the context unchanged |
| `Auth.AuthProvider.constructor` | apps/web/src/providers/Auth.tsx:59-71 | chooses the provider as `SelectProvider` does; session null, user null, isLoading true |
| `Auth.AuthProvider.Mount` | apps/web/src/providers/Auth.tsx:74-110 | both mount effects as `MountEffects`, keeping the invariant |
| `Auth.AuthProvider.CompleteGetSession` | apps/web/src/providers/Auth.tsx:82-92 | a resolved getSession as `SessionResolved`, keeping the invariant |
| `Auth.AuthProvider.FailGetSession` | apps/web/src/providers/Auth.tsx:89-93 | a thrown getSession as `SessionFailed`, keeping the invariant |
| `Auth.AuthProvider.NotifyAuthStateChange` | apps/web/src/providers/Auth.tsx:102-105 | a notification as `Changed`; when the listener is registered, user and session agree afterwards |
| `Auth.AuthProvider.Unmount` | apps/web/src/providers/Auth.tsx:107-109 | teardown as `Teardown`: the registered listener is unsubscribed |
| `Auth.AuthProvider.Value` | apps/web/src/providers/Auth.tsx:112-116 | the context value of the current cells |
| `ConfigFields.Change` | apps/web-v2/src/components/config-fields/index.tsx:39-42 | always clears the error and stores the argument |
| `ConfigFields.JsonEdit` | apps/web-v2/src/components/config-fields/index.tsx:44-63 | blank text: undefined, no error; parseable: the parsed value, no error; otherwise the raw text with "Invalid JSON format" |
| `ConfigFields.Format` | apps/web-v2/src/components/config-fields/index.tsx:65-76 | parseable: the parsed value, no error; otherwise the error is set and the value kept |
| `ConfigFields.NumberEdit` | apps/web-v2/src/components/config-fields/index.tsx:126-139 | "" clears the value and error; a number is stored and the error cleared; text that is NaN changes nothing |
| `ConfigFields.FormatDisabled` | apps/web-v2/src/components/config-fields/index.tsx:223 | Format is enabled iff the value is a non-empty string and no error is set |
| `ConfigFields.FormatClick` | apps/web-v2/src/components/config-fields/index.tsx:221-223 | a click on the disabled button changes nothing; on the enabled one, text that parses replaces the value and clears the error, other text sets the error and keeps the value |
| `ConfigFields.Display` | apps/web-v2/src/components/config-fields/index.tsx:202-206 | a string value is shown verbatim, anything else as its JSON text or "" |
| `ConfigFields.HandlersKeepErrorWellformed` | apps/web-v2/src/components/config-fields/index.tsx:37-76 | every handler leaves the error null or "Invalid JSON format" |
| `ConfigFields.InvalidTextIsEchoed` | apps/web-v2/src/components/config-fields/index.tsx:57-62 | invalid non-blank text is shown back exactly as typed, with the error set |
| `ConfigFields.FormatAfterJsonEdit` | apps/web-v2/src/components/config-fields/index.tsx:44-63 | after a JSON edit Format is enabled iff the text parses to a non-empty string |
| `ConfigFields.FormatIdempotent` | apps/web-v2/src/components/config-fields/index.tsx:65-76 | formatting the same text twice equals formatting it once |
| `ConfigFields.ConfigField.constructor` | apps/web-v2/src/components/config-fields/index.tsx:37 | the error cell starts null |
| `ConfigFields.ConfigField.HandleChange` | apps/web-v2/src/components/config-fields/index.tsx:39-42 | updates the cells as `Change` |
| `ConfigFields.ConfigField.HandleJsonChange` | apps/web-v2/src/components/config-fields/index.tsx:44-63 | updates the cells as `JsonEdit` |
| `ConfigFields.ConfigField.HandleFormatJson` | apps/web-v2/src/components/config-fields/index.tsx:65-76 | updates the cells as `Format` |
| `ConfigFields.ConfigField.HandleNumberInput` | apps/web-v2/src/components/config-fields/index.tsx:126-139 | updates the cells as `NumberEdit` |
| `ConfigFields.ConfigField.ClickFormat` | apps/web-v2/src/components/config-fields/index.tsx:218-223 | a disabled button does nothing; an enabled one formats the current text |
| `Deployments.MissingGraphWarning` | apps/web/src/lib/environment/deployments.ts:17-25 | the missing-graph warning is the browser wording exactly when `window` exists, the server wording otherwise, and never the multiple-defaults warning |
| `Deployments.SourceText` | apps/web/src/lib/environment/deployments.ts:9-11 | a missing or empty variable is parsed as "[]", any other value as itself |
| `Deployments.ScanDeployments` | apps/web/src/lib/environment/deployments.ts:12-34 | returns the list unchanged and emits exactly `ExpectedWarnings`: the missing-graph warning if the first default lacks a graph, then one "multiple defaults" warning per later default; the final `defaultExists` is true iff some deployment is marked default |
| `Deployments.GetDeployments` | apps/web/src/lib/environment/deployments.ts:7-35 | the parsed list (none when JSON.parse throws) with its expected warnings |
| `Deployments.WarningCounts` | apps/web/src/lib/environment/deployments.ts:13-31 | max(0, defaults - 1) "multiple defaults" warnings; at most one missing-graph warning, present iff the first default has no graph id, worded only by whether `window` exists |
| `Deployments.SomeDefaultIffCount` | apps/web/src/lib/environment/deployments.ts:13-27 | the number of deployments marked default is positive iff some deployment is marked default (what `ScanDeployments` uses to state its final flag) |
| `Deployments.FirstDefaultIsEarliest` | apps/web/src/lib/environment/deployments.ts:13-27 | the deployment checked for a graph is the earliest one marked default |
| `Deployments.MissingVariableGivesEmptyList` | apps/web/src/lib/environment/deployments.ts:9-11 | a missing or empty variable gives the text "[]", and the empty list gives no warning |
| `ApiKeys.PropertiesAreDistinct` | apps/web/src/hooks/use-api-keys.tsx:4-57 | there are ten settings, with distinct property names |
| `ApiKeys.StorageKeysAreDistinct` | apps/web/src/hooks/use-api-keys.tsx:4-43 | the ten settings are read from ten distinct storage keys |
| `ApiKeys.StorageKeysArePrefixed` | apps/web/src/hooks/use-api-keys.tsx:4-43 | every storage key starts with `lg:settings:` |
| `ApiKeys.Stored` | apps/web/src/hooks/use-api-keys.tsx:4-43 | a setting read from local storage is what is stored under its key, or "" when nothing is |
| `ApiKeys.UseApiKeys` | apps/web/src/hooks/use-api-keys.tsx:3-59 | each property in order holds what its key stores, else "" |
| `ApiKeys.DefaultsAreEmpty` | apps/web/src/hooks/use-api-keys.tsx:4-43 | with nothing stored every key is "" |
| `ApiKeys.IsSet` | apps/web/src/hooks/use-api-keys.tsx:69 | `key && key.trim() !== ""` holds iff `key` has a character that is not white space |
| `ApiKeys.Values` | apps/web/src/hooks/use-api-keys.tsx:69 | `Object.values` keeps every value, in order |
| `ApiKeys.AnySet` | apps/web/src/hooks/use-api-keys.tsx:69 | `some` is true iff some value passes the test |
| `ApiKeys.AnySetIffSomeNonBlank` | apps/web/src/hooks/use-api-keys.tsx:69 | `some(key => key && key.trim() !== "")` iff some value has a non-white-space character |
| `ApiKeys.UseHasApiKeys` | apps/web/src/hooks/use-api-keys.tsx:66-70 | true iff some stored key has a non-white-space character |
| `ApiKeys.NothingStoredMeansNoKeys` | apps/web/src/hooks/use-api-keys.tsx:4-69 | with all keys at their default the result is false |
| `ApiKeys.BlankKeysNeverCount` | apps/web/src/hooks/use-api-keys.tsx:69 | white-space-only values never make the result true |
| `ApiKeys.OneNonBlankKeySuffices` | apps/web/src/hooks/use-api-keys.tsx:69 | storing one non-blank key makes the result true whatever the others hold |

## Left out

- React scheduling: effects, renders and promise completions are explicit events in a caller-chosen order. StrictMode's double effects are not modelled.
- Auth.AuthProvider.constructor: the provider is fixed per component instance. The code re-evaluates `customAuthProvider || createDefaultAuthProvider()` on every render (apps/web/src/providers/Auth.tsx:67), so without a custom provider each render builds a new default provider, and the `[provider]` effects may tear down and re-run. That re-creation is not modelled.
- The provider's internals (the Supabase provider, its change notifier and the delivery of events after unsubscribe) are foreign code. A change notification reaches the state only while the listener is registered.
- `console.error` in `initializeAuth` and the `console.warn` texts beyond which warning is emitted (their strings are in `Deployments.Message`).
- URL resolution (section 4.4 of the WHATWG URL Standard) and query serialisation (section 5.2 of the WHATWG URL Standard): a location is a path, the base URL it is resolved against and an `error` value. An absolute or protocol-relative `redirect` resolves to another origin; open-redirect safety is not claimed.
- Callback.Decide: assumes `new URL(redirectTo, requestUrl.origin)` (apps/web/src/app/api/auth/callback/route.ts:42) succeeds. When the URL parser rejects `redirect` (for instance `http://`), the handler throws a TypeError instead of redirecting, after the exchange block if a code was given. The model returns the success location there, and that failure is not modelled.
- Deployments.GetDeployments: `parse` gives the deployment list or None for a throw. A JSON value that is not an array of deployments is not modelled.
- Numbers are reals: NaN never reaches the field's value, and infinities and negative zero are not represented.
- `JSON.parse`, `JSON.stringify` and `Number` are oracles. Objects and arrays are opaque values, so what "formatting" prints is not modelled.
- In the configuration field, the text, textarea, switch, slider and select inputs pass their value straight to `handleChange` (`ConfigFields.Change`). The slider's `(min + max) / 2` default is float arithmetic and is left out, as are labels and other rendering.
- `useLocalStorage` persistence: storage is a map of strings. Stored values that are not strings are not modelled.
- apps/web/src/features/settings/index.tsx (settings form and model fetch), apps/web/next.config.mjs and apps/web/src/app/(app)/agents/page.tsx are not part of this model.
