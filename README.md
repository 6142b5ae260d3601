# Torii authenticator of Ember Simple Auth, in Dafny

This project models the Torii authenticator of Ember Simple Auth
(`packages/ember-simple-auth/src/authenticators/torii.js`). The authenticator
adapts the torii library to Ember Simple Auth's authenticator interface:

- `authenticate` opens a torii provider;
- `restore` asks torii to fetch a session back from stored data;
- `invalidate` closes the provider.

Between those calls it remembers, in the one mutable field `_provider`, which
torii provider the current session uses. Invalidate closes that provider.

The model has four modules:

- `Wrappers` holds `Option` and `Result`.
- `JsValues` holds the JavaScript values the authenticator handles and the
  operations it uses on them. A plain object is a `map<string, Value>`. The
  module defines Ember's `isEmpty`, property reads and writes, and
  `Object.assign`.
- `Torii` holds one pure effect function per operation and the class
  `ToriiAuthenticator`. Each effect function states how the operation settles,
  which torii call it makes and which provider is recorded afterwards. The
  class holds the mutable `provider` field (the source's `_provider`). Each of
  its methods is proved equal to its effect function.
- `ToriiLifecycle` follows the recorded provider over any sequence of calls.
  Replaying the calls one after another always leaves recorded the value
  written by the last call that wrote one. So `invalidate` closes the provider
  of the last successful authenticate or restore, unless a later restore
  that finds no provider, a restore whose fetch rejects, or a successful
  invalidate cleared it.

The torii service is foreign and asynchronous. Each call to it is modelled in
two parts: the call the authenticator makes (`Torii.Call`, with its exact
arguments) and the way the service settles. The caller passes that outcome in
as a parameter. Promises become `Torii.Settled`:

- resolved with a value;
- rejected with a reason, where `Promise.reject()` is a rejection with reason
  `undefined`;
- thrown synchronously.

The field starts as `null` (`Null`). `delete this._provider` leaves it
`undefined` (`Undefined`). The model keeps these two values apart, because
`close` receives whichever one the field holds.

Only two places clear `_provider` in `restore`: the rejection handler of
`fetch` (torii.js:78-81) and the branch for data without a provider
(torii.js:83-86). Suppose `open` or `fetch` resolves with something that is
not an object (null, undefined or a primitive). Then `data.provider = provider`
throws a TypeError inside the first `.then` callback (class bodies are strict
mode). The rejection handler given to the same `.then` does not catch it. So
that restore or authenticate rejects with the TypeError and leaves `_provider`
as it was.

## Model

| member | source | states |
|---|---|---|
| `JsValues.SetProperty` | packages/ember-simple-auth/src/authenticators/torii.js:133 | writing a property creates or overwrites that key and leaves every other key as it was |
| `JsValues.Assign` | packages/ember-simple-auth/src/authenticators/torii.js:76 | `Object.assign` is a right-biased union: the keys of both objects, each source key overriding, the other target keys kept |
| `Torii.Stamp` | packages/ember-simple-auth/src/authenticators/torii.js:132-135 | stamping session data adds `provider` with the given value and keeps every other key; a non-object cannot be stamped and throws a TypeError |
| `Torii.RestoreEffect` | packages/ember-simple-auth/src/authenticators/torii.js:64-87 | missing data or an empty `provider` rejects with no reason, skips `fetch` and clears the provider. Otherwise `fetch` gets exactly the stored provider and data. A failed fetch rejects with the same reason and clears the provider. A successful fetch resolves with the stored data overridden by every fetched key, while `provider` stays the stored one, and records that provider. A non-object fetch result rejects with a TypeError and records nothing |
| `Torii.AuthenticateEffect` | packages/ember-simple-auth/src/authenticators/torii.js:103-112 | `open` gets the provider and the options, or an empty object when none are given. A successful open resolves with the opened data plus `provider = p` and records `p`. A failed open rejects with the same reason and keeps the recorded provider. A non-object result rejects with a TypeError and keeps it |
| `Torii.InvalidateEffect` | packages/ember-simple-auth/src/authenticators/torii.js:124-130 | `close` gets the recorded provider and the data unchanged. Success clears the provider. Failure rejects with the same reason and keeps it. With no torii there is no presence check, and the call throws a TypeError |
| `Torii.ToriiAuthenticator.constructor` | packages/ember-simple-auth/src/authenticators/torii.js:38-39 | a new authenticator records `null` |
| `Torii.ToriiAuthenticator.AuthenticateWithProvider` | packages/ember-simple-auth/src/authenticators/torii.js:132-135 | stamps the data as `Torii.Stamp` does and records the provider only when the stamping succeeds |
| `Torii.ToriiAuthenticator.Restore` | packages/ember-simple-auth/src/authenticators/torii.js:64-87 | requires torii to be present; its outcome, its torii call and the new `provider` field are those of `Torii.RestoreEffect` on the old field |
| `Torii.ToriiAuthenticator.Authenticate` | packages/ember-simple-auth/src/authenticators/torii.js:103-112 | requires torii to be present; its outcome, its torii call and the new `provider` field are those of `Torii.AuthenticateEffect` on the old field |
| `Torii.ToriiAuthenticator.Invalidate` | packages/ember-simple-auth/src/authenticators/torii.js:124-130 | has no torii requirement; its outcome, its torii call and the new `provider` field are those of `Torii.InvalidateEffect` on the old field |
| `ToriiLifecycle.StepWrites` | packages/ember-simple-auth/src/authenticators/torii.js:75-134 | each operation either records exactly what it writes (the stored or given provider, or undefined when it deletes it) or leaves the recorded provider alone |
| `ToriiLifecycle.RunIsLastWrite` | packages/ember-simple-auth/src/authenticators/torii.js:64-135 | after any sequence of calls, the recorded provider is the value written by the last call that wrote one |
| `ToriiLifecycle.QuietSuffixKeepsWrite` | packages/ember-simple-auth/src/authenticators/torii.js:64-135 | calls that write nothing, made after a writing call, leave that call's value recorded |
| `ToriiLifecycle.InvalidateClosesLastWritten` | packages/ember-simple-auth/src/authenticators/torii.js:124-130 | invalidate closes the provider written by the last writing call, whatever non-writing calls came in between |
| `ToriiLifecycle.InvalidateAfterAuthenticateClosesIt` | packages/ember-simple-auth/src/authenticators/torii.js:103-130 | after `authenticate(p)` succeeds, a later invalidate closes `p`, with only non-writing calls in between |
| `ToriiLifecycle.InvalidateAfterFailedRestoreClosesUndefined` | packages/ember-simple-auth/src/authenticators/torii.js:78-130 | after a restore whose fetch fails, a later invalidate closes an undefined provider, with only non-writing calls in between |

## Left out

- `packages/classic-test-app/app/services/session-account.js` (`loadCurrentUser`) is not part of this model. It reads an account id and awaits the foreign store's `findRecord`, with no logic beyond a presence check.
- `packages/test-app/server/demo-api.js` is not part of this model. It is an Express bootstrap and network listener.
- The module-level `deprecate(...)` call and the text of the torii-presence assertion are diagnostics only. Torii presence is a `requires` clause on `Restore` and `Authenticate`.
- Restore and Authenticate without torii are not modelled. Production builds strip Ember assertions. Then `authenticate`, and `restore` on data with a non-empty provider, throw a TypeError when they reach for the missing service. `restore` on data without a provider never touches torii: it still clears the provider and rejects with no reason.
- Asynchrony is not modelled, and nor is Ember's `this.get`. Each torii call's settled outcome is a parameter.
- Object identity and aliasing are not modelled. In the source, restore resolves with the caller's own `data` object, mutated in place, and authenticate with the object torii returned. The model returns the resulting map as a value. It also assumes that torii's `fetch` does not mutate the data it is given.
- Torii.RestoreEffect: a truthy non-object argument to restore is treated like a missing one (`None`). In the source it also has no `provider` and so also rejects with no reason.
- Torii.AuthenticateEffect: `options` is either an object or missing (`None`, the falsy case). A truthy primitive passed as options is not modelled.
- JavaScript numbers are unbounded integers in the model (no floating point).
- `JsValues.Obj` stands for objects with neither a numeric `size` nor a numeric `length`. Ember's `isEmpty` would look at those, and provider values of that kind are not modelled.
- Getters, setters and prototype-chain properties on session data are not modelled. A property read sees only the object's own keys.
- Lifecycle traces assume torii is injected. Without it, only `invalidate` can run, and it throws before touching the provider (`Torii.InvalidateEffect`).
