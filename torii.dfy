/**
  The Torii authenticator: an adapter that delegates `authenticate`,
  `restore` and `invalidate` to the torii service (`open`, `fetch`,
  `close`) and remembers, in one mutable field, which torii provider the
  current session was opened with.

  The torii service is foreign and asynchronous. Each of its calls is
  represented by the call the authenticator makes (`Call`) and by the
  outcome the service settles with, which the caller supplies as a
  parameter. The effect functions below state what each operation does
  with that outcome; the class `ToriiAuthenticator` carries out the same
  operations on its field and is proved against them.
 */
module Torii {
  import opened Wrappers
  import opened JsValues

  /** The key under which session data names the torii provider. */
  const ProviderKey: string := "provider"

  /** A call the authenticator makes on the torii service. */
  datatype Call =
    | Open(provider: Value, options: Data)
    | Fetch(provider: Value, data: Data)
    | Close(provider: Value, session: Option<Data>)

  /**
    How an operation settles: its promise resolves or rejects, or the
    operation throws before it can return a promise.
   */
  datatype Settled<+T> = Resolved(value: T) | Rejected(reason: Value) | Threw(exception: Value)

  /** What one operation does: how it settles, the torii call it makes, the provider recorded afterwards. */
  datatype Effect<+T> = Effect(outcome: Settled<T>, call: Option<Call>, provider: Value)

  /**
    The outcome of `open` or `fetch` as the torii service settles it:
    resolved with an object (`Success(Some(fields))`), resolved with
    anything else such as null, undefined or a primitive
    (`Success(None)`), or rejected (`Failure(reason)`).
   */
  type Fetched = Result<Option<Data>, Value>

  /**
    `data || {}`: a missing or falsy argument to restore becomes an empty
    object. A truthy non-object is also modelled as `None`: it has no
    `provider` either, so restore rejects it in the same way.
   */
  function OrEmpty(data: Option<Data>): Data {
    match data
    case Some(d) => d
    case None => map[]
  }

  /** Restore may go ahead: the data names a provider that is not empty. */
  predicate CanRestore(data: Option<Data>) {
    !IsEmpty(GetProperty(OrEmpty(data), ProviderKey))
  }

  /**
    `_authenticateWithProvider(provider, data)` on values: stamps `data`
    with the provider. A non-object cannot take a property in strict
    mode, so the write throws a TypeError.
   */
  function Stamp(provider: Value, data: Option<Data>): (r: Result<Data, Value>)
    ensures data.None? ==> r == Failure(TypeError)
    ensures data.Some? ==>
      && r.Success?
      && r.value.Keys == data.value.Keys + {ProviderKey}
      && GetProperty(r.value, ProviderKey) == provider
      && forall k :: k in data.value && k != ProviderKey ==> r.value[k] == data.value[k]
  {
    match data
    case Some(d) => Success(SetProperty(d, ProviderKey, provider))
    case None => Failure(TypeError)
  }

  /**
    `restore(data)` when the provider recorded so far is `recorded` and
    `fetch` settles as `fetched`.
   */
  function RestoreEffect(recorded: Value, data: Option<Data>, fetched: Fetched): (e: Effect<Data>)
    // Without a non-empty provider: reject with no reason, no fetch, provider cleared.
    ensures !CanRestore(data) ==> e == Effect(Rejected(Undefined), None, Undefined)
    // Otherwise fetch is asked with exactly the stored provider and the stored data.
    ensures CanRestore(data) ==>
      ProviderKey in data.value && e.call == Some(Fetch(data.value[ProviderKey], data.value))
    // A failed fetch rejects with the same reason and clears the provider.
    ensures CanRestore(data) && fetched.Failure? ==>
      e.outcome == Rejected(fetched.error) && e.provider == Undefined
    // A fetch resolving with a non-object makes the stamping throw; nothing is recorded.
    ensures CanRestore(data) && fetched == Success(None) ==>
      e.outcome == Rejected(TypeError) && e.provider == recorded
    // A successful fetch: the stored data overridden by every fetched key,
    // except that the provider stays the stored one; that provider is recorded.
    ensures CanRestore(data) && fetched.Success? && fetched.value.Some? ==>
      var stored, got := data.value, fetched.value.value;
      && e.outcome.Resolved?
      && e.outcome.value.Keys == stored.Keys + got.Keys
      && (forall k :: k in got && k != ProviderKey ==> e.outcome.value[k] == got[k])
      && (forall k :: k in stored && k !in got ==> e.outcome.value[k] == stored[k])
      && e.outcome.value[ProviderKey] == stored[ProviderKey]
      && e.provider == stored[ProviderKey]
    // Resolved session data always names the provider now recorded.
    ensures e.outcome.Resolved? ==> GetProperty(e.outcome.value, ProviderKey) == e.provider
  {
    var stored := OrEmpty(data);
    if CanRestore(data) then
      var provider := stored[ProviderKey];
      var call := Some(Fetch(provider, stored));
      match fetched
      case Failure(reason) => Effect(Rejected(reason), call, Undefined)
      case Success(got) =>
        match Stamp(provider, got)
        case Failure(thrown) => Effect(Rejected(thrown), call, recorded)
        case Success(stamped) => Effect(Resolved(Assign(stored, stamped)), call, provider)
    else
      Effect(Rejected(Undefined), None, Undefined)
  }

  /**
    `authenticate(provider, options)` when the provider recorded so far is
    `recorded` and `open` settles as `openResult`.
   */
  function AuthenticateEffect(recorded: Value, provider: Value, options: Option<Data>, openResult: Fetched): (e: Effect<Data>)
    // open is always asked, with the given provider and the options or an empty object.
    ensures e.call == Some(Open(provider, OrEmpty(options)))
    // A failed open rejects with the same reason and leaves the recorded provider alone.
    ensures openResult.Failure? ==> e.outcome == Rejected(openResult.error) && e.provider == recorded
    // open resolving with a non-object makes the stamping throw; nothing is recorded.
    ensures openResult == Success(None) ==> e.outcome == Rejected(TypeError) && e.provider == recorded
    // A successful open resolves with the opened data stamped with the provider, and records it.
    ensures openResult.Success? && openResult.value.Some? ==>
      var got := openResult.value.value;
      && e.outcome.Resolved?
      && e.outcome.value.Keys == got.Keys + {ProviderKey}
      && (forall k :: k in got && k != ProviderKey ==> e.outcome.value[k] == got[k])
      && e.outcome.value[ProviderKey] == provider
      && e.provider == provider
    // Resolved session data always names the provider now recorded.
    ensures e.outcome.Resolved? ==> GetProperty(e.outcome.value, ProviderKey) == e.provider
  {
    var call := Some(Open(provider, OrEmpty(options)));
    match openResult
    case Failure(reason) => Effect(Rejected(reason), call, recorded)
    case Success(got) =>
      match Stamp(provider, got)
      case Failure(thrown) => Effect(Rejected(thrown), call, recorded)
      case Success(stamped) => Effect(Resolved(stamped), call, provider)
  }

  /**
    `invalidate(data)` when the provider recorded so far is `recorded`,
    torii is injected or not, and `close` settles as `closed`.
   */
  function InvalidateEffect(toriiInjected: bool, recorded: Value, data: Option<Data>, closed: Result<(), Value>): (e: Effect<()>)
    // There is no torii presence check: without torii, reaching for `close` throws.
    ensures !toriiInjected ==> e == Effect(Threw(TypeError), None, recorded)
    // close is asked for the recorded provider, with the data passed through unchanged.
    ensures toriiInjected ==> e.call == Some(Close(recorded, data))
    // A successful close resolves and clears the provider.
    ensures toriiInjected && closed.Success? ==> e.outcome == Resolved(()) && e.provider == Undefined
    // A failed close rejects with the same reason; the session keeps its provider.
    ensures toriiInjected && closed.Failure? ==>
      e.outcome == Rejected(closed.error) && e.provider == recorded
  {
    if !toriiInjected then
      Effect(Threw(TypeError), None, recorded)
    else
      var call := Some(Close(recorded, data));
      match closed
      case Success(_) => Effect(Resolved(()), call, Undefined)
      case Failure(reason) => Effect(Rejected(reason), call, recorded)
  }

  /**
    The authenticator object. `provider` is the source's `_provider`: null
    when the object is created, `undefined` once it has been deleted.
   */
  class ToriiAuthenticator {
    /** Whether the torii service has been injected into this authenticator. */
    const toriiInjected: bool
    var provider: Value

    constructor (toriiInjected: bool)
      ensures this.toriiInjected == toriiInjected
      ensures provider == Null
    {
      this.toriiInjected := toriiInjected;
      provider := Null;
    }

    /** Stamps `data` with `p` and records `p`; a non-object makes the stamping throw. */
    method AuthenticateWithProvider(p: Value, data: Option<Data>) returns (r: Result<Data, Value>)
      modifies this
      ensures r == Stamp(p, data)
      ensures provider == if data.Some? then p else old(provider)
    {
      if data.None? {
        return Failure(TypeError);
      }
      var stamped := SetProperty(data.value, ProviderKey, p);
      provider := stamped[ProviderKey];
      r := Success(stamped);
    }

    /** Restores a session from stored data, given how `fetch` settles. */
    method Restore(data: Option<Data>, fetched: Fetched) returns (outcome: Settled<Data>, call: Option<Call>)
      requires toriiInjected
      modifies this
      ensures Effect(outcome, call, provider) == RestoreEffect(old(provider), data, fetched)
    {
      var stored := OrEmpty(data);
      if CanRestore(data) {
        var p := stored[ProviderKey];
        call := Some(Fetch(p, stored));
        match fetched {
          case Failure(reason) =>
            provider := Undefined;
            outcome := Rejected(reason);
          case Success(got) =>
            var stamped := AuthenticateWithProvider(p, got);
            match stamped {
              case Failure(thrown) => outcome := Rejected(thrown);
              case Success(s) => outcome := Resolved(Assign(stored, s));
            }
        }
      } else {
        provider := Undefined;
        outcome, call := Rejected(Undefined), None;
      }
    }

    /** Authenticates with torii provider `p`, given how `open` settles. */
    method Authenticate(p: Value, options: Option<Data>, openResult: Fetched) returns (outcome: Settled<Data>, call: Option<Call>)
      requires toriiInjected
      modifies this
      ensures Effect(outcome, call, provider) == AuthenticateEffect(old(provider), p, options, openResult)
    {
      call := Some(Open(p, OrEmpty(options)));
      match openResult {
        case Failure(reason) =>
          outcome := Rejected(reason);
        case Success(got) =>
          var stamped := AuthenticateWithProvider(p, got);
          match stamped {
            case Failure(thrown) => outcome := Rejected(thrown);
            case Success(s) => outcome := Resolved(s);
          }
      }
    }

    /** Closes the recorded torii provider, given how `close` settles. */
    method Invalidate(data: Option<Data>, closed: Result<(), Value>) returns (outcome: Settled<()>, call: Option<Call>)
      modifies this
      ensures Effect(outcome, call, provider) == InvalidateEffect(toriiInjected, old(provider), data, closed)
    {
      if !toriiInjected {
        return Threw(TypeError), None;
      }
      call := Some(Close(provider, data));
      match closed {
        case Success(_) =>
          provider := Undefined;
          outcome := Resolved(());
        case Failure(reason) =>
          outcome := Rejected(reason);
      }
    }
  }
}
