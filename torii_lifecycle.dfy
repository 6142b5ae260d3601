/**
  The provider an authenticator remembers across a whole session. The host
  session manager calls `authenticate`, `restore` and `invalidate` one at a
  time; the authenticator holds exactly one provider, which each successful
  authenticate or restore overwrites and which a restore that finds no
  provider, a restore whose fetch rejects, or a successful invalidate
  clears. Closing therefore always names the provider written by the
  last operation that wrote one.

  The traces here are of an authenticator with torii injected: without it,
  restore and authenticate fail their presence assertion and invalidate
  throws before touching the provider.
 */
module ToriiLifecycle {
  import opened Wrappers
  import opened JsValues
  import opened Torii

  /** One call of the host session manager, with how torii settles it. */
  datatype Operation =
    | RestoreOp(data: Option<Data>, fetched: Fetched)
    | AuthenticateOp(provider: Value, options: Option<Data>, openResult: Fetched)
    | InvalidateOp(session: Option<Data>, closeResult: Result<(), Value>)

  /** The provider recorded after `op`, applied when `recorded` is recorded. */
  function NextProvider(recorded: Value, op: Operation): Value {
    match op
    case RestoreOp(data, fetched) => RestoreEffect(recorded, data, fetched).provider
    case AuthenticateOp(p, options, openResult) => AuthenticateEffect(recorded, p, options, openResult).provider
    case InvalidateOp(session, closeResult) => InvalidateEffect(true, recorded, session, closeResult).provider
  }

  /** The provider after running `ops` one after the other from `recorded`. */
  function Run(recorded: Value, ops: seq<Operation>): Value
    decreases |ops|
  {
    if ops == [] then recorded else Run(NextProvider(recorded, ops[0]), ops[1..])
  }

  /**
    What `op` writes to the recorded provider, read off the source's rules
    rather than off the effect functions: `Some(v)` when it records `v`
    (undefined when it deletes it), `None` when it leaves it alone.
   */
  function Write(op: Operation): Option<Value> {
    match op
    case RestoreOp(data, fetched) =>
      if !CanRestore(data) || fetched.Failure? then Some(Undefined)
      else if fetched.value.Some? then Some(data.value[ProviderKey])
      else None
    case AuthenticateOp(p, _, openResult) =>
      if openResult.Success? && openResult.value.Some? then Some(p) else None
    case InvalidateOp(_, closeResult) =>
      if closeResult.Success? then Some(Undefined) else None
  }

  /** The value written by the last writing operation of `ops`, or `initial` if none writes. */
  function LastWrite(initial: Value, ops: seq<Operation>): Value
    decreases |ops|
  {
    if ops == [] then initial
    else
      match Write(ops[|ops| - 1])
      case Some(v) => v
      case None => LastWrite(initial, ops[..|ops| - 1])
  }

  /** No operation of `ops` writes the recorded provider. */
  predicate Quiet(ops: seq<Operation>) {
    forall i :: 0 <= i < |ops| ==> Write(ops[i]).None?
  }

  /** One step: an operation records what it writes, or keeps what was recorded. */
  lemma StepWrites(recorded: Value, op: Operation)
    ensures NextProvider(recorded, op) == match Write(op) case Some(v) => v case None => recorded
  {
  }

  /** Running `ops` and then `op` is running `op` after the run of `ops`. */
  lemma {:induction false} RunSnoc(recorded: Value, ops: seq<Operation>, op: Operation)
    ensures Run(recorded, ops + [op]) == NextProvider(Run(recorded, ops), op)
    decreases |ops|
  {
    if ops != [] {
      assert (ops + [op])[1..] == ops[1..] + [op];
      RunSnoc(NextProvider(recorded, ops[0]), ops[1..], op);
    }
  }

  /** The authenticator never forgets: after any trace it holds what the last writer wrote. */
  lemma {:induction false} RunIsLastWrite(initial: Value, ops: seq<Operation>)
    ensures Run(initial, ops) == LastWrite(initial, ops)
    decreases |ops|
  {
    if ops != [] {
      var front, last := ops[..|ops| - 1], ops[|ops| - 1];
      assert ops == front + [last];
      RunIsLastWrite(initial, front);
      RunSnoc(initial, front, last);
      StepWrites(Run(initial, front), last);
    }
  }

  /** Operations that write nothing after a writer leave its value in place. */
  lemma {:induction false} QuietSuffixKeepsWrite(initial: Value, before: seq<Operation>, writer: Operation, after: seq<Operation>)
    requires Write(writer).Some?
    requires Quiet(after)
    ensures LastWrite(initial, before + [writer] + after) == Write(writer).value
    decreases |after|
  {
    var ops := before + [writer] + after;
    if after == [] {
      assert ops[..|ops| - 1] == before;
    } else {
      var front := after[..|after| - 1];
      assert ops[..|ops| - 1] == before + [writer] + front;
      assert ops[|ops| - 1] == after[|after| - 1];
      assert Quiet(front) by {
        forall i | 0 <= i < |front| ensures Write(front[i]).None? {
          assert front[i] == after[i];
        }
      }
      QuietSuffixKeepsWrite(initial, before, writer, front);
    }
  }

  /**
    Invalidate closes the provider written by the last writing operation,
    however many non-writing operations came in between.
   */
  lemma InvalidateClosesLastWritten(initial: Value, before: seq<Operation>, writer: Operation, after: seq<Operation>,
                                    session: Option<Data>, closeResult: Result<(), Value>)
    requires Write(writer).Some?
    requires Quiet(after)
    ensures InvalidateEffect(true, Run(initial, before + [writer] + after), session, closeResult).call
            == Some(Close(Write(writer).value, session))
  {
    RunIsLastWrite(initial, before + [writer] + after);
    QuietSuffixKeepsWrite(initial, before, writer, after);
  }

  /**
    After `authenticate(p, ...)` succeeds, a later invalidate closes `p`,
    whatever non-writing calls (a rejected open, a rejected close, a restore
    whose fetch resolves with a non-object) came in between.
   */
  lemma InvalidateAfterAuthenticateClosesIt(initial: Value, before: seq<Operation>, p: Value, options: Option<Data>,
                                            openedData: Data, after: seq<Operation>,
                                            session: Option<Data>, closeResult: Result<(), Value>)
    requires Quiet(after)
    ensures InvalidateEffect(true, Run(initial, before + [AuthenticateOp(p, options, Success(Some(openedData)))] + after),
                             session, closeResult).call
            == Some(Close(p, session))
  {
    InvalidateClosesLastWritten(initial, before, AuthenticateOp(p, options, Success(Some(openedData))), after, session, closeResult);
  }

  /**
    After a restore whose fetch fails, a later invalidate closes a cleared
    (undefined) provider, whatever non-writing calls came in between.
   */
  lemma InvalidateAfterFailedRestoreClosesUndefined(initial: Value, before: seq<Operation>, data: Option<Data>, reason: Value,
                                                  after: seq<Operation>,
                                                  session: Option<Data>, closeResult: Result<(), Value>)
    requires Quiet(after)
    ensures InvalidateEffect(true, Run(initial, before + [RestoreOp(data, Failure(reason))] + after),
                             session, closeResult).call
            == Some(Close(Undefined, session))
  {
    InvalidateClosesLastWritten(initial, before, RestoreOp(data, Failure(reason)), after, session, closeResult);
  }
}
