/** TaskErrorHandler's two flags over the runtime's stack of installed
    error handlers: `set_error_handler` pushes, `restore_error_handler` pops. */
module Interception {

  /** An installed error handler: the loop's `intercept`, or one installed by
      code outside the loop. */
  datatype Handler = Interceptor | Foreign(name: string)

  datatype HandlerState = HandlerState(isOn: bool, isRegistered: bool, stack: seq<Handler>)

  /** A handler that is off and not registered, over whatever stack the
      runtime already has. */
  function Initial(stack: seq<Handler>): HandlerState {
    HandlerState(false, false, stack)
  }

  function On(h: HandlerState): (r: HandlerState)
    ensures r.isOn && r.isRegistered == h.isRegistered && r.stack == h.stack
  {
    h.(isOn := true)
  }

  function Off(h: HandlerState): (r: HandlerState)
    ensures !r.isOn && r.isRegistered == h.isRegistered && r.stack == h.stack
  {
    h.(isOn := false)
  }

  /** `register`: installs `intercept` once, and only while switched on. */
  function Register(h: HandlerState): HandlerState {
    if h.isOn && !h.isRegistered then h.(isRegistered := true, stack := h.stack + [Interceptor]) else h
  }

  /** `restore`: pops the runtime's stack whenever the handler was ever
      registered; the flag itself stays set. */
  function Restore(h: HandlerState): HandlerState {
    if h.isRegistered && |h.stack| > 0 then h.(stack := h.stack[..|h.stack| - 1]) else h
  }

  /** A runtime fault reaches `intercept` exactly when it is the handler on top. */
  predicate Intercepting(h: HandlerState) {
    |h.stack| > 0 && h.stack[|h.stack| - 1] == Interceptor
  }

  /** `register` pushes the interceptor and sets the flag exactly when the
      handler is on and not yet registered; otherwise nothing changes. */
  lemma RegisterEffect(h: HandlerState)
    ensures h.isOn && !h.isRegistered ==>
              Register(h).isRegistered && Register(h).stack == h.stack + [Interceptor] && Register(h).isOn
    ensures !(h.isOn && !h.isRegistered) ==> Register(h) == h
    ensures h.isOn && !h.isRegistered ==> Intercepting(Register(h))
  {
  }

  /** Two consecutive `register` calls push at most one handler. */
  lemma RegisterIdempotent(h: HandlerState)
    ensures Register(Register(h)) == Register(h)
    ensures |Register(h).stack| <= |h.stack| + 1
  {
  }

  /** `restore` pops the stack if and only if the handler was registered
      (over a non-empty stack), and never touches the flags. */
  lemma RestoreEffect(h: HandlerState)
    ensures Restore(h).isOn == h.isOn && Restore(h).isRegistered == h.isRegistered
    ensures h.isRegistered && |h.stack| > 0 ==> Restore(h).stack == h.stack[..|h.stack| - 1]
    ensures !h.isRegistered ==> Restore(h) == h
  {
  }

  /** Switched on, `register` then `restore` gives the runtime its stack
      back, but the handler stays flagged as registered. */
  lemma RegisterRestoreRoundTrip(h: HandlerState)
    requires h.isOn && !h.isRegistered
    ensures Restore(Register(h)).stack == h.stack
    ensures Restore(Register(h)).isRegistered
  {
    assert (h.stack + [Interceptor])[..|h.stack|] == h.stack;
  }

  /** After one register/restore cycle the handler can never be installed
      again, while every further `restore` still pops a handler it did not
      push. */
  lemma RegisterAfterCycle(h: HandlerState)
    requires h.isOn && !h.isRegistered
    ensures var c := Restore(Register(h));
      Register(c) == c && (|c.stack| > 0 ==> Restore(c).stack == c.stack[..|c.stack| - 1])
  {
  }

  lemma OnOffFrame(h: HandlerState)
    ensures Off(On(h)) == h.(isOn := false)
    ensures Register(Off(h)) == Off(h)
  {
  }
}
