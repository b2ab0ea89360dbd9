/**
 * Callbacks. The long-lived handlers (`OnError`, `OnInitialized`) of the
 * orchestrator and of each adapter are `Handler` values, and every time one
 * is invoked a `Call` is appended to its owner's log. The per-call
 * `onSuccess`/`onError` arguments of an adapter operation are modelled by the
 * `Reply` the operation returns.
 */
module Callbacks {
  import opened Js

  /** Who a handler is. */
  datatype Handler =
    | UserFunction(id: nat)   // the function supplied in the options
    | LogDefault(owner: string)  // the built-in logging fallback of `owner`
    | ForwardReady            // the orchestrator's `(data) => { log; self.OnInitialized(); }`

  datatype Arg =
    | NoArgument
    | Value(v: JsValue)
    | ErrorArg(message: string)

  /** One invocation of a long-lived handler. */
  datatype Call = Call(handler: Handler, arg: Arg)

  /** What a single operation did with its `onSuccess`/`onError` arguments. */
  datatype Reply =
    | Success(value: JsValue)  // onSuccess(value) was called, once
    | Failure(message: string) // onError(new Error(message)) was called, once
    | Deferred                 // a host request is outstanding; its answer arrives as a later event
    | NoCallback               // neither callback is called
    | Thrown(message: string)  // an exception escapes to the caller; neither callback is called

  /** `v && typeof v === "function" ? v : fallback`. */
  function HandlerFrom(v: JsValue, fallback: Handler): (h: Handler)
    ensures v.Func? ==> h == UserFunction(v.id)
    ensures !v.Func? ==> h == fallback
  {
    if IsFunction(v) then UserFunction(v.id) else fallback
  }

  /** `options?.key && typeof options?.key === "function" ? options.key : fallback`. */
  function SelectHandler(options: JsValue, key: string, fallback: Handler): Handler {
    HandlerFrom(Get(options, key), fallback)
  }
}
