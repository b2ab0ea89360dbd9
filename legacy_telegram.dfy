/**
 * `ParallelixTelegram` of the older revision: it only picks its handlers;
 * detection and `Initialize()` are the base wrapper's.
 */
module LegacyTelegram {
  import opened Js
  import opened Callbacks
  import Wrapper

  class TelegramAdapter {
    var options: JsValue
    var onError: Handler
    var onInitialized: Handler
    var calls: seq<Call>

    /** `new ParallelixTelegram(options = {})`: the options are kept as given. */
    constructor (options: JsValue)
      ensures this.options == WithDefault(options, EmptyObject)
      ensures onError == SelectHandler(WithDefault(options, EmptyObject), "OnError", LogDefault("telegram"))
      ensures onInitialized == SelectHandler(WithDefault(options, EmptyObject), "OnInitialized", LogDefault("telegram"))
      ensures calls == []
    {
      var given := WithDefault(options, EmptyObject);
      this.options := given;
      onError := SelectHandler(given, "OnError", LogDefault("telegram"));
      onInitialized := SelectHandler(given, "OnInitialized", LogDefault("telegram"));
      calls := [];
    }

    /** The inherited `Initialize()`: calls `OnInitialized()` with no argument. */
    method Initialize()
      modifies this`calls
      ensures calls == old(calls) + [Wrapper.Initialize(onInitialized)]
      ensures calls[|calls| - 1].arg.NoArgument?
    {
      calls := calls + [Wrapper.Initialize(onInitialized)];
    }
  }
}
