/** `ParallelixVK` of the older revision: a stub that claims every environment. */
module LegacyVK {
  import opened Js
  import opened Callbacks

  /** `IsCurrentPlatform()`: always true. */
  predicate IsCurrentPlatform() {
    true
  }

  class VKAdapter {
    var options: JsValue
    var onError: Handler
    var onInitialized: Handler
    var calls: seq<Call>

    /** `new ParallelixVK(options = {})`: the options are copied over empty defaults. */
    constructor (options: JsValue)
      ensures this.options == Extend(map[], WithDefault(options, EmptyObject))
      ensures onError == SelectHandler(WithDefault(options, EmptyObject), "OnError", LogDefault("vk"))
      ensures onInitialized == SelectHandler(WithDefault(options, EmptyObject), "OnInitialized", LogDefault("vk"))
      ensures calls == []
    {
      var given := WithDefault(options, EmptyObject);
      this.options := Extend(map[], given);
      onError := SelectHandler(given, "OnError", LogDefault("vk"));
      onInitialized := SelectHandler(given, "OnInitialized", LogDefault("vk"));
      calls := [];
    }

    /** `Initialize()`: calls `OnInitialized()` with no argument and nothing else. */
    method Initialize()
      modifies this`calls
      ensures calls == old(calls) + [Call(onInitialized, NoArgument)]
    {
      calls := calls + [Call(onInitialized, NoArgument)];
    }
  }
}
