/**
 * `ParallelixWeb` of the older revision. Its constructor expects the
 * orchestrator instance first and the options second, the flag it declares
 * is never set, and its launch parameters are read without any check.
 */
module LegacyWeb {
  import opened Common
  import opened Js
  import opened Browser
  import opened Callbacks
  import LaunchParams

  const Priority: int := 1000

  /** `IsCurrentPlatform()`: the web host is always current. */
  predicate IsCurrentPlatform() {
    true
  }

  class WebAdapter {
    var options: JsValue
    var platform: JsValue            // the constructor's first argument
    var isInitialized: bool
    var launchParams: Option<map<string, string>>
    var onError: Handler
    var onInitialized: Handler
    var calls: seq<Call>

    /**
     * `new ParallelixWeb(instance, options = {})`. Called with a single
     * argument, that argument lands in `platform`, the options are empty and
     * both handlers are the logging defaults.
     */
    constructor (instance: JsValue, options: JsValue)
      ensures this.options == Extend(map[], WithDefault(options, EmptyObject)) && platform == instance
      ensures onError == SelectHandler(WithDefault(options, EmptyObject), "OnError", LogDefault("web"))
      ensures onInitialized == SelectHandler(WithDefault(options, EmptyObject), "OnInitialized", LogDefault("web"))
      ensures options.Undefined? ==>
        this.options == EmptyObject && onError == LogDefault("web") && onInitialized == LogDefault("web")
      ensures !isInitialized && launchParams == None && calls == []
    {
      var given := WithDefault(options, EmptyObject);
      this.options := Extend(map[], given);
      platform := instance;
      isInitialized := false;
      launchParams := None;
      onError := SelectHandler(given, "OnError", LogDefault("web"));
      onInitialized := SelectHandler(given, "OnInitialized", LogDefault("web"));
      calls := [];
    }

    /** `Initialize()`: calls `OnInitialized({})` and leaves `isInitialized` false. */
    method Initialize()
      modifies this`calls
      ensures calls == old(calls) + [Call(onInitialized, Value(EmptyObject))]
    {
      calls := calls + [Call(onInitialized, Value(EmptyObject))];
    }

    /** `GetLaunchParams(onSuccess, onError)`: query pairs overlaid by fragment pairs, whatever the flag says. */
    method GetLaunchParams(env: Env) returns (r: Reply)
      modifies this`launchParams
      ensures launchParams == Some(LaunchParams.Merged(env.query, env.hash))
      ensures r == Success(LaunchParams.AsObject(launchParams.value))
    {
      var locationArgs := LaunchParams.CollectPairs(env.query);
      var hashArgs := LaunchParams.CollectPairs(env.hash);
      var finalArgs := locationArgs + hashArgs;
      launchParams := Some(finalArgs);
      r := Success(LaunchParams.AsObject(finalArgs));
    }
  }
}
