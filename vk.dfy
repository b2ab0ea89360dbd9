/**
 * `ParallelixVK` of the newer revision: the social-network host, reached
 * through the VK Bridge SDK. SDK script loads and bridge replies arrive as
 * events that answer requests the adapter issued earlier.
 */
module VK {
  import opened Common
  import opened Js
  import opened Browser
  import opened Callbacks

  const Priority: int := 10
  const BridgeUrl := "https://unpkg.com/@vkontakte/vk-bridge/dist/browser.min.js"
  const InitFailedMessage := "VK Bridge initialization failed"
  const NotInitializedMessage := "VK Bridge is not initialized"
  /** Followed in the source by the JSON text of the response, which is not modelled. */
  const UnknownLaunchParamsMessage := "Unknown VK Bridge Launch Params: "

  /** `origins.some(o => o.includes("vk.com"))`, written as the source's loop with an early exit. */
  function AnyOriginIsVK(origins: seq<string>): (r: bool)
    ensures r <==> exists i | 0 <= i < |origins| :: OccursIn(origins[i], "vk.com")
  {
    if origins == [] then false
    else
      IncludesIffOccurs(origins[0], "vk.com");
      if Includes(origins[0], "vk.com") then true
      else
        var rest := AnyOriginIsVK(origins[1..]);
        assert forall i | 1 <= i < |origins| :: origins[i] == origins[1..][i - 1];
        rest
  }

  /** `IsCurrentPlatform()`: an ancestor origin mentions vk.com, or the query carries `vk_app_id`. */
  function IsCurrentPlatform(env: Env): (r: bool)
    ensures r <==>
      (exists i | 0 <= i < |env.ancestorOrigins| :: OccursIn(env.ancestorOrigins[i], "vk.com"))
      || (exists i | 0 <= i < |env.query| :: env.query[i].0 == "vk_app_id")
  {
    var isVKPlatform := AnyOriginIsVK(env.ancestorOrigins);
    if HasKey(env.query, "vk_app_id") then true else isVKPlatform
  }

  class VKAdapter {
    var options: JsValue
    var isInitialized: bool
    var launchParams: Option<JsValue>
    var onError: Handler
    var onInitialized: Handler
    var calls: seq<Call>
    var bridgeLoads: nat        // bridge script loads requested and not yet completed
    var pendingInit: nat        // `VKWebAppInit` requests not yet answered
    var pendingLaunch: nat      // `VKWebAppGetLaunchParams` requests not yet answered
    var requestedScripts: seq<string>

    /** `new ParallelixVK(instance, options)`. */
    constructor (options: JsValue)
      ensures this.options == Extend(map[], options)
      ensures onError == SelectHandler(options, "OnError", LogDefault("vk"))
      ensures onInitialized == SelectHandler(options, "OnInitialized", LogDefault("vk"))
      ensures !isInitialized && launchParams == None && calls == []
      ensures bridgeLoads == 0 && pendingInit == 0 && pendingLaunch == 0 && requestedScripts == []
    {
      this.options := Extend(map[], options);
      isInitialized := false;
      launchParams := None;
      onError := SelectHandler(options, "OnError", LogDefault("vk"));
      onInitialized := SelectHandler(options, "OnInitialized", LogDefault("vk"));
      calls := [];
      bridgeLoads, pendingInit, pendingLaunch := 0, 0, 0;
      requestedScripts := [];
    }

    /** `Initialize()`: asks the orchestrator to load the bridge script; nothing else happens yet. */
    method Initialize()
      modifies this
      ensures requestedScripts == old(requestedScripts) + [BridgeUrl]
      ensures bridgeLoads == old(bridgeLoads) + 1
      ensures isInitialized == old(isInitialized) && calls == old(calls) && launchParams == old(launchParams)
      ensures pendingInit == old(pendingInit) && pendingLaunch == old(pendingLaunch)
      ensures options == old(options) && onError == old(onError) && onInitialized == old(onInitialized)
    {
      requestedScripts := requestedScripts + [BridgeUrl];
      bridgeLoads := bridgeLoads + 1;
    }

    /** The bridge script loaded: `vkBridge.send('VKWebAppInit')` is issued. */
    method OnBridgeLoaded()
      requires bridgeLoads > 0
      modifies this
      ensures bridgeLoads == old(bridgeLoads) - 1 && pendingInit == old(pendingInit) + 1
      ensures isInitialized == old(isInitialized) && calls == old(calls) && launchParams == old(launchParams)
      ensures pendingLaunch == old(pendingLaunch) && requestedScripts == old(requestedScripts)
      ensures options == old(options) && onError == old(onError) && onInitialized == old(onInitialized)
    {
      bridgeLoads := bridgeLoads - 1;
      pendingInit := pendingInit + 1;
    }

    /** The bridge script failed to load: `OnError` is called and the adapter stays uninitialized. */
    method OnBridgeLoadFailed(event: JsValue)
      requires bridgeLoads > 0
      modifies this
      ensures bridgeLoads == old(bridgeLoads) - 1
      ensures calls == old(calls) + [Call(onError, Value(event))]
      ensures isInitialized == old(isInitialized) && launchParams == old(launchParams)
      ensures pendingInit == old(pendingInit) && pendingLaunch == old(pendingLaunch)
      ensures requestedScripts == old(requestedScripts)
      ensures options == old(options) && onError == old(onError) && onInitialized == old(onInitialized)
    {
      bridgeLoads := bridgeLoads - 1;
      calls := calls + [Call(onError, Value(event))];
    }

    /** `VKWebAppInit` answered `data`: initialized, and `OnInitialized(data)` fires, iff `data.result` is truthy. */
    method OnInitReply(data: JsValue)
      requires pendingInit > 0
      modifies this
      ensures pendingInit == old(pendingInit) - 1
      ensures Truthy(Get(data, "result")) ==>
        isInitialized && calls == old(calls) + [Call(onInitialized, Value(data))]
      ensures !Truthy(Get(data, "result")) ==>
        isInitialized == old(isInitialized) && calls == old(calls) + [Call(onError, ErrorArg(InitFailedMessage))]
      ensures launchParams == old(launchParams) && bridgeLoads == old(bridgeLoads)
      ensures pendingLaunch == old(pendingLaunch) && requestedScripts == old(requestedScripts)
      ensures options == old(options) && onError == old(onError) && onInitialized == old(onInitialized)
    {
      pendingInit := pendingInit - 1;
      if Truthy(Get(data, "result")) {
        isInitialized := true;
        calls := calls + [Call(onInitialized, Value(data))];
      } else {
        calls := calls + [Call(onError, ErrorArg(InitFailedMessage))];
      }
    }

    /** The `VKWebAppInit` promise was rejected: `OnError(error)`. */
    method OnInitRejected(message: string)
      requires pendingInit > 0
      modifies this
      ensures pendingInit == old(pendingInit) - 1
      ensures calls == old(calls) + [Call(onError, ErrorArg(message))]
      ensures isInitialized == old(isInitialized) && launchParams == old(launchParams)
      ensures bridgeLoads == old(bridgeLoads) && pendingLaunch == old(pendingLaunch)
      ensures requestedScripts == old(requestedScripts)
      ensures options == old(options) && onError == old(onError) && onInitialized == old(onInitialized)
    {
      pendingInit := pendingInit - 1;
      calls := calls + [Call(onError, ErrorArg(message))];
    }

    /** `GetLaunchParams(onSuccess, onError)`: refused before initialization, otherwise a bridge request. */
    method GetLaunchParams() returns (r: Reply)
      modifies this
      ensures !old(isInitialized) ==> r == Failure(NotInitializedMessage) && pendingLaunch == old(pendingLaunch)
      ensures old(isInitialized) ==> r == Deferred && pendingLaunch == old(pendingLaunch) + 1
      ensures isInitialized == old(isInitialized) && calls == old(calls) && launchParams == old(launchParams)
      ensures bridgeLoads == old(bridgeLoads) && pendingInit == old(pendingInit)
      ensures requestedScripts == old(requestedScripts)
      ensures options == old(options) && onError == old(onError) && onInitialized == old(onInitialized)
    {
      if !isInitialized {
        return Failure(NotInitializedMessage);
      }
      pendingLaunch := pendingLaunch + 1;
      r := Deferred;
    }

    /** `VKWebAppGetLaunchParams` answered `data`: kept and passed on iff it has a truthy `vk_app_id`. */
    method OnLaunchParamsReply(data: JsValue) returns (r: Reply)
      requires pendingLaunch > 0
      modifies this
      ensures pendingLaunch == old(pendingLaunch) - 1
      ensures Truthy(Get(data, "vk_app_id")) ==> launchParams == Some(data) && r == Success(data)
      ensures !Truthy(Get(data, "vk_app_id")) ==>
        launchParams == old(launchParams) && r == Failure(UnknownLaunchParamsMessage)
      ensures isInitialized == old(isInitialized) && calls == old(calls)
      ensures bridgeLoads == old(bridgeLoads) && pendingInit == old(pendingInit)
      ensures requestedScripts == old(requestedScripts)
      ensures options == old(options) && onError == old(onError) && onInitialized == old(onInitialized)
    {
      pendingLaunch := pendingLaunch - 1;
      if Truthy(Get(data, "vk_app_id")) {
        launchParams := Some(data);
        r := Success(data);
      } else {
        r := Failure(UnknownLaunchParamsMessage);
      }
    }

    /** The `VKWebAppGetLaunchParams` promise was rejected: `onError(error)`, nothing stored. */
    method OnLaunchParamsRejected(message: string) returns (r: Reply)
      requires pendingLaunch > 0
      modifies this
      ensures pendingLaunch == old(pendingLaunch) - 1 && r == Failure(message)
      ensures launchParams == old(launchParams) && isInitialized == old(isInitialized) && calls == old(calls)
      ensures bridgeLoads == old(bridgeLoads) && pendingInit == old(pendingInit)
      ensures requestedScripts == old(requestedScripts)
      ensures options == old(options) && onError == old(onError) && onInitialized == old(onInitialized)
    {
      pendingLaunch := pendingLaunch - 1;
      r := Failure(message);
    }
  }
}
