/**
 * `ParallelixTelegram` of the newer revision: the chat-application host,
 * reached through the global `Telegram.WebApp` object of its SDK.
 */
module Telegram {
  import opened Common
  import opened Js
  import opened Browser
  import opened Callbacks

  const Priority: int := 10
  const SdkUrl := "https://telegram.org/js/telegram-web-app.js?56"
  const NotInitializedMessage := "Telegram SDK is not initialized"

  /** `IsCurrentPlatform()`: the SDK global is present, or the raw hash carries `tgWebAppData`. */
  function IsCurrentPlatform(env: Env): (r: bool)
    ensures r <==> env.telegramWebApp || OccursIn(env.rawHash, "tgWebAppData")
  {
    IncludesIffOccurs(env.rawHash, "tgWebAppData");
    var isTelegramPlatform := env.telegramWebApp;
    if Includes(env.rawHash, "tgWebAppData") then true else isTelegramPlatform
  }

  /** The two fields read from `window.Telegram.WebApp`. */
  datatype WebApp = WebApp(initDataUnsafe: JsValue, initData: JsValue)

  class TelegramAdapter {
    var options: JsValue
    var isInitialized: bool
    var launchParams: Option<JsValue>
    var launchParamsRaw: Option<JsValue>
    var onError: Handler
    var onInitialized: Handler
    var calls: seq<Call>
    var sdkLoads: nat            // SDK script loads requested and not yet completed
    var requestedScripts: seq<string>

    /** `new ParallelixTelegram(instance, options)`. */
    constructor (options: JsValue)
      ensures this.options == Extend(map[], options)
      ensures onError == SelectHandler(options, "OnError", LogDefault("telegram"))
      ensures onInitialized == SelectHandler(options, "OnInitialized", LogDefault("telegram"))
      ensures !isInitialized && launchParams == None && launchParamsRaw == None && calls == []
      ensures sdkLoads == 0 && requestedScripts == []
    {
      this.options := Extend(map[], options);
      isInitialized := false;
      launchParams, launchParamsRaw := None, None;
      onError := SelectHandler(options, "OnError", LogDefault("telegram"));
      onInitialized := SelectHandler(options, "OnInitialized", LogDefault("telegram"));
      calls := [];
      sdkLoads := 0;
      requestedScripts := [];
    }

    /** `Initialize()`: asks the orchestrator to load the SDK script. */
    method Initialize()
      modifies this
      ensures requestedScripts == old(requestedScripts) + [SdkUrl] && sdkLoads == old(sdkLoads) + 1
      ensures isInitialized == old(isInitialized) && calls == old(calls)
      ensures launchParams == old(launchParams) && launchParamsRaw == old(launchParamsRaw)
      ensures options == old(options) && onError == old(onError) && onInitialized == old(onInitialized)
    {
      requestedScripts := requestedScripts + [SdkUrl];
      sdkLoads := sdkLoads + 1;
    }

    /** The SDK script loaded: the adapter is initialized, then `OnInitialized({})` fires. */
    method OnSdkLoaded()
      requires sdkLoads > 0
      modifies this
      ensures sdkLoads == old(sdkLoads) - 1
      ensures isInitialized && calls == old(calls) + [Call(onInitialized, Value(EmptyObject))]
      ensures launchParams == old(launchParams) && launchParamsRaw == old(launchParamsRaw)
      ensures requestedScripts == old(requestedScripts)
      ensures options == old(options) && onError == old(onError) && onInitialized == old(onInitialized)
    {
      sdkLoads := sdkLoads - 1;
      isInitialized := true;
      calls := calls + [Call(onInitialized, Value(EmptyObject))];
    }

    /** The SDK script failed to load: `OnError` is called and the flag is unchanged. */
    method OnSdkLoadFailed(event: JsValue)
      requires sdkLoads > 0
      modifies this
      ensures sdkLoads == old(sdkLoads) - 1
      ensures isInitialized == old(isInitialized) && calls == old(calls) + [Call(onError, Value(event))]
      ensures launchParams == old(launchParams) && launchParamsRaw == old(launchParamsRaw)
      ensures requestedScripts == old(requestedScripts)
      ensures options == old(options) && onError == old(onError) && onInitialized == old(onInitialized)
    {
      sdkLoads := sdkLoads - 1;
      calls := calls + [Call(onError, Value(event))];
    }

    /**
     * `GetLaunchParams(onSuccess, onError)` while `window.Telegram.WebApp` is
     * `webApp`: refused unless initialized and the global is present.
     */
    method GetLaunchParams(webApp: Option<WebApp>) returns (r: Reply)
      modifies this
      ensures !(old(isInitialized) && webApp.Some?) ==>
        r == Failure(NotInitializedMessage)
        && launchParams == old(launchParams) && launchParamsRaw == old(launchParamsRaw)
      ensures old(isInitialized) && webApp.Some? ==>
        launchParams == Some(webApp.value.initDataUnsafe) && launchParamsRaw == Some(webApp.value.initData)
        && r == Success(webApp.value.initDataUnsafe)
      ensures isInitialized == old(isInitialized) && calls == old(calls)
      ensures sdkLoads == old(sdkLoads) && requestedScripts == old(requestedScripts)
      ensures options == old(options) && onError == old(onError) && onInitialized == old(onInitialized)
    {
      if !isInitialized || webApp.None? {
        return Failure(NotInitializedMessage);
      }
      launchParams := Some(webApp.value.initDataUnsafe);
      launchParamsRaw := Some(webApp.value.initData);
      r := Success(launchParams.value);
    }
  }
}
