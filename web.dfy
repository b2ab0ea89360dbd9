/**
 * `ParallelixWeb` of the newer revision: the generic browser host. It always
 * claims the platform but has the largest priority, so it is the fallback.
 */
module Web {
  import opened Common
  import opened Js
  import opened Browser
  import opened Callbacks
  import LaunchParams

  const Priority: int := 1000
  const DefaultManifest := "/manifest.json"
  const NotInitializedMessage := "Web App is not initialized"
  const NoManifestMessage := "Your PWA does not contain a manifest file. Specify the manifest file in the wrapper options."
  const NoFavoritesMessage := "Your browser does not support adding to favorites"
  /** `onError` is not in scope inside `ToggleFullscreen` and `HandleEvents`. */
  const UndefinedOnErrorMessage := "onError is not defined"

  /** `IsCurrentPlatform()`: the web host is always current. */
  predicate IsCurrentPlatform(env: Env): (r: bool)
    ensures r
  {
    true
  }

  /** `parameters?.web || {}`: the only part of a parameter bag the web adapter reads. */
  function WebParameters(parameters: JsValue): (r: JsValue)
    ensures Truthy(r)
    ensures Truthy(Get(parameters, "web")) ==> r == Get(parameters, "web")
    ensures !Truthy(Get(parameters, "web")) ==> r == EmptyObject
  {
    var web := Get(parameters, "web");
    if Truthy(web) then web else EmptyObject
  }

  /** Entries meant for other platforms never change what the web adapter reads. */
  lemma OtherPlatformsIgnored(fields: map<string, JsValue>, key: string, v: JsValue)
    requires key != "web"
    ensures WebParameters(Obj(fields[key := v])) == WebParameters(Obj(fields))
  {
    assert Get(Obj(fields[key := v]), "web") == Get(Obj(fields), "web");
  }

  /** The `localStorage` key a storage call uses: `String(parameters.web.key)`. */
  function StorageKey(parameters: JsValue): string {
    ToJsString(Get(WebParameters(parameters), "key"))
  }

  function ResultObject(v: JsValue): JsValue {
    Obj(map["result" := v])
  }

  /** What the browser offers for bookmarking. */
  datatype FavoritesSupport = FavoritesSupport(sidebarAddPanel: bool, conditionalCompilation: bool)

  class WebAdapter {
    var options: JsValue
    var isInitialized: bool
    var invoker: WebAdapter?
    var launchParams: Option<map<string, string>>
    var beforeInstallPromptEvent: bool   // a `beforeinstallprompt` event has been captured
    var promptListenerInstalled: bool
    var messageListenerInstalled: bool
    var onError: Handler
    var onInitialized: Handler
    var calls: seq<Call>

    /** `new ParallelixWeb(instance, options)`. */
    constructor (options: JsValue)
      ensures this.options == Extend(map["manifest" := Str(DefaultManifest)], options)
      ensures onError == SelectHandler(options, "OnError", LogDefault("web"))
      ensures onInitialized == SelectHandler(options, "OnInitialized", LogDefault("web"))
      ensures !isInitialized && invoker == null && launchParams == None
      ensures !beforeInstallPromptEvent && !promptListenerInstalled && !messageListenerInstalled
      ensures calls == []
    {
      this.options := Extend(map["manifest" := Str(DefaultManifest)], options);
      isInitialized := false;
      invoker := null;
      launchParams := None;
      beforeInstallPromptEvent := false;
      promptListenerInstalled := false;
      messageListenerInstalled := false;
      onError := SelectHandler(options, "OnError", LogDefault("web"));
      onInitialized := SelectHandler(options, "OnInitialized", LogDefault("web"));
      calls := [];
    }

    /**
     * `Initialize()`: installs the install-prompt listener when a manifest is
     * configured, sets the invoker to itself, marks itself initialized, calls
     * `OnInitialized({})` and then `HandleEvents()`.
     */
    method Initialize()
      modifies this
      ensures promptListenerInstalled == (old(promptListenerInstalled) || Truthy(Get(options, "manifest")))
      ensures invoker == this && isInitialized && messageListenerInstalled
      ensures calls == old(calls) + [Call(onInitialized, Value(EmptyObject))]
      ensures options == old(options) && onError == old(onError) && onInitialized == old(onInitialized)
      ensures launchParams == old(launchParams) && beforeInstallPromptEvent == old(beforeInstallPromptEvent)
    {
      if Truthy(Get(options, "manifest")) {
        promptListenerInstalled := true;
      }
      invoker := this;
      isInitialized := true;
      calls := calls + [Call(onInitialized, Value(EmptyObject))];
      var _ := HandleEvents();
    }

    /** `HandleEvents()`: subscribes to window messages once initialized; otherwise throws. */
    method HandleEvents() returns (r: Reply)
      modifies this
      ensures !old(isInitialized) ==> r == Thrown(UndefinedOnErrorMessage)
      ensures old(isInitialized) ==> r == NoCallback && messageListenerInstalled
      ensures messageListenerInstalled == (old(messageListenerInstalled) || old(isInitialized))
      ensures options == old(options) && isInitialized == old(isInitialized) && invoker == old(invoker)
      ensures launchParams == old(launchParams) && beforeInstallPromptEvent == old(beforeInstallPromptEvent)
      ensures promptListenerInstalled == old(promptListenerInstalled)
      ensures onError == old(onError) && onInitialized == old(onInitialized) && calls == old(calls)
    {
      if !isInitialized {
        r := Thrown(UndefinedOnErrorMessage);
        return;
      }
      messageListenerInstalled := true;
      r := NoCallback;
    }

    /** The browser fires `beforeinstallprompt`; it is kept only if the listener is installed. */
    method OnBeforeInstallPrompt()
      modifies this
      ensures beforeInstallPromptEvent == (old(beforeInstallPromptEvent) || promptListenerInstalled)
      ensures options == old(options) && isInitialized == old(isInitialized) && invoker == old(invoker)
      ensures launchParams == old(launchParams) && promptListenerInstalled == old(promptListenerInstalled)
      ensures messageListenerInstalled == old(messageListenerInstalled)
      ensures onError == old(onError) && onInitialized == old(onInitialized) && calls == old(calls)
    {
      if promptListenerInstalled {
        beforeInstallPromptEvent := true;
      }
    }

    /** `GetLaunchParams(onSuccess, onError)`: query pairs overlaid by fragment pairs; no initialization check. */
    method GetLaunchParams(env: Env) returns (r: Reply)
      modifies this
      ensures launchParams == Some(LaunchParams.Merged(env.query, env.hash))
      ensures r == Success(LaunchParams.AsObject(launchParams.value))
      ensures options == old(options) && isInitialized == old(isInitialized) && invoker == old(invoker)
      ensures beforeInstallPromptEvent == old(beforeInstallPromptEvent)
      ensures promptListenerInstalled == old(promptListenerInstalled)
      ensures messageListenerInstalled == old(messageListenerInstalled)
      ensures onError == old(onError) && onInitialized == old(onInitialized) && calls == old(calls)
    {
      var locationArgs := LaunchParams.CollectPairs(env.query);
      var hashArgs := LaunchParams.CollectPairs(env.hash);
      var finalArgs := locationArgs + hashArgs;
      launchParams := Some(finalArgs);
      r := Success(LaunchParams.AsObject(finalArgs));
    }

    /** `GetClientInfo(onSuccess, onError)`. */
    method GetClientInfo(userAgent: JsValue, userAgentData: JsValue) returns (r: Reply)
      ensures !isInitialized <==> r == Failure(NotInitializedMessage)
      ensures isInitialized ==>
        (r.Success? && Get(r.value, "platform") == Str("web") && Get(r.value, "version") == Str("1.0.0")
         && Get(r.value, "userAgent") == userAgent && Get(r.value, "userAgentData") == userAgentData)
    {
      if !isInitialized {
        return Failure(NotInitializedMessage);
      }
      r := Success(Obj(map["platform" := Str("web"), "version" := Str("1.0.0"),
                           "userAgent" := userAgent, "userAgentData" := userAgentData]));
    }

    /** `ToggleFullscreen(isEnabled)`: before initialization it throws, calling no callback. */
    method ToggleFullscreen(isEnabled: bool) returns (r: Reply)
      ensures !isInitialized <==> r == Thrown(UndefinedOnErrorMessage)
      ensures isInitialized <==> r == NoCallback
    {
      if !isInitialized {
        return Thrown(UndefinedOnErrorMessage);
      }
      r := NoCallback;
    }

    /** `AddToHomeScreen(onSuccess, onError)`: succeeds iff an install prompt was captured. */
    method AddToHomeScreen() returns (r: Reply)
      ensures !isInitialized ==> r == Failure(NotInitializedMessage)
      ensures isInitialized ==> (r.Success? <==> beforeInstallPromptEvent)
      ensures r.Success? ==> r.value == ResultObject(Bool(true))
      ensures isInitialized && !beforeInstallPromptEvent ==> r == Failure(NoManifestMessage)
    {
      if !isInitialized {
        return Failure(NotInitializedMessage);
      }
      if beforeInstallPromptEvent {
        r := Success(ResultObject(Bool(true)));
      } else {
        r := Failure(NoManifestMessage);
      }
    }

    /** `AddToFavorites(parameters, onSuccess, onError)`. */
    method AddToFavorites(parameters: JsValue, support: FavoritesSupport) returns (r: Reply)
      ensures !isInitialized ==> r == Failure(NotInitializedMessage)
      ensures isInitialized ==>
        (r.Success? <==> support.sidebarAddPanel || support.conditionalCompilation)
      ensures r.Success? ==> r.value == ResultObject(Bool(true))
      ensures isInitialized && !r.Success? ==> r == Failure(NoFavoritesMessage)
    {
      var _ := WebParameters(parameters);
      if !isInitialized {
        return Failure(NotInitializedMessage);
      }
      if support.sidebarAddPanel {
        r := Success(ResultObject(Bool(true)));
      } else if support.conditionalCompilation {
        r := Success(ResultObject(Bool(true)));
      } else {
        r := Failure(NoFavoritesMessage);
      }
    }

    /** `GetStorage(parameters, onSuccess, onError)`: `{result: localStorage.getItem(key)}`. */
    method GetStorage(parameters: JsValue, storage: LocalStorage) returns (r: Reply)
      ensures !isInitialized <==> r == Failure(NotInitializedMessage)
      ensures isInitialized ==>
        (r.Success? &&
         var stored := Get(r.value, "result");
         (StorageKey(parameters) in storage.items ==> stored == Str(storage.items[StorageKey(parameters)])) &&
         (StorageKey(parameters) !in storage.items ==> stored == Null))
    {
      var params := WebParameters(parameters);
      if !isInitialized {
        return Failure(NotInitializedMessage);
      }
      var key := ToJsString(Get(params, "key"));
      var stored := if key in storage.items then Str(storage.items[key]) else Null;
      r := Success(ResultObject(stored));
    }

    /** `SetStorage(parameters, onSuccess, onError)`: `localStorage.setItem(key, value)`. */
    method SetStorage(parameters: JsValue, storage: LocalStorage) returns (r: Reply)
      modifies storage
      ensures !isInitialized ==> r == Failure(NotInitializedMessage) && storage.items == old(storage.items)
      ensures isInitialized ==>
        (r == Success(ResultObject(Bool(true))) &&
         storage.items == old(storage.items)[StorageKey(parameters) :=
           ToJsString(Get(WebParameters(parameters), "value"))])
    {
      var params := WebParameters(parameters);
      if !isInitialized {
        return Failure(NotInitializedMessage);
      }
      storage.items := storage.items[ToJsString(Get(params, "key")) := ToJsString(Get(params, "value"))];
      r := Success(ResultObject(Bool(true)));
    }

    /** `CloseApplication(onSuccess, onError)`: once initialized it closes the window without a callback. */
    method CloseApplication() returns (r: Reply)
      ensures !isInitialized <==> r == Failure(NotInitializedMessage)
      ensures isInitialized <==> r == NoCallback
    {
      if !isInitialized {
        return Failure(NotInitializedMessage);
      }
      r := NoCallback;
    }
  }

  /** A stored value is read back by a later `GetStorage` with the same key. */
  method StorageRoundTrip(w: WebAdapter, parameters: JsValue, storage: LocalStorage) returns (r: Reply)
    requires w.isInitialized
    modifies storage
    ensures r.Success? && Get(r.value, "result") == Str(ToJsString(Get(WebParameters(parameters), "value")))
  {
    var _ := w.SetStorage(parameters, storage);
    r := w.GetStorage(parameters, storage);
  }
}
