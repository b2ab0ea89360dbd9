/**
 * The newer `Parallelix` orchestrator. `Initialize()` loads one adapter script
 * per configured platform; each script registers its class in the shared
 * registry; when every platform has connected, the wrappers are sorted by
 * priority, the first that recognises the environment becomes the current
 * platform, and its own `Initialize()` is started. Every asynchronous
 * completion is an event method; between events everything runs to
 * completion on one thread.
 */
module Orchestrator {
  import opened Common
  import opened Js
  import opened Browser
  import opened Callbacks
  import opened Configuration
  import opened Detection
  import opened Registry
  import opened Bootstrap
  import Web
  import VK
  import Telegram

  /** A connected wrapper object. */
  datatype Adapter =
    | WebRef(web: Web.WebAdapter)
    | VKRef(vk: VK.VKAdapter)
    | TelegramRef(telegram: Telegram.TelegramAdapter)

  /** Where the adapter scripts are served from. */
  const ScriptDir := "/libraries/"

  function AsObject(a: Adapter): object {
    match a
    case WebRef(w) => w
    case VKRef(v) => v
    case TelegramRef(t) => t
  }

  function ClassOf(a: Adapter): AdapterClass {
    match a
    case WebRef(_) => WebClass
    case VKRef(_) => VKClass
    case TelegramRef(_) => TelegramClass
  }

  /** The `options` each adapter class keeps from its constructor argument. */
  function AdapterOptions(cls: AdapterClass, options: JsValue): JsValue {
    if cls == WebClass then Extend(map["manifest" := Str(Web.DefaultManifest)], options)
    else Extend(map[], options)
  }

  function OptionsOf(a: Adapter): JsValue
    reads AsObject(a)
  {
    match a
    case WebRef(w) => w.options
    case VKRef(v) => v.options
    case TelegramRef(t) => t.options
  }

  /** The adapter's `OnError` and `OnInitialized` handlers. */
  function HandlersOf(a: Adapter): (Handler, Handler)
    reads AsObject(a)
  {
    match a
    case WebRef(w) => (w.onError, w.onInitialized)
    case VKRef(v) => (v.onError, v.onInitialized)
    case TelegramRef(t) => (t.onError, t.onInitialized)
  }

  /** The `Priority` getter of each adapter class: the web fallback ranks after every other adapter. */
  function Priority(a: Adapter): (r: int)
    ensures a.WebRef? <==> r == Web.Priority
    ensures !a.WebRef? ==> r < Web.Priority
  {
    match a
    case WebRef(_) => Web.Priority
    case VKRef(_) => VK.Priority
    case TelegramRef(_) => Telegram.Priority
  }

  /** What each adapter class's `IsCurrentPlatform()` answers in one environment. */
  datatype Recognition = Recognition(web: bool, vk: bool, telegram: bool)

  function Recognise(env: Env): (rec: Recognition)
    ensures rec.web
    ensures rec.vk == VK.IsCurrentPlatform(env) && rec.telegram == Telegram.IsCurrentPlatform(env)
  {
    Recognition(Web.IsCurrentPlatform(env), VK.IsCurrentPlatform(env), Telegram.IsCurrentPlatform(env))
  }

  /** `wrapper.IsCurrentPlatform()`. */
  function IsCurrentPlatform(a: Adapter, rec: Recognition): bool {
    match a
    case WebRef(_) => rec.web
    case VKRef(_) => rec.vk
    case TelegramRef(_) => rec.telegram
  }

  /** `new Parallelix._platformClasses[platform](self, wrapperConfig)`. */
  method NewAdapter(cls: AdapterClass, options: JsValue) returns (a: Adapter)
    ensures fresh(AsObject(a)) && ClassOf(a) == cls
    ensures OptionsOf(a) == AdapterOptions(cls, options)
    ensures HandlersOf(a) == (SelectHandler(options, "OnError", LogDefault(ClassName(cls))),
                              SelectHandler(options, "OnInitialized", LogDefault(ClassName(cls))))
  {
    match cls
    case WebClass =>
      var w := new Web.WebAdapter(options);
      a := WebRef(w);
    case VKClass =>
      var v := new VK.VKAdapter(options);
      a := VKRef(v);
    case TelegramClass =>
      var t := new Telegram.TelegramAdapter(options);
      a := TelegramRef(t);
  }

  /**
   * The winner's hand-over: its `OnError` becomes the orchestrator's, its
   * `OnInitialized` forwards to the orchestrator, and its `Initialize()` runs.
   */
  method Start(a: Adapter, onError: Handler)
    modifies AsObject(a)
    ensures Started(a, onError) && Launched(a, onError)
  {
    match a
    case WebRef(w) =>
      w.onError, w.onInitialized := onError, ForwardReady;
      w.Initialize();
    case VKRef(v) =>
      v.onError, v.onInitialized := onError, ForwardReady;
      v.Initialize();
    case TelegramRef(t) =>
      t.onError, t.onInitialized := onError, ForwardReady;
      t.Initialize();
  }

  /**
   * `Start(a, onError)`'s effect on the winner: it is bound to the
   * orchestrator, keeps its options, and has run its own `Initialize()`. The
   * web adapter initializes at once, installs its listeners and calls the
   * forward with `{}`; VK and Telegram request their SDK script, with one
   * more load outstanding, and call nothing yet.
   */
  twostate predicate Started(a: Adapter, onError: Handler)
    reads AsObject(a)
  {
    && HandlersOf(a) == (onError, ForwardReady)
    && OptionsOf(a) == old(OptionsOf(a))
    && (a.WebRef? ==>
          && a.web.isInitialized && a.web.invoker == a.web && a.web.messageListenerInstalled
          && a.web.promptListenerInstalled == (old(a.web.promptListenerInstalled) || Truthy(Get(a.web.options, "manifest")))
          && a.web.launchParams == old(a.web.launchParams)
          && a.web.beforeInstallPromptEvent == old(a.web.beforeInstallPromptEvent)
          && a.web.calls == old(a.web.calls) + [Call(ForwardReady, Value(EmptyObject))])
    && (a.VKRef? ==>
          && a.vk.requestedScripts == old(a.vk.requestedScripts) + [VK.BridgeUrl]
          && a.vk.bridgeLoads == old(a.vk.bridgeLoads) + 1
          && a.vk.isInitialized == old(a.vk.isInitialized) && a.vk.launchParams == old(a.vk.launchParams)
          && a.vk.pendingInit == old(a.vk.pendingInit) && a.vk.pendingLaunch == old(a.vk.pendingLaunch)
          && a.vk.calls == old(a.vk.calls))
    && (a.TelegramRef? ==>
          && a.telegram.requestedScripts == old(a.telegram.requestedScripts) + [Telegram.SdkUrl]
          && a.telegram.sdkLoads == old(a.telegram.sdkLoads) + 1
          && a.telegram.isInitialized == old(a.telegram.isInitialized)
          && a.telegram.launchParams == old(a.telegram.launchParams)
          && a.telegram.launchParamsRaw == old(a.telegram.launchParamsRaw)
          && a.telegram.calls == old(a.telegram.calls))
  }

  /**
   * A started winner as it stands afterwards: bound to the orchestrator, with
   * the web adapter initialized and its last call the forward, and VK or
   * Telegram with their SDK script as the last one requested and its load
   * outstanding.
   */
  predicate Launched(a: Adapter, onError: Handler)
    reads AsObject(a)
  {
    && HandlersOf(a) == (onError, ForwardReady)
    && (a.WebRef? ==>
          && a.web.isInitialized && a.web.calls != []
          && a.web.calls[|a.web.calls| - 1] == Call(ForwardReady, Value(EmptyObject)))
    && (a.VKRef? ==>
          && a.vk.requestedScripts != [] && a.vk.requestedScripts[|a.vk.requestedScripts| - 1] == VK.BridgeUrl
          && a.vk.bridgeLoads > 0)
    && (a.TelegramRef? ==>
          && a.telegram.requestedScripts != [] && a.telegram.requestedScripts[|a.telegram.requestedScripts| - 1] == Telegram.SdkUrl
          && a.telegram.sdkLoads > 0)
  }

  /** The wrappers as detection sees them, in `Object.values` order. */
  function Candidates(ws: seq<Entry<Adapter>>, rec: Recognition): (cs: seq<Candidate<Entry<Adapter>>>)
    ensures |cs| == |ws|
    ensures forall i | 0 <= i < |ws| ::
      cs[i] == Candidate(ws[i], Priority(ws[i].adapter), IsCurrentPlatform(ws[i].adapter, rec))
  {
    if ws == [] then []
    else [Candidate(ws[0], Priority(ws[0].adapter), IsCurrentPlatform(ws[0].adapter, rec))] + Candidates(ws[1..], rec)
  }

  /**
   * `DetectPlatform()`'s choice: the first wrapper recognising the
   * environment after a stable sort by ascending priority.
   */
  function Detected(ws: seq<Entry<Adapter>>, rec: Recognition): (r: Option<Entry<Adapter>>)
    ensures r.None? <==> forall e | e in ws :: !IsCurrentPlatform(e.adapter, rec)
    ensures r.Some? ==> r.value in ws && IsCurrentPlatform(r.value.adapter, rec)
  {
    var w := FirstMatch(SortByPriority(Candidates(ws, rec)));
    DetectionDrawsFromWrappers(ws, rec);
    if w.None? then None else Some(w.value.entry)
  }

  /** The scan over the sorted candidates finds a wrapper of `ws`, and finds none only when none matches. */
  lemma DetectionDrawsFromWrappers(ws: seq<Entry<Adapter>>, rec: Recognition)
    ensures FirstMatch(SortByPriority(Candidates(ws, rec))).Some? ==>
      && FirstMatch(SortByPriority(Candidates(ws, rec))).value.entry in ws
      && FirstMatch(SortByPriority(Candidates(ws, rec))).value.matches
         == IsCurrentPlatform(FirstMatch(SortByPriority(Candidates(ws, rec))).value.entry.adapter, rec)
    ensures FirstMatch(SortByPriority(Candidates(ws, rec))).None? ==>
      forall e | e in ws :: !IsCurrentPlatform(e.adapter, rec)
  {
    var cs := Candidates(ws, rec);
    var s := SortByPriority(cs);
    SortPermutes(cs);
    var w := FirstMatch(s);
    if w.Some? {
      var i :| 0 <= i < |s| && s[i] == w.value;
      assert s[i] in multiset(s);
      var j :| 0 <= j < |cs| && cs[j] == w.value;
      assert ws[j] == w.value.entry;
    } else {
      forall e | e in ws
        ensures !IsCurrentPlatform(e.adapter, rec)
      {
        var j :| 0 <= j < |ws| && ws[j] == e;
        assert cs[j] in multiset(s);
        var k :| 0 <= k < |s| && s[k] == cs[j];
      }
    }
  }

  /**
   * The detected wrapper recognises the environment, has the smallest
   * priority among those that do, and comes first in insertion order among
   * those of that priority.
   */
  lemma {:induction false} DetectedIsBest(ws: seq<Entry<Adapter>>, rec: Recognition)
    ensures Detected(ws, rec).Some? ==> exists i | 0 <= i < |ws| ::
      && ws[i] == Detected(ws, rec).value
      && IsCurrentPlatform(ws[i].adapter, rec)
      && forall j | 0 <= j < |ws| && IsCurrentPlatform(ws[j].adapter, rec) ::
           Priority(ws[i].adapter) < Priority(ws[j].adapter)
           || (Priority(ws[i].adapter) == Priority(ws[j].adapter) && i <= j)
  {
    var cs := Candidates(ws, rec);
    SortedDetectionIsBest(cs);
    BestIsEarliestMinimal(cs);
    if Best(cs).Some? {
      var i :| EarliestMinimalMatch(cs, i) && cs[i] == Best(cs).value;
      assert ws[i] == Detected(ws, rec).value;
    }
  }

  /**
   * The web wrapper is the fallback: whenever a VK or Telegram wrapper
   * recognises the environment, the detected wrapper is not the web one.
   */
  lemma WebIsFallback(ws: seq<Entry<Adapter>>, rec: Recognition, k: int)
    requires 0 <= k < |ws| && !ws[k].adapter.WebRef? && IsCurrentPlatform(ws[k].adapter, rec)
    ensures Detected(ws, rec).Some? && !Detected(ws, rec).value.adapter.WebRef?
  {
    DetectedIsBest(ws, rec);
  }

  /** With a web wrapper connected, detection always finds a platform. */
  lemma WebGuaranteesDetection(ws: seq<Entry<Adapter>>, env: Env, k: int)
    requires 0 <= k < |ws| && ws[k].adapter.WebRef?
    ensures Detected(ws, Recognise(env)).Some?
  {
    assert ws[k] in ws;
  }

  /**
   * Once the web platform has its wrapper, and each shipped platform's
   * wrapper is of the class its script registers, detection finds a
   * platform.
   */
  lemma ConnectedWebIsDetected(ws: seq<Entry<Adapter>>, env: Env)
    requires HasName(ws, "web")
    requires forall e | e in ws && ScriptClass(e.name).Some? :: ClassOf(e.adapter) == ScriptClass(e.name).value
    ensures Detected(ws, Recognise(env)).Some?
  {
    var k := HasNameAt(ws, "web");
    assert ws[k] in ws;
    WebGuaranteesDetection(ws, env, k);
  }

  /**
   * `options.supportedPlatforms` after the constructor: the merged list, with
   * "web" pushed at the end when it is missing.
   */
  function SupportedPlatforms(config: Config): (r: seq<string>)
    ensures "web" in r
    ensures |MergedPlatforms(config)| <= |r| && r[..|MergedPlatforms(config)|] == MergedPlatforms(config)
    ensures forall p | p in r :: p == "web" || p in MergedPlatforms(config)
    ensures "web" in MergedPlatforms(config) ==> r == MergedPlatforms(config)
    ensures |r| <= |MergedPlatforms(config)| + 1
  {
    var platforms := MergedPlatforms(config);
    if "web" in platforms then platforms else platforms + ["web"]
  }

  datatype Phase =
    | Created              // constructed, `Initialize()` not yet called
    | ConnectingWrappers   // adapter scripts are loading
    | PlatformNotFound     // every wrapper connected but none recognised the environment
    | PlatformInitializing // the winner's `Initialize()` has been started

  class Parallelix {
    const registry: PlatformRegistry<AdapterClass>
    const config: Config
    const supportedPlatforms: seq<string>
    var wrappers: seq<Entry<Adapter>>
    var currentPlatform: Option<Adapter>
    var currentPlatformName: Option<string>
    var onError: Handler
    var onInitialized: Handler
    var calls: seq<Call>              // invocations of this orchestrator's own handlers
    var phase: Phase
    var platformsCount: int           // the count-down of `ConnectWrappers`
    var pending: multiset<string>     // platforms whose adapter script is still loading
    var requestedScripts: seq<string>
    var connectedCount: nat           // how many times the `onConnected` callback has run
    ghost var connections: nat        // loads that found their class and counted down
    ghost var stalled: nat            // loads that failed or found no class
    ghost var Repr: set<object>       // the adapter objects this orchestrator created

    /** The connected wrappers are keyed by distinct configured platforms and owned by this object. */
    ghost predicate WrappersValid()
      reads this`wrappers, this`Repr
    {
      && "web" in supportedPlatforms
      && this !in Repr && registry !in Repr
      && UniqueNames(wrappers)
      && (forall e | e in wrappers :: e.name in supportedPlatforms && AsObject(e.adapter) in Repr)
      && (forall e | e in wrappers && ScriptClass(e.name).Some? :: ClassOf(e.adapter) == ScriptClass(e.name).value)
    }

    ghost predicate Valid()
      reads this`wrappers, this`Repr, this`currentPlatform, this`currentPlatformName, this`phase
      reads this`platformsCount, this`pending, this`connections, this`stalled, this`connectedCount
    {
      && WrappersValid()
      && (currentPlatform.Some? <==> currentPlatformName.Some?)
      && (currentPlatform.Some? <==> phase == PlatformInitializing)
      && (currentPlatform.Some? ==> Entry(currentPlatformName.value, currentPlatform.value) in wrappers)
      && (phase == Created ==>
            wrappers == [] && pending == multiset{} && connections == 0 && stalled == 0)
      && (phase != Created ==> Counting(platformsCount, pending, connections, stalled, supportedPlatforms))
      && (phase == ConnectingWrappers ==> connections < |supportedPlatforms|)
      && (phase == ConnectingWrappers ==> Covered("web", pending, stalled, wrappers))
      && (phase == PlatformNotFound || phase == PlatformInitializing ==>
            connections == |supportedPlatforms| && stalled == 0)
      && connectedCount == (if phase == PlatformNotFound || phase == PlatformInitializing then 1 else 0)
    }

    /** The count-down has reached zero: every configured platform connected and nothing is loading. */
    ghost predicate AllConnected()
      reads this`wrappers, this`Repr, this`currentPlatform, this`currentPlatformName, this`phase
      reads this`platformsCount, this`pending, this`connections, this`stalled
    {
      && WrappersValid()
      && phase == ConnectingWrappers
      && Counting(platformsCount, pending, connections, stalled, supportedPlatforms)
      && platformsCount == 0 && connections == |supportedPlatforms| && stalled == 0 && pending == multiset{}
    }

    /** `new Parallelix(options)`. */
    constructor (config: Config, registry: PlatformRegistry<AdapterClass>)
      ensures Valid() && Repr == {}
      ensures this.config == config && this.registry == registry
      ensures supportedPlatforms == SupportedPlatforms(config)
      ensures onError == HandlerFrom(config.onError, LogDefault("Parallelix"))
      ensures onInitialized == HandlerFrom(config.onInitialized, LogDefault("Parallelix"))
      ensures wrappers == [] && currentPlatform == None && currentPlatformName == None
      ensures phase == Created && calls == [] && requestedScripts == [] && connectedCount == 0
    {
      this.config := config;
      this.registry := registry;
      supportedPlatforms := SupportedPlatforms(config);
      wrappers := [];
      currentPlatform, currentPlatformName := None, None;
      onError := HandlerFrom(config.onError, LogDefault("Parallelix"));
      onInitialized := HandlerFrom(config.onInitialized, LogDefault("Parallelix"));
      calls := [];
      phase := Created;
      platformsCount := 0;
      pending := multiset{};
      requestedScripts := [];
      connectedCount := 0;
      connections, stalled := 0, 0;
      Repr := {};
    }

    /** `Wrapper()`: the current platform's wrapper, which is the connected wrapper of its name. */
    function Wrapper(): (r: Option<Adapter>)
      reads this
      requires Valid()
      ensures r.Some? <==> phase == PlatformInitializing
      ensures r.Some? ==> exists e | e in wrappers :: e.adapter == r.value && Some(e.name) == currentPlatformName
    {
      currentPlatform
    }

    /** `GetPlatformName()`: the key of the current wrapper, one of the configured platforms. */
    function GetPlatformName(): (r: Option<string>)
      reads this
      requires Valid()
      ensures r.Some? <==> phase == PlatformInitializing
      ensures r.Some? ==> r.value in supportedPlatforms && r.value in Names(wrappers)
    {
      if currentPlatformName.Some? then
        var e := Entry(currentPlatformName.value, currentPlatform.value);
        assert e in wrappers;
        var i :| 0 <= i < |wrappers| && wrappers[i] == e;
        assert Names(wrappers)[i] == e.name;
        currentPlatformName
      else currentPlatformName
    }

    /**
     * `Initialize()`: one adapter-script load per configured platform, and a
     * count-down starting at the number of configured platforms.
     */
    method Initialize()
      requires Valid() && phase == Created
      modifies this`platformsCount, this`pending, this`requestedScripts, this`phase
      ensures Valid() && phase == ConnectingWrappers
      ensures platformsCount == |supportedPlatforms|
      ensures pending == multiset(supportedPlatforms)
      ensures requestedScripts == old(requestedScripts) + ScriptUrls(ScriptDir, supportedPlatforms)
    {
      assert wrappers == [];
      var loads, urls := ConnectWrappers(ScriptDir, supportedPlatforms, wrappers);
      StartCounting(supportedPlatforms);
      CoverStart("web", supportedPlatforms, wrappers);
      platformsCount, pending := |supportedPlatforms|, loads;
      requestedScripts := requestedScripts + urls;
      phase := ConnectingWrappers;
    }

    /** `LoadLibrary`'s `onerror` for an adapter script: `OnError(event)`, and the count stays where it is. */
    method OnAdapterScriptFailed(platform: string, event: JsValue)
      requires Valid() && platform in pending
      modifies this`pending, this`stalled, this`calls
      ensures Valid()
      ensures pending == old(pending) - multiset{platform} && stalled == old(stalled) + 1
      ensures calls == old(calls) + [Call(onError, Value(event))]
      ensures platformsCount > 0 && phase == ConnectingWrappers && connectedCount == 0
    {
      Stall(platformsCount, pending, connections, stalled, supportedPlatforms, platform);
      pending, stalled := pending - multiset{platform}, stalled + 1;
      calls := calls + [Call(onError, Value(event))];
    }

    /**
     * `DetectPlatform()`: scans the wrappers sorted by priority and takes the
     * first that recognises the environment; when none does, nothing changes.
     */
    method DetectPlatform(env: Env)
      modifies this`currentPlatform, this`currentPlatformName
      ensures Detected(wrappers, Recognise(env)).Some? ==>
        && currentPlatform == Some(Detected(wrappers, Recognise(env)).value.adapter)
        && currentPlatformName == Some(Detected(wrappers, Recognise(env)).value.name)
      ensures Detected(wrappers, Recognise(env)).None? ==>
        currentPlatform == old(currentPlatform) && currentPlatformName == old(currentPlatformName)
      ensures Detected(wrappers, Recognise(env)).Some? ==>
        Entry(currentPlatformName.value, currentPlatform.value) in wrappers
    {
      var rec := Recognise(env);
      var sorted := SortByPriority(Candidates(wrappers, rec));
      ghost var w := FirstMatch(sorted);
      DetectionDrawsFromWrappers(wrappers, rec);
      assert Detected(wrappers, rec) == if w.None? then None else Some(w.value.entry);
      var i := 0;
      while i < |sorted|
        invariant 0 <= i <= |sorted|
        invariant FirstMatch(sorted[i..]) == w
        invariant currentPlatform == old(currentPlatform) && currentPlatformName == old(currentPlatformName)
      {
        if sorted[i].matches {
          currentPlatform := Some(sorted[i].entry.adapter);
          currentPlatformName := Some(sorted[i].entry.name);
          break;
        }
        assert sorted[i..][1..] == sorted[i + 1..];
        i := i + 1;
      }
    }

    /**
     * The `onConnected` callback: detect the platform; report when there is
     * none; otherwise start the winner. Only the winner changes.
     */
    method OnConnected(env: Env)
      requires AllConnected() && connectedCount == 0 && currentPlatform == None && currentPlatformName == None
      modifies this`currentPlatform, this`currentPlatformName, this`calls, this`phase, this`connectedCount, Repr
      ensures Valid() && connectedCount == 1
      ensures Detected(wrappers, Recognise(env)).None? ==>
        && phase == PlatformNotFound && currentPlatform == None && currentPlatformName == None
        && calls == old(calls) + [Call(onError, ErrorArg(NotFoundMessage))]
        && unchanged(Repr)
      ensures Detected(wrappers, Recognise(env)).Some? ==>
        && phase == PlatformInitializing
        && currentPlatform == Some(Detected(wrappers, Recognise(env)).value.adapter)
        && currentPlatformName == Some(Detected(wrappers, Recognise(env)).value.name)
        && Started(currentPlatform.value, onError) && Launched(currentPlatform.value, onError)
        && (forall o | o in Repr && o != AsObject(currentPlatform.value) :: unchanged(o))
        && calls == old(calls) + (if currentPlatform.value.WebRef? then [Call(onInitialized, NoArgument)] else [])
    {
      connectedCount := 1;
      DetectPlatform(env);
      if currentPlatform.None? {
        ReportNotFound();
      } else {
        StartPlatform();
      }
    }

    /** No wrapper recognised the environment: `OnError(new Error("Current platform is not found."))`. */
    method ReportNotFound()
      requires AllConnected() && connectedCount == 1 && currentPlatform == None && currentPlatformName == None
      modifies this`phase, this`calls
      ensures Valid() && phase == PlatformNotFound
      ensures calls == old(calls) + [Call(onError, ErrorArg(NotFoundMessage))]
    {
      phase := PlatformNotFound;
      calls := calls + [Call(onError, ErrorArg(NotFoundMessage))];
    }

    /**
     * A platform was detected: the winner takes the orchestrator's `OnError`
     * and an `OnInitialized` that forwards here, and is started; no other
     * wrapper changes. The platform's specific libraries come first, but the
     * filter keeps none (`SpecificLibrariesNeverMatch`) and `LoadLibraries`
     * succeeds at once whatever it is given, so they change nothing.
     */
    method StartPlatform()
      requires AllConnected() && connectedCount == 1
      requires currentPlatform.Some? && currentPlatformName.Some?
      requires Entry(currentPlatformName.value, currentPlatform.value) in wrappers
      modifies this`phase, this`calls, Repr
      ensures Valid() && phase == PlatformInitializing
      ensures Started(currentPlatform.value, onError) && Launched(currentPlatform.value, onError)
      ensures forall o | o in Repr && o != AsObject(currentPlatform.value) :: unchanged(o)
      ensures calls == old(calls) + (if currentPlatform.value.WebRef? then [Call(onInitialized, NoArgument)] else [])
    {
      phase := PlatformInitializing;
      var current := currentPlatform.value;
      assert AsObject(current) in Repr;
      Start(current, onError);
      if current.WebRef? {
        // The web adapter calls `OnInitialized({})` inside `Initialize()`,
        // which forwards to this object's `OnInitialized()`.
        calls := calls + [Call(onInitialized, NoArgument)];
      }
    }

    /** Builds the wrapper of `platform` from its registered class and scoped options and stores it under `platform`. */
    method AddWrapper(platform: string) returns (a: Adapter)
      requires WrappersValid() && platform in supportedPlatforms && platform in registry.classes
      requires ScriptClass(platform).Some? ==> registry.classes[platform] == ScriptClass(platform).value
      modifies this`wrappers, this`Repr
      ensures fresh(AsObject(a)) && Repr == old(Repr) + {AsObject(a)}
      ensures ClassOf(a) == registry.classes[platform]
      ensures OptionsOf(a) == AdapterOptions(ClassOf(a), WrapperConfig(config, platform))
      ensures wrappers == Store(old(wrappers), Entry(platform, a)) && WrappersValid()
    {
      a := NewAdapter(registry.classes[platform], WrapperConfig(config, platform));
      Repr := Repr + {AsObject(a)};
      StoreKeepsUnique(wrappers, Entry(platform, a));
      wrappers := Store(wrappers, Entry(platform, a));
    }

    /** The count-down's step for a platform whose wrapper is about to connect. */
    method CountConnection(platform: string)
      requires Valid() && platform in pending
      modifies this`pending, this`platformsCount, this`connections
      ensures pending == old(pending) - multiset{platform}
      ensures platformsCount == old(platformsCount) - 1 && connections == old(connections) + 1
      ensures Counting(platformsCount, pending, connections, stalled, supportedPlatforms)
      ensures platformsCount != 0 ==> connections < |supportedPlatforms|
      ensures platformsCount == 0 ==> connections == |supportedPlatforms| && stalled == 0 && pending == multiset{}
    {
      CountDown(platformsCount, pending, connections, stalled, supportedPlatforms, platform);
      pending, platformsCount, connections := pending - multiset{platform}, platformsCount - 1, connections + 1;
    }

    /** Connects the wrapper of a loaded platform and counts down. */
    method ConnectWrapper(platform: string) returns (a: Adapter)
      requires Valid() && platform in pending && platform in registry.classes
      requires ScriptClass(platform).Some? ==> registry.classes[platform] == ScriptClass(platform).value
      modifies this`pending, this`wrappers, this`platformsCount, this`connections, this`Repr
      ensures fresh(AsObject(a)) && Repr == old(Repr) + {AsObject(a)}
      ensures ClassOf(a) == registry.classes[platform]
      ensures OptionsOf(a) == AdapterOptions(ClassOf(a), WrapperConfig(config, platform))
      ensures wrappers == Store(old(wrappers), Entry(platform, a))
      ensures pending == old(pending) - multiset{platform}
      ensures platformsCount == old(platformsCount) - 1 && connections == old(connections) + 1
      ensures platformsCount != 0 ==> Valid()
      ensures platformsCount == 0 ==>
        && AllConnected() && currentPlatform == None && currentPlatformName == None
        && HasName(wrappers, "web")
    {
      ghost var ws, loading := wrappers, pending;
      CountConnection(platform);
      a := AddWrapper(platform);
      StoreCovers("web", loading, stalled, ws, Entry(platform, a));
    }
    /** A loaded adapter script registered no class under `platform`: `OnError`, and the count stays. */
    method ReportMissingClass(platform: string)
      requires Valid() && platform in pending
      modifies this`pending, this`stalled, this`calls
      ensures Valid()
      ensures pending == old(pending) - multiset{platform} && stalled == old(stalled) + 1
      ensures calls == old(calls) + [Call(onError, ErrorArg(ClassNotFoundMessage(platform)))]
      ensures platformsCount > 0 && phase == ConnectingWrappers && connectedCount == 0
    {
      Stall(platformsCount, pending, connections, stalled, supportedPlatforms, platform);
      pending, stalled := pending - multiset{platform}, stalled + 1;
      calls := calls + [Call(onError, ErrorArg(ClassNotFoundMessage(platform)))];
    }

    /**
     * The loaded adapter script registered a class under `platform`: the
     * wrapper is stored under `platform`, the count goes down, and when it
     * reaches zero the registry is emptied and `onConnected` runs. The web
     * wrapper is then among the connected ones, so a platform is always
     * detected and started. Before zero, no existing wrapper changes; at zero,
     * only the winner does.
     */
    method AdoptWrapper(platform: string, env: Env)
      requires Valid() && platform in pending && platform in registry.classes
      requires ScriptClass(platform).Some? ==> registry.classes[platform] == ScriptClass(platform).value
      modifies this`pending, this`calls, this`wrappers, this`platformsCount
      modifies this`connections, this`Repr, this`connectedCount, this`phase
      modifies this`currentPlatform, this`currentPlatformName, registry, Repr
      ensures Valid() && fresh(Repr - old(Repr))
      ensures pending == old(pending) - multiset{platform} && stalled == old(stalled)
      ensures platformsCount == old(platformsCount) - 1
      ensures exists a :: && ClassOf(a) == old(registry.classes)[platform]
                          && AsObject(a) !in old(Repr)
                          && wrappers == Store(old(wrappers), Entry(platform, a))
      ensures platformsCount != 0 ==>
        && phase == ConnectingWrappers && calls == old(calls) && registry.classes == old(registry.classes)
        && forall o | o in old(Repr) :: unchanged(o)
      ensures platformsCount == 0 ==>
        && registry.classes == map[] && connectedCount == 1 && pending == multiset{}
        && Detected(wrappers, Recognise(env)).Some? && phase == PlatformInitializing
        && currentPlatform == Some(Detected(wrappers, Recognise(env)).value.adapter)
        && Launched(currentPlatform.value, onError)
        && (forall o | o in old(Repr) && o != AsObject(currentPlatform.value) :: unchanged(o))
        && calls == old(calls) + (if currentPlatform.value.WebRef? then [Call(onInitialized, NoArgument)] else [])
    {
      ghost var cls := registry.classes[platform];
      var a := ConnectWrapper(platform);
      assert Repr - old(Repr) == {AsObject(a)} && fresh(Repr - old(Repr));
      if platformsCount == 0 {
        FinishConnecting(env);
      }
      assert ClassOf(a) == cls && AsObject(a) !in old(Repr) && wrappers == Store(old(wrappers), Entry(platform, a));
    }

    /**
     * The count reached zero: the registry is emptied and `onConnected` runs.
     * The web wrapper is stored, so a platform is detected and started, and
     * no other wrapper changes.
     */
    method FinishConnecting(env: Env)
      requires AllConnected() && connectedCount == 0 && currentPlatform == None && currentPlatformName == None
      requires HasName(wrappers, "web")
      modifies this`currentPlatform, this`currentPlatformName, this`calls, this`phase, this`connectedCount
      modifies registry, Repr
      ensures Valid() && registry.classes == map[] && connectedCount == 1
      ensures Detected(wrappers, Recognise(env)).Some? && phase == PlatformInitializing
      ensures currentPlatform == Some(Detected(wrappers, Recognise(env)).value.adapter)
      ensures Launched(currentPlatform.value, onError)
      ensures forall o | o in Repr && o != AsObject(currentPlatform.value) :: unchanged(o)
      ensures calls == old(calls) + (if currentPlatform.value.WebRef? then [Call(onInitialized, NoArgument)] else [])
    {
      registry.classes := map[];
      ConnectedWebIsDetected(wrappers, env);
      OnConnected(env);
    }

    /**
     * The adapter script of `platform` is evaluated before its `onload` fires:
     * a script the repository ships registers its own class under its own id,
     * and nothing else is registered.
     */
    method RunAdapterScript(platform: string)
      modifies registry
      ensures registry.classes == AfterScript(old(registry.classes), platform)
    {
      match ScriptClass(platform)
      case Some(cls) => registry.Register(platform, cls);
      case None =>
    }

    /**
     * `LoadLibrary`'s `onload` for the adapter script of `platform`, after the
     * script has run. Without a registered class the orchestrator reports it
     * and the count stays; otherwise the wrapper is adopted and the count
     * goes down.
     */
    method OnAdapterScriptLoaded(platform: string, env: Env)
      requires Valid() && platform in pending
      modifies this`pending, this`stalled, this`calls, this`wrappers, this`platformsCount
      modifies this`connections, this`Repr, this`connectedCount, this`phase
      modifies this`currentPlatform, this`currentPlatformName, registry, Repr
      ensures Valid() && fresh(Repr - old(Repr))
      ensures pending == old(pending) - multiset{platform}
      ensures platform !in AfterScript(old(registry.classes), platform) ==>
        && calls == old(calls) + [Call(onError, ErrorArg(ClassNotFoundMessage(platform)))]
        && platformsCount == old(platformsCount) && platformsCount > 0
        && wrappers == old(wrappers) && phase == ConnectingWrappers
        && registry.classes == old(registry.classes)
        && forall o | o in old(Repr) :: unchanged(o)
      ensures platform in AfterScript(old(registry.classes), platform) ==>
        && platformsCount == old(platformsCount) - 1
        && exists a :: && ClassOf(a) == AfterScript(old(registry.classes), platform)[platform]
                      && AsObject(a) !in old(Repr)
                      && wrappers == Store(old(wrappers), Entry(platform, a))
      ensures platform in AfterScript(old(registry.classes), platform) && platformsCount != 0 ==>
        && phase == ConnectingWrappers && calls == old(calls)
        && registry.classes == AfterScript(old(registry.classes), platform)
        && forall o | o in old(Repr) :: unchanged(o)
      ensures platform in AfterScript(old(registry.classes), platform) && platformsCount == 0 ==>
        && registry.classes == map[] && connectedCount == 1 && pending == multiset{}
        && Detected(wrappers, Recognise(env)).Some? && phase == PlatformInitializing
        && currentPlatform == Some(Detected(wrappers, Recognise(env)).value.adapter)
        && Launched(currentPlatform.value, onError)
        && (forall o | o in old(Repr) && o != AsObject(currentPlatform.value) :: unchanged(o))
        && calls == old(calls) + (if currentPlatform.value.WebRef? then [Call(onInitialized, NoArgument)] else [])
    {
      RunAdapterScript(platform);
      if platform !in registry.classes {
        ReportMissingClass(platform);
      } else {
        AdoptWrapper(platform, env);
      }
    }

    /**
     * The VK winner's bridge script loaded: the adapter sends `VKWebAppInit`,
     * whose reply is now outstanding; nothing is reported yet.
     */
    method OnWinnerBridgeLoaded()
      requires Valid() && phase == PlatformInitializing
      requires currentPlatform.value.VKRef? && currentPlatform.value.vk.bridgeLoads > 0
      modifies currentPlatform.value.vk
      ensures Valid() && currentPlatform.value.vk.bridgeLoads == old(currentPlatform.value.vk.bridgeLoads) - 1
      ensures currentPlatform.value.vk.pendingInit == old(currentPlatform.value.vk.pendingInit) + 1
      ensures HandlersOf(currentPlatform.value) == old(HandlersOf(currentPlatform.value))
      ensures currentPlatform.value.vk.calls == old(currentPlatform.value.vk.calls)
      ensures currentPlatform.value.vk.isInitialized == old(currentPlatform.value.vk.isInitialized)
      ensures currentPlatform.value.vk.launchParams == old(currentPlatform.value.vk.launchParams) && currentPlatform.value.vk.pendingLaunch == old(currentPlatform.value.vk.pendingLaunch)
      ensures currentPlatform.value.vk.options == old(currentPlatform.value.vk.options) && currentPlatform.value.vk.requestedScripts == old(currentPlatform.value.vk.requestedScripts)
    {
      var v := currentPlatform.value.vk;
      v.OnBridgeLoaded();
    }

    /**
     * The VK winner's `VKWebAppInit` reply: the adapter handles it; when it
     * initializes, its forwarded `OnInitialized(data)` runs this
     * orchestrator's own `OnInitialized()`, and otherwise it reports to the
     * orchestrator's `OnError`.
     */
    method OnWinnerInitReply(data: JsValue)
      requires Valid() && phase == PlatformInitializing
      requires currentPlatform.value.VKRef? && currentPlatform.value.vk.pendingInit > 0
      requires HandlersOf(currentPlatform.value) == (onError, ForwardReady)
      modifies currentPlatform.value.vk, this`calls
      ensures Valid() && currentPlatform.value.vk.pendingInit == old(currentPlatform.value.vk.pendingInit) - 1
      ensures Truthy(Get(data, "result")) ==>
        && currentPlatform.value.vk.isInitialized
        && currentPlatform.value.vk.calls == old(currentPlatform.value.vk.calls) + [Call(ForwardReady, Value(data))]
        && calls == old(calls) + [Call(onInitialized, NoArgument)]
      ensures !Truthy(Get(data, "result")) ==>
        && currentPlatform.value.vk.isInitialized == old(currentPlatform.value.vk.isInitialized)
        && currentPlatform.value.vk.calls == old(currentPlatform.value.vk.calls) + [Call(onError, ErrorArg(VK.InitFailedMessage))]
        && calls == old(calls)
      ensures HandlersOf(currentPlatform.value) == old(HandlersOf(currentPlatform.value))
      ensures currentPlatform.value.vk.bridgeLoads == old(currentPlatform.value.vk.bridgeLoads) && currentPlatform.value.vk.pendingLaunch == old(currentPlatform.value.vk.pendingLaunch)
      ensures currentPlatform.value.vk.launchParams == old(currentPlatform.value.vk.launchParams) && currentPlatform.value.vk.options == old(currentPlatform.value.vk.options)
      ensures currentPlatform.value.vk.requestedScripts == old(currentPlatform.value.vk.requestedScripts)
    {
      var v := currentPlatform.value.vk;
      v.OnInitReply(data);
      if Truthy(Get(data, "result")) {
        calls := calls + [Call(onInitialized, NoArgument)];
      }
    }

    /**
     * The Telegram winner's SDK script loaded: the adapter initializes, and
     * its forwarded `OnInitialized({})` runs this orchestrator's own
     * `OnInitialized()`.
     */
    method OnWinnerSdkLoaded()
      requires Valid() && phase == PlatformInitializing
      requires currentPlatform.value.TelegramRef? && currentPlatform.value.telegram.sdkLoads > 0
      requires HandlersOf(currentPlatform.value) == (onError, ForwardReady)
      modifies currentPlatform.value.telegram, this`calls
      ensures Valid() && currentPlatform.value.telegram.sdkLoads == old(currentPlatform.value.telegram.sdkLoads) - 1
      ensures currentPlatform.value.telegram.isInitialized
      ensures currentPlatform.value.telegram.calls == old(currentPlatform.value.telegram.calls) + [Call(ForwardReady, Value(EmptyObject))]
      ensures calls == old(calls) + [Call(onInitialized, NoArgument)]
      ensures HandlersOf(currentPlatform.value) == old(HandlersOf(currentPlatform.value))
      ensures currentPlatform.value.telegram.launchParams == old(currentPlatform.value.telegram.launchParams) && currentPlatform.value.telegram.launchParamsRaw == old(currentPlatform.value.telegram.launchParamsRaw)
      ensures currentPlatform.value.telegram.options == old(currentPlatform.value.telegram.options) && currentPlatform.value.telegram.requestedScripts == old(currentPlatform.value.telegram.requestedScripts)
    {
      var t := currentPlatform.value.telegram;
      t.OnSdkLoaded();
      calls := calls + [Call(onInitialized, NoArgument)];
    }
  }
}
