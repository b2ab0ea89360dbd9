/**
 * The older `Parallelix` orchestrator. It loads the adapter scripts from
 * `./client/`, has no web fallback in its default platform list, constructs
 * every wrapper with its scoped options alone, and picks the first connected
 * wrapper, in key insertion order, whose `IsCurrentPlatform()` answers true.
 * Every asynchronous completion is an event method.
 */
module LegacyOrchestrator {
  import opened Common
  import opened Js
  import opened Callbacks
  import opened Configuration
  import opened Registry
  import opened Bootstrap
  import LegacyWeb
  import LegacyVK
  import LegacyTelegram
  import Wrapper

  /** A connected wrapper object. */
  datatype Adapter =
    | WebRef(web: LegacyWeb.WebAdapter)
    | VKRef(vk: LegacyVK.VKAdapter)
    | TelegramRef(telegram: LegacyTelegram.TelegramAdapter)

  /** Where the adapter scripts are served from. */
  const ScriptDir := "./client/"

  function AsObject(a: Adapter): object {
    match a
    case WebRef(w) => w
    case VKRef(v) => v
    case TelegramRef(t) => t
  }

  function ClassOf(a: Adapter): AdapterClass {
    match a
    case WebRef(_) => WebClass
    case VKRef(_) => VKClass
    case TelegramRef(_) => TelegramClass
  }

  function OptionsOf(a: Adapter): JsValue
    reads AsObject(a)
  {
    match a
    case WebRef(w) => w.options
    case VKRef(v) => v.options
    case TelegramRef(t) => t.options
  }

  /** The adapter's `OnError` and `OnInitialized` handlers. */
  function HandlersOf(a: Adapter): (Handler, Handler)
    reads AsObject(a)
  {
    match a
    case WebRef(w) => (w.onError, w.onInitialized)
    case VKRef(v) => (v.onError, v.onInitialized)
    case TelegramRef(t) => (t.onError, t.onInitialized)
  }

  /**
   * The `options` each adapter class of this revision keeps from its
   * constructor argument: the web class puts that argument in `platform`
   * and keeps `{}`, VK copies it, Telegram keeps it as given.
   */
  function AdapterOptions(cls: AdapterClass, options: JsValue): JsValue {
    match cls
    case WebClass => EmptyObject
    case VKClass => Extend(map[], WithDefault(options, EmptyObject))
    case TelegramClass => WithDefault(options, EmptyObject)
  }

  /** The handlers each adapter class starts with: the web class's defaults, the others' taken from the options. */
  function AdapterHandlers(cls: AdapterClass, options: JsValue): (Handler, Handler) {
    if cls == WebClass then (LogDefault("web"), LogDefault("web"))
    else (SelectHandler(WithDefault(options, EmptyObject), "OnError", LogDefault(ClassName(cls))),
          SelectHandler(WithDefault(options, EmptyObject), "OnInitialized", LogDefault(ClassName(cls))))
  }

  /**
   * `wrapper.IsCurrentPlatform()`. No adapter of this revision looks at the
   * environment: web and VK always claim it, and Telegram inherits the base
   * wrapper's refusal.
   */
  function IsCurrentPlatform(a: Adapter): (b: bool)
    ensures b <==> !a.TelegramRef?
  {
    match a
    case WebRef(_) => LegacyWeb.IsCurrentPlatform()
    case VKRef(_) => LegacyVK.IsCurrentPlatform()
    case TelegramRef(_) => Wrapper.IsCurrentPlatform()
  }

  /**
   * `new Parallelix._platformClasses[platform](wrapperConfig)`. The web class
   * takes the orchestrator instance first, so its scoped options land in its
   * `platform` field and it runs with empty options and default handlers.
   */
  method NewAdapter(cls: AdapterClass, options: JsValue) returns (a: Adapter)
    ensures fresh(AsObject(a)) && ClassOf(a) == cls
    ensures OptionsOf(a) == AdapterOptions(cls, options) && HandlersOf(a) == AdapterHandlers(cls, options)
    ensures cls == WebClass ==> a.web.platform == options
  {
    match cls
    case WebClass =>
      var w := new LegacyWeb.WebAdapter(options, Undefined);
      a := WebRef(w);
    case VKClass =>
      var v := new LegacyVK.VKAdapter(options);
      a := VKRef(v);
    case TelegramClass =>
      var t := new LegacyTelegram.TelegramAdapter(options);
      a := TelegramRef(t);
  }

  /**
   * The winner's hand-over: its `OnError` becomes the orchestrator's, its
   * `OnInitialized` forwards to the orchestrator, and its `Initialize()` runs,
   * which calls that forward at once.
   */
  method Start(a: Adapter, onError: Handler)
    modifies AsObject(a)
    ensures Started(a, onError) && Launched(a, onError)
  {
    match a
    case WebRef(w) =>
      w.onError, w.onInitialized := onError, ForwardReady;
      w.Initialize();
    case VKRef(v) =>
      v.onError, v.onInitialized := onError, ForwardReady;
      v.Initialize();
    case TelegramRef(t) =>
      t.onError, t.onInitialized := onError, ForwardReady;
      t.Initialize();
  }

  /**
   * `Start(a, onError)`'s effect on the winner: it is bound to the
   * orchestrator, keeps its options, and its `Initialize()` has called the
   * forward once, with `{}` from the web adapter (which keeps its flag, its
   * `platform` argument and its launch parameters as they were) and with no
   * argument from VK and Telegram.
   */
  twostate predicate Started(a: Adapter, onError: Handler)
    reads AsObject(a)
  {
    && HandlersOf(a) == (onError, ForwardReady)
    && OptionsOf(a) == old(OptionsOf(a))
    && (a.WebRef? ==>
          && a.web.calls == old(a.web.calls) + [Call(ForwardReady, Value(EmptyObject))]
          && a.web.isInitialized == old(a.web.isInitialized)
          && a.web.platform == old(a.web.platform) && a.web.launchParams == old(a.web.launchParams))
    && (a.VKRef? ==> a.vk.calls == old(a.vk.calls) + [Call(ForwardReady, NoArgument)])
    && (a.TelegramRef? ==> a.telegram.calls == old(a.telegram.calls) + [Call(ForwardReady, NoArgument)])
  }

  /** A started winner as it stands afterwards: bound to the orchestrator, with the forward as its last call. */
  predicate Launched(a: Adapter, onError: Handler)
    reads AsObject(a)
  {
    && HandlersOf(a) == (onError, ForwardReady)
    && (a.WebRef? ==>
          a.web.calls != [] && a.web.calls[|a.web.calls| - 1] == Call(ForwardReady, Value(EmptyObject)))
    && (a.VKRef? ==>
          a.vk.calls != [] && a.vk.calls[|a.vk.calls| - 1] == Call(ForwardReady, NoArgument))
    && (a.TelegramRef? ==>
          a.telegram.calls != [] && a.telegram.calls[|a.telegram.calls| - 1] == Call(ForwardReady, NoArgument))
  }

  /** `DetectPlatform()`'s choice: the first wrapper, in insertion order, that claims the environment. */
  function FirstCurrent(ws: seq<Entry<Adapter>>): (r: Option<Entry<Adapter>>)
    ensures r.None? <==> forall e | e in ws :: !IsCurrentPlatform(e.adapter)
    ensures r.Some? ==> r.value in ws && IsCurrentPlatform(r.value.adapter)
  {
    if ws == [] then None
    else if IsCurrentPlatform(ws[0].adapter) then Some(ws[0])
    else FirstCurrent(ws[1..])
  }

  /** The chosen wrapper is the earliest one that claims the environment. */
  lemma {:induction false} FirstCurrentIsEarliest(ws: seq<Entry<Adapter>>)
    ensures FirstCurrent(ws).Some? ==> exists i | 0 <= i < |ws| ::
      && ws[i] == FirstCurrent(ws).value
      && forall j | 0 <= j < i :: ws[j].adapter.TelegramRef?
  {
    if ws != [] && !IsCurrentPlatform(ws[0].adapter) {
      FirstCurrentIsEarliest(ws[1..]);
      if FirstCurrent(ws).Some? {
        var i :| 0 <= i < |ws[1..]| && ws[1..][i] == FirstCurrent(ws).value
          && forall j | 0 <= j < i :: ws[1..][j].adapter.TelegramRef?;
        assert forall j | 0 <= j < i + 1 :: ws[j].adapter.TelegramRef? by {
          forall j | 0 <= j < i + 1 ensures ws[j].adapter.TelegramRef? {
            if j > 0 {
              assert ws[j] == ws[1..][j - 1];
            }
          }
        }
        assert ws[i + 1] == FirstCurrent(ws).value;
      }
    }
  }

  /** Connecting more wrappers never changes an earlier choice. */
  lemma {:induction false} FirstCurrentKeepsEarlierChoice(ws: seq<Entry<Adapter>>, more: seq<Entry<Adapter>>)
    requires FirstCurrent(ws).Some?
    ensures FirstCurrent(ws + more) == FirstCurrent(ws)
  {
    if IsCurrentPlatform(ws[0].adapter) {
      assert (ws + more)[0] == ws[0];
    } else {
      assert (ws + more)[1..] == ws[1..] + more;
      FirstCurrentKeepsEarlierChoice(ws[1..], more);
    }
  }

  datatype Phase =
    | Created            // constructed, `Initialize()` not yet called
    | ConnectingWrappers // adapter scripts are loading
    | PlatformNotFound   // every wrapper connected but none claimed the environment
    | PlatformStarted    // the winner's `Initialize()` ran and reported back

  class Parallelix {
    const registry: PlatformRegistry<AdapterClass>
    const config: Config
    const supportedPlatforms: seq<string>
    var wrappers: seq<Entry<Adapter>>
    var currentPlatform: Option<Adapter>
    var currentPlatformName: Option<string>
    var onError: Handler
    var onInitialized: Handler
    var calls: seq<Call>              // invocations of this orchestrator's own handlers
    var phase: Phase
    var platformsCount: int           // the count-down local to `ConnectWrappers`
    var pending: multiset<string>     // platforms whose adapter script is still loading
    var requestedScripts: seq<string>
    ghost var connections: nat        // loads that found their class and counted down
    ghost var stalled: nat            // loads that failed or found no class
    ghost var Repr: set<object>       // the adapter objects this orchestrator created

    /** The connected wrappers are keyed by distinct configured platforms and owned by this object. */
    ghost predicate WrappersValid()
      reads this`wrappers, this`Repr
    {
      && this !in Repr && registry !in Repr
      && UniqueNames(wrappers)
      && (forall e | e in wrappers :: e.name in supportedPlatforms && AsObject(e.adapter) in Repr)
    }

    ghost predicate Valid()
      reads this`wrappers, this`Repr, this`currentPlatform, this`currentPlatformName, this`phase
      reads this`platformsCount, this`pending, this`connections, this`stalled
    {
      && WrappersValid()
      && (currentPlatform.Some? <==> currentPlatformName.Some?)
      && (currentPlatform.Some? <==> phase == PlatformStarted)
      && (currentPlatform.Some? ==> Entry(currentPlatformName.value, currentPlatform.value) in wrappers)
      && (currentPlatform.Some? ==> IsCurrentPlatform(currentPlatform.value))
      && (phase == Created ==>
            wrappers == [] && pending == multiset{} && connections == 0 && stalled == 0)
      && (phase != Created ==> Counting(platformsCount, pending, connections, stalled, supportedPlatforms))
      && (phase == ConnectingWrappers ==> connections < |supportedPlatforms| || supportedPlatforms == [])
      && (phase == PlatformNotFound || phase == PlatformStarted ==>
            connections == |supportedPlatforms| && stalled == 0)
    }

    /** The count-down has reached zero: every configured platform connected and nothing is loading. */
    ghost predicate AllConnected()
      reads this`wrappers, this`Repr, this`currentPlatform, this`currentPlatformName, this`phase
      reads this`platformsCount, this`pending, this`connections, this`stalled
    {
      && WrappersValid()
      && phase == ConnectingWrappers
      && Counting(platformsCount, pending, connections, stalled, supportedPlatforms)
      && platformsCount == 0 && connections == |supportedPlatforms| && stalled == 0 && pending == multiset{}
    }

    /** `new Parallelix(options)`: the configured platforms are the merged list, with no web fallback added. */
    constructor (config: Config, registry: PlatformRegistry<AdapterClass>)
      ensures Valid() && Repr == {}
      ensures this.config == config && this.registry == registry
      ensures supportedPlatforms == MergedPlatforms(config)
      ensures config.supportedPlatforms.None? ==> "web" !in supportedPlatforms
      ensures onError == HandlerFrom(config.onError, LogDefault("Parallelix"))
      ensures onInitialized == HandlerFrom(config.onInitialized, LogDefault("Parallelix"))
      ensures wrappers == [] && currentPlatform == None && currentPlatformName == None
      ensures phase == Created && calls == [] && requestedScripts == []
    {
      this.config := config;
      this.registry := registry;
      supportedPlatforms := MergedPlatforms(config);
      wrappers := [];
      currentPlatform, currentPlatformName := None, None;
      onError := HandlerFrom(config.onError, LogDefault("Parallelix"));
      onInitialized := HandlerFrom(config.onInitialized, LogDefault("Parallelix"));
      calls := [];
      phase := Created;
      platformsCount := 0;
      pending := multiset{};
      requestedScripts := [];
      connections, stalled := 0, 0;
      Repr := {};
    }

    /** `Wrapper()`: the current platform's wrapper, which is a connected wrapper that is not Telegram's. */
    function Wrapper(): (r: Option<Adapter>)
      reads this
      requires Valid()
      ensures r.Some? <==> phase == PlatformStarted
      ensures r.Some? ==> !r.value.TelegramRef? && exists e | e in wrappers :: e.adapter == r.value
    {
      if currentPlatform.Some? then
        var e := Entry(currentPlatformName.value, currentPlatform.value);
        assert e in wrappers && e.adapter == currentPlatform.value;
        currentPlatform
      else currentPlatform
    }

    /** `GetPlatformName()`: the key of the current wrapper, one of the configured platforms. */
    function GetPlatformName(): (r: Option<string>)
      reads this
      requires Valid()
      ensures r.Some? <==> phase == PlatformStarted
      ensures r.Some? ==> r.value in supportedPlatforms && r.value in Names(wrappers)
    {
      if currentPlatformName.Some? then
        var e := Entry(currentPlatformName.value, currentPlatform.value);
        assert e in wrappers;
        var i :| 0 <= i < |wrappers| && wrappers[i] == e;
        assert Names(wrappers)[i] == e.name;
        currentPlatformName
      else currentPlatformName
    }

    /**
     * `Initialize()`: one adapter-script load per configured platform and a
     * count-down from their number. With no configured platform nothing is
     * pending, so no load event and no `onConnected` can ever follow.
     */
    method Initialize()
      requires Valid() && phase == Created
      modifies this`platformsCount, this`pending, this`requestedScripts, this`phase
      ensures Valid() && phase == ConnectingWrappers
      ensures platformsCount == |supportedPlatforms|
      ensures pending == multiset(supportedPlatforms)
      ensures requestedScripts == old(requestedScripts) + ScriptUrls(ScriptDir, supportedPlatforms)
      ensures supportedPlatforms == [] ==> pending == multiset{} && requestedScripts == old(requestedScripts)
    {
      assert wrappers == [];
      var loads, urls := ConnectWrappers(ScriptDir, supportedPlatforms, wrappers);
      StartCounting(supportedPlatforms);
      platformsCount, pending := |supportedPlatforms|, loads;
      requestedScripts := requestedScripts + urls;
      phase := ConnectingWrappers;
    }

    /** `LoadLibrary`'s `onerror` for an adapter script: `OnError(event)`, and the count stays where it is. */
    method OnAdapterScriptFailed(platform: string, event: JsValue)
      requires Valid() && platform in pending
      modifies this`pending, this`stalled, this`calls
      ensures Valid()
      ensures pending == old(pending) - multiset{platform} && stalled == old(stalled) + 1
      ensures calls == old(calls) + [Call(onError, Value(event))]
      ensures platformsCount > 0 && phase == ConnectingWrappers
    {
      Stall(platformsCount, pending, connections, stalled, supportedPlatforms, platform);
      pending, stalled := pending - multiset{platform}, stalled + 1;
      calls := calls + [Call(onError, Value(event))];
    }

    /**
     * `DetectPlatform()`: walks the wrappers in key order and takes the first
     * that claims the environment; when none does, nothing changes.
     */
    method DetectPlatform()
      modifies this`currentPlatform, this`currentPlatformName
      ensures FirstCurrent(wrappers).Some? ==>
        && currentPlatform == Some(FirstCurrent(wrappers).value.adapter)
        && currentPlatformName == Some(FirstCurrent(wrappers).value.name)
      ensures FirstCurrent(wrappers).None? ==>
        currentPlatform == old(currentPlatform) && currentPlatformName == old(currentPlatformName)
    {
      var i := 0;
      while i < |wrappers|
        invariant 0 <= i <= |wrappers|
        invariant FirstCurrent(wrappers[i..]) == FirstCurrent(wrappers)
        invariant currentPlatform == old(currentPlatform) && currentPlatformName == old(currentPlatformName)
      {
        if IsCurrentPlatform(wrappers[i].adapter) {
          currentPlatform := Some(wrappers[i].adapter);
          currentPlatformName := Some(wrappers[i].name);
          break;
        }
        assert wrappers[i..][1..] == wrappers[i + 1..];
        i := i + 1;
      }
    }

    /**
     * The `onConnected` callback: detect the platform; report when there is
     * none, touching no wrapper; otherwise start the winner, and no other
     * wrapper changes.
     */
    method OnConnected()
      requires AllConnected() && currentPlatform == None && currentPlatformName == None
      modifies this`currentPlatform, this`currentPlatformName, this`calls, this`phase, Repr
      ensures Valid()
      ensures FirstCurrent(wrappers).None? ==>
        && phase == PlatformNotFound && currentPlatform == None && currentPlatformName == None
        && calls == old(calls) + [Call(onError, ErrorArg(NotFoundMessage))]
        && unchanged(Repr)
      ensures FirstCurrent(wrappers).Some? ==>
        && phase == PlatformStarted
        && currentPlatform == Some(FirstCurrent(wrappers).value.adapter)
        && currentPlatformName == Some(FirstCurrent(wrappers).value.name)
        && Started(currentPlatform.value, onError) && Launched(currentPlatform.value, onError)
        && (forall o | o in Repr && o != AsObject(currentPlatform.value) :: unchanged(o))
        && calls == old(calls) + [Call(onInitialized, NoArgument)]
    {
      DetectPlatform();
      if currentPlatform.None? {
        phase := PlatformNotFound;
        calls := calls + [Call(onError, ErrorArg(NotFoundMessage))];
      } else {
        assert AsObject(currentPlatform.value) in Repr && unchanged(Repr);
        StartPlatform();
      }
    }

    /**
     * A platform was detected: the winner takes the orchestrator's `OnError`
     * and a forwarding `OnInitialized`, and is started; its `Initialize()`
     * calls the forward, which calls this object's `OnInitialized()` without
     * arguments. No other wrapper changes. The platform's specific libraries
     * come first, but the filter compares each entry's `platform` with the
     * wrapper object and so keeps none (`SpecificLibrariesNeverMatch`), and
     * `LoadLibraries` succeeds at once whatever it is given, so they change
     * nothing.
     */
    method StartPlatform()
      requires AllConnected()
      requires currentPlatform.Some? && currentPlatformName.Some? && IsCurrentPlatform(currentPlatform.value)
      requires Entry(currentPlatformName.value, currentPlatform.value) in wrappers
      modifies this`phase, this`calls, Repr
      ensures Valid() && phase == PlatformStarted
      ensures Started(currentPlatform.value, onError) && Launched(currentPlatform.value, onError)
      ensures forall o | o in Repr && o != AsObject(currentPlatform.value) :: unchanged(o)
      ensures calls == old(calls) + [Call(onInitialized, NoArgument)]
    {
      phase := PlatformStarted;
      var current := currentPlatform.value;
      assert AsObject(current) in Repr;
      Start(current, onError);
      calls := calls + [Call(onInitialized, NoArgument)];
    }

    /** Builds the wrapper of `platform` from its registered class and scoped options and stores it under `platform`. */
    method AddWrapper(platform: string) returns (a: Adapter)
      requires WrappersValid() && platform in supportedPlatforms && platform in registry.classes
      modifies this`wrappers, this`Repr
      ensures fresh(AsObject(a)) && Repr == old(Repr) + {AsObject(a)}
      ensures ClassOf(a) == registry.classes[platform]
      ensures OptionsOf(a) == AdapterOptions(ClassOf(a), WrapperConfig(config, platform))
      ensures HandlersOf(a) == AdapterHandlers(ClassOf(a), WrapperConfig(config, platform))
      ensures a.WebRef? ==> a.web.platform == WrapperConfig(config, platform)
      ensures wrappers == Store(old(wrappers), Entry(platform, a)) && WrappersValid()
    {
      a := NewAdapter(registry.classes[platform], WrapperConfig(config, platform));
      Repr := Repr + {AsObject(a)};
      StoreKeepsUnique(wrappers, Entry(platform, a));
      wrappers := Store(wrappers, Entry(platform, a));
    }

    /** The count-down's step for a platform whose wrapper is about to connect. */
    method CountConnection(platform: string)
      requires Valid() && platform in pending
      modifies this`pending, this`platformsCount, this`connections
      ensures pending == old(pending) - multiset{platform}
      ensures platformsCount == old(platformsCount) - 1 && connections == old(connections) + 1
      ensures Counting(platformsCount, pending, connections, stalled, supportedPlatforms)
      ensures platformsCount != 0 ==> connections < |supportedPlatforms|
      ensures platformsCount == 0 ==> connections == |supportedPlatforms| && stalled == 0 && pending == multiset{}
    {
      CountDown(platformsCount, pending, connections, stalled, supportedPlatforms, platform);
      pending, platformsCount, connections := pending - multiset{platform}, platformsCount - 1, connections + 1;
    }

    /** Connects the wrapper of a loaded platform and counts down. */
    method ConnectWrapper(platform: string) returns (a: Adapter)
      requires Valid() && platform in pending && platform in registry.classes
      modifies this`pending, this`wrappers, this`platformsCount, this`connections, this`Repr
      ensures fresh(AsObject(a)) && Repr == old(Repr) + {AsObject(a)}
      ensures ClassOf(a) == registry.classes[platform]
      ensures wrappers == Store(old(wrappers), Entry(platform, a))
      ensures pending == old(pending) - multiset{platform}
      ensures platformsCount == old(platformsCount) - 1 && connections == old(connections) + 1
      ensures platformsCount != 0 ==> Valid()
      ensures platformsCount == 0 ==> AllConnected() && currentPlatform == None && currentPlatformName == None
    {
      assert phase == ConnectingWrappers && currentPlatform == None;
      CountConnection(platform);
      a := AddWrapper(platform);
    }

    /** A loaded adapter script registered no class under `platform`: `OnError`, and the count stays. */
    method ReportMissingClass(platform: string)
      requires Valid() && platform in pending
      modifies this`pending, this`stalled, this`calls
      ensures Valid()
      ensures pending == old(pending) - multiset{platform} && stalled == old(stalled) + 1
      ensures calls == old(calls) + [Call(onError, ErrorArg(ClassNotFoundMessage(platform)))]
      ensures platformsCount > 0 && phase == ConnectingWrappers
    {
      Stall(platformsCount, pending, connections, stalled, supportedPlatforms, platform);
      pending, stalled := pending - multiset{platform}, stalled + 1;
      calls := calls + [Call(onError, ErrorArg(ClassNotFoundMessage(platform)))];
    }

    /**
     * The loaded adapter script registered a class under `platform`: the
     * wrapper is stored under `platform`, the count goes down, and when it
     * reaches zero the registry is emptied and `onConnected` runs. Before
     * zero, no existing wrapper changes; at zero, only the winner does, if
     * there is one.
     */
    method AdoptWrapper(platform: string)
      requires Valid() && platform in pending && platform in registry.classes
      modifies this`pending, this`calls, this`wrappers, this`platformsCount
      modifies this`connections, this`Repr, this`phase
      modifies this`currentPlatform, this`currentPlatformName, registry, Repr
      ensures Valid() && fresh(Repr - old(Repr))
      ensures pending == old(pending) - multiset{platform} && stalled == old(stalled)
      ensures platformsCount == old(platformsCount) - 1
      ensures exists a :: && ClassOf(a) == old(registry.classes)[platform]
                          && AsObject(a) !in old(Repr)
                          && wrappers == Store(old(wrappers), Entry(platform, a))
      ensures platformsCount != 0 ==>
        && phase == ConnectingWrappers && calls == old(calls) && registry.classes == old(registry.classes)
        && forall o | o in old(Repr) :: unchanged(o)
      ensures platformsCount == 0 ==> registry.classes == map[] && pending == multiset{}
      ensures platformsCount == 0 && FirstCurrent(wrappers).None? ==>
        && phase == PlatformNotFound && calls == old(calls) + [Call(onError, ErrorArg(NotFoundMessage))]
        && forall o | o in old(Repr) :: unchanged(o)
      ensures platformsCount == 0 && FirstCurrent(wrappers).Some? ==>
        && phase == PlatformStarted && currentPlatform == Some(FirstCurrent(wrappers).value.adapter)
        && Launched(currentPlatform.value, onError) && calls == old(calls) + [Call(onInitialized, NoArgument)]
        && forall o | o in old(Repr) && o != AsObject(currentPlatform.value) :: unchanged(o)
    {
      ghost var cls := registry.classes[platform];
      var a := ConnectWrapper(platform);
      if platformsCount == 0 {
        FinishConnecting();
      }
      assert ClassOf(a) == cls && AsObject(a) !in old(Repr) && wrappers == Store(old(wrappers), Entry(platform, a));
    }

    /**
     * The count reached zero: the registry is emptied and `onConnected` runs;
     * only the winner, if there is one, changes.
     */
    method FinishConnecting()
      requires AllConnected() && currentPlatform == None && currentPlatformName == None
      modifies this`currentPlatform, this`currentPlatformName, this`calls, this`phase, registry, Repr
      ensures Valid() && registry.classes == map[]
      ensures FirstCurrent(wrappers).None? ==>
        && phase == PlatformNotFound && calls == old(calls) + [Call(onError, ErrorArg(NotFoundMessage))]
        && unchanged(Repr)
      ensures FirstCurrent(wrappers).Some? ==>
        && phase == PlatformStarted && currentPlatform == Some(FirstCurrent(wrappers).value.adapter)
        && Launched(currentPlatform.value, onError) && calls == old(calls) + [Call(onInitialized, NoArgument)]
        && forall o | o in Repr && o != AsObject(currentPlatform.value) :: unchanged(o)
    {
      registry.classes := map[];
      OnConnected();
    }

    /**
     * The adapter script of `platform` is evaluated before its `onload` fires:
     * a script of this revision registers its own class under its own id, and
     * nothing else is registered.
     */
    method RunAdapterScript(platform: string)
      modifies registry
      ensures registry.classes == AfterScript(old(registry.classes), platform)
    {
      match ScriptClass(platform)
      case Some(cls) => registry.Register(platform, cls);
      case None =>
    }

    /**
     * `LoadLibrary`'s `onload` for the adapter script of `platform`, after the
     * script has run. Without a registered class the orchestrator reports it
     * and the count stays; otherwise the wrapper is adopted and the count
     * goes down.
     */
    method OnAdapterScriptLoaded(platform: string)
      requires Valid() && platform in pending
      modifies this`pending, this`stalled, this`calls, this`wrappers, this`platformsCount
      modifies this`connections, this`Repr, this`phase
      modifies this`currentPlatform, this`currentPlatformName, registry, Repr
      ensures Valid() && fresh(Repr - old(Repr))
      ensures pending == old(pending) - multiset{platform}
      ensures platform !in AfterScript(old(registry.classes), platform) ==>
        && calls == old(calls) + [Call(onError, ErrorArg(ClassNotFoundMessage(platform)))]
        && platformsCount == old(platformsCount) && platformsCount > 0
        && wrappers == old(wrappers) && phase == ConnectingWrappers
        && registry.classes == old(registry.classes)
        && forall o | o in old(Repr) :: unchanged(o)
      ensures platform in AfterScript(old(registry.classes), platform) ==>
        && platformsCount == old(platformsCount) - 1
        && exists a :: && ClassOf(a) == AfterScript(old(registry.classes), platform)[platform]
                      && AsObject(a) !in old(Repr)
                      && wrappers == Store(old(wrappers), Entry(platform, a))
      ensures platform in AfterScript(old(registry.classes), platform) && platformsCount != 0 ==>
        && phase == ConnectingWrappers && calls == old(calls)
        && registry.classes == AfterScript(old(registry.classes), platform)
        && forall o | o in old(Repr) :: unchanged(o)
      ensures platform in AfterScript(old(registry.classes), platform) && platformsCount == 0 ==>
        registry.classes == map[] && pending == multiset{}
      ensures platform in AfterScript(old(registry.classes), platform) && platformsCount == 0
              && FirstCurrent(wrappers).None? ==>
        && phase == PlatformNotFound && calls == old(calls) + [Call(onError, ErrorArg(NotFoundMessage))]
        && forall o | o in old(Repr) :: unchanged(o)
      ensures platform in AfterScript(old(registry.classes), platform) && platformsCount == 0
              && FirstCurrent(wrappers).Some? ==>
        && phase == PlatformStarted && currentPlatform == Some(FirstCurrent(wrappers).value.adapter)
        && Launched(currentPlatform.value, onError) && calls == old(calls) + [Call(onInitialized, NoArgument)]
        && forall o | o in old(Repr) && o != AsObject(currentPlatform.value) :: unchanged(o)
    {
      RunAdapterScript(platform);
      if platform !in registry.classes {
        ReportMissingClass(platform);
      } else {
        AdoptWrapper(platform);
      }
    }
  }
}
