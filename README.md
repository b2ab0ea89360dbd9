# Parallelix client, modelled in Dafny

Parallelix is a browser library that lets one mini-application run on several
hosts: the VK social network (through the VK Bridge SDK), Telegram (through
its WebApp SDK) and a plain web page. A `Parallelix` orchestrator:

1. loads one adapter script per configured platform;
2. collects the adapter classes those scripts register in a shared registry;
3. builds a wrapper per platform once every script has connected;
4. picks the wrapper whose `IsCurrentPlatform()` recognises the page;
5. hands it the orchestrator's callbacks and starts it.

Two revisions of the client are modelled:

- **The newer revision** (`client/libraries/`):
  - always adds a web fallback;
  - sorts the wrappers by `Priority` before detection;
  - has web, VK and Telegram adapters with real environment checks and host operations.
- **The older revision** (`client/`):
  - has no fallback;
  - walks the wrappers in insertion order;
  - its adapters are stubs: web and VK always claim the page, and Telegram never does.

How the model is laid out:

- **The orchestrators and adapters** are classes whose methods update their fields in place.
- **Asynchronous completions are event methods.** These are script loads, their failures and SDK replies. Each requires the outstanding request it answers.
- **Long-lived handlers.** An object's `OnError` and `OnInitialized` are `Handler` values, and each invocation is appended to the owner's `calls` log.
- **Per-call callbacks.** A single operation's `onSuccess`/`onError` become the `Reply` it returns.
- **Shared code.** The count-down that joins the script loads, the dictionary of wrappers and the script URLs live in `Bootstrap`, because both revisions share them.

The following source defects are modelled as written:

- **`LoadLibraries` never loads anything.** Its guard compares `typeof` with "array", which `typeof` never returns.
- **The specific-library filter never matches.** It compares a configuration string with a wrapper object, so it keeps nothing.
- **The bootstrap can stall.** A failed or class-less script load never counts down, so the count never reaches zero and `onConnected` never runs.
- **Some web methods throw before initialization.** The uninitialised web `ToggleFullscreen` and `HandleEvents` refer to an `onError` that is not in scope, and so throw.
- **The older web adapter loses its options.** Its class takes the orchestrator instance as its first parameter, but the older orchestrator passes the scoped options in that place. The options therefore land in `platform`, and the adapter runs with empty options and default handlers.

## Model

| member | source | states |
|---|---|---|
| `Js.TypeOf` | client/libraries/parallelix.js:148 | `typeof` never answers "array"; it answers "object" exactly for null, arrays and objects, and "function" exactly for functions |
| `Js.Extend` | client/libraries/parallelix.js:83 | `{...defaults, ...v}` has the keys of both; the values of `v` win, and the defaults fill in the rest |
| `Js.ToJsString` | client/libraries/parallelix.web.js:302 | `String(v)` keeps a string as it is and collapses every plain object to "[object Object]", so a stored object cannot be read back |
| `Js.IncludesIffOccurs` | client/libraries/parallelix.vk.js:112 | the scanning `includes` holds exactly when the substring occurs at some index |
| `Callbacks.HandlerFrom` | client/libraries/parallelix.js:95-100 | an option is taken as the handler exactly when it is a function; otherwise the logging fallback is used |
| `Configuration.MergedPlatforms` | client/libraries/parallelix.js:72-83 | a caller's `supportedPlatforms` replaces the default `["vk", "telegram"]` wholesale |
| `Configuration.PlatformOption` | client/libraries/parallelix.js:72-83 | a caller's platform entry wins; without one, VK and Telegram get the default `{}` and any other platform is undefined |
| `Configuration.WrapperConfig` | client/libraries/parallelix.js:124 | a platform's options are passed on when they are truthy and of type "object" (an object or an array), and `{}` otherwise |
| `Configuration.LoadLibraries` | client/libraries/parallelix.js:144-169 | every argument takes the immediate-success branch, because the guard's `typeof` test never fails |
| `Configuration.SpecificLibraryScripts` | client/libraries/parallelix.js:226-230 | the scripts kept are exactly the scripts of the libraries whose `platform` is strictly equal to the current wrapper: every kept script comes from such a library, and every such library's script is kept; the order of the kept scripts is not stated |
| `Configuration.SpecificLibrariesNeverMatch` | client/libraries/parallelix.js:226 | the filter keeps no library, whatever the configuration declares |
| `Wrapper.IsCurrentPlatform` | client/libraries/parallelix.js:43-46 | the base wrapper never claims the environment |
| `Wrapper.GetLaunchParams` | client/libraries/parallelix.js:53-57 | the base wrapper reports a not-implemented error |
| `Wrapper.Initialize` | client/libraries/parallelix.js:35-37 | the base `Initialize()` calls `OnInitialized()` with no argument |
| `Registry.PlatformRegistry.constructor` | client/libraries/parallelix.js:262 | the class registry starts empty |
| `Registry.PlatformRegistry.Register` | client/libraries/parallelix.vk.js:130 | registering a class under a platform id overwrites any earlier class under that id and keeps the others |
| `Registry.ScriptClass` | client/libraries/parallelix.vk.js:130 | each shipped adapter script registers the class named after its own platform id (newer revision: web.js:336, vk.js:130, telegram.js:113; older revision: client/parallelix.web.js:105, vk.js:55, telegram.js:28); no script registers anything for any other id |
| `Registry.AfterScript` | client/libraries/parallelix.web.js:336 | after a platform's script has run, that id maps to its script's class, every other registered id keeps its class, and nothing else is added (both revisions) |
| `LaunchParams.CollectPairs` | client/libraries/parallelix.web.js:89-94 | the `forEach` loop builds the dictionary `Collected`, whose keys are exactly the keys that occur |
| `LaunchParams.CollectedIsLastWins` | client/libraries/parallelix.web.js:92-94 | within one source, each key maps to the value of its last occurrence |
| `LaunchParams.MergedOverlay` | client/libraries/parallelix.web.js:105 | the merged parameters have the keys of both sources; on a clash, the fragment's value beats the query's |
| `LaunchParams.AsObject` | client/libraries/parallelix.web.js:106-107 | the object handed to `onSuccess` has exactly the dictionary's keys and string values |
| `Detection.SortPermutes` | client/libraries/parallelix.js:195 | sorting by priority is a permutation of the wrappers |
| `Detection.SortIsSorted` | client/libraries/parallelix.js:195 | the sorted wrappers have non-decreasing priority |
| `Detection.FirstMatch` | client/libraries/parallelix.js:198-204 | the scan finds nothing exactly when no wrapper matches; otherwise it finds a matching wrapper of the list |
| `Detection.FirstMatchIsEarliest` | client/libraries/parallelix.js:198-204 | the scan stops at the first match: the wrapper found is preceded only by wrappers that do not match |
| `Detection.SortedDetectionIsBest` | client/libraries/parallelix.js:195-204 | a stable sort followed by the first match picks `Best`, an independent definition of the winner |
| `Detection.BestIsEarliestMinimal` | client/libraries/parallelix.js:195-204 | `Best` is empty exactly when nothing matches; otherwise it is the unique earliest match of minimal priority |
| `Bootstrap.ScriptUrlsPerPlatform` | client/libraries/parallelix.js:115-118 | one script URL per platform, and the i-th names the i-th platform's adapter script |
| `Bootstrap.UnconnectedPlatforms` | client/libraries/parallelix.js:116 | a platform is loaded exactly when it is configured and has no wrapper yet |
| `Bootstrap.NothingConnected` | client/libraries/parallelix.js:115-116 | with no wrapper yet, every configured platform is loaded |
| `Bootstrap.RequestLoads` | client/libraries/parallelix.js:115-118 | the `forEach` loop requests the unconnected platforms' scripts, in order, and one load for each |
| `Bootstrap.ConnectWrappers` | client/libraries/parallelix.js:110-118 | with no wrapper yet, every configured platform's script is requested once, in order, from the revision's own directory (`/libraries/` here, `./client/` in client/parallelix.js:92-100) |
| `Bootstrap.Names` | client/libraries/parallelix.js:125 | the wrapper keys, in insertion order |
| `Bootstrap.StartCounting` | client/libraries/parallelix.js:114 | the count-down starts at the number of configured platforms, with every platform loading |
| `Bootstrap.CountDown` | client/libraries/parallelix.js:127-131 | a connection keeps the count equal to the platforms not yet connected; at zero, every platform has connected and none failed |
| `Bootstrap.Stall` | client/libraries/parallelix.js:119-122 | a load without a class leaves the count above zero for good |
| `Bootstrap.Store` | client/libraries/parallelix.js:125 | `wrappers[platform] = w` holds the new entry, and otherwise only old entries |
| `Bootstrap.StoreKeepsOthers` | client/libraries/parallelix.js:125 | entries under other keys survive the assignment |
| `Bootstrap.StoreKeyOrder` | client/libraries/parallelix.js:125 | a new key goes last, and an existing key keeps its place |
| `Bootstrap.StoreKeepsUnique` | client/libraries/parallelix.js:125 | the dictionary keeps one entry per key |
| `Bootstrap.StoreCovers` | client/libraries/parallelix.js:125-127 | storing the wrapper of a loading platform keeps a platform covered: once it is no longer loading and nothing has stalled, it has a wrapper |
| `Web.WebParameters` | client/libraries/parallelix.web.js:269 | the web part of a parameter bag is always truthy, so reading `key` or `value` from it never dereferences undefined; it is the `web` entry whenever that entry is truthy |
| `Web.OtherPlatformsIgnored` | client/libraries/parallelix.web.js:269 | entries for other platforms never change what the web adapter reads |
| `Web.IsCurrentPlatform` | client/libraries/parallelix.web.js:117-121 | the web adapter claims every environment |
| `Web.WebAdapter.constructor` | client/libraries/parallelix.web.js:18-43 | the options are the caller's over `manifest: "/manifest.json"`; handlers come from the options; the adapter is uninitialised |
| `Web.WebAdapter.Initialize` | client/libraries/parallelix.web.js:56-77 | the install-prompt listener is installed iff a manifest is configured; the adapter becomes initialised with itself as invoker; `OnInitialized({})` is called, then the message listener is installed |
| `Web.WebAdapter.HandleEvents` | client/libraries/parallelix.web.js:126-142 | it throws before initialisation; afterwards it installs the message listener |
| `Web.WebAdapter.OnBeforeInstallPrompt` | client/libraries/parallelix.web.js:66-69 | the prompt event is kept exactly when the listener was installed |
| `Web.WebAdapter.GetLaunchParams` | client/libraries/parallelix.web.js:84-111 | it stores and returns the query parameters overlaid by the fragment's, whether or not the adapter is initialised |
| `Web.WebAdapter.GetClientInfo` | client/libraries/parallelix.web.js:149-165 | it fails iff the adapter is uninitialised; otherwise it returns the web platform's client info |
| `Web.WebAdapter.ToggleFullscreen` | client/libraries/parallelix.web.js:171-186 | it throws iff the adapter is uninitialised, and otherwise calls no callback |
| `Web.WebAdapter.AddToHomeScreen` | client/libraries/parallelix.web.js:193-211 | once initialised, it succeeds iff an install prompt was captured, and otherwise reports the missing manifest |
| `Web.WebAdapter.AddToFavorites` | client/libraries/parallelix.web.js:219-249 | once initialised, it succeeds iff the browser offers `sidebar.addPanel` or IE conditional compilation, and otherwise reports no support |
| `Web.WebAdapter.GetStorage` | client/libraries/parallelix.web.js:265-282 | it fails iff the adapter is uninitialised; otherwise it returns `{result}`, the stored string or null |
| `Web.WebAdapter.SetStorage` | client/libraries/parallelix.web.js:290-307 | once initialised, it stores `String(value)` under `String(key)`; before that, storage is unchanged |
| `Web.WebAdapter.CloseApplication` | client/libraries/parallelix.web.js:314-325 | it fails iff the adapter is uninitialised, and otherwise calls no callback |
| `Web.StorageRoundTrip` | client/libraries/parallelix.web.js:265-307 | a `SetStorage` followed by a `GetStorage` of the same key reads back the stored string |
| `VK.AnyOriginIsVK` | client/libraries/parallelix.vk.js:109-117 | the early-exit loop holds iff some ancestor origin contains "vk.com" |
| `VK.IsCurrentPlatform` | client/libraries/parallelix.vk.js:105-126 | VK is current iff an ancestor origin mentions vk.com or the query has `vk_app_id` |
| `VK.VKAdapter.constructor` | client/libraries/parallelix.vk.js:19-42 | the options are copied; handlers come from the options; the adapter is uninitialised and nothing is outstanding |
| `VK.VKAdapter.Initialize` | client/libraries/parallelix.vk.js:55-59 | it requests the bridge script and nothing else |
| `VK.VKAdapter.OnBridgeLoaded` | client/libraries/parallelix.vk.js:59-61 | the bridge loaded, so `VKWebAppInit` is sent |
| `VK.VKAdapter.OnBridgeLoadFailed` | client/libraries/parallelix.vk.js:71 | the script's `onerror` event is passed to `OnError`, and the adapter stays uninitialised |
| `VK.VKAdapter.OnInitReply` | client/libraries/parallelix.vk.js:61-67 | initialised, with `OnInitialized(data)` called, iff `data.result` is truthy; otherwise `OnError` is called |
| `VK.VKAdapter.OnInitRejected` | client/libraries/parallelix.vk.js:68-70 | a rejected init calls `OnError` |
| `VK.VKAdapter.GetLaunchParams` | client/libraries/parallelix.vk.js:79-89 | it is refused before initialisation, and otherwise sends a bridge request |
| `VK.VKAdapter.OnLaunchParamsReply` | client/libraries/parallelix.vk.js:89-95 | the reply is stored and passed on iff it has a truthy `vk_app_id` |
| `VK.VKAdapter.OnLaunchParamsRejected` | client/libraries/parallelix.vk.js:96-98 | a rejection is passed to `onError`, and nothing is stored |
| `Telegram.IsCurrentPlatform` | client/libraries/parallelix.telegram.js:94-109 | Telegram is current iff the SDK global exists or the hash contains `tgWebAppData` |
| `Telegram.TelegramAdapter.constructor` | client/libraries/parallelix.telegram.js:19-43 | the options are copied; handlers come from the options; the adapter is uninitialised |
| `Telegram.TelegramAdapter.Initialize` | client/libraries/parallelix.telegram.js:56-60 | it requests the SDK script and nothing else |
| `Telegram.TelegramAdapter.OnSdkLoaded` | client/libraries/parallelix.telegram.js:60-62 | the adapter becomes initialised, then `OnInitialized({})` is called |
| `Telegram.TelegramAdapter.OnSdkLoadFailed` | client/libraries/parallelix.telegram.js:63 | the script's `onerror` event is passed to `OnError`, and the flag is unchanged |
| `Telegram.TelegramAdapter.GetLaunchParams` | client/libraries/parallelix.telegram.js:71-88 | it is refused unless initialised with the SDK global present; otherwise it stores and returns `initDataUnsafe` and `initData` |
| `Orchestrator.Recognise` | client/libraries/parallelix.js:199 | the web adapter always claims the page; VK and Telegram answer their own environment checks |
| `Orchestrator.Priority` | client/libraries/parallelix.web.js:49-51 | the web adapter's priority is 1000 and every other adapter's is smaller, so the web fallback is tried last |
| `Orchestrator.NewAdapter` | client/libraries/parallelix.js:124-125 | a fresh wrapper of the registered class, with that class's merged options and handlers |
| `Orchestrator.Start` | client/libraries/parallelix.js:235-240 | the winner takes the orchestrator's `OnError` and the forward and keeps its options; its own `Initialize()` then runs: a web winner is initialised, has its message listener installed (and its install-prompt listener when a manifest is configured), keeps its launch parameters and stored prompt event, and has called the forward with `{}`; a VK or Telegram winner has requested its SDK script, whose load is now outstanding (one more pending `onload`), and has called nothing and changed nothing else yet |
| `Orchestrator.Candidates` | client/libraries/parallelix.js:195 | each wrapper as detection sees it: its priority and whether it claims the page |
| `Orchestrator.Detected` | client/libraries/parallelix.js:191-205 | detection finds nothing exactly when no wrapper claims the page; otherwise it finds a claiming wrapper |
| `Orchestrator.DetectedIsBest` | client/libraries/parallelix.js:191-205 | the detected wrapper has minimal priority among the claimants, and comes earliest among ties |
| `Orchestrator.WebIsFallback` | client/libraries/parallelix.js:191-205 | when VK or Telegram claims the page, the web wrapper is not chosen |
| `Orchestrator.WebGuaranteesDetection` | client/libraries/parallelix.js:191-205 | with the web wrapper connected, some platform is always detected |
| `Orchestrator.ConnectedWebIsDetected` | client/libraries/parallelix.js:191-205 | once the web wrapper is stored, with each shipped platform's wrapper of its script's class, detection finds a platform |
| `Orchestrator.SupportedPlatforms` | client/libraries/parallelix.js:89-92 | the merged list, with "web" appended when it is missing |
| `Orchestrator.Parallelix.constructor` | client/libraries/parallelix.js:69-104 | the configured platforms include web; handlers come from the options; nothing is connected |
| `Orchestrator.Parallelix.Wrapper` | client/libraries/parallelix.js:249-251 | the current wrapper exists iff a platform was started, and is stored under the current name |
| `Orchestrator.Parallelix.GetPlatformName` | client/libraries/parallelix.js:257-259 | the current name is a configured platform with a wrapper |
| `Orchestrator.Parallelix.Initialize` | client/libraries/parallelix.js:211-215 | one load per configured platform, with the count-down at their number |
| `Orchestrator.Parallelix.OnAdapterScriptFailed` | client/libraries/parallelix.js:133 | `OnError(event)` is called, and the count stays above zero |
| `Orchestrator.Parallelix.DetectPlatform` | client/libraries/parallelix.js:191-205 | the current wrapper becomes `Detected`; with no claimant, nothing changes |
| `Orchestrator.Parallelix.OnConnected` | client/libraries/parallelix.js:215-242 | if no wrapper claims the page, `OnError("Current platform is not found.")` is called and no wrapper changes; otherwise the detected winner becomes current and is started (`Started`, so a VK or Telegram winner's script load is outstanding), no other wrapper changes, and the orchestrator's log gains exactly one `OnInitialized()` for a web winner and nothing for the others |
| `Orchestrator.Parallelix.ReportNotFound` | client/libraries/parallelix.js:220-223 | `OnError("Current platform is not found.")` is called |
| `Orchestrator.Parallelix.StartPlatform` | client/libraries/parallelix.js:225-241 | the winner is rebound and started (`Started`, so a VK or Telegram winner's script load is outstanding), no other wrapper changes, and the orchestrator's log gains exactly one `OnInitialized()` for a web winner and nothing for the others |
| `Orchestrator.Parallelix.AddWrapper` | client/libraries/parallelix.js:124-126 | the wrapper is built from the registered class and stored under its platform |
| `Orchestrator.Parallelix.CountConnection` | client/libraries/parallelix.js:127-129 | the count goes down by one and still equals the platforms not yet connected; at zero, nothing is loading or stalled |
| `Orchestrator.Parallelix.ConnectWrapper` | client/libraries/parallelix.js:124-128 | the wrapper is stored and the count goes down by one; at zero, every platform has connected, nothing stalled, and the web wrapper is stored |
| `Orchestrator.Parallelix.ReportMissingClass` | client/libraries/parallelix.js:119-122 | `OnError` is called with the missing-class message, and the count stays |
| `Orchestrator.Parallelix.AdoptWrapper` | client/libraries/parallelix.js:124-132 | a fresh wrapper of the registered class is stored and the count goes down; before zero no existing wrapper changes and nothing is called; at zero the registry is emptied, a platform is always detected, only the winner changes, started, and the log gains exactly one `OnInitialized()` for a web winner and nothing otherwise |
| `Orchestrator.Parallelix.FinishConnecting` | client/libraries/parallelix.js:129-132 | at zero the registry is emptied and `onConnected` runs; with the web wrapper stored, a platform is always detected and started, no other wrapper changes, and the log gains exactly one `OnInitialized()` for a web winner and nothing otherwise |
| `Orchestrator.Parallelix.RunAdapterScript` | client/libraries/parallelix.telegram.js:113 | running a platform's adapter script leaves the registry as `AfterScript` says |
| `Orchestrator.Parallelix.OnAdapterScriptLoaded` | client/libraries/parallelix.js:118-133 | after the script has registered its class: without a class, `OnError` is called with the missing-class message, the count stays and no wrapper changes; otherwise a wrapper of the script's class is adopted, and at zero a platform is started and the log gains exactly one `OnInitialized()` for a web winner and nothing otherwise |
| `Orchestrator.Parallelix.OnWinnerBridgeLoaded` | client/libraries/parallelix.vk.js:59-61 | the VK winner's bridge script loaded: that load is no longer outstanding, one `VKWebAppInit` reply is now awaited, the winner keeps its handlers, flag, log, options, launch parameters, pending launch request and requested scripts, and the orchestrator calls nothing |
| `Orchestrator.Parallelix.OnWinnerInitReply` | client/libraries/parallelix.vk.js:61-70 | the VK winner's init reply: with a truthy `result` the winner is initialised and its forwarded `OnInitialized(data)` runs the orchestrator's `OnInitialized()`; otherwise the winner stays as initialised as it was and calls the orchestrator's `OnError`, and the orchestrator's own log is unchanged; either way the winner keeps its handlers, options, launch parameters, pending launch request, bridge loads and requested scripts |
| `Orchestrator.Parallelix.OnWinnerSdkLoaded` | client/libraries/parallelix.telegram.js:60-62 | the Telegram winner initialises, and its forwarded `OnInitialized({})` runs the orchestrator's `OnInitialized()`; the winner keeps its handlers, options, launch parameters (parsed and raw) and requested scripts |
| `LegacyWeb.WebAdapter.constructor` | client/parallelix.web.js:18-41 | with one argument, the options are `{}` and the handlers are the defaults; the argument becomes `platform` |
| `LegacyWeb.WebAdapter.Initialize` | client/parallelix.web.js:54-57 | `OnInitialized({})` is called, and `isInitialized` stays false |
| `LegacyWeb.WebAdapter.GetLaunchParams` | client/parallelix.web.js:64-91 | it stores and returns the query overlaid by the fragment, with no check |
| `LegacyVK.VKAdapter.constructor` | client/parallelix.vk.js:14-33 | the options are copied over empty defaults, and the handlers come from the options |
| `LegacyVK.VKAdapter.Initialize` | client/parallelix.vk.js:38-43 | `OnInitialized()` is called with no argument |
| `LegacyTelegram.TelegramAdapter.constructor` | client/parallelix.telegram.js:14-25 | the options are kept as given, and the handlers come from them |
| `LegacyTelegram.TelegramAdapter.Initialize` | client/parallelix.js:34-36 | the inherited `Initialize()` calls `OnInitialized()` with no argument |
| `LegacyOrchestrator.IsCurrentPlatform` | client/parallelix.web.js:97-101 | a wrapper of this revision claims the page iff it is not Telegram's (web and VK always answer true; Telegram inherits false) |
| `LegacyOrchestrator.NewAdapter` | client/parallelix.js:106-107 | a fresh wrapper of the registered class, with `AdapterOptions` and `AdapterHandlers`: web gets empty options, default handlers and the scoped options in `platform`; VK copies the options; Telegram keeps them as given; both take their handlers from them |
| `LegacyOrchestrator.Start` | client/parallelix.js:210-215 | the winner takes the orchestrator's `OnError` and the forward and keeps its options; its `Initialize()` calls the forward once (with `{}` from web, with no argument from VK and Telegram), and a web winner keeps its flag, its `platform` argument and its launch parameters |
| `LegacyOrchestrator.FirstCurrent` | client/parallelix.js:174-180 | nothing is found iff no wrapper claims the page; otherwise a claiming wrapper is found |
| `LegacyOrchestrator.FirstCurrentIsEarliest` | client/parallelix.js:174-180 | the chosen wrapper is preceded only by Telegram wrappers |
| `LegacyOrchestrator.FirstCurrentKeepsEarlierChoice` | client/parallelix.js:174-180 | appending wrappers never changes a choice already made |
| `LegacyOrchestrator.Parallelix.constructor` | client/parallelix.js:56-86 | the configured platforms are the merged list, without a web fallback |
| `LegacyOrchestrator.Parallelix.Wrapper` | client/parallelix.js:224-226 | the current wrapper exists iff a platform was started, and is never Telegram's |
| `LegacyOrchestrator.Parallelix.GetPlatformName` | client/parallelix.js:232-234 | the current name is a configured platform with a wrapper |
| `LegacyOrchestrator.Parallelix.Initialize` | client/parallelix.js:186-190 | the count-down starts at the number of platforms; with none configured, nothing is pending, so `onConnected` never runs |
| `LegacyOrchestrator.Parallelix.OnAdapterScriptFailed` | client/parallelix.js:114 | `OnError(event)` is called, and the count stays above zero |
| `LegacyOrchestrator.Parallelix.DetectPlatform` | client/parallelix.js:172-181 | the `for...in` loop makes `FirstCurrent` the current wrapper; with no claimant, nothing changes |
| `LegacyOrchestrator.Parallelix.OnConnected` | client/parallelix.js:190-217 | if no wrapper claims the page, `OnError` is called and no wrapper changes; otherwise the first claimant becomes current and is started (`Started`), no other wrapper changes, and the orchestrator's `OnInitialized()` runs once |
| `LegacyOrchestrator.Parallelix.StartPlatform` | client/parallelix.js:201-216 | the winner is rebound and started (`Started`), no other wrapper changes, and the forward calls `OnInitialized()` |
| `LegacyOrchestrator.Parallelix.AddWrapper` | client/parallelix.js:106-107 | the wrapper is built from the registered class with that class's `AdapterOptions` and `AdapterHandlers`, and stored under its platform |
| `LegacyOrchestrator.Parallelix.CountConnection` | client/parallelix.js:108-110 | the count goes down by one and still equals the platforms not yet connected; at zero, nothing is loading or stalled |
| `LegacyOrchestrator.Parallelix.ConnectWrapper` | client/parallelix.js:106-108 | the wrapper is stored and the count goes down by one; at zero, every platform has connected |
| `LegacyOrchestrator.Parallelix.ReportMissingClass` | client/parallelix.js:101-104 | `OnError` is called with the missing-class message, and the count stays |
| `LegacyOrchestrator.Parallelix.AdoptWrapper` | client/parallelix.js:106-113 | the wrapper is stored and the count goes down; before zero no existing wrapper changes; at zero the registry is emptied and either `OnError` reports no platform, with no wrapper changed, or the first claimant alone is started and `OnInitialized()` runs |
| `LegacyOrchestrator.Parallelix.FinishConnecting` | client/parallelix.js:110-113 | at zero the registry is emptied and `onConnected` runs: no claimant means `OnError` and no wrapper changed; otherwise only the first claimant changes, started, and `OnInitialized()` runs |
| `LegacyOrchestrator.Parallelix.RunAdapterScript` | client/parallelix.telegram.js:28 | running a platform's adapter script leaves the registry as `AfterScript` says |
| `LegacyOrchestrator.Parallelix.OnAdapterScriptLoaded` | client/parallelix.js:100-114 | after the script has registered its class: without a class, `OnError` is called with the missing-class message, the count stays and no wrapper changes; otherwise a wrapper of the script's class is adopted |

## Left out

- **`LoadLibrary`** (client/libraries/parallelix.js:178-185): it appends a `<script>` element to the DOM. It is modelled as a requested URL plus later `onload`/`onerror` event methods.
- **The counting branch of `LoadLibraries`** (client/libraries/parallelix.js:153-168) is unreachable, because the guard always returns first, so it is not modelled.
- **URL query parsing.** `URLSearchParams` is not modelled, including percent-decoding and `+` handling. The query and the fragment reach the model already split into key/value pairs.
- **Host integration.** The VK Bridge, the Telegram SDK, `window.open`, `window.close`, fullscreen, the manifest `<link>` and `navigator` are environment inputs or omitted side effects.
- **`OpenLink` and `GoBack`** (client/libraries/parallelix.web.js:255-257, 330-332) only call browser navigation, so they are not modelled.
- **The web message dispatch** (client/libraries/parallelix.web.js:136-141): it calls `GetEventListener`, which the adapter does not define. Only the listener's installation is modelled.
- VK.VKAdapter.OnLaunchParamsReply: the error message omits the JSON text of the reply.
- **JavaScript object semantics:**
  - spreading an array or a string (modelled as spreading nothing);
  - inherited prototype keys;
  - the ordering of integer-like keys, which `for...in` and `Object.values` visit first.
- **Non-array values** of `supportedPlatforms` or `specificLibraries`, which make the source throw. The model types them as lists.
- **Aliasing of the caller's array.** `push("web")` mutates the array the caller passed in `supportedPlatforms`. The model keeps a separate list.
- **A second `Initialize()`** of an orchestrator is not modelled; its methods require the phase after construction.
- **Exceptions from browser calls** inside the `try` blocks of `AddToFavorites` and the web `GetLaunchParams`: the catch-to-`onError` path is not modelled.
- **User callbacks that throw**, and the `name` field the newer orchestrator writes on each wrapper, are not modelled.
- **The logging fallbacks.** Their console output is not modelled; each is represented by `LogDefault(owner)`.
- Js.ToJsString: `String(f)` of a function is its source text in JavaScript; the model answers the fixed string "function", because function bodies are not modelled.
- **Custom adapters.** Only the three adapter classes the repository ships (web, VK, Telegram) are modelled. A page that loads its own adapter script registering another class is not.
- **Numbers.** Priorities are integers, and JavaScript floating point is not modelled.
- **Script load failures.** A failed script's `onerror` argument (an `Event`) reaches `OnError` as an opaque `Value(event)`. This holds for the orchestrator's adapter scripts and for the VK bridge and Telegram SDK scripts alike.
- **The web winner's report.** When the newer orchestrator starts a web winner, the forwarded `OnInitialized` is recorded on the orchestrator directly, because it runs synchronously inside `Initialize()`.
- **The unused `platformClasses` field** of both orchestrators is not modelled.
- **Detection in the older orchestrator** reads no environment, because none of its adapters does.
