/**
 * The orchestrator's configuration, `{...defaultOptions, ...options}`, and
 * the pieces of bootstrap logic both revisions share word for word.
 */
module Configuration {
  import opened Common
  import opened Js

  /** `{platform, script}`: an extra script meant for one platform. */
  datatype Library = Library(platform: JsValue, script: JsValue)

  /**
   * The constructor's `options`. A key the caller did not pass is `None` (or
   * absent from `platformOptions`); `platformOptions` holds the per-platform
   * entries such as `vk: {...}`.
   */
  datatype Config = Config(
    supportedPlatforms: Option<seq<string>>,
    platformOptions: map<string, JsValue>,
    specificLibraries: Option<seq<Library>>,
    onError: JsValue,
    onInitialized: JsValue
  )

  const DefaultPlatforms: seq<string> := ["vk", "telegram"]
  const DefaultPlatformOptions: map<string, JsValue> := map["vk" := EmptyObject, "telegram" := EmptyObject]

  /** `options.supportedPlatforms` after the merge: the caller's list replaces the default wholesale. */
  function MergedPlatforms(config: Config): (r: seq<string>)
    ensures config.supportedPlatforms.Some? ==> r == config.supportedPlatforms.value
    ensures config.supportedPlatforms.None? ==> r == ["vk", "telegram"]
  {
    config.supportedPlatforms.GetOr(DefaultPlatforms)
  }

  /** `options[platform]` after the merge. */
  function PlatformOption(config: Config, platform: string): (r: JsValue)
    ensures platform in config.platformOptions ==> r == config.platformOptions[platform]
    ensures platform !in config.platformOptions && (platform == "vk" || platform == "telegram") ==> r == EmptyObject
    ensures platform !in config.platformOptions && platform != "vk" && platform != "telegram" ==> r.Undefined?
  {
    var merged := DefaultPlatformOptions + config.platformOptions;
    if platform in merged then merged[platform] else Undefined
  }

  /** `options[platform] && typeof options[platform] === "object" ? options[platform] : {}`. */
  function WrapperConfig(config: Config, platform: string): (r: JsValue)
    ensures r.Obj? || r.Arr?
    ensures (PlatformOption(config, platform).Obj? || PlatformOption(config, platform).Arr?)
      ==> r == PlatformOption(config, platform)
    ensures !(PlatformOption(config, platform).Obj? || PlatformOption(config, platform).Arr?)
      ==> r == EmptyObject
  {
    var v := PlatformOption(config, platform);
    if Truthy(v) && TypeOf(v) == "object" then v else EmptyObject
  }

  /** `libraries.length`. */
  function Length(v: JsValue): JsValue {
    match v
    case Arr(items) => Num(|items|)
    case Str(s) => Num(|s|)
    case _ => Undefined
  }

  datatype LoadPlan =
    | SucceedNow            // `onSuccess()` is called at once and nothing is loaded
    | LoadEach(libraries: JsValue)  // one script load per element, joined by a count-down

  /**
   * `LoadLibraries(libraries, onSuccess, onError)`. The guard compares
   * `typeof libraries` with "array", which `typeof` never returns, so every
   * argument takes the first branch.
   */
  function LoadLibraries(libraries: JsValue): (p: LoadPlan)
    ensures p == SucceedNow
  {
    if !Truthy(libraries) || Length(libraries) == Num(0) || TypeOf(libraries) != "array" then SucceedNow
    else LoadEach(libraries)
  }

  /** The two sides of the filter's `===`: a configuration value, or a wrapper object. */
  datatype Operand = ConfigValue(v: JsValue) | WrapperObject(platform: string)

  /** `===` on these operands: a configuration value is never identical to a wrapper object. */
  predicate StrictEquals(a: Operand, b: Operand) {
    a == b
  }

  /** `specificLibraries.filter(l => l.platform === currentPlatform).map(l => l.script)`. */
  function SpecificLibraryScripts(libraries: seq<Library>, current: string): (scripts: seq<JsValue>)
    ensures |scripts| <= |libraries|
    ensures forall s | s in scripts :: exists l | l in libraries ::
      StrictEquals(ConfigValue(l.platform), WrapperObject(current)) && l.script == s
    ensures forall l | l in libraries && StrictEquals(ConfigValue(l.platform), WrapperObject(current)) ::
      l.script in scripts
  {
    if libraries == [] then []
    else
      var l, rest := libraries[0], SpecificLibraryScripts(libraries[1..], current);
      assert forall x | x in libraries[1..] :: x in libraries;
      if StrictEquals(ConfigValue(l.platform), WrapperObject(current)) then [l.script] + rest else rest
  }

  /** The filter keeps nothing, whatever the libraries declare. */
  lemma {:induction false} SpecificLibrariesNeverMatch(libraries: seq<Library>, current: string)
    ensures SpecificLibraryScripts(libraries, current) == []
  {
    if libraries != [] {
      SpecificLibrariesNeverMatch(libraries[1..], current);
    }
  }
}
