/**
 * `Parallelix._platformClasses`: the process-wide map from a platform id to
 * the adapter class that registered under it. An adapter script fills it as a
 * side effect of being evaluated; the orchestrator empties it once every
 * platform has connected.
 */
module Registry {
  import opened Common

  /** The adapter classes the repository's scripts register. */
  datatype AdapterClass = WebClass | VKClass | TelegramClass

  /** The platform id each class registers under, which its default handlers also log. */
  function ClassName(cls: AdapterClass): string {
    match cls
    case WebClass => "web"
    case VKClass => "vk"
    case TelegramClass => "telegram"
  }

  /**
   * The class the adapter script of `platform` registers when it runs: in
   * both revisions each shipped script registers its own class under its own
   * id, and there is no script for any other id.
   */
  function ScriptClass(platform: string): (r: Option<AdapterClass>)
    ensures r.Some? ==> ClassName(r.value) == platform
    ensures r.None? <==> platform != "web" && platform != "vk" && platform != "telegram"
  {
    if platform == "web" then Some(WebClass)
    else if platform == "vk" then Some(VKClass)
    else if platform == "telegram" then Some(TelegramClass)
    else None
  }

  /** The registry once the adapter script of `platform` has run. */
  function AfterScript(classes: map<string, AdapterClass>, platform: string): (r: map<string, AdapterClass>)
    ensures ScriptClass(platform).Some? ==> platform in r && r[platform] == ScriptClass(platform).value
    ensures ScriptClass(platform).None? ==> r == classes
    ensures forall id | id in classes && id != platform :: id in r && r[id] == classes[id]
    ensures forall id | id in r :: id in classes || id == platform
  {
    match ScriptClass(platform)
    case Some(cls) => classes[platform := cls]
    case None => classes
  }

  class PlatformRegistry<C> {
    var classes: map<string, C>

    constructor ()
      ensures classes == map[]
    {
      classes := map[];
    }

    /** `Parallelix._platformClasses[id] = Class`: a later registration overwrites an earlier one. */
    method Register(id: string, cls: C)
      modifies this
      ensures classes == old(classes)[id := cls]
    {
      classes := classes[id := cls];
    }
  }
}
