/**
 * The `ConnectWrappers` machinery both revisions of the orchestrator share:
 * the wrappers dictionary, one adapter-script load per platform without a
 * wrapper, and the count-down that fires once every load found its class.
 */
module Bootstrap {

  /**
   * `wrappers[name]`: one entry of an orchestrator's dictionary of wrappers,
   * kept in key insertion order (which is the order `for...in` and
   * `Object.values` visit).
   */
  datatype Entry<A> = Entry(name: string, adapter: A)

  const NotFoundMessage := "Current platform is not found."

  /** The error reported when a loaded adapter script registered no class under `platform`. */
  function ClassNotFoundMessage(platform: string): string {
    "\"" + platform + "\" platform wrapper class is not found."
  }

  /** `${dir}parallelix.${platform}.js`: the adapter script of `platform` in the directory `dir`. */
  function AdapterScriptUrl(dir: string, platform: string): string {
    dir + "parallelix." + platform + ".js"
  }

  /** The script URLs requested for `platforms`, in order. */
  function ScriptUrls(dir: string, platforms: seq<string>): seq<string> {
    if platforms == [] then []
    else ScriptUrls(dir, platforms[..|platforms| - 1]) + [AdapterScriptUrl(dir, platforms[|platforms| - 1])]
  }

  /** One URL per platform, each naming the platform's adapter script. */
  lemma {:induction false} ScriptUrlsPerPlatform(dir: string, platforms: seq<string>)
    ensures |ScriptUrls(dir, platforms)| == |platforms|
    ensures forall i | 0 <= i < |platforms| :: ScriptUrls(dir, platforms)[i] == AdapterScriptUrl(dir, platforms[i])
  {
    if platforms != [] {
      ScriptUrlsPerPlatform(dir, platforms[..|platforms| - 1]);
    }
  }

  lemma ScriptUrlsAppend(dir: string, platforms: seq<string>, platform: string)
    ensures ScriptUrls(dir, platforms + [platform]) == ScriptUrls(dir, platforms) + [AdapterScriptUrl(dir, platform)]
  {
    assert (platforms + [platform])[..|platforms|] == platforms;
  }

  /** The platforms of `platforms` that are not among `connected`, in order. */
  function Unconnected(platforms: seq<string>, connected: seq<string>): seq<string> {
    if platforms == [] then []
    else
      var last := platforms[|platforms| - 1];
      Unconnected(platforms[..|platforms| - 1], connected) + (if last in connected then [] else [last])
  }

  lemma UnconnectedAppend(platforms: seq<string>, platform: string, connected: seq<string>)
    ensures Unconnected(platforms + [platform], connected)
         == Unconnected(platforms, connected) + (if platform in connected then [] else [platform])
  {
    assert (platforms + [platform])[..|platforms|] == platforms;
  }

  /** Exactly the platforms without a wrapper are loaded. */
  lemma {:induction false} UnconnectedPlatforms(platforms: seq<string>, connected: seq<string>)
    ensures forall p | p in Unconnected(platforms, connected) :: p in platforms && p !in connected
    ensures forall p | p in platforms && p !in connected :: p in Unconnected(platforms, connected)
  {
    if platforms != [] {
      var init, last := platforms[..|platforms| - 1], platforms[|platforms| - 1];
      UnconnectedPlatforms(init, connected);
      assert platforms == init + [last];
    }
  }

  /** With no wrapper connected yet, every platform is loaded, in order. */
  lemma {:induction false} NothingConnected(platforms: seq<string>)
    ensures Unconnected(platforms, []) == platforms
  {
    if platforms != [] {
      var init := platforms[..|platforms| - 1];
      NothingConnected(init);
      assert platforms == init + [platforms[|platforms| - 1]];
    }
  }

  /**
   * The `forEach` of `ConnectWrappers`: one adapter-script load for every
   * platform that has no wrapper yet.
   */
  method RequestLoads(dir: string, platforms: seq<string>, connected: seq<string>) returns (loads: multiset<string>, urls: seq<string>)
    ensures loads == multiset(Unconnected(platforms, connected))
    ensures urls == ScriptUrls(dir, Unconnected(platforms, connected))
  {
    loads, urls := multiset{}, [];
    for i := 0 to |platforms|
      invariant loads == multiset(Unconnected(platforms[..i], connected))
      invariant urls == ScriptUrls(dir, Unconnected(platforms[..i], connected))
    {
      var platform := platforms[i];
      assert platforms[..i + 1] == platforms[..i] + [platform];
      UnconnectedAppend(platforms[..i], platform, connected);
      if platform !in connected {
        ScriptUrlsAppend(dir, Unconnected(platforms[..i], connected), platform);
        urls := urls + [AdapterScriptUrl(dir, platform)];
        loads := loads + multiset{platform};
      } else {
        assert Unconnected(platforms[..i], connected) + [] == Unconnected(platforms[..i], connected);
      }
    }
    assert platforms[..|platforms|] == platforms;
  }

  /**
   * `ConnectWrappers`, in both revisions: the adapter-script loads it
   * requests, one per configured platform without a wrapper, in order.
   * Before the first call nothing is connected, so every configured
   * platform's script is requested.
   */
  method ConnectWrappers<A>(dir: string, platforms: seq<string>, ws: seq<Entry<A>>) returns (loads: multiset<string>, urls: seq<string>)
    ensures ws == [] ==> loads == multiset(platforms) && urls == ScriptUrls(dir, platforms)
  {
    loads, urls := RequestLoads(dir, platforms, Names(ws));
    if ws == [] {
      NothingConnected(platforms);
    }
  }

  function Names<A>(ws: seq<Entry<A>>): (ns: seq<string>)
    ensures |ns| == |ws| && forall i | 0 <= i < |ws| :: ns[i] == ws[i].name
  {
    if ws == [] then [] else [ws[0].name] + Names(ws[1..])
  }

  /**
   * The count-down's bookkeeping: it started at the number of configured
   * platforms and drops once per connected wrapper, and every configured
   * platform is still loading, connected, or stalled (its script failed or
   * registered no class).
   */
  ghost predicate Counting(count: int, pending: multiset<string>, connections: nat, stalled: nat, platforms: seq<string>) {
    && count == |platforms| - connections
    && |pending| + connections + stalled == |platforms|
    && pending <= multiset(platforms)
  }

  lemma StartCounting(platforms: seq<string>)
    ensures Counting(|platforms|, multiset(platforms), 0, 0, platforms)
  {
  }

  /** A load that found its class: the count drops, and at zero nothing is loading or stalled. */
  lemma CountDown(count: int, pending: multiset<string>, connections: nat, stalled: nat, platforms: seq<string>, p: string)
    requires Counting(count, pending, connections, stalled, platforms) && p in pending
    ensures Counting(count - 1, pending - multiset{p}, connections + 1, stalled, platforms)
    ensures p in platforms
    ensures count - 1 != 0 ==> connections + 1 < |platforms|
    ensures count - 1 == 0 ==> connections + 1 == |platforms| && stalled == 0 && pending - multiset{p} == multiset{}
  {
    assert pending == (pending - multiset{p}) + multiset{p};
    assert multiset(platforms)[p] >= pending[p] > 0;
  }

  /** Some entry is stored under `p`. */
  ghost predicate HasName<A>(ws: seq<Entry<A>>, p: string) {
    ws != [] && (ws[0].name == p || HasName(ws[1..], p))
  }

  /** An entry stored under `p` sits at some index. */
  lemma {:induction false} HasNameAt<A>(ws: seq<Entry<A>>, p: string) returns (k: nat)
    requires HasName(ws, p)
    ensures k < |ws| && ws[k].name == p
  {
    if ws[0].name == p {
      k := 0;
    } else {
      var j := HasNameAt(ws[1..], p);
      k := j + 1;
    }
  }

  /** After storing `e`, its key and every key already stored are present. */
  lemma {:induction false} StoreHasName<A>(ws: seq<Entry<A>>, e: Entry<A>, p: string)
    requires p == e.name || HasName(ws, p)
    ensures HasName(Store(ws, e), p)
  {
    if ws != [] && ws[0].name != e.name && ws[0].name != p {
      StoreHasName(ws[1..], e, p);
    }
  }

  /**
   * Platform `p` is covered: while no load has stalled, once `p` is no
   * longer loading it has a wrapper.
   */
  ghost predicate Covered<A>(p: string, pending: multiset<string>, stalled: nat, ws: seq<Entry<A>>) {
    stalled == 0 && p !in pending ==> HasName(ws, p)
  }

  /** Before any platform has connected, every configured platform is loading. */
  lemma CoverStart<A>(p: string, platforms: seq<string>, ws: seq<Entry<A>>)
    requires p in platforms
    ensures Covered(p, multiset(platforms), 0, ws)
  {
  }

  /** Storing the wrapper of a platform that was loading keeps `p` covered. */
  lemma StoreCovers<A>(p: string, pending: multiset<string>, stalled: nat, ws: seq<Entry<A>>, e: Entry<A>)
    requires Covered(p, pending, stalled, ws) && e.name in pending
    ensures Covered(p, pending - multiset{e.name}, stalled, Store(ws, e))
  {
    if stalled == 0 && p !in pending - multiset{e.name} {
      if p != e.name {
        assert p !in pending;
      }
      StoreHasName(ws, e, p);
    }
  }

  /** A load that failed or found no class: the count stays, and stays above zero for good. */
  lemma Stall(count: int, pending: multiset<string>, connections: nat, stalled: nat, platforms: seq<string>, p: string)
    requires Counting(count, pending, connections, stalled, platforms) && p in pending
    ensures Counting(count, pending - multiset{p}, connections, stalled + 1, platforms)
    ensures p in platforms && count > 0 && connections < |platforms|
  {
    assert pending == (pending - multiset{p}) + multiset{p};
    assert multiset(platforms)[p] >= pending[p] > 0;
  }

  ghost predicate UniqueNames<A>(ws: seq<Entry<A>>) {
    forall i, j | 0 <= i < j < |ws| :: ws[i].name != ws[j].name
  }

  /**
   * `wrappers[e.name] = e.adapter` on a dictionary: an existing key keeps its
   * place and takes the new value, a new key goes last.
   */
  function Store<A>(ws: seq<Entry<A>>, e: Entry<A>): (r: seq<Entry<A>>)
    ensures e in r
    ensures forall x | x in r :: x == e || x in ws
  {
    if ws == [] then [e]
    else if ws[0].name == e.name then [e] + ws[1..]
    else [ws[0]] + Store(ws[1..], e)
  }

  /** Storing leaves every entry under another key in place. */
  lemma {:induction false} StoreKeepsOthers<A>(ws: seq<Entry<A>>, e: Entry<A>)
    ensures forall x | x in ws && x.name != e.name :: x in Store(ws, e)
  {
    if ws != [] && ws[0].name != e.name {
      StoreKeepsOthers<A>(ws[1..], e);
      assert forall x | x in ws && x != ws[0] :: x in ws[1..];
    }
  }

  /** Storing keeps the key order and appends a new key at the end. */
  lemma {:induction false} StoreKeyOrder<A>(ws: seq<Entry<A>>, e: Entry<A>)
    ensures e.name in Names(ws) ==> Names(Store(ws, e)) == Names(ws)
    ensures e.name !in Names(ws) ==> Names(Store(ws, e)) == Names(ws) + [e.name]
  {
    if ws == [] {
    } else if ws[0].name == e.name {
      assert Names(Store(ws, e)) == [e.name] + Names(ws[1..]);
      assert Names(ws) == [ws[0].name] + Names(ws[1..]);
    } else {
      StoreKeyOrder<A>(ws[1..], e);
      assert Names(ws) == [ws[0].name] + Names(ws[1..]);
      assert Names(Store(ws, e)) == [ws[0].name] + Names(Store(ws[1..], e));
    }
  }

  /** Storing keeps the keys distinct. */
  lemma {:induction false} StoreKeepsUnique<A>(ws: seq<Entry<A>>, e: Entry<A>)
    requires UniqueNames(ws)
    ensures UniqueNames(Store(ws, e))
  {
    if ws == [] {
    } else if ws[0].name == e.name {
      assert Store(ws, e) == [e] + ws[1..];
    } else {
      var rest := ws[1..];
      StoreKeepsUnique(rest, e);
      var r := Store(ws, e);
      assert r == [ws[0]] + Store(rest, e);
      forall x | x in Store(rest, e)
        ensures x.name != ws[0].name
      {
        if x != e {
          var j :| 0 <= j < |rest| && rest[j] == x;
          assert ws[j + 1] == x;
        }
      }
      forall i, j | 0 <= i < j < |r|
        ensures r[i].name != r[j].name
      {
        if i == 0 {
          assert r[j] in Store(rest, e);
        } else {
          assert r[i] == Store(rest, e)[i - 1] && r[j] == Store(rest, e)[j - 1];
        }
      }
    }
  }
}
