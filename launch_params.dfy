/**
 * Launch parameters of the generic web host: the query string's pairs
 * overlaid by the URL fragment's pairs, each collected into a dictionary by a
 * `forEach((value, key) => args[key] = value)` loop.
 */
module LaunchParams {
  import opened Browser
  import opened Js

  /** The dictionary the forEach loop has built after visiting `pairs` in order. */
  function Collected(pairs: seq<Pair>): map<string, string> {
    if pairs == [] then map[]
    else Collected(pairs[..|pairs| - 1])[pairs[|pairs| - 1].0 := pairs[|pairs| - 1].1]
  }

  /** Pair `i` is the last one in `pairs` that carries key `k`. */
  ghost predicate LastFor(pairs: seq<Pair>, k: string, i: int) {
    0 <= i < |pairs| && pairs[i].0 == k &&
    forall j | i < j < |pairs| :: pairs[j].0 != k
  }

  /** Within one source the last value for a key wins, and only keys that occur are present. */
  lemma {:induction false} CollectedIsLastWins(pairs: seq<Pair>)
    ensures forall k :: k in Collected(pairs) <==> HasKey(pairs, k)
    ensures forall k | k in Collected(pairs) ::
      exists i :: LastFor(pairs, k, i) && Collected(pairs)[k] == pairs[i].1
  {
    if pairs != [] {
      var init, last := pairs[..|pairs| - 1], pairs[|pairs| - 1];
      CollectedIsLastWins(init);
      forall k ensures k in Collected(pairs) <==> HasKey(pairs, k) {
        if HasKey(pairs, k) && k != last.0 {
          var i :| 0 <= i < |pairs| && pairs[i].0 == k;
          assert init[i].0 == k;
        }
        if HasKey(init, k) {
          var i :| 0 <= i < |init| && init[i].0 == k;
          assert pairs[i].0 == k;
        }
      }
      assert Collected(pairs) == Collected(init)[last.0 := last.1];
      forall k | k in Collected(pairs)
        ensures exists i :: LastFor(pairs, k, i) && Collected(pairs)[k] == pairs[i].1
      {
        if k == last.0 {
          assert LastFor(pairs, k, |pairs| - 1);
        } else {
          assert k in Collected(init);
          var i :| LastFor(init, k, i) && Collected(init)[k] == init[i].1;
          assert LastFor(pairs, k, i);
        }
      }
    }
  }

  /** `{...locationArgs, ...hashArgs}`. */
  function Merged(query: seq<Pair>, hash: seq<Pair>): map<string, string> {
    Collected(query) + Collected(hash)
  }

  /** Keys come from either source; on a clash the fragment's last value beats the query's. */
  lemma MergedOverlay(query: seq<Pair>, hash: seq<Pair>)
    ensures forall k :: k in Merged(query, hash) <==> HasKey(query, k) || HasKey(hash, k)
    ensures forall k | HasKey(hash, k) ::
      exists i :: LastFor(hash, k, i) && Merged(query, hash)[k] == hash[i].1
    ensures forall k | HasKey(query, k) && !HasKey(hash, k) ::
      exists i :: LastFor(query, k, i) && Merged(query, hash)[k] == query[i].1
  {
    CollectedIsLastWins(query);
    CollectedIsLastWins(hash);
  }

  /** The dictionary as the JavaScript object handed to `onSuccess`. */
  function AsObject(m: map<string, string>): (r: JsValue)
    ensures r.Obj? && r.fields.Keys == m.Keys
    ensures forall k | k in m :: r.fields[k] == Str(m[k])
  {
    Obj(map k | k in m :: Str(m[k]))
  }

  /** One `searchParams.forEach((value, key) => args[key] = value)` loop. */
  method CollectPairs(pairs: seq<Pair>) returns (args: map<string, string>)
    ensures args == Collected(pairs)
    ensures forall k :: k in args <==> HasKey(pairs, k)
  {
    args := map[];
    var i := 0;
    while i < |pairs|
      invariant 0 <= i <= |pairs|
      invariant args == Collected(pairs[..i])
    {
      assert pairs[..i + 1][..i] == pairs[..i];
      args := args[pairs[i].0 := pairs[i].1];
      i := i + 1;
    }
    assert pairs[..i] == pairs;
    CollectedIsLastWins(pairs);
  }
}
