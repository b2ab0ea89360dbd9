/**
 * What the adapters read from the page they run in. URL decoding is done by
 * the browser's URLSearchParams, so queries and hashes arrive here already
 * decoded as (key, value) pairs in document order.
 */
module Browser {

  type Pair = (string, string)

  datatype Env = Env(
    ancestorOrigins: seq<string>,  // window.location.ancestorOrigins
    query: seq<Pair>,              // new URLSearchParams(location.search)
    rawHash: string,               // window.location.hash, leading '#' included
    hash: seq<Pair>,               // new URLSearchParams(location.hash.substring(1))
    telegramWebApp: bool           // window?.Telegram?.WebApp is truthy
  )

  /** URLSearchParams.has. */
  predicate HasKey(pairs: seq<Pair>, key: string) {
    exists i | 0 <= i < |pairs| :: pairs[i].0 == key
  }

  /** The browser's `localStorage`: string keys to string values. */
  class LocalStorage {
    var items: map<string, string>

    constructor (items: map<string, string>)
      ensures this.items == items
    {
      this.items := items;
    }
  }
}
