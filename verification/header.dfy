/** HTTP header maps as Go's http.Header: a key maps to its list of values.
    Keys are taken to be in canonical form already. */
module Header {

  type Header = map<string, seq<string>>

  /** The first value stored under `key`, or "" when there is none. */
  function Get(h: Header, key: string): string
  {
    if key in h && |h[key]| > 0 then h[key][0] else ""
  }

  /** Replaces every value of `key` by the single value `v`. */
  function Set(h: Header, key: string, v: string): (h': Header)
    ensures key in h' && h'[key] == [v] && Get(h', key) == v
    ensures forall k :: k != key ==> (k in h' <==> k in h)
    ensures forall k :: k in h && k != key ==> h'[k] == h[k]
  {
    h[key := [v]]
  }

  /** Removes `key` and all its values. */
  function Del(h: Header, key: string): (h': Header)
    ensures key !in h' && Get(h', key) == ""
    ensures forall k :: k != key ==> (k in h' <==> k in h)
    ensures forall k :: k in h' ==> h'[k] == h[k]
  {
    h - {key}
  }
}
