/**
 * Values the engine's JavaScript and TypeScript code handles implicitly:
 * absent keys, the `x || fallback` idiom, and opaque platform handles.
 */
module Common {

  /** A key or result that may be absent (`undefined` / `null` in the source). */
  datatype Option<T> = None | Some(value: T)

  /** Object spread: a present key replaces the default, whatever its value. */
  function GetOr<T>(o: Option<T>, fallback: T): (r: T)
    ensures o.Some? ==> r == o.value
    ensures o.None? ==> r == fallback
  {
    if o.Some? then o.value else fallback
  }

  /** `n || fallback` on a number: a missing value and 0 are falsy. */
  function NumberOr(n: Option<real>, fallback: real): (r: real)
    ensures r == fallback || (n.Some? && r == n.value && r != 0.0)
    ensures n.Some? && n.value != 0.0 ==> r == n.value
  {
    if n.Some? && n.value != 0.0 then n.value else fallback
  }

  /** `s || fallback` on a string: a missing value and "" are falsy. */
  function StringOr(s: Option<string>, fallback: string): (r: string)
    ensures r == fallback || (s.Some? && r == s.value && r != "")
    ensures s.Some? && s.value != "" ==> r == s.value
  {
    if s.Some? && s.value != "" then s.value else fallback
  }

  function Min(a: real, b: real): real { if a <= b then a else b }

  function Max(a: real, b: real): real { if a >= b then a else b }

  /** The values a map holds under the given keys. */
  function ImageOf<K, V>(m: map<K, V>, keys: set<K>): set<V>
    requires keys <= m.Keys
  {
    set k | k in keys :: m[k]
  }

  /** Visiting one more key adds its value. */
  lemma ImageOfAdd<K, V>(m: map<K, V>, keys: set<K>, k: K)
    requires keys <= m.Keys && k in m
    ensures ImageOf(m, keys + {k}) == ImageOf(m, keys) + {m[k]}
  {
  }

  /** Visiting every key of a map reaches every value of it. */
  lemma ImageOfKeys<K, V>(m: map<K, V>, keys: set<K>)
    requires keys == m.Keys
    ensures ImageOf(m, keys) == m.Values
  {
    forall v | v in m.Values ensures v in ImageOf(m, keys) {
      var k :| k in m && m[k] == v;
    }
  }

  /** Identity of an IntersectionObserver the engine created. */
  type ObserverId = nat

  /** Identity of a Web Animations `Animation` object handed to the engine. */
  type AnimationId = nat
}
