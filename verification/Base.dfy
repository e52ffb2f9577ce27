/** Options, and the append-only logs that stand for versioned objects. */
module Base {

  datatype Option<+T> = None | Some(value: T)

  /** Every version an object ever had; `None` means "does not exist". An object's
      resource version is its position in the log, so versions are never reused. */
  type Log<V> = s: seq<Option<V>> | |s| > 0 witness [None]

  /** What a read through the API returns. */
  datatype Read<+V> = Found(version: nat, value: V) | NotFound | ReadError

  function LogOf<K(==), V>(m: map<K, Log<V>>, k: K): Log<V> {
    if k in m then m[k] else [None]
  }

  function Version<K(==), V>(m: map<K, Log<V>>, k: K): nat {
    |LogOf(m, k)| - 1
  }

  function Latest<K(==), V>(m: map<K, Log<V>>, k: K): Option<V> {
    LogOf(m, k)[|LogOf(m, k)| - 1]
  }

  /** Position `i` of the log, or the last one when `i` is beyond it. */
  function Clamp<K(==), V>(m: map<K, Log<V>>, k: K, i: nat): nat {
    if i < |LogOf(m, k)| then i else |LogOf(m, k)| - 1
  }

  function ReadAt<K(==), V>(m: map<K, Log<V>>, k: K, i: nat): Read<V> {
    match LogOf(m, k)[Clamp(m, k, i)]
    case None => NotFound
    case Some(v) => Found(Clamp(m, k, i), v)
  }

  ghost predicate LogsGrow<K(!new), V>(a: map<K, Log<V>>, b: map<K, Log<V>>) {
    forall k :: LogOf(a, k) <= LogOf(b, k)
  }

  /** Append a version, unless it equals the latest one: such a write changes nothing. */
  function Commit<K(==, !new), V(==)>(m: map<K, Log<V>>, k: K, v: Option<V>): (r: map<K, Log<V>>)
    ensures LogsGrow(m, r) && Latest(r, k) == v
    ensures forall j :: j != k ==> LogOf(r, j) == LogOf(m, j)
  {
    if Latest(m, k) == v then m else m[k := LogOf(m, k) + [v]]
  }

  ghost predicate Submap<K, V>(a: map<K, V>, b: map<K, V>) {
    forall k :: k in a ==> k in b && a[k] == b[k]
  }

  function StringOf(n: nat): string
    decreases n
  {
    if n < 10 then [Digit(n)] else StringOf(n / 10) + [Digit(n % 10)]
  }

  function Digit(n: nat): char
    requires n < 10
  {
    "0123456789"[n]
  }
}
