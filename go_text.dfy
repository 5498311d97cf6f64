/** Go's byte strings and the few Go runtime conventions the model relies on. */
module GoText {
  import opened Wrappers

  newtype byte = x: int | 0 <= x < 256

  /** A Go `[]byte`. */
  type Bytes = seq<byte>

  /** A Go `string`: an immutable sequence of bytes. Converting between
      `string` and `[]byte` copies the bytes unchanged, so both are the
      same sequence here. */
  type GoString = seq<byte>

  /** The bytes of an ASCII literal. */
  function Lit(s: string): (r: GoString)
    ensures |r| == |s|
  {
    seq(|s|, i requires 0 <= i < |s| => ((s[i] as int) % 256) as byte)
  }

  /** Decimal digits of a natural number, as `%d` prints it. */
  function Digits(n: nat): (r: GoString)
    ensures |r| > 0
    decreases n
  {
    if n < 10 then [(48 + n) as byte] else Digits(n / 10) + [(48 + n % 10) as byte]
  }

  /** `%d` of an integer. */
  function Decimal(n: int): GoString
  {
    if n < 0 then Lit("-") + Digits(-n) else Digits(n)
  }

  /** `t` occurs in `s` as a contiguous run of bytes. */
  predicate Contains(s: GoString, t: GoString)
  {
    exists i :: 0 <= i <= |s| && t <= s[i..]
  }

  lemma ContainsInfix(a: GoString, b: GoString, c: GoString)
    ensures Contains(a + b + c, b)
  {
    var s := a + b + c;
    assert s[|a|..] == b + c;
  }

  lemma ContainsAfter(a: GoString, b: GoString, t: GoString)
    requires Contains(b, t)
    ensures Contains(a + b, t)
  {
    var i :| 0 <= i <= |b| && t <= b[i..];
    assert (a + b)[|a| + i..] == b[i..];
  }

  /** Reading a Go map that may be nil: a nil map reads as empty. */
  function OrEmpty<K, V>(m: Option<map<K, V>>): map<K, V>
  {
    if m.Some? then m.value else map[]
  }

  /** `m[k]` on a `map[string][]byte`: a missing key yields the zero value, nil. */
  function Index<K>(m: map<K, Bytes>, k: K): (r: Bytes)
    ensures k in m ==> r == m[k]
    ensures k !in m ==> r == []
  {
    if k in m then m[k] else []
  }

  /** `order` is one iteration order of a Go map with key set `keys`:
      every key exactly once. */
  predicate Enumerates<K>(order: seq<K>, keys: set<K>)
  {
    && (forall i, j :: 0 <= i < j < |order| ==> order[i] != order[j])
    && (forall i :: 0 <= i < |order| ==> order[i] in keys)
    && (forall k :: k in keys ==> k in order)
  }
}
