/** Shared vocabulary: optional values, results, and finite sums over maps. */
module Prelude {

  datatype Option<+T> = None | Some(value: T)

  datatype Result<+T, +E> = Ok(value: T) | Err(error: E)

  /** Identifiers are 16 opaque bytes; only equality matters to the engine. */
  type Id = nat

  type TenantId = Id
  type GrantId = Id
  type SessionId = Id
  type InvocationId = Id

  type Byte = n: nat | n <= 255

  /** Milliseconds since the epoch. */
  type Timestamp = int

  /** No element occurs twice. */
  ghost predicate Distinct<T>(s: seq<T>) {
    forall i, j :: 0 <= i < j < |s| ==> s[i] != s[j]
  }

  /** `small` keeps every entry in `big`. */
  ghost predicate Extends<K, V>(small: map<K, V>, big: map<K, V>) {
    forall k :: k in small ==> k in big && big[k] == small[k]
  }

  // ---- sums ---------------------------------------------------------------

  ghost function Sum<K>(m: map<K, nat>): nat
    decreases |m|
  {
    if m == map[] then 0 else
      var k :| k in m;
      m[k] + Sum(m - {k})
  }

  lemma {:induction false} SumSplit<K>(m: map<K, nat>, k: K)
    requires k in m
    ensures Sum(m) == m[k] + Sum(m - {k})
    decreases |m|
  {
    var c :| c in m && Sum(m) == m[c] + Sum(m - {c});
    if c != k {
      SumSplit(m - {c}, k);
      SumSplit(m - {k}, c);
      assert m - {c} - {k} == m - {k} - {c};
    }
  }

  /** Replacing one entry moves the sum by exactly the difference. */
  lemma SumUpdate<K>(m: map<K, nat>, k: K, v: nat)
    ensures Sum(m[k := v]) + (if k in m then m[k] else 0) == Sum(m) + v
  {
    SumSplit(m[k := v], k);
    if k in m {
      SumSplit(m, k);
      assert m[k := v] - {k} == m - {k};
    } else {
      assert m[k := v] - {k} == m;
    }
  }

  lemma {:induction false} SumZero<K>(m: map<K, nat>)
    requires forall k :: k in m ==> m[k] == 0
    ensures Sum(m) == 0
    decreases |m|
  {
    if m != map[] {
      var k :| k in m;
      SumSplit(m, k);
      SumZero(m - {k});
    }
  }

  /** Sums add pointwise. */
  lemma {:induction false} SumAdd<K>(a: map<K, nat>, b: map<K, nat>, c: map<K, nat>)
    requires a.Keys == b.Keys == c.Keys
    requires forall k :: k in c ==> c[k] == a[k] + b[k]
    ensures Sum(c) == Sum(a) + Sum(b)
    decreases |c|
  {
    if c == map[] {
      assert a == map[] && b == map[];
    } else {
      var k :| k in c;
      SumSplit(a, k);
      SumSplit(b, k);
      SumSplit(c, k);
      SumAdd(a - {k}, b - {k}, c - {k});
    }
  }

  /** A sum with at most one nonzero entry is bounded by that entry. */
  lemma SumAtMostOne<K>(m: map<K, nat>, bound: nat)
    requires forall k :: k in m ==> m[k] <= bound
    requires forall j, k :: j in m && k in m && m[j] != 0 && m[k] != 0 ==> j == k
    ensures Sum(m) <= bound
  {
    if k :| k in m && m[k] != 0 {
      SumSplit(m, k);
      SumZero(m - {k});
    } else {
      SumZero(m);
    }
  }
}
