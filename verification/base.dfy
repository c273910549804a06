/** Vocabulary shared by every part of the bridge model: failure-carrying
    results, the machine integer widths the Rust sources use, byte strings,
    and the two enumerations both hosts declare identically. */
module Base {

  datatype Option<T> = None | Some(value: T)

  /** The value of a fallible computation (a Rust `Result`). */
  datatype Result<T, E> = Ok(value: T) | Err(error: E)

  /** The outcome of a handler that returns `Result<()>`: success, or the
      error that aborted the call with no state change. */
  datatype Outcome<E> = Pass | Fail(error: E)

  /** A map lookup that yields `None` for a missing key (Rust's `map.get`). */
  function Find<K, V>(m: map<K, V>, k: K): (r: Option<V>)
    ensures r.Some? <==> k in m
    ensures r.Some? ==> r.value == m[k]
  {
    if k in m then Some(m[k]) else None
  }

  /** The elements of `s` that satisfy `p`, in their order in `s` (an
      iterator's `filter(..).collect()`). */
  function Filter<T(!new)>(s: seq<T>, p: T -> bool): (r: seq<T>)
    ensures |r| <= |s|
    ensures forall x :: x in r <==> x in s && p(x)
  {
    if s == [] then []
    else
      assert s == [s[0]] + s[1..];
      (if p(s[0]) then [s[0]] else []) + Filter(s[1..], p)
  }

  /** The entries `from .. min(from + limit, |s|)` of `s`, empty when `from`
      is past the end (the range `start..end` every paginated view walks). */
  function Window<T>(s: seq<T>, from: nat, limit: nat): (w: seq<T>)
    ensures |w| <= limit
    ensures from < |s| ==> |w| == if from + limit <= |s| then limit else |s| - from
    ensures from >= |s| ==> w == []
    ensures forall j :: 0 <= j < |w| ==> w[j] == s[from + j]
  {
    if from >= |s| then []
    else if from + limit <= |s| then s[from..from + limit]
    else s[from..]
  }

  /** The values `m` holds for the keys in `ks`, in order, skipping missing
      keys (an iterator's `filter_map(|k| map.get(k))`). */
  function LookupAll<K, V(!new)>(ks: seq<K>, m: map<K, V>): (r: seq<V>)
    ensures |r| <= |ks|
    ensures forall v :: v in r <==> exists i :: 0 <= i < |ks| && ks[i] in m && m[ks[i]] == v
    ensures (forall i :: 0 <= i < |ks| ==> ks[i] in m) ==>
              |r| == |ks| && forall j :: 0 <= j < |r| ==> r[j] == m[ks[j]]
  {
    if ks == [] then []
    else
      var rest := LookupAll(ks[1..], m);
      assert forall i :: 1 <= i < |ks| ==> ks[i] == ks[1..][i - 1];
      (if ks[0] in m then [m[ks[0]]] else []) + rest
  }

  /** Looking up one more key appends its value, when it has one. */
  lemma {:induction false} LookupAllAppendOne<K, V(!new)>(ks: seq<K>, m: map<K, V>, k: K)
    ensures LookupAll(ks + [k], m) == LookupAll(ks, m) + (if k in m then [m[k]] else [])
  {
    if ks == [] {
      assert [] + [k] == [k];
      assert LookupAll([k], m) == (if k in m then [m[k]] else []) + LookupAll([k][1..], m);
      assert [k][1..] == [];
    } else {
      var head := if ks[0] in m then [m[ks[0]]] else [];
      assert (ks + [k])[0] == ks[0] && (ks + [k])[1..] == ks[1..] + [k];
      assert LookupAll(ks + [k], m) == head + LookupAll(ks[1..] + [k], m);
      LookupAllAppendOne(ks[1..], m, k);
    }
  }

  /** No element of `s` occurs twice. */
  predicate Distinct<T(==)>(s: seq<T>) {
    forall i, j :: 0 <= i < j < |s| ==> s[i] != s[j]
  }

  /** Filtering never brings two equal elements together. */
  lemma {:induction false} FilterKeepsDistinct<T(!new)>(s: seq<T>, p: T -> bool)
    ensures Distinct(s) ==> Distinct(Filter(s, p))
  {
    if s != [] && Distinct(s) {
      FilterKeepsDistinct(s[1..], p);
      var rest := Filter(s[1..], p);
      assert s[0] !in s[1..] by {
        forall j | 0 <= j < |s[1..]| ensures s[1..][j] != s[0] {
          assert s[1..][j] == s[j + 1];
        }
      }
      assert s[0] !in rest;
      if p(s[0]) {
        var r := [s[0]] + rest;
        forall i, j | 0 <= i < j < |r| ensures r[i] != r[j] {
          if i == 0 {
            assert r[j] == rest[j - 1];
          } else {
            assert r[i] == rest[i - 1] && r[j] == rest[j - 1];
          }
        }
      }
    }
  }

  /** A filter every element passes changes nothing. */
  lemma {:induction false} FilterAllPass<T(!new)>(s: seq<T>, p: T -> bool)
    requires forall x :: x in s ==> p(x)
    ensures Filter(s, p) == s
  {
    if s != [] {
      FilterAllPass(s[1..], p);
      assert s == [s[0]] + s[1..];
    }
  }

  /** Filtering distributes over appending one element. */
  lemma {:induction false} FilterAppendOne<T(!new)>(s: seq<T>, x: T, p: T -> bool)
    ensures Filter(s + [x], p) == Filter(s, p) + (if p(x) then [x] else [])
  {
    if s == [] {
      assert [] + [x] == [x];
      assert [x][1..] == [];
    } else {
      assert (s + [x])[1..] == s[1..] + [x];
      FilterAppendOne(s[1..], x, p);
    }
  }

  /** The first `n` elements of `s`, or all of them when there are fewer
      (an iterator's `take(n)`). */
  function Take<T>(s: seq<T>, n: nat): (r: seq<T>)
    ensures |r| <= n && |r| <= |s|
    ensures |s| <= n ==> r == s
    ensures forall j :: 0 <= j < |r| ==> r[j] == s[j]
  {
    if |s| <= n then s else s[..n]
  }

  const U8_LIMIT: nat := 0x100
  const U16_LIMIT: nat := 0x1_0000
  const U32_MAX: nat := 0xFFFF_FFFF
  const U32_LIMIT: nat := 0x1_0000_0000
  const U64_LIMIT: nat := 0x1_0000_0000_0000_0000
  const U128_LIMIT: nat := 0x1_0000_0000_0000_0000_0000_0000_0000_0000

  type U8 = x: nat | x < 0x100
  type U16 = x: nat | x < 0x1_0000
  type U32 = x: nat | x <= 0xFFFF_FFFF
  type U64 = x: nat | x < 0x1_0000_0000_0000_0000
  type U128 = x: nat | x < 0x1_0000_0000_0000_0000_0000_0000_0000_0000

  type Byte = bv8

  /** A `[u8; 32]`. */
  type Bytes32 = s: seq<Byte> | |s| == 32 witness ZEROS_32

  const ZEROS_32: seq<Byte> := seq(32, _ => 0)

  /** Rust's `u32::saturating_add`. */
  function SaturatingAddU32(x: U32, y: nat): (r: U32)
    ensures x + y <= U32_MAX ==> r == x + y
    ensures x + y > U32_MAX ==> r == U32_MAX
  {
    if x + y <= U32_MAX then x + y else U32_MAX
  }

  /** Rust's `saturating_sub` on an unsigned integer. */
  function SaturatingSub(x: nat, y: nat): (r: nat)
    ensures r <= x
    ensures x >= y ==> r + y == x
    ensures x < y ==> r == 0
  {
    if x >= y then x - y else 0
  }

  /** The three networks both hosts name; the order of the Rust variants
      differs between the hosts but nothing depends on it. */
  datatype Chain = Solana | Near | Zcash

  /** The intent lifecycle. `Executing`, `Settling` and `Disputed` are
      declared by both hosts but no handler ever stores them. */
  datatype IntentStatus =
    | Created
    | Matched
    | Executing
    | Executed
    | Settling
    | Settled
    | Failed
    | Disputed
}
