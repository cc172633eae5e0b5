/**
 * `URLSearchParams` as the pagination and sidebar links use it: an ordered
 * list of key/value pairs, `set`, `get` and `toString`. Percent-encoding
 * is not modelled: `toString` writes keys and values as they are.
 */
module SearchParams {
  import opened Wrappers

  type Params = seq<(string, string)>

  /** The value of the first pair with key `k`. */
  function Get(ps: Params, k: string): (r: Option<string>)
    ensures r.None? <==> forall i :: 0 <= i < |ps| ==> ps[i].0 != k
    ensures r.Some? ==> exists i :: 0 <= i < |ps| && ps[i] == (k, r.value) && forall j :: 0 <= j < i ==> ps[j].0 != k
  {
    if ps == [] then None
    else if ps[0].0 == k then Some(ps[0].1)
    else
      var r := Get(ps[1..], k);
      assert r.Some? ==> exists i :: 0 <= i < |ps| && ps[i] == (k, r.value) && forall j :: 0 <= j < i ==> ps[j].0 != k by {
        if r.Some? {
          var i :| 0 <= i < |ps[1..]| && ps[1..][i] == (k, r.value) && forall j :: 0 <= j < i ==> ps[1..][j].0 != k;
          assert ps[i + 1] == (k, r.value);
          forall j | 0 <= j < i + 1
            ensures ps[j].0 != k
          {
            if j > 0 {
              assert ps[j] == ps[1..][j - 1];
            }
          }
        }
      }
      r
  }

  /** The pairs whose key is `k`, in order. */
  function WithKey(ps: Params, k: string): Params {
    if ps == [] then []
    else (if ps[0].0 == k then [ps[0]] else []) + WithKey(ps[1..], k)
  }

  /** The pairs without key `k`, after a replacement of the first one. */
  function DropKey(ps: Params, k: string): (r: Params)
    ensures |r| <= |ps|
    ensures forall i :: 0 <= i < |r| ==> r[i].0 != k
    ensures forall o :: o != k ==> WithKey(r, o) == WithKey(ps, o)
  {
    if ps == [] then []
    else if ps[0].0 == k then DropKey(ps[1..], k)
    else [ps[0]] + DropKey(ps[1..], k)
  }

  /**
   * `set(k, v)`: the first pair with key `k` takes the value `v` and every
   * later pair with that key is removed; without such a pair, (k, v) is
   * appended.
   */
  function Set(ps: Params, k: string, v: string): (r: Params)
    ensures (k, v) in r && |r| <= |ps| + 1
    ensures forall i :: 0 <= i < |r| && r[i].0 == k ==> r[i] == (k, v)
  {
    if ps == [] then [(k, v)]
    else if ps[0].0 == k then [(k, v)] + DropKey(ps[1..], k)
    else [ps[0]] + Set(ps[1..], k, v)
  }

  /** After `set`, `k` has exactly the one pair (k, v), and no other key's pairs change. */
  lemma {:induction false} SetProperties(ps: Params, k: string, v: string)
    ensures WithKey(Set(ps, k, v), k) == [(k, v)]
    ensures Get(Set(ps, k, v), k) == Some(v)
    ensures forall o :: o != k ==> WithKey(Set(ps, k, v), o) == WithKey(ps, o)
  {
    if ps == [] {
    } else if ps[0].0 == k {
      WithKeyNone(DropKey(ps[1..], k), k);
      var r := Set(ps, k, v);
      assert r[1..] == DropKey(ps[1..], k);
    } else {
      SetProperties(ps[1..], k, v);
      var r := Set(ps, k, v);
      assert r[1..] == Set(ps[1..], k, v);
    }
  }

  lemma {:induction false} WithKeyNone(ps: Params, k: string)
    requires forall i :: 0 <= i < |ps| ==> ps[i].0 != k
    ensures WithKey(ps, k) == []
  {
    if ps != [] {
      WithKeyNone(ps[1..], k);
    }
  }

  /** Setting a key that is absent appends it. */
  lemma {:induction false} SetAbsentAppends(ps: Params, k: string, v: string)
    requires forall i :: 0 <= i < |ps| ==> ps[i].0 != k
    ensures Set(ps, k, v) == ps + [(k, v)]
  {
    if ps != [] {
      SetAbsentAppends(ps[1..], k, v);
      assert ps == [ps[0]] + ps[1..];
    }
  }

  /** With a first pair for `k` at index `i`, `set` rewrites that pair and drops the later ones for `k`. */
  lemma {:induction false} SetReplacesFirst(ps: Params, k: string, v: string, i: int)
    requires 0 <= i < |ps| && ps[i].0 == k
    requires forall j :: 0 <= j < i ==> ps[j].0 != k
    ensures Set(ps, k, v) == ps[..i] + [(k, v)] + DropKey(ps[i + 1..], k)
  {
    if i > 0 {
      SetReplacesFirst(ps[1..], k, v, i - 1);
      assert ps[1..][..i - 1] == ps[1..i];
      assert ps[1..][i - 1 + 1..] == ps[i + 1..];
      assert ps[..i] == [ps[0]] + ps[1..i];
    }
  }

  /** `DropKey` is the order-preserving filter: it splits over concatenation ... */
  lemma {:induction false} DropKeyAppend(a: Params, b: Params, k: string)
    ensures DropKey(a + b, k) == DropKey(a, k) + DropKey(b, k)
  {
    if a != [] {
      assert (a + b)[1..] == a[1..] + b;
      DropKeyAppend(a[1..], b, k);
    } else {
      assert a + b == b;
    }
  }

  /** ... keeps a single pair exactly when its key is not `k` ... */
  lemma DropKeySingle(p: (string, string), k: string)
    ensures DropKey([p], k) == if p.0 == k then [] else [p]
  {
    assert [p][1..] == [];
  }

  /** ... and leaves a list without `k` as it is. */
  lemma {:induction false} DropKeyAbsent(ps: Params, k: string)
    requires forall i :: 0 <= i < |ps| ==> ps[i].0 != k
    ensures DropKey(ps, k) == ps
  {
    if ps != [] {
      DropKeyAbsent(ps[1..], k);
      assert ps == [ps[0]] + ps[1..];
    }
  }

  /** `k=v`. */
  function Pair(p: (string, string)): string {
    p.0 + "=" + p.1
  }

  /** `toString`: the pairs as `k=v`, separated by '&'. */
  function Serialize(ps: Params): (s: string)
    ensures ps == [] <==> s == ""
  {
    if ps == [] then ""
    else if |ps| == 1 then Pair(ps[0])
    else Pair(ps[0]) + "&" + Serialize(ps[1..])
  }
}
