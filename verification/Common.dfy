/** Notions that several components share: optional values, and orders and positions in sequences. */
module Common {

  datatype Option<+T> = None | Some(value: T)

  ghost predicate Distinct<T>(s: seq<T>) {
    forall i, j :: 0 <= i < j < |s| ==> s[i] != s[j]
  }

  predicate Increasing(p: seq<nat>) {
    forall i, j :: 0 <= i < j < |p| ==> p[i] < p[j]
  }

  lemma Reassociate<T>(a: seq<T>, b: seq<T>, c: seq<T>)
    ensures (a + b) + c == a + (b + c)
  {}

  /** The positions of a key, in increasing order. */
  function Positions<K(==)>(keys: seq<K>, key: K): seq<nat> {
    if keys == [] then []
    else
      var n := |keys| - 1;
      Positions(keys[..n], key) + if keys[n] == key then [n] else []
  }

  lemma {:induction false} PositionsHold<K>(keys: seq<K>, key: K)
    ensures Increasing(Positions(keys, key))
    ensures forall k :: 0 <= k < |Positions(keys, key)| ==>
              Positions(keys, key)[k] < |keys| && keys[Positions(keys, key)[k]] == key
    decreases |keys|
  {
    if keys != [] {
      PositionsHold(keys[..|keys| - 1], key);
    }
  }

  lemma {:induction false} PositionsComplete<K>(keys: seq<K>, key: K, i: nat)
    requires i < |keys| && keys[i] == key
    ensures i in Positions(keys, key)
    decreases |keys|
  {
    var n := |keys| - 1;
    if i < n {
      PositionsComplete(keys[..n], key, i);
    }
  }

  /** `r` is `s` without its `k`-th element. */
  ghost predicate Skips<T>(s: seq<T>, k: nat, r: seq<T>) {
    && k < |s| == |r| + 1
    && (forall i :: 0 <= i < k ==> r[i] == s[i])
    && (forall i :: k <= i < |r| ==> r[i] == s[i + 1])
  }

  /** The sequence without its first element `n`. */
  function Without<T(==)>(s: seq<T>, n: T): (r: seq<T>)
    ensures n !in s ==> r == s
  {
    if s == [] then [] else if s[0] == n then s[1..] else [s[0]] + Without(s[1..], n)
  }

  /** Removing the `k`-th element of a duplicate-free sequence leaves the two parts around it. */
  lemma {:induction false} WithoutParts<T>(s: seq<T>, k: nat)
    requires k < |s| && Distinct(s)
    ensures Without(s, s[k]) == s[..k] + s[k + 1..]
  {
    if k > 0 {
      assert s[1..][k - 1] == s[k];
      assert [s[0]] + s[1..][..k - 1] == s[..k];
      assert s[1..][k..] == s[k + 1..];
      WithoutParts(s[1..], k - 1);
    }
  }

  lemma WithoutSkips<T>(s: seq<T>, k: nat)
    requires k < |s| && Distinct(s)
    ensures Skips(s, k, Without(s, s[k])) && Distinct(Without(s, s[k]))
    ensures forall x :: x in Without(s, s[k]) <==> x in s && x != s[k]
  {
    hide Without;
    WithoutParts(s, k);
    PartsAround(s, k, s[..k] + s[k + 1..]);
  }

  lemma PartsAround<T>(s: seq<T>, k: nat, r: seq<T>)
    requires k < |s| && Distinct(s) && r == s[..k] + s[k + 1..]
    ensures Skips(s, k, r) && Distinct(r)
    ensures forall x :: x in r <==> x in s && x != s[k]
  {
    forall x | x in s && x != s[k] ensures x in r {
      var i :| 0 <= i < |s| && s[i] == x;
      assert r[if i < k then i else i - 1] == x;
    }
  }
}
