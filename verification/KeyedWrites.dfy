/** A pass as an ordered list of writes to keys of a store, where a later write on a key absorbs an earlier one. */
module KeyedWrites {
  import opened Wrappers

  datatype Plan<!K, !V> = Plan(
    count: nat,
    key: nat -> K,
    put: (nat, Option<V>) -> V,
    blocked: (nat, Option<V>) -> bool)

  /** The laws the children satisfy (module Laws). */
  ghost predicate Lawful<K, V(!new)>(p: Plan<K, V>) {
    && (forall i: nat, j: nat, x: Option<V> {:trigger p.put(j, Some(p.put(i, x)))} ::
          i <= j < p.count && p.key(i) == p.key(j) ==> p.put(j, Some(p.put(i, x))) == p.put(j, x))
    && (forall i: nat, j: nat, x: Option<V> {:trigger p.blocked(i, x), p.blocked(j, x)} ::
          i < p.count && j < p.count && p.key(i) == p.key(j) ==> (p.blocked(i, x) <==> p.blocked(j, x)))
    && (forall i: nat, j: nat, x: Option<V> {:trigger p.blocked(j, Some(p.put(i, x)))} ::
          i < p.count && j < p.count && p.key(i) == p.key(j) ==> !p.blocked(j, Some(p.put(i, x))))
  }

  /** The store after the first n steps. */
  function Prefix<K, V>(p: Plan<K, V>, m: map<K, V>, n: nat): map<K, V> {
    if n == 0 then m
    else
      var before := Prefix(p, m, n - 1);
      before[p.key(n - 1) := p.put(n - 1, Lookup(before, p.key(n - 1)))]
  }

  /** The last of the first n steps that writes key k, or -1. */
  function LastAt<K(==), V>(p: Plan<K, V>, k: K, n: nat): (r: int)
    ensures -1 <= r < n
    ensures r >= 0 ==> p.key(r) == k
    ensures forall i: nat :: i < n && p.key(i) == k ==> i <= r
  {
    if n == 0 then -1
    else if p.key(n - 1) == k then n - 1
    else LastAt(p, k, n - 1)
  }

  lemma {:induction false} PrefixAt<K(!new), V(!new)>(p: Plan<K, V>, m: map<K, V>, n: nat, k: K)
    requires Lawful(p) && n <= p.count
    ensures var last := LastAt(p, k, n);
            Lookup(Prefix(p, m, n), k) == if last < 0 then Lookup(m, k) else Some(p.put(last, Lookup(m, k)))
  {
    if n > 0 {
      PrefixAt(p, m, n - 1, k);
      if p.key(n - 1) == k {
        var before := LastAt(p, k, n - 1);
        var x := Lookup(m, k);
        if before >= 0 {
          assert p.put(n - 1, Some(p.put(before, x))) == p.put(n - 1, x);
        }
      }
    }
  }

  /** Steps that already ran are absorbed: running the first n again loses them without trace. */
  lemma PrefixAbsorbs<K(!new), V(!new)>(p: Plan<K, V>, m: map<K, V>, j: nat, n: nat)
    requires Lawful(p) && j <= n <= p.count
    ensures Prefix(p, Prefix(p, m, j), n) == Prefix(p, m, n)
  {
    var mid := Prefix(p, m, j);
    forall k
      ensures Lookup(Prefix(p, mid, n), k) == Lookup(Prefix(p, m, n), k)
    {
      PrefixAt(p, mid, n, k);
      PrefixAt(p, m, n, k);
      PrefixAt(p, m, j, k);
      assert LastAt(p, k, j) <= LastAt(p, k, n);
    }
    SameLookups(Prefix(p, mid, n), Prefix(p, m, n));
  }

  lemma SameLookups<K(!new), V(!new)>(a: map<K, V>, b: map<K, V>)
    requires forall k :: Lookup(a, k) == Lookup(b, k)
    ensures a == b
  {
    forall k
      ensures k in a <==> k in b
      ensures k in a ==> a[k] == b[k]
    {
      assert Lookup(a, k) == Lookup(b, k);
    }
  }

  /** The first step from i on that is blocked in m, or `count`. */
  function StopFrom<K, V>(p: Plan<K, V>, m: map<K, V>, i: nat): (r: nat)
    requires i <= p.count
    ensures i <= r <= p.count
    ensures forall j: nat :: i <= j < r ==> !p.blocked(j, Lookup(m, p.key(j)))
    ensures r < p.count ==> p.blocked(r, Lookup(m, p.key(r)))
    decreases p.count - i
  {
    if i == p.count || p.blocked(i, Lookup(m, p.key(i))) then i
    else StopFrom(p, m, i + 1)
  }

  function Stop<K, V>(p: Plan<K, V>, m: map<K, V>): nat {
    StopFrom(p, m, 0)
  }

  /** Step i is blocked after j steps of the pass exactly when it was blocked at the start. */
  lemma BlockedAfter<K(!new), V(!new)>(p: Plan<K, V>, m: map<K, V>, j: nat, i: nat)
    requires Lawful(p) && j <= Stop(p, m) && i < p.count
    ensures p.blocked(i, Lookup(Prefix(p, m, j), p.key(i))) <==> p.blocked(i, Lookup(m, p.key(i)))
  {
    PrefixAt(p, m, j, p.key(i));
    var last := LastAt(p, p.key(i), j);
    if last >= 0 {
      assert !p.blocked(last, Lookup(m, p.key(last)));
    }
  }

  lemma LastUnblocks<K(!new), V(!new)>(p: Plan<K, V>, m: map<K, V>, n: nat, i: nat)
    requires Lawful(p) && n <= p.count && i < p.count && LastAt(p, p.key(i), n) >= 0
    ensures !p.blocked(i, Some(p.put(LastAt(p, p.key(i), n), Lookup(m, p.key(i)))))
  {
  }

  lemma StopUnchanged<K(!new), V(!new)>(p: Plan<K, V>, m: map<K, V>, j: nat)
    requires Lawful(p) && j <= Stop(p, m)
    ensures Stop(p, Prefix(p, m, j)) == Stop(p, m)
  {
    var mid := Prefix(p, m, j);
    var s, t := Stop(p, m), Stop(p, mid);
    if s < p.count { BlockedAfter(p, m, j, s); }
    if t < p.count { BlockedAfter(p, m, j, t); }
  }

  /** The store after a pass without faults. */
  function Result<K, V>(p: Plan<K, V>, m: map<K, V>): map<K, V> {
    Prefix(p, m, Stop(p, m))
  }

  /** A pass cut after any number of steps leaves nothing behind that a full pass does not redo. */
  lemma ResultAfterCut<K(!new), V(!new)>(p: Plan<K, V>, m: map<K, V>, j: nat)
    requires Lawful(p) && j <= Stop(p, m)
    ensures Result(p, Prefix(p, m, j)) == Result(p, m)
    ensures Stop(p, Prefix(p, m, j)) == Stop(p, m)
  {
    StopUnchanged(p, m, j);
    PrefixAbsorbs(p, m, j, Stop(p, m));
  }

  /** Keys that none of the first n steps writes keep their objects. */
  lemma PrefixFrame<K(!new), V(!new)>(p: Plan<K, V>, m: map<K, V>, n: nat, k: K)
    requires forall i: nat :: i < n ==> p.key(i) != k
    ensures Lookup(Prefix(p, m, n), k) == Lookup(m, k)
  {
  }

  // ----- Settled stores -----

  /** Every step before the blocked one would leave its object as it is. */
  ghost predicate Settled<K, V>(p: Plan<K, V>, m: map<K, V>) {
    forall i: nat :: i < Stop(p, m) ==> Lookup(m, p.key(i)) == Some(p.put(i, Lookup(m, p.key(i))))
  }

  /** Of the first n steps those that share a key write the same object there. */
  ghost predicate Agreeing<K, V(!new)>(p: Plan<K, V>, n: nat) {
    forall i: nat, j: nat, x: Option<V> :: i < j < n && p.key(i) == p.key(j) ==> p.put(i, x) == p.put(j, x)
  }

  lemma ResultSettles<K(!new), V(!new)>(p: Plan<K, V>, m: map<K, V>)
    requires Lawful(p) && Agreeing(p, Stop(p, m))
    ensures Settled(p, Result(p, m))
    ensures Stop(p, Result(p, m)) == Stop(p, m)
  {
    var s := Stop(p, m);
    StopUnchanged(p, m, s);
    forall i: nat | i < s
      ensures Lookup(Result(p, m), p.key(i)) == Some(p.put(i, Lookup(Result(p, m), p.key(i))))
    {
      var k := p.key(i);
      PrefixAt(p, m, s, k);
      var last := LastAt(p, k, s);
      assert i <= last < p.count && p.key(last) == k;
      var x := Lookup(m, k);
      assert p.put(last, Some(p.put(last, x))) == p.put(last, x);
      if i < last {
        assert p.put(i, Some(p.put(last, x))) == p.put(last, Some(p.put(last, x)));
      }
    }
  }

  lemma SettledAt<K(!new), V(!new)>(p: Plan<K, V>, m: map<K, V>, i: nat)
    requires i < Stop(p, m)
    ensures Settled(p, m) ==> Lookup(m, p.key(i)) == Some(p.put(i, Lookup(m, p.key(i))))
  {
  }

  lemma {:induction false} SettledPrefix<K(!new), V(!new)>(p: Plan<K, V>, m: map<K, V>, n: nat)
    requires Settled(p, m) && n <= Stop(p, m)
    ensures Prefix(p, m, n) == m
  {
    if n > 0 {
      SettledPrefix(p, m, n - 1);
      assert Lookup(m, p.key(n - 1)) == Some(p.put(n - 1, Lookup(m, p.key(n - 1))));
    }
  }

  // ----- Two plans -----

  ghost predicate Disjoint<K, V>(p: Plan<K, V>, q: Plan<K, V>) {
    forall i: nat, j: nat :: i < p.count && j < q.count ==> p.key(i) != q.key(j)
  }

  /** A pass of p does not change what q reads, so q stops where it did. */
  lemma DisjointStop<K(!new), V(!new)>(p: Plan<K, V>, q: Plan<K, V>, m: map<K, V>)
    requires Disjoint(p, q)
    ensures Stop(q, Result(p, m)) == Stop(q, m)
  {
    var s, t := Stop(q, m), Stop(q, Result(p, m));
    if s < q.count { PrefixFrame(p, m, Stop(p, m), q.key(s)); }
    if t < q.count { PrefixFrame(p, m, Stop(p, m), q.key(t)); }
  }

  lemma DisjointResultAt<K(!new), V(!new)>(p: Plan<K, V>, q: Plan<K, V>, m: map<K, V>, k: K)
    requires Lawful(p) && Lawful(q) && Disjoint(p, q)
    ensures Lookup(Result(q, Result(p, m)), k) ==
            if LastAt(p, k, Stop(p, m)) >= 0 then Lookup(Result(p, m), k) else Lookup(Result(q, m), k)
  {
    DisjointStop(p, q, m);
    var s, t := Stop(p, m), Stop(q, m);
    PrefixAt(p, m, s, k);
    PrefixAt(q, m, t, k);
    PrefixAt(q, Result(p, m), t, k);
  }

  lemma DisjointResultsCommute<K(!new), V(!new)>(p: Plan<K, V>, q: Plan<K, V>, m: map<K, V>)
    requires Lawful(p) && Lawful(q) && Disjoint(p, q)
    ensures Result(q, Result(p, m)) == Result(p, Result(q, m))
  {
    assert Disjoint(q, p);
    forall k
      ensures Lookup(Result(q, Result(p, m)), k) == Lookup(Result(p, Result(q, m)), k)
    {
      DisjointResultAt(p, q, m, k);
      DisjointResultAt(q, p, m, k);
      PrefixAt(p, m, Stop(p, m), k);
      PrefixAt(q, m, Stop(q, m), k);
    }
    SameLookups(Result(q, Result(p, m)), Result(p, Result(q, m)));
  }

  // ----- Two plans, step by step -----

  /** Steps of p do not change what q reads, so q stops where it did. */
  lemma StopBeside<K(!new), V(!new)>(p: Plan<K, V>, q: Plan<K, V>, m: map<K, V>, i: nat)
    requires Disjoint(p, q) && i <= p.count
    ensures Stop(q, Prefix(p, m, i)) == Stop(q, m)
  {
    var s, t := Stop(q, m), Stop(q, Prefix(p, m, i));
    if s < q.count { PrefixFrame(p, m, i, q.key(s)); }
    if t < q.count { PrefixFrame(p, m, i, q.key(t)); }
  }

  /** Any number of steps of the one and of the other give the same store in either order. */
  lemma PrefixesCommute<K(!new), V(!new)>(p: Plan<K, V>, q: Plan<K, V>, m: map<K, V>, i: nat, j: nat)
    requires Lawful(p) && Lawful(q) && Disjoint(p, q) && i <= p.count && j <= q.count
    ensures Prefix(q, Prefix(p, m, i), j) == Prefix(p, Prefix(q, m, j), i)
  {
    forall k
      ensures Lookup(Prefix(q, Prefix(p, m, i), j), k) == Lookup(Prefix(p, Prefix(q, m, j), i), k)
    {
      PrefixAt(q, Prefix(p, m, i), j, k);
      PrefixAt(p, Prefix(q, m, j), i, k);
      PrefixAt(p, m, i, k);
      PrefixAt(q, m, j, k);
    }
    SameLookups(Prefix(q, Prefix(p, m, i), j), Prefix(p, Prefix(q, m, j), i));
  }
}
