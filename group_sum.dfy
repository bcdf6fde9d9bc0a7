/**
 * Abstract accumulation in a commutative monoid.
 *
 * The aggregate public key of a quorum is a sum of G1 points of the BN254
 * curve, and its total stake is a sum of integers. Both are sums, in a
 * commutative monoid, of the values of a map keyed by operator id. The curve
 * itself is not modelled: a point type is a type parameter `P`, and the
 * curve's group law is passed in as a `Monoid<P>` whose laws are a
 * precondition (`IsCommutativeMonoid`).
 */
module GroupSum {

  /** A binary operation with a distinguished neutral element. */
  datatype Monoid<!P> = Monoid(add: (P, P) -> P, identity: P)

  /** The identity law at one point. */
  ghost predicate IdentityAt<P>(g: Monoid<P>, a: P)
  {
    g.add(g.identity, a) == a
  }

  /** Commutativity at one pair of points. */
  ghost predicate CommutesAt<P>(g: Monoid<P>, a: P, b: P)
  {
    g.add(a, b) == g.add(b, a)
  }

  /** Associativity at one triple of points. */
  ghost predicate AssociatesAt<P>(g: Monoid<P>, a: P, b: P, c: P)
  {
    g.add(g.add(a, b), c) == g.add(a, g.add(b, c))
  }

  /**
   * The laws the curve's point addition obeys and the aggregation relies on.
   * Each law is instantiated only where a proof names it (through the
   * predicates above), which keeps the solver from unfolding them endlessly.
   */
  ghost predicate IsCommutativeMonoid<P(!new)>(g: Monoid<P>)
  {
    && (forall a :: IdentityAt(g, a))
    && (forall a, b :: CommutesAt(g, a, b))
    && (forall a, b, c :: AssociatesAt(g, a, b, c))
  }

  /** Addition on stake amounts (unbounded: the model does not wrap). */
  function NatAddition(): (g: Monoid<nat>)
    ensures IsCommutativeMonoid(g)
    ensures forall a: nat, b: nat :: g.add(a, b) == a + b
    ensures g.identity == 0
  {
    var add: (nat, nat) -> nat := (a: nat, b: nat) => a + b;
    Monoid(add, 0)
  }

  /**
   * The sum of all values of `vals`. The element taken out first is an
   * arbitrary one; `SumRemove` shows that any choice gives the same sum.
   */
  ghost function Sum<K, P>(g: Monoid<P>, vals: map<K, P>): P
    decreases vals.Keys
  {
    if vals == map[] then g.identity
    else
      var k :| k in vals;
      g.add(vals[k], Sum(g, vals - {k}))
  }

  /** Any key can be taken out of the sum first. */
  lemma {:induction false} SumRemove<K, P(!new)>(g: Monoid<P>, vals: map<K, P>, k: K)
    requires IsCommutativeMonoid(g)
    requires k in vals
    ensures Sum(g, vals) == g.add(vals[k], Sum(g, vals - {k}))
    decreases vals.Keys
  {
    var k' :| k' in vals && Sum(g, vals) == g.add(vals[k'], Sum(g, vals - {k'}));
    if k' != k {
      var rest := vals - {k} - {k'};
      assert vals - {k'} - {k} == rest;
      SumRemove(g, vals - {k'}, k);
      SumRemove(g, vals - {k}, k');
      assert AssociatesAt(g, vals[k'], vals[k], Sum(g, rest));
      assert CommutesAt(g, vals[k'], vals[k]);
      assert AssociatesAt(g, vals[k], vals[k'], Sum(g, rest));
      calc {
        Sum(g, vals);
        g.add(vals[k'], g.add(vals[k], Sum(g, rest)));
        g.add(g.add(vals[k'], vals[k]), Sum(g, rest));
        g.add(g.add(vals[k], vals[k']), Sum(g, rest));
        g.add(vals[k], g.add(vals[k'], Sum(g, rest)));
        g.add(vals[k], Sum(g, vals - {k}));
      }
    }
  }

  /** A single value summed alone. */
  lemma SumSingleton<K, P(!new)>(g: Monoid<P>, k: K, v: P)
    requires IsCommutativeMonoid(g)
    ensures Sum(g, map[k := v]) == v
  {
    SumRemove(g, map[k := v], k);
    assert map[k := v] - {k} == map[];
    assert CommutesAt(g, v, g.identity) && IdentityAt(g, v);
  }

  /**
   * Left-to-right accumulation, starting at the identity, of the values of
   * `vals` in the order `order` lists their keys: what a loop over the map in
   * one particular iteration order computes.
   */
  ghost function Accumulate<K, P>(g: Monoid<P>, vals: map<K, P>, order: seq<K>): P
    requires forall i :: 0 <= i < |order| ==> order[i] in vals
  {
    if order == [] then g.identity
    else g.add(Accumulate(g, vals, order[..|order| - 1]), vals[order[|order| - 1]])
  }

  /** Accumulation only looks at the keys it is given. */
  lemma {:induction false} AccumulateFrame<K, P>(g: Monoid<P>, vals: map<K, P>, vals': map<K, P>, order: seq<K>)
    requires forall i :: 0 <= i < |order| ==> order[i] in vals && order[i] in vals' && vals[order[i]] == vals'[order[i]]
    ensures Accumulate(g, vals, order) == Accumulate(g, vals', order)
  {
    if order != [] {
      AccumulateFrame(g, vals, vals', order[..|order| - 1]);
    }
  }

  /**
   * Iteration order does not matter: accumulating the values in ANY order that
   * lists every key exactly once gives the sum of the map.
   */
  lemma {:induction false} AccumulateAnyOrder<K, P(!new)>(g: Monoid<P>, vals: map<K, P>, order: seq<K>)
    requires IsCommutativeMonoid(g)
    requires forall i, j :: 0 <= i < j < |order| ==> order[i] != order[j]
    requires forall k :: k in vals <==> k in order
    ensures Accumulate(g, vals, order) == Sum(g, vals)
  {
    if order == [] {
      assert vals == map[];
    } else {
      var n := |order| - 1;
      var last, prefix := order[n], order[..n];
      var rest := vals - {last};
      assert forall i :: 0 <= i < n ==> prefix[i] == order[i];
      assert forall i :: 0 <= i < n ==> prefix[i] != last;
      assert forall k :: k in prefix ==> k in rest;
      forall k | k in rest ensures k in prefix {
        var i :| 0 <= i < |order| && order[i] == k;
        assert prefix[i] == k;
      }
      AccumulateAnyOrder(g, rest, prefix);
      AccumulateFrame(g, vals, rest, prefix);
      SumRemove(g, vals, last);
      assert CommutesAt(g, Sum(g, rest), vals[last]);
    }
  }
}
