/** Double-and-add for any addition, as the loop of src/keyVault/ed25519.ts:53-63 does it. */
module Multiples {
  /** An addition on some carrier, up to `same`. */
  datatype Addition<!T> = Addition(carrier: T -> bool, same: (T, T) -> bool, add: (T, T) -> T, zero: T)

  /** The recursive form of the loop. */
  function DoubleAndAdd<T>(a: Addition<T>, k: nat, result: T, addend: T): T {
    if k == 0 then result
    else DoubleAndAdd(a, k / 2, if k % 2 == 1 then a.add(result, addend) else result, a.add(addend, addend))
  }

  /** k times p, added up. */
  function Multiple<T>(a: Addition<T>, k: nat, p: T): T {
    if k == 0 then a.zero else a.add(Multiple(a, k - 1, p), p)
  }

  /** `same` is an equivalence on the carrier. */
  predicate Equivalent<T>(a: Addition<T>, p: T, q: T, r: T) {
    a.carrier(p) && a.carrier(q) && a.carrier(r) ==>
      && a.same(p, p) && (a.same(p, q) ==> a.same(q, p)) && (a.same(p, q) && a.same(q, r) ==> a.same(p, r))
  }

  /** Addition respects it. */
  predicate Respects<T>(a: Addition<T>, p: T, p': T, q: T, q': T) {
    a.carrier(p) && a.carrier(p') && a.carrier(q) && a.carrier(q') && a.same(p, p') && a.same(q, q') ==>
      a.same(a.add(p, q), a.add(p', q'))
  }

  predicate Reassociates<T>(a: Addition<T>, p: T, q: T, r: T) {
    a.carrier(p) && a.carrier(q) && a.carrier(r) ==> a.same(a.add(a.add(p, q), r), a.add(p, a.add(q, r)))
  }

  predicate Closes<T>(a: Addition<T>, p: T, q: T) {
    a.carrier(p) && a.carrier(q) ==> a.carrier(a.add(p, q))
  }

  predicate HasZero<T>(a: Addition<T>, p: T) {
    a.carrier(p) ==> a.same(a.add(a.zero, p), p) && a.same(a.add(p, a.zero), p)
  }

  /** On the carrier, and there alone, addition is closed, associative up to `same`, and has a
      zero. */
  ghost predicate IsMonoid<T(!new)>(a: Addition<T>) {
    && a.carrier(a.zero) && (forall p, q :: Closes(a, p, q))
    && (forall p, q, r :: Equivalent(a, p, q, r)) && (forall p, p', q, q' :: Respects(a, p, p', q, q'))
    && (forall p, q, r :: Reassociates(a, p, q, r)) && (forall p :: HasZero(a, p))
  }

  lemma Closed<T(!new)>(a: Addition<T>, p: T, q: T)
    requires IsMonoid(a) && a.carrier(p) && a.carrier(q)
    ensures a.carrier(a.add(p, q)) && a.same(p, p)
  {
    assert Closes(a, p, q) && Equivalent(a, p, p, p);
  }

  lemma Zero<T(!new)>(a: Addition<T>, p: T)
    requires IsMonoid(a) && a.carrier(p)
    ensures a.carrier(a.zero) && a.carrier(a.add(a.zero, p)) && a.carrier(a.add(p, a.zero)) && a.same(a.zero, a.zero)
    ensures a.same(a.add(a.zero, p), p) && a.same(p, a.add(a.zero, p)) && a.same(a.add(p, a.zero), p) && a.same(p, a.add(p, a.zero))
  {
    assert HasZero(a, p) && Closes(a, a.zero, p) && Closes(a, p, a.zero) && Equivalent(a, a.zero, a.zero, a.zero);
    assert Equivalent(a, a.add(a.zero, p), p, p) && Equivalent(a, a.add(p, a.zero), p, p);
  }

  lemma {:induction false} MultipleIn<T(!new)>(a: Addition<T>, k: nat, p: T)
    requires IsMonoid(a) && a.carrier(p)
    ensures a.carrier(Multiple(a, k, p))
  {
    hide IsMonoid;
    if k > 0 {
      MultipleIn(a, k - 1, p);
      Closed(a, Multiple(a, k - 1, p), p);
    } else {
      Zero(a, p);
    }
  }

  lemma Trans<T(!new)>(a: Addition<T>, p: T, q: T, r: T)
    requires IsMonoid(a) && a.carrier(p) && a.carrier(q) && a.carrier(r) && a.same(p, q) && a.same(q, r)
    ensures a.same(p, r)
  {
    assert Equivalent(a, p, q, r);
  }

  lemma Added<T(!new)>(a: Addition<T>, p: T, p': T, q: T, q': T)
    requires IsMonoid(a) && a.carrier(p) && a.carrier(p') && a.carrier(q) && a.carrier(q') && a.same(p, p') && a.same(q, q')
    ensures a.same(a.add(p, q), a.add(p', q')) && a.carrier(a.add(p, q)) && a.carrier(a.add(p', q'))
  {
    assert Respects(a, p, p', q, q') && Closes(a, p, q) && Closes(a, p', q');
  }

  lemma Regrouped<T(!new)>(a: Addition<T>, p: T, q: T, r: T)
    requires IsMonoid(a) && a.carrier(p) && a.carrier(q) && a.carrier(r)
    ensures a.carrier(a.add(p, q)) && a.carrier(a.add(q, r)) && a.carrier(a.add(a.add(p, q), r)) && a.carrier(a.add(p, a.add(q, r)))
    ensures a.same(a.add(a.add(p, q), r), a.add(p, a.add(q, r))) && a.same(a.add(p, a.add(q, r)), a.add(a.add(p, q), r))
    ensures a.same(p, p) && a.same(q, q) && a.same(r, r)
  {
    assert Closes(a, p, q) && Closes(a, q, r) && Closes(a, a.add(p, q), r) && Closes(a, p, a.add(q, r)) && Reassociates(a, p, q, r);
    assert Equivalent(a, p, q, r) && Equivalent(a, q, p, p) && Equivalent(a, r, p, p);
    assert Equivalent(a, a.add(a.add(p, q), r), a.add(p, a.add(q, r)), p);
  }

  /** Halving the count and doubling the point gives the same multiple. */
  lemma {:induction false} MultipleDoubles<T(!new)>(a: Addition<T>, n: nat, p: T)
    requires IsMonoid(a) && a.carrier(p)
    ensures a.same(Multiple(a, n, a.add(p, p)), Multiple(a, 2 * n, p))
  {
    hide IsMonoid;
    if n == 0 {
      Zero(a, p);
    } else {
      var s, t, twice := Multiple(a, 2 * n - 2, p), Multiple(a, n - 1, a.add(p, p)), a.add(p, p);
      MultipleDoubles(a, n - 1, p);
      Closed(a, p, p);
      MultipleIn(a, 2 * n - 2, p);
      MultipleIn(a, n - 1, twice);
      Regrouped(a, s, p, p);
      Closed(a, twice, twice);
      Added(a, t, s, twice, twice);
      assert Multiple(a, 2 * n, p) == a.add(a.add(s, p), p);
      Trans(a, a.add(t, twice), a.add(s, twice), a.add(a.add(s, p), p));
    }
  }

  lemma {:induction false} MultipleCommutes<T(!new)>(a: Addition<T>, n: nat, p: T)
    requires IsMonoid(a) && a.carrier(p)
    ensures a.same(a.add(p, Multiple(a, n, p)), Multiple(a, n + 1, p))
  {
    hide IsMonoid;
    Zero(a, p);
    if n == 0 {
      Trans(a, a.add(p, a.zero), p, a.add(a.zero, p));
    } else {
      var s := Multiple(a, n - 1, p);
      MultipleIn(a, n - 1, p);
      MultipleIn(a, n, p);
      MultipleCommutes(a, n - 1, p);
      Regrouped(a, p, s, p);
      Closed(a, p, p);
      Added(a, a.add(p, s), Multiple(a, n, p), p, p);
      Trans(a, a.add(p, a.add(s, p)), a.add(a.add(p, s), p), a.add(Multiple(a, n, p), p));
    }
  }

  /** One round of the loop keeps result + k * addend. */
  lemma Round<T(!new)>(a: Addition<T>, k: nat, result: T, addend: T)
    requires IsMonoid(a) && a.carrier(result) && a.carrier(addend) && k > 0
    ensures var next := if k % 2 == 1 then a.add(result, addend) else result;
            a.same(a.add(next, Multiple(a, k / 2, a.add(addend, addend))), a.add(result, Multiple(a, k, addend)))
  {
    hide IsMonoid;
    var half, even := Multiple(a, k / 2, a.add(addend, addend)), Multiple(a, 2 * (k / 2), addend);
    Closed(a, addend, addend);
    Closed(a, result, addend);
    MultipleDoubles(a, k / 2, addend);
    MultipleIn(a, k / 2, a.add(addend, addend));
    MultipleIn(a, 2 * (k / 2), addend);
    MultipleIn(a, k, addend);
    if k % 2 == 1 {
      assert k == 2 * (k / 2) + 1;
      MultipleCommutes(a, k - 1, addend);
      hide Multiple;
      var next := a.add(result, addend);
      Closed(a, next, next);
      Closed(a, result, result);
      Added(a, next, next, half, even);
      Regrouped(a, result, addend, even);
      Trans(a, a.add(next, half), a.add(next, even), a.add(result, a.add(addend, even)));
      Added(a, result, result, a.add(addend, even), Multiple(a, k, addend));
      Trans(a, a.add(next, half), a.add(result, a.add(addend, even)), a.add(result, Multiple(a, k, addend)));
    } else {
      assert k == 2 * (k / 2);
      Closed(a, result, result);
      Added(a, result, result, half, even);
    }
  }

  lemma {:induction false} DoubleAndAddSums<T(!new)>(a: Addition<T>, k: nat, result: T, addend: T)
    requires IsMonoid(a) && a.carrier(result) && a.carrier(addend)
    ensures a.carrier(DoubleAndAdd(a, k, result, addend))
    ensures a.same(DoubleAndAdd(a, k, result, addend), a.add(result, Multiple(a, k, addend)))
    decreases k
  {
    hide IsMonoid;
    MultipleIn(a, k, addend);
    Closed(a, result, Multiple(a, k, addend));
    if k == 0 {
      Zero(a, result);
    } else {
      var next := if k % 2 == 1 then a.add(result, addend) else result;
      Closed(a, result, addend);
      Closed(a, addend, addend);
      DoubleAndAddSums(a, k / 2, next, a.add(addend, addend));
      MultipleIn(a, k / 2, a.add(addend, addend));
      Closed(a, next, Multiple(a, k / 2, a.add(addend, addend)));
      Round(a, k, result, addend);
      Trans(a, DoubleAndAdd(a, k, result, addend), a.add(next, Multiple(a, k / 2, a.add(addend, addend))),
            a.add(result, Multiple(a, k, addend)));
    }
  }

  /** Double-and-add is the k-fold sum, for every addition that is associative on its carrier. */
  lemma MultiplySums<T(!new)>(a: Addition<T>, k: nat, p: T)
    requires IsMonoid(a) && a.carrier(p)
    ensures a.carrier(DoubleAndAdd(a, k, a.zero, p)) && a.carrier(Multiple(a, k, p))
    ensures a.same(DoubleAndAdd(a, k, a.zero, p), Multiple(a, k, p))
  {
    hide IsMonoid;
    Zero(a, p);
    MultipleIn(a, k, p);
    Zero(a, Multiple(a, k, p));
    DoubleAndAddSums(a, k, a.zero, p);
    Trans(a, DoubleAndAdd(a, k, a.zero, p), a.add(a.zero, Multiple(a, k, p)), Multiple(a, k, p));
  }
}
