/**
 * The numeric vocabulary of the clustering metrics: a Java `double` seen as
 * either a finite real or the NaN tag, with NaN-absorbing arithmetic and the
 * left-to-right sums that the metric loops compute.
 */
module Numbers {

  datatype Option<T> = None | Some(value: T)

  /** A double as the metrics code uses it: a finite value, or NaN (a missing entry). */
  datatype Num = NaN | Fin(v: real)

  function Add(a: Num, b: Num): Num {
    if a.Fin? && b.Fin? then Fin(a.v + b.v) else NaN
  }

  function Sub(a: Num, b: Num): Num {
    if a.Fin? && b.Fin? then Fin(a.v - b.v) else NaN
  }

  function Mul(a: Num, b: Num): Num {
    if a.Fin? && b.Fin? then Fin(a.v * b.v) else NaN
  }

  /** `x / n` for a count `n` converted to double; a zero count gives NaN. */
  function Div(x: Num, n: int): Num {
    if x.Fin? && n != 0 then Fin(x.v / n as real) else NaN
  }

  /** Elementwise sum of two double vectors of equal length. */
  function Plus(a: seq<Num>, b: seq<Num>): seq<Num>
    requires |a| == |b|
  {
    seq(|a|, i requires 0 <= i < |a| => Add(a[i], b[i]))
  }

  /** Elementwise sum of two count vectors of equal length. */
  function PlusNat(a: seq<nat>, b: seq<nat>): seq<nat>
    requires |a| == |b|
  {
    seq(|a|, i requires 0 <= i < |a| => a[i] + b[i])
  }

  function Zeros(n: nat): seq<Num> {
    seq(n, _ => Fin(0.0))
  }

  function NatZeros(n: nat): seq<nat> {
    seq(n, _ => 0)
  }

  /** `acc = 0; for x in xs: acc += x`: NaN exactly when some entry is NaN. */
  function Sum(xs: seq<Num>): (r: Num)
    ensures r.NaN? <==> exists i :: 0 <= i < |xs| && xs[i].NaN?
  {
    if xs == [] then Fin(0.0)
    else
      var init := xs[..|xs| - 1];
      assert forall i :: 0 <= i < |init| ==> init[i] == xs[i];
      Add(Sum(init), xs[|xs| - 1])
  }

  /** One more step of the running sum. */
  lemma SumSnoc(xs: seq<Num>, x: Num)
    ensures Sum(xs + [x]) == Add(Sum(xs), x)
  {
    assert (xs + [x])[..|xs|] == xs;
  }

  /** The total of a vector of counts. */
  function SumNat(xs: seq<nat>): nat {
    if xs == [] then 0 else SumNat(xs[..|xs| - 1]) + xs[|xs| - 1]
  }

  /** Summing elementwise sums is adding the two sums. */
  lemma {:induction false} SumPlus(a: seq<Num>, b: seq<Num>)
    requires |a| == |b|
    ensures Sum(Plus(a, b)) == Add(Sum(a), Sum(b))
  {
    if a != [] {
      var n := |a| - 1;
      assert Plus(a, b)[..n] == Plus(a[..n], b[..n]);
      SumPlus(a[..n], b[..n]);
    }
  }

  lemma {:induction false} SumNatPlus(a: seq<nat>, b: seq<nat>)
    requires |a| == |b|
    ensures SumNat(PlusNat(a, b)) == SumNat(a) + SumNat(b)
  {
    if a != [] {
      var n := |a| - 1;
      assert PlusNat(a, b)[..n] == PlusNat(a[..n], b[..n]);
      SumNatPlus(a[..n], b[..n]);
    }
  }

  /** Adding `e` to one entry adds `e` to the sum. */
  lemma {:induction false} SumAddAt(xs: seq<Num>, k: int, e: Num)
    requires 0 <= k < |xs|
    ensures Sum(xs[k := Add(xs[k], e)]) == Add(Sum(xs), e)
  {
    var ys := xs[k := Add(xs[k], e)];
    var n := |xs| - 1;
    if k == n {
      assert ys[..n] == xs[..n];
    } else {
      assert ys[..n] == xs[..n][k := Add(xs[k], e)];
      SumAddAt(xs[..n], k, e);
    }
  }

  /** Adding one to one count adds one to the total. */
  lemma {:induction false} SumNatIncrementAt(xs: seq<nat>, k: int)
    requires 0 <= k < |xs|
    ensures SumNat(xs[k := xs[k] + 1]) == SumNat(xs) + 1
  {
    var ys := xs[k := xs[k] + 1];
    var n := |xs| - 1;
    if k == n {
      assert ys[..n] == xs[..n];
    } else {
      assert ys[..n] == xs[..n][k := xs[k] + 1];
      SumNatIncrementAt(xs[..n], k);
    }
  }

  /** A vector of zeros sums to zero. */
  lemma {:induction false} SumOfZeros(xs: seq<Num>)
    requires forall i :: 0 <= i < |xs| ==> xs[i] == Fin(0.0)
    ensures Sum(xs) == Fin(0.0)
  {
    if xs != [] {
      SumOfZeros(xs[..|xs| - 1]);
    }
  }

  /** Counts total zero exactly when every count is zero. */
  lemma {:induction false} SumNatZero(xs: seq<nat>)
    ensures SumNat(xs) == 0 <==> forall i :: 0 <= i < |xs| ==> xs[i] == 0
  {
    if xs != [] {
      SumNatZero(xs[..|xs| - 1]);
    }
  }

  /** A sum of non-negative finite doubles is a non-negative finite double. */
  lemma {:induction false} SumNonnegative(xs: seq<Num>)
    requires forall i :: 0 <= i < |xs| ==> xs[i].Fin? && xs[i].v >= 0.0
    ensures Sum(xs).Fin? && Sum(xs).v >= 0.0
  {
    if xs != [] {
      SumNonnegative(xs[..|xs| - 1]);
    }
  }

  /** The running sum one index further. */
  lemma SumPrefixStep(xs: seq<Num>, m: int)
    requires 0 <= m < |xs|
    ensures Sum(xs[..m + 1]) == Add(Sum(xs[..m]), xs[m])
  {
    assert xs[..m + 1] == xs[..m] + [xs[m]];
    SumSnoc(xs[..m], xs[m]);
  }

  /** Adding `b` into `a` one index further. */
  lemma PlusPrefixStep(a: seq<Num>, b: seq<Num>, m: int)
    requires |a| == |b| && 0 <= m < |a|
    ensures (Plus(a[..m], b[..m]) + a[m..])[m := Add(a[m], b[m])] == Plus(a[..m + 1], b[..m + 1]) + a[m + 1..]
  {
  }

  lemma SumOfPair(a: Num, b: Num)
    ensures Sum([a, b]) == Add(Add(Fin(0.0), a), b)
  {
    var xs := [a, b];
    assert xs[..1] == [a];
    assert [a][..0] == [];
    assert Sum(xs) == Add(Sum(xs[..1]), b);
  }

  lemma SumNatOfPair(a: nat, b: nat)
    ensures SumNat([a, b]) == a + b
  {
    var xs := [a, b];
    assert xs[..1] == [a];
    assert [a][..0] == [];
    assert SumNat(xs) == SumNat(xs[..1]) + b;
  }

  /** `acc = 0; for x in xs: acc += x` over exact reals. */
  function RSum(xs: seq<real>): real {
    if xs == [] then 0.0 else RSum(xs[..|xs| - 1]) + xs[|xs| - 1]
  }

  /** The running sum of finite doubles is the finite sum of their values. */
  lemma {:induction false} SumOfFins(xs: seq<Num>, ys: seq<real>)
    requires |xs| == |ys|
    requires forall i :: 0 <= i < |xs| ==> xs[i] == Fin(ys[i])
    ensures Sum(xs) == Fin(RSum(ys))
  {
    if xs != [] {
      SumOfFins(xs[..|xs| - 1], ys[..|ys| - 1]);
    }
  }
}
