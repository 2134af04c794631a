/** Allocation of a batch to the ranks of a data-parallel group. */
module Batching {

  datatype Strategy = Auto | Replicate | Split

  datatype Allocation<T> = Allocation(data: seq<T>, total: nat, local: nat, strategy: Strategy, replicated: bool,
    wasted: real)

  datatype AllocationError = BadDegree | BadRank | EmptyBatch | Indivisible

  datatype Result<T> = Ok(value: T) | Err(error: AllocationError)

  function Whole<T>(data: seq<T>, wasted: real): Allocation<T> {
    Allocation(data, |data|, |data|, Replicate, true, wasted)
  }

  function PrepareBatchForDp<T>(data: seq<T>, degree: int, rank: int, strategy: Strategy): Result<Allocation<T>> {
    if degree < 1 then Err(BadDegree)
    else if !(0 <= rank < degree) then Err(BadRank)
    else if data == [] then Err(EmptyBatch)
    else if degree == 1 then Ok(Whole(data, 0.0))
    else
      var resolved := if strategy.Auto? then (if |data| % degree == 0 then Split else Replicate) else strategy;
      if resolved.Replicate? then Ok(Whole(data, (degree - 1) as real / degree as real))
      else if |data| % degree != 0 then Err(Indivisible)
      else
        var perRank := |data| / degree;
        SliceFits(|data|, degree, rank);
        Ok(Allocation(data[rank * perRank..rank * perRank + perRank], |data|, perRank, Split, false, 0.0))
  }

  lemma ProductIsNatural(a: int, b: int)
    requires a >= 0 && b >= 0
    ensures a * b >= 0
  {
  }

  lemma SliceFits(total: nat, degree: int, rank: int)
    requires 0 <= rank < degree && total % degree == 0
    ensures 0 <= rank * (total / degree) <= rank * (total / degree) + total / degree <= total
  {
    var per := total / degree;
    assert degree * per == total;
    ProductIsNatural(rank, per);
    ProductIsNatural(degree - 1 - rank, per);
    assert rank * per + per + (degree - 1 - rank) * per == total;
  }

  /** Whether a rank gets a batch does not depend on which rank it is; the first fault is the one reported. */
  lemma AllocatedIff<T>(data: seq<T>, degree: int, rank: int, strategy: Strategy)
    ensures var r := PrepareBatchForDp(data, degree, rank, strategy);
      && (r.Ok? <==> degree > 0 && 0 <= rank < degree && data != [] && (strategy.Split? ==> |data| % degree == 0))
      && (r == Err(BadDegree) <==> degree <= 0)
      && (r == Err(BadRank) <==> degree > 0 && (rank < 0 || degree <= rank))
      && (r == Err(EmptyBatch) <==> 0 <= rank < degree && |data| == 0)
  {
    if degree == 1 {
      assert |data| % 1 == 0;
    }
  }

  /** The wasted share is what the group computes more than once, over all it computes. */
  lemma WastedIsRepeatedWork<T>(data: seq<T>, degree: int, rank: int, strategy: Strategy, a: Allocation<T>)
    requires PrepareBatchForDp(data, degree, rank, strategy) == Ok(a)
    ensures a.local == |a.data| && a.total == |data| && a.strategy != Auto
    ensures a.replicated <==> a.strategy == Replicate
    ensures a.replicated ==> a.data == data
    ensures a.wasted * (degree * a.local) as real == (degree * a.local - a.total) as real
  {
    if degree > 1 {
      if a.replicated {
        RepeatedWork(degree, |data|);
      } else {
        RankSlice(data, degree, rank, strategy);
        assert degree * (|data| / degree) == |data|;
      }
    }
  }

  lemma RepeatedWork(degree: int, n: nat)
    requires degree > 1
    ensures (degree - 1) as real / degree as real * (degree * n) as real == (degree * n - n) as real
  {
    var d, waste := degree as real, (degree - 1) as real / degree as real;
    assert waste * d == (degree - 1) as real;
    assert (degree * n) as real == d * n as real;
    assert waste * (d * n as real) == (waste * d) * n as real;
    assert degree * n - n == (degree - 1) * n;
    assert ((degree - 1) * n) as real == (degree - 1) as real * n as real;
  }

  // ---------- the ranks together ----------

  /** What rank `r` works on. */
  function Local<T>(data: seq<T>, degree: int, strategy: Strategy, r: int): seq<T> {
    var mine := PrepareBatchForDp(data, degree, r, strategy);
    if mine.Ok? then mine.value.data else []
  }

  /** The local batches of the first `n` ranks, in rank order. */
  function Gathered<T>(data: seq<T>, degree: int, strategy: Strategy, n: nat): seq<T> {
    if n == 0 then [] else Gathered(data, degree, strategy, n - 1) + Local(data, degree, strategy, n - 1)
  }

  predicate Splits<T>(data: seq<T>, degree: int, strategy: Strategy) {
    degree > 1 && data != [] && !strategy.Replicate? && |data| % degree == 0
  }

  lemma RankSlice<T>(data: seq<T>, degree: int, rank: nat, strategy: Strategy)
    requires Splits(data, degree, strategy) && rank < degree
    ensures var per := |data| / degree;
      && 0 <= rank * per <= rank * per + per <= |data|
      && PrepareBatchForDp(data, degree, rank, strategy)
        == Ok(Allocation(data[rank * per..rank * per + per], |data|, per, Split, false, 0.0))
  {
    SliceFits(|data|, degree, rank);
  }

  lemma TileStep<T>(data: seq<T>, per: nat, r: nat)
    requires 0 <= r * per <= r * per + per <= |data|
    ensures (r + 1) * per == r * per + per
    ensures data[..r * per] + data[r * per..r * per + per] == data[..(r + 1) * per]
  {
  }

  lemma GatheredNext<T>(data: seq<T>, degree: int, strategy: Strategy, r: nat, per: nat)
    requires Splits(data, degree, strategy) && r < degree && per == |data| / degree
    ensures 0 <= r * per <= r * per + per <= |data|
    ensures Gathered(data, degree, strategy, r + 1)
      == Gathered(data, degree, strategy, r) + data[r * per..r * per + per]
  {
    RankSlice(data, degree, r, strategy);
  }

  lemma {:induction false} SlicesTile<T>(data: seq<T>, degree: int, strategy: Strategy, n: nat, per: nat)
    requires Splits(data, degree, strategy) && n <= degree && per == |data| / degree
    ensures 0 <= n * per <= |data|
    ensures Gathered(data, degree, strategy, n) == data[..n * per]
  {
    if n > 0 {
      SlicesTile(data, degree, strategy, n - 1, per);
      GatheredNext(data, degree, strategy, n - 1, per);
      TileStep(data, per, n - 1);
    }
  }

  /** Splitting hands out every item once, in order. */
  lemma SplitIsPartition<T>(data: seq<T>, degree: int, strategy: Strategy)
    requires Splits(data, degree, strategy)
    ensures Gathered(data, degree, strategy, degree) == data
  {
    var per := |data| / degree;
    SlicesTile(data, degree, strategy, degree, per);
    assert degree * per == |data|;
  }

  // ---------- means ----------

  function Sum<T>(f: T -> real, s: seq<T>): real {
    if s == [] then 0.0 else f(s[0]) + Sum(f, s[1..])
  }

  function Mean<T>(f: T -> real, s: seq<T>): real
    requires s != []
  {
    Sum(f, s) / |s| as real
  }

  lemma {:induction false} SumConcat<T>(f: T -> real, a: seq<T>, b: seq<T>)
    ensures Sum(f, a + b) == Sum(f, a) + Sum(f, b)
  {
    if a == [] {
      assert a + b == b;
    } else {
      SumConcat(f, a[1..], b);
      assert (a + b)[1..] == a[1..] + b;
    }
  }

  /** The mean of equal values is that value; with additivity this leaves no other sum. */
  lemma {:induction false} MeanOfEqual<T>(f: T -> real, s: seq<T>, c: real)
    requires s != [] && forall x <- s :: f(x) == c
    ensures Sum(f, s) == Times(c, |s|) && Mean(f, s) == c
  {
    assert f(s[0]) == c;
    if |s| == 1 {
      assert s[1..] == [];
    } else {
      MeanOfEqual(f, s[1..], c);
      TimesNext(c, |s| - 1);
    }
    Cancel(|s| as real, c);
  }

  lemma TimesNext(c: real, n: nat)
    ensures Times(c, n + 1) == c + Times(c, n)
  {
  }

  /** The sum of the first `n` ranks' local means. */
  function MeansSum<T>(f: T -> real, data: seq<T>, degree: int, strategy: Strategy, n: nat): real {
    if n == 0 then 0.0
    else
      var mine := Local(data, degree, strategy, n - 1);
      MeansSum(f, data, degree, strategy, n - 1) + if mine != [] then Mean(f, mine) else 0.0
  }

  lemma MeanTimes<T>(f: T -> real, s: seq<T>)
    requires s != []
    ensures Mean(f, s) * |s| as real == Sum(f, s)
  {
  }

  lemma LocalSize<T>(data: seq<T>, degree: int, strategy: Strategy, r: nat, per: nat)
    requires Splits(data, degree, strategy) && r < degree && per == |data| / degree
    ensures |Local(data, degree, strategy, r)| == per
  {
    RankSlice(data, degree, r, strategy);
  }

  function Times(a: real, n: nat): real {
    a * n as real
  }

  ghost predicate EvenLocals<T>(data: seq<T>, degree: int, strategy: Strategy, per: nat) {
    forall r: nat :: r < degree ==> |Local(data, degree, strategy, r)| == per
  }

  lemma {:induction false} SplitMeans<T>(f: T -> real, data: seq<T>, degree: int, strategy: Strategy, n: nat, per: nat)
    requires EvenLocals(data, degree, strategy, per) && n <= degree && per > 0
    ensures Times(MeansSum(f, data, degree, strategy, n), per) == Sum(f, Gathered(data, degree, strategy, n))
  {
    if n > 0 {
      SplitMeans(f, data, degree, strategy, n - 1, per);
      AddSlice(f, MeansSum(f, data, degree, strategy, n - 1), Gathered(data, degree, strategy, n - 1),
        Local(data, degree, strategy, n - 1), per);
    }
  }

  lemma AddSlice<T>(f: T -> real, m: real, before: seq<T>, mine: seq<T>, per: nat)
    requires |mine| == per > 0 && Times(m, per) == Sum(f, before)
    ensures Times(m + Mean(f, mine), per) == Sum(f, before + mine)
  {
    SumConcat(f, before, mine);
    MeanTimes(f, mine);
    TimesSum(m, Mean(f, mine), per as real);
  }

  lemma PerIsPositive(total: nat, degree: int)
    requires degree > 1 && total > 0 && total % degree == 0
    ensures total / degree > 0
  {
  }

  lemma TimesSum(a: real, b: real, c: real)
    ensures (a + b) * c == a * c + b * c
  {
  }

  lemma WholeLocal<T>(data: seq<T>, degree: int, strategy: Strategy, r: nat)
    requires r < degree && data != [] && !Splits(data, degree, strategy)
    requires strategy.Split? ==> |data| % degree == 0
    ensures Local(data, degree, strategy, r) == data
  {
  }

  lemma {:induction false} WholeMeans<T>(f: T -> real, data: seq<T>, degree: int, strategy: Strategy, n: nat)
    requires degree >= 1 && data != [] && n <= degree && !Splits(data, degree, strategy)
    requires strategy.Split? ==> |data| % degree == 0
    ensures MeansSum(f, data, degree, strategy, n) == n as real * Mean(f, data)
  {
    if n > 0 {
      WholeMeans(f, data, degree, strategy, n - 1);
      WholeLocal(data, degree, strategy, n - 1);
      TimesSum((n - 1) as real, 1.0, Mean(f, data));
    }
  }

  /** Whatever the strategy, averaging the ranks' local means gives the mean of the whole batch. */
  lemma MeanOfMeansIsMean<T>(f: T -> real, data: seq<T>, degree: int, strategy: Strategy)
    requires degree >= 1 && data != [] && (strategy.Split? ==> |data| % degree == 0)
    ensures MeansSum(f, data, degree, strategy, degree) / degree as real == Mean(f, data)
  {
    if Splits(data, degree, strategy) {
      var per := |data| / degree;
      PerIsPositive(|data|, degree);
      forall r: nat | r < degree
        ensures |Local(data, degree, strategy, r)| == per
      {
        LocalSize(data, degree, strategy, r, per);
      }
      SplitMeans(f, data, degree, strategy, degree, per);
      SplitIsPartition(data, degree, strategy);
      Regroup(f, data, MeansSum(f, data, degree, strategy, degree), per, degree);
    } else {
      WholeMeans(f, data, degree, strategy, degree);
      Cancel(degree as real, Mean(f, data));
    }
  }

  lemma Regroup<T>(f: T -> real, data: seq<T>, m: real, per: nat, degree: int)
    requires degree > 1 && data != [] && |data| % degree == 0 && per == |data| / degree && per > 0
    requires Times(m, per) == Sum(f, data)
    ensures m / degree as real == Mean(f, data)
  {
    assert per * degree == |data|;
    Quotients(m, Sum(f, data), per as real, degree as real, |data| as real);
  }

  lemma Quotients(m: real, s: real, per: real, degree: real, total: real)
    requires per > 0.0 && degree > 0.0 && total == per * degree && m * per == s
    ensures m / degree == s / total
  {
    var x := m / degree;
    assert x * degree == m;
    assert x * total == (x * degree) * per == s;
  }

  lemma Cancel(d: real, x: real)
    requires d > 0.0
    ensures (d * x) / d == x
  {
  }
}
