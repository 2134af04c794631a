/**
 * Training on packs computes the loss of the batch. The model's per-token losses are arbitrary
 * numbers that depend on document and position only, which is what the position resets are for.
 */
module PackingLoss {
  import opened Basics
  import opened FirstFit
  import opened Packing
  import opened PackSequences

  /** One forward pass: labels and per-token losses along the same axis. */
  datatype SubBatch = SubBatch(labels: seq<int>, losses: seq<real>)

  /** The number of labels that are not ignored. */
  function Targets(labels: seq<int>): nat {
    if labels == [] then 0
    else Targets(labels[..|labels| - 1]) + if labels[|labels| - 1] != IGNORE then 1 else 0
  }

  /** The sum of the losses at labels that are not ignored. */
  function TargetSum(labels: seq<int>, losses: seq<real>): real
    requires |labels| == |losses|
  {
    if labels == [] then 0.0
    else
      var n := |labels| - 1;
      TargetSum(labels[..n], losses[..n]) + if labels[n] != IGNORE then losses[n] else 0.0
  }

  lemma {:induction false} TargetsAreCounted(labels: seq<int>)
    ensures Targets(labels) == |set i | 0 <= i < |labels| && labels[i] != -100|
  {
    if labels != [] {
      var n := |labels| - 1;
      TargetsAreCounted(labels[..n]);
      var front := set i | 0 <= i < n && labels[..n][i] != -100;
      assert (set i | 0 <= i < |labels| && labels[i] != -100) == front + if labels[n] != -100 then {n} else {};
    }
  }

  /** More loss at a target is as much more in the sum; at an ignored label it makes no difference. */
  lemma {:induction false} EachTargetCounts(labels: seq<int>, losses: seq<real>, i: nat, more: real)
    requires i < |labels| == |losses|
    ensures TargetSum(labels, losses[i := losses[i] + more])
      == TargetSum(labels, losses) + if labels[i] == -100 then 0.0 else more
  {
    var n := |labels| - 1;
    var higher := losses[i := losses[i] + more];
    if i == n {
      assert higher[..n] == losses[..n];
    } else {
      assert higher[..n] == losses[..n][i := losses[..n][i] + more];
      EachTargetCounts(labels[..n], losses[..n], i, more);
    }
  }

  /** Equal losses add up to so many times their value. */
  lemma {:induction false} EqualLosses(labels: seq<int>, losses: seq<real>, x: real)
    requires |labels| == |losses| && forall i :: 0 <= i < |losses| ==> losses[i] == x
    ensures TargetSum(labels, losses) == Times(x, Targets(labels))
  {
    if labels != [] {
      EqualLosses(labels[..|labels| - 1], losses[..|labels| - 1], x);
      TimesNext(x, Targets(labels[..|labels| - 1]));
    }
  }

  lemma TimesNext(x: real, n: nat)
    ensures Times(x, n + 1) == Times(x, n) + x
  {
  }

  predicate Shaped(subs: seq<SubBatch>) {
    forall i :: 0 <= i < |subs| ==> |subs[i].labels| == |subs[i].losses|
  }

  function TotalTargets(subs: seq<SubBatch>): nat {
    if subs == [] then 0 else TotalTargets(subs[..|subs| - 1]) + Targets(subs[|subs| - 1].labels)
  }

  function TotalSum(subs: seq<SubBatch>): real
    requires Shaped(subs)
  {
    if subs == [] then 0.0
    else TotalSum(subs[..|subs| - 1]) + TargetSum(subs[|subs| - 1].labels, subs[|subs| - 1].losses)
  }

  /** `sum / max(n, 1)` */
  function Mean(sum: real, n: nat): real {
    if n == 0 then sum else sum / (n as real)
  }

  function Times(x: real, n: nat): real {
    x * (n as real)
  }

  /** The mean over all targets of all sub-batches; 0 when there is no target at all. */
  function BatchMean(subs: seq<SubBatch>): real
    requires Shaped(subs)
  {
    Mean(TotalSum(subs), TotalTargets(subs))
  }

  /** The stock reduction of the trainer: 0 / 0 is not a number. */
  function StockMean(sub: SubBatch): Option<real>
    requires |sub.labels| == |sub.losses|
  {
    if Targets(sub.labels) == 0 then None else Some(Mean(TargetSum(sub.labels, sub.losses), Targets(sub.labels)))
  }

  /** The weighted reduction of the worker: the denominator is at least one. */
  function ClampedMean(sub: SubBatch): real
    requires |sub.labels| == |sub.losses|
  {
    Mean(TargetSum(sub.labels, sub.losses), Targets(sub.labels))
  }

  /** Arithmetic in which anything done to a value that is not a number is not a number. */
  function Scaled(x: Option<real>, n: nat): Option<real> {
    match x case None => None case Some(v) => Some(Times(v, n))
  }

  function Plus(x: Option<real>, y: Option<real>): Option<real> {
    if x.None? || y.None? then None else Some(x.value + y.value)
  }

  lemma WeightedMeanIsSum(sub: SubBatch)
    requires |sub.labels| == |sub.losses|
    ensures Scaled(StockMean(sub), Targets(sub.labels)) ==
            if Targets(sub.labels) == 0 then None else Some(TargetSum(sub.labels, sub.losses))
  {
    MeanTimesCount(TargetSum(sub.labels, sub.losses), Targets(sub.labels));
  }

  method TrainerLoss(subs: seq<SubBatch>) returns (loss: Option<real>)
    requires Shaped(subs)
    ensures loss.Some? <==> forall i :: 0 <= i < |subs| ==> Targets(subs[i].labels) > 0
    ensures loss.Some? ==> loss.value == BatchMean(subs)
  {
    var totalTokens := CountTargets(subs);
    var weightedLossSum: Option<real> := Some(0.0);
    for i := 0 to |subs|
      invariant weightedLossSum.Some? <==> forall k :: 0 <= k < i ==> Targets(subs[k].labels) > 0
      invariant weightedLossSum.Some? ==> weightedLossSum.value == TotalSum(subs[..i])
    {
      assert subs[..i + 1][..i] == subs[..i];
      var mean, num := StockMean(subs[i]), Targets(subs[i].labels);
      var share := Scaled(mean, num);
      WeightedMeanIsSum(subs[i]);
      weightedLossSum := Plus(weightedLossSum, share);
    }
    assert subs[..|subs|] == subs;
    loss := if weightedLossSum.None? then None else Some(Mean(weightedLossSum.value, totalTokens));
  }

  method WorkerLoss(subs: seq<SubBatch>) returns (loss: real)
    requires Shaped(subs)
    ensures loss == BatchMean(subs)
  {
    var totalTokens := CountTargets(subs);
    var weightedLossSum := 0.0;
    for i := 0 to |subs|
      invariant weightedLossSum == TotalSum(subs[..i])
    {
      assert subs[..i + 1][..i] == subs[..i];
      NoTargetsNoLoss(subs[i].labels, subs[i].losses);
      MeanTimesCount(TargetSum(subs[i].labels, subs[i].losses), Targets(subs[i].labels));
      weightedLossSum := weightedLossSum + Times(ClampedMean(subs[i]), Targets(subs[i].labels));
    }
    assert subs[..|subs|] == subs;
    loss := Mean(weightedLossSum, totalTokens);
  }

  method CountTargets(subs: seq<SubBatch>) returns (n: nat)
    ensures n == TotalTargets(subs)
  {
    n := 0;
    for i := 0 to |subs|
      invariant n == TotalTargets(subs[..i])
    {
      assert subs[..i + 1][..i] == subs[..i];
      n := n + Targets(subs[i].labels);
    }
    assert subs[..|subs|] == subs;
  }

  lemma MeanTimesCount(sum: real, n: nat)
    ensures n > 0 ==> Times(Mean(sum, n), n) == sum
    ensures n == 0 ==> Times(Mean(sum, n), n) == 0.0
  {
  }

  lemma {:induction false} NoTargetsNoLoss(labels: seq<int>, losses: seq<real>)
    requires |labels| == |losses|
    ensures Targets(labels) == 0 ==> TargetSum(labels, losses) == 0.0
  {
    if labels != [] {
      NoTargetsNoLoss(labels[..|labels| - 1], losses[..|losses| - 1]);
    }
  }

  // ---------- sums over documents ----------

  function RealSum(values: seq<real>, items: seq<nat>): real
    requires AllBelow(items, |values|)
  {
    if items == [] then 0.0 else RealSum(values, items[..|items| - 1]) + values[items[|items| - 1]]
  }

  lemma {:induction false} RealSumConcat(values: seq<real>, a: seq<nat>, b: seq<nat>)
    requires AllBelow(a, |values|) && AllBelow(b, |values|)
    ensures AllBelow(a + b, |values|) && RealSum(values, a + b) == RealSum(values, a) + RealSum(values, b)
  {
    if b == [] {
      assert a + b == a;
    } else {
      assert (a + b)[..|a + b| - 1] == a + b[..|b| - 1];
      RealSumConcat(values, a, b[..|b| - 1]);
    }
  }

  lemma RealSumRemoved(values: seq<real>, b: seq<nat>, i: nat)
    requires AllBelow(b, |values|) && i < |b|
    ensures AllBelow(RemoveAt(b, i), |values|) && RealSum(values, b) == RealSum(values, RemoveAt(b, i)) + values[b[i]]
  {
    assert b == b[..i] + [b[i]] + b[i + 1..];
    RealSumSplit(values, b[..i], b[i], b[i + 1..]);
  }

  lemma RealSumSplit(values: seq<real>, a: seq<nat>, x: nat, c: seq<nat>)
    requires AllBelow(a, |values|) && x < |values| && AllBelow(c, |values|)
    ensures AllBelow(a + [x], |values|) && AllBelow(a + c, |values|) && AllBelow(a + [x] + c, |values|)
    ensures RealSum(values, a + [x] + c) == RealSum(values, a + c) + values[x]
  {
    RealSumConcat(values, a, c);
    RealSumConcat(values, a + [x], c);
    assert (a + [x])[..|a|] == a;
  }

  /** Sums do not depend on the order of the documents. */
  lemma {:induction false} RealSumOfPermutation(values: seq<real>, a: seq<nat>, b: seq<nat>)
    requires AllBelow(a, |values|) && AllBelow(b, |values|) && multiset(a) == multiset(b)
    ensures RealSum(values, a) == RealSum(values, b)
  {
    if a == [] {
      assert |multiset(b)| == |b|;
    } else {
      var x := a[|a| - 1];
      assert x in multiset(a) && x in multiset(b);
      var i :| 0 <= i < |b| && b[i] == x;
      RemovedAt([], b, i);
      RemovedAt([], a, |a| - 1);
      assert RemoveAt(a, |a| - 1) == a[..|a| - 1];
      RealSumRemoved(values, b, i);
      RealSumOfPermutation(values, a[..|a| - 1], RemoveAt(b, i));
    }
  }

  lemma {:induction false} TargetsConcat(a: seq<int>, b: seq<int>, la: seq<real>, lb: seq<real>)
    requires |a| == |la| && |b| == |lb|
    ensures Targets(a + b) == Targets(a) + Targets(b)
      && TargetSum(a + b, la + lb) == TargetSum(a, la) + TargetSum(b, lb)
  {
    if b == [] {
      assert a + b == a && la + lb == la;
    } else {
      var n := |b| - 1;
      assert (a + b)[..|a| + n] == a + b[..n] && (la + lb)[..|a| + n] == la + lb[..n];
      TargetsConcat(a, b[..n], la, lb[..n]);
    }
  }

  // ---------- packs against documents ----------

  /** The model's loss at each position of each document: one row for each item. */
  predicate LossTable(items: seq<Item>, losses: seq<seq<real>>) {
    |losses| == |items| && forall x :: 0 <= x < |items| ==> |losses[x]| == |items[x].ids| && Aligned(items[x])
  }

  /** The pack of the documents `members`, with the losses the model computes for its tokens. */
  function SubBatchOf(items: seq<Item>, losses: seq<seq<real>>, members: seq<nat>, mask: bool): (sub: SubBatch)
    requires LossTable(items, losses) && AllBelow(members, |items|)
    ensures |sub.labels| == |sub.losses|
  {
    var labelParts := LabelParts(Gather(items, members), mask);
    var lossParts := seq(|members|, i requires 0 <= i < |members| => losses[members[i]]);
    SameLengthsSameSlices(labelParts, lossParts);
    SubBatch(Concat(labelParts), Concat(lossParts))
  }

  /** The share of each document, computed on its own. */
  function DocumentSums(items: seq<Item>, losses: seq<seq<real>>, mask: bool): (r: seq<real>)
    requires LossTable(items, losses)
    ensures |r| == |items|
  {
    seq(|items|, x requires 0 <= x < |items| => TargetSum(PackedLabels(items[x], mask), losses[x]))
  }

  function DocumentTargets(items: seq<Item>, mask: bool): (r: seq<nat>)
    ensures |r| == |items|
  {
    seq(|items|, x requires 0 <= x < |items| => Targets(PackedLabels(items[x], mask)))
  }

  /** A pack's sums are the sums of its documents' shares. */
  lemma {:induction false} PackSums(items: seq<Item>, losses: seq<seq<real>>, members: seq<nat>, mask: bool)
    requires LossTable(items, losses) && AllBelow(members, |items|)
    ensures var sub := SubBatchOf(items, losses, members, mask);
            && Targets(sub.labels) == Load(DocumentTargets(items, mask), members)
            && TargetSum(sub.labels, sub.losses) == RealSum(DocumentSums(items, losses, mask), members)
  {
    if members != [] {
      var front, x := members[..|members| - 1], members[|members| - 1];
      PackSums(items, losses, front, mask);
      OneMoreShare(items, losses, members, mask);
      LoadNext(DocumentTargets(items, mask), members);
    }
  }

  lemma LoadNext(lens: seq<nat>, members: seq<nat>)
    requires members != []
    ensures Load(lens, members) == Load(lens, members[..|members| - 1]) + Len(lens, members[|members| - 1])
  {
    var n := |members| - 1;
    assert members == members[..n] + [members[n]];
    LoadConcat(lens, members[..n], [members[n]]);
  }

  lemma OneMoreShare(items: seq<Item>, losses: seq<seq<real>>, members: seq<nat>, mask: bool)
    requires LossTable(items, losses) && AllBelow(members, |items|) && members != []
    ensures var front, x := members[..|members| - 1], members[|members| - 1];
            var sub, before := SubBatchOf(items, losses, members, mask), SubBatchOf(items, losses, front, mask);
            && Targets(sub.labels) == Targets(before.labels) + DocumentTargets(items, mask)[x]
            && TargetSum(sub.labels, sub.losses)
              == TargetSum(before.labels, before.losses) + DocumentSums(items, losses, mask)[x]
  {
    var front, x := members[..|members| - 1], members[|members| - 1];
    OneMoreDocument(items, losses, members, mask);
    var before := SubBatchOf(items, losses, front, mask);
    TargetsConcat(before.labels, PackedLabels(items[x], mask), before.losses, losses[x]);
  }

  lemma OneMoreDocument(items: seq<Item>, losses: seq<seq<real>>, members: seq<nat>, mask: bool)
    requires LossTable(items, losses) && AllBelow(members, |items|) && members != []
    ensures var front, x := members[..|members| - 1], members[|members| - 1];
            var sub, before := SubBatchOf(items, losses, members, mask), SubBatchOf(items, losses, front, mask);
            sub.labels == before.labels + PackedLabels(items[x], mask) && sub.losses == before.losses + losses[x]
  {
    var n := |members| - 1;
    var front := members[..n];
    var labelParts, frontLabels := LabelParts(Gather(items, members), mask), LabelParts(Gather(items, front), mask);
    var lossParts := seq(|members|, i requires 0 <= i < |members| => losses[members[i]]);
    var frontLosses := seq(n, i requires 0 <= i < n => losses[front[i]]);
    assert labelParts[..n] == frontLabels && lossParts[..n] == frontLosses;
  }

  /** The sub-batches of the packs in the order in which the packs are made. */
  function PackedBatch(items: seq<Item>, losses: seq<seq<real>>, bins: seq<seq<nat>>, mask: bool): (subs: seq<SubBatch>)
    requires LossTable(items, losses) && forall b :: 0 <= b < |bins| ==> AllBelow(bins[b], |items|)
    ensures |subs| == |bins| && Shaped(subs)
  {
    if bins == [] then [] else
    var n := |bins| - 1;
    MembersInOrder(items, bins[n]);
    PackedBatch(items, losses, bins[..n], mask) + [SubBatchOf(items, losses, InOrder(bins[n]), mask)]
  }

  lemma {:induction false} PackedTotals(items: seq<Item>, losses: seq<seq<real>>, bins: seq<seq<nat>>, mask: bool)
    requires LossTable(items, losses) && forall b :: 0 <= b < |bins| ==> AllBelow(bins[b], |items|)
    ensures AllBelow(Flat(bins), |items|)
    ensures var subs := PackedBatch(items, losses, bins, mask);
            && TotalTargets(subs) == Load(DocumentTargets(items, mask), Flat(bins))
            && TotalSum(subs) == RealSum(DocumentSums(items, losses, mask), Flat(bins))
  {
    if bins != [] {
      var n := |bins| - 1;
      PackedTotals(items, losses, bins[..n], mask);
      BinSums(items, losses, bins[n], mask);
      FlatStep(bins);
      LoadConcat(DocumentTargets(items, mask), Flat(bins[..n]), bins[n]);
      RealSumConcat(DocumentSums(items, losses, mask), Flat(bins[..n]), bins[n]);
      PackedBatchStep(items, losses, bins, mask);
    }
  }

  lemma FlatStep(bins: seq<seq<nat>>)
    requires bins != []
    ensures Flat(bins) == Flat(bins[..|bins| - 1]) + bins[|bins| - 1]
  {
    var n := |bins| - 1;
    assert bins == bins[..n] + [bins[n]];
    FlatConcat(bins[..n], [bins[n]]);
    assert Flat([bins[n]]) == bins[n] + [] == bins[n];
  }

  lemma BinSums(items: seq<Item>, losses: seq<seq<real>>, bin: seq<nat>, mask: bool)
    requires LossTable(items, losses) && AllBelow(bin, |items|)
    ensures AllBelow(InOrder(bin), |items|)
    ensures var sub := SubBatchOf(items, losses, InOrder(bin), mask);
            && Targets(sub.labels) == Load(DocumentTargets(items, mask), bin)
            && TargetSum(sub.labels, sub.losses) == RealSum(DocumentSums(items, losses, mask), bin)
  {
    MembersInOrder(items, bin);
    InOrderIsSorted(bin);
    PackSums(items, losses, InOrder(bin), mask);
    LoadOfPermutation(DocumentTargets(items, mask), InOrder(bin), bin);
    RealSumOfPermutation(DocumentSums(items, losses, mask), InOrder(bin), bin);
  }

  lemma PackedBatchStep(items: seq<Item>, losses: seq<seq<real>>, bins: seq<seq<nat>>, mask: bool)
    requires LossTable(items, losses) && bins != [] && (forall b :: 0 <= b < |bins| ==> AllBelow(bins[b], |items|))
    requires AllBelow(InOrder(bins[|bins| - 1]), |items|)
    ensures var subs := PackedBatch(items, losses, bins, mask);
            var front := PackedBatch(items, losses, bins[..|bins| - 1], mask);
            var last := SubBatchOf(items, losses, InOrder(bins[|bins| - 1]), mask);
            && TotalTargets(subs) == TotalTargets(front) + Targets(last.labels)
            && TotalSum(subs) == TotalSum(front) + TargetSum(last.labels, last.losses)
  {
    var subs, front := PackedBatch(items, losses, bins, mask), PackedBatch(items, losses, bins[..|bins| - 1], mask);
    assert subs[..|subs| - 1] == front;
  }

  /**
   * The loss over packs is the mean over all unmasked targets of the batch, whatever the capacity
   * and therefore whatever the assignment of documents to packs: the document shares are summed
   * in the order of the batch on the right-hand side.
   */
  lemma PackingPreservesLoss(items: seq<Item>, losses: seq<seq<real>>, cap: nat, mask: bool)
    requires LossTable(items, losses)
    ensures (forall b :: 0 <= b < |Bins(items, cap)| ==> AllBelow(Bins(items, cap)[b], |items|))
      && AllBelow(Range(|items|), |items|)
    ensures BatchMean(PackedBatch(items, losses, Bins(items, cap), mask)) ==
            Mean(RealSum(DocumentSums(items, losses, mask), Range(|items|)),
              Load(DocumentTargets(items, mask), Range(|items|)))
  {
    BinsAreValid(items, cap);
    PackedTotals(items, losses, Bins(items, cap), mask);
    RealSumOfPermutation(DocumentSums(items, losses, mask), Flat(Bins(items, cap)), Range(|items|));
    LoadOfPermutation(DocumentTargets(items, mask), Flat(Bins(items, cap)), Range(|items|));
  }

  /** Masking costs one target for each document whose first label is not ignored already. */
  lemma MaskedTargets(item: Item)
    ensures Targets(PackedLabels(item, true)) ==
            Targets(LabelsOf(item)) - if LabelsOf(item) != [] && LabelsOf(item)[0] != IGNORE then 1 else 0
  {
    var labels := LabelsOf(item);
    if labels != [] {
      var rest, zeros := labels[1..], seq(|labels| - 1, _ => 0.0);
      assert labels == [labels[0]] + rest;
      TargetsConcat([labels[0]], rest, [0.0], zeros);
      TargetsConcat([IGNORE], rest, [0.0], zeros);
      assert Targets([labels[0]]) == if labels[0] != IGNORE then 1 else 0;
      assert Targets([IGNORE]) == 0;
    }
  }

  /** The labels the loss sees are those of the packs that `PackSequences` returns. */
  lemma {:induction false} PackedBatchIsPacks(items: seq<Item>, losses: seq<seq<real>>, cap: nat, mask: bool, b: nat)
    requires LossTable(items, losses) && b < |Bins(items, cap)|
    ensures forall c :: 0 <= c < |Bins(items, cap)| ==> AllBelow(Bins(items, cap)[c], |items|)
    ensures PackedBatch(items, losses, Bins(items, cap), mask)[b].labels == PackOf(items, cap, mask, b).labels
  {
    BinsAreValid(items, cap);
    PackedBatchAt(items, losses, Bins(items, cap), mask, b);
  }

  lemma {:induction false} PackedBatchAt(items: seq<Item>, losses: seq<seq<real>>, bins: seq<seq<nat>>, mask: bool,
      b: nat)
    requires LossTable(items, losses) && b < |bins| && (forall c :: 0 <= c < |bins| ==> AllBelow(bins[c], |items|))
    ensures AllBelow(InOrder(bins[b]), |items|)
    ensures PackedBatch(items, losses, bins, mask)[b] == SubBatchOf(items, losses, InOrder(bins[b]), mask)
  {
    MembersInOrder(items, bins[b]);
    if b < |bins| - 1 {
      PackedBatchAt(items, losses, bins[..|bins| - 1], mask, b);
    }
  }

  // ---------- a pack without a target ----------

  /** A document of one token has no target left once its first label is masked. */
  lemma OneTokenNoTarget(item: Item)
    requires |LabelsOf(item)| <= 1
    ensures Targets(PackedLabels(item, true)) == 0
  {
    if LabelsOf(item) != [] {
      assert PackedLabels(item, true) == [IGNORE];
      assert Targets([IGNORE]) == Targets([]) + 0;
    }
  }

  lemma {:induction false} NoLoad(lens: seq<nat>, items: seq<nat>)
    requires forall i :: 0 <= i < |lens| ==> lens[i] == 0
    ensures Load(lens, items) == 0
  {
    if items != [] {
      NoLoad(lens, items[1..]);
    }
  }

  lemma {:induction false} EachWithout(subs: seq<SubBatch>, i: nat)
    requires TotalTargets(subs) == 0 && i < |subs|
    ensures Targets(subs[i].labels) == 0
  {
    var n := |subs| - 1;
    if i < n {
      EachWithout(subs[..n], i);
    }
  }

  const LONE := [Item([5], None)]

  /** A batch of one single-token document is packed into one pack without a target: the trainer's loss is no number. */
  lemma LoneTokenHasNoLoss(losses: seq<seq<real>>, bins: seq<seq<nat>>)
    requires |losses| == 1 && |losses[0]| == 1 && bins == Bins(LONE, 1)
    ensures LossTable(LONE, losses) && forall b :: 0 <= b < |bins| ==> AllBelow(bins[b], |LONE|)
    ensures var subs := PackedBatch(LONE, losses, bins, true); |subs| == 1 && Targets(subs[0].labels) == 0
  {
    LoneBin();
    BinsAreValid(LONE, 1);
    PackedTotals(LONE, losses, bins, true);
    OneTokenNoTarget(LONE[0]);
    NoLoad(DocumentTargets(LONE, true), Flat(bins));
    EachWithout(PackedBatch(LONE, losses, bins, true), 0);
  }

  lemma LoneBin()
    ensures |Bins(LONE, 1)| == 1
  {
    assert Range(1) == [0];
    assert Load(Lens(LONE), [0]) == 1;
    EverythingInOnePack(LONE, 1);
  }
}
