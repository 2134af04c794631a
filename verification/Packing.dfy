/** Sequence packing: documents concatenated into packs, and what a pack lets one recover. */
module Packing {
  import opened Basics
  import opened FirstFit

  const IGNORE := -100

  datatype Item = Item(ids: seq<int>, labels: Option<seq<int>>)

  datatype Pack = Pack(
    inputIds: seq<int>,
    labels: seq<int>,
    positionIds: seq<int>,
    cuSeqlens: seq<nat>,
    slices: seq<(nat, nat)>)

  datatype Outcome<+T> = Ok(value: T) | ValueError(message: string)

  function LabelsOf(item: Item): seq<int> {
    if item.labels.Some? then item.labels.value else item.ids
  }

  predicate Aligned(item: Item) {
    item.labels.Some? ==> |item.labels.value| == |item.ids|
  }

  /** The labels that go into the pack: the first label of a document is masked on request. */
  function PackedLabels(item: Item, mask: bool): seq<int> {
    if mask && LabelsOf(item) != [] then [IGNORE] + LabelsOf(item)[1..] else LabelsOf(item)
  }

  /** 0, 1, ..., n - 1 as position ids. */
  function Positions(n: nat): (r: seq<int>)
    ensures |r| == n && forall i :: 0 <= i < n ==> r[i] == i
  {
    seq(n, i => i)
  }

  // ---------- concatenation and its cuts ----------

  function Concat<T>(parts: seq<seq<T>>): seq<T> {
    if parts == [] then [] else Concat(parts[..|parts| - 1]) + parts[|parts| - 1]
  }

  function Slices<T>(parts: seq<seq<T>>): seq<(nat, nat)> {
    if parts == [] then [] else
    var front := parts[..|parts| - 1];
    Slices(front) + [(|Concat(front)|, |Concat(parts)|)]
  }

  function CuSeqlens<T>(parts: seq<seq<T>>): seq<nat> {
    if parts == [] then [0] else CuSeqlens(parts[..|parts| - 1]) + [|Concat(parts)|]
  }

  ghost predicate InRange(slices: seq<(nat, nat)>, total: nat) {
    forall s <- slices :: s.0 <= s.1 <= total
  }

  function Unpack<T>(packed: seq<T>, slices: seq<(nat, nat)>): seq<seq<T>>
    requires InRange(slices, |packed|)
  {
    seq(|slices|, i requires 0 <= i < |slices| => packed[slices[i].0..slices[i].1])
  }

  lemma CutInFront<T>(a: seq<T>, b: seq<T>, i: nat, j: nat)
    requires i <= j <= |a|
    ensures (a + b)[i..j] == a[i..j]
  {
  }

  lemma {:induction false} SliceCut<T>(parts: seq<seq<T>>, i: nat)
    requires i < |parts|
    ensures |Slices(parts)| == |parts|
    ensures var s := Slices(parts)[i]; s.0 <= s.1 <= |Concat(parts)| && Concat(parts)[s.0..s.1] == parts[i]
  {
    var n := |parts| - 1;
    var front := parts[..n];
    SlicesLength(front);
    if i < n {
      SliceCut(front, i);
      var s := Slices(front)[i];
      CutInFront(Concat(front), parts[n], s.0, s.1);
    }
  }

  lemma {:induction false} SlicesLength<T>(parts: seq<seq<T>>)
    ensures |Slices(parts)| == |parts|
  {
    if parts != [] {
      SlicesLength(parts[..|parts| - 1]);
    }
  }

  /** Slices stay in range and cut the parts out again. */
  lemma SlicesCut<T>(parts: seq<seq<T>>)
    ensures |Slices(parts)| == |parts| && InRange(Slices(parts), |Concat(parts)|)
    ensures forall i :: 0 <= i < |parts| ==> Concat(parts)[Slices(parts)[i].0..Slices(parts)[i].1] == parts[i]
  {
    SlicesLength(parts);
    forall i | 0 <= i < |parts|
      ensures Slices(parts)[i].0 <= Slices(parts)[i].1 <= |Concat(parts)|
      ensures Concat(parts)[Slices(parts)[i].0..Slices(parts)[i].1] == parts[i]
    {
      SliceCut(parts, i);
    }
  }

  /** Unpacking what was packed gives back the documents, token for token. */
  lemma UnpackInvertsConcat<T>(parts: seq<seq<T>>)
    ensures InRange(Slices(parts), |Concat(parts)|)
    ensures Unpack(Concat(parts), Slices(parts)) == parts
  {
    SlicesCut(parts);
  }

  lemma {:induction false} SameLengthsSameSlices<T, U>(a: seq<seq<T>>, b: seq<seq<U>>)
    requires |a| == |b| && forall i :: 0 <= i < |a| ==> |a[i]| == |b[i]|
    ensures Slices(a) == Slices(b) && |Concat(a)| == |Concat(b)| && CuSeqlens(a) == CuSeqlens(b)
  {
    if a != [] {
      SameLengthsSameSlices(a[..|a| - 1], b[..|b| - 1]);
    }
  }

  /** The slices tile the token axis, and their ends are the cumulative lengths. */
  lemma {:induction false} SlicesTile<T>(parts: seq<seq<T>>)
    ensures var s, cu := Slices(parts), CuSeqlens(parts);
            && |s| == |parts| && |cu| == |parts| + 1 && cu[0] == 0 && cu[|parts|] == |Concat(parts)|
            && forall i :: 0 <= i < |s| ==> s[i] == (cu[i], cu[i + 1]) && cu[i + 1] == cu[i] + |parts[i]|
  {
    if parts != [] {
      SlicesTile(parts[..|parts| - 1]);
    }
  }

  // ---------- one pack ----------

  function Map<T, U>(f: T -> U, s: seq<T>): (r: seq<U>)
    ensures |r| == |s| && forall i :: 0 <= i < |s| ==> r[i] == f(s[i])
  {
    seq(|s|, i requires 0 <= i < |s| => f(s[i]))
  }

  function IdParts(members: seq<Item>): seq<seq<int>> {
    Map((m: Item) => m.ids, members)
  }

  function LabelParts(members: seq<Item>, mask: bool): seq<seq<int>> {
    Map((m: Item) => PackedLabels(m, mask), members)
  }

  function PositionParts(members: seq<Item>): seq<seq<int>> {
    Map((m: Item) => Positions(|m.ids|), members)
  }

  /** What `_build_pack` builds from documents whose labels have the right length. */
  function Built(members: seq<Item>, mask: bool): Pack {
    Pack(Concat(IdParts(members)), Concat(LabelParts(members, mask)), Concat(PositionParts(members)),
         CuSeqlens(IdParts(members)), Slices(IdParts(members)))
  }

  lemma BuiltStep(members: seq<Item>, k: nat, mask: bool)
    requires k < |members|
    ensures var before, after, m := Built(members[..k], mask), Built(members[..k + 1], mask), members[k];
            && after.inputIds == before.inputIds + m.ids
            && after.labels == before.labels + PackedLabels(m, mask)
            && after.positionIds == before.positionIds + Positions(|m.ids|)
            && after.slices == before.slices + [(|before.inputIds|, |after.inputIds|)]
            && after.cuSeqlens == before.cuSeqlens + [|after.inputIds|]
  {
    var front, next := members[..k], members[..k + 1];
    assert IdParts(next)[..k] == IdParts(front);
    assert LabelParts(next, mask)[..k] == LabelParts(front, mask);
    assert PositionParts(next)[..k] == PositionParts(front);
  }

  lemma DocumentAdded(members: seq<Item>, k: nat, mask: bool, before: Pack, after: Pack)
    requires k < |members| && before == Built(members[..k], mask)
    requires var m := members[k];
      after == Pack(before.inputIds + m.ids, before.labels + PackedLabels(m, mask),
        before.positionIds + Positions(|m.ids|),
        before.cuSeqlens + [|before.inputIds| + |m.ids|],
          before.slices + [(|before.inputIds|, |before.inputIds| + |m.ids|)])
    ensures after == Built(members[..k + 1], mask)
  {
    BuiltStep(members, k, mask);
  }

  method BuildPack(members: seq<Item>, mask: bool) returns (r: Outcome<Pack>)
    ensures if forall m <- members :: Aligned(m) then r == Ok(Built(members, mask)) else r.ValueError?
  {
    var flatIds, flatLabels, flatPos: seq<int> := [], [], [];
    var cu: seq<nat>, slices: seq<(nat, nat)> := [0], [];
    var offset: nat := 0;
    for i := 0 to |members|
      invariant forall k :: 0 <= k < i ==> Aligned(members[k])
      invariant Pack(flatIds, flatLabels, flatPos, cu, slices) == Built(members[..i], mask)
      invariant offset == |flatIds|
    {
      ghost var before := Pack(flatIds, flatLabels, flatPos, cu, slices);
      var ids, lbls := members[i].ids, LabelsOf(members[i]);
      if |lbls| != |ids| {
        assert members[i] in members && !Aligned(members[i]);
        return ValueError("labels length differs from input_ids length");
      }
      if mask && lbls != [] {
        lbls := [IGNORE] + lbls[1..];
      }
      assert lbls == PackedLabels(members[i], mask);
      flatIds := flatIds + ids;
      flatLabels := flatLabels + lbls;
      flatPos := flatPos + Positions(|ids|);
      var end := offset + |ids|;
      slices := slices + [(offset, end)];
      cu := cu + [end];
      offset := end;
      DocumentAdded(members, i, mask, before, Pack(flatIds, flatLabels, flatPos, cu, slices));
      assert offset == |flatIds|;
    }
    assert members[..|members|] == members;
    assert forall m <- members :: Aligned(m);
    r := Ok(Pack(flatIds, flatLabels, flatPos, cu, slices));
  }

  method UnpackOutputs<T>(packed: seq<T>, slices: seq<(nat, nat)>) returns (out: seq<seq<T>>)
    requires InRange(slices, |packed|)
    ensures out == Unpack(packed, slices)
  {
    out := [];
    for i := 0 to |slices|
      invariant out == Unpack(packed, slices)[..i]
    {
      out := out + [packed[slices[i].0..slices[i].1]];
    }
  }

  /** The label of token `k`: none for the first one on request, else the one given, else the token itself. */
  ghost predicate IsLabel(m: Item, mask: bool, k: nat, x: int) {
    if mask && k == 0 then x == -100
    else match m.labels
      case Some(given) => k < |given| && x == given[k]
      case None => k < |m.ids| && x == m.ids[k]
  }

  lemma LabelsArePacked(m: Item, mask: bool)
    requires Aligned(m)
    ensures var labels := PackedLabels(m, mask);
      |labels| == |m.ids| && forall k :: 0 <= k < |m.ids| ==> IsLabel(m, mask, k, labels[k])
  {
  }

  /** What unpacking gives for one document: its tokens, their labels, and their offsets. */
  ghost predicate IsDocument(m: Item, mask: bool, ids: seq<int>, labels: seq<int>, offsets: seq<int>) {
    && ids == m.ids && |labels| == |offsets| == |m.ids|
    && forall k :: 0 <= k < |m.ids| ==> IsLabel(m, mask, k, labels[k]) && offsets[k] == k
  }

  /** All three token streams of a pack are cut into the documents by the same slices. */
  lemma PackRoundTrip(members: seq<Item>, mask: bool)
    requires forall m <- members :: Aligned(m)
    ensures var p := Built(members, mask);
            && |p.inputIds| == |p.labels| == |p.positionIds| && InRange(p.slices, |p.inputIds|)
            && |p.slices| == |members|
            && forall i :: 0 <= i < |members| ==>
                 IsDocument(members[i], mask, Unpack(p.inputIds, p.slices)[i], Unpack(p.labels, p.slices)[i],
                   Unpack(p.positionIds, p.slices)[i])
  {
    StreamsRoundTrip(members, mask);
    SlicesLength(IdParts(members));
    forall i | 0 <= i < |members|
      ensures IsDocument(members[i], mask, IdParts(members)[i], LabelParts(members, mask)[i],
        PositionParts(members)[i])
    {
      LabelsArePacked(members[i], mask);
    }
  }

  lemma StreamsRoundTrip(members: seq<Item>, mask: bool)
    requires forall m <- members :: Aligned(m)
    ensures var p := Built(members, mask);
            && |p.inputIds| == |p.labels| == |p.positionIds| && InRange(p.slices, |p.inputIds|)
            && Unpack(p.inputIds, p.slices) == IdParts(members)
            && Unpack(p.labels, p.slices) == LabelParts(members, mask)
            && Unpack(p.positionIds, p.slices) == PositionParts(members)
  {
    UnpackInvertsConcat(IdParts(members));
    UnpackInvertsConcat(LabelParts(members, mask));
    UnpackInvertsConcat(PositionParts(members));
    assert forall m <- members :: |PackedLabels(m, mask)| == |m.ids|;
    SameLengthsSameSlices(IdParts(members), LabelParts(members, mask));
    SameLengthsSameSlices(IdParts(members), PositionParts(members));
  }

  // ---------- document boundaries ----------

  /** The places where the position ids are zero, in order. */
  function Resets(positions: seq<int>): seq<nat> {
    if positions == [] then [] else
    var n := |positions| - 1;
    Resets(positions[..n]) + if positions[n] == 0 then [n] else []
  }

  /** What the attention kernel derives from the position ids. */
  function Recovered(positions: seq<int>): seq<nat> {
    Resets(positions) + [|positions|]
  }

  lemma {:induction false} ResetsOfRange(before: seq<int>, n: nat)
    ensures Resets(before + Positions(n)) == Resets(before) + if n > 0 then [|before|] else []
  {
    if n == 0 {
      assert before + Positions(0) == before;
    } else {
      var all := before + Positions(n);
      assert all[..|all| - 1] == before + Positions(n - 1);
      ResetsOfRange(before, n - 1);
    }
  }

  function RangeParts(lens: seq<nat>): seq<seq<int>> {
    Map((n: nat) => Positions(n), lens)
  }

  lemma {:induction false} ResetsAreStarts(lens: seq<nat>)
    ensures |Resets(Concat(RangeParts(lens)))| <= |lens|
    ensures (forall n <- lens :: n > 0) ==> Recovered(Concat(RangeParts(lens))) == CuSeqlens(RangeParts(lens))
    ensures 0 in lens ==> |Resets(Concat(RangeParts(lens)))| < |lens|
  {
    if lens != [] {
      var n := |lens| - 1;
      var front := lens[..n];
      ResetsAreStarts(front);
      assert RangeParts(lens)[..n] == RangeParts(front);
      ResetsOfRange(Concat(RangeParts(front)), lens[n]);
      assert lens == front + [lens[n]];
      assert Concat(RangeParts(lens)) == Concat(RangeParts(front)) + Positions(lens[n]);
      assert forall x <- front :: x in lens;
      if forall x <- lens :: x > 0 {
        assert lens[n] in lens;
        assert Recovered(Concat(RangeParts(lens)))
          == Recovered(Concat(RangeParts(front))) + [|Concat(RangeParts(lens))|];
      }
    }
  }

  /** The cumulative lengths can be recovered from the position ids iff no document is empty. */
  lemma BoundariesAreRecoverable(lens: seq<nat>)
    ensures Recovered(Concat(RangeParts(lens))) == CuSeqlens(RangeParts(lens)) <==> forall n <- lens :: n > 0
  {
    ResetsAreStarts(lens);
    SlicesTile(RangeParts(lens));
  }

  /** Token `t` lies in document `d`. */
  predicate InDocument(lens: seq<nat>, d: nat, t: nat) {
    d < |lens| && |CuSeqlens(RangeParts(lens))| > d + 1
      && CuSeqlens(RangeParts(lens))[d] <= t < CuSeqlens(RangeParts(lens))[d + 1]
  }

  /** Every token lies in exactly one document, and its position id is its distance from the start. */
  lemma {:induction false} PositionIsOffset(lens: seq<nat>, t: nat) returns (d: nat)
    requires t < |Concat(RangeParts(lens))|
    ensures InDocument(lens, d, t) && Concat(RangeParts(lens))[t] == t - CuSeqlens(RangeParts(lens))[d]
    ensures forall e: nat :: InDocument(lens, e, t) ==> e == d
  {
    var n := |lens| - 1;
    var front := lens[..n];
    assert RangeParts(lens)[..n] == RangeParts(front);
    SlicesTile(RangeParts(lens));
    SlicesTile(RangeParts(front));
    CuIncreases(RangeParts(lens));
    if t < |Concat(RangeParts(front))| {
      d := PositionIsOffset(front, t);
    } else {
      d := n;
    }
  }

  lemma {:induction false} CuIncreases<T>(parts: seq<seq<T>>)
    ensures |CuSeqlens(parts)| == |parts| + 1 && CuSeqlens(parts)[|parts|] == |Concat(parts)|
    ensures forall i, k :: 0 <= i <= k <= |parts| ==> CuSeqlens(parts)[i] <= CuSeqlens(parts)[k]
  {
    if parts != [] {
      CuIncreases(parts[..|parts| - 1]);
    }
  }

  lemma DocumentsInOrder(lens: seq<nat>, d: nat, e: nat, t: nat, u: nat)
    requires InDocument(lens, d, t) && InDocument(lens, e, u) && t <= u
    ensures d <= e
  {
    CuIncreases(RangeParts(lens));
  }

  /** Two tokens share a document iff no reset lies after the first and up to the second. */
  lemma NoResetMeansSameDocument(lens: seq<nat>, t: nat, u: nat)
    requires t <= u < |Concat(RangeParts(lens))|
    ensures (exists d: nat :: InDocument(lens, d, t) && InDocument(lens, d, u))
            <==> forall r :: t < r <= u ==> Concat(RangeParts(lens))[r] != 0
  {
    var cu := CuSeqlens(RangeParts(lens));
    var d := PositionIsOffset(lens, t);
    var e := PositionIsOffset(lens, u);
    CuIncreases(RangeParts(lens));
    if d == e {
      forall r | t < r <= u ensures Concat(RangeParts(lens))[r] != 0 {
        var f := PositionIsOffset(lens, r);
        assert InDocument(lens, d, r);
      }
    } else {
      var start := cu[e];
      DocumentsInOrder(lens, d, e, t, u);
      assert cu[d + 1] <= cu[e];
      assert InDocument(lens, e, start);
      var f := PositionIsOffset(lens, start);
      assert Concat(RangeParts(lens))[start] == 0;
    }
  }
}
