/** `pack_sequences`: sort by length, place first-fit, restore order inside a pack, concatenate. */
module PackSequences {
  import opened Basics
  import opened FirstFit
  import opened Packing

  function Lens(items: seq<Item>): seq<nat> {
    Map((i: Item) => |i.ids|, items)
  }

  // ---------- the two stable sorts ----------

  /** Insert behind everything that is at least as long. */
  function InsertByLength(lens: seq<nat>, order: seq<nat>, x: nat): seq<nat> {
    if order == [] then [x]
    else if Len(lens, order[0]) >= Len(lens, x) then [order[0]] + InsertByLength(lens, order[1..], x)
    else [x] + order
  }

  /** Item numbers by decreasing length, equal lengths in their original order. */
  function ByLength(lens: seq<nat>, n: nat): seq<nat> {
    if n == 0 then [] else InsertByLength(lens, ByLength(lens, n - 1), n - 1)
  }

  ghost predicate Stable(lens: seq<nat>, order: seq<nat>) {
    forall i, k :: 0 <= i < k < |order| && Len(lens, order[i]) == Len(lens, order[k]) ==> order[i] < order[k]
  }

  ghost predicate AllBelow(order: seq<nat>, n: nat) {
    forall i :: 0 <= i < |order| ==> order[i] < n
  }

  lemma Prepend(lens: seq<nat>, h: nat, rest: seq<nat>)
    requires Decreasing(lens, rest) && Stable(lens, rest)
    requires forall k :: 0 <= k < |rest| ==>
      Len(lens, h) >= Len(lens, rest[k]) && (Len(lens, h) == Len(lens, rest[k]) ==> h < rest[k])
    ensures Decreasing(lens, [h] + rest) && Stable(lens, [h] + rest)
  {
    var r := [h] + rest;
    assert forall i :: 1 <= i < |r| ==> r[i] == rest[i - 1];
  }

  lemma {:induction false} InsertAddsOne(lens: seq<nat>, order: seq<nat>, x: nat)
    ensures multiset(InsertByLength(lens, order, x)) == multiset(order) + multiset{x}
    ensures forall y :: y in InsertByLength(lens, order, x) <==> y == x || y in order
  {
    if order != [] && Len(lens, order[0]) >= Len(lens, x) {
      InsertAddsOne(lens, order[1..], x);
      assert order == [order[0]] + order[1..];
    }
  }

  lemma {:induction false} InsertKeepsOrder(lens: seq<nat>, order: seq<nat>, x: nat)
    requires Decreasing(lens, order) && Stable(lens, order) && AllBelow(order, x)
    ensures Decreasing(lens, InsertByLength(lens, order, x)) && Stable(lens, InsertByLength(lens, order, x))
  {
    if order != [] && Len(lens, order[0]) >= Len(lens, x) {
      var tail := order[1..];
      var rest := InsertByLength(lens, tail, x);
      assert Decreasing(lens, tail) && Stable(lens, tail) && AllBelow(tail, x);
      InsertKeepsOrder(lens, tail, x);
      InsertAddsOne(lens, tail, x);
      forall k | 0 <= k < |rest|
        ensures Len(lens, order[0]) >= Len(lens, rest[k])
          && (Len(lens, order[0]) == Len(lens, rest[k]) ==> order[0] < rest[k])
      {
        HeadLeads(lens, order, x, rest[k]);
      }
      Prepend(lens, order[0], rest);
    } else {
      Prepend(lens, x, order);
    }
  }

  lemma HeadLeads(lens: seq<nat>, order: seq<nat>, x: nat, y: nat)
    requires Decreasing(lens, order) && Stable(lens, order) && AllBelow(order, x)
    requires order != [] && Len(lens, order[0]) >= Len(lens, x) && (y == x || y in order[1..])
    ensures Len(lens, order[0]) >= Len(lens, y) && (Len(lens, order[0]) == Len(lens, y) ==> order[0] < y)
  {
    if y != x {
      var i :| 0 <= i < |order[1..]| && order[1..][i] == y;
      assert order[i + 1] == y;
    }
  }

  lemma {:induction false} ByLengthIsPermutation(lens: seq<nat>, n: nat)
    ensures multiset(ByLength(lens, n)) == multiset(Range(n))
  {
    if n > 0 {
      ByLengthIsPermutation(lens, n - 1);
      InsertAddsOne(lens, ByLength(lens, n - 1), n - 1);
      assert Range(n) == Range(n - 1) + [n - 1];
    }
  }

  lemma {:induction false} InsertIsBelow(lens: seq<nat>, order: seq<nat>, x: nat, n: nat)
    requires AllBelow(order, n) && x < n
    ensures AllBelow(InsertByLength(lens, order, x), n)
  {
    if order != [] && Len(lens, order[0]) >= Len(lens, x) {
      InsertIsBelow(lens, order[1..], x, n);
    }
  }

  lemma {:induction false} ByLengthIsBelow(lens: seq<nat>, n: nat)
    ensures AllBelow(ByLength(lens, n), n)
  {
    if n > 0 {
      ByLengthIsBelow(lens, n - 1);
      InsertIsBelow(lens, ByLength(lens, n - 1), n - 1, n);
    }
  }

  lemma {:induction false} ByLengthIsOrdered(lens: seq<nat>, n: nat)
    ensures Decreasing(lens, ByLength(lens, n)) && Stable(lens, ByLength(lens, n))
  {
    if n > 0 {
      var order := ByLength(lens, n - 1);
      ByLengthIsOrdered(lens, n - 1);
      ByLengthIsBelow(lens, n - 1);
      InsertedInOrder(lens, order, n - 1, ByLength(lens, n));
    }
  }

  lemma InsertedInOrder(lens: seq<nat>, order: seq<nat>, x: nat, r: seq<nat>)
    requires Decreasing(lens, order) && Stable(lens, order) && AllBelow(order, x) && r == InsertByLength(lens, order, x)
    ensures Decreasing(lens, r) && Stable(lens, r)
  {
    InsertKeepsOrder(lens, order, x);
  }

  lemma ByLengthIsSorted(lens: seq<nat>, n: nat)
    ensures multiset(ByLength(lens, n)) == multiset(Range(n))
    ensures Decreasing(lens, ByLength(lens, n)) && Stable(lens, ByLength(lens, n))
  {
    ByLengthIsPermutation(lens, n);
    ByLengthIsOrdered(lens, n);
  }

  function InsertUp(members: seq<nat>, x: nat): seq<nat> {
    if members == [] then [x]
    else if members[0] <= x then [members[0]] + InsertUp(members[1..], x)
    else [x] + members
  }

  /** The members of a bin in their original order. */
  function InOrder(members: seq<nat>): seq<nat> {
    if members == [] then [] else InsertUp(InOrder(members[..|members| - 1]), members[|members| - 1])
  }

  ghost predicate Ascending(s: seq<nat>) {
    forall i, k :: 0 <= i < k < |s| ==> s[i] <= s[k]
  }

  lemma {:induction false} InsertUpAddsOne(members: seq<nat>, x: nat)
    ensures multiset(InsertUp(members, x)) == multiset(members) + multiset{x}
    ensures forall y :: y in InsertUp(members, x) <==> y == x || y in members
  {
    if members != [] && members[0] <= x {
      InsertUpAddsOne(members[1..], x);
      assert members == [members[0]] + members[1..];
    }
  }

  lemma {:induction false} InsertUpKeeps(members: seq<nat>, x: nat)
    requires Ascending(members)
    ensures Ascending(InsertUp(members, x))
  {
    if members != [] && members[0] <= x {
      var tail := members[1..];
      var rest := InsertUp(tail, x);
      InsertUpKeeps(tail, x);
      InsertUpAddsOne(tail, x);
      forall k | 0 <= k < |rest| ensures members[0] <= rest[k] {
        HeadIsLeast(members, x, rest[k]);
      }
      PrependUp(members[0], rest);
    } else {
      PrependUp(x, members);
    }
  }

  lemma HeadIsLeast(members: seq<nat>, x: nat, y: nat)
    requires Ascending(members) && members != [] && members[0] <= x && (y == x || y in members[1..])
    ensures members[0] <= y
  {
    if y != x {
      var i :| 0 <= i < |members[1..]| && members[1..][i] == y;
      assert members[i + 1] == y;
    }
  }

  lemma PrependUp(h: nat, rest: seq<nat>)
    requires Ascending(rest) && forall k :: 0 <= k < |rest| ==> h <= rest[k]
    ensures Ascending([h] + rest)
  {
    assert forall i :: 1 <= i <= |rest| ==> ([h] + rest)[i] == rest[i - 1];
  }

  lemma {:induction false} InOrderIsSorted(members: seq<nat>)
    ensures multiset(InOrder(members)) == multiset(members) && Ascending(InOrder(members))
  {
    if members != [] {
      var front, x := members[..|members| - 1], members[|members| - 1];
      InOrderIsSorted(front);
      InsertedUp(InOrder(front), front, x, InOrder(members));
      assert members == front + [x];
    }
  }

  lemma InsertedUp(sorted: seq<nat>, front: seq<nat>, x: nat, r: seq<nat>)
    requires Ascending(sorted) && multiset(sorted) == multiset(front) && r == InsertUp(sorted, x)
    ensures Ascending(r) && multiset(r) == multiset(front + [x])
  {
    InsertUpKeeps(sorted, x);
    InsertUpAddsOne(sorted, x);
  }

  // ---------- the whole function ----------

  /** The bins chosen by first-fit-decreasing, as lists of item numbers. */
  function Bins(items: seq<Item>, cap: nat): seq<seq<nat>> {
    PlaceAll(Lens(items), cap, ByLength(Lens(items), |items|))
  }

  function Gather(items: seq<Item>, members: seq<nat>): (r: seq<Item>)
    requires AllBelow(members, |items|)
    ensures |r| == |members| && forall i :: 0 <= i < |members| ==> r[i] == items[members[i]]
  {
    seq(|members|, i requires 0 <= i < |members| => items[members[i]])
  }

  lemma BinsAreValid(items: seq<Item>, cap: nat)
    ensures multiset(Flat(Bins(items, cap))) == multiset(Range(|items|))
    ensures forall b :: 0 <= b < |Bins(items, cap)| ==> AllBelow(Bins(items, cap)[b], |items|)
  {
    var lens, bins, order := Lens(items), Bins(items, cap), ByLength(Lens(items), |items|);
    ByLengthIsSorted(lens, |items|);
    PlaceAllKeeps(lens, cap, order);
    forall b | 0 <= b < |bins| ensures AllBelow(bins[b], |items|) {
      ItemsAreValid(lens, order, bins, b);
      assert forall i :: 0 <= i < |bins[b]| ==> bins[b][i] in bins[b];
    }
  }

  /**
   * What `pack_sequences` promises about its bins: every item is in exactly one, each is within
   * capacity or one single item, and any other packing needs two thirds as many packs at least.
   */
  lemma BinsArePacking(items: seq<Item>, cap: nat)
    ensures var lens, bins := Lens(items), Bins(items, cap);
            && multiset(Flat(bins)) == multiset(Range(|items|))
            && (forall b :: 0 <= b < |bins| ==> bins[b] != [] && (Load(lens, bins[b]) <= cap || |bins[b]| == 1))
            && (forall other :: Packs(lens, cap, other) ==> 2 * |bins| <= 3 * |other|)
  {
    var lens, bins, order := Lens(items), Bins(items, cap), ByLength(Lens(items), |items|);
    ByLengthIsSorted(lens, |items|);
    PlaceAllKeeps(lens, cap, order);
    forall other | Packs(lens, cap, other) ensures 2 * |bins| <= 3 * |other| {
      FirstFitAgainstAny(lens, cap, order, other);
    }
  }

  /** The pack made of bin `b`. */
  function PackOf(items: seq<Item>, cap: nat, mask: bool, b: nat): Pack
    requires b < |Bins(items, cap)|
  {
    Built(MembersOf(items, cap, b), mask)
  }

  function MembersOf(items: seq<Item>, cap: nat, b: nat): seq<Item>
    requires b < |Bins(items, cap)|
  {
    BinsAreValid(items, cap);
    MembersInOrder(items, Bins(items, cap)[b]);
    Gather(items, InOrder(Bins(items, cap)[b]))
  }

  lemma MembersInOrder(items: seq<Item>, bin: seq<nat>)
    requires AllBelow(bin, |items|)
    ensures AllBelow(InOrder(bin), |items|)
  {
    InOrderIsSorted(bin);
    forall i | 0 <= i < |InOrder(bin)| ensures InOrder(bin)[i] < |items| {
      assert InOrder(bin)[i] in multiset(InOrder(bin));
      assert InOrder(bin)[i] in multiset(bin);
    }
  }

  /** Every document of the bin has as many labels as tokens. */
  ghost predicate BinAligned(items: seq<Item>, bin: seq<nat>)
    requires AllBelow(bin, |items|)
  {
    forall i :: 0 <= i < |bin| ==> Aligned(items[bin[i]])
  }

  method PackSequences(items: seq<Item>, padId: int, maxPackedLen: int, mask: bool) returns (r: Outcome<seq<Pack>>)
    ensures maxPackedLen <= 0 ==> r.ValueError?
    ensures maxPackedLen > 0 && (exists m <- items :: !Aligned(m)) ==> r.ValueError?
    ensures maxPackedLen > 0 && (forall m <- items :: Aligned(m)) ==>
              r.Ok? && |r.value| == |Bins(items, maxPackedLen)| &&
              forall b :: 0 <= b < |r.value| ==> r.value[b] == PackOf(items, maxPackedLen, mask, b)
  {
    if maxPackedLen <= 0 {
      return ValueError("max_packed_len must be > 0");
    }
    if items == [] {
      return Ok([]);
    }
    var bins := FillBins(items, maxPackedLen);
    r := BuildPacks(items, maxPackedLen, mask, bins);
  }

  method BuildPacks(items: seq<Item>, cap: nat, mask: bool, bins: seq<seq<nat>>) returns (r: Outcome<seq<Pack>>)
    requires bins == Bins(items, cap)
    ensures (exists m <- items :: !Aligned(m)) ==> r.ValueError?
    ensures (forall m <- items :: Aligned(m)) ==>
              r.Ok? && |r.value| == |Bins(items, cap)| && forall b :: 0 <= b < |r.value| ==>
                r.value[b] == PackOf(items, cap, mask, b)
  {
    BinsAreValid(items, cap);
    var packs: seq<Pack> := [];
    for b := 0 to |bins|
      invariant |packs| == b && PacksSoFar(items, cap, mask, packs)
    {
      var pack := BuildBin(items, bins[b], mask);
      BinOutcome(items, cap, mask, b, pack);
      if pack.ValueError? {
        return ValueError(pack.message);
      }
      OneMorePack(items, cap, mask, packs, pack.value);
      packs := packs + [pack.value];
    }
    AllPacksBuilt(items, cap, mask, packs);
    return Ok(packs);
  }

  ghost predicate PacksSoFar(items: seq<Item>, cap: nat, mask: bool, packs: seq<Pack>) {
    && |packs| <= |Bins(items, cap)|
    && (forall b :: 0 <= b < |Bins(items, cap)| ==> AllBelow(Bins(items, cap)[b], |items|))
    && forall c :: 0 <= c < |packs| ==>
      packs[c] == PackOf(items, cap, mask, c) && BinAligned(items, Bins(items, cap)[c])
  }

  lemma OneMorePack(items: seq<Item>, cap: nat, mask: bool, packs: seq<Pack>, pack: Pack)
    requires PacksSoFar(items, cap, mask, packs) && |packs| < |Bins(items, cap)|
    requires pack == PackOf(items, cap, mask, |packs|) && BinAligned(items, Bins(items, cap)[|packs|])
    ensures PacksSoFar(items, cap, mask, packs + [pack])
  {
  }

  lemma AllPacksBuilt(items: seq<Item>, cap: nat, mask: bool, packs: seq<Pack>)
    requires PacksSoFar(items, cap, mask, packs) && |packs| == |Bins(items, cap)|
    ensures forall m <- items :: Aligned(m)
    ensures forall b :: 0 <= b < |packs| ==> packs[b] == PackOf(items, cap, mask, b)
  {
    BinsAreValid(items, cap);
    AllBinsAligned(items, Bins(items, cap));
  }

  lemma BinOutcome(items: seq<Item>, cap: nat, mask: bool, b: nat, pack: Outcome<Pack>)
    requires b < |Bins(items, cap)| && AllBelow(Bins(items, cap)[b], |items|)
      && AllBelow(InOrder(Bins(items, cap)[b]), |items|)
    requires var bin := Bins(items, cap)[b];
      if BinAligned(items, bin) then pack == Ok(Built(Gather(items, InOrder(bin)), mask)) else pack.ValueError?
    ensures pack.ValueError? ==> exists m <- items :: !Aligned(m)
    ensures pack.Ok? ==> pack.value == PackOf(items, cap, mask, b) && BinAligned(items, Bins(items, cap)[b])
  {
    if pack.ValueError? {
      NotAllAligned(items, Bins(items, cap)[b]);
    }
  }

  /** Restore the original order inside the bin and concatenate. */
  method BuildBin(items: seq<Item>, bin: seq<nat>, mask: bool) returns (r: Outcome<Pack>)
    requires AllBelow(bin, |items|)
    ensures AllBelow(InOrder(bin), |items|)
    ensures if BinAligned(items, bin) then r == Ok(Built(Gather(items, InOrder(bin)), mask)) else r.ValueError?
  {
    MembersInOrder(items, bin);
    MembersAligned(items, bin);
    r := BuildPack(Gather(items, InOrder(bin)), mask);
  }

  lemma NotAllAligned(items: seq<Item>, bin: seq<nat>)
    requires AllBelow(bin, |items|) && !BinAligned(items, bin)
    ensures exists m <- items :: !Aligned(m)
  {
  }

  lemma MembersAligned(items: seq<Item>, bin: seq<nat>)
    requires AllBelow(bin, |items|) && AllBelow(InOrder(bin), |items|)
    ensures (forall m <- Gather(items, InOrder(bin)) :: Aligned(m)) <==> BinAligned(items, bin)
  {
    InOrderIsSorted(bin);
    var members := Gather(items, InOrder(bin));
    forall k | 0 <= k < |bin| ensures items[bin[k]] in members {
      assert bin[k] in multiset(bin) && bin[k] in multiset(InOrder(bin));
      var i :| 0 <= i < |InOrder(bin)| && InOrder(bin)[i] == bin[k];
      assert members[i] == items[bin[k]];
    }
    forall i | 0 <= i < |members| ensures exists k :: 0 <= k < |bin| && items[bin[k]] == members[i] {
      assert InOrder(bin)[i] in multiset(InOrder(bin)) && InOrder(bin)[i] in multiset(bin);
      var k :| 0 <= k < |bin| && bin[k] == InOrder(bin)[i];
    }
  }

  lemma AllBinsAligned(items: seq<Item>, bins: seq<seq<nat>>)
    requires multiset(Flat(bins)) == multiset(Range(|items|))
    requires forall b :: 0 <= b < |bins| ==> AllBelow(bins[b], |items|) && BinAligned(items, bins[b])
    ensures forall m <- items :: Aligned(m)
  {
    forall x | 0 <= x < |items| ensures Aligned(items[x]) {
      RangeHasNoDuplicates(|items|, x);
      assert x in multiset(Flat(bins));
      InFlat(bins, x);
    }
  }

  /** The outer loop: items by decreasing length. */
  method FillBins(items: seq<Item>, cap: nat) returns (bins: seq<seq<nat>>)
    ensures bins == Bins(items, cap)
  {
    var lens := Lens(items);
    var indexed := ByLength(lens, |items|);
    bins := [];
    var binLens: seq<nat> := [];
    for i := 0 to |indexed|
      invariant bins == PlaceAll(lens, cap, indexed[..i]) && binLens == Loads(lens, bins)
    {
      assert indexed[..i + 1][..i] == indexed[..i];
      bins, binLens := PlaceItem(lens, cap, bins, binLens, indexed[i]);
    }
    assert indexed[..|indexed|] == indexed;
  }

  /** The inner loop: the first bin with room, or a new one. */
  method PlaceItem(lens: seq<nat>, cap: nat, bins: seq<seq<nat>>, binLens: seq<nat>, x: nat)
    returns (bins': seq<seq<nat>>, binLens': seq<nat>)
    requires binLens == Loads(lens, bins)
    ensures bins' == Place(lens, cap, bins, x) && binLens' == Loads(lens, bins')
  {
    var ln := Len(lens, x);
    assert Load(lens, [x]) == ln;
    if ln > cap {
      return bins + [[x]], binLens + [ln];
    }
    var b := 0;
    while b < |binLens| && binLens[b] + ln > cap
      invariant b <= |binLens| && forall c :: 0 <= c < b ==> binLens[c] + ln > cap
    {
      b := b + 1;
    }
    assert b == FirstWithRoom(binLens, ln, cap);
    if b < |binLens| {
      LoadConcat(lens, bins[b], [x]);
      return bins[b := bins[b] + [x]], binLens[b := binLens[b] + ln];
    }
    return bins + [[x]], binLens + [ln];
  }

  /** With a capacity that all items fit into together there is one pack, and none for an empty batch. */
  lemma EverythingInOnePack(items: seq<Item>, cap: nat)
    requires Load(Lens(items), Range(|items|)) <= cap
    ensures |Bins(items, cap)| == if items == [] then 0 else 1
  {
    AllInOne(Lens(items), cap);
    BinsArePacking(items, cap);
    SomePackIff(Bins(items, cap), |items|);
  }

  lemma AllInOne(lens: seq<nat>, cap: nat)
    requires Load(lens, Range(|lens|)) <= cap
    ensures Packs(lens, cap, [Range(|lens|)])
  {
    FlatOne(Range(|lens|));
    OnlyOne(lens, cap, [Range(|lens|)], Range(|lens|));
  }

  lemma FlatOne(items: seq<nat>)
    ensures Flat([items]) == items
  {
    assert [items][1..] == [];
  }

  lemma OnlyOne(lens: seq<nat>, cap: nat, bins: seq<seq<nat>>, all: seq<nat>)
    requires bins == [all] && Flat(bins) == all == Range(|lens|) && Load(lens, all) <= cap
    ensures Packs(lens, cap, bins)
  {
  }

  lemma SomePackIff(bins: seq<seq<nat>>, n: nat)
    requires multiset(Flat(bins)) == multiset(Range(n)) && forall b :: 0 <= b < |bins| ==> bins[b] != []
    ensures bins == [] <==> n == 0
  {
    if n > 0 {
      assert n - 1 in multiset(Range(n));
      assert n - 1 in multiset(Flat(bins));
    }
    if bins != [] {
      assert Flat(bins)[0] == bins[0][0];
      assert bins[0][0] in multiset(Flat(bins));
    }
  }
}
