/** First-fit-decreasing bin packing: what the greedy loop keeps, and how good its result is. */
module FirstFit {

  /** The length of item `x`; item numbers out of range have none. */
  function Len(lens: seq<nat>, x: nat): nat {
    if x < |lens| then lens[x] else 0
  }

  function Load(lens: seq<nat>, items: seq<nat>): nat {
    if items == [] then 0 else Len(lens, items[0]) + Load(lens, items[1..])
  }

  lemma {:induction false} LoadConcat(lens: seq<nat>, a: seq<nat>, b: seq<nat>)
    ensures Load(lens, a + b) == Load(lens, a) + Load(lens, b)
  {
    if a == [] {
      assert a + b == b;
    } else {
      assert (a + b)[1..] == a[1..] + b;
      LoadConcat(lens, a[1..], b);
    }
  }

  function Flat(bins: seq<seq<nat>>): seq<nat> {
    if bins == [] then [] else bins[0] + Flat(bins[1..])
  }

  lemma {:induction false} FlatConcat(a: seq<seq<nat>>, b: seq<seq<nat>>)
    ensures Flat(a + b) == Flat(a) + Flat(b)
  {
    if a == [] {
      assert a + b == b;
    } else {
      assert (a + b)[1..] == a[1..] + b;
      FlatConcat(a[1..], b);
    }
  }

  lemma {:induction false} InFlat(bins: seq<seq<nat>>, x: nat)
    ensures x in Flat(bins) <==> exists b :: 0 <= b < |bins| && x in bins[b]
  {
    if bins != [] {
      InFlat(bins[1..], x);
      assert x in Flat(bins[1..]) ==> exists b :: 0 <= b < |bins| - 1 && x in bins[1..][b];
      assert forall b :: 0 <= b < |bins| - 1 ==> bins[1..][b] == bins[b + 1];
    }
  }

  // ---------- the greedy choice ----------

  /** The first bin that still has room, or the number of bins. */
  function FirstWithRoom(binLens: seq<nat>, len: nat, cap: nat): (b: nat)
    ensures b <= |binLens|
    ensures b < |binLens| ==> binLens[b] + len <= cap
    ensures forall c :: 0 <= c < b ==> binLens[c] + len > cap
  {
    if binLens == [] || binLens[0] + len <= cap then 0 else 1 + FirstWithRoom(binLens[1..], len, cap)
  }

  function Loads(lens: seq<nat>, bins: seq<seq<nat>>): (loads: seq<nat>)
    ensures |loads| == |bins| && forall b :: 0 <= b < |bins| ==> loads[b] == Load(lens, bins[b])
  {
    seq(|bins|, b requires 0 <= b < |bins| => Load(lens, bins[b]))
  }

  /** One item: an oversize item gets a bin of its own, any other the first bin with room. */
  function Place(lens: seq<nat>, cap: nat, bins: seq<seq<nat>>, x: nat): (r: seq<seq<nat>>)
  {
    if Len(lens, x) > cap then bins + [[x]] else
    var b := FirstWithRoom(Loads(lens, bins), Len(lens, x), cap);
    if b < |bins| then bins[b := bins[b] + [x]] else bins + [[x]]
  }

  /** Items placed one after the other in the given order. */
  function PlaceAll(lens: seq<nat>, cap: nat, order: seq<nat>): (bins: seq<seq<nat>>)
  {
    if order == [] then []
    else Place(lens, cap, PlaceAll(lens, cap, order[..|order| - 1]), order[|order| - 1])
  }

  // ---------- what the loop keeps ----------

  predicate Decreasing(lens: seq<nat>, order: seq<nat>)
  {
    forall i, k :: 0 <= i < k < |order| ==> Len(lens, order[i]) >= Len(lens, order[k])
  }

  /** Every bin is within capacity or holds exactly one item. */
  ghost predicate Respected(lens: seq<nat>, cap: nat, bins: seq<seq<nat>>)
  {
    forall b :: 0 <= b < |bins| ==> bins[b] != [] && (Load(lens, bins[b]) <= cap || |bins[b]| == 1)
  }

  /** No item of a later bin would have fitted into an earlier bin. */
  ghost predicate Greedy(lens: seq<nat>, cap: nat, bins: seq<seq<nat>>)
  {
    forall b, c :: 0 <= b < c < |bins| ==> forall x <- bins[c] :: Load(lens, bins[b]) + Len(lens, x) > cap
  }

  /** The length of the item that opened the bin. */
  function Opener(lens: seq<nat>, bin: seq<nat>): nat {
    if bin == [] then 0 else Len(lens, bin[0])
  }

  /** The item that opened a bin is its longest, and bins were opened by ever shorter items. */
  ghost predicate OpenedByLongest(lens: seq<nat>, bins: seq<seq<nat>>)
  {
    && (forall b :: 0 <= b < |bins| ==> forall x <- bins[b] :: Len(lens, x) <= Opener(lens, bins[b]))
    && (forall b, c :: 0 <= b < c < |bins| ==> Opener(lens, bins[b]) >= Opener(lens, bins[c]))
  }

  /** Every item of `order` is in exactly one place. */
  ghost predicate Partition(bins: seq<seq<nat>>, order: seq<nat>) {
    multiset(Flat(bins)) == multiset(order)
  }

  lemma PlacePartition(lens: seq<nat>, cap: nat, bins: seq<seq<nat>>, x: nat)
    ensures multiset(Flat(Place(lens, cap, bins, x))) == multiset(Flat(bins)) + multiset{x}
  {
    var r := Place(lens, cap, bins, x);
    if |r| > |bins| {
      FlatConcat(bins, [[x]]);
      assert Flat([[x]]) == [x] + [];
    } else {
      FlatUpdate(bins, FirstWithRoom(Loads(lens, bins), Len(lens, x), cap), x);
    }
  }

  lemma {:induction false} FlatUpdate(bins: seq<seq<nat>>, b: nat, x: nat)
    requires b < |bins|
    ensures multiset(Flat(bins[b := bins[b] + [x]])) == multiset(Flat(bins)) + multiset{x}
  {
    var r := bins[b := bins[b] + [x]];
    if b == 0 {
      assert r[1..] == bins[1..];
    } else {
      FlatUpdate(bins[1..], b - 1, x);
      assert r[1..] == bins[1..][b - 1 := bins[1..][b - 1] + [x]];
    }
  }

  /** `x` is no longer than any item placed so far. */
  ghost predicate Shortest(lens: seq<nat>, bins: seq<seq<nat>>, x: nat) {
    forall b :: 0 <= b < |bins| ==> forall y <- bins[b] :: Len(lens, y) >= Len(lens, x)
  }

  ghost predicate GoodBins(lens: seq<nat>, cap: nat, bins: seq<seq<nat>>) {
    Respected(lens, cap, bins) && Greedy(lens, cap, bins) && OpenedByLongest(lens, bins)
  }

  lemma PlaceKeeps(lens: seq<nat>, cap: nat, bins: seq<seq<nat>>, x: nat)
    requires GoodBins(lens, cap, bins) && Shortest(lens, bins, x)
    ensures GoodBins(lens, cap, Place(lens, cap, bins, x))
  {
    var loads := Loads(lens, bins);
    var b := FirstWithRoom(loads, Len(lens, x), cap);
    if Len(lens, x) <= cap && b < |bins| {
      FitKeeps(lens, cap, bins, x, b);
    } else {
      forall c | 0 <= c < |bins| ensures Load(lens, bins[c]) + Len(lens, x) > cap {
        assert loads[c] == Load(lens, bins[c]);
      }
      OpenKeeps(lens, cap, bins, x);
    }
  }

  lemma OpenKeeps(lens: seq<nat>, cap: nat, bins: seq<seq<nat>>, x: nat)
    requires GoodBins(lens, cap, bins) && Shortest(lens, bins, x)
    requires forall b :: 0 <= b < |bins| ==> Load(lens, bins[b]) + Len(lens, x) > cap
    ensures GoodBins(lens, cap, bins + [[x]])
  {
    var r := bins + [[x]];
    assert forall b :: 0 <= b < |bins| ==> r[b] == bins[b] && bins[b][0] in bins[b];
  }

  lemma FitKeeps(lens: seq<nat>, cap: nat, bins: seq<seq<nat>>, x: nat, b: nat)
    requires GoodBins(lens, cap, bins) && Shortest(lens, bins, x)
    requires b < |bins| && Load(lens, bins[b]) + Len(lens, x) <= cap
    requires forall c :: 0 <= c < b ==> Load(lens, bins[c]) + Len(lens, x) > cap
    ensures GoodBins(lens, cap, bins[b := bins[b] + [x]])
  {
    var r := bins[b := bins[b] + [x]];
    FilledLoads(lens, bins, x, b, r);
    FitRespects(lens, cap, bins, x, b, r);
    FitStaysGreedy(lens, cap, bins, x, b, r);
    FitKeepsOpeners(lens, cap, bins, x, b, r);
  }

  lemma FilledLoads(lens: seq<nat>, bins: seq<seq<nat>>, x: nat, b: nat, r: seq<seq<nat>>)
    requires b < |bins| && r == bins[b := bins[b] + [x]]
    ensures Load(lens, r[b]) == Load(lens, bins[b]) + Len(lens, x)
    ensures forall c :: 0 <= c < |r| ==> Load(lens, r[c]) >= Load(lens, bins[c])
    ensures bins[b] != [] ==> forall c :: 0 <= c < |r| ==> Opener(lens, r[c]) == Opener(lens, bins[c])
  {
    LoadConcat(lens, bins[b], [x]);
    if bins[b] != [] {
      assert r[b][0] == bins[b][0];
    }
  }

  lemma FitRespects(lens: seq<nat>, cap: nat, bins: seq<seq<nat>>, x: nat, b: nat, r: seq<seq<nat>>)
    requires Respected(lens, cap, bins) && b < |bins| && r == bins[b := bins[b] + [x]]
    requires Load(lens, r[b]) == Load(lens, bins[b]) + Len(lens, x) <= cap
    ensures Respected(lens, cap, r)
  {
  }

  lemma FitStaysGreedy(lens: seq<nat>, cap: nat, bins: seq<seq<nat>>, x: nat, b: nat, r: seq<seq<nat>>)
    requires Greedy(lens, cap, bins) && b < |bins| && r == bins[b := bins[b] + [x]]
    requires forall c :: 0 <= c < |r| ==> Load(lens, r[c]) >= Load(lens, bins[c])
    requires forall c :: 0 <= c < b ==> Load(lens, bins[c]) + Len(lens, x) > cap
    ensures Greedy(lens, cap, r)
  {
  }

  lemma FitKeepsOpeners(lens: seq<nat>, cap: nat, bins: seq<seq<nat>>, x: nat, b: nat, r: seq<seq<nat>>)
    requires OpenedByLongest(lens, bins) && Shortest(lens, bins, x) && b < |bins| && bins[b] != []
      && r == bins[b := bins[b] + [x]]
    requires forall c :: 0 <= c < |r| ==> Opener(lens, r[c]) == Opener(lens, bins[c])
    ensures OpenedByLongest(lens, r)
  {
    assert bins[b][0] in bins[b];
  }

  lemma {:induction false} PlaceAllPartitions(lens: seq<nat>, cap: nat, order: seq<nat>)
    ensures Partition(PlaceAll(lens, cap, order), order)
  {
    if order != [] {
      var front, x := order[..|order| - 1], order[|order| - 1];
      PlaceAllPartitions(lens, cap, front);
      PlacePartition(lens, cap, PlaceAll(lens, cap, front), x);
      assert order == front + [x];
    }
  }

  lemma {:induction false} PlaceAllIsGood(lens: seq<nat>, cap: nat, order: seq<nat>)
    requires Decreasing(lens, order)
    ensures GoodBins(lens, cap, PlaceAll(lens, cap, order))
  {
    if order != [] {
      var front, x := order[..|order| - 1], order[|order| - 1];
      PlaceAllIsGood(lens, cap, front);
      PlaceAllPartitions(lens, cap, front);
      assert order == front + [x];
      NextIsShortest(lens, PlaceAll(lens, cap, front), front, x);
      PlaceKeeps(lens, cap, PlaceAll(lens, cap, front), x);
    }
  }

  /** The loop's invariant at its end, for any order of decreasing lengths. */
  lemma PlaceAllKeeps(lens: seq<nat>, cap: nat, order: seq<nat>)
    requires Decreasing(lens, order)
    ensures Partition(PlaceAll(lens, cap, order), order) && GoodBins(lens, cap, PlaceAll(lens, cap, order))
  {
    PlaceAllPartitions(lens, cap, order);
    PlaceAllIsGood(lens, cap, order);
  }

  lemma NextIsShortest(lens: seq<nat>, bins: seq<seq<nat>>, front: seq<nat>, x: nat)
    requires Decreasing(lens, front + [x]) && Partition(bins, front)
    ensures Shortest(lens, bins, x)
  {
    forall b, y | 0 <= b < |bins| && y in bins[b]
      ensures Len(lens, y) >= Len(lens, x)
    {
      InFlat(bins, y);
      assert y in multiset(Flat(bins)) && y in multiset(front);
      var i :| 0 <= i < |front| && front[i] == y;
      assert (front + [x])[i] == y && (front + [x])[|front|] == x;
    }
  }

  // ---------- the approximation bound ----------

  /** Items that `assign` puts into pack `b`. */
  function Members(assign: seq<nat>, b: nat): seq<nat> {
    if assign == [] then [] else
    var front := Members(assign[..|assign| - 1], b);
    if assign[|assign| - 1] == b then front + [|assign| - 1] else front
  }

  /** Any packing of all items into `m` packs, each within capacity or of one item. */
  ghost predicate Feasible(lens: seq<nat>, cap: nat, assign: seq<nat>, m: nat) {
    && |assign| == |lens|
    && (forall i :: 0 <= i < |assign| ==> assign[i] < m)
    && (forall b :: 0 <= b < m ==> Load(lens, Members(assign, b)) <= cap || |Members(assign, b)| <= 1)
  }

  lemma {:induction false} MembersAre(assign: seq<nat>, b: nat)
    ensures forall i: nat :: i in Members(assign, b) <==> i < |assign| && assign[i] == b
  {
    if assign != [] {
      MembersAre(assign[..|assign| - 1], b);
    }
  }

  lemma {:induction false} TwoOfMany(lens: seq<nat>, items: seq<nat>, i: nat, k: nat)
    requires i < k < |items|
    ensures Load(lens, items) >= Len(lens, items[i]) + Len(lens, items[k])
  {
    if i == 0 {
      OneOfMany(lens, items[1..], k - 1);
    } else {
      TwoOfMany(lens, items[1..], i - 1, k - 1);
    }
  }

  lemma {:induction false} OneOfMany(lens: seq<nat>, items: seq<nat>, i: nat)
    requires i < |items|
    ensures Load(lens, items) >= Len(lens, items[i])
  {
    if i > 0 {
      OneOfMany(lens, items[1..], i - 1);
    }
  }

  /** Two items that together exceed the capacity are never packed together. */
  lemma TooBigTogether(lens: seq<nat>, cap: nat, assign: seq<nat>, m: nat, x: nat, y: nat)
    requires Feasible(lens, cap, assign, m) && x < |lens| && y < |lens| && x != y
    requires Len(lens, x) + Len(lens, y) > cap
    ensures assign[x] != assign[y]
  {
    if assign[x] == assign[y] {
      var members := Members(assign, assign[x]);
      MembersAre(assign, assign[x]);
      var i :| 0 <= i < |members| && members[i] == x;
      var k :| 0 <= k < |members| && members[k] == y;
      TwoOfMany(lens, members, if i < k then i else k, if i < k then k else i);
    }
  }

  /** Distinct numbers below `m` are at most `m` many. */
  lemma {:induction false} Pigeonhole(s: seq<nat>, m: nat)
    requires (forall i :: 0 <= i < |s| ==> s[i] < m) && (forall i, k :: 0 <= i < k < |s| ==> s[i] != s[k])
    ensures |s| <= m
  {
    if |s| > 0 {
      assert s[0] < m;
      if exists i :: 0 <= i < |s| && s[i] == m - 1 {
        var i :| 0 <= i < |s| && s[i] == m - 1;
        Pigeonhole(s[..i] + s[i + 1..], m - 1);
      } else {
        Pigeonhole(s, m - 1);
      }
    }
  }

  /** Lengths cut off at the capacity: what an oversize item counts in its own pack. */
  function Capped(lens: seq<nat>, cap: nat): (r: seq<nat>)
    ensures |r| == |lens| && forall i :: 0 <= i < |lens| ==> r[i] == if lens[i] > cap then cap else lens[i]
  {
    seq(|lens|, i requires 0 <= i < |lens| => if lens[i] > cap then cap else lens[i])
  }

  lemma {:induction false} CappedLoad(lens: seq<nat>, cap: nat, items: seq<nat>)
    ensures Load(Capped(lens, cap), items) <= Load(lens, items)
    ensures Load(lens, items) <= cap ==> Load(Capped(lens, cap), items) == Load(lens, items)
    ensures |items| <= 1 ==> Load(Capped(lens, cap), items) <= cap
  {
    if items != [] {
      CappedLoad(lens, cap, items[1..]);
    }
  }

  /** 0, 1, ..., n - 1 */
  function Range(n: nat): (r: seq<nat>)
    ensures |r| == n && forall i :: 0 <= i < n ==> r[i] == i
  {
    if n == 0 then [] else Range(n - 1) + [n - 1]
  }

  function PackTotal(lens: seq<nat>, assign: seq<nat>, m: nat): nat {
    if m == 0 then 0 else PackTotal(lens, assign, m - 1) + Load(lens, Members(assign, m - 1))
  }

  lemma {:induction false} PackTotalStep(lens: seq<nat>, assign: seq<nat>, m: nat)
    requires assign != []
    ensures var n := |assign| - 1;
            PackTotal(lens, assign, m) == PackTotal(lens, assign[..n], m) + if assign[n] < m then Len(lens, n) else 0
  {
    if m > 0 {
      var n := |assign| - 1;
      PackTotalStep(lens, assign, m - 1);
      LoadConcat(lens, Members(assign[..n], m - 1), [n]);
    }
  }

  /** The packs of any assignment together hold all items. */
  lemma {:induction false} PacksHoldAll(lens: seq<nat>, assign: seq<nat>, m: nat)
    requires forall i :: 0 <= i < |assign| ==> assign[i] < m
    ensures PackTotal(lens, assign, m) == Load(lens, Range(|assign|))
  {
    if assign == [] {
      NothingPacked(lens, m);
    } else {
      var n := |assign| - 1;
      PackTotalStep(lens, assign, m);
      PacksHoldAll(lens, assign[..n], m);
      LoadConcat(lens, Range(n), [n]);
    }
  }

  lemma {:induction false} NothingPacked(lens: seq<nat>, m: nat)
    ensures PackTotal(lens, [], m) == 0
  {
    if m > 0 {
      NothingPacked(lens, m - 1);
    }
  }

  lemma OneMore(k: nat, cap: nat)
    requires k > 0
    ensures k * cap == (k - 1) * cap + cap
  {
  }

  lemma {:induction false} PacksAreBounded(lens: seq<nat>, cap: nat, assign: seq<nat>, m: nat, k: nat)
    requires Feasible(lens, cap, assign, m) && k <= m
    ensures PackTotal(Capped(lens, cap), assign, k) <= k * cap
  {
    if k > 0 {
      PacksAreBounded(lens, cap, assign, m, k - 1);
      CappedLoad(lens, cap, Members(assign, k - 1));
      OneMore(k, cap);
    }
  }

  function RemoveAt(b: seq<nat>, i: nat): seq<nat>
    requires i < |b|
  {
    b[..i] + b[i + 1..]
  }

  lemma RemovedAt(lens: seq<nat>, b: seq<nat>, i: nat)
    requires i < |b|
    ensures multiset(RemoveAt(b, i)) == multiset(b) - multiset{b[i]}
    ensures Load(lens, b) == Load(lens, RemoveAt(b, i)) + Len(lens, b[i])
  {
    assert b == b[..i] + ([b[i]] + b[i + 1..]);
    LoadConcat(lens, b[..i], [b[i]] + b[i + 1..]);
    LoadConcat(lens, b[..i], b[i + 1..]);
  }

  lemma {:induction false} LoadOfPermutation(lens: seq<nat>, a: seq<nat>, b: seq<nat>)
    requires multiset(a) == multiset(b)
    ensures Load(lens, a) == Load(lens, b)
  {
    if a == [] {
      assert |multiset(b)| == |b|;
    } else {
      assert a[0] in multiset(b);
      var i :| 0 <= i < |b| && b[i] == a[0];
      RemovedAt(lens, b, i);
      RemovedAt(lens, a, 0);
      assert RemoveAt(a, 0) == a[1..];
      LoadOfPermutation(lens, a[1..], RemoveAt(b, i));
    }
  }

  /** A packing into `m` packs has room for all capped lengths. */
  lemma VolumeBound(lens: seq<nat>, cap: nat, order: seq<nat>, bins: seq<seq<nat>>, assign: seq<nat>, m: nat)
    requires multiset(order) == multiset(Range(|lens|)) && Partition(bins, order) && Feasible(lens, cap, assign, m)
    ensures Load(Capped(lens, cap), Flat(bins)) <= m * cap
  {
    PacksAreBounded(lens, cap, assign, m, m);
    PacksHoldAll(Capped(lens, cap), assign, m);
    LoadOfPermutation(Capped(lens, cap), Flat(bins), Range(|lens|));
  }

  /** Each of the first `i` bins, with one item of a later bin each, is filled to capacity or more. */
  lemma {:induction false} FilledBins(lens: seq<nat>, cap: nat, bins: seq<seq<nat>>, j: nat, later: seq<nat>, i: nat)
    requires GoodBins(lens, cap, bins) && i <= j < |bins| && j <= |later|
    requires forall y <- later :: Len(lens, y) <= cap && exists c :: j <= c < |bins| && y in bins[c]
    ensures Load(Capped(lens, cap), Flat(bins[..i])) + Load(Capped(lens, cap), later[..i]) >= i * cap
    ensures i > 0 && Opener(lens, bins[i - 1]) <= cap ==>
              Load(Capped(lens, cap), Flat(bins[..i])) + Load(Capped(lens, cap), later[..i]) > i * cap
  {
    if i > 0 {
      var capped, b, y := Capped(lens, cap), i - 1, later[i - 1];
      FilledBins(lens, cap, bins, j, later, b);
      assert bins[..i] == bins[..b] + [bins[b]] && later[..i] == later[..b] + [y];
      FlatConcat(bins[..b], [bins[b]]);
      assert Flat([bins[b]]) == bins[b] + [] == bins[b];
      LoadConcat(capped, Flat(bins[..b]), bins[b]);
      LoadConcat(capped, later[..b], [y]);
      assert y in later;
      FilledBin(lens, cap, bins, b, y);
      OneMore(i, cap);
    }
  }

  lemma FilledBin(lens: seq<nat>, cap: nat, bins: seq<seq<nat>>, b: nat, y: nat)
    requires GoodBins(lens, cap, bins) && b < |bins| && Len(lens, y) <= cap
    requires exists c :: b < c < |bins| && y in bins[c]
    ensures Load(Capped(lens, cap), bins[b]) + Len(Capped(lens, cap), y) >= cap
    ensures Opener(lens, bins[b]) <= cap ==> Load(Capped(lens, cap), bins[b]) + Len(Capped(lens, cap), y) > cap
  {
    CappedLoad(lens, cap, bins[b]);
    assert Load(lens, bins[b]) + Len(lens, y) > cap;
    OneOfMany(Capped(lens, cap), bins[b], 0);
    assert |bins[b]| == 1 ==> Opener(lens, bins[b]) == Load(lens, bins[b]);
  }

  lemma {:induction false} ManyItems(bins: seq<seq<nat>>)
    requires bins != [] && (forall b :: 0 <= b < |bins| ==> |bins[b]| >= if b < |bins| - 1 then 2 else 1)
    ensures |Flat(bins)| >= 2 * |bins| - 1
  {
    if |bins| > 1 {
      ManyItems(bins[1..]);
    }
  }

  lemma LoneOpener(lens: seq<nat>, bin: seq<nat>)
    requires bin != []
    ensures |bin| == 1 ==> Load(lens, bin) == Opener(lens, bin)
  {
  }

  /** Behind a bin opened by a small item every bin but the last has two items or more. */
  lemma SmallBinsHoldTwo(lens: seq<nat>, cap: nat, bins: seq<seq<nat>>, j: nat)
    requires GoodBins(lens, cap, bins) && j < |bins| && 2 * Opener(lens, bins[j]) <= cap
    ensures |Flat(bins[j..])| >= 2 * (|bins| - j) - 1
  {
    var last := |bins| - 1;
    forall b | j <= b < last ensures |bins[b]| >= 2 {
      var x := bins[last][0];
      assert x in bins[last] && Load(lens, bins[b]) + Len(lens, x) > cap;
      assert Opener(lens, bins[j]) >= Opener(lens, bins[b]) && Opener(lens, bins[j]) >= Opener(lens, bins[last]);
      LoneOpener(lens, bins[b]);
    }
    ManyItems(bins[j..]);
  }

  lemma {:induction false} InTwoBins(bins: seq<seq<nat>>, b: nat, c: nat, x: nat)
    requires b < c < |bins| && x in bins[b] && x in bins[c]
    ensures multiset(Flat(bins))[x] >= 2
  {
    if b == 0 {
      InFlat(bins[1..], x);
      assert bins[1..][c - 1] == bins[c];
    } else {
      InTwoBins(bins[1..], b - 1, c - 1, x);
    }
  }

  lemma RangeHasNoDuplicates(n: nat, x: nat)
    ensures multiset(Range(n))[x] == if x < n then 1 else 0
  {
    if n > 0 {
      RangeHasNoDuplicates(n - 1, x);
      assert Range(n) == Range(n - 1) + [n - 1];
    }
  }

  lemma ItemsAreValid(lens: seq<nat>, order: seq<nat>, bins: seq<seq<nat>>, b: nat)
    requires multiset(order) == multiset(Range(|lens|)) && Partition(bins, order) && b < |bins|
    ensures forall x <- bins[b] :: x < |lens|
  {
    forall x <- bins[b] ensures x < |lens| {
      InFlat(bins, x);
      assert x in multiset(Flat(bins));
      assert x in multiset(Range(|lens|));
    }
  }

  lemma OpenersAreValid(lens: seq<nat>, order: seq<nat>, bins: seq<seq<nat>>)
    requires multiset(order) == multiset(Range(|lens|)) && Partition(bins, order)
    ensures forall b :: 0 <= b < |bins| && bins[b] != [] ==> bins[b][0] < |lens|
  {
    forall b | 0 <= b < |bins| && bins[b] != [] ensures bins[b][0] < |lens| {
      ItemsAreValid(lens, order, bins, b);
      assert bins[b][0] in bins[b];
    }
  }

  /** Items that exceed the capacity together are in different packs. */
  ghost predicate KeepsApart(lens: seq<nat>, cap: nat, assign: seq<nat>) {
    && |assign| == |lens|
    && forall x: nat, y: nat :: x < |lens| && y < |lens| && x != y && Len(lens, x) + Len(lens, y) > cap ==>
      assign[x] != assign[y]
  }

  lemma FeasibleKeepsApart(lens: seq<nat>, cap: nat, assign: seq<nat>, m: nat)
    requires Feasible(lens, cap, assign, m)
    ensures KeepsApart(lens, cap, assign)
  {
    forall x: nat, y: nat | x < |lens| && y < |lens| && x != y
      && Len(lens, x) + Len(lens, y) > cap ensures assign[x] != assign[y] {
      TooBigTogether(lens, cap, assign, m, x, y);
    }
  }

  /** If no two of the first `j + 1` openers fit together, any packing needs `j + 1` packs. */
  lemma OpenersNeedOwnPacks(lens: seq<nat>, cap: nat, order: seq<nat>, bins: seq<seq<nat>>, assign: seq<nat>, m: nat,
      j: nat)
    requires multiset(order) == multiset(Range(|lens|)) && Partition(bins, order)
    requires KeepsApart(lens, cap, assign) && (forall i :: 0 <= i < |assign| ==> assign[i] < m)
    requires j < |bins| && (forall b :: 0 <= b < |bins| ==> bins[b] != [])
    requires forall b, c :: 0 <= b < c <= j ==> Opener(lens, bins[b]) + Opener(lens, bins[c]) > cap
    ensures m >= j + 1
  {
    OpenersAreValid(lens, order, bins);
    forall b, c | 0 <= b < c <= j ensures bins[b][0] != bins[c][0] {
      OpenersDiffer(lens, order, bins, b, c);
    }
    CountOpeners(lens, cap, assign, bins, m, j);
  }

  lemma CountOpeners(lens: seq<nat>, cap: nat, assign: seq<nat>, bins: seq<seq<nat>>, m: nat, j: nat)
    requires KeepsApart(lens, cap, assign) && (forall i :: 0 <= i < |assign| ==> assign[i] < m)
    requires j < |bins| && (forall b :: 0 <= b <= j ==> bins[b] != [] && bins[b][0] < |lens|)
    requires forall b, c :: 0 <= b < c <= j ==>
      Opener(lens, bins[b]) + Opener(lens, bins[c]) > cap && bins[b][0] != bins[c][0]
    ensures m >= j + 1
  {
    var packs := seq(j + 1, b requires 0 <= b < j + 1 => assign[bins[b][0]]);
    forall b, c | 0 <= b < c < |packs| ensures packs[b] != packs[c] {
      assert Opener(lens, bins[b]) + Opener(lens, bins[c]) > cap;
    }
    Pigeonhole(packs, m);
  }

  lemma OpenersDiffer(lens: seq<nat>, order: seq<nat>, bins: seq<seq<nat>>, b: nat, c: nat)
    requires multiset(order) == multiset(Range(|lens|)) && Partition(bins, order)
    requires b < c < |bins| && bins[b] != [] && bins[c] != []
    ensures bins[b][0] != bins[c][0]
  {
    if bins[b][0] == bins[c][0] {
      InTwoBins(bins, b, c, bins[b][0]);
      RangeHasNoDuplicates(|lens|, bins[b][0]);
    }
  }

  /** A small opener in place `j` after an item that is not oversize: the volume alone needs `j + 1` packs. */
  lemma VolumeNeedsPacks(lens: seq<nat>, cap: nat, order: seq<nat>, bins: seq<seq<nat>>, assign: seq<nat>, m: nat,
      j: nat)
    requires multiset(order) == multiset(Range(|lens|)) && Partition(bins, order) && GoodBins(lens, cap, bins)
    requires Feasible(lens, cap, assign, m) && 0 < j < |bins| && 3 * j <= 2 * |bins| - 1
    requires 2 * Opener(lens, bins[j]) <= cap && Opener(lens, bins[j - 1]) <= cap
    ensures m >= j + 1
  {
    var capped, later := Capped(lens, cap), Flat(bins[j..]);
    SmallBinsHoldTwo(lens, cap, bins, j);
    LaterAreSmall(lens, cap, bins, j);
    FilledBins(lens, cap, bins, j, later, j);
    SplitLoad(capped, bins, j);
    VolumeBound(lens, cap, order, bins, assign, m);
    if m <= j {
      FewerPacksLessRoom(m, j, cap);
    }
  }

  lemma SplitLoad(lens: seq<nat>, bins: seq<seq<nat>>, j: nat)
    requires j <= |bins| && j <= |Flat(bins[j..])|
    ensures Load(lens, Flat(bins)) >= Load(lens, Flat(bins[..j])) + Load(lens, Flat(bins[j..])[..j])
  {
    var later := Flat(bins[j..]);
    assert bins == bins[..j] + bins[j..];
    assert later == later[..j] + later[j..];
    FlatConcat(bins[..j], bins[j..]);
    LoadConcat(lens, Flat(bins[..j]), later);
    LoadConcat(lens, later[..j], later[j..]);
  }

  lemma LaterAreSmall(lens: seq<nat>, cap: nat, bins: seq<seq<nat>>, j: nat)
    requires GoodBins(lens, cap, bins) && j < |bins| && Opener(lens, bins[j]) <= cap
    ensures forall y <- Flat(bins[j..]) :: Len(lens, y) <= cap && exists c :: j <= c < |bins| && y in bins[c]
  {
    forall y <- Flat(bins[j..]) ensures Len(lens, y) <= cap && exists c :: j <= c < |bins| && y in bins[c] {
      InFlat(bins[j..], y);
      var c :| 0 <= c < |bins| - j && y in bins[j..][c];
      assert y in bins[j + c] && Opener(lens, bins[j]) >= Opener(lens, bins[j + c]);
    }
  }

  /** The two cases of the bound, for the bin in place `j`. */
  lemma BinNeedsPacks(lens: seq<nat>, cap: nat, order: seq<nat>, bins: seq<seq<nat>>, assign: seq<nat>, m: nat, j: nat)
    requires multiset(order) == multiset(Range(|lens|)) && Partition(bins, order) && GoodBins(lens, cap, bins)
    requires Feasible(lens, cap, assign, m) && j < |bins| && 3 * j <= 2 * |bins| - 1
    ensures m >= j + 1
  {
    if 2 * Opener(lens, bins[j]) > cap || j == 0 || Opener(lens, bins[j - 1]) > cap {
      OpenersClash(lens, cap, bins, j);
      FeasibleKeepsApart(lens, cap, assign, m);
      OpenersNeedOwnPacks(lens, cap, order, bins, assign, m, j);
    } else {
      VolumeNeedsPacks(lens, cap, order, bins, assign, m, j);
    }
  }

  lemma OpenersClash(lens: seq<nat>, cap: nat, bins: seq<seq<nat>>, j: nat)
    requires OpenedByLongest(lens, bins) && j < |bins|
    requires 2 * Opener(lens, bins[j]) > cap || j == 0 || Opener(lens, bins[j - 1]) > cap
    ensures forall b, c :: 0 <= b < c <= j ==> Opener(lens, bins[b]) + Opener(lens, bins[c]) > cap
  {
    forall b, c | 0 <= b < c <= j ensures Opener(lens, bins[b]) + Opener(lens, bins[c]) > cap {
      assert b < j - 1 ==> Opener(lens, bins[b]) >= Opener(lens, bins[j - 1]);
      assert Opener(lens, bins[b]) >= Opener(lens, bins[j]);
      assert c < j ==> Opener(lens, bins[c]) >= Opener(lens, bins[j]);
    }
  }

  lemma FewerPacksLessRoom(m: nat, j: nat, cap: nat)
    requires m <= j
    ensures m * cap <= j * cap
  {
  }

  /**
   * First-fit-decreasing is within a factor 3/2 of optimal: if it makes `k` packs then every
   * packing of the same items, oversize items alone included, has at least 2k/3 packs.
   */
  lemma FirstFitDecreasingBound(lens: seq<nat>, cap: nat, order: seq<nat>, assign: seq<nat>, m: nat)
    requires multiset(order) == multiset(Range(|lens|)) && Decreasing(lens, order)
    requires Feasible(lens, cap, assign, m)
    ensures 2 * |PlaceAll(lens, cap, order)| <= 3 * m
  {
    var bins := PlaceAll(lens, cap, order);
    PlaceAllKeeps(lens, cap, order);
    if bins != [] {
      BinNeedsPacks(lens, cap, order, bins, assign, m, (2 * |bins| + 2) / 3 - 1);
    }
  }

  // ---------- every packing is one of those ----------

  /** The number of the first bin that holds `x`. */
  function Home(bins: seq<seq<nat>>, x: nat): nat {
    if bins == [] || x in bins[0] then 0 else 1 + Home(bins[1..], x)
  }

  lemma {:induction false} HomeHolds(bins: seq<seq<nat>>, x: nat, b: nat)
    requires multiset(Flat(bins))[x] == 1 && b < |bins|
    ensures Home(bins, x) == b <==> x in bins[b]
    ensures Home(bins, x) < |bins| && multiset(bins[b])[x] <= 1
  {
    assert multiset(Flat(bins)) == multiset(bins[0]) + multiset(Flat(bins[1..]));
    if x in bins[0] {
      assert x in multiset(bins[0]) && x !in multiset(Flat(bins[1..]));
      InFlat(bins[1..], x);
      assert b > 0 ==> bins[b] == bins[1..][b - 1];
    } else {
      assert x !in multiset(bins[0]);
      if b > 0 {
        HomeHolds(bins[1..], x, b - 1);
      } else {
        assert x in multiset(Flat(bins[1..]));
        assert bins[1..] != [];
        HomeHolds(bins[1..], x, 0);
      }
    }
  }

  lemma {:induction false} RangeCount(n: nat, x: nat)
    ensures multiset(Range(n))[x] == if x < n then 1 else 0
  {
    if n > 0 {
      RangeCount(n - 1, x);
    }
  }

  lemma {:induction false} MemberCount(assign: seq<nat>, b: nat, x: nat)
    ensures multiset(Members(assign, b))[x] == if x < |assign| && assign[x] == b then 1 else 0
  {
    if assign != [] {
      MemberCount(assign[..|assign| - 1], b, x);
    }
  }

  /** Bins that hold every item once, each within capacity or of a single item. */
  ghost predicate Packs(lens: seq<nat>, cap: nat, bins: seq<seq<nat>>) {
    && multiset(Flat(bins)) == multiset(Range(|lens|))
    && forall b :: 0 <= b < |bins| ==> Load(lens, bins[b]) <= cap || |bins[b]| <= 1
  }

  lemma HomeMembers(lens: seq<nat>, bins: seq<seq<nat>>, assign: seq<nat>, b: nat)
    requires multiset(Flat(bins)) == multiset(Range(|lens|)) && b < |bins|
    requires |assign| == |lens| && forall i :: 0 <= i < |lens| ==> assign[i] == Home(bins, i)
    ensures multiset(Members(assign, b)) == multiset(bins[b])
  {
    forall x: nat
      ensures multiset(Members(assign, b))[x] == multiset(bins[b])[x]
    {
      MemberCount(assign, b, x);
      RangeCount(|lens|, x);
      if x < |lens| {
        HomeHolds(bins, x, b);
        assert x in bins[b] <==> x in multiset(bins[b]);
      } else {
        InFlat(bins, x);
        assert x !in multiset(Flat(bins));
        assert x !in multiset(bins[b]);
      }
    }
  }

  lemma EveryPackingIsFeasible(lens: seq<nat>, cap: nat, bins: seq<seq<nat>>) returns (assign: seq<nat>)
    requires Packs(lens, cap, bins)
    ensures Feasible(lens, cap, assign, |bins|)
  {
    assign := seq(|lens|, i requires 0 <= i < |lens| => Home(bins, i));
    forall i | 0 <= i < |assign|
      ensures assign[i] < |bins|
    {
      RangeCount(|lens|, i);
      assert i in multiset(Flat(bins));
      assert bins != [];
      HomeHolds(bins, i, 0);
    }
    forall b | 0 <= b < |bins|
      ensures Load(lens, Members(assign, b)) <= cap || |Members(assign, b)| <= 1
    {
      HomeMembers(lens, bins, assign, b);
      LoadOfPermutation(lens, Members(assign, b), bins[b]);
      assert |multiset(Members(assign, b))| == |multiset(bins[b])|;
    }
  }

  /** First-fit-decreasing is itself such a packing, and uses at most half as many packs again as any other. */
  lemma FirstFitAgainstAny(lens: seq<nat>, cap: nat, order: seq<nat>, other: seq<seq<nat>>)
    requires multiset(order) == multiset(Range(|lens|)) && Decreasing(lens, order)
    ensures Packs(lens, cap, PlaceAll(lens, cap, order))
    ensures Packs(lens, cap, other) ==> 2 * |PlaceAll(lens, cap, order)| <= 3 * |other|
  {
    PlaceAllKeeps(lens, cap, order);
    if Packs(lens, cap, other) {
      var assign := EveryPackingIsFeasible(lens, cap, other);
      FirstFitDecreasingBound(lens, cap, order, assign, |other|);
    }
  }
}
