/** The two tiers of the pool behave as one least-recently-used list. */
module ModelPoolLru {
  import opened Basics
  import opened ModelPoolState

  /** Host order followed by VRAM order, oldest first. */
  function Flat(t: Tiers): Dict {
    t.host + t.vram
  }

  /** Names are in one tier only, tiers are within bounds, and every slot ever loaded is accounted for. */
  ghost predicate Good(t: Tiers, maxVram: nat, maxHost: nat) {
    && |t.vram| <= maxVram && |t.host| <= maxHost && Distinct(Flat(t))
    && (forall e <- Flat(t) :: e.slot < |t.loads| && t.loads[e.slot] == e.name && e.slot !in t.torn)
    && (forall id: nat :: id < |t.loads| ==> id in t.torn || exists e <- Flat(t) :: e.slot == id)
    && (forall id <- t.torn :: id < |t.loads|)
  }

  /** Keep the `cap` newest. */
  function Newest(d: Dict, cap: nat): Dict {
    if |d| > cap then d[|d| - cap..] else d
  }

  /** One use of `name` in a flat LRU list of capacity `cap`; a new entry gets slot number `slot`. */
  function Use(d: Dict, cap: nat, name: Name, slot: nat): Dict {
    if Has(d, name) then Touch(d, name) else Newest(d + [Entry(name, slot)], cap)
  }

  // ---------- helpers on the two halves ----------

  lemma HasConcat(a: Dict, b: Dict, name: Name)
    ensures Has(a + b, name) <==> Has(a, name) || Has(b, name)
  {
    if Has(a, name) {
      var i :| 0 <= i < |a| && a[i].name == name;
      assert (a + b)[i].name == name;
    }
    if Has(b, name) {
      var i :| 0 <= i < |b| && b[i].name == name;
      assert (a + b)[|a| + i].name == name;
    }
  }

  lemma OneHalf(a: Dict, b: Dict, name: Name)
    requires Distinct(a + b)
    ensures Distinct(a) && Distinct(b) && !(Has(a, name) && Has(b, name))
    ensures Has(a, name) ==> Has(a + b, name) && Find(a + b, name) == Find(a, name)
    ensures Has(b, name) ==> Has(a + b, name) && Find(a + b, name) == Find(b, name)
  {
    assert forall i :: 0 <= i < |a| ==> (a + b)[i] == a[i];
    assert forall i :: 0 <= i < |b| ==> (a + b)[|a| + i] == b[i];
    HasConcat(a, b, name);
    if Has(a, name) {
      FindUnique(a + b, Find(a, name));
    }
    if Has(b, name) {
      FindUnique(a + b, Find(b, name));
    }
  }

  /** Making room for one in VRAM moves the border, and drops the oldest of all iff both tiers are full. */
  lemma MakeRoomFlat(t: Tiers, maxVram: nat, maxHost: nat)
    requires maxVram >= 1 && |t.vram| <= maxVram && |t.host| <= maxHost
    ensures var u := MakeVramRoom(t, maxVram - 1, maxHost);
            && u.loads == t.loads && |u.vram| <= maxVram - 1 && |u.host| <= maxHost
            && Flat(u) == (if |Flat(t)| == maxVram + maxHost then Flat(t)[1..] else Flat(t))
            && u.torn == t.torn + (if |Flat(t)| == maxVram + maxHost then {Flat(t)[0].slot} else {})
  {
    if |t.vram| == maxVram {
      DemoteFlat(t, maxHost);
      DemoteKeepsVram(t.(vram := t.vram[1..]), maxHost, t.vram[0]);
    }
  }

  lemma DemoteFlat(t: Tiers, maxHost: nat)
    requires t.vram != [] && |t.host| <= maxHost
    ensures var u := DemoteOrDestroy(t.(vram := t.vram[1..]), maxHost, t.vram[0]);
            && |u.host| <= maxHost
            && Flat(u) == (if |t.host| == maxHost then Flat(t)[1..] else Flat(t))
            && u.torn == t.torn + (if |t.host| == maxHost then {Flat(t)[0].slot} else {})
  {
    assert t.vram == [t.vram[0]] + t.vram[1..];
    if maxHost > 0 && |t.host| == maxHost {
      var s := t.(vram := t.vram[1..]);
      assert TrimHost(s, maxHost - 1) == s.(host := s.host[1..], torn := s.torn + {s.host[0].slot});
    }
  }

  // ---------- one operation ----------

  /** What a use of `name` leaves behind, apart from who is in which tier. */
  ghost predicate IsUse(t: Tiers, u: Tiers, maxVram: nat, maxHost: nat, name: Name) {
    && Flat(u) == Use(Flat(t), maxVram + maxHost, name, |t.loads|)
    && u.loads == (if Has(Flat(t), name) then t.loads else t.loads + [name])
    && u.torn == t.torn + (if !Has(Flat(t), name) && Flat(t) != []
      && |Flat(t)| >= maxVram + maxHost then {Flat(t)[0].slot} else {})
    && |u.vram| <= maxVram && |u.host| <= maxHost && u.vram != [] && u.vram[|u.vram| - 1].name == name
  }

  lemma VramHit(t: Tiers, maxVram: nat, maxHost: nat, name: Name)
    requires maxVram >= 1 && Good(t, maxVram, maxHost) && Has(t.vram, name)
    ensures IsUse(t, TiersGetOrLoad(t, maxVram, maxHost, name), maxVram, maxHost, name)
  {
    OneHalf(t.host, t.vram, name);
    DropConcat(t.host, t.vram, name);
    DropAbsent(t.host, name);
    DropKeeps(t.vram, name);
  }

  lemma HostHit(t: Tiers, maxVram: nat, maxHost: nat, name: Name)
    requires maxVram >= 1 && Good(t, maxVram, maxHost) && Has(t.host, name)
    ensures !Has(t.vram, name) && IsUse(t, TiersGetOrLoad(t, maxVram, maxHost, name), maxVram, maxHost, name)
  {
    OneHalf(t.host, t.vram, name);
    DropConcat(t.host, t.vram, name);
    DropAbsent(t.vram, name);
    DropKeeps(t.host, name);
    var popped := t.(host := Drop(t.host, name));
    MakeRoomFlat(popped, maxVram, maxHost);
    assert Flat(popped) == Drop(Flat(t), name) && |Flat(popped)| < maxVram + maxHost;
    var u := MakeVramRoom(popped, maxVram - 1, maxHost);
    assert u.host + (u.vram + [Find(t.host, name)]) == Flat(u) + [Find(t.host, name)];
  }

  lemma ColdLoad(t: Tiers, maxVram: nat, maxHost: nat, name: Name)
    requires maxVram >= 1 && Good(t, maxVram, maxHost) && !Has(t.vram, name) && !Has(t.host, name)
    ensures IsUse(t, TiersGetOrLoad(t, maxVram, maxHost, name), maxVram, maxHost, name)
  {
    HasConcat(t.host, t.vram, name);
    MakeRoomFlat(t, maxVram, maxHost);
    var u := MakeVramRoom(t, maxVram - 1, maxHost);
    AppendToFlat(u, Entry(name, |u.loads|));
    NewestOfOneMore(Flat(t), maxVram + maxHost, Entry(name, |t.loads|));
  }

  lemma AppendToFlat(u: Tiers, e: Entry)
    ensures Flat(u.(vram := u.vram + [e])) == Flat(u) + [e]
    ensures u.host + (u.vram + [e]) == Flat(u) + [e]
  {
  }

  lemma NewestOfOneMore(d: Dict, cap: nat, e: Entry)
    requires |d| <= cap && cap > 0
    ensures Newest(d + [e], cap) == (if |d| == cap then d[1..] + [e] else d + [e])
  {
  }

  /** `get_or_load` is one use in the flat list, and calls the loader iff the name is not in it. */
  lemma GetOrLoadIsUse(t: Tiers, maxVram: nat, maxHost: nat, name: Name)
    requires maxVram >= 1 && Good(t, maxVram, maxHost)
    ensures IsUse(t, TiersGetOrLoad(t, maxVram, maxHost, name), maxVram, maxHost, name)
  {
    if Has(t.vram, name) {
      VramHit(t, maxVram, maxHost, name);
    } else if Has(t.host, name) {
      HostHit(t, maxVram, maxHost, name);
    } else {
      ColdLoad(t, maxVram, maxHost, name);
    }
  }

  /** `get` uses a name only while it is hot; `evict` removes it from wherever it is. */
  lemma GetAndEvictFlat(t: Tiers, maxVram: nat, maxHost: nat, name: Name)
    requires Good(t, maxVram, maxHost)
    ensures Flat(TiersGet(t, name)) == (if Has(t.vram, name) then Touch(Flat(t), name) else Flat(t))
    ensures Flat(TiersEvict(t, name)) == Drop(Flat(t), name)
    ensures TiersEvict(t, name).torn == t.torn + (if Has(Flat(t), name) then {Find(Flat(t), name).slot} else {})
  {
    HasConcat(t.host, t.vram, name);
    OneHalf(t.host, t.vram, name);
    DropConcat(t.host, t.vram, name);
    if Has(t.vram, name) {
      DropAbsent(t.host, name);
      assert t.host + (Drop(t.vram, name) + [Find(t.vram, name)])
        == (t.host + Drop(t.vram, name)) + [Find(t.vram, name)];
    }
  }

  /** `evict_lru` cools the oldest hot slot; what falls off is the oldest of all, if the host tier is full. */
  lemma EvictLruFlat(t: Tiers, maxVram: nat, maxHost: nat)
    requires Good(t, maxVram, maxHost)
    ensures var u := TiersEvictLru(t, maxHost);
            && Flat(u) == (if t.vram != [] && |t.host| == maxHost then Flat(t)[1..] else Flat(t))
            && u.torn == t.torn + (if t.vram != [] && |t.host| == maxHost then {Flat(t)[0].slot} else {})
            && |u.host| <= maxHost && u.loads == t.loads && (t.vram != [] ==> u.vram == t.vram[1..])
  {
    if t.vram != [] {
      DemoteFlat(t, maxHost);
      DemoteKeepsVram(t.(vram := t.vram[1..]), maxHost, t.vram[0]);
    }
  }

  // ---------- runs ----------

  datatype Op = Get(name: Name) | GetOrLoad(name: Name) | Evict(name: Name) | EvictLru

  function Step(t: Tiers, maxVram: nat, maxHost: nat, op: Op): Tiers
    requires maxVram >= 1
  {
    match op
    case Get(name) => TiersGet(t, name)
    case GetOrLoad(name) => TiersGetOrLoad(t, maxVram, maxHost, name)
    case Evict(name) => TiersEvict(t, name)
    case EvictLru => TiersEvictLru(t, maxHost)
  }

  function Run(maxVram: nat, maxHost: nat, ops: seq<Op>): Tiers
    requires maxVram >= 1
  {
    if ops == [] then Tiers([], [], [], {})
    else Step(Run(maxVram, maxHost, ops[..|ops| - 1]), maxVram, maxHost, ops[|ops| - 1])
  }

  /** Each slot ever loaded is in exactly one tier or torn down, whatever one step removes. */
  lemma BooksBalance(t: Tiers, u: Tiers, maxVram: nat, maxHost: nat, gone: set<nat>)
    requires Good(t, maxVram, maxHost) && Distinct(Flat(u)) && |u.vram| <= maxVram && |u.host| <= maxHost
    requires u.loads == t.loads && u.torn == t.torn + gone
    requires forall e :: e in Flat(u) <==> e in Flat(t) && e.slot !in gone
    requires forall id <- gone :: exists e <- Flat(t) :: e.slot == id
    ensures Good(u, maxVram, maxHost)
  {
    forall id: nat | id < |u.loads| && id !in u.torn ensures exists e <- Flat(u) :: e.slot == id {
      var e :| e in Flat(t) && e.slot == id;
      assert e in Flat(u);
    }
  }

  lemma SlotsDiffer(t: Tiers, maxVram: nat, maxHost: nat, a: Entry, b: Entry)
    requires Good(t, maxVram, maxHost) && a in Flat(t) && b in Flat(t) && a.slot == b.slot
    ensures a == b
  {
  }

  lemma TailIsGood(t: Tiers, u: Tiers, maxVram: nat, maxHost: nat)
    requires Good(t, maxVram, maxHost) && Flat(t) != [] && Flat(u) == Flat(t)[1..] && u.loads == t.loads
    requires u.torn == t.torn + {Flat(t)[0].slot} && |u.vram| <= maxVram && |u.host| <= maxHost
    ensures Good(u, maxVram, maxHost)
  {
    var f := Flat(t);
    assert f == [f[0]] + f[1..];
    assert Distinct(f[1..]) by {
      assert forall i :: 0 <= i < |f[1..]| ==> f[1..][i] == f[i + 1];
    }
    forall e | e in f && e != f[0] ensures e.slot != f[0].slot {
      if e.slot == f[0].slot {
        SlotsDiffer(t, maxVram, maxHost, e, f[0]);
      }
    }
    forall e <- f[1..] ensures e != f[0] {
      var i :| 0 <= i < |f[1..]| && f[1..][i] == e;
      assert f[i + 1] == e;
    }
    BooksBalance(t, u, maxVram, maxHost, {f[0].slot});
  }

  lemma DropIsGood(t: Tiers, u: Tiers, maxVram: nat, maxHost: nat, name: Name)
    requires Good(t, maxVram, maxHost) && Has(Flat(t), name) && Flat(u) == Drop(Flat(t), name) && u.loads == t.loads
    requires u.torn == t.torn + {Find(Flat(t), name).slot} && |u.vram| <= maxVram && |u.host| <= maxHost
    ensures Good(u, maxVram, maxHost)
  {
    var gone := Find(Flat(t), name);
    DropKeeps(Flat(t), name);
    forall e | e in Flat(t) ensures e.slot == gone.slot <==> e.name == name {
      if e.slot == gone.slot {
        SlotsDiffer(t, maxVram, maxHost, e, gone);
      }
      if e.name == name {
        FindUnique(Flat(t), e);
      }
    }
    BooksBalance(t, u, maxVram, maxHost, {gone.slot});
  }

  lemma TouchIsGood(t: Tiers, u: Tiers, maxVram: nat, maxHost: nat, name: Name)
    requires Good(t, maxVram, maxHost) && Has(Flat(t), name) && Flat(u) == Touch(Flat(t), name) && u.loads == t.loads
    requires u.torn == t.torn && |u.vram| <= maxVram && |u.host| <= maxHost
    ensures Good(u, maxVram, maxHost)
  {
    var e, rest := Find(Flat(t), name), Drop(Flat(t), name);
    DropKeeps(Flat(t), name);
    forall i | 0 <= i < |rest| ensures rest[i].name != name {
      assert rest[i] in rest;
    }
    forall x | x in Flat(t) && x.name == name ensures x == e {
      FindUnique(Flat(t), x);
    }
    BooksBalance(t, u, maxVram, maxHost, {});
  }

  /** A freshly loaded slot joins the books. */
  lemma LoadIsGood(t: Tiers, u: Tiers, maxVram: nat, maxHost: nat, name: Name)
    requires Good(t, maxVram, maxHost) && !Has(Flat(t), name) && Flat(u) == Flat(t) + [Entry(name, |t.loads|)]
    requires u.loads == t.loads + [name] && u.torn == t.torn && |u.vram| <= maxVram && |u.host| <= maxHost
    ensures Good(u, maxVram, maxHost)
  {
    var e := Entry(name, |t.loads|);
    assert e in Flat(u);
    assert forall i :: 0 <= i < |Flat(t)| ==> Flat(t)[i].name != name;
    forall id: nat | id < |u.loads| && id !in u.torn ensures exists x <- Flat(u) :: x.slot == id {
      if id < |t.loads| {
        var x :| x in Flat(t) && x.slot == id;
        assert x in Flat(u);
      }
    }
  }

  lemma GetOrLoadIsGood(t: Tiers, maxVram: nat, maxHost: nat, name: Name)
    requires maxVram >= 1 && Good(t, maxVram, maxHost)
    ensures Good(TiersGetOrLoad(t, maxVram, maxHost, name), maxVram, maxHost)
  {
    var u := TiersGetOrLoad(t, maxVram, maxHost, name);
    GetOrLoadIsUse(t, maxVram, maxHost, name);
    if Has(Flat(t), name) {
      TouchIsGood(t, u, maxVram, maxHost, name);
    } else if |Flat(t)| == maxVram + maxHost {
      FullLoadIsGood(t, u, maxVram, maxHost, name);
    } else {
      LoadIsGood(t, u, maxVram, maxHost, name);
    }
  }

  /** Seen as a load followed by the loss of the oldest slot, in pools one slot larger. */
  lemma FullLoadIsGood(t: Tiers, u: Tiers, maxVram: nat, maxHost: nat, name: Name)
    requires maxVram >= 1 && Good(t, maxVram, maxHost) && IsUse(t, u, maxVram, maxHost, name)
    requires !Has(Flat(t), name) && |Flat(t)| == maxVram + maxHost
    ensures Good(u, maxVram, maxHost)
  {
    var e := Entry(name, |t.loads|);
    var flat := Tiers(Flat(t), [], t.loads, t.torn);
    var more := Tiers(Flat(t) + [e], [], t.loads + [name], t.torn);
    assert Flat(flat) == Flat(t) && Flat(more) == Flat(t) + [e];
    assert Good(flat, maxVram + maxHost + 1, 0);
    LoadIsGood(flat, more, maxVram + maxHost + 1, 0, name);
    ShrinkIsGood(more, u, maxVram, maxHost);
  }

  lemma ShrinkIsGood(t: Tiers, u: Tiers, maxVram: nat, maxHost: nat)
    requires Good(t, maxVram + maxHost + 1, 0) && Flat(t) != [] && Flat(u) == Flat(t)[1..] && u.loads == t.loads
    requires u.torn == t.torn + {Flat(t)[0].slot} && |u.vram| <= maxVram && |u.host| <= maxHost
    ensures Good(u, maxVram, maxHost)
  {
    var flat := Tiers(Flat(u), [], u.loads, u.torn);
    assert Flat(flat) == Flat(u);
    TailIsGood(t, flat, maxVram + maxHost + 1, 0);
  }

  lemma StepIsGood(t: Tiers, maxVram: nat, maxHost: nat, op: Op)
    requires maxVram >= 1 && Good(t, maxVram, maxHost)
    ensures Good(Step(t, maxVram, maxHost, op), maxVram, maxHost)
  {
    var u := Step(t, maxVram, maxHost, op);
    match op
    case Get(name) =>
      if Has(t.vram, name) {
        GetAndEvictFlat(t, maxVram, maxHost, name);
        HasConcat(t.host, t.vram, name);
        OneHalf(t.host, t.vram, name);
        DropKeeps(t.vram, name);
        TouchIsGood(t, u, maxVram, maxHost, name);
      }
    case GetOrLoad(name) => GetOrLoadIsGood(t, maxVram, maxHost, name);
    case Evict(name) =>
      GetAndEvictFlat(t, maxVram, maxHost, name);
      DropKeeps(t.vram, name);
      DropKeeps(t.host, name);
      if Has(Flat(t), name) {
        DropIsGood(t, u, maxVram, maxHost, name);
      } else {
        HasConcat(t.host, t.vram, name);
        DropAbsent(t.host, name);
        DropAbsent(t.vram, name);
      }
    case EvictLru =>
      EvictLruFlat(t, maxVram, maxHost);
      if t.vram != [] {
        DemoteKeepsVram(t.(vram := t.vram[1..]), maxHost, t.vram[0]);
        if |t.host| == maxHost {
          TailIsGood(t, u, maxVram, maxHost);
        } else {
          SameFlatIsGood(t, u, maxVram, maxHost);
        }
      }
  }

  lemma SameFlatIsGood(t: Tiers, u: Tiers, maxVram: nat, maxHost: nat)
    requires Good(t, maxVram, maxHost) && Flat(u) == Flat(t) && u.loads == t.loads && u.torn == t.torn
    requires |u.vram| <= maxVram && |u.host| <= maxHost
    ensures Good(u, maxVram, maxHost)
  {
  }

  /** In every run each slot ever loaded is in exactly one tier, or was torn down and is never served. */
  lemma {:induction false} ReachableIsGood(maxVram: nat, maxHost: nat, ops: seq<Op>)
    requires maxVram >= 1
    ensures Good(Run(maxVram, maxHost, ops), maxVram, maxHost)
  {
    if ops == [] {
    } else {
      ReachableIsGood(maxVram, maxHost, ops[..|ops| - 1]);
      StepIsGood(Run(maxVram, maxHost, ops[..|ops| - 1]), maxVram, maxHost, ops[|ops| - 1]);
    }
  }

  /**
   * Two tiers are one LRU list: after any run, one more `get_or_load` acts on host order followed
   * by VRAM order as one use of a flat list of capacity V + H, and `evict` as one removal.
   */
  lemma TwoTiersAreOneLru(maxVram: nat, maxHost: nat, ops: seq<Op>, name: Name)
    requires maxVram >= 1
    ensures var t := Run(maxVram, maxHost, ops);
            && Flat(TiersGetOrLoad(t, maxVram, maxHost, name)) == Use(Flat(t), maxVram + maxHost, name, |t.loads|)
            && Flat(TiersEvict(t, name)) == Drop(Flat(t), name)
            && (Has(t.vram, name) ==> Has(Flat(t), name))
            && Flat(TiersGet(t, name)) == (if Has(t.vram, name) then Touch(Flat(t), name) else Flat(t))
  {
    HasConcat(Run(maxVram, maxHost, ops).host, Run(maxVram, maxHost, ops).vram, name);
    ReachableIsGood(maxVram, maxHost, ops);
    GetOrLoadIsUse(Run(maxVram, maxHost, ops), maxVram, maxHost, name);
    GetAndEvictFlat(Run(maxVram, maxHost, ops), maxVram, maxHost, name);
  }

  // ---------- when the loader is called ----------

  function Loads(trace: seq<Name>): seq<Op> {
    if trace == [] then [] else Loads(trace[..|trace| - 1]) + [GetOrLoad(trace[|trace| - 1])]
  }

  function Except(names: seq<Name>, name: Name): seq<Name> {
    if names == [] then []
    else if names[0] == name then Except(names[1..], name)
    else [names[0]] + Except(names[1..], name)
  }

  /** The distinct names of the trace by time of last use, oldest first. */
  function ByLastUse(trace: seq<Name>): seq<Name> {
    if trace == [] then [] else Except(ByLastUse(trace[..|trace| - 1]), trace[|trace| - 1]) + [trace[|trace| - 1]]
  }

  function Last(names: seq<Name>, n: nat): seq<Name> {
    if |names| > n then names[|names| - n..] else names
  }

  lemma {:induction false} ExceptConcat(a: seq<Name>, b: seq<Name>, name: Name)
    ensures Except(a + b, name) == Except(a, name) + Except(b, name)
  {
    if a == [] {
      assert a + b == b;
    } else {
      assert (a + b)[1..] == a[1..] + b;
      ExceptConcat(a[1..], b, name);
    }
  }

  lemma {:induction false} ExceptMembers(names: seq<Name>, name: Name)
    ensures forall n :: n in Except(names, name) <==> n in names && n != name
    ensures name !in names ==> Except(names, name) == names
  {
    if names != [] {
      ExceptMembers(names[1..], name);
    }
  }

  ghost predicate AllDifferent(names: seq<Name>) {
    forall i, k :: 0 <= i < k < |names| ==> names[i] != names[k]
  }

  lemma {:induction false} ExceptLength(names: seq<Name>, name: Name)
    requires AllDifferent(names)
    ensures |Except(names, name)| == |names| - if name in names then 1 else 0
  {
    if names != [] {
      assert AllDifferent(names[1..]);
      if names[0] == name {
        ExceptMembers(names[1..], name);
        HeadIsElsewhere(names);
      } else {
        ExceptLength(names[1..], name);
      }
    }
  }

  lemma HeadIsElsewhere(names: seq<Name>)
    requires names != [] && AllDifferent(names)
    ensures names[0] !in names[1..]
  {
    assert forall i :: 0 <= i < |names[1..]| ==> names[1..][i] == names[i + 1];
  }

  lemma {:induction false} ExceptDiffers(names: seq<Name>, name: Name)
    requires AllDifferent(names)
    ensures AllDifferent(Except(names, name))
  {
    if names != [] {
      assert AllDifferent(names[1..]);
      ExceptDiffers(names[1..], name);
      ExceptMembers(names[1..], name);
      HeadIsElsewhere(names);
      var rest := Except(names[1..], name);
      assert forall i :: 0 <= i < |rest| ==> rest[i] in rest;
    }
  }

  lemma {:induction false} ByLastUseIsDistinct(trace: seq<Name>)
    ensures AllDifferent(ByLastUse(trace))
  {
    if trace != [] {
      var n := |trace| - 1;
      ByLastUseIsDistinct(trace[..n]);
      ExceptMembers(ByLastUse(trace[..n]), trace[n]);
      ExceptDiffers(ByLastUse(trace[..n]), trace[n]);
      var rest := Except(ByLastUse(trace[..n]), trace[n]);
      assert forall i :: 0 <= i < |rest| ==> rest[i] in rest;
    }
  }

  lemma LastOfConcat(a: seq<Name>, b: seq<Name>, n: nat)
    requires |b| >= n || a == []
    ensures Last(a + b, n) == Last(b, n)
  {
    if a == [] {
      assert a + b == b;
    } else {
      assert (a + b)[|a + b| - n..] == b[|b| - n..];
    }
  }

  /** One more use, seen on the last `n` names only. */
  lemma LastAfterUse(all: seq<Name>, n: nat, name: Name)
    requires n > 0 && AllDifferent(all)
    ensures var kept := Last(all, n);
            Last(Except(all, name) + [name], n)
              == if name in kept then Except(kept, name) + [name] else Last(kept + [name], n)
  {
    var kept := Last(all, n);
    var lost := all[..|all| - |kept|];
    assert all == lost + kept;
    LastOfSplit(lost, kept, n, name);
  }

  lemma LastOfSplit(lost: seq<Name>, kept: seq<Name>, n: nat, name: Name)
    requires n > 0 && AllDifferent(lost + kept) && |kept| <= n && (lost == [] || |kept| == n)
    ensures Last(Except(lost + kept, name) + [name], n)
      == if name in kept then Except(kept, name) + [name] else Last(kept + [name], n)
  {
    SplitDistinct(lost, kept, name);
    ExceptConcat(lost, kept, name);
    ExceptMembers(lost, name);
    ExceptMembers(kept, name);
    ExceptLength(kept, name);
    LastOfThree(Except(lost, name), Except(kept, name), name, n, lost == []);
  }

  lemma LastOfThree(a: seq<Name>, b: seq<Name>, name: Name, n: nat, first: bool)
    requires if first then a == [] else |b| + 1 >= n
    ensures Last(a + b + [name], n) == Last(b + [name], n)
  {
    assert a + b + [name] == a + (b + [name]);
    LastOfConcat(a, b + [name], n);
  }

  lemma SplitDistinct(a: seq<Name>, b: seq<Name>, name: Name)
    requires AllDifferent(a + b)
    ensures AllDifferent(a) && AllDifferent(b)
    ensures !(name in a && name in b)
  {
    assert forall i :: 0 <= i < |a| ==> (a + b)[i] == a[i];
    assert forall i :: 0 <= i < |b| ==> (a + b)[|a| + i] == b[i];
  }

  lemma {:induction false} NamesOfDrop(d: Dict, name: Name)
    ensures Names(Drop(d, name)) == Except(Names(d), name)
  {
    if d != [] {
      NamesOfDrop(d[1..], name);
      assert Names(d)[1..] == Names(d[1..]);
      assert d[0].name != name ==> Names([d[0]] + Drop(d[1..], name)) == [d[0].name] + Names(Drop(d[1..], name));
    }
  }

  lemma NamesOfUse(d: Dict, cap: nat, name: Name, slot: nat)
    requires |d| <= cap
    ensures Has(d, name) <==> name in Names(d)
    ensures Names(Use(d, cap, name, slot)) ==
            if name in Names(d) then Except(Names(d), name) + [name] else Last(Names(d) + [name], cap)
  {
    HasIsIn(d, name);
    NamesOfDrop(d, name);
    if Has(d, name) {
      NamesOfAppend(Drop(d, name), Find(d, name));
    } else {
      NamesOfAppend(d, Entry(name, slot));
    }
  }

  lemma HasIsIn(d: Dict, name: Name)
    ensures Has(d, name) <==> name in Names(d)
  {
    if Has(d, name) {
      var i :| 0 <= i < |d| && d[i].name == name;
      assert Names(d)[i] == name;
    }
  }

  lemma NamesOfAppend(d: Dict, e: Entry)
    ensures Names(d + [e]) == Names(d) + [e.name]
  {
  }

  /**
   * In runs of `get_or_load` only: the resident names are the V + H most recently requested
   * distinct names, and the loader is called exactly when the next name is not among them.
   */
  lemma LoaderIsCalledOnMiss(maxVram: nat, maxHost: nat, trace: seq<Name>, name: Name)
    requires maxVram >= 1
    ensures var t, kept := Run(maxVram, maxHost, Loads(trace)), Last(ByLastUse(trace), maxVram + maxHost);
            && Names(Flat(t)) == kept
            && TiersGetOrLoad(t, maxVram, maxHost, name).loads == if name in kept then t.loads else t.loads + [name]
  {
    var t := Run(maxVram, maxHost, Loads(trace));
    ReachableIsGood(maxVram, maxHost, Loads(trace));
    GetOrLoadIsUse(t, maxVram, maxHost, name);
    NamesOfUse(Flat(t), maxVram + maxHost, name, 0);
    MostRecentAreResident(maxVram, maxHost, trace);
  }

  lemma {:induction false} MostRecentAreResident(maxVram: nat, maxHost: nat, trace: seq<Name>)
    requires maxVram >= 1
    ensures Names(Flat(Run(maxVram, maxHost, Loads(trace)))) == Last(ByLastUse(trace), maxVram + maxHost)
  {
    if trace != [] {
      var n := |trace| - 1;
      var front := trace[..n];
      MostRecentAreResident(maxVram, maxHost, front);
      LastLoad(maxVram, maxHost, trace);
      ResidentNext(maxVram, maxHost, front, trace[n], Run(maxVram, maxHost, Loads(front)), maxVram + maxHost);
    }
  }

  lemma LastLoad(maxVram: nat, maxHost: nat, trace: seq<Name>)
    requires maxVram >= 1 && trace != []
    ensures var n := |trace| - 1;
      Run(maxVram, maxHost, Loads(trace))
        == TiersGetOrLoad(Run(maxVram, maxHost, Loads(trace[..n])), maxVram, maxHost, trace[n])
  {
    assert Loads(trace)[..|Loads(trace)| - 1] == Loads(trace[..|trace| - 1]);
  }

  lemma ResidentNext(maxVram: nat, maxHost: nat, front: seq<Name>, name: Name, t: Tiers, cap: nat)
    requires maxVram >= 1 && cap == maxVram + maxHost && t == Run(maxVram, maxHost, Loads(front))
    requires Names(Flat(t)) == Last(ByLastUse(front), cap)
    ensures Names(Flat(TiersGetOrLoad(t, maxVram, maxHost, name))) == Last(Except(ByLastUse(front), name) + [name], cap)
  {
    ReachableIsGood(maxVram, maxHost, Loads(front));
    ByLastUseIsDistinct(front);
    OneMoreRequest(t, maxVram, maxHost, ByLastUse(front), name, Flat(t),
      Flat(TiersGetOrLoad(t, maxVram, maxHost, name)), cap);
  }

  lemma GetOrLoadFlat(t: Tiers, maxVram: nat, maxHost: nat, name: Name)
    requires maxVram >= 1 && Good(t, maxVram, maxHost)
    ensures Flat(TiersGetOrLoad(t, maxVram, maxHost, name)) == Use(Flat(t), maxVram + maxHost, name, |t.loads|)
    ensures |Flat(t)| <= maxVram + maxHost
  {
    GetOrLoadIsUse(t, maxVram, maxHost, name);
  }

  lemma OneMoreRequest(t: Tiers, maxVram: nat, maxHost: nat, recent: seq<Name>, name: Name, before: Dict, after: Dict,
      cap: nat)
    requires maxVram >= 1 && Good(t, maxVram, maxHost) && cap == maxVram + maxHost && AllDifferent(recent)
    requires before == Flat(t) && after == Flat(TiersGetOrLoad(t, maxVram, maxHost, name))
      && Names(before) == Last(recent, cap)
    ensures Names(after) == Last(Except(recent, name) + [name], cap)
  {
    GetOrLoadFlat(t, maxVram, maxHost, name);
    UsedNames(before, after, cap, recent, name, |t.loads|);
  }

  lemma UsedNames(before: Dict, after: Dict, cap: nat, recent: seq<Name>, name: Name, slot: nat)
    requires |before| <= cap && cap > 0 && Names(before) == Last(recent, cap) && after == Use(before, cap, name, slot)
    requires AllDifferent(recent)
    ensures Names(after) == Last(Except(recent, name) + [name], cap)
  {
    NamesOfUse(before, cap, name, slot);
    LastAfterUse(recent, cap, name);
  }

  // ---------- without a host tier ----------

  /** With H = 0 the tiered pool is the rewrap pool. */
  ghost predicate SamePool(t: Tiers, p: Pool) {
    t.host == [] && t.vram == p.slots && t.loads == p.loads && t.torn == p.torn
  }

  lemma {:induction false} SameEviction(t: Tiers, p: Pool, max: nat)
    requires SamePool(t, p)
    ensures SamePool(MakeVramRoom(t, max, 0), EvictDownTo(p, max))
    decreases |t.vram|
  {
    if t.vram != [] && |t.vram| > max {
      var e := t.vram[0];
      SameEviction(t.(vram := t.vram[1..], torn := t.torn + {e.slot}),
        p.(slots := p.slots[1..], torn := p.torn + {e.slot}), max);
    }
  }

  function PoolStep(p: Pool, max: nat, op: Op): Pool
    requires max >= 1
  {
    match op
    case Get(name) => PoolGet(p, name)
    case GetOrLoad(name) => PoolGetOrLoad(p, max, name)
    case Evict(name) => PoolEvict(p, name)
    case EvictLru => PoolEvictLru(p)
  }

  function PoolRun(max: nat, ops: seq<Op>): Pool
    requires max >= 1
  {
    if ops == [] then Pool([], [], {}) else PoolStep(PoolRun(max, ops[..|ops| - 1]), max, ops[|ops| - 1])
  }

  lemma SameStep(t: Tiers, p: Pool, max: nat, op: Op)
    requires max >= 1 && SamePool(t, p)
    ensures SamePool(Step(t, max, 0, op), PoolStep(p, max, op))
  {
    match op
    case Get(name) =>
    case GetOrLoad(name) =>
      SameEviction(t, p, max - 1);
    case Evict(name) =>
      if !Has(p.slots, name) {
        DropAbsent(p.slots, name);
      }
    case EvictLru =>
  }

  lemma {:induction false} NoHostTierIsRewrap(max: nat, ops: seq<Op>)
    requires max >= 1
    ensures SamePool(Run(max, 0, ops), PoolRun(max, ops))
  {
    if ops == [] {
    } else {
      NoHostTierIsRewrap(max, ops[..|ops| - 1]);
      SameStep(Run(max, 0, ops[..|ops| - 1]), PoolRun(max, ops[..|ops| - 1]), max, ops[|ops| - 1]);
    }
  }
}
