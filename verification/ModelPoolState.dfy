/** Ordered dictionaries of pool slots, and the two pools as values over them. */
module ModelPoolState {
  import opened Basics

  type Name = string

  /** One key of an ordered dictionary; `slot` identifies the slot object by its load number. */
  datatype Entry = Entry(name: Name, slot: nat)

  /** Oldest first. */
  type Dict = seq<Entry>

  function Names(d: Dict): (r: seq<Name>)
    ensures |r| == |d| && forall i :: 0 <= i < |d| ==> r[i] == d[i].name
  {
    seq(|d|, i requires 0 <= i < |d| => d[i].name)
  }

  predicate Has(d: Dict, name: Name) {
    exists i :: 0 <= i < |d| && d[i].name == name
  }

  /** The entry for a key that is present. */
  function Find(d: Dict, name: Name): (e: Entry)
    requires Has(d, name)
    ensures e in d && e.name == name
  {
    if d[0].name == name then d[0] else Find(d[1..], name)
  }

  /** `pop(name, None)` */
  function Drop(d: Dict, name: Name): Dict {
    if d == [] then [] else if d[0].name == name then Drop(d[1..], name) else [d[0]] + Drop(d[1..], name)
  }

  /** `move_to_end(name)` */
  function Touch(d: Dict, name: Name): Dict
    requires Has(d, name)
  {
    Drop(d, name) + [Find(d, name)]
  }

  ghost predicate Distinct(d: Dict) {
    forall i, k :: 0 <= i < k < |d| ==> d[i].name != d[k].name
  }

  lemma {:induction false} DropConcat(a: Dict, b: Dict, name: Name)
    ensures Drop(a + b, name) == Drop(a, name) + Drop(b, name)
  {
    if a == [] {
      assert a + b == b;
    } else {
      assert (a + b)[1..] == a[1..] + b;
      DropConcat(a[1..], b, name);
    }
  }

  lemma {:induction false} DropAbsent(d: Dict, name: Name)
    requires !Has(d, name)
    ensures Drop(d, name) == d
  {
    if d != [] {
      DropAbsent(d[1..], name);
    }
  }

  lemma {:induction false} DropMembers(d: Dict, name: Name)
    ensures !Has(Drop(d, name), name) && |Drop(d, name)| <= |d|
    ensures forall e :: e in Drop(d, name) <==> e in d && e.name != name
  {
    if d != [] {
      DropMembers(d[1..], name);
    }
  }

  lemma HasHeadOrTail(d: Dict, name: Name)
    requires d != []
    ensures Has(d, name) <==> d[0].name == name || Has(d[1..], name)
    ensures Distinct(d) ==> Distinct(d[1..]) && !Has(d[1..], d[0].name)
  {
    assert forall i :: 1 <= i < |d| ==> d[i] == d[1..][i - 1];
    assert forall i :: 0 <= i < |d[1..]| ==> d[1..][i] == d[i + 1];
  }

  lemma {:induction false} DropIsDistinct(d: Dict, name: Name)
    requires Distinct(d)
    ensures Distinct(Drop(d, name)) && |Drop(d, name)| == |d| - if Has(d, name) then 1 else 0
  {
    if d != [] {
      HasHeadOrTail(d, name);
      DropIsDistinct(d[1..], name);
      DropMembers(d[1..], name);
      var rest := Drop(d[1..], name);
      forall i | 0 <= i < |rest|
        ensures rest[i].name != d[0].name
      {
        assert rest[i] in d[1..];
      }
    }
  }

  lemma DropKeeps(d: Dict, name: Name)
    ensures !Has(Drop(d, name), name) && |Drop(d, name)| <= |d|
    ensures forall e :: e in Drop(d, name) <==> e in d && e.name != name
    ensures Distinct(d) ==> Distinct(Drop(d, name)) && |Drop(d, name)| == |d| - if Has(d, name) then 1 else 0
  {
    DropMembers(d, name);
    if Distinct(d) {
      DropIsDistinct(d, name);
    }
  }

  lemma {:induction false} FindUnique(d: Dict, e: Entry)
    requires Distinct(d) && e in d
    ensures Has(d, e.name) && Find(d, e.name) == e
  {
    var i :| 0 <= i < |d| && d[i] == e;
    if d[0].name != e.name {
      assert d[1..][i - 1] == e;
      FindUnique(d[1..], e);
    }
  }

  // ---------- the rewrap pool ----------

  /** `loads` is the history of loader calls, `torn` the slots whose base was dropped. */
  datatype Pool = Pool(slots: Dict, loads: seq<Name>, torn: set<nat>)

  /** Pop from the front and tear down until fewer than `max` slots are left. */
  function EvictDownTo(p: Pool, max: nat): Pool
    decreases |p.slots|
  {
    if p.slots == [] || |p.slots| <= max then p
    else EvictDownTo(p.(slots := p.slots[1..], torn := p.torn + {p.slots[0].slot}), max)
  }

  function Load(p: Pool, name: Name): Pool {
    p.(slots := p.slots + [Entry(name, |p.loads|)], loads := p.loads + [name])
  }

  function PoolGet(p: Pool, name: Name): Pool {
    if Has(p.slots, name) then p.(slots := Touch(p.slots, name)) else p
  }

  function PoolGetOrLoad(p: Pool, max: nat, name: Name): Pool
    requires max >= 1
  {
    if Has(p.slots, name) then PoolGet(p, name) else Load(EvictDownTo(p, max - 1), name)
  }

  function PoolEvict(p: Pool, name: Name): Pool {
    if Has(p.slots, name) then p.(slots := Drop(p.slots, name), torn := p.torn + {Find(p.slots, name).slot}) else p
  }

  function PoolEvictLru(p: Pool): Pool {
    if p.slots == [] then p else p.(slots := p.slots[1..], torn := p.torn + {p.slots[0].slot})
  }

  // ---------- the tiered pool ----------

  datatype Tiers = Tiers(vram: Dict, host: Dict, loads: seq<Name>, torn: set<nat>)

  /** Make place in the host tier: tear down its oldest slots. */
  function TrimHost(t: Tiers, max: nat): Tiers
    decreases |t.host|
  {
    if t.host == [] || |t.host| <= max then t
    else TrimHost(t.(host := t.host[1..], torn := t.torn + {t.host[0].slot}), max)
  }

  function DemoteOrDestroy(t: Tiers, maxHost: nat, e: Entry): Tiers {
    if maxHost == 0 then t.(torn := t.torn + {e.slot})
    else var u := TrimHost(t, maxHost - 1); u.(host := u.host + [e])
  }

  /** Pop the oldest VRAM slots until `max` are left. */
  function MakeVramRoom(t: Tiers, max: nat, maxHost: nat): Tiers
    decreases |t.vram|
  {
    if t.vram == [] || |t.vram| <= max then t
    else
      var d := DemoteOrDestroy(t.(vram := t.vram[1..]), maxHost, t.vram[0]);
      DemoteKeepsVram(t.(vram := t.vram[1..]), maxHost, t.vram[0]);
      MakeVramRoom(d, max, maxHost)
  }

  lemma DemoteKeepsVram(t: Tiers, maxHost: nat, e: Entry)
    ensures DemoteOrDestroy(t, maxHost, e).vram == t.vram && DemoteOrDestroy(t, maxHost, e).loads == t.loads
  {
    if maxHost > 0 {
      TrimKeeps(t, maxHost - 1);
    }
  }

  lemma {:induction false} TrimKeeps(t: Tiers, max: nat)
    ensures TrimHost(t, max).vram == t.vram && TrimHost(t, max).loads == t.loads
    decreases |t.host|
  {
    if t.host != [] && |t.host| > max {
      TrimKeeps(t.(host := t.host[1..], torn := t.torn + {t.host[0].slot}), max);
    }
  }

  function TiersGet(t: Tiers, name: Name): Tiers {
    if Has(t.vram, name) then t.(vram := Touch(t.vram, name)) else t
  }

  function TiersGetOrLoad(t: Tiers, maxVram: nat, maxHost: nat, name: Name): Tiers
    requires maxVram >= 1
  {
    if Has(t.vram, name) then TiersGet(t, name)
    else if Has(t.host, name) then
      var u := MakeVramRoom(t.(host := Drop(t.host, name)), maxVram - 1, maxHost);
      u.(vram := u.vram + [Find(t.host, name)])
    else
      var u := MakeVramRoom(t, maxVram - 1, maxHost);
      u.(vram := u.vram + [Entry(name, |u.loads|)], loads := u.loads + [name])
  }

  function TiersEvict(t: Tiers, name: Name): Tiers {
    Tiers(Drop(t.vram, name), Drop(t.host, name), t.loads,
          t.torn + (if Has(t.vram, name) then {Find(t.vram, name).slot} else {})
                 + (if Has(t.host, name) then {Find(t.host, name).slot} else {}))
  }

  function TiersEvictLru(t: Tiers, maxHost: nat): Tiers {
    if t.vram == [] then t else DemoteOrDestroy(t.(vram := t.vram[1..]), maxHost, t.vram[0])
  }
}
