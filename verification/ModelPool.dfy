/** The pools themselves: ordered dictionaries of slots updated in place. */
module ModelPools {
  import opened Basics
  import opened ModelPoolState
  import opened ModelPoolLru

  class RewrapModelPool {
    const maxSlots: nat
    var slots: Dict
    var loads: seq<Name>
    var torn: set<nat>

    function State(): Pool
      reads this
    {
      Pool(slots, loads, torn)
    }

    constructor (maxSlots: nat)
      requires maxSlots >= 1
      ensures State() == Pool([], [], {}) && this.maxSlots == maxSlots
    {
      this.maxSlots := maxSlots;
      slots, loads, torn := [], [], {};
    }

    method Get(name: Name) returns (slot: Option<nat>)
      modifies this`slots
      ensures State() == PoolGet(old(State()), name)
      ensures slot == if Has(old(slots), name) then Some(Find(old(slots), name).slot) else None
    {
      if Has(slots, name) {
        slot := Some(Find(slots, name).slot);
        slots := Touch(slots, name);
      } else {
        slot := None;
      }
    }

    method EvictLru() returns (name: Option<Name>)
      modifies this`slots, this`torn
      ensures State() == PoolEvictLru(old(State()))
      ensures name == if old(slots) == [] then None else Some(old(slots)[0].name)
    {
      if slots == [] {
        return None;
      }
      name := Some(slots[0].name);
      torn := torn + {slots[0].slot};
      slots := slots[1..];
    }

    method GetOrLoad(name: Name) returns (slot: nat)
      requires maxSlots >= 1
      modifies this
      ensures State() == PoolGetOrLoad(old(State()), maxSlots, name)
      ensures slots != [] && slots[|slots| - 1].name == name && slots[|slots| - 1].slot == slot
    {
      var hit := Get(name);
      if hit.Some? {
        return hit.value;
      }
      ghost var p0 := State();
      while |slots| >= maxSlots
        invariant EvictDownTo(State(), maxSlots - 1) == EvictDownTo(p0, maxSlots - 1)
        decreases |slots|
      {
        var evicted := EvictLru();
        if evicted.None? {
          break;
        }
      }
      slot := |loads|;
      slots := slots + [Entry(name, slot)];
      loads := loads + [name];
    }

    method Evict(name: Name)
      modifies this`slots, this`torn
      ensures State() == PoolEvict(old(State()), name)
    {
      if Has(slots, name) {
        torn := torn + {Find(slots, name).slot};
        slots := Drop(slots, name);
      }
    }
  }

  class TieredModelPool {
    const maxVramSlots: nat
    const maxHostSlots: nat
    var vram: Dict
    var host: Dict
    var loads: seq<Name>
    var torn: set<nat>

    function State(): Tiers
      reads this
    {
      Tiers(vram, host, loads, torn)
    }

    ghost predicate Valid()
      reads this
    {
      maxVramSlots >= 1 && Good(State(), maxVramSlots, maxHostSlots)
    }

    constructor (maxVramSlots: nat, maxHostSlots: nat)
      requires maxVramSlots >= 1
      ensures Valid() && State() == Tiers([], [], [], {})
      ensures this.maxVramSlots == maxVramSlots && this.maxHostSlots == maxHostSlots
    {
      this.maxVramSlots, this.maxHostSlots := maxVramSlots, maxHostSlots;
      vram, host, loads, torn := [], [], [], {};
    }

    method Get(name: Name) returns (slot: Option<nat>)
      modifies this`vram
      ensures State() == TiersGet(old(State()), name)
      ensures slot == if Has(old(vram), name) then Some(Find(old(vram), name).slot) else None
      ensures old(Valid()) ==> Valid()
    {
      if Has(vram, name) {
        slot := Some(Find(vram, name).slot);
        vram := Touch(vram, name);
      } else {
        slot := None;
      }
      if old(Valid()) {
        StepIsGood(old(State()), maxVramSlots, maxHostSlots, Op.Get(name));
      }
    }

    /** The slot returned is the most recent of the VRAM tier, and its base was not torn down. */
    method GetOrLoad(name: Name) returns (slot: nat)
      requires Valid()
      modifies this
      ensures State() == TiersGetOrLoad(old(State()), maxVramSlots, maxHostSlots, name)
      ensures Valid() && vram != [] && vram[|vram| - 1] == Entry(name, slot) && slot !in torn
    {
      ghost var t0 := State();
      slot := Serve(name);
      GetOrLoadIsUse(t0, maxVramSlots, maxHostSlots, name);
      GetOrLoadIsGood(t0, maxVramSlots, maxHostSlots, name);
      assert vram[|vram| - 1] in Flat(State());
    }

    method Serve(name: Name) returns (slot: nat)
      requires maxVramSlots >= 1
      modifies this
      ensures State() == TiersGetOrLoad(old(State()), maxVramSlots, maxHostSlots, name)
      ensures vram != [] && vram[|vram| - 1] == Entry(name, slot)
    {
      var hit := Get(name);
      if hit.Some? {
        return hit.value;
      }
      if Has(host, name) {
        var promoted := Find(host, name);
        host := Drop(host, name);
        MakeVramRoom(1);
        vram := vram + [promoted];
        return promoted.slot;
      }
      MakeVramRoom(1);
      slot := |loads|;
      vram := vram + [Entry(name, slot)];
      loads := loads + [name];
    }

    method Evict(name: Name)
      modifies this
      ensures State() == TiersEvict(old(State()), name)
      ensures old(Valid()) ==> Valid()
    {
      DropAbsentTwice(vram, host, name);
      if Has(vram, name) {
        torn := torn + {Find(vram, name).slot};
        vram := Drop(vram, name);
      }
      if Has(host, name) {
        torn := torn + {Find(host, name).slot};
        host := Drop(host, name);
      }
      if old(Valid()) {
        StepIsGood(old(State()), maxVramSlots, maxHostSlots, Op.Evict(name));
      }
    }

    method EvictLru() returns (name: Option<Name>)
      modifies this
      ensures State() == TiersEvictLru(old(State()), maxHostSlots)
      ensures name == if old(vram) == [] then None else Some(old(vram)[0].name)
    {
      if vram == [] {
        return None;
      }
      var oldest := vram[0];
      vram := vram[1..];
      DemoteOrDestroy(oldest);
      return Some(oldest.name);
    }

    method MakeVramRoom(reserve: nat)
      requires 1 <= reserve <= maxVramSlots
      modifies this
      ensures State() == ModelPoolState.MakeVramRoom(old(State()), maxVramSlots - reserve, maxHostSlots)
    {
      ghost var t0, max := State(), maxVramSlots - reserve;
      while |vram| + reserve > maxVramSlots
        invariant ModelPoolState.MakeVramRoom(State(), max, maxHostSlots)
          == ModelPoolState.MakeVramRoom(t0, max, maxHostSlots)
        decreases |vram|
      {
        var oldest := vram[0];
        vram := vram[1..];
        DemoteKeepsVram(State(), maxHostSlots, oldest);
        DemoteOrDestroy(oldest);
      }
    }

    method DemoteOrDestroy(e: Entry)
      modifies this`host, this`torn
      ensures State() == ModelPoolState.DemoteOrDestroy(old(State()), maxHostSlots, e)
    {
      if maxHostSlots == 0 {
        torn := torn + {e.slot};
        return;
      }
      ghost var t0 := State();
      while |host| >= maxHostSlots
        invariant TrimHost(State(), maxHostSlots - 1) == TrimHost(t0, maxHostSlots - 1)
        decreases |host|
      {
        torn := torn + {host[0].slot};
        host := host[1..];
      }
      host := host + [e];
    }
  }

  lemma DropAbsentTwice(a: Dict, b: Dict, name: Name)
    ensures !Has(a, name) ==> Drop(a, name) == a
    ensures !Has(b, name) ==> Drop(b, name) == b
  {
    if !Has(a, name) {
      DropAbsent(a, name);
    }
    if !Has(b, name) {
      DropAbsent(b, name);
    }
  }
}
