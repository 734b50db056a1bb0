/**
 The entity and system managers as objects: src/common/S_Base.cpp, src/common/System_Manager.cpp and
 src/common/Entity_Manager.cpp, each method proved to do what Ecs.dfy says.
 */
module EcsObjects {
  import opened Bitmasks
  import opened Components
  import opened Ecs

  class SystemBase {
    const requirements: seq<Bitset>
    var members: seq<EntityId>

    ghost function Data(): SystemData
      reads this`members
    {
      SystemData(requirements, members)
    }

    constructor (requirements: seq<Bitset>)
      ensures Data() == SystemData(requirements, [])
    {
      this.requirements := requirements;
      members := [];
    }

    method HasEntity(e: EntityId) returns (found: bool)
      ensures found <==> e in members
    {
      var k := 0;
      while k < |members| && members[k] != e
        invariant k <= |members|
        invariant e !in members[..k]
      {
        k := k + 1;
      }
      found := k < |members|;
      assert members == members[..k] + members[k..];
    }

    method AddEntity(e: EntityId) returns (added: bool)
      modifies this
      ensures added <==> e !in old(members)
      ensures members == Add(old(members), e)
    {
      var found := HasEntity(e);
      if found {
        return false;
      }
      members := members + [e];
      return true;
    }

    method RemoveEntity(e: EntityId) returns (removed: bool)
      modifies this
      ensures removed <==> e in old(members)
      ensures members == Remove(old(members), e)
    {
      var k := 0;
      while k < |members| && members[k] != e
        invariant k <= |members|
        invariant e !in members[..k]
        invariant Remove(members, e) == members[..k] + Remove(members[k..], e)
      {
        assert members[k..][1..] == members[k + 1..];
        k := k + 1;
      }
      if k == |members| {
        assert members == members[..k];
        return false;
      }
      assert members[k..][1..] == members[k + 1..];
      members := members[..k] + members[k + 1..];
      return true;
    }

    method FitsRequirements(bits: Bitset) returns (fits: bool)
      ensures fits <==> Fits(requirements, bits)
    {
      var k := 0;
      while k < |requirements|
        invariant k <= |requirements|
        invariant forall j :: 0 <= j < k ==> !Matches(requirements[j], bits, requirements[j])
      {
        if Matches(requirements[k], bits, requirements[k]) {
          return true;
        }
        k := k + 1;
      }
      return false;
    }

    method Purge()
      modifies this
      ensures members == []
    {
      members := [];
    }
  }

  // The iteration order of a hash map after an insertion: the new key may turn up anywhere.
  method InsertAt(order: seq<System>, s: System, position: nat) returns (after: seq<System>)
    requires position <= |order| && s !in order
    requires forall j, k :: 0 <= j < k < |order| ==> order[j] != order[k]
    ensures forall t :: t in after <==> t in order || t == s
    ensures forall j, k :: 0 <= j < k < |after| ==> after[j] != after[k]
  {
    after := order[..position] + [s] + order[position..];
    assert order == order[..position] + order[position..];
  }

  class SystemManager {
    var systems: map<System, SystemBase>
    // the iteration order of the systems
    var order: seq<System>
    var events: EventQueues
    // S_Network's record of its players' input
    var input: map<EntityId, PlayerInput>

    ghost predicate Valid()
      reads this`order, this`systems
    {
      && (forall s :: s in order <==> s in systems)
      && (forall j, k :: 0 <= j < k < |order| ==> order[j] != order[k])
      && (forall s, t :: s in systems && t in systems && s != t ==> systems[s] != systems[t])
    }

    ghost function Lists(): Systems
      reads this`systems, systems.Values`members
    {
      map s | s in systems :: systems[s].Data()
    }

    constructor ()
      ensures Valid() && systems == map[] && events == map[] && input == map[]
    {
      systems, order, events, input := map[], [], map[], map[];
    }

    // addSystem; the new system may come anywhere in the iteration order.
    method AddSystem(s: System, requirements: seq<Bitset>, position: nat) returns (added: bool)
      requires Valid() && position <= |order|
      modifies this
      ensures Valid()
      ensures added <==> s !in old(systems)
      ensures Lists() == if added then old(Lists())[s := SystemData(requirements, [])] else old(Lists())
      ensures events == old(events) && input == old(input)
      ensures s in systems && (added ==> fresh(systems[s]))
      ensures systems == if added then old(systems)[s := systems[s]] else old(systems)
    {
      if s in systems {
        return false;
      }
      var system := new SystemBase(requirements);
      order := InsertAt(order, s, position);
      systems := systems[s := system];
      return true;
    }

    method EntityModified(e: EntityId, bits: Bitset)
      requires Valid()
      modifies systems.Values
      ensures Valid()
      ensures Lists() == Ecs.EntityModified(old(Lists()), e, bits)
    {
      for i := 0 to |order|
        invariant forall k :: 0 <= k < i ==> systems[order[k]].Data() == Refresh(old(systems[order[k]].Data()), e, bits)
        invariant forall k :: i <= k < |order| ==> systems[order[k]].Data() == old(systems[order[k]].Data())
      {
        var system := systems[order[i]];
        var has := system.HasEntity(e);
        var fits := system.FitsRequirements(bits);
        if !has {
          if fits {
            var _ := system.AddEntity(e);
          }
        } else if !fits {
          var _ := system.RemoveEntity(e);
        }
      }
      forall s | s in systems
        ensures systems[s].Data() == Refresh(old(systems[s].Data()), e, bits)
      {
        var k :| 0 <= k < |order| && order[k] == s;
      }
    }

    method RemoveEntity(e: EntityId)
      requires Valid()
      modifies systems.Values
      ensures Valid()
      ensures Lists() == DropEntity(old(Lists()), e)
    {
      for i := 0 to |order|
        invariant forall k :: 0 <= k < i ==> systems[order[k]].members == Remove(old(systems[order[k]].members), e)
        invariant forall k :: i <= k < |order| ==> systems[order[k]].members == old(systems[order[k]].members)
      {
        var _ := systems[order[i]].RemoveEntity(e);
      }
      forall s | s in systems
        ensures systems[s].members == Remove(old(systems[s].members), e)
      {
        var k :| 0 <= k < |order| && order[k] == s;
      }
    }

    method PurgeEntities()
      requires Valid()
      modifies systems.Values
      ensures Valid()
      ensures Lists() == PurgeLists(old(Lists()))
    {
      for i := 0 to |order|
        invariant forall k :: 0 <= k < i ==> systems[order[k]].members == []
      {
        systems[order[i]].Purge();
      }
      forall s | s in systems
        ensures systems[s].members == []
      {
        var k :| 0 <= k < |order| && order[k] == s;
      }
    }

    method AddEvent(e: EntityId, event: EntityEvent)
      modifies this`events
      ensures events == Ecs.AddEvent(old(events), e, event)
    {
      var queue := if e in events then events[e] else [];
      events := events[e := queue + [event]];
    }
  }
}
