/** sf::Packet as the snapshot code uses it, and that code over it and the entity manager. */
module PacketObjects {
  import opened Integers
  import opened Collections
  import opened Bitmasks
  import opened Components
  import opened Ecs
  import opened EntityObjects
  import opened Snapshot

  class Packet {
    var tokens: seq<Token>
    // what has been read so far, and whether all of it could be
    var at: nat
    var valid: bool

    ghost predicate Valid()
      reads this
    {
      at <= |tokens|
    }

    constructor ()
      ensures Valid() && tokens == [] && at == 0 && valid
    {
      tokens, at, valid := [], 0, true;
    }

    method Put(t: Token)
      requires Valid()
      modifies this`tokens
      ensures Valid() && tokens == old(tokens) + [t]
    {
      tokens := tokens + [t];
    }

    // operator << for a snapshot.
    method PutSnapshot(s: EntitySnapshot)
      requires Valid()
      modifies this`tokens
      ensures Valid() && tokens == old(tokens) + SnapshotTokens(s)
    {
      Put(TextValue(s.kind));
      Put(TextValue(s.name));
      Put(FloatValue(s.position.x));
      Put(FloatValue(s.position.y));
      Put(Int32Value(s.elevation));
      Put(FloatValue(s.velocity.x));
      Put(FloatValue(s.velocity.y));
      Put(FloatValue(s.acceleration.x));
      Put(FloatValue(s.acceleration.y));
      Put(Uint8Value(s.direction));
      Put(Uint8Value(s.state));
      Put(Uint8Value(s.health));
    }

    // Extraction. A packet that has failed once gives nothing more.
    method GetText(v: string) returns (r: string)
      requires Valid()
      modifies this`at, this`valid
      ensures Valid() && (valid <==> old(valid) && old(at) < |tokens| && tokens[old(at)].TextValue?)
      ensures if valid then at == old(at) + 1 && r == tokens[old(at)].text else at == old(at) && r == v
    {
      r := v;
      valid := valid && at < |tokens| && tokens[at].TextValue?;
      if valid {
        r, at := tokens[at].text, at + 1;
      }
    }

    method GetFloat(v: real) returns (r: real)
      requires Valid()
      modifies this`at, this`valid
      ensures Valid() && (valid <==> old(valid) && old(at) < |tokens| && tokens[old(at)].FloatValue?)
      ensures if valid then at == old(at) + 1 && r == tokens[old(at)].float else at == old(at) && r == v
    {
      r := v;
      valid := valid && at < |tokens| && tokens[at].FloatValue?;
      if valid {
        r, at := tokens[at].float, at + 1;
      }
    }

    method GetInt32(v: Int32) returns (r: Int32)
      requires Valid()
      modifies this`at, this`valid
      ensures Valid() && (valid <==> old(valid) && old(at) < |tokens| && tokens[old(at)].Int32Value?)
      ensures if valid then at == old(at) + 1 && r == tokens[old(at)].number else at == old(at) && r == v
    {
      r := v;
      valid := valid && at < |tokens| && tokens[at].Int32Value?;
      if valid {
        r, at := tokens[at].number, at + 1;
      }
    }

    method GetUint8(v: Uint8) returns (r: Uint8)
      requires Valid()
      modifies this`at, this`valid
      ensures Valid() && (valid <==> old(valid) && old(at) < |tokens| && tokens[old(at)].Uint8Value?)
      ensures if valid then at == old(at) + 1 && r == tokens[old(at)].byte else at == old(at) && r == v
    {
      r := v;
      valid := valid && at < |tokens| && tokens[at].Uint8Value?;
      if valid {
        r, at := tokens[at].byte, at + 1;
      }
    }

    // operator >> for a snapshot: it succeeds exactly when a snapshot comes next, and then takes it off the packet.
    method GetSnapshot(s: EntitySnapshot) returns (r: EntitySnapshot)
      requires Valid()
      modifies this`at, this`valid
      ensures Valid()
      ensures valid <==> old(valid) && ReadSnapshot(tokens[old(at)..]).Some?
      ensures valid ==> Some((r, tokens[at..])) == ReadSnapshot(tokens[old(at)..])
    {
      ghost var t := tokens[at..];
      var kind := GetText(s.kind);
      var name := GetText(s.name);
      var px := GetFloat(s.position.x);
      var py := GetFloat(s.position.y);
      var elevation := GetInt32(s.elevation);
      var vx := GetFloat(s.velocity.x);
      var vy := GetFloat(s.velocity.y);
      var ax := GetFloat(s.acceleration.x);
      var ay := GetFloat(s.acceleration.y);
      var direction := GetUint8(s.direction);
      var state := GetUint8(s.state);
      var health := GetUint8(s.health);
      r := EntitySnapshot(kind, name, Vec(px, py), elevation, Vec(vx, vy), Vec(ax, ay), direction, state, health);
      if valid {
        assert t[12..] == tokens[at..];
      }
    }
  }

  lemma StoredFacts(em: EntityManager, e: EntityId)
    requires em.Valid() && e in em.entities
    ensures e in em.World().entities && em.World().entities[e].kind == em.entities[e].kind
    ensures forall t :: t in em.entities[e].mask <==> Has(em.World().entities[e].body, t)
  {
  }

  // What dumpEntityInfo writes for one entity: each component whose bit is set is there to be read.
  method TakeSnapshot(em: EntityManager, e: EntityId, blank: EntitySnapshot) returns (s: EntitySnapshot)
    requires em.Valid() && e in em.entities
    ensures e in em.World().entities && s == SnapshotOf(em.World().entities[e], blank)
  {
    hide EntityManager.World, EntityManager.Valid;
    StoredFacts(em, e);
    var mask := em.entities[e].mask;
    s := blank.(kind := em.entities[e].kind);
    if GetBit(mask, POSITION) {
      var pos := em.GetComponent(e, POSITION);
      s := s.(position := pos.value.position.at, elevation := ToInt32(pos.value.position.elevation));
    }
    if GetBit(mask, MOVABLE) {
      var mov := em.GetComponent(e, MOVABLE);
      var m := mov.value.movable;
      s := s.(velocity := m.velocity, acceleration := m.acceleration, direction := DirectionCode(m.direction));
    }
    if GetBit(mask, STATE) {
      var state := em.GetComponent(e, STATE);
      s := s.(state := StateCode(state.value.state));
    }
    if GetBit(mask, HEALTH) {
      var health := em.GetComponent(e, HEALTH);
      s := s.(health := ToUint8(health.value.health.points));
    }
    if GetBit(mask, NAME) {
      var name := em.GetComponent(e, NAME);
      s := s.(name := name.value.name);
    }
  }

  lemma {:induction false} AllTokensAppend(records: seq<Record>, r: Record)
    ensures AllTokens(records + [r]) == AllTokens(records) + RecordTokens(r)
  {
    if records == [] {
      assert [r][1..] == [] && AllTokens([]) == [];
    } else {
      assert (records + [r])[1..] == records[1..] + [r];
      AllTokensAppend(records[1..], r);
    }
  }

  lemma OneMoreRecord(entities: Entities, order: seq<EntityId>, e: EntityId, blank: EntityId -> EntitySnapshot)
    requires e in entities && forall k :: 0 <= k < |order| ==> order[k] in entities
    ensures forall k :: 0 <= k < |order + [e]| ==> (order + [e])[k] in entities
    ensures AllTokens(RecordsOf(entities, order + [e], blank)) ==
            AllTokens(RecordsOf(entities, order, blank)) + RecordTokens((ToInt32(e), SnapshotOf(entities[e], blank(e))))
  {
    var r := (ToInt32(e), SnapshotOf(entities[e], blank(e)));
    assert RecordsOf(entities, order + [e], blank) == RecordsOf(entities, order, blank) + [r];
    AllTokensAppend(RecordsOf(entities, order, blank), r);
  }

  lemma NoRecords(entities: Entities, blank: EntityId -> EntitySnapshot)
    ensures AllTokens(RecordsOf(entities, [], blank)) == []
  {
  }

  // Every entity once, in the order the map yields them.
  ghost predicate Covers(order: seq<EntityId>, entities: Entities) {
    && NoDuplicates(order)
    && (forall k :: 0 <= k < |order| ==> order[k] in entities)
    && forall e :: e in entities ==> e in order
  }

  lemma CoversCount(order: seq<EntityId>, entities: Entities, blank: EntityId -> EntitySnapshot)
    requires Covers(order, entities)
    ensures |order| == |entities| == |RecordsOf(entities, order, blank)|
  {
    forall e
      ensures e in order <==> e in entities.Keys
    {
    }
    OrderCounts(entities.Keys, order);
    assert |entities| == |entities.Keys|;
  }

  lemma SameKeys(em: EntityManager)
    ensures em.World().entities.Keys == em.entities.Keys
  {
  }

  lemma SameCount(em: EntityManager)
    ensures |em.World().entities| == |em.entities|
    ensures |em.entities| == 0 ==> Covers([], em.World().entities)
  {
    assert em.World().entities.Keys == em.entities.Keys;
    assert |em.World().entities| == |em.World().entities.Keys| && |em.entities| == |em.entities.Keys|;
  }

  method DumpEntityInfo(em: EntityManager, packet: Packet, blank: EntityId -> EntitySnapshot)
    returns (ghost order: seq<EntityId>)
    requires em.Valid() && packet.Valid()
    modifies packet`tokens
    ensures packet.Valid() && Covers(order, em.World().entities)
    ensures packet.tokens == old(packet.tokens) + AllTokens(RecordsOf(em.World().entities, order, blank))
  {
    hide EntityManager.World, EntityManager.Valid, AllTokens, RecordTokens, SnapshotOf, RecordsOf;
    ghost var entities := em.World().entities;
    var rest := em.entities.Keys;
    SameKeys(em);
    NoRecords(entities, blank);
    order := [];
    while rest != {}
      invariant em.Valid() && packet.Valid() && em.World().entities == entities && rest <= em.entities.Keys
      invariant NoDuplicates(order) && forall k :: 0 <= k < |order| ==> order[k] in entities && order[k] !in rest
      invariant forall e :: e in entities ==> e in order || e in rest
      invariant packet.tokens == old(packet.tokens) + AllTokens(RecordsOf(entities, order, blank))
      decreases |rest|
    {
      var e := AnyOf(rest);
      PutRecord(em, packet, e, blank);
      OneMoreRecord(entities, order, e, blank);
      rest, order := rest - {e}, order + [e];
    }
  }

  method PutRecord(em: EntityManager, packet: Packet, e: EntityId, blank: EntityId -> EntitySnapshot)
    requires em.Valid() && packet.Valid() && e in em.entities
    modifies packet`tokens
    ensures packet.Valid() && e in em.World().entities
    ensures packet.tokens ==
            old(packet.tokens) + RecordTokens((ToInt32(e), SnapshotOf(em.World().entities[e], blank(e))))
  {
    hide EntityManager.World, EntityManager.Valid, SnapshotOf;
    packet.Put(Int32Value(ToInt32(e)));
    var s := TakeSnapshot(em, e, blank(e));
    packet.PutSnapshot(s);
  }

  // createSnapshot, on an empty packet: what it leaves in the packet reads back as its entities.
  method CreateSnapshot(em: EntityManager, packet: Packet, blank: EntityId -> EntitySnapshot)
    returns (ghost order: seq<EntityId>)
    requires em.Valid() && packet.Valid() && packet.tokens == [] && IsInt32(|em.entities|)
    modifies packet`tokens
    ensures packet.Valid() && Covers(order, em.World().entities)
    ensures IsInt32(|order|) && packet.tokens == Packed(RecordsOf(em.World().entities, order, blank))
    ensures (forall e :: e in em.World().entities ==> IsInt32(e)) ==>
            IsSnapshot(packet.tokens, em.World().entities, blank)
  {
    hide EntityManager.World, EntityManager.Valid, AllTokens, RecordsOf, IsSnapshot;
    packet.Put(Int8Value(SNAPSHOT_ID));
    packet.Put(Int32Value(|em.entities|));
    order := [];
    SameCount(em);
    if |em.entities| > 0 {
      order := DumpEntityInfo(em, packet, blank);
    } else {
      NoRecords(em.World().entities, blank);
    }
    CoversCount(order, em.World().entities, blank);
    if forall e :: e in em.World().entities ==> IsInt32(e) {
      SnapshotRoundTrip(em.World().entities, order, blank);
    }
  }
}
