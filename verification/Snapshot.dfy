/**
 Snapshots: S_Network::createSnapshot, ServerEntityManager::dumpEntityInfo and the stream operators of
 src/common/EntitySnapshot.cpp, over packets as sequences of typed values.
 */
module Snapshot {
  import opened Integers
  import opened Collections
  import opened Components
  import opened Ecs

  type Int32 = x: int | IsInt32(x)

  type Uint8 = x: int | 0 <= x < 256

  // What one << puts into a packet.
  datatype Token =
    | Int8Value(id: int)
    | Int32Value(number: Int32)
    | FloatValue(float: real)
    | Uint8Value(byte: Uint8)
    | TextValue(text: string)

  const SNAPSHOT_ID := 3

  datatype EntitySnapshot = EntitySnapshot(
    kind: string, name: string, position: Vec, elevation: Int32, velocity: Vec, acceleration: Vec,
    direction: Uint8, state: Uint8, health: Uint8)

  type Record = (Int32, EntitySnapshot)

  // ---------- writing ----------

  function DirectionCode(d: Direction): Uint8 {
    match d
    case Up => 0
    case Left => 1
    case Down => 2
    case Right => 3
  }

  function StateCode(s: EntityState): Uint8 {
    match s
    case Idle => 0
    case Walking => 1
    case Hurt => 2
    case Attacking => 3
    case Dying => 4
  }

  // Directions and states can be told apart by their codes.
  lemma CodesDistinct(d: Direction, e: Direction, s: EntityState, t: EntityState)
    ensures DirectionCode(d) == DirectionCode(e) <==> d == e
    ensures StateCode(s) == StateCode(t) <==> s == t
  {
  }

  // The enumerators in the order the headers list them: what a code stands for.
  const DIRECTIONS: seq<Direction> := [Up, Left, Down, Right]
  const STATES: seq<EntityState> := [Idle, Walking, Hurt, Attacking, Dying]

  function ToUint8(x: int): Uint8 {
    x % 256
  }

  // The snapshot of one entity. The fields of components it lacks stay as the new snapshot had them.
  function SnapshotOf(d: EntityData, blank: EntitySnapshot): EntitySnapshot {
    var s0 := blank.(kind := d.kind);
    var s1 := if d.body.position.Some?
              then var p := d.body.position.value; s0.(position := p.at, elevation := ToInt32(p.elevation))
              else s0;
    var s2 := if d.body.movable.Some?
              then var m := d.body.movable.value;
                   s1.(velocity := m.velocity, acceleration := m.acceleration, direction := DirectionCode(m.direction))
              else s1;
    var s3 := if d.body.state.Some? then s2.(state := StateCode(d.body.state.value)) else s2;
    var s4 := if d.body.health.Some? then s3.(health := ToUint8(d.body.health.value.points)) else s3;
    if d.body.name.Some? then s4.(name := d.body.name.value) else s4
  }

  function SnapshotTokens(s: EntitySnapshot): seq<Token> {
    [TextValue(s.kind), TextValue(s.name), FloatValue(s.position.x), FloatValue(s.position.y), Int32Value(s.elevation),
     FloatValue(s.velocity.x), FloatValue(s.velocity.y), FloatValue(s.acceleration.x), FloatValue(s.acceleration.y),
     Uint8Value(s.direction), Uint8Value(s.state), Uint8Value(s.health)]
  }

  function RecordTokens(r: Record): seq<Token> {
    [Int32Value(r.0)] + SnapshotTokens(r.1)
  }

  function AllTokens(records: seq<Record>): seq<Token> {
    if records == [] then [] else RecordTokens(records[0]) + AllTokens(records[1..])
  }

  // The records of the entities in the order the map yields them.
  function RecordsOf(entities: Entities, order: seq<EntityId>, blank: EntityId -> EntitySnapshot): seq<Record>
    requires forall k :: 0 <= k < |order| ==> order[k] in entities
  {
    seq(|order|, k requires 0 <= k < |order| => (ToInt32(order[k]), SnapshotOf(entities[order[k]], blank(order[k]))))
  }

  function Packed(records: seq<Record>): seq<Token>
    requires IsInt32(|records|)
  {
    [Int8Value(SNAPSHOT_ID), Int32Value(|records|)] + AllTokens(records)
  }

  // ---------- reading ----------

  // operator >>: a token of another type than the one asked for fails the packet.
  function ReadSnapshot(t: seq<Token>): Option<(EntitySnapshot, seq<Token>)> {
    if |t| >= 12 && t[0].TextValue? && t[1].TextValue? && t[2].FloatValue? && t[3].FloatValue? && t[4].Int32Value? &&
       t[5].FloatValue? && t[6].FloatValue? && t[7].FloatValue? && t[8].FloatValue? &&
       t[9].Uint8Value? && t[10].Uint8Value? && t[11].Uint8Value?
    then
      Some((EntitySnapshot(t[0].text, t[1].text, Vec(t[2].float, t[3].float), t[4].number, Vec(t[5].float, t[6].float),
                           Vec(t[7].float, t[8].float), t[9].byte, t[10].byte, t[11].byte), t[12..]))
    else None
  }

  function ReadRecords(t: seq<Token>, n: nat): Option<(seq<Record>, seq<Token>)> {
    if n == 0 then Some(([], t))
    else if t == [] || !t[0].Int32Value? then None
    else
      match ReadSnapshot(t[1..])
      case None => None
      case Some((s, rest)) =>
        match ReadRecords(rest, n - 1)
        case None => None
        case Some((records, end)) => Some(([(t[0].number, s)] + records, end))
  }

  function Unpacked(t: seq<Token>): Option<(seq<Record>, seq<Token>)> {
    if |t| >= 2 && t[0] == Int8Value(SNAPSHOT_ID) && t[1].Int32Value? && t[1].number >= 0
    then ReadRecords(t[2..], t[1].number) else None
  }

  // ---------- the two together ----------

  lemma SnapshotReads(s: EntitySnapshot, rest: seq<Token>)
    ensures ReadSnapshot(SnapshotTokens(s) + rest) == Some((s, rest))
  {
  }

  lemma ReadIsWritten(t: seq<Token>)
    ensures ReadSnapshot(t).Some? ==> var r := ReadSnapshot(t).value; t == SnapshotTokens(r.0) + r.1
  {
  }

  lemma RecordReads(r: Record, tail: seq<Token>, n: nat, records: seq<Record>, rest: seq<Token>)
    requires ReadRecords(tail, n) == Some((records, rest))
    ensures ReadRecords(RecordTokens(r) + tail, n + 1) == Some(([r] + records, rest))
  {
    hide SnapshotTokens, ReadSnapshot;
    var t := RecordTokens(r) + tail;
    assert t[0] == Int32Value(r.0) && t[1..] == SnapshotTokens(r.1) + tail;
    SnapshotReads(r.1, tail);
  }

  lemma {:induction false} RecordsRead(records: seq<Record>, rest: seq<Token>)
    ensures ReadRecords(AllTokens(records) + rest, |records|) == Some((records, rest))
  {
    hide RecordTokens, ReadSnapshot;
    if records == [] {
      assert AllTokens(records) + rest == rest;
    } else {
      var tail := AllTokens(records[1..]) + rest;
      RecordsRead(records[1..], rest);
      RecordReads(records[0], tail, |records| - 1, records[1..], rest);
      assert AllTokens(records) + rest == RecordTokens(records[0]) + tail;
      assert records == [records[0]] + records[1..];
    }
  }

  lemma OneMoreWritten(t: seq<Token>, s: EntitySnapshot, rest: seq<Token>, records: seq<Record>, end: seq<Token>)
    requires t != [] && t[0].Int32Value? && t[1..] == SnapshotTokens(s) + rest && rest == AllTokens(records) + end
    ensures t == AllTokens([(t[0].number, s)] + records) + end
  {
    hide SnapshotTokens;
    var r := (t[0].number, s);
    assert ([r] + records)[1..] == records;
    assert AllTokens([r] + records) == RecordTokens(r) + AllTokens(records);
    assert t == [t[0]] + t[1..];
  }

  lemma {:induction false} ReadAreWritten(t: seq<Token>, n: nat)
    ensures ReadRecords(t, n).Some? ==> var r := ReadRecords(t, n).value; |r.0| == n && t == AllTokens(r.0) + r.1
  {
    if n > 0 && ReadRecords(t, n).Some? {
      hide ReadSnapshot, SnapshotTokens;
      var (s, rest) := ReadSnapshot(t[1..]).value;
      ReadIsWritten(t[1..]);
      ReadAreWritten(rest, n - 1);
      var (records, end) := ReadRecords(rest, n - 1).value;
      OneMoreWritten(t, s, rest, records, end);
    }
  }

  // Reading gives back what was written and uses up the packet, and only what was written can be read.
  lemma PackRoundTrip(records: seq<Record>)
    requires IsInt32(|records|)
    ensures Unpacked(Packed(records)) == Some((records, []))
  {
    var t := Packed(records);
    assert t[2..] == AllTokens(records) + [];
    RecordsRead(records, []);
  }

  lemma UnpackRoundTrip(t: seq<Token>)
    requires Unpacked(t).Some?
    ensures var (records, rest) := Unpacked(t).value;
            IsInt32(|records|) && t == Packed(records) + rest
  {
    ReadAreWritten(t[2..], t[1].number);
    assert t == t[..2] + t[2..] && t[..2] == [t[0], t[1]];
  }

  // The snapshot says of the entity all that travels: each value in its own field, and the fields of components it
  // lacks as they were. Codes are places in the enumerations, and health is taken modulo 256.
  ghost predicate Shows(s: EntitySnapshot, d: EntityData, blank: EntitySnapshot) {
    var b := d.body;
    && s.kind == d.kind
    && (if b.name.Some? then s.name == b.name.value else s.name == blank.name)
    && (if b.position.Some? then
          s.position == b.position.value.at && (IsInt32(b.position.value.elevation) ==>
            s.elevation == b.position.value.elevation)
        else s.position == blank.position && s.elevation == blank.elevation)
    && (if b.movable.Some? then
          && s.velocity == b.movable.value.velocity && s.acceleration == b.movable.value.acceleration
          && s.direction < |DIRECTIONS| && DIRECTIONS[s.direction] == b.movable.value.direction
        else s.velocity == blank.velocity && s.acceleration == blank.acceleration && s.direction == blank.direction)
    && (if b.state.Some? then s.state < |STATES| && STATES[s.state] == b.state.value else s.state == blank.state)
    && (if b.health.Some? then (b.health.value.points - s.health) % 256 == 0 else s.health == blank.health)
  }

  lemma SnapshotShows(d: EntityData, blank: EntitySnapshot)
    ensures Shows(SnapshotOf(d, blank), d, blank)
  {
  }

  // A snapshot packet starts with its type, 3, and the number of records.
  lemma Stamped(records: seq<Record>)
    requires IsInt32(|records|)
    ensures var t := Packed(records); |t| >= 2 && t[0] == Int8Value(3) && t[1] == Int32Value(|records|)
  {
  }

  // The order of the values on the wire.
  lemma WireOrder(s: EntitySnapshot)
    ensures var t := SnapshotTokens(s);
            && |t| == 12 && t[0] == TextValue(s.kind) && t[1] == TextValue(s.name)
            && [t[2], t[3]] == [FloatValue(s.position.x), FloatValue(s.position.y)] && t[4] == Int32Value(s.elevation)
            && [t[5], t[6]] == [FloatValue(s.velocity.x), FloatValue(s.velocity.y)]
            && [t[7], t[8]] == [FloatValue(s.acceleration.x), FloatValue(s.acceleration.y)]
            && [t[9], t[10], t[11]] == [Uint8Value(s.direction), Uint8Value(s.state), Uint8Value(s.health)]
  {
  }

  // The packet reads back as one record for each entity, under its own id, and nothing is left over.
  ghost predicate IsSnapshot(t: seq<Token>, entities: Entities, blank: EntityId -> EntitySnapshot) {
    && Unpacked(t).Some?
    && var (records, rest) := Unpacked(t).value;
       && rest == [] && |records| == |entities|
       && (forall j, k :: 0 <= j < k < |records| ==> records[j].0 != records[k].0)
       && forall e :: e in entities ==> HasRecord(records, e, entities[e], blank(e))
  }

  ghost predicate HasRecord(records: seq<Record>, e: EntityId, d: EntityData, blank: EntitySnapshot) {
    exists k :: 0 <= k < |records| && records[k].0 == e && Shows(records[k].1, d, blank)
  }

  // For every map of entities, in whatever order it yields them.
  lemma SnapshotRoundTrip(entities: Entities, order: seq<EntityId>, blank: EntityId -> EntitySnapshot)
    requires NoDuplicates(order) && forall e :: e in order <==> e in entities
    requires forall k :: 0 <= k < |order| ==> order[k] in entities
    requires IsInt32(|order|) && forall e :: e in entities ==> IsInt32(e)
    ensures IsSnapshot(Packed(RecordsOf(entities, order, blank)), entities, blank)
  {
    var records := RecordsOf(entities, order, blank);
    PackRoundTrip(records);
    OrderCounts(entities.Keys, order);
    hide SnapshotOf, Shows, Unpacked, Packed;
    forall e | e in entities
      ensures HasRecord(records, e, entities[e], blank(e))
    {
      var k :| 0 <= k < |order| && order[k] == e;
      SnapshotShows(entities[e], blank(e));
      assert records[k] == (e, SnapshotOf(entities[e], blank(e)));
    }
  }

  lemma {:induction false} OrderCounts(keys: set<EntityId>, order: seq<EntityId>)
    requires NoDuplicates(order) && forall e :: e in order <==> e in keys
    ensures |order| == |keys|
  {
    if order == [] {
      var none: set<EntityId> := {};
      assert forall e :: e in keys <==> e in order;
      assert forall e :: e in keys <==> e in none;
      SameSet(keys, none);
    } else {
      var last := order[|order| - 1];
      assert order == order[..|order| - 1] + [last];
      OrderCounts(keys - {last}, order[..|order| - 1]);
    }
  }

  // Health travels as one byte: it arrives unchanged exactly when it fits.
  lemma HealthFitsByte(d: EntityData, blank: EntitySnapshot)
    requires d.body.health.Some?
    ensures SnapshotOf(d, blank).health == d.body.health.value.points <==> 0 <= d.body.health.value.points < 256
  {
  }
}
