/** What a packet changes: the input a player sends, the player a newcomer gets, and nothing beside them. */
module Visits {
  import opened Components
  import opened Ecs
  import opened Rules
  import opened Lifecycle
  import opened Link
  import R = Registry
  import opened MapEntities

  // The parts that are read: up to the first one that the delimiter does not follow.
  function Taken(parts: seq<UpdatePart>): seq<UpdatePart> {
    if parts == [] then [] else [parts[0]] + if parts[0].delimited then Taken(parts[1..]) else []
  }

  // The last move among them, if there is one.
  function LastMove(parts: seq<UpdatePart>): Option<(int, int)> {
    if parts == [] then None
    else
      var last := parts[|parts| - 1];
      if last.MovePart? then Some((last.x, last.y)) else LastMove(parts[..|parts| - 1])
  }

  predicate Attacks(parts: seq<UpdatePart>) {
    exists k :: 0 <= k < |parts| && parts[k].AttackPart? && parts[k].attacking
  }

  lemma LastMoveFirst(first: UpdatePart, rest: seq<UpdatePart>)
    ensures LastMove([first] + rest) ==
            if LastMove(rest).Some? then LastMove(rest) else if first.MovePart? then Some((first.x, first.y)) else None
    ensures Attacks([first] + rest) <==> (first.AttackPart? && first.attacking) || Attacks(rest)
  {
    var all := [first] + rest;
    if rest != [] {
      var before := rest[..|rest| - 1];
      assert all[..|all| - 1] == [first] + before;
      LastMoveFirst(first, before);
    }
    assert forall k :: 0 <= k < |rest| ==> all[k + 1] == rest[k];
    if Attacks(rest) {
      var k :| 0 <= k < |rest| && rest[k].AttackPart? && rest[k].attacking;
      assert all[k + 1].AttackPart?;
    }
    if first.AttackPart? && first.attacking {
      assert all[0].AttackPart?;
    }
  }

  // The last move read is the move kept; it attacks if any part read says so, or it did before.
  lemma {:induction false} ReadOutcome(p: PlayerInput, parts: seq<UpdatePart>)
    ensures var p', move := ReadUpdate(p, parts), LastMove(Taken(parts));
            && (if move.Some? then (p'.movedX, p'.movedY) == move.value
                else p'.movedX == p.movedX && p'.movedY == p.movedY)
            && (p'.attacking <==> p.attacking || Attacks(Taken(parts)))
    decreases |parts|
  {
    if parts != [] {
      var rest := if parts[0].delimited then Taken(parts[1..]) else [];
      LastMoveFirst(parts[0], rest);
      if parts[0].delimited {
        ReadOutcome(Link.ReadPart(p, parts[0]), parts[1..]);
      }
    }
  }

  // A Player_Update sets the input of the client's own player to the last move it says, attacking exactly if it says
  // so; without a player it does nothing, and it changes nothing else.
  lemma UpdateOutcome(w: World, c: R.ClientId, parts: seq<UpdatePart>, f: EntityId)
    ensures var w', e := UpdatePlayer(w, c, parts), EntityOf(w, c);
            && w'.(input := w.input) == w
            && (e == -1 ==> w' == w)
            && (f != e ==> InputOf(w', f) == InputOf(w, f))
            && (e != -1 ==>
                  var p', move := InputOf(w', e), LastMove(Taken(parts));
                  && (p'.attacking <==> Attacks(Taken(parts)))
                  && (if move.Some? then (p'.movedX, p'.movedY) == move.value
                      else p'.movedX == InputOf(w, e).movedX && p'.movedY == InputOf(w, e).movedY))
  {
    ReadOutcome(InputOf(w, EntityOf(w, c)).(attacking := false), parts);
    hide ReadUpdate, EntityOf, Taken, LastMove, Attacks;
  }

  // What a newcomer's player gets: the client's id, the place (64, 64) on its own elevation, and the name; nothing of
  // it without a place but the id.
  lemma WelcomedOutcome(b: Body, player: bool, c: R.ClientId, name: string)
    ensures var b' := Welcomed(b, player, c, name);
            && b'.(clientId := b.clientId, position := b.position, name := b.name) == b
            && b'.clientId == (if player then Some(c) else b.clientId)
            && (b.position.None? ==> b'.position.None? && b'.name == b.name)
            && (b.position.Some? ==>
                  && b'.position.Some? && b'.position.value.at == Vec(64.0, 64.0)
                  && b'.position.value.elevation == b.position.value.elevation
                  && b'.position.value.previous == b.position.value.at
                  && b'.name == (if b.name.Some? then Some(name) else None))
  {
  }

  // Nobody else notices: every other entity and every other client is as before.
  lemma WelcomeTouchesOnly(g: GameState, endpoint: R.Endpoint, name: string, file: Option<Archetype>, f: EntityId)
    requires Linked(g) && f != AddedId(g.world, NULL_ID)
    ensures var g' := Welcome(g, endpoint, name, file);
            && BodyOf(g'.world, f) == BodyOf(g.world, f)
            && g'.server == R.AddClient(g.server, R.Udp, endpoint)
  {
    if file.Some? && AddedId(g.world, NULL_ID) != NULL_ID {
      SpawnBuilds(g.world, file.value);
    }
    hide Spawn, Welcomed;
  }

  // Only three things come of a packet: a Connect from an endpoint the server does not know makes a client; from one it
  // knows, a Disconnect takes the player away and a Player_Update sets its input. Everything else is ignored.
  lemma PacketIgnored(g: GameState, endpoint: R.Endpoint, packet: Link.Packet, file: Option<Archetype>)
    requires Linked(g) && g.server.running
    requires if R.Known(g.server, endpoint) then packet.Connect? || packet.OtherPacket? else !packet.Connect?
    ensures OnPacket(g, endpoint, packet, file) == g && ReplyTo(g, endpoint, packet, file) == Nothing
  {
  }

  // An entity of the map stands where its line says, and is otherwise what its file makes it.
  lemma PlacedOutcome(w: World, e: EntityId, place: Position, f: EntityId)
    ensures var b, b' := BodyOf(w, e), BodyOf(Placed(w, e, place), e);
            && b'.(position := b.position) == b
            && b'.position == (if b.position.None? then None
                               else Some(b.position.value.(at := place.at, elevation := place.elevation)))
            && (f != e ==> BodyOf(Placed(w, e, place), f) == BodyOf(w, f))
  {
  }
}
