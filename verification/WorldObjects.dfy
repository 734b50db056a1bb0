/** src/server/World.cpp and the player half of src/server/S_Network.cpp, over the managers and the server. */
module WorldObjects {
  import opened Components
  import opened Ecs
  import opened EntityObjects
  import opened Rules
  import opened Machine
  import opened Lifecycle
  import opened Link
  import R = Registry
  import opened ServerObjects

  // A character of the game: one who can be placed has a name.
  predicate Named(file: Option<Archetype>) {
    file.Some? && Built(file.value).position.Some? ==> Built(file.value).name.Some?
  }

  class GameWorld {
    const em: EntityManager
    const server: Server

    ghost function State(): GameState
      reads em`entities, em`idCounter, em`log
      reads em.sm`systems, em.sm.systems.Values`members, em.sm`events, em.sm`input, server
    {
      GameState(em.World(), server.State())
    }

    ghost predicate Valid()
      reads em`entities, em`idCounter, em`log
      reads em.sm`order, em.sm`systems, em.sm.systems.Values`members, em.sm`events, em.sm`input, server
    {
      em.Valid() && Linked(State())
    }

    constructor (em: EntityManager, server: Server)
      requires em.Valid() && Linked(GameState(em.World(), server.State()))
      ensures Valid() && this.em == em && this.server == server
    {
      this.em, this.server := em, server;
    }

    // ---------- S_Network ----------

    method GetEntityId(c: R.ClientId) returns (e: EntityId)
      requires em.Valid() && Sane(em.World())
      ensures e == EntityOf(em.World(), c)
    {
      hide EntityManager.World, EntityManager.Valid, Sane;
      var list := em.Members(Network);
      for i := 0 to |list|
        invariant FirstHolder(em.World(), list, c) == FirstHolder(em.World(), list[i..], c)
      {
        ListedExist(em.World(), list[i]);
        assert list[i..][1..] == list[i + 1..];
        var client := em.GetComponent(list[i], CLIENT);
        if client.value.clientId == c {
          return list[i];
        }
      }
      return NULL_ID;
    }

    method GetClientId(e: EntityId) returns (c: R.ClientId)
      requires Valid()
      ensures c == ClientOf(em.World(), e)
    {
      hide EntityManager.World;
      ListedExist(em.World(), e);
      var has := em.SystemHas(Network, e);
      if !has {
        return R.NO_CLIENT;
      }
      var client := em.GetComponent(e, CLIENT);
      return client.value.clientId;
    }

    method UpdatePlayer(c: R.ClientId, parts: seq<UpdatePart>)
      requires Valid()
      modifies em.sm`input
      ensures Valid() && State() == old(State()).(world := Link.UpdatePlayer(old(em.World()), c, parts))
    {
      hide EntityManager.World, EntityManager.Valid, Sane;
      UpdatePlayerLinked(State(), c, parts);
      var e := GetEntityId(c);
      if e == NULL_ID {
        return;
      }
      ghost var w := em.World();
      var p := em.InputFor(e);
      ghost var stored := p;
      p := p.(attacking := false);
      ghost var start := p;
      var rest := parts;
      while rest != []
        invariant ReadUpdate(start, parts) == ReadUpdate(p, rest)
        decreases |rest|
      {
        p := Link.ReadPart(p, rest[0]);
        if !rest[0].delimited {
          rest := [];
        } else {
          rest := rest[1..];
        }
      }
      em.SetInput(e, p);
      assert w.input[e := stored][e := p] == w.input[e := p];
    }

    // ---------- World ----------

    method ClientLeave(c: R.ClientId)
      requires em.Valid() && Sane(em.World())
      modifies em`entities, em.sm`input, em.sm.systems.Values
      ensures em.Valid() && em.World() == Leave(old(em.World()), c)
    {
      hide EntityManager.World, EntityManager.Valid, Sane;
      var e := GetEntityId(c);
      var _ := em.RemoveEntity(e);
    }

    // registerClientID
    method RegisterClientId(e: EntityId, c: R.ClientId) returns (done: bool)
      requires em.Valid() && (e in ListOf(em.World(), Network) ==> Has(BodyOf(em.World(), e), CLIENT))
      modifies em`entities
      ensures em.Valid() && (done <==> e in ListOf(old(em.World()), Network))
      ensures var w := old(em.World());
              em.World() == if done then SetBody(w, e, BodyOf(w, e).(clientId := Some(c))) else w
    {
      hide EntityManager.World, EntityManager.Valid;
      var has := em.SystemHas(Network, e);
      if !has {
        return false;
      }
      em.WriteComponent(e, AClient(c));
      return true;
    }

    // The player's place and name.
    method Place(e: EntityId, name: string) returns (placed: bool)
      requires em.Valid() && e in em.World().entities
      requires BodyOf(em.World(), e).position.Some? ==> BodyOf(em.World(), e).name.Some?
      modifies em`entities
      ensures em.Valid() && (placed <==> BodyOf(old(em.World()), e).position.Some?)
      ensures var w, b := old(em.World()), BodyOf(old(em.World()), e);
              em.World() == if b.position.None? then w
                            else
                              var p := b.position.value;
                              SetBody(w, e, b.(position := Some(Position(SPAWN_POINT, p.at, p.elevation)),
                                               name := Some(name)))
    {
      hide EntityManager.World, EntityManager.Valid;
      ghost var w, b := em.World(), BodyOf(em.World(), e);
      var pos := em.GetComponent(e, POSITION);
      if pos.None? {
        return false;
      }
      var p := pos.value.position;
      em.WriteComponent(e, APosition(Position(SPAWN_POINT, p.at, p.elevation)));
      var tag := em.GetComponent(e, NAME);
      assert tag.Some?;
      em.WriteComponent(e, AName(name));
      return true;
    }

    // The entity of a new client, if it has been placed.
    method Admit(c: R.ClientId, name: string, file: Option<Archetype>) returns (e: EntityId)
      requires em.Valid() && Sane(em.World()) && Named(file)
      modifies em, em.sm`events, em.sm.systems.Values
      ensures em.Valid()
      ensures var w := old(em.World());
              em.World() ==
              if file.None? || AddedId(w, NULL_ID) == NULL_ID then w
              else
                var e, w' := AddedId(w, NULL_ID), Spawn(w, file.value);
                SetBody(w', e, Welcomed(BodyOf(w', e), e in ListOf(w', Network), c, name))
      ensures var w, added := old(em.World()), AddedId(old(em.World()), NULL_ID);
              e == if file.None? || added == NULL_ID || BodyOf(Spawn(w, file.value), added).position.None? then NULL_ID
                   else added
    {
      hide EntityManager.World, EntityManager.Valid, Spawn, Sane;
      ghost var w := em.World();
      e := em.AddEntityFromFile(file);
      if file.None? {
        return;
      }
      NoSpawn(w, file.value);
      if e == NULL_ID {
        return;
      }
      SpawnedPlayer(w, file.value);
      var _ := RegisterClientId(e, c);
      var placed := Place(e, name);
      if !placed {
        e := NULL_ID;
      }
    }

    // The Connect arm of handlePacket.
    method Welcome(endpoint: R.Endpoint, name: string, file: Option<Archetype>) returns (reply: Reply)
      requires Valid() && Named(file)
      modifies em, em.sm`events, em.sm.systems.Values, server
      ensures Valid() && State() == Link.Welcome(old(State()), endpoint, name, file)
      ensures reply == WelcomeReply(old(State()), endpoint, file)
    {
      hide EntityManager.World, EntityManager.Valid;
      WelcomeLinked(State(), endpoint, name, file);
      hide Linked;
      var c := server.AddClient(R.Udp, endpoint);
      if c == R.NO_CLIENT {
        return Refused;
      }
      var e := Admit(c, name, file);
      reply := if e == NULL_ID then Nothing else Greeted(c, e, SPAWN_POINT);
    }

    method HandlePacket(endpoint: R.Endpoint, packet: Packet, file: Option<Archetype>) returns (reply: Reply)
      requires Valid() && Named(file)
      modifies em, em.sm`events, em.sm`input, em.sm.systems.Values, server
      ensures Valid() && State() == OnPacket(old(State()), endpoint, packet, file)
      ensures reply == ReplyTo(old(State()), endpoint, packet, file)
    {
      hide EntityManager.World, EntityManager.Valid;
      ReceiveLinked(State(), endpoint, packet, file);
      var c := server.GetClientId(endpoint);
      hide Linked;
      reply := Nothing;
      if c >= 0 {
        match packet {
          case Disconnect =>
            ClientLeave(c);
          case PlayerUpdate(parts) => UpdatePlayer(c, parts);
          case _ =>
        }
      } else if packet.Connect? {
        reply := Welcome(endpoint, packet.name, file);
      }
    }

    // Server::update, which calls clientLeave for each client it times out; the two touch different state.
    method UpdateServer(dt: nat) returns (left: seq<R.ClientId>)
      requires Valid()
      modifies em`entities, em.sm`input, em.sm.systems.Values, server
      ensures Valid() && Lists(left, R.TimedOut(old(server.State()), dt))
      ensures State() == Next(old(State()), Link.Pass(dt, left))
    {
      hide EntityManager.World, EntityManager.Valid;
      hide R.Updated, R.TimedOut, R.Sound, R.Step, OnPacket, Apply;
      ghost var g := State();
      var beats;
      left, beats := server.Update(dt);
      PassLinked(g, dt, left);
      hide Linked, Sane;
      LeaveEach(left);
    }

    method LeaveEach(left: seq<R.ClientId>)
      requires em.Valid() && Sane(em.World()) && R.NO_CLIENT !in left
      modifies em`entities, em.sm`input, em.sm.systems.Values
      ensures em.Valid() && em.World() == LeaveAll(old(em.World()), left)
    {
      hide EntityManager.World, EntityManager.Valid, Sane;
      ghost var w := em.World();
      for i := 0 to |left|
        invariant em.Valid() && em.World() == LeaveAll(w, left[..i])
      {
        assert left[..i + 1][..i] == left[..i];
        LeaveAllRemoves(w, left[..i]);
        ClientLeave(left[i]);
      }
      assert left[..|left|] == left;
    }

    // The console's disconnectall.
    method DisconnectEveryone()
      requires Valid()
      modifies em, em.sm.systems.Values, server
      ensures Valid() && State() == Next(old(State()), Link.DisconnectEveryone)
    {
      hide EntityManager.World, EntityManager.Valid;
      hide OnPacket, LeaveAll, Apply, R.Updated, R.Step;
      NextLinked(State(), Link.DisconnectEveryone);
      hide Linked;
      server.Clear();
      em.Purge();
    }
  }

  lemma NoSpawn(w: World, a: Archetype)
    ensures AddedId(w, NULL_ID) == NULL_ID ==> Spawn(w, a) == w
  {
  }

  // A player fresh from its file.
  lemma SpawnedPlayer(w: World, a: Archetype)
    requires Sane(w) && AddedId(w, NULL_ID) != NULL_ID
    ensures var e, w' := AddedId(w, NULL_ID), Spawn(w, a);
            && e in w'.entities && BodyOf(w', e) == Built(a)
            && (e in ListOf(w', Network) ==> Has(BodyOf(w', e), CLIENT))
  {
    assert Sane(Spawn(w, a)) by {
      PlayLinked(GameState(w, R.STOPPED), SpawnEntity(a));
    }
    SpawnBuilds(w, a);
    ListedExist(Spawn(w, a), AddedId(w, NULL_ID));
  }
}
