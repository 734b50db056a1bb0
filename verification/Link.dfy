/**
 The link between the server's clients and the players' entities: src/server/World.cpp with S_Network's lookups, over
 the client registry and the entity-component-system together.
 */
module Link {
  import opened Bitmasks
  import opened Components
  import opened Ecs
  import opened EcsIndex
  import opened Frames
  import opened Rules
  import opened Machine
  import opened Lifecycle
  import R = Registry

  datatype GameState = GameState(world: World, server: R.ServerState)

  // The parts of a Player_Update packet. A part that the delimiter does not follow ends the packet.
  datatype UpdatePart =
    | MovePart(x: int, y: int, delimited: bool)
    | AttackPart(attacking: bool, delimited: bool)
    | OtherPart(delimited: bool)

  datatype Packet = Connect(name: string) | Disconnect | PlayerUpdate(parts: seq<UpdatePart>) | OtherPacket

  // ---------- S_Network ----------

  predicate Holds(w: World, e: EntityId, c: R.ClientId) {
    BodyOf(w, e).clientId == Some(c)
  }

  // getEntityId
  function FirstHolder(w: World, list: seq<EntityId>, c: R.ClientId): EntityId {
    if list == [] then NULL_ID else if Holds(w, list[0], c) then list[0] else FirstHolder(w, list[1..], c)
  }

  function EntityOf(w: World, c: R.ClientId): EntityId {
    FirstHolder(w, ListOf(w, Network), c)
  }

  // getClientID
  function ClientOf(w: World, e: EntityId): R.ClientId {
    if e in ListOf(w, Network) && BodyOf(w, e).clientId.Some? then BodyOf(w, e).clientId.value else R.NO_CLIENT
  }

  function ReadPart(p: PlayerInput, part: UpdatePart): PlayerInput {
    match part
    case MovePart(x, y, _) => p.(movedX := x, movedY := y)
    case AttackPart(attacking, _) => if attacking then p.(attacking := true) else p
    case OtherPart(_) => p
  }

  // The loop of updatePlayer.
  function ReadUpdate(p: PlayerInput, parts: seq<UpdatePart>): PlayerInput
    decreases |parts|
  {
    if parts == [] then p
    else if !parts[0].delimited then ReadPart(p, parts[0])
    else ReadUpdate(ReadPart(p, parts[0]), parts[1..])
  }

  function UpdatePlayer(w: World, c: R.ClientId, parts: seq<UpdatePart>): World {
    var e := EntityOf(w, c);
    if e == NULL_ID then w
    else w.(input := w.input[e := ReadUpdate(InputOf(w, e).(attacking := false), parts)])
  }

  // ---------- World ----------

  // clientLeave
  function Leave(w: World, c: R.ClientId): World {
    RemoveEntity(w, EntityOf(w, c))
  }

  function LeaveAll(w: World, ids: seq<R.ClientId>): World {
    if ids == [] then w else Leave(LeaveAll(w, ids[..|ids| - 1]), ids[|ids| - 1])
  }

  // The body handlePacket gives a new player.
  function Welcomed(b: Body, player: bool, c: R.ClientId, name: string): Body {
    var registered := if player then b.(clientId := Some(c)) else b;
    if b.position.None? then registered
    else
      var p := b.position.value;
      registered.(position := Some(Position(SPAWN_POINT, p.at, p.elevation)),
                  name := if b.name.Some? then Some(name) else None)
  }

  // A Connect packet from an endpoint the server does not know. `file` is the parsed Player file.
  function Welcome(g: GameState, endpoint: R.Endpoint, name: string, file: Option<Archetype>): GameState {
    var c := R.AddedId(g.server, endpoint);
    if c == R.NO_CLIENT then g
    else
      var server := R.AddClient(g.server, R.Udp, endpoint);
      if file.None? || AddedId(g.world, NULL_ID) == NULL_ID then GameState(g.world, server)
      else
        var e, w := AddedId(g.world, NULL_ID), Spawn(g.world, file.value);
        GameState(SetBody(w, e, Welcomed(BodyOf(w, e), e in ListOf(w, Network), c, name)), server)
  }

  // handlePacket
  ghost function OnPacket(g: GameState, endpoint: R.Endpoint, packet: Packet, file: Option<Archetype>): GameState {
    var c := R.IdAt(g.server, endpoint);
    if c >= 0 then
      match packet
      case Disconnect => g.(world := Leave(g.world, c))
      case PlayerUpdate(parts) => g.(world := UpdatePlayer(g.world, c, parts))
      case _ => g
    else if packet.Connect? then Welcome(g, endpoint, packet.name, file)
    else g
  }

  // What handlePacket sends back: the answer to a Connect, or a Disconnect, or nothing.
  datatype Reply = Greeted(client: R.ClientId, entity: EntityId, at: Vec) | Refused | Nothing

  function WelcomeReply(g: GameState, endpoint: R.Endpoint, file: Option<Archetype>): Reply {
    var c, e := R.AddedId(g.server, endpoint), AddedId(g.world, NULL_ID);
    if c == R.NO_CLIENT then Refused
    else if file.None? || e == NULL_ID || BodyOf(Spawn(g.world, file.value), e).position.None? then Nothing
    else Greeted(c, e, SPAWN_POINT)
  }

  ghost function ReplyTo(g: GameState, endpoint: R.Endpoint, packet: Packet, file: Option<Archetype>): Reply {
    if R.IdAt(g.server, endpoint) < 0 && packet.Connect? then WelcomeReply(g, endpoint, file) else Nothing
  }

  datatype LinkStep =
    // a packet reaches handlePacket
    | Receive(endpoint: R.Endpoint, packet: Packet, file: Option<Archetype>)
    // Server::update with its timeouts, called in the order `left`
    | Pass(dt: nat, left: seq<R.ClientId>)
    // a step of the entities and systems
    | Play(action: Action)
    // the listeners: heartbeats answered, connections accepted and lost
    | Listen(step: R.ServerStep)
    // the console's `disconnectall` and `terminate`
    | DisconnectEveryone
    | Terminate

  predicate IsListening(a: R.ServerStep) {
    a.UdpHeartbeat? || a.TcpHeartbeat? || a.Connection? || a.Disconnections?
  }

  ghost predicate Allowed(g: GameState, a: LinkStep) {
    match a
    case Pass(dt, left) => forall c :: c in left <==> c in R.TimedOut(g.server, dt)
    // client ids are set by handlePacket only
    case Play(a) => !(a.Label? && a.value.AClient?)
    case Listen(step) => IsListening(step)
    case _ => true
  }

  ghost function Next(g: GameState, a: LinkStep): GameState {
    match a
    case Receive(endpoint, packet, file) => OnPacket(g, endpoint, packet, file)
    case Pass(dt, left) => GameState(LeaveAll(g.world, left), R.Updated(g.server, dt))
    case Play(a) => g.(world := Apply(g.world, a))
    case Listen(step) => g.(server := R.Step(g.server, step))
    case DisconnectEveryone => GameState(Purge(g.world), R.DisconnectAll(g.server))
    case Terminate => g.(server := R.Stop(g.server))
  }

  ghost predicate LinkRun(g: GameState, steps: seq<LinkStep>) {
    steps == [] ||
    (LinkRun(g, steps[..|steps| - 1]) && Allowed(After(g, steps[..|steps| - 1]), steps[|steps| - 1]))
  }

  ghost function After(g: GameState, steps: seq<LinkStep>): GameState {
    if steps == [] then g else Next(After(g, steps[..|steps| - 1]), steps[|steps| - 1])
  }

  // ---------- the invariant ----------

  // The client ids entities hold are ids of UDP clients the server knows, and no two entities hold the same one.
  ghost predicate Known(g: GameState) {
    g.server.running ==>
      forall e, c :: Holds(g.world, e, c) && c != R.NO_CLIENT ==>
        c in g.server.clients && g.server.clients[c].protocol == R.Udp
  }

  ghost predicate Apart(w: World) {
    forall e, f, c :: Holds(w, e, c) && Holds(w, f, c) && c != R.NO_CLIENT ==> e == f
  }

  ghost predicate Sane(w: World) {
    Consistent(w) && IsServer(w.systems) && NULL_ID !in w.entities && Apart(w)
  }

  ghost predicate Linked(g: GameState) {
    R.Sound(g.server) && Sane(g.world) && Known(g)
  }

  lemma {:induction false} FirstHolderFinds(w: World, list: seq<EntityId>, c: R.ClientId)
    requires NULL_ID !in list
    ensures var e := FirstHolder(w, list, c);
            if exists f :: f in list && Holds(w, f, c) then e in list && Holds(w, e, c) else e == NULL_ID
  {
    if list != [] {
      assert list == [list[0]] + list[1..];
      FirstHolderFinds(w, list[1..], c);
    }
  }

  lemma ListedExist(w: World, e: EntityId)
    requires Sane(w)
    ensures e in ListOf(w, Network) <==> e in w.entities && BodyOf(w, e).clientId.Some?
  {
    assert Indexes(w.systems[Network], w.entities);
    if e in ListOf(w, Network) {
      DereferenceSafe(w, Network, e, CLIENT);
    }
    if e in w.entities && BodyOf(w, e).clientId.Some? {
      HasIsPresence(BodyOf(w, e), CLIENT);
      HeldWhenEquipped(w, Network, e, {CLIENT});
    }
  }

  // getEntityId finds the player of a client, if there is one.
  lemma EntityOfFinds(w: World, c: R.ClientId)
    requires Sane(w)
    ensures var e := EntityOf(w, c);
            if exists f :: Holds(w, f, c) then e in w.entities && Holds(w, e, c) else e == NULL_ID
  {
    ListedExist(w, NULL_ID);
    FirstHolderFinds(w, ListOf(w, Network), c);
    ListedExist(w, EntityOf(w, c));
    if exists f :: Holds(w, f, c) {
      var f :| Holds(w, f, c);
      ListedExist(w, f);
    }
  }

  // The two lookups of S_Network are inverse to each other.
  lemma LookupsInvert(g: GameState, e: EntityId)
    requires Linked(g) && g.server.running
    requires e in ListOf(g.world, Network) && ClientOf(g.world, e) != R.NO_CLIENT
    ensures EntityOf(g.world, ClientOf(g.world, e)) == e
    ensures ClientOf(g.world, e) in g.server.clients
  {
    ListedExist(g.world, e);
    EntityOfFinds(g.world, ClientOf(g.world, e));
    assert Holds(g.world, e, ClientOf(g.world, e));
  }

  // ---------- leaving ----------

  // clientLeave removes the player of that client and no other entity; without one it changes nothing.
  lemma LeaveRemovesOnly(w: World, c: R.ClientId)
    requires Sane(w) && c != R.NO_CLIENT
    ensures Sane(Leave(w, c))
    ensures forall f :: f in w.entities && !Holds(w, f, c) ==> Leave(w, c).entities[f] == w.entities[f]
    ensures forall f, s :: !Holds(w, f, c) ==> (f in ListOf(Leave(w, c), s) <==> f in ListOf(w, s))
    ensures forall f, d :: Holds(Leave(w, c), f, d) <==> Holds(w, f, d) && d != c
    ensures !(exists f :: Holds(w, f, c)) ==> Leave(w, c) == w
  {
    EntityOfFinds(w, c);
    RemoveEntityConsistent(w, EntityOf(w, c));
    forall f, d
      ensures Holds(Leave(w, c), f, d) <==> Holds(w, f, d) && d != c
    {
      if Holds(w, f, d) {
        assert f in w.entities;
      }
    }
  }

  lemma LeaveLinked(g: GameState, c: R.ClientId)
    requires Linked(g) && c != R.NO_CLIENT
    ensures Linked(g.(world := Leave(g.world, c)))
  {
    LeaveRemovesOnly(g.world, c);
  }

  lemma {:induction false} LeaveAllRemoves(w: World, left: seq<R.ClientId>)
    requires Sane(w) && R.NO_CLIENT !in left
    ensures Sane(LeaveAll(w, left))
    ensures forall f, d :: Holds(LeaveAll(w, left), f, d) <==> Holds(w, f, d) && d !in left
  {
    if left != [] {
      var before, last := left[..|left| - 1], left[|left| - 1];
      assert left == before + [last];
      LeaveAllRemoves(w, before);
      LeaveRemovesOnly(LeaveAll(w, before), last);
    }
  }

  // ---------- playing ----------

  // Client ids of entities only come from handlePacket; steps of the game keep them, or start over with NullID.
  ghost predicate KeepsClient(b: Body, b': Body) {
    b'.clientId == b.clientId || b'.clientId == None || b'.clientId == Some(R.NO_CLIENT)
  }

  lemma TurnKeepsClient(w: World, a: Action, e: EntityId)
    requires a.MoveBody? || a.RunTimer? || a.PlaceArea? || a.CheckWalk?
    ensures BodyOf(Apply(w, a), e).clientId == BodyOf(w, e).clientId
  {
  }

  lemma StrikeKeepsClient(w: World, s: EntityId, r: EntityId, e: EntityId)
    ensures BodyOf(Strike(w, s, r), e).clientId == BodyOf(w, e).clientId
  {
    if Lands(w, s, r) {
      assert BodyOf(Bled(w, s, r), e).clientId == BodyOf(w, e).clientId;
      assert BodyOf(Reeled(Bled(w, s, r), r), e).clientId == BodyOf(w, e).clientId;
    }
  }

  lemma ResolveKeepsClient(w: World, f: EntityId, p: Position, c: Collidable, events: seq<EntityEvent>, e: EntityId)
    ensures BodyOf(Resolve(w, f, p, c, events), e).clientId == BodyOf(w, e).clientId
  {
    var b := BodyOf(w, f).(position := Some(p), collidable := Some(c));
    QueueAllFramed(SetBody(w, f, b), f, events);
  }

  lemma RuleKeepsClient(w: World, a: Action, e: EntityId)
    requires !IsEntityEdit(a) && !(a.Label? && a.value.AClient?)
    ensures BodyOf(Apply(w, a), e).clientId == BodyOf(w, e).clientId
  {
    match a {
      case TakeInput(f) => InputBody(w, f, e);
      case Attack(s, r) => StrikeKeepsClient(w, s, r, e);
      case ResolveMap(f, p, c, events) => ResolveKeepsClient(w, f, p, c, events, e);
      case MoveBody(_, _, _, _) => TurnKeepsClient(w, a, e);
      case RunTimer(_, _) => TurnKeepsClient(w, a, e);
      case PlaceArea(_) => TurnKeepsClient(w, a, e);
      case CheckWalk(_) => TurnKeepsClient(w, a, e);
      case Handle(s, f, event) => EventKeepsClient(w, s, f, event, e);
      case Label(f, c) => LabelKeepsClient(w, f, c, e);
      case _ =>
    }
    hide InputStep, Strike, Resolve, MotionStep, TimerStep, AreaStep, WalkCheck, Deliver, Labelled;
  }

  lemma EventKeepsClient(w: World, s: System, f: EntityId, event: EntityEvent, e: EntityId)
    ensures BodyOf(Deliver(w, s, f, event), e).clientId == BodyOf(w, e).clientId
  {
    hide Steered, Rules.Driven;
  }

  lemma LabelKeepsClient(w: World, f: EntityId, c: Component, e: EntityId)
    requires !c.AClient?
    ensures BodyOf(Labelled(w, f, c), e).clientId == BodyOf(w, e).clientId
  {
  }

  lemma {:induction false} FreshClient(bits: Bitset, n: nat, lines: seq<Component>)
    requires n <= N_COMPONENT_TYPES
    ensures KeepsClient(EMPTY_BODY, ReadParts(FreshParts(EMPTY_BODY, bits, n), lines))
    decreases n, |lines|
  {
    if lines != [] {
      FreshClient(bits, n, lines[..|lines| - 1]);
    } else if n > 0 {
      FreshClient(bits, n - 1, []);
    }
  }

  lemma CreateKeepsClient(w: World, bits: Bitset, id: int, e: EntityId)
    requires Consistent(w)
    ensures KeepsClient(BodyOf(w, e), BodyOf(AddEntity(w, bits, id), e))
    ensures NULL_ID !in w.entities ==> NULL_ID !in AddEntity(w, bits, id).entities
  {
    var f := NewId(w, id);
    if f !in w.entities {
      var counted := if id == NULL_ID then w.idCounter + 1 else w.idCounter;
      var start := w.(entities := w.entities[f := NO_DATA], idCounter := counted);
      EmptyRecordConsistent(w, f, counted);
      AddComponentsConsistent(start, f, bits, N_COMPONENT_TYPES);
      AddComponentsBuild(start, f, bits, N_COMPONENT_TYPES);
      FreshClient(bits, N_COMPONENT_TYPES, []);
      var made := FreshParts(EMPTY_BODY, bits, N_COMPONENT_TYPES);
      assert ReadParts(made, []) == made;
    }
  }

  lemma SpawnKeepsClient(w: World, a: Archetype, e: EntityId)
    requires Consistent(w)
    ensures KeepsClient(BodyOf(w, e), BodyOf(Spawn(w, a), e))
    ensures NULL_ID !in w.entities ==> NULL_ID !in Spawn(w, a).entities
  {
    CreateKeepsClient(w, a.bits, NULL_ID, e);
    if AddedId(w, NULL_ID) != NULL_ID {
      SpawnBuilds(w, a);
      FreshClient(a.bits, N_COMPONENT_TYPES, a.lines);
    }
  }

  lemma StepKeepsClient(w: World, a: Action, e: EntityId)
    requires Consistent(w) && !(a.Label? && a.value.AClient?)
    ensures KeepsClient(BodyOf(w, e), BodyOf(Apply(w, a), e))
  {
    match a {
      case CreateEntity(bits, id) => CreateKeepsClient(w, bits, id, e);
      case SpawnEntity(archetype) => SpawnKeepsClient(w, archetype, e);
      case AttachComponent(_, _) =>
      case DetachComponent(_, _) =>
      case EraseEntity(_) =>
      case PurgeEntities =>
      case _ => RuleKeepsClient(w, a, e);
    }
  }

  lemma StepNoNull(w: World, a: Action)
    requires Consistent(w) && NULL_ID !in w.entities
    ensures NULL_ID !in Apply(w, a).entities
  {
    match a {
      case CreateEntity(bits, id) => CreateKeepsClient(w, bits, id, NULL_ID);
      case SpawnEntity(archetype) => SpawnKeepsClient(w, archetype, NULL_ID);
      case AttachComponent(_, _) =>
      case DetachComponent(_, _) =>
      case EraseEntity(_) =>
      case PurgeEntities =>
      case _ =>
        RuleFramed(w, a);
        SameMasks(w.entities, Apply(w, a).entities);
    }
  }

  lemma PlayLinked(g: GameState, a: Action)
    requires Linked(g) && !(a.Label? && a.value.AClient?)
    ensures Linked(g.(world := Apply(g.world, a)))
  {
    var w, w' := g.world, Apply(g.world, a);
    ServerTable(w.systems);
    ApplyConsistent(w, a);
    SameRequirements(w, a);
    StepNoNull(w, a);
    forall e, c | Holds(w', e, c) && c != R.NO_CLIENT
      ensures Holds(w, e, c)
    {
      StepKeepsClient(w, a, e);
    }
  }

  // ---------- connecting ----------

  lemma WelcomedPresent(b: Body, player: bool, c: R.ClientId, name: string)
    requires player ==> b.clientId.Some?
    ensures Present(Welcomed(b, player, c, name)) == Present(b)
    ensures Welcomed(b, player, c, name).clientId in [b.clientId, Some(c)]
  {
  }

  // The new player is the one entity that holds the new client's id.
  lemma WelcomeLinked(g: GameState, endpoint: R.Endpoint, name: string, file: Option<Archetype>)
    requires Linked(g)
    ensures Linked(Welcome(g, endpoint, name, file))
  {
    hide Linked, Spawn, Welcomed, SetBody, BodyOf;
    var c := R.AddedId(g.server, endpoint);
    if c != R.NO_CLIENT {
      JoinedLinked(g, endpoint);
      if file.Some? && AddedId(g.world, NULL_ID) != NULL_ID {
        SpawnLinked(g, file.value);
        var e, w := AddedId(g.world, NULL_ID), Spawn(g.world, file.value);
        ListedExist(w, e);
        WelcomedPresent(BodyOf(w, e), e in ListOf(w, Network), c, name);
        WelcomeBody(g.(world := w), e, Welcomed(BodyOf(w, e), e in ListOf(w, Network), c, name), endpoint);
      }
    }
  }

  lemma JoinedLinked(g: GameState, endpoint: R.Endpoint)
    requires Linked(g) && R.AddedId(g.server, endpoint) != R.NO_CLIENT
    ensures Linked(GameState(g.world, R.AddClient(g.server, R.Udp, endpoint)))
  {
    R.AddClientSound(g.server, endpoint);
  }

  lemma SpawnLinked(g: GameState, a: Archetype)
    requires Linked(g)
    ensures var w := Spawn(g.world, a); Linked(g.(world := w)) && Sane(w)
  {
    PlayLinked(g, SpawnEntity(a));
  }

  lemma WelcomeBody(g: GameState, e: EntityId, b: Body, endpoint: R.Endpoint)
    requires Linked(g) && g.server.running && !R.Known(g.server, endpoint)
    requires Present(b) == Present(BodyOf(g.world, e))
    requires b.clientId == BodyOf(g.world, e).clientId || b.clientId == Some(g.server.lastId)
    ensures Linked(GameState(SetBody(g.world, e, b), R.AddClient(g.server, R.Udp, endpoint)))
  {
    var w := SetBody(g.world, e, b);
    R.AddClientSound(g.server, endpoint);
    BodyFramed(g.world, e, b);
    FramedConsistent(g.world, w);
    SameMasks(g.world.entities, w.entities);
    forall f, c | Holds(w, f, c) && c != R.NO_CLIENT
      ensures Holds(g.world, f, c) || (f == e && c == g.server.lastId)
    {
    }
  }

  lemma UpdatePlayerLinked(g: GameState, c: R.ClientId, parts: seq<UpdatePart>)
    requires Linked(g)
    ensures Linked(g.(world := UpdatePlayer(g.world, c, parts)))
  {
    var w, w' := g.world, UpdatePlayer(g.world, c, parts);
    assert w'.entities == w.entities && w'.systems == w.systems;
    forall e, d
      ensures Holds(w', e, d) <==> Holds(w, e, d)
    {
    }
  }

  lemma ReceiveLinked(g: GameState, endpoint: R.Endpoint, packet: Packet, file: Option<Archetype>)
    requires Linked(g)
    ensures Linked(OnPacket(g, endpoint, packet, file))
  {
    var c := R.IdAt(g.server, endpoint);
    if c >= 0 {
      match packet {
        case Disconnect => LeaveLinked(g, c);
        case PlayerUpdate(parts) => UpdatePlayerLinked(g, c, parts);
        case _ =>
      }
    } else if packet.Connect? {
      WelcomeLinked(g, endpoint, packet.name, file);
    }
  }

  // ---------- every run ----------

  // When a client times out, its player leaves with it.
  lemma PassLinked(g: GameState, dt: nat, left: seq<R.ClientId>)
    requires Linked(g) && forall c :: c in left <==> c in R.TimedOut(g.server, dt)
    ensures R.NO_CLIENT !in left
    ensures Linked(GameState(LeaveAll(g.world, left), R.Updated(g.server, dt)))
  {
    LeaveAllRemoves(g.world, left);
    R.UpdateSound(g.server, dt);
    if g.server.running {
      var a := R.Advance(g.server, dt);
      forall c | c in g.server.clients && c !in left
        ensures c in R.Updated(g.server, dt).clients
        ensures R.Updated(g.server, dt).clients[c].protocol == g.server.clients[c].protocol
      {
        R.SweptFacts(a.time, a.clients, c);
      }
    }
  }

  lemma ListenLinked(g: GameState, step: R.ServerStep)
    requires Linked(g) && IsListening(step)
    ensures Linked(g.(server := R.Step(g.server, step)))
  {
    R.StepSound(g.server, step);
  }

  lemma NextLinked(g: GameState, a: LinkStep)
    requires Linked(g) && Allowed(g, a)
    ensures Linked(Next(g, a))
  {
    match a {
      case Receive(endpoint, packet, file) => ReceiveLinked(g, endpoint, packet, file);
      case Pass(dt, left) => PassLinked(g, dt, left);
      case Play(action) => PlayLinked(g, action);
      case Listen(step) => ListenLinked(g, step);
      case DisconnectEveryone =>
        R.StepSound(g.server, R.ClearClients);
        PurgeConsistent(g.world);
      case Terminate => R.StepSound(g.server, R.StopServer);
    }
  }

  lemma {:induction false} LinkInEveryRun(g: GameState, steps: seq<LinkStep>)
    requires Linked(g) && LinkRun(g, steps)
    ensures Linked(After(g, steps))
  {
    if steps != [] {
      LinkInEveryRun(g, steps[..|steps| - 1]);
      NextLinked(After(g, steps[..|steps| - 1]), steps[|steps| - 1]);
    }
  }

  // In every run while the server is up: the ids players hold are pairwise distinct ids of known UDP clients, each
  // player is found from its client and its client from it.
  lemma PlayersAndClients(g: GameState, steps: seq<LinkStep>, e: EntityId)
    requires Linked(g) && LinkRun(g, steps) && After(g, steps).server.running
    requires e in ListOf(After(g, steps).world, Network) && ClientOf(After(g, steps).world, e) != R.NO_CLIENT
    ensures var g' := After(g, steps);
            var c := ClientOf(g'.world, e);
            && c in g'.server.clients && g'.server.clients[c].protocol == R.Udp
            && EntityOf(g'.world, c) == e
            && (forall f :: f in ListOf(g'.world, Network) && ClientOf(g'.world, f) == c ==> f == e)
  {
    LinkInEveryRun(g, steps);
    var g' := After(g, steps);
    LookupsInvert(g', e);
    var c := ClientOf(g'.world, e);
    ListedExist(g'.world, e);
    assert Holds(g'.world, e, c);
    forall f | f in ListOf(g'.world, Network) && ClientOf(g'.world, f) == c
      ensures f == e
    {
      ListedExist(g'.world, f);
      assert Holds(g'.world, f, c);
    }
  }

  lemma WelcomeResult(g: GameState, endpoint: R.Endpoint, name: string, file: Archetype)
    requires Linked(g) && g.server.running && !R.Known(g.server, endpoint)
    requires AddedId(g.world, NULL_ID) != NULL_ID && Built(file).clientId.Some?
    ensures var e, w, c := AddedId(g.world, NULL_ID), Spawn(g.world, file), g.server.lastId;
            && e in w.entities
            && Welcome(g, endpoint, name, Some(file)) ==
               GameState(SetBody(w, e, Welcomed(Built(file), true, c, name)), R.AddClient(g.server, R.Udp, endpoint))
  {
    var e, w := AddedId(g.world, NULL_ID), Spawn(g.world, file);
    assert Sane(w) by {
      PlayLinked(g, SpawnEntity(file));
    }
    SpawnBuilds(g.world, file);
    ListedExist(w, e);
  }

  // A successful Connect links the endpoint, the new client and the new player, and puts the player at the start.
  lemma ConnectLinks(g: GameState, endpoint: R.Endpoint, name: string, file: Archetype)
    requires Linked(g) && g.server.running && !R.Known(g.server, endpoint)
    requires AddedId(g.world, NULL_ID) != NULL_ID && Built(file).clientId.Some?
    ensures var g', e := OnPacket(g, endpoint, Connect(name), Some(file)), AddedId(g.world, NULL_ID);
            && R.IdAt(g'.server, endpoint) == g.server.lastId
            && EntityOf(g'.world, g.server.lastId) == e
            && BodyOf(g'.world, e) == Welcomed(Built(file), true, g.server.lastId, name)
            && ReplyTo(g, endpoint, Connect(name), Some(file)) ==
               if Built(file).position.Some? then Greeted(g.server.lastId, e, SPAWN_POINT) else Nothing
  {
    SpawnBuilds(g.world, file);
    hide Spawn, Welcome, EntityOf;
    var g', e := OnPacket(g, endpoint, Connect(name), Some(file)), AddedId(g.world, NULL_ID);
    WelcomeLinked(g, endpoint, name, Some(file));
    WelcomeResult(g, endpoint, name, file);
    assert g'.server.clients[g.server.lastId].endpoint == endpoint;
    assert Holds(g'.world, e, g.server.lastId);
    EntityOfFinds(g'.world, g.server.lastId);
  }

  // A Disconnect packet removes the player but not the client: until the client times out, Connect packets from its
  // endpoint are ignored.
  lemma DisconnectedCannotReturn(g: GameState, endpoint: R.Endpoint, name: string, file: Option<Archetype>)
    requires Linked(g) && g.server.running && R.Known(g.server, endpoint)
    ensures var g' := OnPacket(g, endpoint, Disconnect, None);
            && g'.server == g.server
            && EntityOf(g'.world, R.IdAt(g.server, endpoint)) == NULL_ID
            && OnPacket(g', endpoint, Connect(name), file) == g'
  {
    var c := R.IdAt(g.server, endpoint);
    LeaveRemovesOnly(g.world, c);
    EntityOfFinds(Leave(g.world, c), c);
  }
}
