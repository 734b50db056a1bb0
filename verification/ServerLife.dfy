/** Links and lives together, over every run of the whole server: packets, timeouts, ticks and disconnections. */
module ServerLife {
  import opened Components
  import opened Ecs
  import opened EcsIndex
  import opened Machine
  import opened Lifecycle
  import opened Link
  import R = Registry

  predicate SoundFile(file: Option<Archetype>) {
    file.Some? ==> SoundArchetype(file.value)
  }

  lemma LeaveLiving(w: World, c: R.ClientId)
    requires Living(w)
    ensures Living(Leave(w, c))
  {
    hide Fine, EntityOf, RemoveEntity;
    forall f
      ensures Fine(Leave(w, c), f)
    {
      assert Fine(w, f);
      EraseFine(w, EntityOf(w, c), f);
    }
  }

  lemma {:induction false} LeaveAllLiving(w: World, left: seq<R.ClientId>)
    requires Living(w)
    ensures Living(LeaveAll(w, left))
  {
    hide Living, Leave;
    if left != [] {
      LeaveAllLiving(w, left[..|left| - 1]);
      LeaveLiving(LeaveAll(w, left[..|left| - 1]), left[|left| - 1]);
    }
  }

  lemma SameBodiesLiving(w: World, w': World)
    requires Living(w) && w'.entities == w.entities
    ensures Living(w')
  {
    forall f
      ensures Fine(w', f)
    {
      assert Fine(w, f);
    }
  }

  lemma SetBodyLiving(w: World, e: EntityId, b: Body)
    requires Living(w) && SameLife(BodyOf(w, e), b)
    ensures Living(SetBody(w, e, b))
  {
    hide Fine, SameLife, SetBody;
    forall f
      ensures Fine(SetBody(w, e, b), f)
    {
      assert Fine(w, f);
      SameLifeFine(w, e, b, f);
    }
  }

  lemma WelcomedLife(b: Body, player: bool, c: R.ClientId, name: string)
    requires player ==> b.clientId.Some?
    ensures SameLife(b, Welcomed(b, player, c, name))
  {
  }

  // A new player from a sound file is as healthy as everyone else.
  lemma WelcomeLiving(g: GameState, endpoint: R.Endpoint, name: string, file: Option<Archetype>)
    requires Linked(g) && Living(g.world) && SoundFile(file)
    ensures Living(Welcome(g, endpoint, name, file).world)
  {
    hide Living, Linked, SoundArchetype, Spawn, SetBody, Welcomed;
    var c, e := R.AddedId(g.server, endpoint), AddedId(g.world, NULL_ID);
    if c != R.NO_CLIENT && file.Some? && e != NULL_ID {
      var w := Spawn(g.world, file.value);
      LinkedSane(g);
      SpawnLiving(g.world, file.value);
      SpawnSane(g, file.value);
      ListedExist(w, e);
      WelcomedLife(BodyOf(w, e), e in ListOf(w, Network), c, name);
      SetBodyLiving(w, e, Welcomed(BodyOf(w, e), e in ListOf(w, Network), c, name));
    }
  }

  lemma LinkedSane(g: GameState)
    requires Linked(g)
    ensures Sane(g.world) && Consistent(g.world) && IsServer(g.world.systems)
  {
  }

  lemma SpawnSane(g: GameState, a: Archetype)
    requires Linked(g)
    ensures Sane(Spawn(g.world, a))
  {
    PlayLinked(g, SpawnEntity(a));
    LinkedSane(g.(world := Apply(g.world, SpawnEntity(a))));
  }

  lemma PacketLiving(g: GameState, endpoint: R.Endpoint, packet: Packet, file: Option<Archetype>)
    requires Linked(g) && Living(g.world) && SoundFile(file)
    ensures Living(OnPacket(g, endpoint, packet, file).world)
  {
    hide Living, Linked, Leave, Welcome, R.IdAt;
    var c := R.IdAt(g.server, endpoint);
    if c >= 0 {
      LeaveLiving(g.world, c);
      if packet.PlayerUpdate? {
        SameBodiesLiving(g.world, UpdatePlayer(g.world, c, packet.parts));
      }
    } else if packet.Connect? {
      WelcomeLiving(g, endpoint, packet.name, file);
    }
  }

  lemma PurgeLiving(w: World)
    ensures Living(Purge(w))
  {
    forall f {
      PurgeFine(w, f);
    }
  }

  // A step of the game gets one more step.
  lemma PlayLiving(w: World, a: Action)
    requires Consistent(w) && IsServer(w.systems) && Living(w) && GameStep(w, a)
    ensures Living(Apply(w, a))
  {
    hide Fine, Apply, GameStep, Consistent, IsServer;
    forall f
      ensures Fine(Apply(w, a), f)
    {
      StepFine(w, a, f);
    }
  }

  // Players come from sound files, and the entities and systems take steps of the game.
  ghost predicate SoundStep(g: GameState, a: LinkStep) {
    && Allowed(g, a)
    && match a
       case Receive(_, _, file) => SoundFile(file)
       case Play(action) => GameStep(g.world, action)
       case _ => true
  }

  ghost predicate SoundRun(g: GameState, steps: seq<LinkStep>) {
    steps == [] ||
    (SoundRun(g, steps[..|steps| - 1]) && SoundStep(After(g, steps[..|steps| - 1]), steps[|steps| - 1]))
  }

  lemma NextHealthy(g: GameState, a: LinkStep)
    requires Linked(g) && Living(g.world) && SoundStep(g, a)
    ensures Linked(Next(g, a)) && Living(Next(g, a).world)
  {
    NextLinked(g, a);
    LinkedSane(g);
    hide Living, Linked, OnPacket, LeaveAll, Apply, Purge, GameStep, SoundFile, Consistent, IsServer;
    match a {
      case Receive(endpoint, packet, file) => PacketLiving(g, endpoint, packet, file);
      case Pass(_, left) => LeaveAllLiving(g.world, left);
      case Play(action) => PlayLiving(g.world, action);
      case DisconnectEveryone => PurgeLiving(g.world);
      case _ =>
    }
  }

  // In every run of the whole server, in any order of its steps: players hold distinct ids of clients the server knows,
  // each system's list is an index over the masks, and health is in range and gone exactly while dying.
  lemma {:induction false} HealthyInEveryRun(g: GameState, steps: seq<LinkStep>)
    requires Linked(g) && Living(g.world) && SoundRun(g, steps)
    ensures Linked(After(g, steps)) && Living(After(g, steps).world)
  {
    hide Linked, Living, Next, SoundStep;
    if steps != [] {
      HealthyInEveryRun(g, steps[..|steps| - 1]);
      NextHealthy(After(g, steps[..|steps| - 1]), steps[|steps| - 1]);
    }
  }

  // ---------- a run of the entities and systems is a run of the server ----------

  function Plays(actions: seq<Action>): seq<LinkStep> {
    if actions == [] then [] else Plays(actions[..|actions| - 1]) + [Play(actions[|actions| - 1])]
  }

  lemma {:induction false} PlaysAreRun(g: GameState, actions: seq<Action>)
    requires GameRun(g.world, actions) && forall a :: a in actions ==> !a.Label?
    ensures After(g, Plays(actions)) == g.(world := Run(g.world, actions)) && SoundRun(g, Plays(actions))
  {
    hide GameStep, Apply;
    if actions == [] {
      assert g.(world := g.world) == g;
    } else {
      var before, last := actions[..|actions| - 1], actions[|actions| - 1];
      assert actions == before + [last];
      PlaysAreRun(g, before);
      assert Plays(actions)[..|Plays(before)|] == Plays(before);
    }
  }

  lemma {:induction false} SoundConcat(g: GameState, a: seq<LinkStep>, b: seq<LinkStep>)
    requires SoundRun(g, a) && SoundRun(After(g, a), b)
    ensures SoundRun(g, a + b) && After(g, a + b) == After(After(g, a), b)
  {
    hide SoundStep, Next;
    if b == [] {
      assert a + b == a;
    } else {
      assert (a + b)[..|a + b| - 1] == a + b[..|b| - 1];
      SoundConcat(g, a, b[..|b| - 1]);
    }
  }
}
