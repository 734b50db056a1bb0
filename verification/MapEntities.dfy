/** The ENTITY lines of src/server/Map.cpp's loadMap; they touch the entities only, the other lines the tiles only. */
module MapEntities {
  import opened Components
  import opened Ecs
  import opened EntityObjects
  import opened Machine
  import opened Lifecycle
  import opened Link

  // The entity file the line names, if it could be read, and the place the line gives.
  datatype EntityLine = EntityLine(file: Option<Archetype>, place: Position)

  function Placed(w: World, e: EntityId, place: Position): World {
    var b := BodyOf(w, e);
    if b.position.None? then w else Labelled(w, e, ReadIn(APosition(b.position.value), APosition(place)))
  }

  function LoadEntity(w: World, line: EntityLine): World {
    if line.file.None? || AddedId(w, NULL_ID) == NULL_ID then w
    else Placed(Spawn(w, line.file.value), AddedId(w, NULL_ID), line.place)
  }

  function LoadEntities(w: World, lines: seq<EntityLine>): World {
    if lines == [] then w else LoadEntity(LoadEntities(w, lines[..|lines| - 1]), lines[|lines| - 1])
  }

  predicate SoundLines(lines: seq<EntityLine>) {
    forall line :: line in lines && line.file.Some? ==> SoundArchetype(line.file.value)
  }

  lemma EntityLineHealthy(g: GameState, line: EntityLine)
    requires Linked(g) && Living(g.world) && SoundLines([line])
    ensures var w := LoadEntity(g.world, line); Linked(g.(world := w)) && Living(w)
  {
    var e := AddedId(g.world, NULL_ID);
    if line.file.Some? && e != NULL_ID {
      hide Linked, Living, Spawn, Placed;
      var w := Spawn(g.world, line.file.value);
      assert line in [line];
      PlayLinked(g, SpawnEntity(line.file.value));
      LinkedIsConsistent(g);
      SpawnLiving(g.world, line.file.value);
      PlaceHealthy(g.(world := w), e, line.place);
    }
  }

  lemma LinkedIsConsistent(g: GameState)
    requires Linked(g)
    ensures Consistent(g.world)
  {
  }

  lemma PlaceHealthy(g: GameState, e: EntityId, place: Position)
    requires Linked(g) && Living(g.world)
    ensures var w := Placed(g.world, e, place); Linked(g.(world := w)) && Living(w)
  {
    var w := Placed(g.world, e, place);
    if BodyOf(g.world, e).position.Some? {
      var c := ReadIn(APosition(BodyOf(g.world, e).position.value), APosition(place));
      hide Linked, Labelled, Fine;
      PlayLinked(g, Label(e, c));
      forall f
        ensures Fine(w, f)
      {
        assert Fine(g.world, f);
        LabelFine(g.world, e, c, f);
      }
    }
  }

  // Whatever entities the map brings, if their files are sound, links and lives are in order.
  lemma {:induction false} EntitiesHealthy(g: GameState, lines: seq<EntityLine>)
    requires Linked(g) && Living(g.world) && SoundLines(lines)
    ensures var w := LoadEntities(g.world, lines); Linked(g.(world := w)) && Living(w)
  {
    if lines == [] {
      assert g.(world := g.world) == g;
    } else {
      var before, line := lines[..|lines| - 1], lines[|lines| - 1];
      assert lines == before + [line];
      EntitiesHealthy(g, before);
      EntityLineHealthy(g.(world := LoadEntities(g.world, before)), line);
    }
  }

  // One ENTITY line: an entity from the file, and its position if it has one.
  method ReadEntity(em: EntityManager, line: EntityLine)
    requires em.Valid()
    modifies em, em.sm`events, em.sm.systems.Values
    ensures em.Valid() && em.World() == LoadEntity(old(em.World()), line)
  {
    hide EntityManager.World, EntityManager.Valid;
    var e := em.AddEntityFromFile(line.file);
    if e == NULL_ID {
      return;
    }
    var position := em.GetComponent(e, POSITION);
    if position.Some? {
      em.WriteComponent(e, ReadIn(position.value, APosition(line.place)));
    }
  }

  method ReadEntities(em: EntityManager, lines: seq<EntityLine>)
    requires em.Valid()
    modifies em, em.sm`events, em.sm.systems.Values
    ensures em.Valid() && em.World() == LoadEntities(old(em.World()), lines)
  {
    hide EntityManager.World, EntityManager.Valid, LoadEntity;
    ghost var w := em.World();
    for i := 0 to |lines|
      invariant em.Valid() && em.World() == LoadEntities(w, lines[..i])
      invariant em.sm.systems == old(em.sm.systems)
    {
      assert lines[..i + 1][..i] == lines[..i];
      ReadEntity(em, lines[i]);
    }
    assert lines[..|lines|] == lines;
  }
}
