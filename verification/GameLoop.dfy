/** The systems' update loops, handleEvents and SystemManager::update, each with the run of Machine.dfy it takes. */
module GameLoop {
  import opened Components
  import opened Ecs
  import opened EcsIndex
  import opened EntityObjects
  import opened Frames
  import opened Geometry
  import opened Rules
  import opened Machine
  import opened Motion
  import opened Lifecycle
  import opened Strikes
  import opened Tiles
  import opened MapObjects
  import opened Game
  import opened Turns

  // Writing one component after the other comes to writing the last body.
  lemma Rewritten(w: World, e: EntityId, b: Body, c: Body)
    requires e in w.entities
    ensures SetBody(SetBody(w, e, b), e, c) == SetBody(w, e, c)
    ensures BodyOf(SetBody(w, e, b), e) == b && e in SetBody(w, e, b).entities
    ensures ListOf(SetBody(w, e, b), Network) == ListOf(w, Network)
  {
  }

  ghost predicate IsSquareRoot(sqrt: real -> real) {
    forall x: real :: x >= 0.0 ==> sqrt(x) >= 0.0 && sqrt(x) * sqrt(x) == x
  }

  // The magnitude movementStep takes.
  function Length(v: Vec, sqrt: real -> real): real {
    sqrt(v.x * v.x + v.y * v.y)
  }

  lemma LengthIsMagnitude(v: Vec, sqrt: real -> real)
    requires IsSquareRoot(sqrt)
    ensures IsMagnitude(v, Length(v, sqrt))
  {
    assert v.x * v.x + v.y * v.y >= 0.0;
  }

  // The velocity movementStep leaves: whatever the old one, within the limit.
  method StepVelocity(v: Vec, push: Vec, friction: Vec, limit: real, sqrt: real -> real) returns (v': Vec)
    requires IsSquareRoot(sqrt)
    ensures v' == Stepped(v, push, friction, limit, Length(Unclamped(v, push, friction, limit), sqrt))
    ensures WithinDisc(v', limit)
  {
    hide AddVelocity, ApplyFriction, Length, WithinDisc, IsSquareRoot;
    var added := AddVelocity(v, push, limit);
    v' := ApplyFriction(added, friction);
    ghost var u := v';
    LengthIsMagnitude(u, sqrt);
    var length := Length(v', sqrt);
    if length > limit && length != 0.0 {
      v' := Vec((v'.x / length) * limit, (v'.y / length) * limit);
    }
    StepBounded(v, push, friction, limit, length, u);
  }

  // movementStep, after the tile friction is known.
  method StepMovable(m: Movable, coefficient: Vec, dt: real, sqrt: real -> real) returns (m': Movable)
    requires IsSquareRoot(sqrt)
    ensures m' == MovementStep(m, coefficient, dt, Length(Undamped(m, coefficient, dt), sqrt))
    ensures WithinDisc(m'.velocity, m.maxVelocity)
  {
    hide Unclamped, Stepped, Push, Friction, WithinDisc;
    var v := StepVelocity(m.velocity, Push(m, dt), Friction(m, coefficient, dt), m.maxVelocity, sqrt);
    m' := m.(velocity := v, acceleration := ZERO);
  }

  // The velocity before the clamp.
  function Undamped(m: Movable, coefficient: Vec, dt: real): Vec {
    Unclamped(m.velocity, Push(m, dt), Friction(m, coefficient, dt), m.maxVelocity)
  }

  class Loop {
    const g: GameSystems
    const em: EntityManager

    ghost predicate Valid()
      reads em`entities, em`idCounter, em`log
      reads em.sm`order, em.sm`systems, em.sm.systems.Values`members, em.sm`events, em.sm`input
    {
      g.em == em && g.Valid()
    }

    constructor (g: GameSystems)
      requires g.Valid()
      ensures Valid() && this.g == g
    {
      this.g, this.em := g, g.em;
    }

    // ---------- S_Timers ----------

    // The Hurt and Dying branch of S_Timers::update.
    method HealthTimer(e: EntityId, dt: nat)
      requires Valid() && BodyOf(em.World(), e).health.Some?
      requires InState(em.World(), e, Hurt) || InState(em.World(), e, Dying)
      modifies em`entities, em`log, em.sm`events
      ensures Valid()
      ensures var w := old(em.World());
              em.World() == SetBody(w, e, HealthTicked(BodyOf(w, e), dt, e in ListOf(w, Network)))
    {
      hide EntityManager.World, EntityManager.Valid, SetBody;
      ghost var w, b := em.World(), BodyOf(em.World(), e);
      var state := em.GetComponent(e, STATE);
      var c := em.GetComponent(e, HEALTH);
      var h := c.value.health;
      var waited := h.timer + dt;
      g.Store(e, AHealth(h.(timer := waited)));
      ghost var b1 := b.(health := Some(h.(timer := waited)));
      assert em.World() == SetBody(w, e, b1);
      Rewritten(w, e, b1, b1);
      if (state.value.state == Hurt && waited < h.hurtDuration) ||
         (state.value.state == Dying && waited < h.deathDuration) {
        return;
      }
      g.Store(e, AHealth(h.(timer := 0)));
      ghost var b2 := b.(health := Some(h.(timer := 0)));
      Rewritten(w, e, b1, b2);
      assert em.World() == SetBody(w, e, b2);
      Rewritten(w, e, b2, b2);
      if state.value.state == Dying {
        Revive(e, h.(timer := 0));
        Rewritten(w, e, b2, Revived(b, h, e in ListOf(w, Network)));
      } else {
        g.SwitchTo(e, Idle, true);
        Rewritten(w, e, b2, Changed(b2, Idle, true));
      }
    }

    // The end of a death.
    method Revive(e: EntityId, h: Health)
      requires Valid() && InState(em.World(), e, Dying) && BodyOf(em.World(), e).health == Some(h) && h.timer == 0
      modifies em`entities, em`log, em.sm`events
      ensures Valid()
      ensures var w := old(em.World());
              em.World() == SetBody(w, e, Revived(BodyOf(w, e), h, e in ListOf(w, Network)))
    {
      hide EntityManager.World, EntityManager.Valid;
      ghost var w, b := em.World(), BodyOf(em.World(), e);
      g.Store(e, AHealth(h.(points := h.maxPoints)));
      ghost var b1 := b.(health := Some(h.(points := h.maxPoints)));
      assert em.World() == SetBody(w, e, b1);
      Rewritten(w, e, b1, b1);
      g.Dispatch(Respawns(e));
      ghost var b2 := if e in ListOf(w, Network) then Respawned(b1) else b1;
      Rewritten(w, e, b1, b2);
      assert em.World() == SetBody(w, e, b2);
      Rewritten(w, e, b2, Changed(b2, Idle, true));
      g.SwitchTo(e, Idle, true);
    }

    // The Attacking branch.
    method AttackTimer(e: EntityId, dt: nat)
      requires Valid() && BodyOf(em.World(), e).attacker.Some? && InState(em.World(), e, Attacking)
      modifies em`entities, em`log, em.sm`events
      ensures Valid()
      ensures em.World() == SetBody(old(em.World()), e, AttackTicked(BodyOf(old(em.World()), e), dt))
    {
      hide EntityManager.World, EntityManager.Valid;
      ghost var w, b := em.World(), BodyOf(em.World(), e);
      var c := em.GetComponent(e, ATTACKER);
      var a := c.value.attacker;
      var waited := a.timer + dt;
      g.Store(e, AnAttacker(a.(timer := waited)));
      ghost var b1 := b.(attacker := Some(a.(timer := waited)));
      assert em.World() == SetBody(w, e, b1);
      Rewritten(w, e, b1, b1);
      if waited < a.attackDuration {
        return;
      }
      g.Store(e, AnAttacker(a.(timer := 0, attacked := false)));
      ghost var b2 := b.(attacker := Some(a.(timer := 0, attacked := false)));
      Rewritten(w, e, b1, b2);
      assert em.World() == SetBody(w, e, b2);
      Rewritten(w, e, b2, Changed(b2, Idle, true));
      g.SwitchTo(e, Idle, true);
    }

    // S_Timers::update for one entity.
    method TimerTurn(e: EntityId, dt: nat)
      requires Valid() && e in ListOf(em.World(), Timers)
      requires InState(em.World(), e, Attacking) ==> BodyOf(em.World(), e).attacker.Some?
      modifies em`entities, em`log, em.sm`events
      ensures Valid() && em.World() == TimerStep(old(em.World()), e, dt)
    {
      hide EntityManager.World, EntityManager.Valid;
      ghost var w := em.World();
      assert EquippedFor(Timers, BodyOf(w, e));
      SetSame(em.World(), e);
      var state := em.GetComponent(e, STATE);
      if state.value.state == Hurt || state.value.state == Dying {
        HealthTimer(e, dt);
      } else if state.value.state == Attacking {
        AttackTimer(e, dt);
      }
      g.Note(Timed(e, dt));
    }

    method TimersUpdate(dt: nat)
      requires Valid() && Consistent(em.World()) && IsServer(em.World().systems) && Living(em.World())
      modifies em`entities, em`log, em.sm`events
      ensures Valid()
      ensures em.World() == Run(old(em.World()), TimerRuns(ListOf(old(em.World()), Timers), dt))
      ensures em.World().log == old(em.World()).log + LogOf(TimerRuns(ListOf(old(em.World()), Timers), dt))
    {
      hide EntityManager.World, EntityManager.Valid;
      hide Run, TimerRuns, TimerStep, Living, Consistent, IsServer;
      ghost var w := em.World();
      var list := em.Members(Timers);
      NoRuns(w, dt);
      assert list[..0] == [];
      for i := 0 to |list|
        invariant Valid()
        invariant em.World() == Run(w, TimerRuns(list[..i], dt))
      {
        TimersReady(w, list, i, dt);
        NextTimer(w, list, i, dt);
        TimerTurn(list[i], dt);
      }
      assert list[..|list|] == list;
      LogFollowsRun(w, TimerRuns(list, dt));
    }

    // ---------- S_Network ----------

    // S_Network::update for one entity.
    method InputTurn(e: EntityId)
      requires Valid()
      modifies em`entities, em`log, em.sm`events, em.sm`input
      ensures Valid() && em.World() == InputStep(old(em.World()), e)
    {
      hide EntityManager.World, EntityManager.Valid;
      var p := g.InputFor(e);
      if p.movedX != 0 || p.movedY != 0 {
        if p.movedX != 0 {
          g.Dispatch(Move(e, if p.movedX > 0 then Right else Left));
        }
        if p.movedY != 0 {
          g.Dispatch(Move(e, if p.movedY > 0 then Down else Up));
        }
      }
      if p.attacking {
        g.Dispatch(Attacks(e));
      }
    }

    method NetworkUpdate()
      requires Valid()
      modifies em`entities, em`log, em.sm`events, em.sm`input
      ensures Valid()
      ensures em.World() == Run(old(em.World()), InputRuns(ListOf(old(em.World()), Network)))
    {
      hide EntityManager.World, EntityManager.Valid, Run, InputRuns, InputStep;
      ghost var w := em.World();
      var list := em.Members(Network);
      NoRuns(w, 0);
      assert list[..0] == [];
      for i := 0 to |list|
        invariant Valid()
        invariant em.World() == Run(w, InputRuns(list[..i]))
      {
        NextInput(w, list, i);
        InputTurn(list[i]);
      }
      assert list[..|list|] == list;
    }

    // ---------- S_State and S_Combat ----------

    // S_State::update for one entity.
    method WalkTurn(e: EntityId)
      requires Valid() && e in ListOf(em.World(), StateMachine)
      modifies em`entities, em`log, em.sm`events
      ensures Valid() && em.World() == WalkCheck(old(em.World()), e)
      ensures ListOf(em.World(), StateMachine) == ListOf(old(em.World()), StateMachine)
    {
      hide EntityManager.World, EntityManager.Valid;
      assert EquippedFor(StateMachine, BodyOf(em.World(), e));
      var state := em.GetComponent(e, STATE);
      if state.value.state == Walking {
        g.Dispatch(IsMoving(e));
      }
    }

    method StateUpdate()
      requires Valid()
      modifies em`entities, em`log, em.sm`events
      ensures Valid()
      ensures em.World() == Run(old(em.World()), WalkRuns(ListOf(old(em.World()), StateMachine)))
    {
      hide EntityManager.World, EntityManager.Valid, Run, WalkRuns, WalkCheck;
      ghost var w := em.World();
      var list := em.Members(StateMachine);
      NoRuns(w, 0);
      assert list[..0] == [];
      for i := 0 to |list|
        invariant Valid() && ListOf(em.World(), StateMachine) == list
        invariant em.World() == Run(w, WalkRuns(list[..i]))
      {
        NextWalk(w, list, i);
        WalkTurn(list[i]);
      }
      assert list[..|list|] == list;
    }

    // S_Combat::update for one entity.
    method AreaTurn(e: EntityId)
      requires Valid() && e in ListOf(em.World(), Combat)
      modifies em`entities
      ensures Valid() && em.World() == AreaStep(old(em.World()), e)
      ensures ListOf(em.World(), Combat) == ListOf(old(em.World()), Combat)
    {
      hide EntityManager.World, EntityManager.Valid;
      assert EquippedFor(Combat, BodyOf(em.World(), e));
      var attacker := em.GetComponent(e, ATTACKER);
      if attacker.None? {
        return;
      }
      var a := attacker.value.attacker;
      var offset := a.offset;
      var pos := em.GetComponent(e, POSITION);
      var mov := em.GetComponent(e, MOVABLE);
      var d := mov.value.movable.direction;
      if d == Left {
        offset := Vec(offset.x - a.area.width / 2.0, offset.y);
      } else if d == Right {
        offset := Vec(offset.x + a.area.width / 2.0, offset.y);
      } else if d == Up {
        offset := Vec(offset.x, offset.y - a.area.height / 2.0);
      } else {
        offset := Vec(offset.x, offset.y + a.area.height / 2.0);
      }
      var at := pos.value.position.at;
      var corner := Vec(at.x - a.area.width / 2.0 + offset.x, at.y - a.area.height / 2.0 + offset.y);
      assert a.(area := Rect(corner.x, corner.y, a.area.width, a.area.height)) == Aimed(a, at, d);
      hide Aimed, Shifted;
      g.Store(e, AnAttacker(a.(area := Rect(corner.x, corner.y, a.area.width, a.area.height))));
    }

    method CombatUpdate()
      requires Valid()
      modifies em`entities
      ensures Valid()
      ensures em.World() == Run(old(em.World()), AreaRuns(ListOf(old(em.World()), Combat)))
    {
      hide EntityManager.World, EntityManager.Valid, Run, AreaRuns, AreaStep;
      ghost var w := em.World();
      var list := em.Members(Combat);
      NoRuns(w, 0);
      assert list[..0] == [];
      for i := 0 to |list|
        invariant Valid() && ListOf(em.World(), Combat) == list
        invariant em.World() == Run(w, AreaRuns(list[..i]))
      {
        NextArea(w, list, i);
        AreaTurn(list[i]);
      }
      assert list[..|list|] == list;
    }

    // ---------- S_Movement ----------

    // S_Movement::update for one entity; sqrt is the square root.
    method MotionTurn(e: EntityId, dt: nat, tileMap: GameMap, sqrt: real -> real) returns (ghost a: Action)
      requires Valid() && e in ListOf(em.World(), Movement)
      requires IsSquareRoot(sqrt)
      modifies em`entities
      ensures Valid() && IsMotion(tileMap.State(), old(em.World()), e, dt, a)
      ensures em.World() == Apply(old(em.World()), a)
      ensures ListOf(em.World(), Movement) == ListOf(old(em.World()), Movement)
    {
      hide EntityManager.World, EntityManager.Valid, Unclamped, IsMagnitude, MovementStep;
      assert EquippedFor(Movement, BodyOf(em.World(), e));
      var mov := em.GetComponent(e, MOVABLE);
      var pos := em.GetComponent(e, POSITION);
      var m, p := mov.value.movable, pos.value.position;
      var coefficient := tileMap.GetTileFriction(p.elevation, FloorTile(p.at.x), FloorTile(p.at.y));
      var moved := StepMovable(m, coefficient, dt as real, sqrt);
      LengthIsMagnitude(Undamped(m, coefficient, dt as real), sqrt);
      a := MoveBody(e, coefficient, dt, Length(Undamped(m, coefficient, dt as real), sqrt));
      Advance(e, p, moved);
    }

    // The velocity and the place a step comes to.
    method Advance(e: EntityId, p: Position, moved: Movable)
      requires Valid() && e in ListOf(em.World(), Movement)
      modifies em`entities
      ensures Valid()
      ensures var w, b := old(em.World()), BodyOf(old(em.World()), e);
              && b.position.Some? && b.movable.Some?
              && em.World() ==
                 SetBody(w, e, b.(movable := Some(moved),
                                  position := Some(Position(Plus(p.at, moved.velocity), p.at, p.elevation))))
    {
      hide EntityManager.World, EntityManager.Valid;
      ghost var w := em.World();
      assert EquippedFor(Movement, BodyOf(w, e));
      g.Store(e, AMovable(moved));
      ghost var b := BodyOf(w, e).(movable := Some(moved));
      assert em.World() == SetBody(w, e, b);
      Rewritten(w, e, b, b);
      var p' := Position(Plus(p.at, moved.velocity), p.at, p.elevation);
      g.Store(e, APosition(p'));
      Rewritten(w, e, b, b.(position := Some(p')));
    }

    method MovementUpdate(dt: nat, tileMap: GameMap, sqrt: real -> real) returns (ghost trace: seq<Action>)
      requires Valid()
      requires IsSquareRoot(sqrt)
      modifies em`entities
      ensures Valid() && Motions(tileMap.State(), old(em.World()), ListOf(old(em.World()), Movement), dt, trace)
      ensures em.World() == Run(old(em.World()), trace)
    {
      hide EntityManager.World, EntityManager.Valid, IsMotion;
      ghost var w := em.World();
      var list := em.Members(Movement);
      trace := [];
      for i := 0 to |list|
        invariant Valid() && ListOf(em.World(), Movement) == list
        invariant Motions(tileMap.State(), w, list[..i], dt, trace)
        invariant em.World() == Run(w, trace)
      {
        ghost var a := MotionTurn(list[i], dt, tileMap, sqrt);
        assert list[..i + 1][..i] == list[..i];
        assert (trace + [a])[..i] == trace;
        RunStep(w, trace, a);
        trace := trace + [a];
      }
      assert list[..|list|] == list;
    }

    // ---------- S_Collision ----------

    // The map part of S_Collision::update for one entity.
    method MapTurn(e: EntityId, tileMap: GameMap) returns (ghost a: Action)
      requires Valid() && e in ListOf(em.World(), Collision)
      modifies em`entities, em.sm`events
      ensures Valid() && IsMapTurn(tileMap.State(), old(em.World()), e, a)
      ensures em.World() == Apply(old(em.World()), a)
    {
      hide EntityManager.World, EntityManager.Valid, Bounded, IsMapPass, IsMapTurn;
      hide Apply, QueueAll, SetBody;
      assert EquippedFor(Collision, BodyOf(em.World(), e));
      ghost var w := em.World();
      var pos := em.GetComponent(e, POSITION);
      var col := em.GetComponent(e, COLLIDABLE);
      var p, k := pos.value.position, col.value.collidable.(onX := false, onY := false);
      p, k := tileMap.CheckOutOfBounds(p, k);
      ghost var start := (p, k);
      var events;
      p, k, events := tileMap.MapCollisions(p, k);
      a := ResolveMap(e, p, k, events);
      MapTurnIs(tileMap.State(), w, a, start);
      Confine(e, p, k);
      QueueEvents(e, events);
    }

    // The position and the box a map turn comes to.
    method Confine(e: EntityId, p: Position, k: Collidable)
      requires Valid() && e in ListOf(em.World(), Collision)
      modifies em`entities
      ensures Valid()
      ensures var w, b := old(em.World()), BodyOf(old(em.World()), e);
              && b.position.Some? && b.collidable.Some?
              && em.World() == SetBody(w, e, b.(position := Some(p), collidable := Some(k)))
    {
      hide EntityManager.World, EntityManager.Valid;
      ghost var w := em.World();
      assert EquippedFor(Collision, BodyOf(w, e));
      g.Store(e, APosition(p));
      ghost var b := BodyOf(w, e).(position := Some(p));
      assert em.World() == SetBody(w, e, b);
      Rewritten(w, e, b, b);
      g.Store(e, ACollidable(k));
      Rewritten(w, e, b, b.(collidable := Some(k)));
    }

    method QueueEvents(e: EntityId, events: seq<EntityEvent>)
      requires Valid()
      modifies em.sm`events
      ensures Valid() && em.World() == QueueAll(old(em.World()), e, events)
    {
      hide EntityManager.World, EntityManager.Valid;
      ghost var w := em.World();
      for i := 0 to |events|
        invariant Valid() && em.World() == QueueAll(w, e, events[..i])
      {
        assert events[..i + 1][..i] == events[..i];
        g.QueueEvent(e, events[i]);
      }
      assert events[..|events|] == events;
    }

    // One direction of a pair: s attacks r if it has an attacker whose area is over r's box.
    method PairAttack(s: EntityId, r: EntityId, ghost w: World, ghost pairs: seq<Strikes.Message>)
      requires Valid() && s in ListOf(em.World(), Collision) && r in ListOf(em.World(), Collision)
      requires em.World() == Run(w, Strikes.Attacks(Reported(w, pairs)))
      modifies em`entities, em`log, em.sm`events
      ensures Valid() && em.World() == Run(w, Strikes.Attacks(Reported(w, pairs + [(s, r)])))
      ensures em.World().log == old(em.World()).log + if Reaches(old(em.World()), s, r) then [Struck(s, r)] else []
      ensures ListOf(em.World(), Collision) == ListOf(old(em.World()), Collision)
    {
      hide EntityManager.World, EntityManager.Valid, Intersects, Run, Strike, Reported, Strikes.Attacks;
      OneMoreReport(w, pairs, s, r);
      StrikeQuiet(em.World(), s, r);
      assert EquippedFor(Collision, BodyOf(em.World(), r));
      var col := em.GetComponent(r, COLLIDABLE);
      var attacker := em.GetComponent(s, ATTACKER);
      if attacker.Some? && Intersects(attacker.value.attacker.area, col.value.collidable.box) {
        g.Dispatch(BeingAttacked(s, r));
      }
    }

    // The body of the inner loop.
    method PairTurn(e: EntityId, f: EntityId, ghost w: World, ghost pairs: seq<Strikes.Message>)
      requires Valid() && e in ListOf(em.World(), Collision) && f in ListOf(em.World(), Collision)
      requires em.World() == Run(w, Strikes.Attacks(Reported(w, pairs)))
      modifies em`entities, em`log, em.sm`events
      ensures Valid() && em.World() == Run(w, Strikes.Attacks(Reported(w, pairs + [(e, f), (f, e)])))
      ensures ListOf(em.World(), Collision) == ListOf(old(em.World()), Collision)
    {
      hide EntityManager.World, EntityManager.Valid, Reported, Run, Strikes.Attacks;
      assert pairs + [(e, f)] + [(f, e)] == pairs + [(e, f), (f, e)];
      PairAttack(e, f, w, pairs);
      PairAttack(f, e, w, pairs + [(e, f)]);
    }

    // The inner loop for row i.
    method RowTurn(list: seq<EntityId>, i: nat, ghost w: World)
      requires Valid() && list == ListOf(em.World(), Collision) && i < |list|
      requires em.World() == Run(w, Strikes.Attacks(Reported(w, PassPairs(list, i))))
      modifies em`entities, em`log, em.sm`events
      ensures Valid() && list == ListOf(em.World(), Collision)
      ensures em.World() == Run(w, Strikes.Attacks(Reported(w, PassPairs(list, i + 1))))
    {
      hide EntityManager.World, EntityManager.Valid, Reported, Run, Strikes.Attacks;
      assert PassPairs(list, i) + RowPairs(list, i, i + 1) == PassPairs(list, i);
      for j := i + 1 to |list|
        invariant Valid() && ListOf(em.World(), Collision) == list
        invariant em.World() == Run(w, Strikes.Attacks(Reported(w, PassPairs(list, i) + RowPairs(list, i, j))))
      {
        ghost var pairs := PassPairs(list, i) + RowPairs(list, i, j);
        PairTurn(list[i], list[j], w, pairs);
        assert PassPairs(list, i) + RowPairs(list, i, j + 1) == pairs + [(list[i], list[j]), (list[j], list[i])];
      }
    }

    // entityCollisions.
    method EntityCollisions()
      requires Valid()
      modifies em`entities, em`log, em.sm`events
      ensures Valid()
      ensures em.World() ==
              Run(old(em.World()), Strikes.Attacks(PassMessages(old(em.World()), ListOf(old(em.World()), Collision))))
      ensures em.World().log == old(em.World()).log +
              LogOf(Strikes.Attacks(PassMessages(old(em.World()), ListOf(old(em.World()), Collision))))
    {
      hide EntityManager.World, EntityManager.Valid, Apply, LogOf, RowPairs;
      ghost var w := em.World();
      var list := em.Members(Collision);
      for i := 0 to |list|
        invariant Valid() && ListOf(em.World(), Collision) == list
        invariant em.World() == Run(w, Strikes.Attacks(Reported(w, PassPairs(list, i))))
      {
        RowTurn(list, i, w);
      }
      LogFollowsRun(w, Strikes.Attacks(PassMessages(w, list)));
    }
  }

  lemma StillReaches(w: World, reported: seq<Strikes.Message>, s: EntityId, r: EntityId)
    ensures var w' := Run(w, Strikes.Attacks(reported));
            && (Reaches(w', s, r) <==> Reaches(w, s, r))
            && Strike(w', s, r).systems == w'.systems
  {
    GroundFixesReports(w, reported);
    StrikeKeepsGround(Run(w, Strikes.Attacks(reported)), s, r);
  }

  lemma OneMoreMessage(w: World, reported: seq<Strikes.Message>, s: EntityId, r: EntityId)
    ensures Run(w, Strikes.Attacks(reported + [(s, r)])) == Strike(Run(w, Strikes.Attacks(reported)), s, r)
  {
    assert Strikes.Attacks(reported + [(s, r)]) == Strikes.Attacks(reported) + [Attack(s, r)] by {
      assert (reported + [(s, r)])[..|reported|] == reported;
    }
    RunStep(w, Strikes.Attacks(reported), Attack(s, r));
  }

  lemma OneMorePair(w: World, pairs: seq<Strikes.Message>, s: EntityId, r: EntityId)
    ensures Reported(w, pairs + [(s, r)]) == Reported(w, pairs) + if Reaches(w, s, r) then [(s, r)] else []
  {
    assert (pairs + [(s, r)])[..|pairs|] == pairs;
  }

  // The strikes of a pass change neither the lists nor the areas and boxes, so one more pair is one more strike if
  // the attacker reaches the victim now.
  lemma OneMoreReport(w: World, pairs: seq<Strikes.Message>, s: EntityId, r: EntityId)
    ensures var w' := Run(w, Strikes.Attacks(Reported(w, pairs)));
            && Run(w, Strikes.Attacks(Reported(w, pairs + [(s, r)]))) ==
               (if Reaches(w', s, r) then Strike(w', s, r) else w')
            && Strike(w', s, r).systems == w'.systems
  {
    hide Apply, Run, Strike, Reported, Strikes.Attacks, Reaches;
    var reported := Reported(w, pairs);
    StillReaches(w, reported, s, r);
    OneMorePair(w, pairs, s, r);
    OneMoreMessage(w, reported, s, r);
    assert reported + [] == reported;
  }

  // a is the turn of e in S_Movement: the friction of the tile below it and the square root of its speed.
  ghost predicate IsMotion(s: MapState, w: World, e: EntityId, dt: nat, a: Action) {
    && a.MoveBody? && a.entity == e && a.dt == dt
    && BodyOf(w, e).movable.Some? && BodyOf(w, e).position.Some?
    && a.coefficient == FrictionUnder(s, BodyOf(w, e).position.value)
    && var m := BodyOf(w, e).movable.value;
       IsMagnitude(Unclamped(m.velocity, Push(m, dt as real), Friction(m, a.coefficient, dt as real), m.maxVelocity),
                   a.magnitude)
  }

  // A turn in S_Movement displaces the entity by at most its maximal velocity in Euclidean norm, whatever velocity,
  // acceleration, tile and frame time it comes with; by exactly that much when the clamp applies.
  lemma TurnDisplaces(s: MapState, w: World, e: EntityId, dt: nat, a: Action)
    requires IsMotion(s, w, e, dt, a)
    ensures var limit, b' := BodyOf(w, e).movable.value.maxVelocity, BodyOf(Apply(w, a), e);
            && b'.position.Some?
            && var p, p' := BodyOf(w, e).position.value, b'.position.value;
               var moved := Vec(p'.at.x - p.at.x, p'.at.y - p.at.y);
               && p'.previous == p.at && p'.elevation == p.elevation
               && WithinDisc(moved, limit) && (a.magnitude > limit && a.magnitude != 0.0 ==> OnCircle(moved, limit))
  {
    var m := BodyOf(w, e).movable.value;
    var push, friction := Push(m, dt as real), Friction(m, a.coefficient, dt as real);
    hide Unclamped, Push, Friction, FrictionUnder;
    var u := Unclamped(m.velocity, push, friction, m.maxVelocity);
    StepBounded(m.velocity, push, friction, m.maxVelocity, a.magnitude, u);
  }

  ghost predicate Motions(s: MapState, w: World, list: seq<EntityId>, dt: nat, trace: seq<Action>) {
    && |trace| == |list|
    && (list == [] ||
        (var before := trace[..|trace| - 1];
         && Motions(s, w, list[..|list| - 1], dt, before)
         && IsMotion(s, Run(w, before), list[|list| - 1], dt, trace[|trace| - 1])))
  }

  // The event a resolved tile queues stops the entity on the axis it was moved on and leaves the other axis alone.
  lemma CollisionStopsAxis(p: Position, k: Collidable, bounds: Rect, m: Movable)
    ensures var r := ResolveTile(p, k, bounds);
            var m' := Steered(m, r.event);
            && (r.position.at.x != p.at.x ==> m'.velocity == Vec(0.0, m.velocity.y) && r.position.at.y == p.at.y)
            && (r.position.at.y != p.at.y ==> m'.velocity == Vec(m.velocity.x, 0.0) && r.position.at.x == p.at.x)
            && m'.(velocity := m.velocity) == m
  {
  }

  lemma MapTurnIs(s: MapState, w: World, a: Action, start: (Position, Collidable))
    requires a.ResolveMap? && BodyOf(w, a.entity).position.Some? && BodyOf(w, a.entity).collidable.Some?
    requires start == Bounded(BodyOf(w, a.entity).position.value,
                              BodyOf(w, a.entity).collidable.value.(onX := false, onY := false), s.width, s.height)
    requires IsMapPass(s, start.0, start.1, (a.position, a.box, a.events))
    ensures IsMapTurn(s, w, a.entity, a)
    ensures var moved := BodyOf(w, a.entity).(position := Some(a.position), collidable := Some(a.box));
            Apply(w, a) == QueueAll(SetBody(w, a.entity, moved), a.entity, a.events)
  {
  }

  // a is the map turn of e: flags cleared, position confined, collisions resolved largest first.
  ghost predicate IsMapTurn(s: MapState, w: World, e: EntityId, a: Action) {
    && a.ResolveMap? && a.entity == e
    && BodyOf(w, e).position.Some? && BodyOf(w, e).collidable.Some?
    && var start := Bounded(BodyOf(w, e).position.value, BodyOf(w, e).collidable.value.(onX := false, onY := false),
                            s.width, s.height);
       IsMapPass(s, start.0, start.1, (a.position, a.box, a.events))
  }
}
