/** No rule changes a mask, the presence of a component, a system's list or the id counter. */
module Frames {
  import opened Components
  import opened Ecs
  import opened EcsIndex
  import opened Rules

  lemma BodyFramed(w: World, e: EntityId, b: Body)
    requires Present(b) == Present(BodyOf(w, e))
    ensures Framed(w, SetBody(w, e, b))
  {
  }

  lemma ChangeFramed(w: World, e: EntityId, next: EntityState, force: bool)
    ensures Framed(w, ChangeState(w, e, next, force))
  {
  }

  lemma MoveFramed(w: World, e: EntityId, d: Direction)
    ensures Framed(w, OnMove(w, e, d))
  {
    ChangeFramed(Queue(w, e, MovingEvent(d)), e, Walking, false);
  }

  lemma HurtFramed(w: World, e: EntityId)
    ensures Framed(w, OnHurt(w, e))
  {
  }

  lemma AttackFramed(w: World, e: EntityId)
    ensures Framed(w, OnAttack(w, e))
  {
    ChangeFramed(Queue(w, e, BeganAttacking), e, Attacking, false);
  }

  lemma InputFramed(w: World, e: EntityId)
    ensures Framed(w, InputStep(w, e))
  {
    hide OnMove, OnAttack, MasksMatch;
    var p := InputOf(w, e);
    var w1 := w.(input := w.input[e := p]);
    MoveFramed(w1, e, if p.movedX > 0 then Right else Left);
    var w2 := MoveX(w1, e, p.movedX);
    MoveFramed(w2, e, if p.movedY > 0 then Down else Up);
    AttackFramed(MoveY(w2, e, p.movedY), e);
    assert Framed(w, w1) by {
      SameMasksFramed(w, w1);
    }
  }

  lemma SameMasksFramed(w: World, w': World)
    requires w'.entities == w.entities && w'.systems == w.systems && w'.idCounter == w.idCounter
    ensures Framed(w, w')
  {
  }

  lemma AreaFramed(w: World, e: EntityId)
    ensures Framed(w, AreaStep(w, e))
  {
  }

  lemma BledFramed(w: World, s: EntityId, r: EntityId)
    requires Lands(w, s, r)
    ensures Framed(w, Bled(w, s, r))
  {
    var b := BodyOf(w, r);
    var b' := b.(health := Some(Wounded(b.health.value)));
    BodyFramed(w, r, b');
    var bled := SetBody(w, r, b');
    BodyFramed(bled, s, BodyOf(bled, s).(attacker := Some(BodyOf(w, s).attacker.value.(attacked := true))));
  }

  lemma ReeledFramed(w: World, r: EntityId)
    ensures Framed(w, Reeled(w, r))
  {
    ChangeFramed(w, r, Dying, true);
    HurtFramed(w, r);
  }

  lemma KnockedFramed(w: World, s: EntityId, r: EntityId)
    ensures Framed(w, Knocked(w, s, r))
  {
  }

  lemma StrikeFramed(w: World, s: EntityId, r: EntityId)
    ensures Framed(w, Strike(w, s, r))
  {
    hide Bled, Reeled, Knocked, Lands;
    if Lands(w, s, r) {
      BledFramed(w, s, r);
      ReeledFramed(Bled(w, s, r), r);
      KnockedFramed(Reeled(Bled(w, s, r), r), s, r);
    }
  }

  lemma SamePresence(b: Body, c: Body)
    requires b.position.Some? <==> c.position.Some?
    requires b.state.Some? <==> c.state.Some?
    requires b.health.Some? <==> c.health.Some?
    requires b.attacker.Some? <==> c.attacker.Some?
    requires b.movable == c.movable && b.controller == c.controller && b.collidable == c.collidable
    requires b.clientId == c.clientId && b.name == c.name
    ensures Present(b) == Present(c)
  {
  }

  lemma TickedPresent(b: Body, dt: nat, player: bool)
    ensures Present(Ticked(b, dt, player)) == Present(b)
  {
    SamePresence(Ticked(b, dt, player), b);
  }

  lemma TimerFramed(w: World, e: EntityId, dt: nat)
    ensures Framed(w, TimerStep(w, e, dt))
  {
    var b' := Ticked(BodyOf(w, e), dt, e in ListOf(w, Network));
    TickedPresent(BodyOf(w, e), dt, e in ListOf(w, Network));
    BodyFramed(w, e, b');
  }

  lemma MotionFramed(w: World, e: EntityId, coefficient: Vec, dt: nat, magnitude: real)
    ensures Framed(w, MotionStep(w, e, coefficient, dt, magnitude))
  {
  }

  lemma DeliverFramed(w: World, s: System, e: EntityId, event: EntityEvent)
    ensures Framed(w, Deliver(w, s, e, event))
  {
    var b := BodyOf(w, e);
    if b.movable.Some? {
      BodyFramed(w, e, b.(movable := Some(Steered(b.movable.value, event))));
      BodyFramed(w, e, b.(movable := Some(Driven(b.movable.value, event))));
    }
    ChangeFramed(w, e, Idle, false);
  }

  lemma {:induction false} QueueAllFramed(w: World, e: EntityId, events: seq<EntityEvent>)
    ensures Framed(w, QueueAll(w, e, events)) && QueueAll(w, e, events).entities == w.entities
    ensures QueueAll(w, e, events).log == w.log && QueueAll(w, e, events).input == w.input
  {
    if events != [] {
      QueueAllFramed(w, e, events[..|events| - 1]);
    }
  }

  lemma ResolveFramed(w: World, e: EntityId, p: Position, c: Collidable, events: seq<EntityEvent>)
    ensures Framed(w, Resolve(w, e, p, c, events))
  {
    var b := BodyOf(w, e);
    if b.position.Some? && b.collidable.Some? {
      var b' := b.(position := Some(p), collidable := Some(c));
      BodyFramed(w, e, b');
      QueueAllFramed(SetBody(w, e, b'), e, events);
    }
  }

  // ---------- what the rules log, and what they queue ----------

  lemma ChangeQuiet(w: World, e: EntityId, next: EntityState, force: bool)
    ensures var w' := ChangeState(w, e, next, force); w'.log == w.log && w'.events == w.events
  {
  }

  lemma MoveLog(w: World, e: EntityId, d: Direction)
    ensures OnMove(w, e, d).log == w.log && OnAttack(w, e).log == w.log
  {
  }

  lemma InputLog(w: World, e: EntityId)
    ensures InputStep(w, e).log == w.log
  {
    hide OnMove, OnAttack;
    var p := InputOf(w, e);
    var w1 := w.(input := w.input[e := p]);
    var w2 := MoveX(w1, e, p.movedX);
    MoveLog(w1, e, if p.movedX > 0 then Right else Left);
    MoveLog(w2, e, if p.movedY > 0 then Down else Up);
    MoveLog(MoveY(w2, e, p.movedY), e, Up);
  }

  // Input changes nothing of an entity but its state.
  lemma MoveChangesState(w: World, f: EntityId, d: Direction, e: EntityId)
    ensures BodyOf(OnMove(w, f, d), e).(state := None) == BodyOf(w, e).(state := None)
    ensures BodyOf(OnAttack(w, f), e).(state := None) == BodyOf(w, e).(state := None)
  {
  }

  lemma InputBody(w: World, f: EntityId, e: EntityId)
    ensures BodyOf(InputStep(w, f), e).(state := None) == BodyOf(w, e).(state := None)
  {
    hide OnMove, OnAttack;
    var p := InputOf(w, f);
    var w1 := w.(input := w.input[f := p]);
    var w2 := MoveX(w1, f, p.movedX);
    MoveChangesState(w1, f, if p.movedX > 0 then Right else Left, e);
    MoveChangesState(w2, f, if p.movedY > 0 then Down else Up, e);
    MoveChangesState(MoveY(w2, f, p.movedY), f, Up, e);
  }

  lemma BledQuiet(w: World, s: EntityId, r: EntityId)
    requires Lands(w, s, r)
    ensures Bled(w, s, r).log == w.log && Bled(w, s, r).events == w.events
  {
  }

  lemma ReeledQuiet(w: World, r: EntityId)
    ensures Reeled(w, r).log == w.log && Reeled(w, r).events == w.events
  {
    hide ChangeState;
    ChangeQuiet(w, r, Dying, true);
    ChangeQuiet(w, r, Hurt, false);
  }

  lemma KnockedQuiet(w: World, s: EntityId, r: EntityId)
    ensures Knocked(w, s, r).log == w.log && Knocked(w, s, r).events == w.events
  {
  }

  lemma StrikeQuiet(w: World, s: EntityId, r: EntityId)
    ensures Strike(w, s, r).log == w.log + [Struck(s, r)] && Strike(w, s, r).events == w.events
  {
    hide Bled, Reeled, Knocked, Lands;
    if Lands(w, s, r) {
      BledQuiet(w, s, r);
      ReeledQuiet(Bled(w, s, r), r);
      KnockedQuiet(Reeled(Bled(w, s, r), r), s, r);
    }
  }
}
