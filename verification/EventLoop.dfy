/** SystemManager::handleEvents and the systems' handleEvent, proved to make exactly the deliveries of Drain.dfy. */
module EventLoop {
  import opened Collections
  import opened Components
  import opened Ecs
  import opened EntityObjects
  import opened Rules
  import opened Machine
  import opened Motion
  import opened Drain
  import opened Game

  // ---------- the deliveries depend on the systems' lists only ----------

  lemma {:induction false} SameEventHandlers(w: World, w': World, order: seq<System>, e: EntityId, event: EntityEvent)
    requires w.systems == w'.systems
    ensures EventHandlers(w, order, e, event) == EventHandlers(w', order, e, event)
  {
    if order != [] {
      SameEventHandlers(w, w', order[..|order| - 1], e, event);
    }
  }

  // Handlers run the same whatever is queued.
  lemma {:induction false} HandlersIgnoreQueues(w: World, actions: seq<Action>, events: EventQueues)
    requires forall a :: a in actions ==> a.Handle?
    ensures Run(w.(events := events), actions) == Run(w, actions).(events := events)
  {
    if actions != [] {
      var before, last := actions[..|actions| - 1], actions[|actions| - 1];
      assert actions == before + [last];
      HandlersIgnoreQueues(w, before, events);
      HandlerIgnoresQueues(Run(w, before), last.system, last.entity, last.event, events);
    }
  }

  // One more system gets the event if it holds the entity.
  lemma OneMoreHandler(w: World, order: seq<System>, i: nat, e: EntityId, event: EntityEvent)
    requires i < |order|
    ensures var before := Run(w, EventHandlers(w, order[..i], e, event));
            && before.systems == w.systems
            && Run(w, EventHandlers(w, order[..i + 1], e, event)) ==
               if e in ListOf(w, order[i]) then Deliver(before, order[i], e, event) else before
  {
    var actions := EventHandlers(w, order[..i], e, event);
    assert order[..i + 1][..i] == order[..i];
    assert actions + [] == actions;
    OnlyOneEvent(w, order[..i], e, event);
    HandlersKeepQueues(w, actions);
    RunStep(w, actions, Handle(order[i], e, event));
  }

  // The world when the first k events of e's queue are handled; the rest is still queued.
  ghost function Partly(w: World, order: seq<System>, e: EntityId, k: nat): World
    requires k <= |EventsOf(w, e)|
  {
    var queue := EventsOf(w, e);
    Run(w.(events := w.events[e := []]), QueueDeliveries(w, order, e, queue[..k]))
      .(events := w.events[e := queue[k..]])
  }

  // The same with the next event taken off the queue but not yet handled.
  ghost function Popped(w: World, order: seq<System>, e: EntityId, k: nat): World
    requires k < |EventsOf(w, e)|
  {
    Partly(w, order, e, k).(events := w.events[e := EventsOf(w, e)[k + 1..]])
  }

  lemma PopPartly(w: World, order: seq<System>, e: EntityId, k: nat)
    requires k <= |EventsOf(w, e)|
    ensures var queue, w' := EventsOf(w, e), Partly(w, order, e, k);
            && (EventsOf(w', e) == [] <==> k == |queue|)
            && (k < |queue| ==>
                && EventsOf(w', e)[0] == queue[k]
                && w'.(events := w'.events[e := EventsOf(w', e)[1..]]) == Popped(w, order, e, k))
  {
  }

  // Popping one more event and handling it.
  lemma OneMoreEvent(w: World, order: seq<System>, e: EntityId, k: nat)
    requires k < |EventsOf(w, e)|
    ensures var popped := Popped(w, order, e, k);
            Run(popped, EventHandlers(popped, order, e, EventsOf(w, e)[k])) == Partly(w, order, e, k + 1)
  {
    var queue := EventsOf(w, e);
    var start := w.(events := w.events[e := []]);
    var popped := Popped(w, order, e, k);
    var first, next := QueueDeliveries(w, order, e, queue[..k]), EventHandlers(w, order, e, queue[k]);
    assert queue[..k + 1][..k] == queue[..k];
    OnlyHandlers(w, order, e, queue[..k]);
    OnlyOneEvent(w, order, e, queue[k]);
    HandlersKeepQueues(start, first);
    RunConcat(start, first, next);
    HandlersIgnoreQueues(Run(start, first), next, w.events[e := queue[k + 1..]]);
    SameEventHandlers(popped, w, order, e, queue[k]);
  }

  lemma PartlyStarts(w: World, order: seq<System>, e: EntityId)
    requires e in w.events
    ensures Partly(w, order, e, 0) == w
  {
  }

  lemma PartlyEnds(w: World, order: seq<System>, e: EntityId)
    ensures Partly(w, order, e, |EventsOf(w, e)|) ==
            Run(Apply(w, TakeQueue(e)), QueueDeliveries(w, order, e, EventsOf(w, e)))
  {
    var queue := EventsOf(w, e);
    assert queue[..|queue|] == queue && queue[|queue|..] == [];
    OnlyHandlers(w, order, e, queue);
    HandlersKeepQueues(Apply(w, TakeQueue(e)), QueueDeliveries(w, order, e, queue));
  }

  lemma {:induction false} SameQueueDeliveries(w: World, w': World, order: seq<System>, e: EntityId,
                                               events: seq<EntityEvent>)
    requires w.systems == w'.systems
    ensures QueueDeliveries(w, order, e, events) == QueueDeliveries(w', order, e, events)
  {
    if events != [] {
      SameQueueDeliveries(w, w', order, e, events[..|events| - 1]);
      SameEventHandlers(w, w', order, e, events[|events| - 1]);
    }
  }

  // Draining one more queue.
  lemma OneMoreDrained(w: World, order: seq<System>, keys: seq<EntityId>, e: EntityId)
    requires e !in keys
    ensures var w' := Run(w, Deliveries(w, order, keys));
            Run(Apply(w', TakeQueue(e)), QueueDeliveries(w', order, e, EventsOf(w', e))) ==
            Run(w, Deliveries(w, order, keys + [e]))
  {
    var w' := Run(w, Deliveries(w, order, keys));
    QueuesEmptied(w, order, keys);
    SameQueueDeliveries(w, w', order, e, EventsOf(w, e));
    RunDeliveries(w, order, keys, e);
  }

  lemma {:induction false} SameEventKeys(w: World, order: seq<System>, keys: seq<EntityId>)
    requires forall e :: e in keys ==> e in w.events
    ensures forall f :: f in Run(w, Deliveries(w, order, keys)).events <==> f in w.events
  {
    if keys == [] {
      assert Deliveries(w, order, keys) == [];
    } else {
      var before, e := keys[..|keys| - 1], keys[|keys| - 1];
      assert keys == before + [e];
      SameEventKeys(w, order, before);
      DrainedKeys(w, order, before, e);
    }
  }

  class EventHandling {
    const g: GameSystems
    const em: EntityManager

    ghost predicate Valid()
      reads em`entities, em`idCounter, em`log
      reads em.sm`order, em.sm`systems, em.sm.systems.Values`members, em.sm`events, em.sm`input
    {
      g.em == em && g.Valid()
    }

    constructor (g: GameSystems)
      requires g.Valid()
      ensures Valid() && this.g == g
    {
      this.g, this.em := g, g.em;
    }

    // S_Movement::handleEvent.
    method HandleMovement(e: EntityId, event: EntityEvent)
      requires Valid() && e in ListOf(em.World(), Movement)
      modifies em`entities, em`log
      ensures Valid() && em.World() == Deliver(old(em.World()), Movement, e, event)
    {
      hide EntityManager.World, EntityManager.Valid;
      assert EquippedFor(Movement, BodyOf(em.World(), e));
      SetSame(em.World(), e);
      var mov := em.GetComponent(e, MOVABLE);
      var m := mov.value.movable;
      match event {
        case CollidingX => g.Store(e, AMovable(m.(velocity := Vec(0.0, m.velocity.y))));
        case CollidingY => g.Store(e, AMovable(m.(velocity := Vec(m.velocity.x, 0.0))));
        case MovingLeft => g.Store(e, AMovable(m.(direction := Left)));
        case MovingRight => g.Store(e, AMovable(m.(direction := Right)));
        case MovingUp =>
          if m.velocity.x == 0.0 {
            g.Store(e, AMovable(m.(direction := Up)));
          }
        case MovingDown =>
          if m.velocity.x == 0.0 {
            g.Store(e, AMovable(m.(direction := Down)));
          }
        case _ =>
      }
      g.Note(Handled(Movement, e, event));
    }

    // S_Control::handleEvent.
    method HandleControl(e: EntityId, event: EntityEvent)
      requires Valid() && e in ListOf(em.World(), Control)
      modifies em`entities, em`log
      ensures Valid() && em.World() == Deliver(old(em.World()), Control, e, event)
    {
      hide EntityManager.World, EntityManager.Valid;
      assert EquippedFor(Control, BodyOf(em.World(), e));
      SetSame(em.World(), e);
      var mov := em.GetComponent(e, MOVABLE);
      var m := mov.value.movable;
      match event {
        case MovingLeft => g.Store(e, AMovable(Accelerated(m, Left)));
        case MovingRight => g.Store(e, AMovable(Accelerated(m, Right)));
        case MovingUp => g.Store(e, AMovable(Accelerated(m, Up)));
        case MovingDown => g.Store(e, AMovable(Accelerated(m, Down)));
        case _ =>
      }
      g.Note(Handled(Control, e, event));
    }

    // S_State::handleEvent.
    method HandleState(e: EntityId, event: EntityEvent)
      requires Valid() && e in ListOf(em.World(), StateMachine)
      modifies em`entities, em`log, em.sm`events
      ensures Valid() && em.World() == Deliver(old(em.World()), StateMachine, e, event)
    {
      hide EntityManager.World, EntityManager.Valid;
      if event == BecameIdle {
        assert EquippedFor(StateMachine, BodyOf(em.World(), e));
        g.SwitchTo(e, Idle, false);
      }
      g.Note(Handled(StateMachine, e, event));
    }

    method HandleEvent(s: System, e: EntityId, event: EntityEvent)
      requires Valid() && e in ListOf(em.World(), s)
      modifies em`entities, em`log, em.sm`events
      ensures Valid() && em.World() == Deliver(old(em.World()), s, e, event)
    {
      hide EntityManager.World, EntityManager.Valid;
      match s {
        case Movement => HandleMovement(e, event);
        case Control => HandleControl(e, event);
        case StateMachine => HandleState(e, event);
        case _ => g.Note(Handled(s, e, event));
      }
    }

    // The inner loop of handleEvents: one event, every system that holds the entity.
    method HandOut(order: seq<System>, e: EntityId, event: EntityEvent)
      requires Valid()
      modifies em`entities, em`log, em.sm`events
      ensures Valid()
      ensures em.World() == Run(old(em.World()), EventHandlers(old(em.World()), order, e, event))
      ensures em.World().log == old(em.World()).log + LogOf(EventHandlers(old(em.World()), order, e, event))
    {
      hide EntityManager.World, EntityManager.Valid, GameSystems.Valid, Deliver;
      ghost var w := em.World();
      for i := 0 to |order|
        invariant Valid()
        invariant em.World() == Run(w, EventHandlers(w, order[..i], e, event))
      {
        OneMoreHandler(w, order, i, e, event);
        var has := HasEntity(order[i], e);
        if has {
          HandleEvent(order[i], e, event);
        }
      }
      assert order[..|order|] == order;
      LogFollowsRun(w, EventHandlers(w, order, e, event));
    }

    method HasEntity(s: System, e: EntityId) returns (has: bool)
      requires Valid()
      ensures has <==> e in ListOf(em.World(), s)
    {
      has := em.SystemHas(s, e);
    }

    // What the outer loop of handleEvents goes over.
    method Begin() returns (order: seq<System>, queues: set<EntityId>)
      requires Valid()
      ensures order == em.sm.order
      ensures DistinctSystems(order) && forall s :: s in order <==> s in em.World().systems
      ensures queues == em.World().events.Keys
    {
      order := em.Order();
      queues := em.EventKeys();
    }

    // The middle loop: one queue until it is empty.
    method DrainQueue(order: seq<System>, e: EntityId)
      requires Valid() && e in em.World().events
      modifies em`entities, em`log, em.sm`events
      ensures Valid()
      ensures var w := old(em.World());
              em.World() == Run(Apply(w, TakeQueue(e)), QueueDeliveries(w, order, e, EventsOf(w, e)))
      ensures em.World().log == old(em.World()).log +
              LogOf(QueueDeliveries(old(em.World()), order, e, EventsOf(old(em.World()), e)))
    {
      hide EntityManager.World, EntityManager.Valid, GameSystems.Valid, Partly, Popped, EventHandlers, LogOf;
      ghost var w := em.World();
      ghost var queue := EventsOf(w, e);
      ghost var k: nat := 0;
      PartlyStarts(w, order, e);
      PopPartly(w, order, e, 0);
      var event := g.PopEvent(e);
      while event.Some?
        invariant Valid() && k <= |queue|
        invariant if event.None? then k == |queue| && em.World() == Partly(w, order, e, k)
                  else k < |queue| && event == Some(queue[k]) && em.World() == Popped(w, order, e, k)
        decreases event.Some?, |queue| - k
      {
        OneMoreEvent(w, order, e, k);
        HandOut(order, e, event.value);
        k := k + 1;
        PopPartly(w, order, e, k);
        event := g.PopEvent(e);
      }
      PartlyEnds(w, order, e);
      LogFollowsRun(Apply(w, TakeQueue(e)), QueueDeliveries(w, order, e, queue));
    }

    // handleEvents. `keys` is the order in which the hash map yields the queues.
    method HandleEvents() returns (ghost order: seq<System>, ghost keys: seq<EntityId>)
      requires Valid()
      modifies em`entities, em`log, em.sm`events
      ensures Valid()
      ensures order == em.sm.order
      ensures DistinctSystems(order) && forall s :: s in order <==> s in old(em.World()).systems
      ensures NoDuplicates(keys) && forall e :: e in keys <==> e in old(em.World()).events
      ensures em.World() == Run(old(em.World()), Deliveries(old(em.World()), order, keys))
      ensures em.World().log == old(em.World()).log + LogOf(Deliveries(old(em.World()), order, keys))
    {
      hide EntityManager.World, EntityManager.Valid, GameSystems.Valid;
      ghost var w := em.World();
      var systems, rest := Begin();
      order, keys := systems, [];
      while rest != {}
        invariant Valid() && order == systems
        invariant NoDuplicates(keys) && (forall e :: e in w.events <==> e in rest || e in keys)
        invariant forall e :: e in keys ==> e !in rest
        invariant em.World() == Run(w, Deliveries(w, order, keys))
        decreases |rest|
      {
        var e := AnyOf(rest);
        SameEventKeys(w, order, keys);
        OneMoreDrained(w, order, keys, e);
        DrainQueue(systems, e);
        rest, keys := rest - {e}, keys + [e];
      }
      LogFollowsRun(w, Deliveries(w, order, keys));
    }
  }
}
