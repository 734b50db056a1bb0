/** SystemManager::handleEvents: what reaches whom, in which order, and that it ends. */
module Drain {
  import opened Components
  import opened Ecs
  import opened Rules
  import opened Machine

  // What one system is handed.
  function Handed(w: World, s: System, e: EntityId, event: EntityEvent): seq<Action> {
    if e in ListOf(w, s) then [Handle(s, e, event)] else []
  }

  // One event goes to each system that holds the entity, in the systems' iteration order.
  function EventHandlers(w: World, order: seq<System>, e: EntityId, event: EntityEvent): seq<Action> {
    if order == [] then []
    else
      var s := order[|order| - 1];
      EventHandlers(w, order[..|order| - 1], e, event) + Handed(w, s, e, event)
  }

  // A queue, first event first.
  function QueueDeliveries(w: World, order: seq<System>, e: EntityId, events: seq<EntityEvent>): seq<Action> {
    if events == [] then []
    else
      QueueDeliveries(w, order, e, events[..|events| - 1]) + EventHandlers(w, order, e, events[|events| - 1])
  }

  // All queues, in the iteration order `keys` of the queues; read off before any event is handled.
  function Deliveries(w: World, order: seq<System>, keys: seq<EntityId>): seq<Action> {
    if keys == [] then []
    else
      var e := keys[|keys| - 1];
      Deliveries(w, order, keys[..|keys| - 1]) + [TakeQueue(e)] + QueueDeliveries(w, order, e, EventsOf(w, e))
  }

  // What system s receives for entity e.
  function Received(actions: seq<Action>, s: System, e: EntityId): seq<EntityEvent> {
    if actions == [] then []
    else
      var a := actions[|actions| - 1];
      Received(actions[..|actions| - 1], s, e) +
      if a.Handle? && a.system == s && a.entity == e then [a.event] else []
  }

  lemma {:induction false} ReceivedConcat(a: seq<Action>, b: seq<Action>, s: System, e: EntityId)
    ensures Received(a + b, s, e) == Received(a, s, e) + Received(b, s, e)
  {
    if b == [] {
      assert a + b == a;
    } else {
      assert (a + b)[..|a + b| - 1] == a + b[..|b| - 1];
      ReceivedConcat(a, b[..|b| - 1], s, e);
    }
  }

  lemma ReceivedOne(a: Action, s: System, e: EntityId)
    ensures Received([a], s, e) == if a.Handle? && a.system == s && a.entity == e then [a.event] else []
  {
  }

  predicate DistinctSystems(order: seq<System>) {
    forall j, k :: 0 <= j < k < |order| ==> order[j] != order[k]
  }

  // Two parts of what a system receives, put together.
  lemma ReceivedBoth(a: seq<Action>, b: seq<Action>, s: System, e: EntityId,
                     first: seq<EntityEvent>, next: seq<EntityEvent>, holds: bool)
    requires Received(a, s, e) == if holds then first else []
    requires Received(b, s, e) == if holds then next else []
    ensures Received(a + b, s, e) == if holds then first + next else []
  {
    ReceivedConcat(a, b, s, e);
  }

  lemma HandedReceived(w: World, t: System, f: EntityId, event: EntityEvent, s: System, e: EntityId)
    ensures Received(Handed(w, t, f, event), s, e) ==
            if f == e && e in ListOf(w, s) && t == s then [event] else []
  {
    ReceivedOne(Handle(t, f, event), s, e);
  }

  lemma HandlersSplit(w: World, before: seq<System>, last: System, f: EntityId, event: EntityEvent)
    ensures EventHandlers(w, before + [last], f, event) ==
            EventHandlers(w, before, f, event) + Handed(w, last, f, event)
  {
    assert (before + [last])[..|before|] == before;
  }

  lemma NothingReceived(w: World, f: EntityId, event: EntityEvent, s: System, e: EntityId)
    ensures Received(EventHandlers(w, [], f, event), s, e) == []
  {
  }

  // One more system in the order.
  lemma OneMoreReceiver(w: World, before: seq<System>, last: System, f: EntityId, event: EntityEvent,
                        s: System, e: EntityId)
    requires last !in before
    requires Received(EventHandlers(w, before, f, event), s, e) ==
             if f == e && e in ListOf(w, s) && s in before then [event] else []
    ensures Received(EventHandlers(w, before + [last], f, event), s, e) ==
            if f == e && e in ListOf(w, s) && s in before + [last] then [event] else []
  {
    hide Received, EventHandlers, ListOf, Handed;
    HandlersSplit(w, before, last, f, event);
    ReceivedConcat(EventHandlers(w, before, f, event), Handed(w, last, f, event), s, e);
    HandedReceived(w, last, f, event, s, e);
    assert s in before + [last] <==> s in before || s == last;
    assert [event] + [] == [event];
  }

  lemma {:induction false} HandlersReceive(w: World, order: seq<System>, f: EntityId, event: EntityEvent,
                                           s: System, e: EntityId)
    requires DistinctSystems(order)
    ensures Received(EventHandlers(w, order, f, event), s, e) ==
            if f == e && e in ListOf(w, s) && s in order then [event] else []
  {
    hide Received, EventHandlers, ListOf;
    if order == [] {
      NothingReceived(w, f, event, s, e);
    } else {
      var before, last := order[..|order| - 1], order[|order| - 1];
      assert order == before + [last] && last !in before;
      HandlersReceive(w, before, f, event, s, e);
      OneMoreReceiver(w, before, last, f, event, s, e);
    }
  }

  // One more event in the queue.
  lemma OneMoreReceived(w: World, order: seq<System>, f: EntityId, before: seq<EntityEvent>, last: EntityEvent,
                        s: System, e: EntityId, holds: bool)
    requires Received(QueueDeliveries(w, order, f, before), s, e) == if holds then before else []
    requires Received(EventHandlers(w, order, f, last), s, e) == if holds then [last] else []
    ensures Received(QueueDeliveries(w, order, f, before + [last]), s, e) == if holds then before + [last] else []
  {
    hide Received, EventHandlers;
    assert (before + [last])[..|before|] == before;
    ReceivedBoth(QueueDeliveries(w, order, f, before), EventHandlers(w, order, f, last), s, e, before, [last], holds);
  }

  lemma NoneReceived(w: World, order: seq<System>, f: EntityId, s: System, e: EntityId)
    ensures Received(QueueDeliveries(w, order, f, []), s, e) == []
  {
  }

  lemma {:induction false} QueueReceived(w: World, order: seq<System>, f: EntityId,
                                         events: seq<EntityEvent>, s: System, e: EntityId)
    requires DistinctSystems(order)
    ensures Received(QueueDeliveries(w, order, f, events), s, e) ==
            if f == e && e in ListOf(w, s) && s in order then events else []
  {
    hide *;
    if events == [] {
      NoneReceived(w, order, f, s, e);
    } else {
      var before, last := events[..|events| - 1], events[|events| - 1];
      assert events == before + [last];
      QueueReceived(w, order, f, before, s, e);
      HandlersReceive(w, order, f, last, s, e);
      OneMoreReceived(w, order, f, before, last, s, e, f == e && e in ListOf(w, s) && s in order);
    }
  }

  // The events of e that system s should get.
  function Owed(w: World, order: seq<System>, s: System, e: EntityId): seq<EntityEvent> {
    if s in order && e in ListOf(w, s) then EventsOf(w, e) else []
  }

  lemma OneMoreQueue(w: World, order: seq<System>, before: seq<EntityId>, f: EntityId, s: System, e: EntityId)
    requires DistinctSystems(order)
    ensures Received(Deliveries(w, order, before + [f]), s, e) ==
            Received(Deliveries(w, order, before), s, e) + if f == e then Owed(w, order, s, e) else []
  {
    var first, queue := Deliveries(w, order, before), QueueDeliveries(w, order, f, EventsOf(w, f));
    assert (before + [f])[..|before|] == before;
    SplitReceived(first, TakeQueue(f), queue, s, e);
    QueueReceived(w, order, f, EventsOf(w, f), s, e);
  }

  // Each system that holds an entity receives the entity's events exactly once each and in the order they were
  // queued; no other system receives any of them.
  lemma {:induction false} EachEventOnceInOrder(w: World, order: seq<System>, keys: seq<EntityId>,
                                                s: System, e: EntityId)
    requires DistinctSystems(order) && NoDuplicates(keys)
    ensures Received(Deliveries(w, order, keys), s, e) == if e in keys then Owed(w, order, s, e) else []
  {
    if keys != [] {
      var before, f := keys[..|keys| - 1], keys[|keys| - 1];
      assert keys == before + [f];
      assert Received(Deliveries(w, order, before), s, e) == if e in before then Owed(w, order, s, e) else [] by {
        EachEventOnceInOrder(w, order, before, s, e);
      }
      assert Received(Deliveries(w, order, keys), s, e) ==
             Received(Deliveries(w, order, before), s, e) + if f == e then Owed(w, order, s, e) else [] by {
        OneMoreQueue(w, order, before, f, s, e);
      }
      assert f !in before;
    }
  }

  lemma SplitReceived(a: seq<Action>, x: Action, b: seq<Action>, s: System, e: EntityId)
    requires !x.Handle?
    ensures Received(a + [x] + b, s, e) == Received(a, s, e) + Received(b, s, e)
  {
    ReceivedConcat(a + [x], b, s, e);
    ReceivedConcat(a, [x], s, e);
    ReceivedOne(x, s, e);
  }

  // No handler queues anything, or changes who holds whom.
  ghost predicate SameQueues(w: World, w': World) {
    w'.events == w.events && w'.systems == w.systems
  }

  lemma HandlerQueuesNothing(w: World, s: System, e: EntityId, event: EntityEvent)
    ensures SameQueues(w, Deliver(w, s, e, event))
  {
  }

  // Handling does not look at the queues either.
  lemma HandlerIgnoresQueues(w: World, s: System, e: EntityId, event: EntityEvent, events: EventQueues)
    ensures Deliver(w.(events := events), s, e, event) == Deliver(w, s, e, event).(events := events)
  {
    hide Reaction;
    ReactionIgnoresQueues(w, s, e, event, events);
  }

  lemma ReactionIgnoresQueues(w: World, s: System, e: EntityId, event: EntityEvent, events: EventQueues)
    ensures Reaction(w.(events := events), s, e, event) == Reaction(w, s, e, event).(events := events)
  {
    hide Steered, Driven, ChangeState, SetBody;
    var b := BodyOf(w, e);
    if b.movable.Some? {
      SetIgnoresQueues(w, e, b.(movable := Some(Steered(b.movable.value, event))), events);
      SetIgnoresQueues(w, e, b.(movable := Some(Driven(b.movable.value, event))), events);
    }
    ChangeIgnoresQueues(w, e, Idle, false, events);
  }

  lemma SetIgnoresQueues(w: World, e: EntityId, b: Body, events: EventQueues)
    ensures SetBody(w.(events := events), e, b) == SetBody(w, e, b).(events := events)
  {
  }

  lemma ChangeIgnoresQueues(w: World, e: EntityId, next: EntityState, force: bool, events: EventQueues)
    ensures ChangeState(w.(events := events), e, next, force) == ChangeState(w, e, next, force).(events := events)
  {
  }

  lemma {:induction false} HandlersKeepQueues(w: World, actions: seq<Action>)
    requires forall a :: a in actions ==> a.Handle?
    ensures SameQueues(w, Run(w, actions))
  {
    if actions != [] {
      var before, last := actions[..|actions| - 1], actions[|actions| - 1];
      assert actions == before + [last];
      HandlersKeepQueues(w, before);
      HandlerQueuesNothing(Run(w, before), last.system, last.entity, last.event);
    }
  }

  lemma {:induction false} OnlyHandlers(w: World, order: seq<System>, e: EntityId, events: seq<EntityEvent>)
    ensures forall a :: a in QueueDeliveries(w, order, e, events) ==> a.Handle?
  {
    if events != [] {
      OnlyHandlers(w, order, e, events[..|events| - 1]);
      OnlyOneEvent(w, order, e, events[|events| - 1]);
    }
  }

  lemma {:induction false} OnlyOneEvent(w: World, order: seq<System>, e: EntityId, event: EntityEvent)
    ensures forall a :: a in EventHandlers(w, order, e, event) ==> a.Handle?
  {
    if order != [] {
      OnlyOneEvent(w, order[..|order| - 1], e, event);
    }
  }

  lemma RunDeliveries(w: World, order: seq<System>, keys: seq<EntityId>, e: EntityId)
    ensures Run(w, Deliveries(w, order, keys + [e])) ==
            Run(Apply(Run(w, Deliveries(w, order, keys)), TakeQueue(e)), QueueDeliveries(w, order, e, EventsOf(w, e)))
  {
    assert (keys + [e])[..|keys|] == keys;
    RunStep(w, Deliveries(w, order, keys), TakeQueue(e));
    RunConcat(w, Deliveries(w, order, keys) + [TakeQueue(e)], QueueDeliveries(w, order, e, EventsOf(w, e)));
  }

  lemma QueueKeepsEvents(w: World, w': World, order: seq<System>, e: EntityId)
    ensures SameQueues(w', Run(w', QueueDeliveries(w, order, e, EventsOf(w, e))))
  {
    OnlyHandlers(w, order, e, EventsOf(w, e));
    HandlersKeepQueues(w', QueueDeliveries(w, order, e, EventsOf(w, e)));
  }

  lemma QueueTaken(w: World, e: EntityId)
    ensures Apply(w, TakeQueue(e)) == w.(events := w.events[e := []])
  {
  }

  // One more drained queue leaves the same queues behind.
  lemma DrainedKeys(w: World, order: seq<System>, keys: seq<EntityId>, e: EntityId)
    ensures var before, after := Run(w, Deliveries(w, order, keys)), Run(w, Deliveries(w, order, keys + [e]));
            after.events == before.events[e := []] && after.systems == before.systems
  {
    hide Apply, Run, Deliveries, QueueDeliveries;
    var before := Run(w, Deliveries(w, order, keys));
    RunDeliveries(w, order, keys, e);
    QueueKeepsEvents(w, Apply(before, TakeQueue(e)), order, e);
    QueueTaken(before, e);
  }

  // Afterwards the queues that were visited are empty and the others are as they were.
  lemma {:induction false} QueuesEmptied(w: World, order: seq<System>, keys: seq<EntityId>)
    ensures var w' := Run(w, Deliveries(w, order, keys));
            && w'.systems == w.systems
            && forall e :: EventsOf(w', e) == if e in keys then [] else EventsOf(w, e)
  {
    if keys != [] {
      var before, f := keys[..|keys| - 1], keys[|keys| - 1];
      assert keys == before + [f];
      QueuesEmptied(w, order, before);
      DrainedKeys(w, order, before, f);
    }
  }
}
