/** What the log of a run says: who struck whom, whose timer ran, and which events reached which system. */
module Journal {
  import opened Components
  import opened Ecs
  import opened Rules
  import opened Machine
  import opened Death
  import opened Drain
  import opened Strikes

  // How often the log says that s struck at r.
  function Strikings(log: seq<Entry>, s: EntityId, r: EntityId): nat {
    if log == [] then 0
    else Strikings(log[..|log| - 1], s, r) + if log[|log| - 1] == Struck(s, r) then 1 else 0
  }

  // The events of e the log says were handed to system s, in order.
  function Handovers(log: seq<Entry>, s: System, e: EntityId): seq<EntityEvent> {
    if log == [] then []
    else
      var x := log[|log| - 1];
      Handovers(log[..|log| - 1], s, e) + if x.Handled? && x.system == s && x.entity == e then [x.event] else []
  }

  // The time the log says S_Timers ran for e.
  function Timings(log: seq<Entry>, e: EntityId): nat {
    if log == [] then 0
    else
      var x := log[|log| - 1];
      Timings(log[..|log| - 1], e) + if x.Timed? && x.entity == e then x.dt else 0
  }

  lemma {:induction false} StrikingsLogged(messages: seq<Message>, s: EntityId, r: EntityId)
    ensures Strikings(LogOf(Attacks(messages)), s, r) == Count(messages, (s, r))
  {
    if messages != [] {
      var before, m := messages[..|messages| - 1], messages[|messages| - 1];
      StrikingsLogged(before, s, r);
      assert Attacks(messages)[..|Attacks(before)|] == Attacks(before);
      assert LogOf(Attacks(messages)) == LogOf(Attacks(before)) + [Struck(m.0, m.1)];
    }
  }

  lemma {:induction false} HandoversLogged(actions: seq<Action>, s: System, e: EntityId)
    ensures Handovers(LogOf(actions), s, e) == Received(actions, s, e)
  {
    if actions != [] {
      var before, a := actions[..|actions| - 1], actions[|actions| - 1];
      HandoversLogged(before, s, e);
      if a.Attack? || a.RunTimer? || a.Handle? {
        var entries := LogOf(actions);
        assert entries[..|entries| - 1] == LogOf(before);
      } else {
        assert LogOf(actions) == LogOf(before);
      }
    }
  }

  // The time run for an entity can be read off the log of any run.
  lemma {:induction false} TimingsLogged(actions: seq<Action>, e: EntityId)
    ensures Timings(LogOf(actions), e) == Ran(actions, e)
  {
    if actions != [] {
      var before, a := actions[..|actions| - 1], actions[|actions| - 1];
      TimingsLogged(before, e);
      if a.Attack? || a.RunTimer? || a.Handle? {
        var entries := LogOf(actions);
        assert entries[..|entries| - 1] == LogOf(before);
      } else {
        assert LogOf(actions) == LogOf(before);
      }
    }
  }

  // What a pass of entityCollisions logs: each ordered pair of different held entities once, if the area of the one
  // reaches the box of the other, and no other pair.
  lemma EachPairLoggedOnce(w: World, list: seq<EntityId>, s: EntityId, r: EntityId)
    requires NoDuplicates(list)
    ensures Strikings(LogOf(Attacks(PassMessages(w, list))), s, r) ==
            if s != r && s in list && r in list && Reaches(w, s, r) then 1 else 0
  {
    EachPairReportedOnce(w, list, s, r);
    StrikingsLogged(PassMessages(w, list), s, r);
  }

  // What handleEvents logs: each system is handed the queued events of each entity it holds, once each and in order,
  // and nothing else.
  lemma EachEventLoggedOnce(w: World, order: seq<System>, keys: seq<EntityId>, s: System, e: EntityId)
    requires DistinctSystems(order) && NoDuplicates(keys)
    ensures Handovers(LogOf(Deliveries(w, order, keys)), s, e) == if e in keys then Owed(w, order, s, e) else []
  {
    EachEventOnceInOrder(w, order, keys, s, e);
    HandoversLogged(Deliveries(w, order, keys), s, e);
  }
}
