/** One update of the systems gives each entity they hold each turn exactly once, in any order of the systems. */
module OneUpdate {
  import opened Components
  import opened Ecs
  import opened Machine
  import opened Death
  import opened Drain
  import opened Settling
  import opened Strikes
  import opened Tiles
  import opened MapObjects
  import opened GameLoop
  import opened Turns
  import opened GameTick

  lemma {:induction false} RanConcat(a: seq<Action>, b: seq<Action>, e: EntityId)
    ensures Ran(a + b, e) == Ran(a, e) + Ran(b, e)
    ensures Updates(a + b, e) == Updates(a, e) + Updates(b, e)
  {
    if b == [] {
      assert a + b == a;
    } else {
      assert (a + b)[..|a + b| - 1] == a + b[..|b| - 1];
      RanConcat(a, b[..|b| - 1], e);
    }
  }

  lemma {:induction false} NoTimerRan(trace: seq<Action>, e: EntityId)
    requires forall a :: a in trace ==> !TimesOf(a, e)
    ensures Ran(trace, e) == 0 && Updates(trace, e) == 0
  {
    if trace != [] {
      var before, last := trace[..|trace| - 1], trace[|trace| - 1];
      assert trace == before + [last];
      assert last in trace;
      NoTimerRan(before, e);
    }
  }

  lemma {:induction false} NoMoveCounted(trace: seq<Action>, e: EntityId)
    requires forall a :: a in trace ==> !Moves(a, e)
    ensures MoveCount(trace, e) == 0
  {
    if trace != [] {
      var before, last := trace[..|trace| - 1], trace[|trace| - 1];
      assert trace == before + [last];
      assert last in trace;
      NoMoveCounted(before, e);
    }
  }

  lemma {:induction false} TimerOnce(list: seq<EntityId>, dt: nat, e: EntityId)
    requires NoDuplicates(list)
    ensures Updates(TimerRuns(list, dt), e) == (if e in list then 1 else 0)
    ensures Ran(TimerRuns(list, dt), e) == (if e in list then dt else 0)
  {
    if list != [] {
      var before, last := list[..|list| - 1], list[|list| - 1];
      assert list == before + [last] && last !in before;
      TimerOnce(before, dt, e);
    }
  }

  lemma {:induction false} MotionOnce(s: MapState, w: World, list: seq<EntityId>, dt: nat, trace: seq<Action>,
                                      e: EntityId)
    requires Motions(s, w, list, dt, trace) && NoDuplicates(list)
    ensures MoveCount(trace, e) == if e in list then 1 else 0
  {
    if list != [] {
      var before, last := list[..|list| - 1], list[|list| - 1];
      assert list == before + [last] && last !in before;
      MotionOnce(s, w, before, dt, trace[..|trace| - 1], e);
    }
  }

  // S_Timers alone runs timers and S_Movement alone moves.
  ghost predicate Belongs(system: System, a: Action) {
    (a.RunTimer? ==> system == Timers) && (a.MoveBody? ==> system == Movement)
  }

  lemma {:induction false} InputKinds(list: seq<EntityId>)
    ensures forall a :: a in InputRuns(list) ==> a.TakeInput?
    ensures forall a :: a in WalkRuns(list) ==> a.CheckWalk?
    ensures forall a :: a in AreaRuns(list) ==> a.PlaceArea?
  {
    if list != [] {
      InputKinds(list[..|list| - 1]);
    }
  }

  lemma {:induction false} TimerKinds(list: seq<EntityId>, dt: nat)
    ensures forall a :: a in TimerRuns(list, dt) ==> a.RunTimer?
  {
    if list != [] {
      TimerKinds(list[..|list| - 1], dt);
    }
  }

  lemma {:induction false} AttackKinds(messages: seq<Strikes.Message>)
    ensures forall a :: a in Strikes.Attacks(messages) ==> a.Attack?
  {
    if messages != [] {
      AttackKinds(messages[..|messages| - 1]);
    }
  }

  lemma {:induction false} MotionKinds(s: MapState, w: World, list: seq<EntityId>, dt: nat, trace: seq<Action>)
    requires Motions(s, w, list, dt, trace)
    ensures forall a :: a in trace ==> a.MoveBody?
  {
    if list != [] {
      MotionKinds(s, w, list[..|list| - 1], dt, trace[..|trace| - 1]);
    }
  }

  lemma {:induction false} ResolveKinds(s: MapState, w: World, list: seq<EntityId>, trace: seq<Action>)
    requires MapTurns(s, w, list, trace)
    ensures forall a :: a in trace ==> a.ResolveMap?
  {
    hide IsMapPass, Run;
    if list != [] {
      ResolveKinds(s, w, list[..|list| - 1], trace[..|trace| - 1]);
    }
  }

  lemma SystemKinds(s: MapState, w: World, system: System, dt: nat, trace: seq<Action>)
    requires SystemTurn(s, w, system, dt, trace)
    ensures forall a :: a in trace ==> Belongs(system, a)
  {
    hide IsMapTurn, IsMotion, Run, PassMessages;
    match system {
      case Network => InputKinds(ListOf(w, Network));
      case Movement => MotionKinds(s, w, ListOf(w, Movement), dt, trace);
      case StateMachine => InputKinds(ListOf(w, StateMachine));
      case Collision =>
        var list := ListOf(w, Collision);
        ResolveKinds(s, w, list, trace[..|list|]);
        AttackKinds(PassMessages(Run(w, trace[..|list|]), list));
        assert trace == trace[..|list|] + trace[|list|..];
      case Combat => InputKinds(ListOf(w, Combat));
      case Timers => TimerKinds(ListOf(w, Timers), dt);
      case _ =>
    }
  }

  // 1 if the system is t and holds e.
  function ShareOf(w: World, system: System, t: System, e: EntityId): nat {
    if system == t && e in ListOf(w, t) then 1 else 0
  }

  // The share of one system's update in timer turns, timer time and moves of e.
  ghost predicate Shared(w: World, system: System, dt: nat, trace: seq<Action>, e: EntityId) {
    && Updates(trace, e) == ShareOf(w, system, Timers, e) && Ran(trace, e) == ShareOf(w, system, Timers, e) * dt
    && MoveCount(trace, e) == ShareOf(w, system, Movement, e)
  }

  lemma SystemCounts(s: MapState, w: World, system: System, dt: nat, trace: seq<Action>, e: EntityId)
    requires SystemTurn(s, w, system, dt, trace)
    requires NoDuplicates(ListOf(w, Timers)) && NoDuplicates(ListOf(w, Movement))
    ensures Shared(w, system, dt, trace, e)
  {
    SystemKinds(s, w, system, dt, trace);
    if system == Timers {
      TimerOnce(ListOf(w, Timers), dt, e);
    } else {
      NoTimerRan(trace, e);
    }
    if system == Movement {
      MotionOnce(s, w, ListOf(w, Movement), dt, trace, e);
    } else {
      NoMoveCounted(trace, e);
    }
  }

  // 1 if the system t is among those updated and holds e.
  function TurnsOf(w: World, order: seq<System>, t: System, e: EntityId): nat {
    if t in order && e in ListOf(w, t) then 1 else 0
  }

  // One timer turn, with the frame's time, and one move for an entity the systems hold, and none for any other.
  ghost predicate OneTurnEach(w: World, order: seq<System>, dt: nat, trace: seq<Action>, e: EntityId) {
    && Updates(trace, e) == TurnsOf(w, order, Timers, e) && Ran(trace, e) == TurnsOf(w, order, Timers, e) * dt
    && MoveCount(trace, e) == TurnsOf(w, order, Movement, e)
  }

  lemma OneMoreShare(w: World, w': World, systems: seq<System>, system: System, dt: nat, a: seq<Action>, b: seq<Action>,
                     e: EntityId)
    requires DistinctSystems(systems + [system]) && forall t :: ListOf(w', t) == ListOf(w, t)
    requires OneTurnEach(w, systems, dt, a, e) && Shared(w', system, dt, b, e)
    ensures OneTurnEach(w, systems + [system], dt, a + b, e)
  {
    forall k | 0 <= k < |systems|
      ensures systems[k] != system
    {
      assert (systems + [system])[k] == systems[k] && (systems + [system])[|systems|] == system;
    }
    RanConcat(a, b, e);
    MoveCountConcat(a, b, e);
  }

  // Each update runs the timer of each entity S_Timers holds exactly once, and moves each entity S_Movement holds
  // exactly once.
  lemma {:induction false} UpdateCounts(s: MapState, w: World, order: seq<System>, dt: nat, parts: seq<seq<Action>>,
                                        e: EntityId)
    requires Updated(s, w, order, dt, parts) && DistinctSystems(order)
    requires NoDuplicates(ListOf(w, Timers)) && NoDuplicates(ListOf(w, Movement))
    ensures OneTurnEach(w, order, dt, Flat(parts), e)
  {
    if order != [] {
      var before, last := parts[..|parts| - 1], parts[|parts| - 1];
      var systems, system, w' := order[..|order| - 1], order[|order| - 1], Run(w, Flat(before));
      assert order == systems + [system];
      assert forall t :: ListOf(w', t) == ListOf(w, t) by {
        UpdateTurns(s, w, systems, dt, before);
        TurnsGame(w, Flat(before));
      }
      assert OneTurnEach(w, systems, dt, Flat(before), e) by {
        UpdateCounts(s, w, systems, dt, before, e);
      }
      assert Shared(w', system, dt, last, e) by {
        SystemCounts(s, w', system, dt, last, e);
      }
      OneMoreShare(w, w', systems, system, dt, Flat(before), last, e);
    }
  }
}
