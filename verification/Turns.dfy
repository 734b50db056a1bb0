/** The turns the systems give their entities, as runs of Machine.dfy. */
module Turns {
  import opened Components
  import opened Ecs
  import opened EcsIndex
  import opened Rules
  import opened Machine
  import opened Lifecycle

  function TimerRuns(list: seq<EntityId>, dt: nat): seq<Action> {
    if list == [] then [] else TimerRuns(list[..|list| - 1], dt) + [RunTimer(list[|list| - 1], dt)]
  }

  function InputRuns(list: seq<EntityId>): seq<Action> {
    if list == [] then [] else InputRuns(list[..|list| - 1]) + [TakeInput(list[|list| - 1])]
  }

  function WalkRuns(list: seq<EntityId>): seq<Action> {
    if list == [] then [] else WalkRuns(list[..|list| - 1]) + [CheckWalk(list[|list| - 1])]
  }

  function AreaRuns(list: seq<EntityId>): seq<Action> {
    if list == [] then [] else AreaRuns(list[..|list| - 1]) + [PlaceArea(list[|list| - 1])]
  }

  // The systems' lists stay as they are while the systems run.
  lemma {:induction false} SameLists(w: World, actions: seq<Action>)
    requires forall a :: a in actions ==> !IsEntityEdit(a)
    ensures Framed(w, Run(w, actions))
    ensures forall s :: ListOf(Run(w, actions), s) == ListOf(w, s)
  {
    if actions != [] {
      var before, last := actions[..|actions| - 1], actions[|actions| - 1];
      assert actions == before + [last];
      SameLists(w, before);
      RuleFramed(Run(w, before), last);
    }
  }

  // A step of a system's update.
  ghost predicate Turn(w: World, a: Action) {
    match a
    case TakeInput(e) => e in ListOf(w, Network)
    case CheckWalk(_) => true
    case MoveBody(_, _, _, _) => true
    case ResolveMap(_, _, _, _) => true
    case PlaceArea(_) => true
    case RunTimer(_, _) => true
    case Attack(_, _) => true
    case _ => false
  }

  lemma {:induction false} InputTurns(w: World, list: seq<EntityId>)
    requires forall e :: e in list ==> e in ListOf(w, Network)
    ensures forall a :: a in InputRuns(list) ==> Turn(w, a)
  {
    if list != [] {
      InputTurns(w, list[..|list| - 1]);
    }
  }

  lemma {:induction false} SimpleTurns(w: World, list: seq<EntityId>, dt: nat)
    ensures forall a :: a in WalkRuns(list) ==> Turn(w, a)
    ensures forall a :: a in AreaRuns(list) ==> Turn(w, a)
    ensures forall a :: a in TimerRuns(list, dt) ==> Turn(w, a)
  {
    if list != [] {
      SimpleTurns(w, list[..|list| - 1], dt);
    }
  }

  // Turns leave the systems' lists alone, so they are a run of the game.
  lemma {:induction false} TurnsGame(w: World, trace: seq<Action>)
    requires forall a :: a in trace ==> Turn(w, a)
    ensures GameRun(w, trace)
    ensures forall s :: ListOf(Run(w, trace), s) == ListOf(w, s)
    ensures forall a :: a in trace ==> !IsEntityEdit(a) && !a.TakeQueue?
  {
    if trace != [] {
      var before, last := trace[..|trace| - 1], trace[|trace| - 1];
      assert trace == before + [last];
      TurnsGame(w, before);
      assert Turn(w, last) && GameStep(Run(w, before), last);
      SameLists(w, trace);
    }
  }

  // One more entity has its turn.
  lemma NextTimer(w: World, list: seq<EntityId>, i: nat, dt: nat)
    requires i < |list|
    ensures Run(w, TimerRuns(list[..i + 1], dt)) == TimerStep(Run(w, TimerRuns(list[..i], dt)), list[i], dt)
  {
    assert list[..i + 1][..i] == list[..i];
    RunStep(w, TimerRuns(list[..i], dt), RunTimer(list[i], dt));
  }

  lemma NextInput(w: World, list: seq<EntityId>, i: nat)
    requires i < |list|
    ensures Run(w, InputRuns(list[..i + 1])) == InputStep(Run(w, InputRuns(list[..i])), list[i])
  {
    assert list[..i + 1][..i] == list[..i];
    RunStep(w, InputRuns(list[..i]), TakeInput(list[i]));
  }

  lemma NextWalk(w: World, list: seq<EntityId>, i: nat)
    requires i < |list|
    ensures Run(w, WalkRuns(list[..i + 1])) == WalkCheck(Run(w, WalkRuns(list[..i])), list[i])
  {
    assert list[..i + 1][..i] == list[..i];
    RunStep(w, WalkRuns(list[..i]), CheckWalk(list[i]));
  }

  lemma NextArea(w: World, list: seq<EntityId>, i: nat)
    requires i < |list|
    ensures Run(w, AreaRuns(list[..i + 1])) == AreaStep(Run(w, AreaRuns(list[..i])), list[i])
  {
    assert list[..i + 1][..i] == list[..i];
    RunStep(w, AreaRuns(list[..i]), PlaceArea(list[i]));
  }

  lemma NoRuns(w: World, dt: nat)
    ensures Run(w, TimerRuns([], dt)) == w && Run(w, InputRuns([])) == w
    ensures Run(w, WalkRuns([])) == w && Run(w, AreaRuns([])) == w
  {
  }

  // S_Timers' loop finds the list it started with, and an attacker component wherever it finds someone attacking.
  lemma TimersReady(w: World, list: seq<EntityId>, i: nat, dt: nat)
    requires Consistent(w) && IsServer(w.systems) && Living(w) && list == ListOf(w, Timers) && i < |list|
    ensures var w' := Run(w, TimerRuns(list[..i], dt));
            ListOf(w', Timers) == list && (InState(w', list[i], Attacking) ==> BodyOf(w', list[i]).attacker.Some?)
  {
    var done := TimerRuns(list[..i], dt);
    SimpleTurns(w, list[..i], dt);
    TurnsGame(w, done);
    LifecycleInEveryRun(w, done);
    IndexInEveryRun(w, done);
    if InState(Run(w, done), list[i], Attacking) {
      TimersDereferenceSafe(Run(w, done), list[i]);
    }
  }
}
