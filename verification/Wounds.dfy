/** What a hit does, said of health, state, velocity and flag, and how many hits an entity survives. */
module Wounds {
  import opened Components
  import opened Ecs
  import opened Motion
  import opened Rules
  import opened Strikes

  // ---------- one hit ----------

  // Being_Attacked takes effect exactly if S_Combat holds both, the victim has health, and the attacker has not hit
  // in this attack yet.
  lemma LandsExactly(w: World, s: EntityId, r: EntityId)
    requires StateMachine in w.systems
    ensures Lands(w, s, r) <==>
            && s in ListOf(w, Combat) && r in ListOf(w, Combat) && BodyOf(w, r).health.Some?
            && BodyOf(w, s).attacker.Some? && !BodyOf(w, s).attacker.value.attacked
  {
  }

  // The health of the victim: one point less, but not below zero, and its durations and timer as they were.
  lemma HitTakesOnePoint(w: World, s: EntityId, r: EntityId)
    requires Lands(w, s, r)
    ensures var h, h' := BodyOf(w, r).health.value, BodyOf(Strike(w, s, r), r).health;
            && h'.Some? && h'.value.(points := h.points) == h
            && (h.points >= 1 ==> h'.value.points == h.points - 1)
            && (h.points < 1 ==> h'.value.points == 0)
  {
    StrikeFacts(w, s, r, r);
    hide Strike;
  }

  // The three stages of a hit, each for one entity.
  lemma BledBody(w: World, s: EntityId, r: EntityId, e: EntityId)
    requires Lands(w, s, r) && Consistent(w)
    ensures var w', b := Bled(w, s, r), BodyOf(w, e);
            && w'.systems == w.systems
            && BodyOf(w', e) == b.(health := if e == r then Some(Wounded(b.health.value)) else b.health,
                                   attacker := if e == s then Some(b.attacker.value.(attacked := true)) else b.attacker)
  {
  }

  lemma ReeledBody(w: World, r: EntityId, e: EntityId)
    ensures BodyOf(Reeled(w, r), e) == BodyOf(w, e).(state := BodyOf(Reeled(w, r), e).state)
    ensures e != r ==> BodyOf(Reeled(w, r), e) == BodyOf(w, e)
    ensures var b := BodyOf(w, r);
            b.state.Some? ==>
            BodyOf(Reeled(w, r), r).state ==
            if b.health.Some? && b.health.value.points == 0 then Some(Dying)
            else if b.state == Some(Dying) || r !in ListOf(w, StateMachine) then b.state
            else Some(Hurt)
  {
  }

  lemma KnockedBody(w: World, s: EntityId, r: EntityId, e: EntityId)
    ensures var b, c, d := BodyOf(w, e), BodyOf(w, s), BodyOf(w, r);
            BodyOf(Knocked(w, s, r), e) ==
            if e == r && c.movable.Some? && d.movable.Some? && c.attacker.Some?
            then b.(movable := Some(b.movable.value.(
                   velocity := Scale(Unit(c.movable.value.direction), c.attacker.value.knockback))))
            else b
  {
  }

  // The state of the victim: dying with its last point, and otherwise hurt, if S_State holds it.
  lemma HitState(w: World, s: EntityId, r: EntityId)
    requires Lands(w, s, r) && BodyOf(w, r).state.Some? && Consistent(w)
    ensures var b, b' := BodyOf(w, r), BodyOf(Strike(w, s, r), r);
            b'.state ==
            if b.health.value.points <= 1 then Some(Dying)
            else if b.state == Some(Dying) || r !in ListOf(w, StateMachine) then b.state
            else Some(Hurt)
  {
    hide Bled, Reeled, Knocked;
    BledBody(w, s, r, r);
    ReeledBody(Bled(w, s, r), r, r);
    KnockedBody(Reeled(Bled(w, s, r), r), s, r, r);
  }

  // The victim flies off the way the attacker faces, with the attacker's knockback for its speed.
  lemma HitKnocksBack(w: World, s: EntityId, r: EntityId)
    requires Lands(w, s, r) && BodyOf(w, s).movable.Some? && BodyOf(w, r).movable.Some? && Consistent(w)
    ensures var m, m' := BodyOf(w, r).movable.value, BodyOf(Strike(w, s, r), r).movable;
            && m'.Some? && m'.value.(velocity := m.velocity) == m
            && m'.value.velocity ==
               Scale(Unit(BodyOf(w, s).movable.value.direction), BodyOf(w, s).attacker.value.knockback)
  {
    hide Bled, Reeled, Knocked, Wounded;
    BledBody(w, s, r, r);
    BledBody(w, s, r, s);
    ReeledBody(Bled(w, s, r), r, r);
    ReeledBody(Bled(w, s, r), r, s);
    KnockedBody(Reeled(Bled(w, s, r), r), s, r, r);
  }

  // Nothing else: the attacker's flag is up, nobody else is touched, and a message without effect touches no one.
  lemma HitTouchesOnly(w: World, s: EntityId, r: EntityId, e: EntityId)
    requires Consistent(w)
    ensures var b, b' := BodyOf(w, e), BodyOf(Strike(w, s, r), e);
            && (!Lands(w, s, r) || (e != s && e != r) ==> b' == b)
            && (Lands(w, s, r) && e == s ==> b'.attacker == Some(b.attacker.value.(attacked := true)))
            && (Lands(w, s, r) && e == s && e != r ==> b'.(attacker := b.attacker) == b)
            && (Lands(w, s, r) && e == r && e != s ==>
                  b'.(health := b.health, state := b.state, movable := b.movable) == b)
  {
    hide Bled, Reeled, Knocked, Wounded, Lands, Consistent;
    if Lands(w, s, r) {
      BledBody(w, s, r, e);
      ReeledBody(Bled(w, s, r), r, e);
      KnockedBody(Reeled(Bled(w, s, r), r), s, r, e);
    }
  }
}
