/** One pass of S_Collision::entityCollisions: which attacks it reports, and what they come to. */
module Strikes {
  import opened Components
  import opened Ecs
  import opened Rules
  import opened Machine

  type Message = (EntityId, EntityId)

  // The ordered pairs the pass looks at: those of row i in the columns below n, and those of the rows below i.
  function RowPairs(list: seq<EntityId>, i: nat, n: nat): seq<Message>
    requires i < |list| && n <= |list|
  {
    if n <= i + 1 then [] else RowPairs(list, i, n - 1) + [(list[i], list[n - 1]), (list[n - 1], list[i])]
  }

  function PassPairs(list: seq<EntityId>, i: nat): seq<Message>
    requires i <= |list|
  {
    if i == 0 then [] else PassPairs(list, i - 1) + RowPairs(list, i - 1, |list|)
  }

  // In row i, entity i meets each later one in turn, and strikes first.
  lemma {:induction false} RowOrder(list: seq<EntityId>, i: nat, n: nat, j: nat)
    requires i < j < n <= |list|
    ensures |RowPairs(list, i, n)| == 2 * (n - i - 1)
    ensures RowPairs(list, i, n)[2 * (j - i - 1)] == (list[i], list[j])
    ensures RowPairs(list, i, n)[2 * (j - i - 1) + 1] == (list[j], list[i])
  {
    if j < n - 1 {
      RowOrder(list, i, n - 1, j);
    } else {
      RowLength(list, i, n - 1);
    }
  }

  lemma {:induction false} RowLength(list: seq<EntityId>, i: nat, n: nat)
    requires i < n <= |list|
    ensures |RowPairs(list, i, n)| == 2 * (n - i - 1)
  {
    if n > i + 1 {
      RowLength(list, i, n - 1);
    }
  }

  // Those of them the pass reports as Being_Attacked.
  function Reported(w: World, pairs: seq<Message>): seq<Message> {
    if pairs == [] then []
    else
      var m := pairs[|pairs| - 1];
      Reported(w, pairs[..|pairs| - 1]) + if Reaches(w, m.0, m.1) then [m] else []
  }

  function PassMessages(w: World, list: seq<EntityId>): seq<Message> {
    Reported(w, PassPairs(list, |list|))
  }

  function Attacks(messages: seq<Message>): seq<Action> {
    if messages == [] then []
    else Attacks(messages[..|messages| - 1]) + [Attack(messages[|messages| - 1].0, messages[|messages| - 1].1)]
  }

  // ---------- each report is made exactly once ----------

  // How often m occurs.
  function Count(messages: seq<Message>, m: Message): nat {
    if messages == [] then 0
    else Count(messages[..|messages| - 1], m) + if messages[|messages| - 1] == m then 1 else 0
  }

  lemma {:induction false} CountConcat(a: seq<Message>, b: seq<Message>, m: Message)
    ensures Count(a + b, m) == Count(a, m) + Count(b, m)
  {
    if b == [] {
      assert a + b == a;
    } else {
      assert (a + b)[..|a + b| - 1] == a + b[..|b| - 1];
      CountConcat(a, b[..|b| - 1], m);
    }
  }

  lemma {:induction false} CountMeansMember(messages: seq<Message>, m: Message)
    ensures Count(messages, m) > 0 <==> m in messages
  {
    if messages != [] {
      CountMeansMember(messages[..|messages| - 1], m);
      assert messages == messages[..|messages| - 1] + [messages[|messages| - 1]];
    }
  }

  lemma CountPair(x: Message, y: Message, m: Message)
    ensures Count([x, y], m) == (if x == m then 1 else 0) + (if y == m then 1 else 0)
  {
    assert [x, y][..1] == [x] && [x][..0] == [];
    assert Count([x], m) == if x == m then 1 else 0;
  }

  // Row i looks at the pair of positions (p, q) once if one of them is i and the other one of those after i.
  lemma {:induction false} RowCounts(list: seq<EntityId>, i: nat, n: nat, p: nat, q: nat)
    requires NoDuplicates(list) && i < n <= |list| && p < |list| && q < |list|
    ensures Count(RowPairs(list, i, n), (list[p], list[q])) ==
            if (p == i && i < q < n) || (q == i && i < p < n) then 1 else 0
  {
    if n > i + 1 {
      RowCounts(list, i, n - 1, p, q);
      var m := (list[p], list[q]);
      var last := [(list[i], list[n - 1]), (list[n - 1], list[i])];
      CountPair(last[0], last[1], m);
      CountConcat(RowPairs(list, i, n - 1), last, m);
    }
  }

  lemma {:induction false} PassCounts(list: seq<EntityId>, i: nat, p: nat, q: nat)
    requires NoDuplicates(list) && i <= |list| && p < |list| && q < |list|
    ensures Count(PassPairs(list, i), (list[p], list[q])) == if p != q && (p < i || q < i) then 1 else 0
  {
    if i > 0 {
      var m := (list[p], list[q]);
      var a, b := PassPairs(list, i - 1), RowPairs(list, i - 1, |list|);
      var above, here := Count(a, m), Count(b, m);
      assert above == if p != q && (p < i - 1 || q < i - 1) then 1 else 0 by {
        PassCounts(list, i - 1, p, q);
      }
      assert here == if (p == i - 1 && i - 1 < q) || (q == i - 1 && i - 1 < p) then 1 else 0 by {
        RowCounts(list, i - 1, |list|, p, q);
      }
      assert Count(PassPairs(list, i), m) == above + here by {
        CountConcat(a, b, m);
      }
    }
  }

  ghost predicate PairsOf(list: seq<EntityId>, pairs: seq<Message>) {
    forall m :: m in pairs ==> m.0 in list && m.1 in list
  }

  lemma PairsOfBoth(list: seq<EntityId>, a: seq<Message>, b: seq<Message>)
    requires PairsOf(list, a) && PairsOf(list, b)
    ensures PairsOf(list, a + b)
  {
  }

  lemma {:induction false} RowMembers(list: seq<EntityId>, i: nat, n: nat)
    requires i < n <= |list|
    ensures PairsOf(list, RowPairs(list, i, n))
  {
    if n > i + 1 {
      RowMembers(list, i, n - 1);
    }
  }

  lemma NoPairs(list: seq<EntityId>)
    ensures PairsOf(list, [])
  {
  }

  lemma {:induction false} PassMembers(list: seq<EntityId>, i: nat)
    requires i <= |list|
    ensures PairsOf(list, PassPairs(list, i))
  {
    hide PairsOf, RowPairs;
    if i > 0 {
      PassMembers(list, i - 1);
      RowMembers(list, i - 1, |list|);
      PairsOfBoth(list, PassPairs(list, i - 1), RowPairs(list, i - 1, |list|));
    } else {
      NoPairs(list);
    }
  }

  lemma {:induction false} ReportedCounts(w: World, pairs: seq<Message>, m: Message)
    ensures Count(Reported(w, pairs), m) == if Reaches(w, m.0, m.1) then Count(pairs, m) else 0
  {
    if pairs != [] {
      var before, last := pairs[..|pairs| - 1], pairs[|pairs| - 1];
      ReportedCounts(w, before, m);
      CountConcat(Reported(w, before), if Reaches(w, last.0, last.1) then [last] else [], m);
    }
  }

  // Being_Attacked is dispatched exactly once for every ordered pair of distinct entities of the list whose sender
  // has an area of attack over the receiver's box, and for no other.
  lemma EachPairReportedOnce(w: World, list: seq<EntityId>, s: EntityId, r: EntityId)
    requires NoDuplicates(list)
    ensures Count(PassMessages(w, list), (s, r)) ==
            if s != r && s in list && r in list && Reaches(w, s, r) then 1 else 0
  {
    var pairs := PassPairs(list, |list|);
    ReportedCounts(w, pairs, (s, r));
    if s in list && r in list {
      var p :| 0 <= p < |list| && list[p] == s;
      var q :| 0 <= q < |list| && list[q] == r;
      PassCounts(list, |list|, p, q);
    } else {
      PassMembers(list, |list|);
      CountMeansMember(pairs, (s, r));
    }
  }

  // ---------- what the reports come to ----------

  // The message would take effect, were the sender's flag clear.
  predicate Eligible(w: World, s: EntityId, r: EntityId) {
    && r in ListOf(w, Combat) && s in ListOf(w, Combat)
    && BodyOf(w, r).health.Some? && BodyOf(w, s).attacker.Some? && StateMachine in w.systems
  }

  predicate Flagged(w: World, e: EntityId) {
    BodyOf(w, e).attacker.Some? && BodyOf(w, e).attacker.value.attacked
  }

  // Areas, boxes, presence and lists stay put while attacks land.
  ghost predicate SameGround(w: World, w': World) {
    && w'.systems == w.systems
    && forall e ::
        && BodyOf(w', e).collidable == BodyOf(w, e).collidable
        && (BodyOf(w', e).health.Some? <==> BodyOf(w, e).health.Some?)
        && (BodyOf(w', e).attacker.Some? <==> BodyOf(w, e).attacker.Some?)
        && (BodyOf(w, e).attacker.Some? ==> BodyOf(w', e).attacker.value.area == BodyOf(w, e).attacker.value.area)
  }

  lemma BledFacts(w: World, s: EntityId, r: EntityId, e: EntityId)
    requires Lands(w, s, r)
    ensures var w' := Bled(w, s, r);
            && BodyOf(w', e).collidable == BodyOf(w, e).collidable
            && BodyOf(w', e).attacker ==
               (if e == s && e in w.entities then Some(BodyOf(w, s).attacker.value.(attacked := true))
                else BodyOf(w, e).attacker)
            && BodyOf(w', e).health ==
               (if e == r && e in w.entities then Some(Wounded(BodyOf(w, r).health.value)) else BodyOf(w, e).health)
  {
  }

  lemma ReeledFacts(w: World, r: EntityId, e: EntityId)
    ensures Reeled(w, r).systems == w.systems
    ensures BodyOf(Reeled(w, r), e).(state := None) == BodyOf(w, e).(state := None)
  {
  }

  lemma KnockedFacts(w: World, s: EntityId, r: EntityId, e: EntityId)
    ensures Knocked(w, s, r).systems == w.systems
    ensures BodyOf(Knocked(w, s, r), e).(movable := None) == BodyOf(w, e).(movable := None)
  {
  }

  // Everything a strike does to flags, health and areas, for one entity.
  lemma StrikeFacts(w: World, s: EntityId, r: EntityId, e: EntityId)
    ensures var w' := Strike(w, s, r);
            && w'.systems == w.systems
            && BodyOf(w', e).collidable == BodyOf(w, e).collidable
            && BodyOf(w', e).attacker ==
               (if Lands(w, s, r) && e == s then Some(BodyOf(w, s).attacker.value.(attacked := true))
                else BodyOf(w, e).attacker)
            && BodyOf(w', e).health ==
               (if Lands(w, s, r) && e == r then Some(Wounded(BodyOf(w, r).health.value)) else BodyOf(w, e).health)
  {
    if Lands(w, s, r) {
      BledFacts(w, s, r, e);
      ReeledFacts(Bled(w, s, r), r, e);
      KnockedFacts(Reeled(Bled(w, s, r), r), s, r, e);
    }
  }

  lemma StrikeKeepsGround(w: World, s: EntityId, r: EntityId)
    ensures SameGround(w, Strike(w, s, r))
  {
    forall e {
      StrikeFacts(w, s, r, e);
    }
  }

  // So the reports of the pass are the same whether they are read off before it or as it goes.
  lemma {:induction false} GroundFixesReports(w: World, messages: seq<Message>)
    ensures SameGround(w, Run(w, Attacks(messages)))
    ensures forall s, r :: Reaches(Run(w, Attacks(messages)), s, r) <==> Reaches(w, s, r)
  {
    if messages != [] {
      var before, m := messages[..|messages| - 1], messages[|messages| - 1];
      GroundFixesReports(w, before);
      RunStep(w, Attacks(before), Attack(m.0, m.1));
      StrikeKeepsGround(Run(w, Attacks(before)), m.0, m.1);
    }
  }

  lemma GroundKeepsEligible(w: World, w': World, s: EntityId, r: EntityId)
    requires SameGround(w, w')
    ensures Eligible(w', s, r) <==> Eligible(w, s, r)
    ensures BodyOf(w', s).attacker.Some? <==> BodyOf(w, s).attacker.Some?
  {
  }

  // One more message of an attacker: it hits if its flag is clear and the victim is eligible, and that raises the flag.
  lemma OneMoreHit(w: World, before: seq<Message>, m: Message, s: EntityId)
    requires BodyOf(w, s).attacker.Some?
    ensures var w1, w2 := Run(w, Attacks(before)), Run(w, Attacks(before + [m]));
            var hit := m.0 == s && !Flagged(w1, s) && Eligible(w, s, m.1);
            && (Flagged(w2, s) <==> Flagged(w1, s) || hit)
            && Hits(w, Attacks(before + [m]), s) == Hits(w, Attacks(before), s) + if hit then 1 else 0
  {
    var w1, a := Run(w, Attacks(before)), Attack(m.0, m.1);
    assert (before + [m])[..|before|] == before;
    assert Attacks(before + [m]) == Attacks(before) + [a];
    assert (Attacks(before) + [a])[..|Attacks(before)|] == Attacks(before);
    GroundFixesReports(w, before);
    GroundKeepsEligible(w, w1, s, m.1);
    StrikeFacts(w1, m.0, m.1, s);
    hide Strike, SameGround;
  }

  // Some message of s is to an eligible victim.
  ghost predicate HasVictim(w: World, messages: seq<Message>, s: EntityId) {
    exists m :: m in messages && m.0 == s && Eligible(w, s, m.1)
  }

  lemma OneMoreVictim(w: World, before: seq<Message>, m: Message, s: EntityId)
    ensures HasVictim(w, before + [m], s) <==> HasVictim(w, before, s) || (m.0 == s && Eligible(w, s, m.1))
  {
    hide Eligible;
    if HasVictim(w, before, s) {
      var k :| k in before && k.0 == s && Eligible(w, s, k.1);
      assert k in before + [m];
    }
    if m.0 == s && Eligible(w, s, m.1) {
      assert m in before + [m];
    }
  }

  // An attacker whose flag was clear hits exactly once if some reported victim is eligible, and otherwise, or with
  // its flag up, not at all.
  lemma {:induction false} HitsOnce(w: World, messages: seq<Message>, s: EntityId)
    requires BodyOf(w, s).attacker.Some?
    ensures var w' := Run(w, Attacks(messages));
            && (Flagged(w', s) <==> Flagged(w, s) || HasVictim(w, messages, s))
            && Hits(w, Attacks(messages), s) == if Flagged(w', s) && !Flagged(w, s) then 1 else 0
  {
    if messages != [] {
      var before, m := messages[..|messages| - 1], messages[|messages| - 1];
      assert messages == before + [m];
      HitsOnce(w, before, s);
      OneMoreHit(w, before, m, s);
      OneMoreVictim(w, before, m, s);
    }
    hide Strike, Eligible, Flagged;
  }

  function Points(w: World, list: seq<EntityId>): int {
    if list == [] then 0
    else Points(w, list[1..]) + if BodyOf(w, list[0]).health.Some? then BodyOf(w, list[0]).health.value.points else 0
  }

  function Flags(w: World, list: seq<EntityId>): nat {
    if list == [] then 0 else Flags(w, list[1..]) + if Flagged(w, list[0]) then 1 else 0
  }

  lemma {:induction false} StrikePoints(w: World, s: EntityId, r: EntityId, list: seq<EntityId>)
    requires NoDuplicates(list)
    ensures Points(w, list) - Points(Strike(w, s, r), list) <= if Lands(w, s, r) && r in list then 1 else 0
  {
    if list != [] {
      StrikePoints(w, s, r, list[1..]);
      StrikeFacts(w, s, r, list[0]);
      assert list[0] !in list[1..];
    }
  }

  lemma {:induction false} StrikeFlags(w: World, s: EntityId, r: EntityId, list: seq<EntityId>)
    requires NoDuplicates(list)
    ensures Flags(Strike(w, s, r), list) == Flags(w, list) + if Lands(w, s, r) && s in list then 1 else 0
  {
    if list != [] {
      StrikeFlags(w, s, r, list[1..]);
      StrikeFacts(w, s, r, list[0]);
      assert list[0] !in list[1..];
    }
  }

  lemma StrikePaid(w: World, s: EntityId, r: EntityId, list: seq<EntityId>)
    requires NoDuplicates(list) && s in list
    ensures var w' := Strike(w, s, r); Points(w, list) - Points(w', list) <= Flags(w', list) - Flags(w, list)
  {
    StrikePoints(w, s, r, list);
    StrikeFlags(w, s, r, list);
  }

  // The health the listed entities lose is at most the number of attack flags that go up among them.
  lemma {:induction false} HealthPaidInFlags(w: World, messages: seq<Message>, list: seq<EntityId>)
    requires NoDuplicates(list) && forall m :: m in messages ==> m.0 in list && m.1 in list
    ensures var w' := Run(w, Attacks(messages));
            Points(w, list) - Points(w', list) <= Flags(w', list) - Flags(w, list)
  {
    if messages != [] {
      hide Points, Flags, Strike, Lands;
      var before, m := messages[..|messages| - 1], messages[|messages| - 1];
      assert messages == before + [m];
      HealthPaidInFlags(w, before, list);
      RunStep(w, Attacks(before), Attack(m.0, m.1));
      assert m in messages;
      StrikePaid(Run(w, Attacks(before)), m.0, m.1, list);
    }
  }

  // The pass as a whole.
  lemma PassOutcome(w: World, list: seq<EntityId>, s: EntityId)
    requires NoDuplicates(list) && s in list
    ensures var w' := Run(w, Attacks(PassMessages(w, list)));
            && Points(w, list) - Points(w', list) <= Flags(w', list) - Flags(w, list)
            && (BodyOf(w, s).attacker.Some? && !Flagged(w, s) ==>
                (Flagged(w', s) <==> exists r :: r in list && r != s && Reaches(w, s, r) && Eligible(w, s, r)))
  {
    var messages := PassMessages(w, list);
    forall m: Message
      ensures m in messages <==> m.0 != m.1 && m.0 in list && m.1 in list && Reaches(w, m.0, m.1)
    {
      EachPairReportedOnce(w, list, m.0, m.1);
      CountMeansMember(messages, m);
    }
    HealthPaidInFlags(w, messages, list);
    if BodyOf(w, s).attacker.Some? && !Flagged(w, s) {
      HitsOnce(w, messages, s);
      if exists r :: r in list && r != s && Reaches(w, s, r) && Eligible(w, s, r) {
        var r :| r in list && r != s && Reaches(w, s, r) && Eligible(w, s, r);
        assert (s, r) in messages;
      }
    }
  }
}
