/** The 32-bit component masks of src/common/Bitmask.h and the requirement test of src/common/S_Base.cpp. */
module Bitmasks {

  const N_COMPONENT_TYPES: nat := 32

  // One component type is one bit position.
  type ComponentType = p: nat | p < N_COMPONENT_TYPES

  // A 32-bit word, as the set of positions that hold a 1: `&`, `|` and `~` are `*`, `+` and complement.
  type Bitset = set<ComponentType>

  // The word 1 << pos.
  function Bit(pos: ComponentType): Bitset {
    {pos}
  }

  // The word has a 1 in common with 1 << pos.
  predicate GetBit(m: Bitset, pos: ComponentType) {
    pos in m
  }

  function TurnOnBit(m: Bitset, pos: ComponentType): Bitset {
    m + Bit(pos)
  }

  function ClearBit(m: Bitset, pos: ComponentType): Bitset {
    m - Bit(pos)
  }

  // Bitmask::matches: with relevance 0 the two masks must be equal.
  predicate Matches(self: Bitset, bits: Bitset, relevant: Bitset) {
    if relevant != {} then bits * relevant == self * relevant else bits == self
  }

  // S_Base::fitsRequirements: some requirement matches, with itself as the relevance.
  predicate Fits(requirements: seq<Bitset>, bits: Bitset) {
    exists k :: 0 <= k < |requirements| && Matches(requirements[k], bits, requirements[k])
  }

  // A non-zero requirement r fits a mask exactly when the mask includes r.
  lemma MatchesIsInclusion(r: Bitset, bits: Bitset)
    requires r != {}
    ensures Matches(r, bits, r) <==> r <= bits
  {
    assert r * r == r;
    if bits * r == r {
      assert forall i :: i in r ==> i in bits * r;
    }
  }

  // With relevance 0 the test degenerates to equality, so the empty mask fits a table exactly
  // when the table holds the zero requirement.
  lemma EmptyMaskFits(requirements: seq<Bitset>)
    ensures Fits(requirements, {}) <==> {} in requirements
  {
    forall k | 0 <= k < |requirements|
      ensures Matches(requirements[k], {}, requirements[k]) <==> requirements[k] == {}
    {
      if requirements[k] != {} {
        MatchesIsInclusion(requirements[k], {});
      }
    }
  }

  // For tables without the zero requirement the test is "the mask includes one of the requirements".
  lemma FitsIsInclusion(requirements: seq<Bitset>, bits: Bitset)
    requires {} !in requirements
    ensures Fits(requirements, bits) <==> exists k :: 0 <= k < |requirements| && requirements[k] <= bits
  {
    forall k | 0 <= k < |requirements|
      ensures Matches(requirements[k], bits, requirements[k]) <==> requirements[k] <= bits
    {
      MatchesIsInclusion(requirements[k], bits);
    }
  }

  // Two masks that agree on every position a table asks for fit the table alike.
  lemma FitsDependsOnRequiredBits(requirements: seq<Bitset>, a: Bitset, b: Bitset, asked: Bitset)
    requires {} !in requirements
    requires forall k :: 0 <= k < |requirements| ==> requirements[k] <= asked
    requires a * asked == b * asked
    ensures Fits(requirements, a) <==> Fits(requirements, b)
  {
    FitsIsInclusion(requirements, a);
    FitsIsInclusion(requirements, b);
    forall r: Bitset | r <= asked
      ensures r <= a <==> r <= b
    {
      assert forall i :: i in asked ==> (i in a <==> i in a * asked);
      assert forall i :: i in asked ==> (i in b <==> i in b * asked);
    }
  }
}
