/** The component vector of an entity: find_if, push_back and erase, and the Body it stands for. */
module ComponentVectors {
  import opened Bitmasks
  import opened Components

  // The first component of type t.
  function Find(cs: seq<Component>, t: ComponentType): (r: Option<Component>)
    ensures r.Some? ==> r.value.Type() == t
  {
    if cs == [] then None
    else if cs[0].Type() == t then Some(cs[0])
    else Find(cs[1..], t)
  }

  predicate DistinctTypes(cs: seq<Component>) {
    forall j, k :: 0 <= j < k < |cs| ==> cs[j].Type() != cs[k].Type()
  }

  // The components a vector gives an entity: for each type, the first one.
  function ToBody(cs: seq<Component>): Body {
    if cs == [] then EMPTY_BODY else With(ToBody(cs[1..]), cs[0])
  }

  lemma {:induction false} FindIsPart(cs: seq<Component>, t: ComponentType)
    ensures Find(cs, t) == if Has(ToBody(cs), t) then Some(Part(ToBody(cs), t)) else None
  {
    if cs != [] {
      FindIsPart(cs[1..], t);
      PartWith(ToBody(cs[1..]), cs[0], t);
    }
  }

  lemma {:induction false} FindFirst(cs: seq<Component>, k: nat)
    requires k < |cs| && forall j :: 0 <= j < k ==> cs[j].Type() != cs[k].Type()
    ensures Find(cs, cs[k].Type()) == Some(cs[k])
  {
    if k > 0 {
      FindFirst(cs[1..], k - 1);
    }
  }

  lemma {:induction false} FindNone(cs: seq<Component>, t: ComponentType)
    requires forall j :: 0 <= j < |cs| ==> cs[j].Type() != t
    ensures Find(cs, t) == None
  {
    if cs != [] {
      FindNone(cs[1..], t);
    }
  }

  lemma WithTwice(b: Body, c: Component, d: Component)
    ensures c.Type() == d.Type() ==> With(With(b, d), c) == With(b, c)
    ensures c.Type() != d.Type() ==> With(With(b, d), c) == With(With(b, c), d)
  {
  }

  // Writing through the pointer to the component at k.
  lemma {:induction false} ToBodyWrite(cs: seq<Component>, k: nat, c: Component)
    requires k < |cs| && c.Type() == cs[k].Type() && forall j :: 0 <= j < k ==> cs[j].Type() != c.Type()
    ensures ToBody(cs[k := c]) == With(ToBody(cs), c)
  {
    if k == 0 {
      assert cs[0 := c][1..] == cs[1..];
      WithTwice(ToBody(cs[1..]), c, cs[0]);
    } else {
      assert cs[k := c][1..] == cs[1..][k - 1 := c];
      ToBodyWrite(cs[1..], k - 1, c);
      WithTwice(ToBody(cs[1..]), c, cs[0]);
    }
  }

  lemma {:induction false} ToBodyAppend(cs: seq<Component>, c: Component)
    requires forall j :: 0 <= j < |cs| ==> cs[j].Type() != c.Type()
    ensures ToBody(cs + [c]) == With(ToBody(cs), c)
  {
    if cs == [] {
      assert ToBody([c][1..]) == EMPTY_BODY;
    } else {
      assert (cs + [c])[1..] == cs[1..] + [c];
      ToBodyAppend(cs[1..], c);
      WithTwice(ToBody(cs[1..]), c, cs[0]);
    }
  }

  function Erased(cs: seq<Component>, k: nat): seq<Component>
    requires k < |cs|
  {
    cs[..k] + cs[k + 1..]
  }

  lemma DroppedWith(b: Body, c: Component, t: ComponentType)
    ensures c.Type() == t && !Has(b, t) ==> Dropped(With(b, c), t) == b
    ensures c.Type() != t ==> Dropped(With(b, c), t) == With(Dropped(b, t), c)
  {
  }

  lemma {:induction false} ToBodyErase(cs: seq<Component>, k: nat)
    requires k < |cs| && DistinctTypes(cs)
    ensures ToBody(Erased(cs, k)) == Dropped(ToBody(cs), cs[k].Type())
  {
    if k == 0 {
      FindNone(cs[1..], cs[0].Type());
      FindIsPart(cs[1..], cs[0].Type());
      DroppedWith(ToBody(cs[1..]), cs[0], cs[0].Type());
      assert Erased(cs, 0) == cs[1..];
    } else {
      assert Erased(cs, k)[1..] == Erased(cs[1..], k - 1);
      ToBodyErase(cs[1..], k - 1);
      DroppedWith(ToBody(cs[1..]), cs[0], cs[k].Type());
    }
  }

  // With distinct types every component of the vector is the one its bit stands for: a mask that matches the body
  // has exactly one component for each set bit, and none besides.
  lemma MaskCountsComponents(cs: seq<Component>, mask: Bitset, t: ComponentType)
    requires DistinctTypes(cs) && mask == Present(ToBody(cs))
    ensures t in mask <==> exists k :: 0 <= k < |cs| && cs[k].Type() == t
    ensures forall j, k | 0 <= j < |cs| && 0 <= k < |cs| :: cs[j].Type() == cs[k].Type() == t ==> j == k
  {
    FindIsPart(cs, t);
    HasIsPresence(ToBody(cs), t);
    if j :| 0 <= j < |cs| && cs[j].Type() == t {
      FindFirst(cs, j);
    } else {
      FindNone(cs, t);
    }
  }

  // find_if: the position of the first component of type t, or the end.
  method FindIndex(cs: seq<Component>, t: ComponentType) returns (k: nat)
    ensures k <= |cs|
    ensures forall j :: 0 <= j < k ==> cs[j].Type() != t
    ensures k < |cs| ==> cs[k].Type() == t
    ensures Has(ToBody(cs), t) <==> k < |cs|
    ensures k < |cs| ==> Part(ToBody(cs), t) == cs[k]
  {
    k := 0;
    while k < |cs| && cs[k].Type() != t
      invariant k <= |cs|
      invariant forall j :: 0 <= j < k ==> cs[j].Type() != t
    {
      k := k + 1;
    }
    FindIsPart(cs, t);
    if k < |cs| {
      FindFirst(cs, k);
    } else {
      FindNone(cs, t);
    }
  }
}
