/** The field evaluator: scalar potential and electric field at a pixel, as a
    direct superposition over the charge store.

    The Euclidean distance `sqrt(dx^2 + dy^2)` is not computed here: every
    operation takes it as the parameter `dist`, applied to the displacement
    `(x - cx, y - cy)` from a charge to the query point. Only its value
    matters to the skip policy: a charge whose distance is exactly 0 is left
    out of the sum. */
module Field {
  import opened Charges

  /** The electrostatic constant. */
  const K: real := 9000000000.0

  datatype Vec = Vec(ex: real, ey: real) {
    function Add(other: Vec): Vec {
      Vec(ex + other.ex, ey + other.ey)
    }
  }

  /** The three quantities summed over the store. */
  datatype Quantity = Potential | FieldX | FieldY

  /** A non-zero distance has a non-zero cube. */
  lemma CubeNonZero(d: real)
    requires d != 0.0
    ensures d * d * d != 0.0
  {
  }

  /** The potential of charge `q` at distance `d`: K q / d. */
  function PotentialTerm(q: int, d: real): real
    requires d != 0.0
  {
    K * q as real / d
  }

  /** One field component of charge `q` at distance `d`, with displacement
      `delta` along that axis: K q delta / d^3. */
  function FieldTerm(q: int, delta: int, d: real): real
    requires d != 0.0
  {
    CubeNonZero(d);
    K * q as real * delta as real / (d * d * d)
  }

  /** One charge's contribution to `which` at `(x, y)`; zero when the charge
      sits at distance 0 from the query point. */
  function Term(which: Quantity, c: Charge, x: int, y: int, dist: (int, int) -> real): real
  {
    var d := dist(x - c.x, y - c.y);
    if d == 0.0 then 0.0
    else
      match which
      case Potential => PotentialTerm(c.q, d)
      case FieldX => FieldTerm(c.q, x - c.x, d)
      case FieldY => FieldTerm(c.q, y - c.y, d)
  }

  /** The accumulated sum, left to right over the store, as `potential` and
      `electric_field` in main.py accumulate it. */
  function Sum(which: Quantity, cs: seq<Charge>, x: int, y: int, dist: (int, int) -> real): real
  {
    if cs == [] then 0.0
    else Sum(which, cs[..|cs| - 1], x, y, dist) + Term(which, cs[|cs| - 1], x, y, dist)
  }

  function PotentialAt(cs: seq<Charge>, x: int, y: int, dist: (int, int) -> real): real {
    Sum(Potential, cs, x, y, dist)
  }

  function FieldAt(cs: seq<Charge>, x: int, y: int, dist: (int, int) -> real): Vec {
    Vec(Sum(FieldX, cs, x, y, dist), Sum(FieldY, cs, x, y, dist))
  }

  /** Summing over two stores one after the other is the sum of the two sums. */
  lemma {:induction false} SumConcat(which: Quantity, a: seq<Charge>, b: seq<Charge>, x: int, y: int, dist: (int, int) -> real)
    ensures Sum(which, a + b, x, y, dist) == Sum(which, a, x, y, dist) + Sum(which, b, x, y, dist)
  {
    if b == [] {
      assert a + b == a;
    } else {
      var b' := b[..|b| - 1];
      assert (a + b)[..|a + b| - 1] == a + b';
      SumConcat(which, a, b', x, y, dist);
    }
  }

  /** Extending a prefix of the store by one charge adds that charge's term. */
  lemma SumPrefixStep(which: Quantity, cs: seq<Charge>, i: nat, x: int, y: int, dist: (int, int) -> real)
    requires i < |cs|
    ensures Sum(which, cs[..i + 1], x, y, dist) == Sum(which, cs[..i], x, y, dist) + Term(which, cs[i], x, y, dist)
  {
    assert cs[..i + 1][..i] == cs[..i];
  }

  /** Superposition: the potential and field of a store split in two are the
      sums of those of the parts. */
  lemma Superposition(a: seq<Charge>, b: seq<Charge>, x: int, y: int, dist: (int, int) -> real)
    ensures PotentialAt(a + b, x, y, dist) == PotentialAt(a, x, y, dist) + PotentialAt(b, x, y, dist)
    ensures FieldAt(a + b, x, y, dist) == FieldAt(a, x, y, dist).Add(FieldAt(b, x, y, dist))
  {
    SumConcat(Potential, a, b, x, y, dist);
    SumConcat(FieldX, a, b, x, y, dist);
    SumConcat(FieldY, a, b, x, y, dist);
  }

  /** An empty store has zero potential and zero field everywhere. */
  lemma EmptyStore(x: int, y: int, dist: (int, int) -> real)
    ensures PotentialAt([], x, y, dist) == 0.0
    ensures FieldAt([], x, y, dist) == Vec(0.0, 0.0)
  {
  }

  /** Placing one more charge adds exactly that charge's term to each sum. */
  lemma AppendAddsOneTerm(cs: seq<Charge>, c: Charge, x: int, y: int, dist: (int, int) -> real)
    ensures PotentialAt(cs + [c], x, y, dist) == PotentialAt(cs, x, y, dist) + Term(Potential, c, x, y, dist)
    ensures FieldAt(cs + [c], x, y, dist)
         == FieldAt(cs, x, y, dist).Add(Vec(Term(FieldX, c, x, y, dist), Term(FieldY, c, x, y, dist)))
  {
    assert (cs + [c])[..|cs + [c]| - 1] == cs;
  }

  /** The skip policy: a charge at distance 0 from the query point contributes
      nothing, wherever it is in the store. */
  lemma CoincidentChargeIgnored(cs: seq<Charge>, k: nat, x: int, y: int, dist: (int, int) -> real)
    requires k < |cs| && dist(x - cs[k].x, y - cs[k].y) == 0.0
    ensures PotentialAt(cs, x, y, dist) == PotentialAt(cs[..k] + cs[k + 1..], x, y, dist)
    ensures FieldAt(cs, x, y, dist) == FieldAt(cs[..k] + cs[k + 1..], x, y, dist)
  {
    var before, after := cs[..k], cs[k + 1..];
    assert cs == before + [cs[k]] + after;
    Superposition(before + [cs[k]], after, x, y, dist);
    AppendAddsOneTerm(before, cs[k], x, y, dist);
    Superposition(before, after, x, y, dist);
  }

  /** A store whose every charge is at distance 0 from the query point gives
      zero for each summed quantity: every term is skipped. */
  lemma {:induction false} SilentStore(which: Quantity, cs: seq<Charge>, x: int, y: int, dist: (int, int) -> real)
    requires forall i :: 0 <= i < |cs| ==> dist(x - cs[i].x, y - cs[i].y) == 0.0
    ensures Sum(which, cs, x, y, dist) == 0.0
  {
    if cs != [] {
      var prefix := cs[..|cs| - 1];
      assert forall i :: 0 <= i < |prefix| ==> prefix[i] == cs[i];
      SilentStore(which, prefix, x, y, dist);
    }
  }

  /** Equal and opposite charges at equal distances contribute opposite potential terms. */
  lemma OppositeTerms(c1: Charge, c2: Charge, x: int, y: int, dist: (int, int) -> real)
    requires c2.q == -c1.q
    requires dist(x - c1.x, y - c1.y) == dist(x - c2.x, y - c2.y)
    ensures Term(Potential, c2, x, y, dist) == -Term(Potential, c1, x, y, dist)
  {
    var d := dist(x - c1.x, y - c1.y);
    if d != 0.0 {
      var a := K * c1.q as real;
      assert K * c2.q as real == -a;
      assert (-a) / d == -(a / d);
      assert PotentialTerm(c2.q, d) == -PotentialTerm(c1.q, d);
    }
  }

  /** Two equal and opposite charges at the same distance from the query point
      cancel in the potential (the midpoint of a +q / -q pair lies at 0). */
  lemma OppositeChargesCancel(c1: Charge, c2: Charge, x: int, y: int, dist: (int, int) -> real)
    requires c2.q == -c1.q
    requires dist(x - c1.x, y - c1.y) == dist(x - c2.x, y - c2.y)
    ensures PotentialAt([c1, c2], x, y, dist) == 0.0
  {
    var t1, t2 := Term(Potential, c1, x, y, dist), Term(Potential, c2, x, y, dist);
    OppositeTerms(c1, c2, x, y, dist);
    assert [c1, c2][..1] == [c1] && [c1][..0] == [];
    assert Sum(Potential, [c1], x, y, dist) == Sum(Potential, [], x, y, dist) + t1;
    assert Sum(Potential, [c1, c2], x, y, dist) == Sum(Potential, [c1], x, y, dist) + t2;
  }

  /** The accumulator loop of `potential`: adds one term per charge, skipping
      charges at distance 0. */
  method ComputePotential(cs: seq<Charge>, x: int, y: int, dist: (int, int) -> real) returns (v: real)
    ensures v == PotentialAt(cs, x, y, dist)
  {
    v := 0.0;
    for i := 0 to |cs|
      invariant v == Sum(Potential, cs[..i], x, y, dist)
    {
      var c := cs[i];
      var d := dist(x - c.x, y - c.y);
      if d != 0.0 {
        v := v + PotentialTerm(c.q, d);
      }
      SumPrefixStep(Potential, cs, i, x, y, dist);
    }
    assert cs[..|cs|] == cs;
  }

  /** The accumulator loop of `electric_field`: both components in one pass,
      with the same skip policy. */
  method ComputeField(cs: seq<Charge>, x: int, y: int, dist: (int, int) -> real) returns (e: Vec)
    ensures e == FieldAt(cs, x, y, dist)
  {
    var ex, ey := 0.0, 0.0;
    for i := 0 to |cs|
      invariant ex == Sum(FieldX, cs[..i], x, y, dist)
      invariant ey == Sum(FieldY, cs[..i], x, y, dist)
    {
      var c := cs[i];
      var d := dist(x - c.x, y - c.y);
      if d != 0.0 {
        ex := ex + FieldTerm(c.q, x - c.x, d);
        ey := ey + FieldTerm(c.q, y - c.y, d);
      }
      SumPrefixStep(FieldX, cs, i, x, y, dist);
      SumPrefixStep(FieldY, cs, i, x, y, dist);
    }
    assert cs[..|cs|] == cs;
    e := Vec(ex, ey);
  }
}
