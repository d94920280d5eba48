/** The two-component alloy resolver (`mater_alloy_double`): an alloy name,
    an alloy-level override set, and one pure resolver per component, each
    with its own override set. Alloy quantities mix the components linearly
    in the composition `x` with a quadratic bowing correction. */
module Alloy {
  import opened Results
  import opened Materials
  import PureMaterial
  import RealArith

  /** A constructed alloy resolver: `mat1` and `mat2` are the two component
      resolvers, `overwrite` the alloy-level override set. */
  datatype AlloyResolver = AlloyResolver(
    name: string,
    overwrite: Params,
    mat1: PureMaterial.PureResolver,
    mat2: PureMaterial.PureResolver)

  /** The constructor: looks the alloy up (failing on an unknown name) and
      wires component 1 to the first listed semiconductor with `ovr1` and
      component 2 to the second with `ovr2`. Component names are not
      checked here; a bad one fails at query time. */
  function NewAlloy(db: Database, name: string, overwrite: Params, ovr1: Params, ovr2: Params): (r: Result<AlloyResolver>)
    ensures r.Err? <==> name !in db.alloys
    ensures r.Err? ==> r.error == UnknownAlloy(name)
    ensures r.Ok? ==> r.value.name == name && r.value.overwrite == overwrite
    ensures r.Ok? ==> r.value.mat1 == PureMaterial.PureResolver(db.alloys[name].sem.0, ovr1)
    ensures r.Ok? ==> r.value.mat2 == PureMaterial.PureResolver(db.alloys[name].sem.1, ovr2)
  {
    if name !in db.alloys then Err(UnknownAlloy(name))
    else
      var sem := db.alloys[name].sem;
      Ok(AlloyResolver(name, overwrite,
        PureMaterial.PureResolver(sem.0, ovr1),
        PureMaterial.PureResolver(sem.1, ovr2)))
  }

  /** The alloy interpolation law: x * p1 + (1 - x) * p2 - x * (1 - x) * bow. */
  function Mix(x: real, p1: real, p2: real, bow: real): real
  {
    x * p1 + (1.0 - x) * p2 - x * (1.0 - x) * bow
  }

  /** The bowing coefficient `k` resolves to a number. */
  predicate BowOk(db: Database, al: AlloyResolver, k: string)
  {
    && al.name in db.alloys
    && (k in al.overwrite ==> al.overwrite[k].Num?)
    && (k !in al.overwrite && k in db.alloys[al.name].params ==> db.alloys[al.name].params[k].Num?)
  }

  /** `overwrite.get(k, BINALLOY[name].get(k, 0.0))` used as a number:
      the override first, then the alloy record, then zero. */
  function BowParam(db: Database, al: AlloyResolver, k: string): (r: Result<real>)
    ensures al.name !in db.alloys ==> r == Err(UnknownAlloy(al.name))
    ensures r.Ok? <==> BowOk(db, al, k)
    ensures r.Ok? && k in al.overwrite ==> r.value == al.overwrite[k].val
    ensures r.Ok? && k !in al.overwrite && k in db.alloys[al.name].params ==> r.value == db.alloys[al.name].params[k].val
    ensures r.Ok? && k !in al.overwrite && k !in db.alloys[al.name].params ==> r.value == 0.0
  {
    if al.name !in db.alloys then Err(UnknownAlloy(al.name))
    else PureMaterial.AsReal(k, Get(al.overwrite, k, Get(db.alloys[al.name].params, k, Some(Num(0.0)))))
  }

  /** The alloy-level `VBen` override is absent or a number. */
  predicate VBenOk(ovr: Params)
  {
    "VBen" in ovr ==> ovr["VBen"].Num?
  }

  /** Heavy-hole valence-band edge at composition `x`. The interpolated
      value is computed first, even when the alloy override supplies `VBen`
      (so a failing component still fails the query); `VBen` then replaces
      it, and the alloy-level `EnShift` is added. */
  function VBH(db: Database, al: AlloyResolver, x: real): (r: Result<real>)
    ensures r.Ok? <==>
      && PureMaterial.VBH(db, al.mat1).Ok? && PureMaterial.VBH(db, al.mat2).Ok?
      && BowOk(db, al, "VBbow") && VBenOk(al.overwrite) && PureMaterial.ShiftOk(al.overwrite)
    ensures r.Ok? && "VBen" !in al.overwrite ==>
      r.value == Mix(x, PureMaterial.VBH(db, al.mat1).value, PureMaterial.VBH(db, al.mat2).value,
                     BowParam(db, al, "VBbow").value)
                 + PureMaterial.Shift(al.overwrite)
    ensures r.Ok? && "VBen" in al.overwrite ==>
      r.value == al.overwrite["VBen"].val + PureMaterial.Shift(al.overwrite)
    // component failures (unknown name, missing or mistyped VBen) propagate, component 1 first
    ensures PureMaterial.VBH(db, al.mat1).Err? ==> r == PureMaterial.VBH(db, al.mat1)
    ensures PureMaterial.VBH(db, al.mat1).Ok? && PureMaterial.VBH(db, al.mat2).Err? ==> r == PureMaterial.VBH(db, al.mat2)
    ensures PureMaterial.VBH(db, al.mat1).Ok? && PureMaterial.VBH(db, al.mat2).Ok? && al.name !in db.alloys
            ==> r == Err(UnknownAlloy(al.name))
  {
    var v1 :- PureMaterial.VBH(db, al.mat1);
    var v2 :- PureMaterial.VBH(db, al.mat2);
    var bow :- BowParam(db, al, "VBbow");
    var mean := Mix(x, v1, v2, bow);
    var vb :- PureMaterial.AsReal("VBen", Get(al.overwrite, "VBen", Some(Num(mean))));
    var s :- PureMaterial.ShiftParam(al.overwrite);
    Ok(vb + s)
  }

  // ---------------------------------------------------------------------
  // Properties of the interpolation law

  /** The law meets the components at the ends of the composition range,
      whatever the bowing. */
  lemma MixEndpoints(p1: real, p2: real, bow: real)
    ensures Mix(1.0, p1, p2, bow) == p1
    ensures Mix(0.0, p1, p2, bow) == p2
  {
  }

  /** Without bowing, an alloy value lies between its components' values
      for every composition in [0, 1]. */
  lemma MixBetweenComponents(x: real, p1: real, p2: real)
    requires 0.0 <= x <= 1.0
    ensures p1 <= p2 ==> p1 <= Mix(x, p1, p2, 0.0) <= p2
    ensures p2 <= p1 ==> p2 <= Mix(x, p1, p2, 0.0) <= p1
  {
    var w := x * (1.0 - x);
    assert w * 0.0 == 0.0;
    assert (1.0 - x) * p2 == p2 - x * p2;
    assert x * (p1 - p2) == x * p1 - x * p2;
    var d := p1 - p2;
    var t := x * d;
    assert Mix(x, p1, p2, 0.0) == p2 + t;
    ScaleBetween(x, d);
    assert d <= 0.0 ==> p1 <= p2 + t <= p2;
    assert 0.0 <= d ==> p2 <= p2 + t <= p1;
  }

  /** A fraction in [0, 1] of `d` lies between 0 and `d`. */
  lemma ScaleBetween(x: real, d: real)
    requires 0.0 <= x <= 1.0
    ensures d <= 0.0 ==> d <= x * d <= 0.0
    ensures 0.0 <= d ==> 0.0 <= x * d <= d
  {
    assert x * d - d == (x - 1.0) * d;
  }

  /** A non-negative bowing coefficient pulls the alloy value below the
      straight line between its components inside [0, 1]. */
  lemma MixBowingBelowLine(x: real, p1: real, p2: real, bow: real)
    requires 0.0 <= x <= 1.0 && 0.0 <= bow
    ensures Mix(x, p1, p2, bow) <= Mix(x, p1, p2, 0.0)
  {
    RealArith.NonNegativeProduct(x, 1.0 - x);
    RealArith.NonNegativeProduct(x * (1.0 - x), bow);
  }

  /** Shifting both components' inputs by `d` shifts the alloy value by
      exactly `d`: the weights sum to one. */
  lemma MixShift(x: real, p1: real, p2: real, bow: real, d: real)
    ensures Mix(x, p1 + d, p2 + d, bow) == Mix(x, p1, p2, bow) + d
  {
  }

  // ---------------------------------------------------------------------
  // Properties of the alloy resolver

  /** At x = 1 the edge is component 1's plus the alloy shift; at x = 0 it
      is component 2's plus the alloy shift. */
  lemma VBHEndpoints(db: Database, al: AlloyResolver)
    requires "VBen" !in al.overwrite
    ensures VBH(db, al, 1.0).Ok? ==>
      VBH(db, al, 1.0).value == PureMaterial.VBH(db, al.mat1).value + PureMaterial.Shift(al.overwrite)
    ensures VBH(db, al, 0.0).Ok? ==>
      VBH(db, al, 0.0).value == PureMaterial.VBH(db, al.mat2).value + PureMaterial.Shift(al.overwrite)
  {
    if VBH(db, al, 1.0).Ok? {
      MixEndpoints(PureMaterial.VBH(db, al.mat1).value, PureMaterial.VBH(db, al.mat2).value, BowParam(db, al, "VBbow").value);
    }
  }

  /** Success does not depend on the composition. */
  lemma VBHSucceedsForAllCompositions(db: Database, al: AlloyResolver, x: real, y: real)
    ensures VBH(db, al, x).Ok? <==> VBH(db, al, y).Ok?
  {
  }

  /** An alloy-level `VBen` fixes the edge at VBen + EnShift for every
      composition, whatever the components' edges and the bowing. */
  lemma VBenBypassesInterpolation(db: Database, al: AlloyResolver, other: AlloyResolver, x: real, y: real)
    requires "VBen" in al.overwrite
    requires other.name == al.name && other.overwrite == al.overwrite
    ensures VBH(db, al, x).Ok? && VBH(db, other, y).Ok? ==> VBH(db, al, x) == VBH(db, other, y)
  {
  }

  /** The alloy shift is added once, after mixing, and not weighted by the
      composition. */
  lemma AlloyShiftAddedOnce(db: Database, al: AlloyResolver, x: real, d: real)
    ensures var shifted := al.(overwrite := al.overwrite["EnShift" := Num(d)]);
            var plain := al.(overwrite := al.overwrite - {"EnShift"});
            (VBH(db, shifted, x).Ok? <==> VBH(db, plain, x).Ok?)
            && (VBH(db, shifted, x).Ok? ==> VBH(db, shifted, x).value == VBH(db, plain, x).value + d)
  {
    var shifted := al.(overwrite := al.overwrite["EnShift" := Num(d)]);
    var plain := al.(overwrite := al.overwrite - {"EnShift"});
    assert shifted.overwrite == plain.overwrite["EnShift" := Num(d)];
    assert "VBen" in shifted.overwrite <==> "VBen" in plain.overwrite;
    assert "VBbow" in shifted.overwrite <==> "VBbow" in plain.overwrite;
  }

  /** Without bowing, the edge lies between the two components' edges (plus
      the alloy shift) for every composition in [0, 1]. */
  lemma VBHBetweenComponents(db: Database, al: AlloyResolver, x: real)
    requires 0.0 <= x <= 1.0
    requires "VBen" !in al.overwrite
    ensures VBH(db, al, x).Ok? && BowParam(db, al, "VBbow").value == 0.0 ==>
      var lo := PureMaterial.VBH(db, al.mat1).value;
      var hi := PureMaterial.VBH(db, al.mat2).value;
      var e := VBH(db, al, x).value - PureMaterial.Shift(al.overwrite);
      (lo <= hi ==> lo <= e <= hi) && (hi <= lo ==> hi <= e <= lo)
  {
    if VBH(db, al, x).Ok? && BowParam(db, al, "VBbow").value == 0.0 {
      MixBetweenComponents(x, PureMaterial.VBH(db, al.mat1).value, PureMaterial.VBH(db, al.mat2).value);
    }
  }
}
