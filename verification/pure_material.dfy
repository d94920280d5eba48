/** The pure-material resolver (`mater_pure`): a material name and an
    override set; every query reads each parameter key from the override set
    when present there, else from the material's database record. */
module PureMaterial {
  import opened Results
  import opened Materials
  import opened Equat

  /** A resolver: the constructor stores the name unchecked. */
  datatype PureResolver = PureResolver(name: string, overwrite: Params)

  /** A conduction-band minimum. */
  datatype Valley = Gamma | L | X

  /** The zero-kelvin gap, alpha and beta keys of a valley. */
  function GapKeys(v: Valley): (string, string, string)
  {
    match v
    case Gamma => ("BGGen", "BGGa", "BGGb")
    case L => ("BGLen", "BGLa", "BGLb")
    case X => ("BGXen", "BGXa", "BGXb")
  }

  const DefaultTemp: real := 300.0

  // ---------------------------------------------------------------------
  // Reference view: the record merged with the overrides

  /** The parameters a resolver sees: its database record with every
      overridden key replaced (map union, the override set winning). */
  function Effective(db: Database, m: PureResolver): Params
    requires m.name in db.pure
  {
    db.pure[m.name] + m.overwrite
  }

  /** Key `k` resolves to a number for resolver `m`. */
  predicate Resolves(db: Database, m: PureResolver, k: string)
  {
    m.name in db.pure && k in Effective(db, m) && Effective(db, m)[k].Num?
  }

  /** The number key `k` resolves to. */
  function Resolved(db: Database, m: PureResolver, k: string): real
    requires Resolves(db, m, k)
  {
    Effective(db, m)[k].val
  }

  /** The energy shift is absent (zero) or a number. */
  predicate ShiftOk(ovr: Params)
  {
    "EnShift" !in ovr || ovr["EnShift"].Num?
  }

  /** The energy shift: only ever read from the override set, zero if absent. */
  function Shift(ovr: Params): real
    requires ShiftOk(ovr)
  {
    if "EnShift" in ovr then ovr["EnShift"].val else 0.0
  }

  // ---------------------------------------------------------------------
  // Lookups as the source performs them

  /** `PURESEM[name]`: the material's record. */
  function Record(db: Database, name: string): Result<Params>
  {
    if name in db.pure then Ok(db.pure[name]) else Err(UnknownMaterial(name))
  }

  /** `overwrite.get(k, record.get(k))`. */
  function Pick(rec: Params, ovr: Params, k: string): Option<Value>
  {
    Get(ovr, k, Get(rec, k, None))
  }

  /** One parameter lookup as every query performs it. The record is fetched
      before the override set is consulted, so an unknown name fails even
      for a key that is overridden. */
  function Param(db: Database, m: PureResolver, k: string): (r: Result<Option<Value>>)
    ensures m.name !in db.pure ==> r == Err(UnknownMaterial(m.name))
    ensures m.name in db.pure && k in m.overwrite ==> r == Ok(Some(m.overwrite[k]))
    ensures m.name in db.pure && k !in m.overwrite && k in db.pure[m.name] ==> r == Ok(Some(db.pure[m.name][k]))
    ensures m.name in db.pure && k !in m.overwrite && k !in db.pure[m.name] ==> r == Ok(None)
  {
    var rec :- Record(db, m.name);
    Ok(Pick(rec, m.overwrite, k))
  }

  /** Using a looked-up value as a number: `None` or a tuple in arithmetic
      raises `TypeError`. */
  function AsReal(k: string, o: Option<Value>): Result<real>
  {
    match o
    case None => Err(MissingParameter(k))
    case Some(Tuple(_)) => Err(WrongKind(k))
    case Some(Num(n)) => Ok(n)
  }

  /** `overwrite.get('EnShift', 0.0)` used as a number. */
  function ShiftParam(ovr: Params): (r: Result<real>)
    ensures r.Ok? <==> ShiftOk(ovr)
    ensures r.Ok? ==> r.value == Shift(ovr)
    ensures r.Err? ==> r.error == WrongKind("EnShift")
  {
    AsReal("EnShift", Get(ovr, "EnShift", Some(Num(0.0))))
  }

  // ---------------------------------------------------------------------
  // Queries

  /** Heavy-hole valence-band edge: VBen + EnShift. */
  function VBH(db: Database, m: PureResolver): (r: Result<real>)
    ensures m.name !in db.pure ==> r == Err(UnknownMaterial(m.name))
    ensures r.Ok? <==> Resolves(db, m, "VBen") && ShiftOk(m.overwrite)
    ensures r.Ok? ==> r.value == Resolved(db, m, "VBen") + Shift(m.overwrite)
    ensures m.name in db.pure && "VBen" !in Effective(db, m) ==> r == Err(MissingParameter("VBen"))
    ensures m.name in db.pure && "VBen" in Effective(db, m) && Effective(db, m)["VBen"].Tuple? ==> r == Err(WrongKind("VBen"))
  {
    var rec :- Record(db, m.name);
    var e :- AsReal("VBen", Pick(rec, m.overwrite, "VBen"));
    var s :- ShiftParam(m.overwrite);
    Ok(e + s)
  }

  /** Light-hole valence-band edge: the source uses the heavy-hole formula. */
  function VBL(db: Database, m: PureResolver): (r: Result<real>)
    ensures m.name !in db.pure ==> r == Err(UnknownMaterial(m.name))
    ensures r.Ok? <==> Resolves(db, m, "VBen") && ShiftOk(m.overwrite)
    ensures r.Ok? ==> r.value == Resolved(db, m, "VBen") + Shift(m.overwrite)
    ensures m.name in db.pure && "VBen" !in Effective(db, m) ==> r == Err(MissingParameter("VBen"))
    ensures m.name in db.pure && "VBen" in Effective(db, m) && Effective(db, m)["VBen"].Tuple? ==> r == Err(WrongKind("VBen"))
  {
    var rec :- Record(db, m.name);
    var e :- AsReal("VBen", Pick(rec, m.overwrite, "VBen"));
    var s :- ShiftParam(m.overwrite);
    Ok(e + s)
  }

  /** Spin-orbit split-off band edge: VBen - VBSO + EnShift. */
  function VBSO(db: Database, m: PureResolver): (r: Result<real>)
    ensures m.name !in db.pure ==> r == Err(UnknownMaterial(m.name))
    ensures r.Ok? <==> Resolves(db, m, "VBen") && Resolves(db, m, "VBSO") && ShiftOk(m.overwrite)
    ensures r.Ok? ==> r.value == Resolved(db, m, "VBen") - Resolved(db, m, "VBSO") + Shift(m.overwrite)
    ensures m.name in db.pure && "VBen" !in Effective(db, m) ==> r == Err(MissingParameter("VBen"))
    ensures Resolves(db, m, "VBen") && "VBSO" !in Effective(db, m) ==> r == Err(MissingParameter("VBSO"))
  {
    var rec :- Record(db, m.name);
    var e :- AsReal("VBen", Pick(rec, m.overwrite, "VBen"));
    var split :- AsReal("VBSO", Pick(rec, m.overwrite, "VBSO"));
    var s :- ShiftParam(m.overwrite);
    Ok(e - split + s)
  }

  /** Band gap of a valley at `temp` (BGG, BGL, BGX): Varshni with that
      valley's own zero-kelvin gap, alpha and beta, each resolved on its own.
      Failures come in the order Python meets them: the record, then alpha
      (in `a * temp**2`), then beta (in `temp + b`), then the division, then
      the zero-kelvin gap (in `eg - ...`). */
  function BandGap(db: Database, m: PureResolver, v: Valley, temp: real): (r: Result<real>)
    ensures m.name !in db.pure ==> r == Err(UnknownMaterial(m.name))
    ensures r.Ok? <==>
      var (en, a, b) := GapKeys(v);
      Resolves(db, m, en) && Resolves(db, m, a) && Resolves(db, m, b) && temp + Resolved(db, m, b) != 0.0
    ensures r.Ok? ==>
      var (en, a, b) := GapKeys(v);
      r.value == Varshni(temp, Resolved(db, m, en), Resolved(db, m, a), Resolved(db, m, b))
    ensures r == Err(DivisionByZero) <==>
      var (en, a, b) := GapKeys(v);
      Resolves(db, m, a) && Resolves(db, m, b) && temp + Resolved(db, m, b) == 0.0
    // a key missing from both the overrides and the record, first in evaluation order
    ensures m.name in db.pure && GapKeys(v).1 !in Effective(db, m) ==> r == Err(MissingParameter(GapKeys(v).1))
    ensures Resolves(db, m, GapKeys(v).1) && GapKeys(v).2 !in Effective(db, m) ==> r == Err(MissingParameter(GapKeys(v).2))
    ensures Resolves(db, m, GapKeys(v).1) && Resolves(db, m, GapKeys(v).2)
            && temp + Resolved(db, m, GapKeys(v).2) != 0.0 && GapKeys(v).0 !in Effective(db, m)
            ==> r == Err(MissingParameter(GapKeys(v).0))
  {
    var (kEn, kA, kB) := GapKeys(v);
    var rec :- Record(db, m.name);
    var alpha :- AsReal(kA, Pick(rec, m.overwrite, kA));
    var beta :- AsReal(kB, Pick(rec, m.overwrite, kB));
    if temp + beta == 0.0 then Err(DivisionByZero)
    else
      var eg :- AsReal(kEn, Pick(rec, m.overwrite, kEn));
      Ok(Varshni(temp, eg, alpha, beta))
  }

  /** Conduction-band edge of a valley (CBG, CBL, CBX) as written: VBH plus
      the gap at the default 300 K; the `temp` argument is accepted and not
      used. */
  function ConductionBand(db: Database, m: PureResolver, v: Valley, temp: real): (r: Result<real>)
    ensures r.Ok? <==> VBH(db, m).Ok? && BandGap(db, m, v, DefaultTemp).Ok?
    ensures r.Ok? ==> r.value == VBH(db, m).value + BandGap(db, m, v, DefaultTemp).value
    ensures VBH(db, m).Err? ==> r == VBH(db, m)
    ensures VBH(db, m).Ok? && BandGap(db, m, v, DefaultTemp).Err? ==> r == BandGap(db, m, v, DefaultTemp)
  {
    var vb :- VBH(db, m);
    var g :- BandGap(db, m, v, DefaultTemp);
    Ok(vb + g)
  }

  /** Conduction-band edge of a valley evaluated at the requested
      temperature, as the method's signature evidently intends. */
  function ConductionBandAt(db: Database, m: PureResolver, v: Valley, temp: real): (r: Result<real>)
    ensures r.Ok? <==> VBH(db, m).Ok? && BandGap(db, m, v, temp).Ok?
    ensures r.Ok? ==> r.value == VBH(db, m).value + BandGap(db, m, v, temp).value
    ensures VBH(db, m).Err? ==> r == VBH(db, m)
    ensures VBH(db, m).Ok? && BandGap(db, m, v, temp).Err? ==> r == BandGap(db, m, v, temp)
  {
    var vb :- VBH(db, m);
    var g :- BandGap(db, m, v, temp);
    Ok(vb + g)
  }

  /** Gamma-valley effective mass: the first component of the resolved
      CBGmass tuple. */
  function Mg(db: Database, m: PureResolver): (r: Result<real>)
    ensures m.name !in db.pure ==> r == Err(UnknownMaterial(m.name))
    ensures r.Ok? <==>
      m.name in db.pure && "CBGmass" in Effective(db, m)
      && Effective(db, m)["CBGmass"].Tuple? && |Effective(db, m)["CBGmass"].items| > 0
    ensures r.Ok? ==> r.value == Effective(db, m)["CBGmass"].items[0]
    ensures m.name in db.pure && "CBGmass" !in Effective(db, m) ==> r == Err(MissingParameter("CBGmass"))
    ensures m.name in db.pure && "CBGmass" in Effective(db, m) && Effective(db, m)["CBGmass"].Num? ==> r == Err(WrongKind("CBGmass"))
    ensures m.name in db.pure && "CBGmass" in Effective(db, m) && Effective(db, m)["CBGmass"] == Tuple([])
            ==> r == Err(EmptyTuple("CBGmass"))
  {
    var rec :- Record(db, m.name);
    match Pick(rec, m.overwrite, "CBGmass")
    case None => Err(MissingParameter("CBGmass"))
    case Some(Num(_)) => Err(WrongKind("CBGmass"))
    case Some(Tuple(s)) => if |s| == 0 then Err(EmptyTuple("CBGmass")) else Ok(s[0])
  }

  // ---------------------------------------------------------------------
  // Properties

  /** Override precedence is a right-biased merge: looking a key up the
      source's way equals looking it up in the record merged with the
      overrides. */
  lemma ParamReadsMergedRecord(db: Database, m: PureResolver, k: string)
    requires m.name in db.pure
    ensures Param(db, m, k) == Ok(if k in Effective(db, m) then Some(Effective(db, m)[k]) else None)
  {
  }

  /** Keys resolve independently: setting or removing one key of the
      override set leaves every other key's resolution unchanged, and the
      key set resolves to the new value. */
  lemma ParamIndependentOfOtherKeys(db: Database, m: PureResolver, k: string, j: string, w: Value)
    requires j != k
    ensures Param(db, m.(overwrite := m.overwrite[j := w]), k) == Param(db, m, k)
    ensures Param(db, m.(overwrite := m.overwrite - {j}), k) == Param(db, m, k)
    ensures m.name in db.pure ==> Param(db, m.(overwrite := m.overwrite[j := w]), j) == Ok(Some(w))
  {
  }

  /** A pure name missing from the database fails every query with
      `UnknownMaterial`, whatever the override set supplies. */
  lemma UnknownMaterialFailsEveryQuery(db: Database, m: PureResolver, v: Valley, temp: real)
    requires m.name !in db.pure
    ensures VBH(db, m) == Err(UnknownMaterial(m.name))
    ensures VBL(db, m) == Err(UnknownMaterial(m.name))
    ensures VBSO(db, m) == Err(UnknownMaterial(m.name))
    ensures BandGap(db, m, v, temp) == Err(UnknownMaterial(m.name))
    ensures ConductionBand(db, m, v, temp) == Err(UnknownMaterial(m.name))
    ensures ConductionBandAt(db, m, v, temp) == Err(UnknownMaterial(m.name))
    ensures Mg(db, m) == Err(UnknownMaterial(m.name))
  {
  }

  /** The light-hole and heavy-hole edges coincide for every material and
      override set. */
  lemma LightHoleEqualsHeavyHole(db: Database, m: PureResolver)
    ensures VBL(db, m) == VBH(db, m)
  {
  }

  /** The split-off edge lies the resolved spin-orbit splitting below the
      heavy-hole edge. */
  lemma SplitOffBelowHeavyHole(db: Database, m: PureResolver)
    ensures VBSO(db, m).Ok? <==> VBH(db, m).Ok? && Resolves(db, m, "VBSO")
    ensures VBSO(db, m).Ok? ==> VBSO(db, m).value == VBH(db, m).value - Resolved(db, m, "VBSO")
  {
  }

  /** `m` with the energy shift set to `d`. */
  function WithShift(m: PureResolver, d: real): PureResolver
  {
    m.(overwrite := m.overwrite["EnShift" := Num(d)])
  }

  /** `m` with no energy shift. */
  function Unshifted(m: PureResolver): PureResolver
  {
    m.(overwrite := m.overwrite - {"EnShift"})
  }

  /** The energy shift defaults to zero and is added exactly once to each
      valence-band edge. */
  lemma ShiftAddedOnceToValenceBands(db: Database, m: PureResolver, d: real)
    ensures VBH(db, WithShift(m, d)).Ok? <==> VBH(db, Unshifted(m)).Ok?
    ensures VBH(db, WithShift(m, d)).Ok? ==> VBH(db, WithShift(m, d)).value == VBH(db, Unshifted(m)).value + d
    ensures VBL(db, WithShift(m, d)).Ok? <==> VBL(db, Unshifted(m)).Ok?
    ensures VBL(db, WithShift(m, d)).Ok? ==> VBL(db, WithShift(m, d)).value == VBL(db, Unshifted(m)).value + d
    ensures VBSO(db, WithShift(m, d)).Ok? <==> VBSO(db, Unshifted(m)).Ok?
    ensures VBSO(db, WithShift(m, d)).Ok? ==> VBSO(db, WithShift(m, d)).value == VBSO(db, Unshifted(m)).value + d
  {
    var ms := WithShift(m, d);
    var m0 := Unshifted(m);
    ParamIndependentOfOtherKeys(db, m0, "VBen", "EnShift", Num(d));
    ParamIndependentOfOtherKeys(db, m0, "VBSO", "EnShift", Num(d));
    assert ms.overwrite == m0.overwrite["EnShift" := Num(d)];
  }

  /** Band gaps never see the energy shift, whatever value it holds. */
  lemma GapIgnoresShift(db: Database, m: PureResolver, v: Valley, temp: real, w: Value)
    ensures BandGap(db, m.(overwrite := m.overwrite["EnShift" := w]), v, temp) == BandGap(db, Unshifted(m), v, temp)
  {
    var (en, a, b) := GapKeys(v);
    var m0 := Unshifted(m);
    var ms := m.(overwrite := m.overwrite["EnShift" := w]);
    assert ms.overwrite == m0.overwrite["EnShift" := w];
    ParamIndependentOfOtherKeys(db, m0, en, "EnShift", w);
    ParamIndependentOfOtherKeys(db, m0, a, "EnShift", w);
    ParamIndependentOfOtherKeys(db, m0, b, "EnShift", w);
  }

  /** The energy shift reaches each conduction-band edge exactly once,
      through the heavy-hole edge, and not a second time through the gap. */
  lemma ShiftAddedOnceToConductionBands(db: Database, m: PureResolver, v: Valley, temp: real, d: real)
    ensures ConductionBand(db, WithShift(m, d), v, temp).Ok? <==> ConductionBand(db, Unshifted(m), v, temp).Ok?
    ensures ConductionBand(db, WithShift(m, d), v, temp).Ok? ==>
      ConductionBand(db, WithShift(m, d), v, temp).value == ConductionBand(db, Unshifted(m), v, temp).value + d
  {
    ShiftAddedOnceToValenceBands(db, m, d);
    GapIgnoresShift(db, m, v, DefaultTemp, Num(d));
  }

  /** At zero kelvin a gap is its resolved zero-kelvin value, whenever beta
      is non-zero. */
  lemma GapAtZeroKelvin(db: Database, m: PureResolver, v: Valley)
    ensures BandGap(db, m, v, 0.0).Ok? ==> BandGap(db, m, v, 0.0).value == Resolved(db, m, GapKeys(v).0)
  {
  }

  /** As written, a conduction-band edge is the same at every requested
      temperature: the 300 K gap is always used. */
  lemma ConductionBandIgnoresTemp(db: Database, m: PureResolver, v: Valley, t1: real, t2: real)
    ensures ConductionBand(db, m, v, t1) == ConductionBand(db, m, v, t2)
    ensures ConductionBand(db, m, v, t1) == ConductionBandAt(db, m, v, DefaultTemp)
  {
  }

  /** Corrected edge: above the heavy-hole edge by exactly the gap at the
      requested temperature, and, with physical Varshni constants, never
      higher when warmer. */
  lemma ConductionBandAtFollowsGap(db: Database, m: PureResolver, v: Valley, t1: real, t2: real)
    requires 0.0 <= t1 <= t2
    requires Resolves(db, m, GapKeys(v).1) && 0.0 <= Resolved(db, m, GapKeys(v).1)
    requires Resolves(db, m, GapKeys(v).2) && 0.0 < Resolved(db, m, GapKeys(v).2)
    ensures ConductionBandAt(db, m, v, t1).Ok? <==> ConductionBandAt(db, m, v, t2).Ok?
    ensures ConductionBandAt(db, m, v, t2).Ok? ==>
      ConductionBandAt(db, m, v, t2).value <= ConductionBandAt(db, m, v, t1).value
  {
    var (en, a, b) := GapKeys(v);
    if ConductionBandAt(db, m, v, t2).Ok? {
      VarshniNonIncreasing(t1, t2, Resolved(db, m, en), Resolved(db, m, a), Resolved(db, m, b));
    }
  }
}
