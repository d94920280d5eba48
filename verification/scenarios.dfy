/** Concrete queries against the shipped database. */
module Scenarios {
  import opened Results
  import opened Materials
  import opened PureMaterial
  import Alloy
  import Equat

  /** GaAs without overrides. */
  const PlainGaAs: PureResolver := PureResolver("GaAs", map[])

  /** GaAs valence edges and Gamma mass from the table. */
  lemma GaAsValenceEdges()
    ensures VBH(Seed, PlainGaAs) == Ok(1.46)
    ensures VBL(Seed, PlainGaAs) == Ok(1.46)
    ensures VBSO(Seed, PlainGaAs) == Ok(1.119)
    ensures Mg(Seed, PlainGaAs) == Ok(0.067)
  {
  }

  /** The GaAs Gamma gap at zero kelvin is the tabulated 1.519 eV. */
  lemma GaAsGammaGapAtZeroKelvin()
    ensures BandGap(Seed, PlainGaAs, Gamma, 0.0) == Ok(1.519)
  {
  }

  /** Overriding only alpha (to zero) leaves the tabulated gap and beta in
      force, so the 300 K gap becomes the zero-kelvin one. */
  lemma GaAsAlphaOverride()
    ensures BandGap(Seed, PureResolver("GaAs", map["BGGa" := Num(0.0)]), Gamma, 300.0) == Ok(1.519)
  {
  }

  /** An energy shift moves the valence edge but not the gap. */
  lemma GaAsShifted()
    ensures VBH(Seed, PureResolver("GaAs", map["EnShift" := Num(0.5)])) == Ok(1.96)
    ensures BandGap(Seed, PureResolver("GaAs", map["EnShift" := Num(0.5)]), Gamma, 0.0) == Ok(1.519)
  {
    GaAsValenceEdges();
    GaAsGammaGapAtZeroKelvin();
    ShiftAddedOnceToValenceBands(Seed, PlainGaAs, 0.5);
    GapIgnoresShift(Seed, PlainGaAs, Gamma, 0.0, Num(0.5));
    assert Unshifted(PlainGaAs) == PlainGaAs;
    assert WithShift(PlainGaAs, 0.5) == PureResolver("GaAs", map["EnShift" := Num(0.5)]);
  }

  /** An unknown pure name fails at query time, even when the override set
      supplies the key asked for. */
  lemma UnknownPureName()
    ensures VBH(Seed, PureResolver("InAs", map["VBen" := Num(0.8)])) == Err(UnknownMaterial("InAs"))
  {
  }

  /** An unknown alloy name fails at construction. */
  lemma UnknownAlloyName()
    ensures Alloy.NewAlloy(Seed, "InGaAs", map[], map[], map[]) == Err(UnknownAlloy("InGaAs"))
  {
  }

  /** The AlGaAs resolver the module-level script builds, at x = 0.3:
      0.3 * 0.95 + 0.7 * 1.46 = 1.307 eV. */
  lemma AlGaAsValenceAtThirtyPercent()
    ensures Alloy.NewAlloy(Seed, "AlGaAs", map["EnShift" := Num(0.0)], map[], map[]).Ok?
    ensures Alloy.VBH(Seed, Alloy.NewAlloy(Seed, "AlGaAs", map["EnShift" := Num(0.0)], map[], map[]).value, 0.3) == Ok(1.307)
  {
    var al := Alloy.AlloyResolver("AlGaAs", map["EnShift" := Num(0.0)], PureResolver("AlAs", map[]), PlainGaAs);
    assert Alloy.NewAlloy(Seed, "AlGaAs", map["EnShift" := Num(0.0)], map[], map[]) == Ok(al);
    GaAsValenceEdges();
    assert VBH(Seed, al.mat1) == Ok(0.95);
    assert Alloy.BowParam(Seed, al, "VBbow") == Ok(0.0);
    assert Alloy.Mix(0.3, 0.95, 1.46, 0.0) == 1.307;
  }

  /** As written, the GaAs Gamma conduction edge asked for at 0 K uses the
      300 K gap, so it differs from the valence edge plus the 0 K gap
      (1.46 + 1.519 eV), which the corrected definition returns. */
  lemma GaAsGammaEdgeAtZeroKelvin()
    ensures ConductionBandAt(Seed, PlainGaAs, Gamma, 0.0) == Ok(2.979)
    ensures ConductionBand(Seed, PlainGaAs, Gamma, 0.0) != Ok(2.979)
  {
    GaAsValenceEdges();
    GaAsGammaGapAtZeroKelvin();
    GaAsGammaGapAtRoomTemp();
  }

  /** At 300 K the GaAs Gamma gap lies below its zero-kelvin value. */
  lemma GaAsGammaGapAtRoomTemp()
    ensures BandGap(Seed, PlainGaAs, Gamma, 300.0).Ok?
    ensures BandGap(Seed, PlainGaAs, Gamma, 300.0).value < 1.519
  {
    assert Resolved(Seed, PlainGaAs, "BGGen") == 1.519;
    assert Resolved(Seed, PlainGaAs, "BGGa") == 0.0005405;
    assert Resolved(Seed, PlainGaAs, "BGGb") == 204.0;
    assert Equat.Varshni(300.0, 1.519, 0.0005405, 204.0) < 1.519;
  }
}
