# Semiconductor band parameters: the resolver layer

A Dafny model of the parameter-resolution layer of a small Python package
that answers band-structure questions for pure III-V semiconductors and
their two-component alloys. The layer consists of:

- the material database: the pure-semiconductor table (`PURESEM`, here
  `Materials.GaAs`, `Materials.AlAs`) and the alloy table (`BINALLOY`, here
  `Materials.AlGaAs`), gathered in `Materials.Seed`;
- the pure-material resolver `mater_pure` (`PureMaterial`), which answers the
  heavy-hole, light-hole and split-off valence-band edges, the Gamma, L and X
  band gaps, the matching conduction-band edges and the Gamma mass;
- the alloy resolver `mater_alloy_double` (`Alloy`): its constructor and its
  valence-band edge `VBH(x)`;
- the Varshni law `varshni(temp, eg, a, b)` (`Equat`).

Every quantity is a Dafny `real`. Every query returns a `Results.Result`:
the Python code never returns errors but raises `KeyError` (unknown name),
`TypeError` (a missing key reaches the arithmetic as `None`, or a tuple
meets a number), `IndexError` (an empty mass tuple) or `ZeroDivisionError`
(`temp + beta == 0`); each becomes one `Results.Error`. Where several
problems coexist, the error reported is the one Python's evaluation order
meets first.

Override precedence is modelled the way the code does it,
`overwrite.get(k, PURESEM[name].get(k))`, and proved equal to a lookup in
the record merged with the override set (`PureMaterial.Effective`, a
right-biased map union). The resolvers are plain datatypes holding the
constructor arguments; the database is passed to every query.

Behaviour of the code that the model keeps, where a reader might expect otherwise:

- The default in `overwrite.get(k, PURESEM[name].get(k))` is evaluated
  before the override is consulted, so a pure name missing from the table
  fails every query even when the override set supplies every key.
- The alloy-level `VBen` override does not skip the interpolation: the
  mixed value is still computed first, so a failing component still fails
  the query, and the result is `VBen + EnShift`, not `VBen` alone.
- `CBG`, `CBL` and `CBX` take a `temp` argument but always use the 300 K
  gap (see Findings).
- The gap at 0 K equals the tabulated zero-kelvin gap only when beta is
  non-zero; with beta = 0 the source divides by zero.

## Model

| member | source | states |
|---|---|---|
| Equat.Varshni | equat.py:8-20 | the gap drop times (temp + b) is a·temp²; at temp = 0 or with a = 0 the gap is eg; with temp ≥ 0, a ≥ 0, b > 0 the gap never exceeds eg |
| Equat.VarshniShift | equat.py:20 | raising the zero-kelvin gap by d raises the gap by d at every temperature |
| Equat.VarshniNonIncreasing | equat.py:20 | with a ≥ 0 and b > 0 the gap does not grow as temperature rises from any t1 ≥ 0 to t2 ≥ t1 |
| PureMaterial.Param | struct.py:124-130 | a key resolves to the override when present, else to the record's entry, else to None; an unknown name fails with UnknownMaterial before any override is read |
| PureMaterial.ParamReadsMergedRecord | struct.py:129-130 | the source's lookup equals a lookup in the record merged with the override set, overrides winning |
| PureMaterial.ParamIndependentOfOtherKeys | struct.py:149-153 | setting or removing one override key leaves every other key's resolution unchanged, and the set key resolves to its new value |
| PureMaterial.ShiftParam | struct.py:130 | the energy shift is read only from the override set, is 0.0 when absent, and fails only when it is not a number |
| PureMaterial.VBH | struct.py:127-131 | heavy-hole edge = resolved VBen + shift; succeeds exactly when VBen resolves to a number and the shift is a number; MissingParameter(VBen) when neither overrides nor record hold it |
| PureMaterial.VBL | struct.py:133-137 | light-hole edge = resolved VBen + shift, with the same success condition |
| PureMaterial.VBSO | struct.py:139-144 | split-off edge = resolved VBen − resolved VBSO + shift; succeeds exactly when both resolve and the shift is a number; MissingParameter names VBen, then VBSO, when absent from both overrides and record |
| PureMaterial.BandGap | struct.py:146-174 | each valley's gap is Varshni of that valley's own resolved zero-kelvin gap, alpha and beta; fails with DivisionByZero exactly when alpha and beta resolve and temp + beta = 0; a key absent from both overrides and record fails with MissingParameter, alpha first, then beta, then the zero-kelvin gap |
| PureMaterial.ConductionBand | struct.py:176-189 | as written: conduction edge = heavy-hole edge + the valley's gap at 300 K; a failing VBH's error comes first, otherwise a failing 300 K gap's error is returned |
| PureMaterial.ConductionBandAt | struct.py:176-189 | corrected: conduction edge = heavy-hole edge + the valley's gap at the requested temperature; VBH's error first, then the gap's |
| PureMaterial.Mg | struct.py:191-196 | Gamma mass = first component of the resolved CBGmass tuple; fails with MissingParameter when absent from both overrides and record, WrongKind when a number, EmptyTuple when empty |
| PureMaterial.UnknownMaterialFailsEveryQuery | struct.py:124-130 | a name absent from the pure table fails every query with UnknownMaterial, whatever the overrides |
| PureMaterial.LightHoleEqualsHeavyHole | struct.py:127-137 | VBL and VBH agree for every material and override set, including their failures |
| PureMaterial.SplitOffBelowHeavyHole | struct.py:139-144 | VBSO succeeds exactly when VBH does and VBSO resolves, and then equals VBH − the resolved splitting |
| PureMaterial.ShiftAddedOnceToValenceBands | struct.py:127-144 | setting EnShift to d adds exactly d, once, to VBH, VBL and VBSO compared with no shift, and changes no success |
| PureMaterial.ShiftAddedOnceToConductionBands | struct.py:176-189 | setting EnShift to d raises each conduction-band edge by exactly d, via the heavy-hole edge only |
| PureMaterial.GapIgnoresShift | struct.py:146-174 | no EnShift value, of any kind, changes any band gap |
| PureMaterial.GapAtZeroKelvin | struct.py:146-154 | a successful gap at 0 K equals the resolved zero-kelvin gap of that valley |
| PureMaterial.ConductionBandIgnoresTemp | struct.py:176-189 | as written the conduction edge is the same for every temperature argument and equals the corrected edge at 300 K |
| PureMaterial.ConductionBandAtFollowsGap | struct.py:176-179 | with a ≥ 0, b > 0 the corrected conduction edge never rises as temperature rises from t1 ≥ 0 |
| Alloy.NewAlloy | struct.py:204-217 | construction fails with UnknownAlloy exactly when the alloy name is absent; mat1 is the first listed component with ovrwrt1, mat2 the second with ovrwrt2 |
| Alloy.BowParam | struct.py:224 | bowing comes from the alloy override, else the alloy record, else 0.0 |
| Alloy.VBH | struct.py:219-229 | VBH(x) = x·VBH1 + (1−x)·VBH2 − x(1−x)·bow + shift, or VBen + shift when the alloy override holds VBen; succeeds exactly when both components, the bowing, VBen and the shift all resolve; a failing component's error (unknown name, missing VBen) is returned, component 1's first |
| Alloy.MixEndpoints | struct.py:223-225 | the interpolation law gives component 1 at x = 1 and component 2 at x = 0 for any bowing |
| Alloy.MixBetweenComponents | struct.py:223-225 | without bowing the mixed value lies between the components for x in [0, 1] |
| Alloy.MixBowingBelowLine | struct.py:223-225 | a non-negative bowing puts the mixed value at or below the straight line for x in [0, 1] |
| Alloy.MixShift | struct.py:223-225 | shifting both component values by d shifts the mixed value by d |
| Alloy.VBHEndpoints | struct.py:219-229 | without a VBen override, VBH(1) = mat1.VBH() + shift and VBH(0) = mat2.VBH() + shift |
| Alloy.VBHSucceedsForAllCompositions | struct.py:219-229 | whether VBH(x) succeeds does not depend on x |
| Alloy.VBenBypassesInterpolation | struct.py:227-229 | with VBen in the alloy override, every successful VBH(x) equals every other, for any x and any components |
| Alloy.AlloyShiftAddedOnce | struct.py:227-229 | setting the alloy EnShift to d adds exactly d to VBH(x), unweighted by x, compared with no shift |
| Alloy.VBHBetweenComponents | struct.py:223-229 | without bowing and without VBen, VBH(x) − shift lies between the two components' edges for x in [0, 1] |
| Scenarios.GaAsValenceEdges | struct.py:78-87 | GaAs: VBH = VBL = 1.46, VBSO = 1.46 − 0.341 = 1.119, Gamma mass 0.067 |
| Scenarios.GaAsGammaGapAtZeroKelvin | struct.py:80 | GaAs Gamma gap at 0 K is 1.519 |
| Scenarios.GaAsGammaGapAtRoomTemp | struct.py:80 | GaAs Gamma gap at 300 K is below 1.519 |
| Scenarios.GaAsAlphaOverride | struct.py:146-154 | overriding only GaAs BGGa to 0 gives 1.519 at 300 K, the other two keys keeping their table values |
| Scenarios.GaAsShifted | struct.py:127-154 | GaAs with EnShift 0.5: VBH = 1.96 while the Gamma gap at 0 K stays 1.519 |
| Scenarios.UnknownPureName | struct.py:124-130 | InAs with VBen overridden still fails with UnknownMaterial |
| Scenarios.UnknownAlloyName | struct.py:214-216 | constructing InGaAs fails with UnknownAlloy |
| Scenarios.AlGaAsValenceAtThirtyPercent | struct.py:238-239 | the script's AlGaAs resolver gives VBH(0.3) = 0.3·0.95 + 0.7·1.46 = 1.307 |
| Scenarios.GaAsGammaEdgeAtZeroKelvin | struct.py:176-179 | GaAs CBG(0): the corrected edge is 2.979 = 1.46 + 1.519, the as-written one is not |

## Left out

- `mater_alloy_double.CBG` (struct.py:231-236): it computes a mean but returns nothing and uses the valence bowing; it is an unfinished method, so the alloy has no conduction-band query here.
- The plotting import and the module-level script (struct.py:73, 238-242): presentation and side effects; only the script's AlGaAs query is kept, as a scenario lemma.
- Stored-but-unread fields (`lat`, `lat_temp`, `CB*deg`, `CBLmass`, `CBXmass`, `Lutting`) are kept as table data only; no query reads them.
- nextnano.py is not part of this model: it only builds and prints a file path.
- phys_const.py is not part of this model: a constants table no core function reads.
- Fermi-Dirac integral approximations are not part of this model: the resolvers do not call them.
- IEEE-754 rounding: every quantity is an exact real; doubles may differ from these values in the last place.
- Python's tuple arithmetic: a tuple where a number is used is reported as WrongKind, although Python concatenates two tuples (`VBen` and `EnShift` both tuples in VBH) or repeats a tuple multiplied by an integer.
- Override entries whose value is `None`, and integer versus float distinctions, are not represented: override values are numbers or tuples of numbers.
- Aliasing of override sets: the Python objects keep a reference to the caller's dict (struct.py:125, 217), and the `{}` defaults are shared mutable objects, so changing that dict after construction changes later queries; the model holds an immutable snapshot of the map.
- BandGap: the `temp = 300.0` default argument of `BGG`, `BGL` and `BGX` is not a default here; callers pass the temperature, and `PureMaterial.DefaultTemp` is the 300 K the conduction-band queries use.
- The Python `TypeError` does not say which operand was missing; the model names the first missing key in evaluation order.

## Findings

| source | as written | input that shows it | evidently intended | confidence | as-written member | corrected member |
|---|---|---|---|---|---|---|
| struct.py:176-189 | `CBG`, `CBL`, `CBX` take `temp` but call `BGG()`, `BGL()`, `BGX()` without it, so the 300 K gap is always used | GaAs, `CBG(0.0)`: gives 1.46 + BGG(300) ≈ 2.882 instead of 1.46 + 1.519 = 2.979 | VBH() plus the valley gap at `temp` | medium, not executed | PureMaterial.ConductionBand (Scenarios.GaAsGammaEdgeAtZeroKelvin, PureMaterial.ConductionBandIgnoresTemp) | PureMaterial.ConductionBandAt (PureMaterial.ConductionBandAtFollowsGap) |
