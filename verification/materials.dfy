/** The material database: the pure-semiconductor table and the two-component
    alloy table, plus the value shapes their records and the callers'
    override sets hold. */
module Materials {
  import opened Results

  /** A parameter value: a number (energies, Varshni constants, degeneracies,
      lattice data) or a tuple of numbers (effective masses along the three
      principal axes, Luttinger parameters). */
  datatype Value = Num(val: real) | Tuple(items: seq<real>)

  /** A parameter record or an override set: parameter key to value. */
  type Params = map<string, Value>

  /** An alloy record: the names of its two pure components, in order, and
      its own parameters (the bowing coefficients). */
  datatype AlloyRecord = AlloyRecord(sem: (string, string), params: Params)

  /** The two read-only tables, keyed by material name. */
  datatype Database = Database(pure: map<string, Params>, alloys: map<string, AlloyRecord>)

  /** Python's `d.get(k, default)`: the entry if the key is present, else the
      default. */
  function Get(d: Params, k: string, default: Option<Value>): Option<Value>
  {
    if k in d then Some(d[k]) else default
  }

  /** Gallium arsenide. */
  const GaAs: Params := map[
    "lat" := Num(5.65325), "lat_temp" := Num(0.0000388),
    "VBen" := Num(1.46), "VBSO" := Num(0.341),
    "BGGen" := Num(1.519), "BGGa" := Num(0.0005405), "BGGb" := Num(204.0),
    "BGLen" := Num(1.815), "BGLa" := Num(0.000605), "BGLb" := Num(204.0),
    "BGXen" := Num(1.981), "BGXa" := Num(0.00046), "BGXb" := Num(204.0),
    "CBGdeg" := Num(2.0), "CBLdeg" := Num(8.0), "CBXdeg" := Num(6.0),
    "CBGmass" := Tuple([0.067, 0.067, 0.067]),
    "CBLmass" := Tuple([1.9, 0.0754, 0.0754]),
    "CBXmass" := Tuple([1.3, 0.23, 0.23]),
    "Lutting" := Tuple([6.98, 2.06, 2.93])
  ]

  /** Aluminium arsenide. */
  const AlAs: Params := map[
    "lat" := Num(5.6611), "lat_temp" := Num(0.000029),
    "VBen" := Num(0.95), "VBSO" := Num(0.28),
    "BGGen" := Num(3.099), "BGGa" := Num(0.000885), "BGGb" := Num(530.0),
    "BGLen" := Num(2.46), "BGLa" := Num(0.000605), "BGLb" := Num(204.0),
    "BGXen" := Num(2.24), "BGXa" := Num(0.0007), "BGXb" := Num(530.0),
    "CBGdeg" := Num(2.0), "CBLdeg" := Num(8.0), "CBXdeg" := Num(6.0),
    "CBGmass" := Tuple([0.15, 0.15, 0.15]),
    "CBLmass" := Tuple([1.32, 0.15, 0.15]),
    "CBXmass" := Tuple([0.97, 0.22, 0.22]),
    "Lutting" := Tuple([3.76, 0.82, 1.42])
  ]

  /** Al(x)Ga(1-x)As: component 1 is AlAs, component 2 is GaAs, no bowing. */
  const AlGaAs: AlloyRecord := AlloyRecord(("AlAs", "GaAs"), map[
    "VBbow" := Num(0.0), "BGGbow" := Num(0.0),
    "BGLbow" := Num(0.0), "BGXbow" := Num(0.0)
  ])

  /** The shipped database. */
  const Seed: Database := Database(
    map["GaAs" := GaAs, "AlAs" := AlAs],
    map["AlGaAs" := AlGaAs])
}
