/** Cars as the dashboard reads them: the parsed record, its six numeric
    features and the conversion of one CSV row into a record. */
module Records {

  datatype Option<T> = None | Some(value: T)

  /** A JavaScript number as the dataset can hold it: `None` stands for NaN,
      `Some(v)` for the finite number v. */
  type Number = Option<real>

  /** `isNaN(n)`. */
  predicate IsNaN(n: Number) {
    n.None?
  }

  /** `n > c`; every comparison against NaN is false. */
  predicate Greater(n: Number, c: real) {
    n.Some? && n.value > c
  }

  /** `n < c`; every comparison against NaN is false. */
  predicate Less(n: Number, c: real) {
    n.Some? && n.value < c
  }

  /** The six numeric attributes of a car, in the order the star plot lays
      out its axes. */
  datatype Feature = Horsepower | CityMpg | HighwayMpg | Price | EngineSize | Cylinders

  const Features: seq<Feature> := [Horsepower, CityMpg, HighwayMpg, Price, EngineSize, Cylinders]

  const AllFeatures: set<Feature> := {Horsepower, CityMpg, HighwayMpg, Price, EngineSize, Cylinders}

  /** The property name of a feature on a record; it is also the text of the
      feature's label in the star plot. */
  function FeatureName(f: Feature): string {
    match f
    case Horsepower => "HorsepowerHP"
    case CityMpg => "CityMPG"
    case HighwayMpg => "HighwayMPG"
    case Price => "RetailPrice"
    case EngineSize => "EngineSizeL"
    case Cylinders => "Cyl"
  }

  /** The CSV column a feature is read from. */
  function ColumnName(f: Feature): string {
    match f
    case Horsepower => "Horsepower(HP)"
    case CityMpg => "City Miles Per Gallon"
    case HighwayMpg => "Highway Miles Per Gallon"
    case Price => "Retail Price"
    case EngineSize => "Engine Size (l)"
    case Cylinders => "Cyl"
  }

  datatype Record = Record(
    Name: string,
    Type: string,
    HorsepowerHP: Number,
    CityMPG: Number,
    RetailPrice: Number,
    EngineSizeL: Number,
    Cyl: Number,
    HighwayMPG: Number)

  /** `d[f]`: the value of feature `f` on record `d`. */
  function Field(d: Record, f: Feature): Number {
    match f
    case Horsepower => d.HorsepowerHP
    case CityMpg => d.CityMPG
    case HighwayMpg => d.HighwayMPG
    case Price => d.RetailPrice
    case EngineSize => d.EngineSizeL
    case Cylinders => d.Cyl
  }

  /** One CSV row: column name to cell text. */
  type RawRow = map<string, string>

  /** `+d[column]`: the text of the column converted by the numeric coercion
      `toNumber`; a column the row lacks reads as `undefined`, which converts
      to NaN. */
  function Coerce(row: RawRow, column: string, toNumber: string -> Number): Number {
    if column in row then toNumber(row[column]) else None
  }

  /** `rowConverter`: names pass through, every numeric column is coerced. */
  function RowConverter(row: RawRow, toNumber: string -> Number): (d: Record)
    requires "Name" in row && "Type" in row
    ensures d.Name == row["Name"] && d.Type == row["Type"]
    ensures forall f :: Field(d, f) == Coerce(row, ColumnName(f), toNumber)
  {
    Record(
      Name := row["Name"],
      Type := row["Type"],
      HorsepowerHP := Coerce(row, "Horsepower(HP)", toNumber),
      CityMPG := Coerce(row, "City Miles Per Gallon", toNumber),
      RetailPrice := Coerce(row, "Retail Price", toNumber),
      EngineSizeL := Coerce(row, "Engine Size (l)", toNumber),
      Cyl := Coerce(row, "Cyl", toNumber),
      HighwayMPG := Coerce(row, "Highway Miles Per Gallon", toNumber))
  }
}
