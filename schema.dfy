/**
 * The per-barangay table of the weighted heat-risk pipeline and its
 * `load_data` step, which checks the column schema and fills in the
 * optional columns (ai/weighted_heat_risk_pipeline.py, `load_data`).
 */
module Schema {
  import opened Wrappers

  /** The columns of the table that the pipeline reads or creates. */
  datatype Column = BarangayId | Date | Temperature | FacilityDistance | FacilityScore | Population | Density

  /**
   * A cell of a column that pandas may read as numbers or as text: a cell
   * whose text is a number, a cell whose text is not a number, or an empty
   * cell (NaN).
   */
  datatype Cell = Number(n: real) | Text(s: string) | Blank

  /**
   * One row of the table. A field whose column is absent from the table's
   * header carries no meaning. Empty temperature and facility cells are `None`;
   * population and density cells may hold text or be blank.
   */
  datatype CsvRow = CsvRow(
    barangayId: string,
    date: string,
    temperature: Option<real>,
    facilityDistance: Option<real>,
    facilityScore: Option<real>,
    population: Cell,
    density: Cell)

  /** A DataFrame: the columns it has and its rows in order. */
  datatype Frame = Frame(columns: set<Column>, rows: seq<CsvRow>)

  /** The `ValueError`s that `load_data` raises. */
  datatype LoadError = MissingColumn(column: Column) | MissingFacilityColumn

  /** The columns every table has once `load_data` has accepted it. */
  predicate Loaded(df: Frame)
  {
    {BarangayId, Date, Temperature, FacilityDistance, Density, Population} <= df.columns
  }

  /** The header passes `load_data`'s checks. */
  predicate Acceptable(columns: set<Column>)
  {
    BarangayId in columns && Date in columns && Temperature in columns
    && (FacilityDistance in columns || FacilityScore in columns)
  }

  /**
   * `load_data` on an already-read CSV. The required columns are checked in
   * the order barangay_id, date, temperature; then `facility_distance` is
   * copied from `facility_score` when only the latter exists; then absent
   * `density` and `population` columns are created with value 0.
   */
  method LoadData(t: Frame) returns (r: Result<Frame, LoadError>)
    ensures r.Success? <==> Acceptable(t.columns)
    ensures BarangayId !in t.columns ==> r == Failure(MissingColumn(BarangayId))
    ensures BarangayId in t.columns && Date !in t.columns ==> r == Failure(MissingColumn(Date))
    ensures (BarangayId in t.columns && Date in t.columns && Temperature !in t.columns)
              ==> r == Failure(MissingColumn(Temperature))
    ensures (&& BarangayId in t.columns && Date in t.columns && Temperature in t.columns
             && FacilityDistance !in t.columns && FacilityScore !in t.columns)
              ==> r == Failure(MissingFacilityColumn)
    ensures r.Success? ==> Loaded(r.value)
    ensures r.Success? ==> r.value.columns == t.columns + {FacilityDistance, Density, Population}
    ensures r.Success? ==> |r.value.rows| == |t.rows|
    ensures r.Success? ==> forall i :: 0 <= i < |t.rows| ==>
              var a, b := t.rows[i], r.value.rows[i];
              && b.barangayId == a.barangayId && b.date == a.date
              && b.temperature == a.temperature && b.facilityScore == a.facilityScore
              && b.facilityDistance == (if FacilityDistance in t.columns then a.facilityDistance else a.facilityScore)
              && b.density == (if Density in t.columns then a.density else Number(0.0))
              && b.population == (if Population in t.columns then a.population else Number(0.0))
  {
    if BarangayId !in t.columns {
      return Failure(MissingColumn(BarangayId));
    }
    if Date !in t.columns {
      return Failure(MissingColumn(Date));
    }
    if Temperature !in t.columns {
      return Failure(MissingColumn(Temperature));
    }
    var columns, rows := t.columns, t.rows;
    if FacilityDistance !in columns && FacilityScore in columns {
      rows := seq(|rows|, i requires 0 <= i < |rows| => rows[i].(facilityDistance := rows[i].facilityScore));
      columns := columns + {FacilityDistance};
    } else if FacilityDistance !in columns {
      return Failure(MissingFacilityColumn);
    }
    if Density !in columns {
      rows := seq(|rows|, i requires 0 <= i < |rows| => rows[i].(density := Number(0.0)));
      columns := columns + {Density};
    }
    if Population !in columns {
      rows := seq(|rows|, i requires 0 <= i < |rows| => rows[i].(population := Number(0.0)));
      columns := columns + {Population};
    }
    return Success(Frame(columns, rows));
  }
}
