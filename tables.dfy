/**
 * The tabular data the pipeline moves around, in place of pandas
 * DataFrames: a frame is a set of column names and a sequence of rows, each
 * row a map from column name to value. Every row of a frame has exactly the
 * frame's columns (the rectangular shape pandas keeps by construction).
 */
module Tables {
  import opened Calendar

  /** A cell value. `Null` stands for pandas' missing value (NaN, and NaT once parsed as a timestamp). */
  datatype Value = Null | Int(i: int) | Text(s: string) | Stamp(t: DateTime)

  type Row = map<string, Value>

  datatype Frame = Frame(columns: set<string>, rows: seq<Row>)

  predicate Rectangular(f: Frame)
  {
    forall i :: 0 <= i < |f.rows| ==> f.rows[i].Keys == f.columns
  }

  type DataFrame = f: Frame | Rectangular(f) witness Frame({}, [])

  /** The exceptions that abort a run. */
  datatype Error =
    | MissingFile(file: string)          // pd.read_csv: FileNotFoundError
    | MissingDataset(name: string)       // dataframes[name]: KeyError
    | MissingColumn(column: string)      // a column lookup: KeyError
    | DuplicateColumns                   // pd.merge: suffixes that make two columns share a name
    | BadTimestamp(value: Value)         // pd.to_datetime: a value it cannot read

  datatype Result<+T> = Ok(value: T) | Err(error: Error)
}
