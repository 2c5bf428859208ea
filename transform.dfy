/**
 * The (T)ransform stage: look up the customers and orders datasets, join
 * them on `customer_id`, parse `order_purchase_timestamp`, and add the
 * purchase month (`mes_compra`), weekday name (`dia_semana_compra`) and
 * hour (`hora_compra`) to every row.
 */
module Transform {
  import opened Calendar
  import opened Timestamps
  import opened Tables
  import opened Merge

  const CustomersKey := "customers"
  const OrdersKey := "orders"
  const JoinKey := "customer_id"
  const PurchaseTimestamp := "order_purchase_timestamp"
  const MonthColumn := "mes_compra"
  const WeekdayColumn := "dia_semana_compra"
  const HourColumn := "hora_compra"

  const FeatureColumns: set<string> := {MonthColumn, WeekdayColumn, HourColumn}

  /**
   * `pd.to_datetime` on one cell. A missing value becomes NaT (`None`); a
   * text must be a "YYYY-MM-DD HH:MM:SS" timestamp; a value that already is
   * a timestamp is kept. Anything else aborts the conversion.
   */
  function ToDateTime(v: Value): (r: Result<Option<DateTime>>)
    ensures r.Ok? && r.value.Some? ==> ValidDateTime(r.value.value)
    ensures r.Ok? && v.Text? ==> r.value.Some? && Format(r.value.value) == v.s
    ensures r.Ok? && v.Stamp? ==> r.value == Some(v.t)
    ensures r.Ok? <==> v.Null? || (v.Text? && Parse(v.s).Some?) || (v.Stamp? && ValidDateTime(v.t))
    ensures r.Err? ==> r.error == BadTimestamp(v)
  {
    match v
    case Null => Ok(None)
    case Text(s) =>
      if Parse(s).Some? then
        FormatParse(s);
        Ok(Some(Parse(s).value))
      else Err(BadTimestamp(v))
    case Stamp(t) => if ValidDateTime(t) then Ok(Some(t)) else Err(BadTimestamp(v))
    case Int(_) => Err(BadTimestamp(v))
  }

  /**
   * One row after the timestamp conversion and the three feature
   * assignments of `transform`: the timestamp replaced by its parsed form and
   * the three features added; a missing timestamp gives missing features.
   */
  function EnrichRow(row: Row, t: Option<DateTime>): (r: Row)
    requires t.Some? ==> ValidDateTime(t.value)
    ensures r.Keys == row.Keys + {PurchaseTimestamp} + FeatureColumns
  {
    match t
    case None =>
      row[PurchaseTimestamp := Null][MonthColumn := Null][WeekdayColumn := Null][HourColumn := Null]
    case Some(dt) =>
      row[PurchaseTimestamp := Stamp(dt)]
         [MonthColumn := Int(dt.month)]
         [WeekdayColumn := Text(DayName(dt.year, dt.month, dt.day))]
         [HourColumn := Int(dt.hour)]
  }

  /**
   * The features of an enriched row: exactly the three feature columns are
   * added, only the timestamp's value is replaced, the month lies in 1..12,
   * the hour in 0..23, both taken from the parsed timestamp as they are, and
   * the weekday name is one of the seven and depends only on the date.
   */
  lemma {:induction false} EnrichRowFeatures(row: Row, t: Option<DateTime>)
    requires PurchaseTimestamp in row
    requires t.Some? ==> ValidDateTime(t.value)
    ensures var out := EnrichRow(row, t);
      && out.Keys == row.Keys + FeatureColumns
      && (forall c :: c in row && c != PurchaseTimestamp && c !in FeatureColumns ==> out[c] == row[c])
      && (t.None? ==> out[PurchaseTimestamp] == out[MonthColumn] == out[WeekdayColumn] == out[HourColumn] == Null)
      && (t.Some? ==>
            var dt := t.value;
            && out[PurchaseTimestamp] == Stamp(dt)
            && out[MonthColumn] == Int(dt.month) && 1 <= dt.month <= 12
            && out[HourColumn] == Int(dt.hour) && 0 <= dt.hour <= 23
            && out[WeekdayColumn] == Text(DayName(dt.year, dt.month, dt.day))
            && DayName(dt.year, dt.month, dt.day) in WeekdayNames)
  {
  }

  /** A column other than the timestamp and the features keeps its value. */
  lemma {:induction false} EnrichRowKeeps(row: Row, t: Option<DateTime>, c: string)
    requires t.Some? ==> ValidDateTime(t.value)
    requires c in row && c != PurchaseTimestamp && c !in FeatureColumns
    ensures c in EnrichRow(row, t) && EnrichRow(row, t)[c] == row[c]
  {
  }

  /**
   * The timestamp conversion and the feature assignments over all rows:
   * every timestamp must convert, or the whole stage fails.
   */
  function EnrichRows(rows: seq<Row>): (r: Result<seq<Row>>)
    requires forall k :: 0 <= k < |rows| ==> PurchaseTimestamp in rows[k]
    ensures r.Ok? <==> forall k :: 0 <= k < |rows| ==> ToDateTime(rows[k][PurchaseTimestamp]).Ok?
    ensures r.Ok? ==> |r.value| == |rows|
    ensures r.Ok? ==> forall k :: 0 <= k < |rows| ==>
      r.value[k] == EnrichRow(rows[k], ToDateTime(rows[k][PurchaseTimestamp]).value)
    ensures r.Err? ==> exists k :: 0 <= k < |rows| && r.error == BadTimestamp(rows[k][PurchaseTimestamp])
                                 && ToDateTime(rows[k][PurchaseTimestamp]).Err?
    decreases |rows|
  {
    if rows == [] then Ok([])
    else
      match ToDateTime(rows[0][PurchaseTimestamp])
      case Err(e) => Err(e)
      case Ok(t) =>
        match EnrichRows(rows[1..])
        case Err(e) => Err(e)
        case Ok(rest) => Ok([EnrichRow(rows[0], t)] + rest)
  }

  /** The feature step on a whole frame; a frame without the timestamp column is a KeyError. */
  function AddPurchaseFeatures(f: DataFrame): (r: Result<DataFrame>)
    ensures PurchaseTimestamp !in f.columns ==> r == Err(MissingColumn(PurchaseTimestamp))
    ensures r.Ok? ==> r.value.columns == f.columns + FeatureColumns && |r.value.rows| == |f.rows|
  {
    if PurchaseTimestamp !in f.columns then Err(MissingColumn(PurchaseTimestamp))
    else
      match EnrichRows(f.rows)
      case Err(e) => Err(e)
      case Ok(rows) =>
        forall k | 0 <= k < |rows| ensures rows[k].Keys == f.columns + FeatureColumns {
          EnrichRowFeatures(f.rows[k], ToDateTime(f.rows[k][PurchaseTimestamp]).value);
        }
        Ok(Frame(f.columns + FeatureColumns, rows))
  }

  /** `transform(dataframes)`: a missing dataset is fatal, never skipped. */
  function Transform(datasets: map<string, DataFrame>): (r: Result<DataFrame>)
    ensures CustomersKey !in datasets ==> r == Err(MissingDataset(CustomersKey))
    ensures CustomersKey in datasets && OrdersKey !in datasets ==> r == Err(MissingDataset(OrdersKey))
    ensures r.Ok? ==> CustomersKey in datasets && OrdersKey in datasets
    ensures r.Ok? ==> CanJoin(datasets[CustomersKey], datasets[OrdersKey], JoinKey)
  {
    if CustomersKey !in datasets then Err(MissingDataset(CustomersKey))
    else if OrdersKey !in datasets then Err(MissingDataset(OrdersKey))
    else
      match InnerJoin(datasets[CustomersKey], datasets[OrdersKey], JoinKey)
      case Err(e) => Err(e)
      case Ok(joined) => AddPurchaseFeatures(joined)
  }

  /** The joined frame, before the features are added. */
  function Joined(datasets: map<string, DataFrame>): DataFrame
    requires CustomersKey in datasets && OrdersKey in datasets
    requires CanJoin(datasets[CustomersKey], datasets[OrdersKey], JoinKey)
  {
    InnerJoin(datasets[CustomersKey], datasets[OrdersKey], JoinKey).value
  }

  /**
   * `transform` succeeds exactly when both datasets are there, the join is
   * possible, its result has the timestamp column, and every joined row's
   * timestamp converts.
   */
  lemma {:induction false} TransformSucceeds(datasets: map<string, DataFrame>)
    ensures Transform(datasets).Ok? <==>
      && CustomersKey in datasets && OrdersKey in datasets
      && CanJoin(datasets[CustomersKey], datasets[OrdersKey], JoinKey)
      && PurchaseTimestamp in Joined(datasets).columns
      && forall k :: 0 <= k < |Joined(datasets).rows| ==>
           ToDateTime(Joined(datasets).rows[k][PurchaseTimestamp]).Ok?
  {
  }

  /** A successful transform is the joined frame with every row enriched. */
  lemma {:induction false} TransformIsEnrichedJoin(datasets: map<string, DataFrame>)
    requires Transform(datasets).Ok?
    ensures var out := Transform(datasets).value;
      var joined := Joined(datasets);
      && out.columns == joined.columns + FeatureColumns
      && |out.rows| == |joined.rows|
      && forall k :: 0 <= k < |out.rows| ==>
           PurchaseTimestamp in joined.rows[k]
           && ToDateTime(joined.rows[k][PurchaseTimestamp]).Ok?
           && out.rows[k] == EnrichRow(joined.rows[k], ToDateTime(joined.rows[k][PurchaseTimestamp]).value)
  {
    var joined := Joined(datasets);
    assert PurchaseTimestamp in joined.columns;
  }

  /** The output has one row per (customer row, order row) pair with equal `customer_id`. */
  lemma {:induction false} TransformRowCount(datasets: map<string, DataFrame>)
    requires Transform(datasets).Ok?
    ensures |Transform(datasets).value.rows|
         == |MatchingPairs(datasets[CustomersKey].rows, datasets[OrdersKey].rows, JoinKey)|
  {
    TransformIsEnrichedJoin(datasets);
    JoinRowCount(datasets[CustomersKey], datasets[OrdersKey], JoinKey);
  }

  /** The enriched rows are the result of the feature step on the joined rows. */
  lemma {:induction false} TransformRows(datasets: map<string, DataFrame>)
    requires Transform(datasets).Ok?
    ensures PurchaseTimestamp in Joined(datasets).columns
    ensures EnrichRows(Joined(datasets).rows).Ok?
    ensures Transform(datasets).value.rows == EnrichRows(Joined(datasets).rows).value
  {
  }

  lemma JoinKeyIsNoFeature()
    ensures JoinKey != PurchaseTimestamp && JoinKey !in FeatureColumns
  {
    assert |JoinKey| == 11 && |PurchaseTimestamp| == 24;
    assert |MonthColumn| == 10 && |WeekdayColumn| == 17 && |HourColumn| == 11;
    assert JoinKey[0] != HourColumn[0];
  }

  /** A column every row has, other than the timestamp and the features, keeps its values. */
  lemma {:induction false} EnrichRowsKeep(rows: seq<Row>, c: string)
    requires forall k :: 0 <= k < |rows| ==> PurchaseTimestamp in rows[k] && c in rows[k]
    requires EnrichRows(rows).Ok?
    requires c != PurchaseTimestamp && c !in FeatureColumns
    ensures var out := EnrichRows(rows).value;
      |out| == |rows| && forall k :: 0 <= k < |rows| ==> c in out[k] && out[k][c] == rows[k][c]
  {
    var out := EnrichRows(rows).value;
    forall k | 0 <= k < |rows|
      ensures c in out[k] && out[k][c] == rows[k][c]
    {
      EnrichRowKeeps(rows[k], ToDateTime(rows[k][PurchaseTimestamp]).value, c);
    }
  }

  /** Every joined row has the timestamp column and the join key. */
  lemma {:induction false} JoinedRowsHaveKeys(datasets: map<string, DataFrame>)
    requires Transform(datasets).Ok?
    ensures var joined := Joined(datasets).rows;
      forall k :: 0 <= k < |joined| ==> PurchaseTimestamp in joined[k] && JoinKey in joined[k]
  {
    TransformRows(datasets);
    assert Rectangular(Joined(datasets));
    JoinKeyFromBothSides(datasets[CustomersKey], datasets[OrdersKey], JoinKey);
  }

  /** The feature step keeps every row's `customer_id`. */
  lemma {:induction false} EnrichRowsKeepJoinKey(joined: seq<Row>, rows: seq<Row>)
    requires forall k :: 0 <= k < |joined| ==> PurchaseTimestamp in joined[k] && JoinKey in joined[k]
    requires EnrichRows(joined).Ok? && rows == EnrichRows(joined).value
    ensures |rows| == |joined|
    ensures forall k :: 0 <= k < |rows| ==> JoinKey in rows[k] && rows[k][JoinKey] == joined[k][JoinKey]
  {
    JoinKeyIsNoFeature();
    EnrichRowsKeep(joined, JoinKey);
  }

  /** The output rows, one per joined row, each keeping its joined row's `customer_id`. */
  lemma {:induction false} TransformKeepsJoinKeys(datasets: map<string, DataFrame>)
    requires Transform(datasets).Ok?
    ensures var joined := Joined(datasets).rows;
      var rows := Transform(datasets).value.rows;
      |rows| == |joined|
      && forall k :: 0 <= k < |rows| ==> JoinKey in joined[k] && JoinKey in rows[k] && rows[k][JoinKey] == joined[k][JoinKey]
  {
    TransformRows(datasets);
    JoinedRowsHaveKeys(datasets);
    EnrichRowsKeepJoinKey(Joined(datasets).rows, Transform(datasets).value.rows);
  }

  /** Every output row's `customer_id` occurs in the customers table and in the orders table. */
  lemma {:induction false} TransformKeysFromBothTables(datasets: map<string, DataFrame>)
    requires Transform(datasets).Ok?
    ensures var rows := Transform(datasets).value.rows;
      forall k :: 0 <= k < |rows| ==>
        && JoinKey in rows[k]
        && OccursAsKey(datasets[CustomersKey].rows, JoinKey, rows[k][JoinKey])
        && OccursAsKey(datasets[OrdersKey].rows, JoinKey, rows[k][JoinKey])
  {
    JoinKeyFromBothSides(datasets[CustomersKey], datasets[OrdersKey], JoinKey);
    TransformKeepsJoinKeys(datasets);
  }

  /**
   * Every output row carries the parsed purchase timestamp and features that
   * agree with it: month in 1..12, hour in 0..23, a weekday name of the date;
   * a missing timestamp gives missing features.
   */
  lemma {:induction false} TransformFeatures(datasets: map<string, DataFrame>)
    requires Transform(datasets).Ok?
    ensures var out := Transform(datasets).value;
      && FeatureColumns <= out.columns
      && forall k :: 0 <= k < |out.rows| ==>
           var row := out.rows[k];
           PurchaseTimestamp in row
           && (row[PurchaseTimestamp].Null? ==> row[MonthColumn] == row[WeekdayColumn] == row[HourColumn] == Null)
           && (row[PurchaseTimestamp].Stamp? ==>
                 var dt := row[PurchaseTimestamp].t;
                 && ValidDateTime(dt)
                 && row[MonthColumn] == Int(dt.month) && 1 <= dt.month <= 12
                 && row[HourColumn] == Int(dt.hour) && 0 <= dt.hour <= 23
                 && row[WeekdayColumn] == Text(DayName(dt.year, dt.month, dt.day)))
           && (row[PurchaseTimestamp].Null? || row[PurchaseTimestamp].Stamp?)
  {
    var out := Transform(datasets).value;
    var joined := Joined(datasets);
    TransformIsEnrichedJoin(datasets);
    forall k | 0 <= k < |out.rows|
      ensures var row := out.rows[k];
           PurchaseTimestamp in row
           && (row[PurchaseTimestamp].Null? ==> row[MonthColumn] == row[WeekdayColumn] == row[HourColumn] == Null)
           && (row[PurchaseTimestamp].Stamp? ==>
                 var dt := row[PurchaseTimestamp].t;
                 && ValidDateTime(dt)
                 && row[MonthColumn] == Int(dt.month) && 1 <= dt.month <= 12
                 && row[HourColumn] == Int(dt.hour) && 0 <= dt.hour <= 23
                 && row[WeekdayColumn] == Text(DayName(dt.year, dt.month, dt.day)))
           && (row[PurchaseTimestamp].Null? || row[PurchaseTimestamp].Stamp?)
    {
      EnrichRowFeatures(joined.rows[k], ToDateTime(joined.rows[k][PurchaseTimestamp]).value);
    }
  }

  /** Only the customers and orders datasets matter: the order items loaded beside them are never read. */
  lemma {:induction false} TransformReadsOnlyCustomersAndOrders(datasets: map<string, DataFrame>, other: map<string, DataFrame>)
    requires forall k :: k in {CustomersKey, OrdersKey} ==> (k in datasets <==> k in other)
    requires forall k :: k in {CustomersKey, OrdersKey} && k in datasets ==> datasets[k] == other[k]
    ensures Transform(datasets) == Transform(other)
  {
    assert CustomersKey in {CustomersKey, OrdersKey} && OrdersKey in {CustomersKey, OrdersKey};
  }
}
