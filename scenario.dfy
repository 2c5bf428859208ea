/**
 * A small worked example of a whole run: two customers, "c1" and "c2", and
 * one order of "c1" placed at 2018-01-01 10:00:00. The run stores one row,
 * for "c1", with month 1, weekday "Monday" and hour 10; "c2" has no order
 * and disappears in the join.
 */
module Scenario {
  import opened Calendar
  import opened Timestamps
  import opened Tables
  import opened Merge
  import opened Transform
  import opened Pipeline

  const PurchaseText := "2018-01-01 10:00:00"
  const CustomerRows: seq<Row> := [map[JoinKey := Text("c1")], map[JoinKey := Text("c2")]]
  const OrderRows: seq<Row> := [map[JoinKey := Text("c1"), PurchaseTimestamp := Text(PurchaseText)]]
  const Customers: DataFrame := Frame({JoinKey}, CustomerRows)
  const Orders: DataFrame := Frame({JoinKey, PurchaseTimestamp}, OrderRows)

  const PurchaseTime := DateTime(2018, 1, 1, 10, 0, 0)

  lemma YearDigits()
    ensures Digits(2018, 4) == "2018"
  {
    assert Digits(2, 1) == "2";
    assert Digits(20, 2) == "20";
    assert Digits(201, 3) == "201";
  }

  lemma TwoDigits()
    ensures Digits(1, 2) == "01" && Digits(10, 2) == "10" && Digits(0, 2) == "00"
  {
    assert Digits(0, 1) == "0" && Digits(1, 1) == "1";
  }

  lemma DigitValues()
    ensures DigitsValue("2018") == 2018 && DigitsValue("01") == 1
    ensures DigitsValue("10") == 10 && DigitsValue("00") == 0
  {
    YearDigits();
    TwoDigits();
    DigitsRoundTrip(2018, 4);
    DigitsRoundTrip(1, 2);
    DigitsRoundTrip(10, 2);
    DigitsRoundTrip(0, 2);
  }

  lemma {:induction false} PurchaseDateDigits(s: string)
    requires s == PurchaseText
    ensures |s| == 19 && s[4] == '-' && s[7] == '-' && s[10] == ' '
    ensures s[0..4] == "2018" && s[5..7] == "01" && s[8..10] == "01"
  {
    assert s[0..4] == [s[0], s[1], s[2], s[3]];
    assert s[5..7] == [s[5], s[6]];
    assert s[8..10] == [s[8], s[9]];
  }

  lemma {:induction false} PurchaseClockDigits(s: string)
    requires s == PurchaseText
    ensures |s| == 19 && s[13] == ':' && s[16] == ':'
    ensures s[11..13] == "10" && s[14..16] == "00" && s[17..19] == "00"
  {
    assert s[11..13] == [s[11], s[12]];
    assert s[14..16] == [s[14], s[15]];
    assert s[17..19] == [s[17], s[18]];
  }

  lemma {:induction false} PurchaseTextFields(s: string)
    requires s == PurchaseText
    ensures WellShaped(s) && Fields(s) == PurchaseTime
  {
    PurchaseDateDigits(s);
    PurchaseClockDigits(s);
    DigitValues();
  }

  lemma {:induction false} PurchaseTimeParses(s: string)
    requires s == PurchaseText
    ensures ToDateTime(Text(s)) == Ok(Some(PurchaseTime))
  {
    PurchaseTextFields(s);
  }

  lemma ScenarioPairs()
    ensures JoinPairs(CustomerRows, OrderRows, JoinKey, 0) == [(0, 0)]
  {
    assert MatchesOf(Text("c1"), 0, OrderRows, JoinKey, 0) == [(0, 0)];
    assert MatchesOf(Text("c2"), 1, OrderRows, JoinKey, 0) == [];
    assert JoinPairs(CustomerRows, OrderRows, JoinKey, 2) == [];
  }

  const Datasets: map<string, DataFrame> := map[CustomersKey := Customers, OrdersKey := Orders]

  lemma ScenarioJoin()
    ensures CustomersKey in Datasets && OrdersKey in Datasets
    ensures CanJoin(Datasets[CustomersKey], Datasets[OrdersKey], JoinKey)
    ensures PurchaseTimestamp in Joined(Datasets).columns
    ensures var rows := Joined(Datasets).rows;
      |rows| == 1 && JoinKey in rows[0] && rows[0][JoinKey] == Text("c1")
      && PurchaseTimestamp in rows[0] && rows[0][PurchaseTimestamp] == Text(PurchaseText)
  {
    assert Datasets[CustomersKey] == Customers && Datasets[OrdersKey] == Orders;
    assert CanJoin(Customers, Orders, JoinKey);
    ScenarioPairs();
    JoinedRowAt(Customers, Orders, JoinKey, 0);
    MergeRowValues(CustomerRows[0], OrderRows[0], JoinKey);
    assert RightLabel(PurchaseTimestamp, CustomerRows[0].Keys) == PurchaseTimestamp;
    assert RightLabel(PurchaseTimestamp, Customers.columns) == PurchaseTimestamp;
  }

  lemma {:induction false} OneRowConverts(rows: seq<Row>, v: Value)
    requires |rows| == 1 && PurchaseTimestamp in rows[0] && rows[0][PurchaseTimestamp] == v
    requires ToDateTime(v).Ok?
    ensures forall k :: 0 <= k < |rows| ==> ToDateTime(rows[k][PurchaseTimestamp]).Ok?
  {
  }

  lemma ScenarioTransformOk()
    ensures Transform.Transform(Datasets).Ok?
  {
    ScenarioJoin();
    PurchaseTimeParses(PurchaseText);
    OneRowConverts(Joined(Datasets).rows, Text(PurchaseText));
    TransformSucceeds(Datasets);
  }

  lemma ScenarioOutputRow()
    ensures Transform.Transform(Datasets).Ok?
    ensures var rows := Transform.Transform(Datasets).value.rows;
      |rows| == 1 && |Joined(Datasets).rows| == 1
      && rows[0] == EnrichRow(Joined(Datasets).rows[0], Some(PurchaseTime))
  {
    ScenarioTransformOk();
    ScenarioJoin();
    PurchaseTimeParses(PurchaseText);
    TransformIsEnrichedJoin(Datasets);
  }

  lemma {:induction false} ScenarioEnrichedRow(joined: Row)
    requires PurchaseTimestamp in joined && JoinKey in joined && joined[JoinKey] == Text("c1")
    ensures var row := EnrichRow(joined, Some(PurchaseTime));
      && row[JoinKey] == Text("c1") && row[MonthColumn] == Int(1)
      && row[WeekdayColumn] == Text("Monday") && row[HourColumn] == Int(10)
  {
    NewYear2018IsMonday();
    EnrichRowFeatures(joined, Some(PurchaseTime));
  }

  /**
   * Customers c1 and c2 and one order of c1 placed at 2018-01-01 10:00:00
   * give exactly one row, for c1, with month 1, weekday "Monday" and hour 10.
   */
  lemma EndToEnd()
    ensures var r := Transform.Transform(Datasets);
      && r.Ok? && |r.value.rows| == 1
      && r.value.rows[0][JoinKey] == Text("c1")
      && r.value.rows[0][MonthColumn] == Int(1)
      && r.value.rows[0][WeekdayColumn] == Text("Monday")
      && r.value.rows[0][HourColumn] == Int(10)
  {
    ScenarioOutputRow();
    ScenarioJoin();
    ScenarioEnrichedRow(Joined(Datasets).rows[0]);
  }

  /** The same example through `run`: whatever the order items file holds, the stored table is that one row. */
  lemma {:induction false} EndToEndRun(folder: map<string, DataFrame>)
    requires HasAllFiles(folder)
    requires folder[CustomersFile] == Customers && folder[OrdersFile] == Orders
    ensures var r := RunResult(folder);
      && r.Ok? && |r.value.rows| == 1
      && r.value.rows[0][JoinKey] == Text("c1")
      && r.value.rows[0][MonthColumn] == Int(1)
      && r.value.rows[0][WeekdayColumn] == Text("Monday")
      && r.value.rows[0][HourColumn] == Int(10)
  {
    RunUsesCustomersAndOrders(folder);
    assert map[CustomersKey := folder[CustomersFile], OrdersKey := folder[OrdersFile]] == Datasets;
    EndToEnd();
  }

  /**
   * A pipeline over that folder, started on an empty store, ends with the
   * target table holding exactly the example's one row.
   */
  method RunStoresScenarioRow(folder: map<string, DataFrame>) returns (stored: DataFrame)
    requires HasAllFiles(folder)
    requires folder[CustomersFile] == Customers && folder[OrdersFile] == Orders
    ensures |stored.rows| == 1
    ensures JoinKey in stored.rows[0] && stored.rows[0][JoinKey] == Text("c1")
    ensures MonthColumn in stored.rows[0] && stored.rows[0][MonthColumn] == Int(1)
    ensures WeekdayColumn in stored.rows[0] && stored.rows[0][WeekdayColumn] == Text("Monday")
    ensures HourColumn in stored.rows[0] && stored.rows[0][HourColumn] == Int(10)
  {
    var pipeline := new OlistPipeline(folder, map[]);
    EndToEndRun(folder);
    var r := pipeline.Run();
    stored := pipeline.database[TargetTable];
  }

  const RepeatOrderRows: seq<Row> := OrderRows + OrderRows
  const RepeatOrders: DataFrame := Frame({JoinKey, PurchaseTimestamp}, RepeatOrderRows)

  /**
   * The join is not bounded by the smaller input: a customer with two
   * orders gives two rows from a one-row customers table.
   */
  lemma JoinCanOutgrowSmallerInput()
    ensures var customers := Frame({JoinKey}, [CustomerRows[0]]);
      && CanJoin(customers, RepeatOrders, JoinKey)
      && |InnerJoin(customers, RepeatOrders, JoinKey).value.rows| == 2 > |customers.rows|
  {
    var left := [CustomerRows[0]];
    assert MatchesOf(Text("c1"), 0, RepeatOrderRows, JoinKey, 1) == [(0, 1)];
    assert MatchesOf(Text("c1"), 0, RepeatOrderRows, JoinKey, 0) == [(0, 0), (0, 1)];
    assert JoinPairs(left, RepeatOrderRows, JoinKey, 1) == [];
    assert JoinPairs(left, RepeatOrderRows, JoinKey, 0) == [(0, 0), (0, 1)];
  }
}
