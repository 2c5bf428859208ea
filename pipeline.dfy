/**
 * The pipeline object: `extract` reads the three Olist CSV files of the data
 * folder into a dictionary keyed by a name derived from each file name,
 * `transform` joins and enriches them, and `load` writes the result into the
 * store's table "pedidos_enriquecidos", replacing any table of that name.
 *
 * The data folder is given as a map from file name to the table `read_csv`
 * would return for it; a file absent from the map does not exist. The
 * SQLite store is a map from table name to table.
 */
module Pipeline {
  import opened Tables
  import opened KeyNames
  import opened Transform

  const CustomersFile := "olist_customers_dataset.csv"
  const OrdersFile := "olist_orders_dataset.csv"
  const OrderItemsFile := "olist_order_items_dataset.csv"

  /** The files `extract` loads, in the order it loads them. */
  const CsvFiles: seq<string> := [CustomersFile, OrdersFile, OrderItemsFile]

  const OrderItemsKey := "order_items"

  /** The table `load` writes. */
  const TargetTable := "pedidos_enriquecidos"

  /**
   * What the extract loop returns once it has visited `files`, holding the
   * dictionary `acc`: the first file missing from the folder stops it with a
   * FileNotFoundError; otherwise each file's table is stored, unfiltered,
   * under its key name.
   */
  function ExtractFrom(files: seq<string>, folder: map<string, DataFrame>, acc: map<string, DataFrame>)
    : (r: Result<map<string, DataFrame>>)
    ensures r.Ok? ==> acc.Keys <= r.value.Keys
    ensures r.Ok? ==> forall i :: 0 <= i < |files| ==> KeyName(files[i]) in r.value
    ensures r.Err? ==> r.error.MissingFile? && r.error.file in files && r.error.file !in folder
    decreases |files|
  {
    if files == [] then Ok(acc)
    else if files[0] !in folder then Err(MissingFile(files[0]))
    else
      var r := ExtractFrom(files[1..], folder, acc[KeyName(files[0]) := folder[files[0]]]);
      assert forall i :: 1 <= i < |files| ==> files[i] == files[1..][i - 1];
      r
  }

  /** A stored entry whose key no visited file maps to keeps its value. */
  lemma {:induction false} ExtractFromKeepsUnvisitedKeys(files: seq<string>, folder: map<string, DataFrame>,
                                                        acc: map<string, DataFrame>, k: string)
    requires ExtractFrom(files, folder, acc).Ok?
    requires k in acc && forall i :: 0 <= i < |files| ==> KeyName(files[i]) != k
    ensures k in ExtractFrom(files, folder, acc).value && ExtractFrom(files, folder, acc).value[k] == acc[k]
  {
    if files != [] {
      var acc' := acc[KeyName(files[0]) := folder[files[0]]];
      assert forall i :: 0 <= i < |files[1..]| ==> files[1..][i] == files[i + 1];
      ExtractFromKeepsUnvisitedKeys(files[1..], folder, acc', k);
    }
  }

  /** The extract loop succeeds exactly when every file it visits is in the folder. */
  lemma {:induction false} ExtractFromSucceeds(files: seq<string>, folder: map<string, DataFrame>, acc: map<string, DataFrame>)
    ensures ExtractFrom(files, folder, acc).Ok? <==> forall i :: 0 <= i < |files| ==> files[i] in folder
  {
    if files != [] && files[0] in folder {
      ExtractFromSucceeds(files[1..], folder, acc[KeyName(files[0]) := folder[files[0]]]);
      assert forall i :: 1 <= i < |files| ==> files[i] == files[1..][i - 1];
    }
  }

  /** A failed extract names the first file missing from the folder. */
  lemma {:induction false} ExtractFromFailsAtFirstMissing(files: seq<string>, folder: map<string, DataFrame>, acc: map<string, DataFrame>)
    requires ExtractFrom(files, folder, acc).Err?
    ensures exists k :: (0 <= k < |files| && files[k] !in folder
      && (forall i :: 0 <= i < k ==> files[i] in folder)
      && ExtractFrom(files, folder, acc).error == MissingFile(files[k]))
  {
    if files[0] in folder {
      var rest := files[1..];
      ExtractFromFailsAtFirstMissing(rest, folder, acc[KeyName(files[0]) := folder[files[0]]]);
      var k :| 0 <= k < |rest| && rest[k] !in folder
        && (forall i :: 0 <= i < k ==> rest[i] in folder)
        && ExtractFrom(rest, folder, acc[KeyName(files[0]) := folder[files[0]]]).error == MissingFile(rest[k]);
      assert files[k + 1] == rest[k];
      assert forall i :: 1 <= i < k + 1 ==> files[i] == rest[i - 1];
    } else {
      assert files[0] !in folder && ExtractFrom(files, folder, acc).error == MissingFile(files[0]);
    }
  }

  /** The three files are all in the folder. */
  predicate HasAllFiles(folder: map<string, DataFrame>)
  {
    CustomersFile in folder && OrdersFile in folder && OrderItemsFile in folder
  }

  /** Three files that all exist are stored in turn, a later key overwriting an equal earlier one. */
  lemma {:induction false} ExtractThree(f1: string, f2: string, f3: string, folder: map<string, DataFrame>)
    requires f1 in folder && f2 in folder && f3 in folder
    ensures ExtractFrom([f1, f2, f3], folder, map[])
         == Ok(map[KeyName(f1) := folder[f1]][KeyName(f2) := folder[f2]][KeyName(f3) := folder[f3]])
  {
    var m1 := map[KeyName(f1) := folder[f1]];
    var m2 := m1[KeyName(f2) := folder[f2]];
    assert [f1, f2, f3][1..] == [f2, f3];
    assert ExtractFrom([f1, f2, f3], folder, map[]) == ExtractFrom([f2, f3], folder, m1);
    assert [f2, f3][1..] == [f3];
    assert ExtractFrom([f2, f3], folder, m1) == ExtractFrom([f3], folder, m2);
    assert [f3][1..] == [];
  }

  /** The dictionary `extract` builds from a complete folder. */
  lemma {:induction false} ExtractedDictionary(folder: map<string, DataFrame>)
    requires HasAllFiles(folder)
    ensures ExtractFrom(CsvFiles, folder, map[])
         == Ok(map[CustomersKey := folder[CustomersFile], OrdersKey := folder[OrdersFile],
                   OrderItemsKey := folder[OrderItemsFile]])
  {
    ExtractThree(CustomersFile, OrdersFile, OrderItemsFile, folder);
    KeyNameOfCustomersFile();
    KeyNameOfOrdersFile();
    KeyNameOfOrderItemsFile();
  }

  /**
   * `extract` succeeds exactly when the three files exist; it then yields
   * exactly the keys "customers", "orders" and "order_items", each holding
   * its file's table unchanged. Otherwise it fails on the first missing file.
   */
  lemma {:induction false} ExtractOutcome(folder: map<string, DataFrame>)
    ensures var r := ExtractFrom(CsvFiles, folder, map[]);
      && (r.Ok? <==> HasAllFiles(folder))
      && (r.Ok? ==>
            && r.value.Keys == {CustomersKey, OrdersKey, OrderItemsKey}
            && r.value[CustomersKey] == folder[CustomersFile]
            && r.value[OrdersKey] == folder[OrdersFile]
            && r.value[OrderItemsKey] == folder[OrderItemsFile])
      && (CustomersFile !in folder ==> r == Err(MissingFile(CustomersFile)))
      && (CustomersFile in folder && OrdersFile !in folder ==> r == Err(MissingFile(OrdersFile)))
      && (CustomersFile in folder && OrdersFile in folder && OrderItemsFile !in folder ==>
            r == Err(MissingFile(OrderItemsFile)))
  {
    var r := ExtractFrom(CsvFiles, folder, map[]);
    ExtractFromSucceeds(CsvFiles, folder, map[]);
    assert CsvFiles[0] == CustomersFile && CsvFiles[1] == OrdersFile && CsvFiles[2] == OrderItemsFile;
    if HasAllFiles(folder) {
      ExtractedDictionary(folder);
    } else {
      ExtractFromFailsAtFirstMissing(CsvFiles, folder, map[]);
      var k :| 0 <= k < |CsvFiles| && CsvFiles[k] !in folder
        && (forall i :: 0 <= i < k ==> CsvFiles[i] in folder)
        && r.error == MissingFile(CsvFiles[k]);
      assert k == 0 <==> CustomersFile !in folder;
    }
  }

  /** What `run` leaves behind: the frame it loads, or the error that stopped it before loading. */
  function RunResult(folder: map<string, DataFrame>): (r: Result<DataFrame>)
    ensures r.Ok? ==> HasAllFiles(folder)
    ensures !HasAllFiles(folder) ==> r.Err? && r.error.MissingFile?
  {
    ExtractOutcome(folder);
    match ExtractFrom(CsvFiles, folder, map[])
    case Err(e) => Err(e)
    case Ok(datasets) => Transform.Transform(datasets)
  }

  /**
   * A run that gets past `extract` loads the transform of the customers and
   * orders files alone: the order items are read (and must exist) but never
   * reach the output.
   */
  lemma {:induction false} RunUsesCustomersAndOrders(folder: map<string, DataFrame>)
    ensures !HasAllFiles(folder) ==> RunResult(folder).Err? && RunResult(folder).error.MissingFile?
    ensures HasAllFiles(folder) ==>
      RunResult(folder) == Transform.Transform(map[CustomersKey := folder[CustomersFile], OrdersKey := folder[OrdersFile]])
  {
    ExtractOutcome(folder);
    if HasAllFiles(folder) {
      var datasets := ExtractFrom(CsvFiles, folder, map[]).value;
      TransformReadsOnlyCustomersAndOrders(datasets,
        map[CustomersKey := folder[CustomersFile], OrdersKey := folder[OrdersFile]]);
    }
  }

  class OlistPipeline {
    /** The data folder: each file name with the table read from it. */
    const folder: map<string, DataFrame>
    /** The SQLite store: each table name with its contents. */
    var database: map<string, DataFrame>

    constructor(folder: map<string, DataFrame>, database: map<string, DataFrame>)
      ensures this.folder == folder && this.database == database
    {
      this.folder := folder;
      this.database := database;
    }

    /** (E)xtract: one table per file, stored under the file's key name. */
    method Extract() returns (r: Result<map<string, DataFrame>>)
      ensures r == ExtractFrom(CsvFiles, folder, map[])
    {
      var dataframes: map<string, DataFrame> := map[];
      for i := 0 to |CsvFiles|
        invariant ExtractFrom(CsvFiles[i..], folder, dataframes) == ExtractFrom(CsvFiles, folder, map[])
      {
        var file := CsvFiles[i];
        assert CsvFiles[i..][0] == file && CsvFiles[i..][1..] == CsvFiles[i + 1..];
        if file !in folder {
          return Err(MissingFile(file));
        }
        var keyName := KeyName(file);
        dataframes := dataframes[keyName := folder[file]];
      }
      assert CsvFiles[|CsvFiles|..] == [];
      return Ok(dataframes);
    }

    /** (L)oad: write `table` as the target table, replacing whatever was stored under that name. */
    method Load(table: DataFrame)
      modifies this
      ensures database == old(database)[TargetTable := table]
    {
      database := database[TargetTable := table];
    }

    /**
     * `run`: extract, transform, load, in that order. An error in either of
     * the first two stages stops the run before `load`, leaving the store
     * as it was.
     */
    method Run() returns (r: Result<DataFrame>)
      modifies this
      ensures r == RunResult(folder)
      ensures r.Ok? ==> database == old(database)[TargetTable := r.value]
      ensures r.Err? ==> database == old(database)
    {
      var extracted := Extract();
      if extracted.Err? {
        return Err(extracted.error);
      }
      var transformed := Transform.Transform(extracted.value);
      if transformed.Err? {
        return transformed;
      }
      Load(transformed.value);
      return transformed;
    }
  }
}
