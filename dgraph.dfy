/**
 * The query helpers of the database layer (flaskinventory/dgraph.py): the
 * facet flattening applied to query results, the filter-string builders, the
 * lookup of a uid, the text of the generic listing query, and the reshaping
 * of a source or paper record after it comes back from the database.
 *
 * The database itself is a parameter: `db` maps the query text to the rows of
 * the block the query names. Date parsing is the parameter `parseDate`.
 */
module Dgraph {
  import opened Values

  // ---------------------------------------------------------------------------
  // flatten_date_facets
  // ---------------------------------------------------------------------------

  /** The keys of `data` that carry a facet of `field`, in the dict's order. */
  function FacetKeys(data: Dict, field: string): (r: seq<string>)
    ensures forall i :: 0 <= i < |r| ==> StartsWith(r[i], field + "|")
    ensures forall k :: k in r <==> k in Keys(data) && StartsWith(k, field + "|")
  {
    if data == [] then []
    else if StartsWith(data[0].0, field + "|") then [data[0].0] + FacetKeys(data[1..], field)
    else FacetKeys(data[1..], field)
  }

  /** `key.split('|')[1]`: the facet name in a key such as `audience_size|count` */
  function Label(key: string, field: string): string
    requires StartsWith(key, field + "|")
  {
    assert key[|field|] == '|';
    Split(key, '|')[1]
  }

  function Labels(keys: seq<string>, field: string): (r: seq<string>)
    requires forall i :: 0 <= i < |keys| ==> StartsWith(keys[i], field + "|")
    ensures |r| == |keys|
    ensures forall i :: 0 <= i < |keys| ==> r[i] == Label(keys[i], field)
  {
    if keys == [] then [] else [Label(keys[0], field)] + Labels(keys[1..], field)
  }

  /** `data[facet][str(i)]` */
  function FacetCell(data: Dict, facet: string, i: nat): Result<Value>
  {
    match Get(data, facet)
    case None => Err(KeyError)
    case Some(DictV(d)) =>
      (match Get(d, Decimal(i))
       case None => Err(KeyError)
       case Some(x) => Ok(x))
    case Some(_) => Err(TypeError)
  }

  /** The cell of the `i`-th value in every facet map, as a function of the facet key. */
  function CellAt(data: Dict, i: nat): string -> Result<Value>
  {
    facet => FacetCell(data, facet, i)
  }

  /** The cells `cellOf` gives the keys, in key order. */
  function Cells(cellOf: string -> Result<Value>, keys: seq<string>): (cells: seq<Result<Value>>)
    ensures |cells| == |keys|
  {
    seq(|keys|, j requires 0 <= j < |keys| => cellOf(keys[j]))
  }

  /** The facet cells of the `i`-th value, one per facet key, in key order. */
  function RowCells(data: Dict, keys: seq<string>, i: nat): (cells: seq<Result<Value>>)
    ensures |cells| == |keys|
  {
    Cells(CellAt(data, i), keys)
  }

  /** A record with `value` under `date` after the first `n` cells are added under their labels. */
  function FacetRow(cells: seq<Result<Value>>, labels: seq<string>, value: Value, n: nat): Result<Dict>
    requires |cells| == |labels| && n <= |cells|
  {
    if n == 0 then Ok([("date", value)])
    else match FacetRow(cells, labels, value, n - 1)
      case Err(e) => Err(e)
      case Ok(row) =>
        (match cells[n - 1]
         case Err(e) => Err(e)
         case Ok(x) => Ok(Put(row, labels[n - 1], x)))
  }

  /** The cells of every value of a column of `count` values. */
  function CellTable(data: Dict, keys: seq<string>, count: nat): (table: seq<seq<Result<Value>>>)
    ensures |table| == count
    ensures forall i :: 0 <= i < count ==> |table[i]| == |keys|
  {
    seq(count, i requires 0 <= i < count => RowCells(data, keys, i))
  }

  /** Every row of the table has one cell per label. */
  predicate Shaped(table: seq<seq<Result<Value>>>, labels: seq<string>)
  {
    forall i :: 0 <= i < |table| ==> |table[i]| == |labels|
  }

  /** The records for the first `n` values of the column, value `i` with the cells `table[i]`. */
  function FacetRows(table: seq<seq<Result<Value>>>, labels: seq<string>, items: seq<Value>, n: nat): Result<seq<Value>>
    requires Shaped(table, labels) && |table| == |items| && n <= |items|
  {
    if n == 0 then Ok([])
    else match FacetRows(table, labels, items, n - 1)
      case Err(e) => Err(e)
      case Ok(rows) =>
        (match FacetRow(table[n - 1], labels, items[n - 1], |labels|)
         case Err(e) => Err(e)
         case Ok(row) => Ok(rows + [DictV(row)]))
  }

  /**
   * What `flatten_date_facets(data, field)` returns: the column becomes a list
   * of records, one per value, each holding the value under `date` and every
   * facet under its label, and `field_labels` lists the labels.
   */
  function FlattenDateFacetsSpec(data: Dict, field: string): Result<Dict>
  {
    var keys := FacetKeys(data, field);
    var labels := Labels(keys, field);
    match Get(data, field)
    case None => Err(KeyError)
    case Some(column) =>
      (match Iter(column)
       case None => Err(TypeError)
       case Some(items) =>
         (match FacetRows(CellTable(data, keys, |items|), labels, items, |items|)
          case Err(e) => Err(e)
          case Ok(rows) => Ok(Put(Put(data, field, ListV(rows)), field + "_labels", ListV(StrValues(labels))))))
  }

  lemma {:induction false} FacetRowErr(cells: seq<Result<Value>>, labels: seq<string>, value: Value, n: nat, m: nat)
    requires |cells| == |labels| && n <= m <= |cells|
    requires FacetRow(cells, labels, value, n).Err?
    ensures FacetRow(cells, labels, value, m) == FacetRow(cells, labels, value, n)
    decreases m
  {
    if m > n {
      FacetRowErr(cells, labels, value, n, m - 1);
    }
  }

  lemma {:induction false} FacetRowsErr(table: seq<seq<Result<Value>>>, labels: seq<string>, items: seq<Value>, n: nat, m: nat)
    requires Shaped(table, labels) && |table| == |items| && n <= m <= |items|
    requires FacetRows(table, labels, items, n).Err?
    ensures FacetRows(table, labels, items, m) == FacetRows(table, labels, items, n)
    decreases m
  {
    if m > n {
      FacetRowsErr(table, labels, items, n, m - 1);
    }
  }

  /** `flatten_date_facets`: the loop over the column and, inside it, over the facets. */
  method FlattenDateFacets(data: Dict, field: string) returns (r: Result<Dict>)
    ensures r == FlattenDateFacetsSpec(data, field)
  {
    var keys := FacetKeys(data, field);
    var labels := Labels(keys, field);
    var column := Get(data, field);
    if column.None? {
      return Err(KeyError);
    }
    var it := Iter(column.value);
    if it.None? {
      return Err(TypeError);
    }
    var rows := FacetColumn(data, keys, labels, it.value);
    if rows.Err? {
      return Err(rows.error);
    }
    r := Ok(Put(Put(data, field, ListV(rows.value)), field + "_labels", ListV(StrValues(labels))));
  }

  /** The outer loop of `flatten_date_facets`: one record per value of the column. */
  method FacetColumn(data: Dict, keys: seq<string>, labels: seq<string>, items: seq<Value>) returns (r: Result<seq<Value>>)
    requires |keys| == |labels|
    ensures r == FacetRows(CellTable(data, keys, |items|), labels, items, |items|)
  {
    ghost var table := CellTable(data, keys, |items|);
    var rows: seq<Value> := [];
    var index := 0;
    while index < |items|
      invariant 0 <= index <= |items|
      invariant FacetRows(table, labels, items, index) == Ok(rows)
    {
      var row := FacetRecord(CellAt(data, index), keys, labels, items[index]);
      assert table[index] == RowCells(data, keys, index);
      if row.Err? {
        FacetRowsErr(table, labels, items, index + 1, |items|);
        return Err(row.error);
      }
      rows := rows + [DictV(row.value)];
      index := index + 1;
    }
    r := Ok(rows);
  }

  /** The inner loop of `flatten_date_facets`: the record of value `i`, one facet at a time. */
  method FacetRecord(cellOf: string -> Result<Value>, keys: seq<string>, labels: seq<string>, value: Value)
    returns (r: Result<Dict>)
    requires |keys| == |labels|
    ensures r == FacetRow(Cells(cellOf, keys), labels, value, |keys|)
  {
    ghost var cells := Cells(cellOf, keys);
    var row: Dict := [("date", value)];
    var j := 0;
    while j < |keys|
      invariant 0 <= j <= |keys|
      invariant FacetRow(cells, labels, value, j) == Ok(row)
    {
      var cell := cellOf(keys[j]);
      if cell.Err? {
        FacetRowErr(cells, labels, value, j + 1, |keys|);
        return Err(cell.error);
      }
      row := Put(row, labels[j], cell.value);
      j := j + 1;
    }
    r := Ok(row);
  }

  /** A record's keys are `date` and the labels of the facets added so far. */
  lemma {:induction false} FacetRowKeys(cells: seq<Result<Value>>, labels: seq<string>, value: Value, n: nat)
    requires |cells| == |labels| && n <= |cells|
    requires FacetRow(cells, labels, value, n).Ok?
    ensures Keys(FacetRow(cells, labels, value, n).value) == {"date"} + set j | 0 <= j < n :: labels[j]
    decreases n
  {
    if n > 0 {
      FacetRowKeys(cells, labels, value, n - 1);
      PutKeys(FacetRow(cells, labels, value, n - 1).value, labels[n - 1], cells[n - 1].value);
      assert (set j | 0 <= j < n :: labels[j]) == (set j | 0 <= j < n - 1 :: labels[j]) + {labels[n - 1]};
    }
  }

  /** Unless a facet is labelled `date`, the record keeps the value under `date`. */
  lemma {:induction false} FacetRowDate(cells: seq<Result<Value>>, labels: seq<string>, value: Value, n: nat)
    requires |cells| == |labels| && n <= |cells|
    requires FacetRow(cells, labels, value, n).Ok?
    requires "date" !in labels[..n]
    ensures Get(FacetRow(cells, labels, value, n).value, "date") == Some(value)
    decreases n
  {
    if n > 0 {
      assert labels[..n] == labels[..n - 1] + [labels[n - 1]];
      FacetRowDate(cells, labels, value, n - 1);
      PutGet(FacetRow(cells, labels, value, n - 1).value, labels[n - 1], cells[n - 1].value);
    }
  }

  /** A facet whose label is not reused by a later key sits under its label. */
  lemma {:induction false} FacetRowCell(cells: seq<Result<Value>>, labels: seq<string>, value: Value, n: nat, j: nat)
    requires |cells| == |labels| && j < n <= |cells|
    requires FacetRow(cells, labels, value, n).Ok?
    requires labels[j] !in labels[j + 1..n]
    ensures cells[j].Ok?
    ensures Get(FacetRow(cells, labels, value, n).value, labels[j]) == Some(cells[j].value)
    decreases n
  {
    PutGet(FacetRow(cells, labels, value, n - 1).value, labels[n - 1], cells[n - 1].value);
    if j < n - 1 {
      assert labels[j + 1..n] == labels[j + 1..n - 1] + [labels[n - 1]];
      FacetRowCell(cells, labels, value, n - 1, j);
    }
  }

  lemma {:induction false} FacetRowsContents(table: seq<seq<Result<Value>>>, labels: seq<string>, items: seq<Value>, n: nat)
    requires Shaped(table, labels) && |table| == |items| && n <= |items|
    requires FacetRows(table, labels, items, n).Ok?
    ensures |FacetRows(table, labels, items, n).value| == n
    ensures forall i :: 0 <= i < n ==>
              FacetRow(table[i], labels, items[i], |labels|).Ok? &&
              FacetRows(table, labels, items, n).value[i] == DictV(FacetRow(table[i], labels, items[i], |labels|).value)
    decreases n
  {
    if n > 0 {
      FacetRowsContents(table, labels, items, n - 1);
    }
  }

  /** A successful flattening replaces the column by the records and adds the labels. */
  lemma FlattenedParts(data: Dict, field: string)
    requires FlattenDateFacetsSpec(data, field).Ok?
    ensures Get(data, field).Some? && Iter(Get(data, field).value).Some?
    ensures var items := Iter(Get(data, field).value).value;
            var keys := FacetKeys(data, field);
            var labels := Labels(keys, field);
            var rows := FacetRows(CellTable(data, keys, |items|), labels, items, |items|);
            rows.Ok? &&
            FlattenDateFacetsSpec(data, field).value ==
              Put(Put(data, field, ListV(rows.value)), field + "_labels", ListV(StrValues(labels))) &&
            Get(FlattenDateFacetsSpec(data, field).value, field) == Some(ListV(rows.value)) &&
            Get(FlattenDateFacetsSpec(data, field).value, field + "_labels") == Some(ListV(StrValues(labels)))
  {
    var items := Iter(Get(data, field).value).value;
    var keys := FacetKeys(data, field);
    var labels := Labels(keys, field);
    var rows := FacetRows(CellTable(data, keys, |items|), labels, items, |items|).value;
    var d1 := Put(data, field, ListV(rows));
    PutGet(data, field, ListV(rows));
    PutGet(d1, field + "_labels", ListV(StrValues(labels)));
    assert field != field + "_labels" by { assert |field| < |field + "_labels"|; }
  }

  /** The column of a flattened result: one record per original value. */
  function Flattened(data: Dict, field: string): (rows: seq<Value>)
    requires FlattenDateFacetsSpec(data, field).Ok?
  {
    FlattenedParts(data, field);
    Get(FlattenDateFacetsSpec(data, field).value, field).value.items
  }

  /**
   * A flattened column has as many records as the column had values, and
   * `field_labels` lists the facet labels in the order of their keys; no
   * other key is added.
   */
  lemma FlattenDateFacetsColumn(data: Dict, field: string)
    requires FlattenDateFacetsSpec(data, field).Ok?
    ensures Get(data, field).Some? && Iter(Get(data, field).value).Some?
    ensures Get(FlattenDateFacetsSpec(data, field).value, field).Some?
    ensures Get(FlattenDateFacetsSpec(data, field).value, field).value.ListV?
    ensures |Flattened(data, field)| == |Iter(Get(data, field).value).value|
    ensures Get(FlattenDateFacetsSpec(data, field).value, field + "_labels")
         == Some(ListV(StrValues(Labels(FacetKeys(data, field), field))))
    ensures Keys(FlattenDateFacetsSpec(data, field).value) == Keys(data) + {field + "_labels"}
  {
    var items := Iter(Get(data, field).value).value;
    var keys := FacetKeys(data, field);
    var labels := Labels(keys, field);
    FlattenedParts(data, field);
    var rows := FacetRows(CellTable(data, keys, |items|), labels, items, |items|).value;
    FacetRowsContents(CellTable(data, keys, |items|), labels, items, |items|);
    PutKeys(data, field, ListV(rows));
    PutKeys(Put(data, field, ListV(rows)), field + "_labels", ListV(StrValues(labels)));
  }

  /**
   * Record `i` of a flattened column holds value `i` under `date` and, under
   * each facet label, entry `str(i)` of that facet's map.
   */
  lemma FlattenDateFacetsRecord(data: Dict, field: string, i: nat, j: nat)
    requires FlattenDateFacetsSpec(data, field).Ok?
    requires i < |Flattened(data, field)|
    ensures Get(data, field).Some? && Iter(Get(data, field).value).Some?
    ensures i < |Iter(Get(data, field).value).value|
    ensures var keys := FacetKeys(data, field);
            FacetRow(RowCells(data, keys, i), Labels(keys, field), Iter(Get(data, field).value).value[i], |keys|).Ok? &&
            Flattened(data, field)[i] ==
              DictV(FacetRow(RowCells(data, keys, i), Labels(keys, field), Iter(Get(data, field).value).value[i], |keys|).value)
    ensures "date" !in Labels(FacetKeys(data, field), field) ==>
              Get(Flattened(data, field)[i].d, "date") == Some(Iter(Get(data, field).value).value[i])
    ensures var labels := Labels(FacetKeys(data, field), field);
            j < |labels| && labels[j] !in labels[j + 1..] ==>
              FacetCell(data, FacetKeys(data, field)[j], i).Ok? &&
              Get(Flattened(data, field)[i].d, labels[j]) == Some(FacetCell(data, FacetKeys(data, field)[j], i).value)
  {
    var items := Iter(Get(data, field).value).value;
    var keys := FacetKeys(data, field);
    var labels := Labels(keys, field);
    FlattenedParts(data, field);
    var table := CellTable(data, keys, |items|);
    FacetRowsContents(table, labels, items, |items|);
    assert Flattened(data, field) == FacetRows(table, labels, items, |items|).value;
    assert labels[..|keys|] == labels;
    var cells := RowCells(data, keys, i);
    assert table[i] == cells;
    if "date" !in labels {
      FacetRowDate(cells, labels, items[i], |keys|);
    }
    if j < |labels| && labels[j] !in labels[j + 1..] {
      FacetRowCell(cells, labels, items[i], |keys|, j);
      assert cells[j] == FacetCell(data, keys[j], i);
    }
  }

  /**
   * The facet maps Dgraph returns for a column of `values` whose facet `label`
   * has `cells[i]` at position `i`: the map `{"0": cells[0], "1": cells[1], …}`
   * Dgraph returns under `field|label`.
   */
  function FacetMap(cells: seq<Value>): (d: Dict)
    ensures |d| == |cells|
    ensures forall i :: 0 <= i < |cells| ==> d[i] == (Decimal(i), cells[i])
  {
    seq(|cells|, i requires 0 <= i < |cells| => (Decimal(i), cells[i]))
  }

  lemma FacetMapGet(cells: seq<Value>, i: nat)
    requires i < |cells|
    ensures Get(FacetMap(cells), Decimal(i)) == Some(cells[i])
  {
    var d := FacetMap(cells);
    forall j | 0 <= j < i
      ensures d[j].0 != Decimal(i)
    {
      if d[j].0 == Decimal(i) {
        DecimalInjective(j, i);
      }
    }
    GetAt(d, i, Decimal(i));
  }

  /**
   * Round trip: flattening the result Dgraph returns for a column with one
   * facet gives back, for every position, the value under `date` and the
   * facet under its label.
   */
  lemma FlattenOneFacet(field: string, facet: string, values: seq<Value>, cells: seq<Value>, i: nat)
    requires '|' !in field && '|' !in facet && facet != "date"
    requires |values| == |cells| && i < |values|
    ensures var data := [(field, ListV(values)), (field + "|" + facet, DictV(FacetMap(cells)))];
            FlattenDateFacetsSpec(data, field).Ok? &&
            |Flattened(data, field)| == |values| &&
            Flattened(data, field)[i] == DictV([("date", values[i]), (facet, cells[i])]) &&
            Get(FlattenDateFacetsSpec(data, field).value, field + "_labels") == Some(ListV([StrV(facet)]))
  {
    var data := [(field, ListV(values)), (field + "|" + facet, DictV(FacetMap(cells)))];
    var key := field + "|" + facet;
    OneFacetKeys(field, facet, data);
    var keys := [key];
    var labels := [facet];
    assert field != key by { assert |field| < |key|; }
    var table := CellTable(data, keys, |values|);
    forall j | 0 <= j < |values|
      ensures FacetRow(table[j], labels, values[j], 1).Ok?
    {
      OneFacetRow(data, key, facet, values, cells, j);
    }
    FacetRowsOk(table, labels, values, |values|);
    assert Get(data, field) == Some(ListV(values));
    assert Iter(ListV(values)) == Some(values);
    assert FacetRows(CellTable(data, FacetKeys(data, field), |values|), Labels(FacetKeys(data, field), field), values, |values|).Ok?;
    assert FlattenDateFacetsSpec(data, field).Ok?;
    FlattenDateFacetsColumn(data, field);
    FlattenDateFacetsRecord(data, field, i, 0);
    OneFacetRow(data, key, facet, values, cells, i);
    assert StrValues([facet]) == [StrV(facet)];
  }

  /** Step of `FlattenOneFacet`: the j-th record built from the one facet map. */
  lemma OneFacetRow(data: Dict, key: string, facet: string, values: seq<Value>, cells: seq<Value>, j: nat)
    requires |data| == 2 && data[0].0 != key && data[1] == (key, DictV(FacetMap(cells)))
    requires facet != "date"
    requires |values| == |cells| && j < |values|
    ensures FacetRow(RowCells(data, [key], j), [facet], values[j], 1) == Ok([("date", values[j]), (facet, cells[j])])
  {
    FacetMapGet(cells, j);
    assert Get(data, key) == Some(DictV(FacetMap(cells)));
    assert FacetCell(data, key, j) == Ok(cells[j]);
    var row := RowCells(data, [key], j);
    assert row[0] == Ok(cells[j]);
    assert FacetRow(row, [facet], values[j], 0) == Ok([("date", values[j])]);
    assert Put([("date", values[j])], facet, cells[j]) == [("date", values[j]), (facet, cells[j])];
  }

  /** Step of `FlattenOneFacet`: the one facet key of the record and its label. */
  lemma OneFacetKeys(field: string, facet: string, data: Dict)
    requires '|' !in field && '|' !in facet
    requires |data| == 2 && data[0].0 == field && data[1].0 == field + "|" + facet
    ensures FacetKeys(data, field) == [field + "|" + facet]
    ensures Labels(FacetKeys(data, field), field) == [facet]
  {
    var key := field + "|" + facet;
    assert !StartsWith(field, field + "|");
    assert StartsWith(key, field + "|") by { assert key[..|field + "|"|] == field + "|"; }
    assert data[1..][1..] == [];
    assert FacetKeys(data[1..][1..], field) == [];
    assert FacetKeys(data[1..], field) == [key];
    assert Label(key, field) == facet by {
      assert key == field + ['|'] + facet;
      SplitAfter(field, '|', facet);
      SplitNoSep(facet, '|');
    }
  }

  /** When every record can be built, the whole column can. */
  lemma {:induction false} FacetRowsOk(table: seq<seq<Result<Value>>>, labels: seq<string>, items: seq<Value>, n: nat)
    requires Shaped(table, labels) && |table| == |items| && n <= |items|
    requires forall j :: 0 <= j < n ==> FacetRow(table[j], labels, items[j], |labels|).Ok?
    ensures FacetRows(table, labels, items, n).Ok?
  {
    if n > 0 {
      FacetRowsOk(table, labels, items, n - 1);
    }
  }

  // ---------------------------------------------------------------------------
  // get_source: the channel feeds and their urls
  // ---------------------------------------------------------------------------

  /** `data['channel_feeds'][int(key)]` */
  function FeedKind(feeds: Value, key: string): Result<Value>
  {
    var n :- ParseNat(key);
    match feeds
    case ListV(xs) => if n < |xs| then Ok(xs[n]) else Err(IndexError)
    case StrV(s) => if n < |s| then Ok(StrV([s[n]])) else Err(IndexError)
    case DictV(_) => Err(KeyError)
    case _ => Err(TypeError)
  }

  function FeedRecord(kind: Value, url: Value): Value
  {
    DictV([("kind", kind), ("url", url)])
  }

  /** The records for the first `n` entries of the url map. */
  function FeedRecords(feeds: Value, urls: Dict, n: nat): Result<seq<Value>>
    requires n <= |urls|
  {
    if n == 0 then Ok([])
    else
      var recs :- FeedRecords(feeds, urls, n - 1);
      var kind :- FeedKind(feeds, urls[n - 1].0);
      Ok(recs + [FeedRecord(kind, urls[n - 1].1)])
  }

  /** The channel-feed step of `get_source`: kinds paired with their urls, the url map dropped. */
  function FoldChannelFeedsSpec(data: Dict): Result<Dict>
  {
    match Get(data, "channel_feeds|url")
    case None => Err(KeyError)
    case Some(DictV(urls)) =>
      var recs :- FeedRecords(GetOrNone(data, "channel_feeds"), urls, |urls|);
      Ok(Remove(Put(data, "channel_feeds", ListV(recs)), "channel_feeds|url"))
    case Some(_) => Err(AttributeError)
  }

  lemma {:induction false} FeedRecordsErr(feeds: Value, urls: Dict, n: nat, m: nat)
    requires n <= m <= |urls|
    requires FeedRecords(feeds, urls, n).Err?
    ensures FeedRecords(feeds, urls, m) == FeedRecords(feeds, urls, n)
    decreases m
  {
    if m > n {
      FeedRecordsErr(feeds, urls, n, m - 1);
    }
  }

  method FoldChannelFeeds(data: Dict) returns (r: Result<Dict>)
    ensures r == FoldChannelFeedsSpec(data)
  {
    var urlMap := Get(data, "channel_feeds|url");
    if urlMap.None? {
      return Err(KeyError);
    }
    if !urlMap.value.DictV? {
      return Err(AttributeError);
    }
    var urls := urlMap.value.d;
    var feeds := GetOrNone(data, "channel_feeds");
    var recs: seq<Value> := [];
    var i := 0;
    while i < |urls|
      invariant 0 <= i <= |urls|
      invariant FeedRecords(feeds, urls, i) == Ok(recs)
    {
      var kind := FeedKind(feeds, urls[i].0);
      if kind.Err? {
        FeedRecordsErr(feeds, urls, i + 1, |urls|);
        return Err(kind.error);
      }
      recs := recs + [FeedRecord(kind.value, urls[i].1)];
      i := i + 1;
    }
    r := Ok(Remove(Put(data, "channel_feeds", ListV(recs)), "channel_feeds|url"));
  }

  lemma {:induction false} FeedRecordsContents(feeds: Value, urls: Dict, n: nat)
    requires n <= |urls|
    requires FeedRecords(feeds, urls, n).Ok?
    ensures |FeedRecords(feeds, urls, n).value| == n
    ensures forall i :: 0 <= i < n ==>
              FeedKind(feeds, urls[i].0).Ok? &&
              FeedRecords(feeds, urls, n).value[i] == FeedRecord(FeedKind(feeds, urls[i].0).value, urls[i].1)
  {
    if n > 0 {
      FeedRecordsContents(feeds, urls, n - 1);
    }
  }

  /**
   * After the fold, `channel_feeds` holds one `{kind, url}` record per url,
   * its kind looked up by the url's position key, and `channel_feeds|url` is gone.
   */
  lemma ChannelFeedsShape(data: Dict, i: nat)
    requires FoldChannelFeedsSpec(data).Ok?
    ensures Get(data, "channel_feeds|url").Some? && Get(data, "channel_feeds|url").value.DictV?
    ensures Get(FoldChannelFeedsSpec(data).value, "channel_feeds|url") == None
    ensures var urls := Get(data, "channel_feeds|url").value.d;
            var out := Get(FoldChannelFeedsSpec(data).value, "channel_feeds");
            out.Some? && out.value.ListV? && |out.value.items| == |urls| &&
            (i < |urls| ==>
              FeedKind(GetOrNone(data, "channel_feeds"), urls[i].0).Ok? &&
              out.value.items[i] == FeedRecord(FeedKind(GetOrNone(data, "channel_feeds"), urls[i].0).value, urls[i].1))
  {
    var urls := Get(data, "channel_feeds|url").value.d;
    var feeds := GetOrNone(data, "channel_feeds");
    FeedRecordsContents(feeds, urls, |urls|);
    PutGet(data, "channel_feeds", ListV(FeedRecords(feeds, urls, |urls|).value));
  }

  /** When every url key names a kind, the whole fold succeeds. */
  lemma {:induction false} FeedRecordsOk(feeds: Value, urls: Dict, n: nat)
    requires n <= |urls|
    requires forall i :: 0 <= i < n ==> FeedKind(feeds, urls[i].0).Ok?
    ensures FeedRecords(feeds, urls, n).Ok?
  {
    if n > 0 {
      FeedRecordsOk(feeds, urls, n - 1);
    }
  }

  /**
   * Round trip: a list of feed kinds with the url facet map Dgraph returns for
   * it folds into the records `{kind: kinds[i], url: urls[i]}`.
   */
  lemma ChannelFeedsRoundTrip(kinds: seq<Value>, urls: seq<Value>, i: nat)
    requires |kinds| == |urls| && i < |kinds|
    ensures var data := [("channel_feeds", ListV(kinds)), ("channel_feeds|url", DictV(FacetMap(urls)))];
            FoldChannelFeedsSpec(data).Ok? &&
            var out := Get(FoldChannelFeedsSpec(data).value, "channel_feeds");
            out.Some? && out.value.ListV? && |out.value.items| == |kinds| &&
            out.value.items[i] == FeedRecord(kinds[i], urls[i])
  {
    var data := [("channel_feeds", ListV(kinds)), ("channel_feeds|url", DictV(FacetMap(urls)))];
    var m := FacetMap(urls);
    assert GetOrNone(data, "channel_feeds") == ListV(kinds);
    assert Get(data, "channel_feeds|url") == Some(DictV(m));
    forall j | 0 <= j < |urls|
      ensures FeedKind(ListV(kinds), m[j].0) == Ok(kinds[j])
    {
      ParseDecimal(j);
    }
    FeedRecordsOk(ListV(kinds), m, |m|);
    FeedRecordsContents(ListV(kinds), m, |m|);
    ChannelFeedsShape(data, i);
  }

  // ---------------------------------------------------------------------------
  // Authors, papers, dates
  // ---------------------------------------------------------------------------

  /**
   * An `authors` string that begins with `[` holds a bracketed, `;`-separated
   * list: its brackets are removed and it is split on `;`. Other strings stay.
   */
  function SplitAuthors(s: string): (r: Value)
    ensures !StartsWith(s, "[") ==> r == StrV(s)
    ensures StartsWith(s, "[") ==> r.ListV? && |r.items| >= 1
  {
    if StartsWith(s, "[") then ListV(StrValues(Split(RemoveChar(RemoveChar(s, '['), ']'), ';')))
    else StrV(s)
  }

  /** The split names rejoined with `;` give the string without its brackets. */
  lemma SplitAuthorsJoin(s: string)
    requires StartsWith(s, "[")
    ensures var names := Split(RemoveChar(RemoveChar(s, '['), ']'), ';');
            SplitAuthors(s) == ListV(StrValues(names)) &&
            Join(names, ";") == RemoveChar(RemoveChar(s, '['), ']') &&
            forall i :: 0 <= i < |names| ==> ';' !in names[i] && '[' !in names[i] && ']' !in names[i]
  {
    var t := RemoveChar(RemoveChar(s, '['), ']');
    SplitJoin(t, ';');
    var names := Split(t, ';');
    forall i | 0 <= i < |names|
      ensures '[' !in names[i] && ']' !in names[i]
    {
      SplitPieceChars(t, ';', i);
    }
  }

  lemma {:induction false} SplitPieceChars(s: string, c: char, i: nat)
    requires i < |Split(s, c)|
    ensures forall x :: x in Split(s, c)[i] ==> x in s
  {
    if s != [] {
      var rest := Split(s[1..], c);
      if s[0] == c {
        if i > 0 { SplitPieceChars(s[1..], c, i - 1); }
      } else {
        SplitPieceChars(s[1..], c, if i == 0 then 0 else i);
      }
    }
  }

  /** Round trip: a bracketed `;`-list of names splits back into the names. */
  lemma AuthorsRoundTrip(names: seq<string>)
    requires |names| >= 1
    requires forall i :: 0 <= i < |names| ==> ';' !in names[i] && '[' !in names[i] && ']' !in names[i]
    ensures SplitAuthors("[" + Join(names, ";") + "]") == ListV(StrValues(names))
  {
    var j := Join(names, ";");
    var s := "[" + j + "]";
    assert StartsWith(s, "[");
    JoinChars(names, ";", '[');
    JoinChars(names, ";", ']');
    RemoveCharAppend("[", j + "]", '[');
    RemoveCharAppend(j, "]", '[');
    assert s == "[" + (j + "]");
    assert RemoveChar(s, '[') == j + "]";
    RemoveCharAppend(j, "]", ']');
    assert RemoveChar(j + "]", ']') == j;
    JoinSplit(names, ';');
  }

  /** `authors.startswith('[')` on the stored value; a non-string has no `startswith`. */
  function NormalizeAuthors(v: Value): (r: Result<Value>)
    ensures v.StrV? ==> r == Ok(SplitAuthors(v.s))
    ensures !v.StrV? ==> r == Err(AttributeError)
  {
    match v
    case StrV(s) => Ok(SplitAuthors(s))
    case _ => Err(AttributeError)
  }

  /** One record of a source's `papers`: its date parsed and its authors split. */
  function ShapePaper(p: Value, parseDate: Value -> Result<Value>): Result<Value>
  {
    match p
    case DictV(d) =>
      var published :- (match Get(d, "published_date") case Some(v) => Ok(v) case None => Err(KeyError));
      var date :- parseDate(published);
      var d1 := Put(d, "published_date", date);
      var authors :- (match Get(d1, "authors") case Some(v) => Ok(v) case None => Err(KeyError));
      var split :- NormalizeAuthors(authors);
      Ok(DictV(Put(d1, "authors", split)))
    case _ => Err(TypeError)
  }

  /** The per-record step as a function value, so that every use names the same step. */
  function PaperStep(parseDate: Value -> Result<Value>): Value -> Result<Value>
  {
    p => ShapePaper(p, parseDate)
  }

  /** `[dateparser.parse(item) for item in v]` */
  function ParseDates(items: seq<Value>, parseDate: Value -> Result<Value>): (r: Result<seq<Value>>)
    ensures r.Ok? ==> |r.value| == |items|
    ensures r.Ok? ==> forall i :: 0 <= i < |items| ==> parseDate(items[i]) == Ok(r.value[i])
  {
    if items == [] then Ok([])
    else
      var first :- parseDate(items[0]);
      var rest :- ParseDates(items[1..], parseDate);
      Ok([first] + rest)
  }

  /** The optional date-list steps of `get_source`: a truthy column becomes its parsed dates. */
  function ParseDateColumn(data: Dict, field: string, parseDate: Value -> Result<Value>): Result<Dict>
  {
    var v := GetOrNone(data, field);
    if !Truthy(v) then Ok(data)
    else match Iter(v)
      case None => Err(TypeError)
      case Some(items) =>
        var dates :- ParseDates(items, parseDate);
        Ok(Put(data, field, ListV(dates)))
  }

  function ParseDateField(data: Dict, field: string, parseDate: Value -> Result<Value>): Result<Dict>
  {
    var v := GetOrNone(data, field);
    if !Truthy(v) then Ok(data)
    else
      var date :- parseDate(v);
      Ok(Put(data, field, date))
  }

  /** The papers step: every record of a truthy `papers` list is shaped in place. */
  function ShapePapersSpec(data: Dict, parseDate: Value -> Result<Value>): Result<Dict>
  {
    var v := GetOrNone(data, "papers");
    if !Truthy(v) then Ok(data)
    else match v
      case ListV(papers) =>
        var shaped :- MapResult(PaperStep(parseDate), papers);
        Ok(Put(data, "papers", ListV(shaped)))
      case _ => Err(TypeError)
  }

  /** The loop of the papers step: each record shaped in turn, the first failure ending it. */
  method ShapeEachPaper(papers: seq<Value>, step: Value -> Result<Value>) returns (r: Result<seq<Value>>)
    ensures r == MapResult(step, papers)
  {
    var shaped: seq<Value> := [];
    var i := 0;
    while i < |papers|
      invariant 0 <= i <= |papers|
      invariant MapResult(step, papers[..i]) == Ok(shaped)
    {
      var p := step(papers[i]);
      assert papers[..i + 1] == papers[..i] + [papers[i]];
      MapResultSnoc(step, papers[..i], papers[i]);
      if p.Err? {
        assert papers[..i + 1] + papers[i + 1..] == papers;
        MapResultErrPrefix(step, papers[..i + 1], papers[i + 1..]);
        return Err(p.error);
      }
      shaped := shaped + [p.value];
      i := i + 1;
    }
    assert papers[..i] == papers;
    r := Ok(shaped);
  }

  method ShapeSourcePapers(data: Dict, parseDate: Value -> Result<Value>) returns (r: Result<Dict>)
    ensures r == ShapePapersSpec(data, parseDate)
  {
    var v := GetOrNone(data, "papers");
    if !Truthy(v) {
      return Ok(data);
    }
    if !v.ListV? {
      return Err(TypeError);
    }
    var shaped := ShapeEachPaper(v.items, PaperStep(parseDate));
    if shaped.Err? {
      return Err(shaped.error);
    }
    r := Ok(Put(data, "papers", ListV(shaped.value)));
  }

  /** The channel-feed step, taken only when `channel_feeds` is truthy. */
  function ChannelFeedsStep(data: Dict): Result<Dict>
  {
    if Truthy(GetOrNone(data, "channel_feeds")) then FoldChannelFeedsSpec(data) else Ok(data)
  }

  function FlattenStep(data: Dict, field: string): Result<Dict>
  {
    if Truthy(GetOrNone(data, field)) then FlattenDateFacetsSpec(data, field) else Ok(data)
  }

  /** The post-processing of a source record, step by step as `get_source` applies it. */
  function ShapeSourceSpec(data: Dict, parseDate: Value -> Result<Value>): Result<Dict>
  {
    var d1 :- ParseDateField(data, "founded", parseDate);
    var d2 :- ParseDateColumn(d1, "audience_size", parseDate);
    var d3 :- ParseDateColumn(d2, "audience_residency", parseDate);
    var d4 :- ShapePapersSpec(d3, parseDate);
    var d5 :- ChannelFeedsStep(d4);
    var d6 :- FlattenStep(d5, "audience_size");
    FlattenStep(d6, "audience_residency")
  }

  /** What `get_source` returns when the query found nothing (`False`) or a record. */
  datatype Found = NotFound | Found(record: Dict)

  /** `get_source` from the query's rows on: `False` for no rows, else the first row reshaped. */
  method GetSource(rows: seq<Dict>, parseDate: Value -> Result<Value>) returns (r: Result<Found>)
    ensures rows == [] ==> r == Ok(NotFound)
    ensures rows != [] ==> r.Ok? == ShapeSourceSpec(rows[0], parseDate).Ok?
    ensures rows != [] && r.Ok? ==> r.value == Found(ShapeSourceSpec(rows[0], parseDate).value)
    ensures rows != [] && r.Err? ==> r.error == ShapeSourceSpec(rows[0], parseDate).error
  {
    if rows == [] {
      return Ok(NotFound);
    }
    var data := rows[0];
    data :- ParseDateField(data, "founded", parseDate);
    data :- ParseDateColumn(data, "audience_size", parseDate);
    data :- ParseDateColumn(data, "audience_residency", parseDate);
    data :- ShapeSourcePapers(data, parseDate);
    if Truthy(GetOrNone(data, "channel_feeds")) {
      data :- FoldChannelFeeds(data);
    }
    if Truthy(GetOrNone(data, "audience_size")) {
      data :- FlattenDateFacets(data, "audience_size");
    }
    if Truthy(GetOrNone(data, "audience_residency")) {
      data :- FlattenDateFacets(data, "audience_residency");
    }
    r := Ok(Found(data));
  }

  /** `get_paper` from the query's rows on: the date parsed and a bracketed author list split. */
  function GetPaper(rows: seq<Dict>, parseDate: Value -> Result<Value>): (r: Result<Found>)
    ensures rows == [] ==> r == Ok(NotFound)
    ensures rows != [] ==>
      var published := GetOrNone(rows[0], "published_date");
      var authors := GetOrNone(rows[0], "authors");
      // a failing date parse is passed on, then a stored author value without `startswith`
      (Truthy(published) && parseDate(published).Err? ==> r == Err(parseDate(published).error)) &&
      ((Truthy(published) ==> parseDate(published).Ok?) && Truthy(authors) && !authors.StrV? ==>
         r == Err(AttributeError)) &&
      (r.Ok? <==> (Truthy(published) ==> parseDate(published).Ok?) && (Truthy(authors) ==> authors.StrV?))
    ensures rows != [] && r.Ok? ==>
      var published := GetOrNone(rows[0], "published_date");
      var authors := GetOrNone(rows[0], "authors");
      r.value.Found? &&
      // a truthy date is replaced by its parse, truthy authors by their split; the rest is kept
      Get(r.value.record, "published_date") ==
        (if Truthy(published) then Some(parseDate(published).value) else Get(rows[0], "published_date")) &&
      Get(r.value.record, "authors") ==
        (if Truthy(authors) then Some(SplitAuthors(authors.s)) else Get(rows[0], "authors")) &&
      forall k :: k != "published_date" && k != "authors" ==> Get(r.value.record, k) == Get(rows[0], k)
  {
    if rows == [] then Ok(NotFound)
    else
      var data := rows[0];
      var published := GetOrNone(data, "published_date");
      var d1 :- if Truthy(published) then
                  (var date :- parseDate(published); PutGet(data, "published_date", date); Ok(Put(data, "published_date", date)))
                else Ok(data);
      var authors := GetOrNone(d1, "authors");
      var d2 :- if Truthy(authors) then
                  (var split :- NormalizeAuthors(authors); PutGet(d1, "authors", split); Ok(Put(d1, "authors", split)))
                else Ok(d1);
      Ok(Found(d2))
  }

  /** A paper whose stored authors are a bracketed `;`-list comes back with the list of names. */
  lemma GetPaperAuthors(rows: seq<Dict>, parseDate: Value -> Result<Value>, names: seq<string>)
    requires rows != []
    requires var published := GetOrNone(rows[0], "published_date");
             Truthy(published) ==> parseDate(published).Ok?
    requires |names| >= 1
    requires forall i :: 0 <= i < |names| ==> ';' !in names[i] && '[' !in names[i] && ']' !in names[i]
    requires Get(rows[0], "authors") == Some(StrV("[" + Join(names, ";") + "]"))
    ensures GetPaper(rows, parseDate).Ok?
    ensures Get(GetPaper(rows, parseDate).value.record, "authors") == Some(ListV(StrValues(names)))
  {
    var s := "[" + Join(names, ";") + "]";
    assert GetOrNone(rows[0], "authors") == StrV(s);
    assert Truthy(StrV(s)) by { assert s[0] == '['; }
    AuthorsRoundTrip(names);
    assert GetPaper(rows, parseDate).Ok?;
  }

  /** Reshaping a paper changes values only: it keeps exactly the record's keys. */
  lemma GetPaperKeys(rows: seq<Dict>, parseDate: Value -> Result<Value>)
    requires rows != [] && GetPaper(rows, parseDate).Ok?
    ensures Keys(GetPaper(rows, parseDate).value.record) == Keys(rows[0])
  {
    var data := rows[0];
    var published := GetOrNone(data, "published_date");
    var d1 := data;
    if Truthy(published) {
      d1 := Put(data, "published_date", parseDate(published).value);
      PutKeys(data, "published_date", parseDate(published).value);
    }
    var authors := GetOrNone(d1, "authors");
    if Truthy(authors) {
      PutKeys(d1, "authors", NormalizeAuthors(authors).value);
    }
  }

  // ---------------------------------------------------------------------------
  // iter_filt_dict, build_filt_string
  // ---------------------------------------------------------------------------

  /** `subkey, "subval")` for one entry of a nested filter */
  function SubClause(subkey: string, subval: Value): string
  {
    subkey + ", \"" + Str(subval) + "\")"
  }

  /** The nested entries rendered one after the other, as the inner loop appends them. */
  function SubClauses(sub: Dict): string
  {
    if sub == [] then "" else SubClauses(sub[..|sub| - 1]) + SubClause(sub[|sub| - 1].0, sub[|sub| - 1].1)
  }

  /** One filter entry: `key(val)`, or `key(` followed by the nested clauses for a dict value. */
  function Clause(key: string, val: Value): string
  {
    match val
    case DictV(sub) => key + "(" + SubClauses(sub)
    case _ => key + "(" + Str(val) + ")"
  }

  /**
   * What `iter_filt_dict` returns. The loop reassigns the string on every
   * entry, so only the last entry of the dict survives; an empty dict leaves
   * the variable unbound, and a value without `items()` has no entries to walk.
   */
  function IterFiltDictSpec(filt: Value): Result<string>
  {
    match filt
    case DictV(d) => if d == [] then Err(UnboundLocalError) else Ok(Clause(d[|d| - 1].0, d[|d| - 1].1))
    case _ => Err(AttributeError)
  }

  /** `iter_filt_dict`: the loop over the entries, each one rebuilding the string. */
  method IterFiltDict(filt: Value) returns (r: Result<string>)
    ensures r == IterFiltDictSpec(filt)
  {
    if !filt.DictV? {
      return Err(AttributeError);
    }
    var entries := filt.d;
    var filtString: Option<string> := None;
    var i := 0;
    while i < |entries|
      invariant 0 <= i <= |entries|
      invariant i == 0 <==> filtString.None?
      invariant i > 0 ==> filtString == Some(Clause(entries[i - 1].0, entries[i - 1].1))
    {
      var (key, val) := entries[i];
      var text := ClauseText(key, val);
      filtString := Some(text);
      i := i + 1;
    }
    if filtString.None? {
      return Err(UnboundLocalError);
    }
    r := Ok(filtString.value);
  }

  /** The body of the loop for one entry, with the inner loop over a nested dict. */
  method ClauseText(key: string, val: Value) returns (text: string)
    ensures text == Clause(key, val)
  {
    text := key + "(";
    if val.DictV? {
      var j := 0;
      while j < |val.d|
        invariant 0 <= j <= |val.d|
        invariant text == key + "(" + SubClauses(val.d[..j])
      {
        assert val.d[..j + 1][..j] == val.d[..j];
        text := text + SubClause(val.d[j].0, val.d[j].1);
        j := j + 1;
      }
      assert val.d[..j] == val.d;
    } else {
      text := text + Str(val) + ")";
    }
  }

  /** Every entry overwrites the string, so the entries before the last one are lost. */
  lemma IterFiltDictLast(d: Dict, key: string, val: Value)
    ensures IterFiltDictSpec(DictV(d + [(key, val)])) == IterFiltDictSpec(DictV([(key, val)]))
    ensures IterFiltDictSpec(DictV(d + [(key, val)])) == Ok(Clause(key, val))
  {
    assert (d + [(key, val)])[|d|] == (key, val);
  }

  /** A nested dict renders its entries one after the other, in order. */
  lemma {:induction false} SubClausesAppend(a: Dict, b: Dict)
    ensures SubClauses(a + b) == SubClauses(a) + SubClauses(b)
    decreases |b|
  {
    if b == [] {
      assert a + b == a;
    } else {
      var c := a + b;
      assert c[..|c| - 1] == a + b[..|b| - 1];
      assert c[|c| - 1] == b[|b| - 1];
      SubClausesAppend(a, b[..|b| - 1]);
      var x, y, z := SubClauses(a), SubClauses(b[..|b| - 1]), SubClause(b[|b| - 1].0, b[|b| - 1].1);
      assert x + y + z == x + (y + z);
    }
  }

  /**
   * `build_filt_string`: a string is used as it stands, a dict becomes one
   * `@filter(...)`, a list of dicts becomes one `@filter(...)` whose clauses
   * are joined by the operator with a space on each side, anything else adds
   * no filter.
   */
  function BuildFiltString(filt: Value, operator: string): (r: Result<string>)
    ensures filt.StrV? ==> r == Ok(filt.s)
    ensures !filt.StrV? && !filt.DictV? && !filt.ListV? ==> r == Ok("")
    ensures filt.DictV? ==> r.Ok? == IterFiltDictSpec(filt).Ok?
    ensures filt.DictV? && r.Ok? ==> r.value == "@filter(" + IterFiltDictSpec(filt).value + ")"
  {
    match filt
    case StrV(s) => Ok(s)
    case DictV(_) =>
      var clause :- IterFiltDictSpec(filt);
      Ok("@filter(" + clause + ")")
    case ListV(items) =>
      var clauses :- MapResult(IterFiltDictSpec, items);
      Ok("@filter(" + Join(clauses, " " + operator + " ") + ")")
    case _ => Ok("")
  }

  /** A list holding one dict filters exactly as the dict itself does. */
  lemma FiltSingleton(x: Value, operator: string)
    requires x.DictV?
    ensures BuildFiltString(ListV([x]), operator) == BuildFiltString(x, operator)
  {
    assert [x][0] == x;
    assert [x][1..] == [];
    var c := IterFiltDictSpec(x);
    if c.Ok? {
      assert [c.value] + [] == [c.value];
      assert MapResult(IterFiltDictSpec, [x]) == Ok([c.value]);
    }
  }

  /** A list of filters whose clauses all build is joined by the operator. */
  lemma FiltList(items: seq<Value>, operator: string)
    requires MapResult(IterFiltDictSpec, items).Ok?
    ensures BuildFiltString(ListV(items), operator) ==
            Ok("@filter(" + Join(MapResult(IterFiltDictSpec, items).value, " " + operator + " ") + ")")
  {
  }

  /**
   * Two lists of dicts put together filter by the conjunction (under the
   * operator) of their clauses: the clauses of the first list, the operator
   * between single spaces, then the clauses of the second.
   */
  lemma FiltConcat(xs: seq<Value>, ys: seq<Value>, operator: string)
    requires |xs| >= 1 && |ys| >= 1
    requires MapResult(IterFiltDictSpec, xs).Ok? && MapResult(IterFiltDictSpec, ys).Ok?
    ensures BuildFiltString(ListV(xs + ys), operator) ==
            Ok("@filter(" + Join(MapResult(IterFiltDictSpec, xs).value, " " + operator + " ") + (" " + operator + " ")
                          + Join(MapResult(IterFiltDictSpec, ys).value, " " + operator + " ") + ")")
  {
    var sep := " " + operator + " ";
    var a, b := MapResult(IterFiltDictSpec, xs).value, MapResult(IterFiltDictSpec, ys).value;
    MapResultAppend(IterFiltDictSpec, xs, ys);
    FiltList(xs + ys, operator);
    var ja, jb := Join(a, sep), Join(b, sep);
    assert Join(a + b, sep) == ja + sep + jb by {
      JoinAppend(a, b, sep);
    }
    assert "@filter(" + (ja + sep + jb) + ")" == "@filter(" + ja + sep + jb + ")";
  }

  /** A list filter fails on its first entry that is not a dict, or that is an empty dict. */
  lemma FiltListErrors(items: seq<Value>, k: nat, operator: string)
    requires k < |items|
    requires forall i :: 0 <= i < k ==> IterFiltDictSpec(items[i]).Ok?
    requires !items[k].DictV? || items[k].d == []
    ensures BuildFiltString(ListV(items), operator) ==
            Err(if items[k].DictV? then UnboundLocalError else AttributeError)
  {
    MapResultFirstErr(IterFiltDictSpec, items, k);
  }

  // ---------------------------------------------------------------------------
  // get_uid
  // ---------------------------------------------------------------------------

  /**
   * `get_uid` from the rows of the block `q` on: None when nothing matched,
   * otherwise the `uid` of the first row.
   */
  function GetUid(rows: seq<Dict>): (r: Result<Option<Value>>)
    ensures r == Ok(None) <==> rows == []
    ensures rows != [] ==> (r.Ok? <==> "uid" in Keys(rows[0]))
    ensures rows != [] && r.Ok? ==> r.value == Get(rows[0], "uid")
  {
    if rows == [] then Ok(None)
    else match Get(rows[0], "uid")
      case None => Err(KeyError)
      case Some(u) => Ok(Some(u))
  }

  /** Only the first matching row decides the uid. */
  lemma GetUidFirst(rows: seq<Dict>, more: seq<Dict>)
    requires rows != []
    ensures GetUid(rows + more) == GetUid(rows)
  {
    assert (rows + more)[0] == rows[0];
  }

  // ---------------------------------------------------------------------------
  // list_by_type
  // ---------------------------------------------------------------------------

  /** The three parts of a listing query, concatenated as `head { fields relation } }`. */
  datatype ListQuery = ListQuery(head: string, fields: string, relation: string)

  function Render(q: ListQuery): string
  {
    q.head + " { " + q.fields + " " + q.relation + " } }"
  }

  /** What the generic listing returns: `False` when nothing matched, else the rows. */
  datatype Listing = NoRows | Rows(rows: seq<Dict>)

  const CountryProjection: string := " country { country: name } "

  /** The projection chosen when no fields are named, for the four types that have one. */
  function DefaultFields(typename: string): Option<string>
  {
    if typename == "Source" then
      Some(" uid: uid unique_name: unique_name name: name founded: founded\n                                    channel { channel: name }\n                                    ")
    else if typename == "Organization" then
      Some(" uid: uid unique_name: unique_name name: name founded: founded\n                                    publishes: count(publishes)\n                                    owns: count(owns)\n                                    ")
    else if typename == "Archive" then
      Some(" uid: uid unique_name: unique_name name: name access: access\n                                    sources_included: count(sources_included)\n                                    ")
    else if typename == "ResearchPaper" then
      Some(" uid title authors published_date journal\n                                    sources_included: count(sources_included)\n                                    ")
    else None
  }

  /** `" ".join(fields)`: the items must all be strings. */
  function FieldNames(fields: Value): (r: Result<seq<string>>)
    ensures fields.ListV? && (forall i :: 0 <= i < |fields.items| ==> fields.items[i].StrV?) ==> r.Ok?
  {
    match Iter(fields)
    case None => Err(TypeError)
    case Some(items) =>
      if forall i :: 0 <= i < |items| ==> items[i].StrV?
      then Ok(seq(|items|, i requires 0 <= i < |items| => items[i].s))
      else Err(TypeError)
  }

  /** The head with the type function and, when `filt` is truthy, its filter. */
  function TypeHead(typename: string, filt: Value): Result<string>
  {
    var head := "{ q(func: type(\"" + typename + "\")) ";
    if Truthy(filt) then
      var f :- BuildFiltString(filt, "AND");
      Ok(head + f)
    else Ok(head)
  }

  /**
   * The field projection and the normalize flag: `'all'` expands every
   * predicate, other truthy fields are joined with spaces, and no fields pick
   * the type's default projection (None when the type has none) and switch
   * normalization on, except for research papers.
   */
  function Projection(typename: string, fields: Value, normalize: bool): Result<(Option<string>, bool)>
  {
    if fields == StrV("all") then Ok((Some(" expand(_all_) "), normalize))
    else if Truthy(fields) then
      var names :- FieldNames(fields);
      Ok((Some(Join(names, " ")), normalize))
    else Ok((DefaultFields(typename), typename != "ResearchPaper"))
  }

  /** One relation filter: `key <filter>` then `{ key: ` (no fields) or ` { `, then ` name }`. */
  function RelationClause(key: string, filter: string, fieldsNone: bool): string
  {
    key + " " + filter + (if fieldsNone then "{ " + key + ": " else " { ") + " name }"
  }

  /** `build_filt_string` with its default operator, as a function value. */
  function AndFilter(): Value -> Result<string>
  {
    v => BuildFiltString(v, "AND")
  }

  /** The relation clauses of the first `n` entries of `relation_filt`, each filter built by `build`. */
  function RelationClauses(rel: Dict, build: Value -> Result<string>, fieldsNone: bool, n: nat): Result<string>
    requires n <= |rel|
  {
    if n == 0 then Ok("")
    else
      var done :- RelationClauses(rel, build, fieldsNone, n - 1);
      var f :- build(rel[n - 1].1);
      Ok(done + RelationClause(rel[n - 1].0, f, fieldsNone))
  }

  lemma {:induction false} RelationClausesErr(rel: Dict, build: Value -> Result<string>, fieldsNone: bool, n: nat, m: nat)
    requires n <= m <= |rel|
    requires RelationClauses(rel, build, fieldsNone, n).Err?
    ensures RelationClauses(rel, build, fieldsNone, m) == RelationClauses(rel, build, fieldsNone, n)
    decreases m
  {
    if m > n {
      RelationClausesErr(rel, build, fieldsNone, n, m - 1);
    }
  }

  /** A projection that was never assigned is an unbound local when it is read. */
  function Bound(fields: Option<string>): Result<string>
  {
    match fields
    case None => Err(UnboundLocalError)
    case Some(f) => Ok(f)
  }

  /** The query `list_by_type` sends, in the order its statements build it. */
  function ListQuerySpec(typename: string, filt: Value, relationFilt: Value, fields: Value, normalize: bool): Result<ListQuery>
  {
    QueryFrom(TypeHead(typename, filt), Projection(typename, fields, normalize), relationFilt, fields == NoneV)
  }

  /** The query once the head and the projection are chosen (or have failed). */
  function QueryFrom(head: Result<string>, chosen: Result<(Option<string>, bool)>, relationFilt: Value, fieldsNone: bool): Result<ListQuery>
  {
    var h :- head;
    var c :- chosen;
    if Truthy(relationFilt) then
      if !relationFilt.DictV? then Err(AttributeError)
      else CascadeQuery(h, c.0, c.1, relationFilt.d, fieldsNone)
    else PlainQuery(h, c.0, c.1)
  }

  /** Without relation filters: the country projection closes the fields and no relation follows. */
  function PlainQuery(head: string, projection: Option<string>, norm: bool): Result<ListQuery>
  {
    var f :- Bound(projection);
    Ok(ListQuery(head + (if norm then "@normalize" else ""), f + CountryProjection, ""))
  }

  /**
   * With relation filters: the head cascades, the country projection is added
   * when `Country` is filtered and no fields were named, and one relation
   * clause follows per filter.
   */
  function CascadeQuery(head: string, projection: Option<string>, norm: bool, rel: Dict, fieldsNone: bool): Result<ListQuery>
  {
    var projection' :-
      if "Country" in Keys(rel) && fieldsNone then
        var f :- Bound(projection);
        Ok(Some(f + CountryProjection))
      else Ok(projection);
    var relation :- RelationClauses(rel, AndFilter(), fieldsNone, |rel|);
    var f :- Bound(projection');
    Ok(ListQuery(head + " @cascade " + (if norm then "@normalize" else ""), f, relation))
  }

  /** The loop over `relation_filt` that appends one clause per entry. */
  method RelationText(rel: Dict, build: Value -> Result<string>, fieldsNone: bool) returns (r: Result<string>)
    ensures r == RelationClauses(rel, build, fieldsNone, |rel|)
  {
    var relation := "";
    var i := 0;
    while i < |rel|
      invariant 0 <= i <= |rel|
      invariant RelationClauses(rel, build, fieldsNone, i) == Ok(relation)
    {
      var f := build(rel[i].1);
      if f.Err? {
        RelationClausesErr(rel, build, fieldsNone, i + 1, |rel|);
        return Err(f.error);
      }
      relation := relation + RelationClause(rel[i].0, f.value, fieldsNone);
      i := i + 1;
    }
    r := Ok(relation);
  }

  /** The statements of `list_by_type` that assemble the query text. */
  method BuildListQuery(typename: string, filt: Value, relationFilt: Value, fields: Value, normalize: bool)
    returns (r: Result<ListQuery>)
    ensures r == ListQuerySpec(typename, filt, relationFilt, fields, normalize)
  {
    var head := TypeHead(typename, filt);
    var chosen := Projection(typename, fields, normalize);
    r := Assemble(head, chosen, relationFilt, fields == NoneV);
  }

  method Assemble(head: Result<string>, chosen: Result<(Option<string>, bool)>, relationFilt: Value, fieldsNone: bool)
    returns (r: Result<ListQuery>)
    ensures r == QueryFrom(head, chosen, relationFilt, fieldsNone)
  {
    var h :- head;
    var c :- chosen;
    if Truthy(relationFilt) {
      if !relationFilt.DictV? {
        return Err(AttributeError);
      }
      r := BuildCascade(h, c.0, c.1, relationFilt.d, fieldsNone);
    } else {
      r := BuildPlain(h, c.0, c.1);
    }
  }

  method BuildPlain(head: string, projection: Option<string>, norm: bool) returns (r: Result<ListQuery>)
    ensures r == PlainQuery(head, projection, norm)
  {
    var head' := head;
    var f :- Bound(projection);
    if norm {
      head' := head' + "@normalize";
    } else {
      assert head' == head' + "";
    }
    r := Ok(ListQuery(head', f + CountryProjection, ""));
  }

  method BuildCascade(head: string, projection: Option<string>, norm: bool, rel: Dict, fieldsNone: bool)
    returns (r: Result<ListQuery>)
    ensures r == CascadeQuery(head, projection, norm, rel, fieldsNone)
  {
    var head', projection' := head + " @cascade ", projection;
    if "Country" in Keys(rel) && fieldsNone {
      var f :- Bound(projection);
      projection' := Some(f + CountryProjection);
    }
    var relation :- RelationText(rel, AndFilter(), fieldsNone);
    if norm {
      head' := head' + "@normalize";
    } else {
      assert head' == head' + "";
    }
    var f :- Bound(projection');
    r := Ok(ListQuery(head', f, relation));
  }

  /**
   * `list_by_type` in flaskinventory/dgraph.py: builds the query, sends it,
   * and returns `False` when no row came back.
   */
  method ListByType(typename: string, filt: Value, relationFilt: Value, fields: Value, normalize: bool,
                    db: string -> seq<Dict>) returns (r: Result<Listing>)
    ensures r.Ok? <==> ListQuerySpec(typename, filt, relationFilt, fields, normalize).Ok?
    ensures r.Err? ==> r.error == ListQuerySpec(typename, filt, relationFilt, fields, normalize).error
    ensures r.Ok? ==>
              var rows := db(Render(ListQuerySpec(typename, filt, relationFilt, fields, normalize).value));
              r.value == if rows == [] then NoRows else Rows(rows)
  {
    var query :- BuildListQuery(typename, filt, relationFilt, fields, normalize);
    var rows := db(Render(query));
    if rows == [] {
      return Ok(NoRows);
    }
    r := Ok(Rows(rows));
  }

  predicate EndsWith(s: string, suffix: string)
  {
    |suffix| <= |s| && s[|s| - |suffix|..] == suffix
  }

  /** Without relation filters the country projection closes the fields and no relation is added. */
  lemma ListByTypeCountry(typename: string, filt: Value, relationFilt: Value, fields: Value, normalize: bool)
    requires !Truthy(relationFilt)
    requires ListQuerySpec(typename, filt, relationFilt, fields, normalize).Ok?
    ensures var q := ListQuerySpec(typename, filt, relationFilt, fields, normalize).value;
            EndsWith(q.fields, CountryProjection) && q.relation == ""
  {
  }

  /**
   * With relation filters the head cascades, and the country projection is
   * added only when the filters name `Country` and no fields were given.
   */
  lemma ListByTypeCascade(typename: string, filt: Value, relationFilt: Value, fields: Value, normalize: bool)
    requires Truthy(relationFilt)
    requires ListQuerySpec(typename, filt, relationFilt, fields, normalize).Ok?
    ensures relationFilt.DictV? && TypeHead(typename, filt).Ok? && Projection(typename, fields, normalize).Ok?
    ensures var q := ListQuerySpec(typename, filt, relationFilt, fields, normalize).value;
            var (projection, norm) := Projection(typename, fields, normalize).value;
            projection.Some? &&
            q.head == TypeHead(typename, filt).value + " @cascade " + (if norm then "@normalize" else "") &&
            q.fields == (if "Country" in Keys(relationFilt.d) && fields == NoneV
                         then projection.value + CountryProjection else projection.value)
  {
  }

  /**
   * Normalization is on when asked for, or when no fields were given and the
   * type is not ResearchPaper.
   */
  lemma ListByTypeNormalize(typename: string, filt: Value, relationFilt: Value, fields: Value, normalize: bool)
    requires Projection(typename, fields, normalize).Ok?
    ensures Projection(typename, fields, normalize).value.1 <==>
              (if Truthy(fields) then normalize else typename != "ResearchPaper")
  {
  }

  /** Without fields, a type that has no default projection cannot be listed. */
  lemma ListByTypeUnknownType(typename: string, filt: Value, relationFilt: Value, fields: Value, normalize: bool)
    requires !Truthy(fields) && DefaultFields(typename).None?
    requires TypeHead(typename, filt).Ok?
    requires !Truthy(relationFilt)
    ensures ListQuerySpec(typename, filt, relationFilt, fields, normalize) == Err(UnboundLocalError)
  {
  }
}
