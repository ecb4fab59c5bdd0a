/**
 * `fetchSheetData` in services/sheetService.ts once the HTTP response text is in hand:
 * cut the JSON object out of the gviz callback wrapper, reject an error status, keep
 * the labelled columns and build one label-keyed row per raw row.
 */
module SheetService {
  import opened Wrappers
  import opened Strings
  import opened SheetTypes

  // ---------------------------------------------------------------------------
  // The parsed gviz response, as far as fetchSheetData reads it
  // ---------------------------------------------------------------------------

  /** A cell object: raw value `v` (Null when missing or null) and formatted text `f` ("" when missing). */
  datatype RawCell = RawCell(v: Value, f: string)

  /** A column descriptor (`label` is `caption`, `type` is `columnType`); a missing label is the empty string (both are falsy). */
  datatype RawColumn = RawColumn(id: string, caption: string, columnType: string)

  /** A row descriptor: its cell list `c`, whose entries are cell objects or null; None when `c` is missing. */
  datatype RawRow = RawRow(c: Option<seq<Option<RawCell>>>)

  /** The `table` section; None for a missing `cols` or `rows` field. */
  datatype RawTable = RawTable(cols: Option<seq<RawColumn>>, rows: Option<seq<RawRow>>)

  /** One entry of `errors`; a missing message is the empty string. */
  datatype RawError = RawError(message: string)

  /** The whole decoded object: `status`, `errors` (empty when missing) and `table`. */
  datatype GvizResponse = GvizResponse(status: string, errors: seq<RawError>, table: Option<RawTable>)

  /** What fetchSheetData throws. */
  datatype LoadError =
    | NotPublished                  // the response holds no '{' or no '}'
    | InvalidJson                   // JSON.parse rejects the extracted text
    | SheetApiError(message: string) // the response reports status 'error'
    | MissingField(name: string)     // reading `name` of undefined: JavaScript throws a TypeError

  const ApiErrorPrefix := "Lỗi Google Sheet API: "
  const UnknownErrorDetail := "Lỗi không xác định"

  // ---------------------------------------------------------------------------
  // Extraction of the JSON object from the wrapper
  // ---------------------------------------------------------------------------

  /**
   * The text from the first '{' through the last '}'. When the last '}' stands before
   * the first '{' the source still calls JSON.parse, on text holding no brace at all,
   * which cannot yield the object fetchSheetData reads; that outcome is InvalidJson.
   */
  function ExtractJson(text: string): (r: Result<string, LoadError>)
    ensures r == Failure(NotPublished) <==> '{' !in text || '}' !in text
    ensures r.Success? <==> exists i, j | 0 <= i < j < |text| :: text[i] == '{' && text[j] == '}'
    ensures r.Failure? ==> r.error == NotPublished || r.error == InvalidJson
    ensures r.Success? ==>
      && |r.value| >= 2 && r.value[0] == '{' && r.value[|r.value| - 1] == '}'
      && exists k | 0 <= k <= |text| - |r.value| ::
           OccursAt(text, r.value, k) && '{' !in text[..k] && '}' !in text[k + |r.value|..]
  {
    var start := IndexOf(text, '{');
    var end := LastIndexOf(text, '}');
    if start == -1 || end == -1 then
      Failure(NotPublished)
    else if end < start then
      assert forall i, j | 0 <= i < j < |text| && text[i] == '{' :: text[j] != '}' by {
        forall i, j | 0 <= i < j < |text| && text[i] == '{' ensures text[j] != '}' {
          assert start <= i;
        }
      }
      Failure(InvalidJson)
    else
      var payload := text[start..end + 1];
      assert OccursAt(text, payload, start);
      var before, after := text[..start], text[end + 1..];
      assert '{' !in before by {
        forall m | 0 <= m < |before| ensures before[m] != '{' { }
      }
      assert '}' !in after by {
        forall m | 0 <= m < |after| ensures after[m] != '}' {
          assert after[m] == text[end + 1 + m];
        }
      }
      assert start < end;
      Success(payload)
  }

  /** Whatever wrapper surrounds a braced payload, extraction returns exactly that payload. */
  lemma ExtractJsonUnwraps(prefix: string, payload: string, suffix: string)
    requires '{' !in prefix && '}' !in suffix
    requires |payload| >= 2 && payload[0] == '{' && payload[|payload| - 1] == '}'
    ensures ExtractJson(prefix + payload + suffix) == Success(payload)
  {
    var text := prefix + payload + suffix;
    var start, end := IndexOf(text, '{'), LastIndexOf(text, '}');
    var p := |prefix|;
    var q := |prefix| + |payload| - 1;
    assert text[p] == '{' && text[q] == '}';
    assert forall m | 0 <= m < p :: text[m] == prefix[m];
    assert forall m | q < m < |text| :: text[m] == suffix[m - q - 1];
    assert text[start..end + 1] == payload;
  }

  /** Extraction followed by JSON.parse, which this model takes as a parameter. */
  function ParseResponse(text: string, parse: string -> Option<GvizResponse>): (r: Result<GvizResponse, LoadError>)
    ensures r.Failure? ==> r.error == NotPublished || r.error == InvalidJson
    ensures r.Success? <==> ExtractJson(text).Success? && parse(ExtractJson(text).value).Some?
    ensures ExtractJson(text).Failure? ==> r == Failure(ExtractJson(text).error)
    ensures r.Success? ==> parse(ExtractJson(text).value) == Some(r.value)
  {
    match ExtractJson(text)
    case Failure(e) => Failure(e)
    case Success(payload) =>
      match parse(payload)
      case None => Failure(InvalidJson)
      case Some(json) => Success(json)
  }

  /** `errors?.[0]?.message || 'Lỗi không xác định'`. */
  function ErrorDetail(errors: seq<RawError>): (d: string)
    ensures d != ""
    ensures |errors| > 0 && errors[0].message != "" ==> d == errors[0].message
    ensures |errors| == 0 || errors[0].message == "" ==> d == UnknownErrorDetail
  {
    if |errors| > 0 && errors[0].message != "" then errors[0].message else UnknownErrorDetail
  }

  // ---------------------------------------------------------------------------
  // Columns
  // ---------------------------------------------------------------------------

  function ToColumn(raw: RawColumn): Column
  {
    Column(raw.id, raw.caption, raw.columnType)
  }

  /** `table.cols.filter(col => col.label).map(...)`. */
  function NormalizeColumns(cols: seq<RawColumn>): (r: seq<Column>)
    ensures |r| <= |cols|
    ensures forall k | 0 <= k < |r| :: r[k].caption != ""
  {
    if cols == [] then []
    else (if cols[0].caption != "" then [ToColumn(cols[0])] else []) + NormalizeColumns(cols[1..])
  }

  /** Normalising respects concatenation, so the surviving columns keep their relative order. */
  lemma {:induction false} NormalizeColumnsAppend(a: seq<RawColumn>, b: seq<RawColumn>)
    ensures NormalizeColumns(a + b) == NormalizeColumns(a) + NormalizeColumns(b)
  {
    if a != [] {
      assert (a + b)[1..] == a[1..] + b;
      NormalizeColumnsAppend(a[1..], b);
    } else {
      assert a + b == b;
    }
  }

  /** A column survives exactly when some raw column with a non-empty label copies to it. */
  lemma {:induction false} NormalizeColumnsMembership(cols: seq<RawColumn>, c: Column)
    ensures c in NormalizeColumns(cols) <==> exists raw | raw in cols :: raw.caption != "" && ToColumn(raw) == c
  {
    if cols != [] {
      NormalizeColumnsMembership(cols[1..], c);
      assert cols == [cols[0]] + cols[1..];
      if c in NormalizeColumns(cols[1..]) {
        var raw :| raw in cols[1..] && raw.caption != "" && ToColumn(raw) == c;
        assert raw in cols;
      }
    }
  }

  /** When every raw column is labelled, all of them survive, in order, copied field by field. */
  lemma {:induction false} NormalizeColumnsAllLabelled(cols: seq<RawColumn>)
    requires forall k | 0 <= k < |cols| :: cols[k].caption != ""
    ensures |NormalizeColumns(cols)| == |cols|
    ensures forall k | 0 <= k < |cols| :: NormalizeColumns(cols)[k] == ToColumn(cols[k])
  {
    if cols != [] {
      NormalizeColumnsAllLabelled(cols[1..]);
    }
  }

  // ---------------------------------------------------------------------------
  // Rows
  // ---------------------------------------------------------------------------

  predicate IsDateType(columnType: string)
  {
    columnType == "date" || columnType == "datetime"
  }

  /**
   * The value stored for one cell: `cell?.v ?? null`, replaced by the formatted text `f`
   * when the column is a date or datetime column and `f` is non-empty.
   */
  function CellValue(cell: Option<RawCell>, column: Column): (v: Value)
    ensures cell.None? ==> v == Null
    ensures !IsDateType(column.columnType) ==> v == (if cell.Some? then cell.value.v else Null)
    ensures IsDateType(column.columnType) && cell.Some? && cell.value.f != "" ==> v == Str(cell.value.f)
    ensures IsDateType(column.columnType) && cell.Some? && cell.value.f == "" ==> v == cell.value.v
  {
    var raw := if cell.Some? then cell.value.v else Null;
    if IsDateType(column.columnType) && cell.Some? && cell.value.f != "" then Str(cell.value.f) else raw
  }

  /** The row object `row.c.forEach` fills in: cell i written under the label of `columns[i]`. */
  function RowOf(cells: seq<Option<RawCell>>, columns: seq<Column>): Row
  {
    if cells == [] then map[]
    else
      var i := |cells| - 1;
      var earlier := RowOf(cells[..i], columns);
      if i < |columns| then earlier[columns[i].caption := CellValue(cells[i], columns[i])] else earlier
  }

  /** The keys of a row are exactly the labels of the columns that have a cell. */
  lemma {:induction false} RowOfKeys(cells: seq<Option<RawCell>>, columns: seq<Column>)
    ensures RowOf(cells, columns).Keys == set i | 0 <= i < |cells| && i < |columns| :: columns[i].caption
  {
    if cells != [] {
      var n := |cells| - 1;
      RowOfKeys(cells[..n], columns);
      var before := set i | 0 <= i < n && i < |columns| :: columns[i].caption;
      var after := set i | 0 <= i < |cells| && i < |columns| :: columns[i].caption;
      if n < |columns| {
        assert after == before + {columns[n].caption};
      } else {
        assert after == before;
      }
    }
  }

  /** Cell i lands under the label of column i unless a later cell writes the same label. */
  lemma {:induction false} RowOfValue(cells: seq<Option<RawCell>>, columns: seq<Column>, i: nat)
    requires i < |cells| && i < |columns|
    requires forall j | i < j < |cells| && j < |columns| :: columns[j].caption != columns[i].caption
    ensures columns[i].caption in RowOf(cells, columns)
    ensures RowOf(cells, columns)[columns[i].caption] == CellValue(cells[i], columns[i])
  {
    var n := |cells| - 1;
    if i < n {
      var prefix := cells[..n];
      assert forall j | i < j < |prefix| && j < |columns| :: columns[j].caption != columns[i].caption;
      assert prefix[i] == cells[i];
      RowOfValue(prefix, columns, i);
    }
  }

  /** Cells past the last surviving column contribute nothing. */
  lemma {:induction false} RowOfDropsExtraCells(cells: seq<Option<RawCell>>, columns: seq<Column>)
    requires |cells| > |columns|
    ensures RowOf(cells, columns) == RowOf(cells[..|columns|], columns)
  {
    var n := |cells| - 1;
    if n > |columns| {
      assert cells[..n][..|columns|] == cells[..|columns|];
      RowOfDropsExtraCells(cells[..n], columns);
    }
  }

  /** One raw row: the `forEach` over its cells, filling the row object. */
  method MaterializeRow(cells: seq<Option<RawCell>>, columns: seq<Column>) returns (row: Row)
    ensures row == RowOf(cells, columns)
  {
    row := map[];
    var index := 0;
    while index < |cells|
      invariant 0 <= index <= |cells|
      invariant row == RowOf(cells[..index], columns)
    {
      assert cells[..index + 1][..index] == cells[..index];
      if index < |columns| {
        var column := columns[index];
        var value := CellValue(cells[index], column);
        row := row[column.caption := value];
      }
      index := index + 1;
    }
    assert cells[..index] == cells;
  }

  /** `table.rows.map(...)`: one row per raw row, in order; a row without `c` throws. */
  method MaterializeRows(rawRows: seq<RawRow>, columns: seq<Column>) returns (r: Result<seq<Row>, LoadError>)
    ensures r.Success? <==> forall i | 0 <= i < |rawRows| :: rawRows[i].c.Some?
    ensures r.Failure? ==> r.error == MissingField("c")
    ensures r.Success? ==>
      && |r.value| == |rawRows|
      && forall i | 0 <= i < |rawRows| :: r.value[i] == RowOf(rawRows[i].c.value, columns)
  {
    var rows: seq<Row> := [];
    var i := 0;
    while i < |rawRows|
      invariant 0 <= i <= |rawRows|
      invariant |rows| == i
      invariant forall k | 0 <= k < i :: rawRows[k].c.Some? && rows[k] == RowOf(rawRows[k].c.value, columns)
    {
      if rawRows[i].c.None? {
        return Failure(MissingField("c"));
      }
      var row := MaterializeRow(rawRows[i].c.value, columns);
      rows := rows + [row];
      i := i + 1;
    }
    return Success(rows);
  }

  // ---------------------------------------------------------------------------
  // fetchSheetData after the HTTP response
  // ---------------------------------------------------------------------------

  /**
   * Every field fetchSheetData reads is there: the text parses, the status is not
   * `error`, and `table`, `cols`, `rows` and every row's `c` are present.
   */
  predicate Decodable(response: Result<GvizResponse, LoadError>)
  {
    && response.Success?
    && response.value.status != "error"
    && response.value.table.Some?
    && response.value.table.value.cols.Some?
    && response.value.table.value.rows.Some?
    && forall i | 0 <= i < |response.value.table.value.rows.value| ::
         response.value.table.value.rows.value[i].c.Some?
  }

  /** Decodes the response text into the typed table, or reports what the source would throw. */
  method FetchSheetData(text: string, parse: string -> Option<GvizResponse>) returns (r: Result<SheetData, LoadError>)
    ensures ParseResponse(text, parse).Failure? ==> r == Failure(ParseResponse(text, parse).error)
    ensures ParseResponse(text, parse).Success? && ParseResponse(text, parse).value.status == "error" ==>
      r == Failure(SheetApiError(ApiErrorPrefix + ErrorDetail(ParseResponse(text, parse).value.errors)))
    ensures r.Success? <==> Decodable(ParseResponse(text, parse))
    ensures ParseResponse(text, parse).Success? && ParseResponse(text, parse).value.status != "error" ==>
      var json := ParseResponse(text, parse).value;
      && (json.table.None? ==> r == Failure(MissingField("table")))
      && (json.table.Some? && json.table.value.cols.None? ==> r == Failure(MissingField("cols")))
      && (json.table.Some? && json.table.value.cols.Some? && json.table.value.rows.None? ==>
            r == Failure(MissingField("rows")))
      && (json.table.Some? && json.table.value.cols.Some? && json.table.value.rows.Some? &&
          (exists i | 0 <= i < |json.table.value.rows.value| :: json.table.value.rows.value[i].c.None?) ==>
            r == Failure(MissingField("c")))
    ensures r.Success? ==>
      && ParseResponse(text, parse).Success?
      && var json := ParseResponse(text, parse).value;
      && json.status != "error"
      && json.table.Some? && json.table.value.cols.Some? && json.table.value.rows.Some?
      && r.value.columns == NormalizeColumns(json.table.value.cols.value)
      && |r.value.rows| == |json.table.value.rows.value|
      && forall i | 0 <= i < |r.value.rows| ::
           json.table.value.rows.value[i].c.Some? &&
           r.value.rows[i] == RowOf(json.table.value.rows.value[i].c.value, r.value.columns)
  {
    var response := ParseResponse(text, parse);
    if response.Failure? {
      return Failure(response.error);
    }
    var json := response.value;
    if json.status == "error" {
      return Failure(SheetApiError(ApiErrorPrefix + ErrorDetail(json.errors)));
    }
    if json.table.None? {
      return Failure(MissingField("table"));
    }
    var table := json.table.value;
    if table.cols.None? {
      return Failure(MissingField("cols"));
    }
    var columns := NormalizeColumns(table.cols.value);
    if table.rows.None? {
      return Failure(MissingField("rows"));
    }
    var rows :- MaterializeRows(table.rows.value, columns);
    return Success(SheetData(columns, rows));
  }
}
