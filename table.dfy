/** The typed table accessor: a schema of column types read once from the
    column catalogue, and the materialisation of query results into entries
    that carry exactly the schema's columns.

    The database is abstracted to what the two callbacks see: a result set
    is the sequence of rows its cursor yields, in cursor order, and each row
    offers the three typed getters as functions of a column name. */
module Tables {
  import opened ColumnTypes

  /** The bit pattern of the floating-point number a getter returns. The
      model never computes with it. */
  datatype Float = Float(bits: bv64)

  /** One row under the result set's cursor, seen through its getters. */
  datatype Row = Row(getString: string -> string, getInt: string -> int, getFloat: string -> Float)

  /** A cell as it is stored in an entry, tagged with the getter that read it. */
  datatype Value = StringValue(s: string) | IntValue(i: int) | FloatValue(f: Float)

  /** Column name to column type, for the columns whose type was recognised. */
  type Schema = map<string, ColumnType>

  /** One materialised row: column name to cell. */
  type Entry = map<string, Value>

  /** The two columns of the catalogue's answer that the loader reads. */
  const FieldColumn: string := "Field"
  const TypeColumn: string := "Type"

  /** The type tag of a cell. */
  function TypeOf(v: Value): ColumnType
  {
    match v
    case StringValue(_) => STRING
    case IntValue(_) => INT
    case FloatValue(_) => FLOAT
  }

  /** The classification of the type a catalogue row reports. */
  function Classify(row: Row): Option<ColumnType>
  {
    GetColumnType(row.getString(TypeColumn))
  }

  /** The schema after the loader has walked `rows` in cursor order,
      starting from `cols`: a row with a recognised type sets its field to
      that type, any other row is skipped. */
  function LoadedSchema(cols: Schema, rows: seq<Row>): Schema
    decreases |rows|
  {
    if rows == [] then cols
    else
      var prev := LoadedSchema(cols, rows[..|rows| - 1]);
      var row := rows[|rows| - 1];
      match Classify(row)
      case None => prev
      case Some(t) => prev[row.getString(FieldColumn) := t]
  }

  /** Catalogue row `i` names column `k` and reports a recognised type. */
  predicate RecognisedAt(rows: seq<Row>, i: int, k: string)
  {
    0 <= i < |rows| && rows[i].getString(FieldColumn) == k && Classify(rows[i]).Some?
  }

  /** A name is a column of the loaded schema exactly when it was one
      before or some row named it with a recognised type. */
  lemma {:induction false} LoadedSchemaKeys(cols: Schema, rows: seq<Row>, k: string)
    ensures k in LoadedSchema(cols, rows) <==> k in cols || exists i :: RecognisedAt(rows, i, k)
    decreases |rows|
  {
    if rows != [] {
      var init := rows[..|rows| - 1];
      LoadedSchemaKeys(cols, init, k);
      forall i | RecognisedAt(init, i, k) ensures RecognisedAt(rows, i, k) { }
      forall i | RecognisedAt(rows, i, k) && i < |init| ensures RecognisedAt(init, i, k) { }
      if RecognisedAt(rows, |rows| - 1, k) {
        assert k in LoadedSchema(cols, rows);
      } else {
        assert k in LoadedSchema(cols, rows) <==> k in LoadedSchema(cols, init);
      }
    }
  }

  /** The type stored for a column is the classification of the last row
      that named it with a recognised type. */
  lemma {:induction false} LoadedSchemaLastWins(cols: Schema, rows: seq<Row>, k: string, i: int)
    requires RecognisedAt(rows, i, k)
    requires forall j :: i < j < |rows| ==> !RecognisedAt(rows, j, k)
    ensures k in LoadedSchema(cols, rows) && Some(LoadedSchema(cols, rows)[k]) == Classify(rows[i])
    decreases |rows|
  {
    var init := rows[..|rows| - 1];
    if i < |rows| - 1 {
      assert !RecognisedAt(rows, |rows| - 1, k);
      forall j | i < j < |init| ensures !RecognisedAt(init, j, k) {
        assert !RecognisedAt(rows, j, k);
      }
      LoadedSchemaLastWins(cols, init, k, i);
    }
  }

  /** A column no row names with a recognised type keeps what it had: still
      there with the same type, or still absent. */
  lemma {:induction false} LoadedSchemaKeepsOthers(cols: Schema, rows: seq<Row>, k: string)
    requires forall i :: !RecognisedAt(rows, i, k)
    ensures k in LoadedSchema(cols, rows) <==> k in cols
    ensures k in cols ==> LoadedSchema(cols, rows)[k] == cols[k]
    decreases |rows|
  {
    if rows != [] {
      var init := rows[..|rows| - 1];
      assert !RecognisedAt(rows, |rows| - 1, k);
      forall i ensures !RecognisedAt(init, i, k) {
        assert !RecognisedAt(rows, i, k);
      }
      LoadedSchemaKeepsOthers(cols, init, k);
    }
  }

  /** Nothing unrecognised gets in: every type in the loaded schema was
      there before or is the recognised classification of a row naming that
      column. */
  lemma {:induction false} LoadedSchemaProvenance(cols: Schema, rows: seq<Row>, k: string)
    requires k in LoadedSchema(cols, rows)
    ensures (k in cols && LoadedSchema(cols, rows)[k] == cols[k])
         || exists i :: RecognisedAt(rows, i, k) && Classify(rows[i]) == Some(LoadedSchema(cols, rows)[k])
    decreases |rows|
  {
    if rows != [] {
      var init := rows[..|rows| - 1];
      var last := rows[|rows| - 1];
      if RecognisedAt(rows, |rows| - 1, k) {
        assert Classify(rows[|rows| - 1]) == Some(LoadedSchema(cols, rows)[k]);
      } else {
        assert LoadedSchema(cols, rows)[k] == LoadedSchema(cols, init)[k];
        LoadedSchemaProvenance(cols, init, k);
        if !(k in cols && LoadedSchema(cols, rows)[k] == cols[k]) {
          var i :| RecognisedAt(init, i, k) && Classify(init[i]) == Some(LoadedSchema(cols, init)[k]);
          assert RecognisedAt(rows, i, k);
        }
      }
    }
  }

  /** The cell of `row` in column `k`, read with the getter for type `t`. */
  function ReadCell(t: ColumnType, row: Row, k: string): (v: Value)
    ensures TypeOf(v) == t
  {
    match t
    case STRING => StringValue(row.getString(k))
    case INT => IntValue(row.getInt(k))
    case FLOAT => FloatValue(row.getFloat(k))
  }

  /** The accessor for one table. `columns` is filled in by `LoadSchema`,
      which models the callback of the catalogue query the source issues on
      construction; until it has run, `columns` is empty. */
  class Table {
    const tableName: string
    var columns: Schema

    constructor (tableName: string)
      ensures this.tableName == tableName
      ensures columns == map[]
    {
      this.tableName := tableName;
      columns := map[];
    }

    /** The catalogue callback: walks the rows in cursor order and records
        each recognised column's type. */
    method LoadSchema(rows: seq<Row>)
      modifies this
      ensures columns == LoadedSchema(old(columns), rows)
    {
      var i := 0;
      while i < |rows|
        invariant 0 <= i <= |rows|
        invariant columns == LoadedSchema(old(columns), rows[..i])
      {
        var row := rows[i];
        assert rows[..i + 1][..i] == rows[..i];
        var t := GetColumnType(row.getString(TypeColumn));
        if t != None {
          columns := columns[row.getString(FieldColumn) := t.value];
        }
        i := i + 1;
      }
      assert rows[..|rows|] == rows;
    }

    /** The body of the per-column iteration for one row: a fresh entry
        with one cell per schema column, read with that column's getter. */
    method ReadEntry(row: Row) returns (entry: Entry)
      ensures entry.Keys == columns.Keys
      ensures forall k :: k in columns ==> entry[k] == ReadCell(columns[k], row, k)
      ensures forall k :: k in entry ==> TypeOf(entry[k]) == columns[k]
    {
      entry := map[];
      var pending := columns.Keys;
      while pending != {}
        invariant pending <= columns.Keys
        invariant entry.Keys == columns.Keys - pending
        invariant forall k :: k in entry ==> entry[k] == ReadCell(columns[k], row, k)
        decreases pending
      {
        var key :| key in pending;
        var value := columns[key];
        if value == STRING {
          entry := entry[key := StringValue(row.getString(key))];
        } else if value == INT {
          entry := entry[key := IntValue(row.getInt(key))];
        } else if value == FLOAT {
          entry := entry[key := FloatValue(row.getFloat(key))];
        }
        pending := pending - {key};
      }
    }

    /** The query callback: one entry per row the cursor yields, in cursor
        order, each holding exactly the schema's columns. */
    method Get(rows: seq<Row>) returns (entries: seq<Entry>)
      ensures |entries| == |rows|
      ensures forall i :: 0 <= i < |rows| ==> entries[i].Keys == columns.Keys
      ensures forall i, k :: 0 <= i < |rows| && k in columns ==>
                entries[i][k] == ReadCell(columns[k], rows[i], k)
    {
      entries := [];
      var i := 0;
      while i < |rows|
        invariant 0 <= i <= |rows|
        invariant |entries| == i
        invariant forall j :: 0 <= j < i ==> entries[j].Keys == columns.Keys
        invariant forall j, k :: 0 <= j < i && k in columns ==>
                    entries[j][k] == ReadCell(columns[k], rows[j], k)
      {
        var entry := ReadEntry(rows[i]);
        entries := entries + [entry];
        i := i + 1;
      }
    }
  }

  /** A catalogue row reporting column `field` with type `typ`. */
  function CatalogueRow(field: string, typ: string): (row: Row)
    ensures row.getString(FieldColumn) == field && row.getString(TypeColumn) == typ
  {
    Row(k => if k == FieldColumn then field else typ, k => 0, k => Float(0))
  }

  /** Appending a catalogue row to the walk applies that row last. */
  lemma LoadedSchemaStep(cols: Schema, rows: seq<Row>, row: Row)
    ensures LoadedSchema(cols, rows + [row]) ==
      match Classify(row)
      case None => LoadedSchema(cols, rows)
      case Some(t) => LoadedSchema(cols, rows)[row.getString(FieldColumn) := t]
  {
    assert (rows + [row])[..|rows|] == rows;
  }

  /** The catalogue of an example table: an integer key, a string, a float
      and a text column. */
  function ExampleCatalogue(): seq<Row>
  {
    [CatalogueRow("id", "int(11)"), CatalogueRow("name", "varchar(64)"),
     CatalogueRow("score", "float"), CatalogueRow("notes", "text")]
  }

  /** The types the example catalogue reports, classified. */
  lemma ExampleIntAndFloat()
    ensures GetColumnType("int(11)") == Some(INT)
    ensures GetColumnType("float") == Some(FLOAT)
  {
    FoldsToPrefix("int(11)", IntPrefix);
    FoldsToPrefix("float", FloatPrefix);
  }

  lemma ExampleVarchar()
    ensures GetColumnType("varchar(64)") == Some(STRING)
  {
    FoldsToPrefix("varchar(64)", VarcharPrefix);
  }

  /** What the loader reads from each row of the example catalogue. */
  lemma ExampleCatalogueRows()
    ensures |ExampleCatalogue()| == 4
    ensures ExampleCatalogue()[0].getString(FieldColumn) == "id" && Classify(ExampleCatalogue()[0]) == Some(INT)
    ensures ExampleCatalogue()[1].getString(FieldColumn) == "name" && Classify(ExampleCatalogue()[1]) == Some(STRING)
    ensures ExampleCatalogue()[2].getString(FieldColumn) == "score" && Classify(ExampleCatalogue()[2]) == Some(FLOAT)
    ensures Classify(ExampleCatalogue()[3]) == None
  {
    ExampleIntAndFloat();
    ExampleVarchar();
    UnrecognisedTypes();
  }

  /** A four-row catalogue whose last row has an unknown type loads to the
      first three rows' columns. */
  lemma ThreeOfFourSchema(c: seq<Row>)
    requires |c| == 4
    requires c[0].getString(FieldColumn) == "id" && Classify(c[0]) == Some(INT)
    requires c[1].getString(FieldColumn) == "name" && Classify(c[1]) == Some(STRING)
    requires c[2].getString(FieldColumn) == "score" && Classify(c[2]) == Some(FLOAT)
    requires Classify(c[3]) == None
    ensures LoadedSchema(map[], c) == map["id" := INT, "name" := STRING, "score" := FLOAT]
  {
    assert c[..0] == [];
    LoadedSchemaStep(map[], c[..0], c[0]);
    assert c[..1] == c[..0] + [c[0]];
    LoadedSchemaStep(map[], c[..1], c[1]);
    assert c[..2] == c[..1] + [c[1]];
    LoadedSchemaStep(map[], c[..2], c[2]);
    assert c[..3] == c[..2] + [c[2]];
    LoadedSchemaStep(map[], c[..3], c[3]);
    assert c == c[..3] + [c[3]];
  }

  /** The example catalogue loads to three columns; the text column is
      dropped. */
  lemma ExampleSchema()
    ensures LoadedSchema(map[], ExampleCatalogue()) == map["id" := INT, "name" := STRING, "score" := FLOAT]
  {
    ExampleCatalogueRows();
    ThreeOfFourSchema(ExampleCatalogue());
  }

  /** A client of the accessor: a query issued before the catalogue
      callback has run sees no columns; after it, every entry carries the
      recognised columns, each read with its own getter. `ExampleSchema`
      shows a catalogue that meets the precondition. */
  method ClientScenario(catalogue: seq<Row>, result: Row)
    requires LoadedSchema(map[], catalogue) == map["id" := INT, "name" := STRING, "score" := FLOAT]
  {
    var t := new Table("scores");
    var early := t.Get([result, result]);
    assert early == [map[], map[]];

    t.LoadSchema(catalogue);
    var entries := t.Get([result]);
    assert |entries| == 1 && entries[0].Keys == {"id", "name", "score"};
    assert entries[0]["name"] == StringValue(result.getString("name"));
    assert entries[0]["id"] == IntValue(result.getInt("id"));
    assert entries[0]["score"] == FloatValue(result.getFloat("score"));
    assert "notes" !in entries[0];
  }
}
