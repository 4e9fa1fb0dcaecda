/**
  The Postgres connection helpers: the keyword arguments the pool is
  created with, and the shaping of a query result into records or into a
  table whose datetime columns are turned into text.
  The database driver and the DataFrame library are inputs: the rows, the
  statement's attributes and the dtype inferred for each column are given.
 */
module Connections {
  import opened Outcomes
  import opened CredManager
  import opened Configuration
  import opened Timestamps

  const DefaultMinConn: int := 1
  const DefaultMaxConn: int := 2
  const DefaultConnectTimeout: int := 1000

  /** The keyword arguments handed to `asyncpg.create_pool`. */
  datatype PoolArgs = PoolArgs(minSize: int, maxSize: int, timeout: int,
                               database: string, host: string, port: string,
                               user: string, password: string)

  /**
    `get_postgres_pool`: builds the Postgres configuration (which may raise
    "No Key Found"), then passes the size bounds and timeout through and
    takes `user` from the configuration's `username` entry.
   */
  method GetPostgresPool(environ: Environ, files: Files, minconn: int := DefaultMinConn,
                         maxconn: int := DefaultMaxConn, connectTimeout: int := DefaultConnectTimeout)
    returns (r: Result<PoolArgs>)
    ensures r.Ok? <==> AllResolve(environ, files, PostgresGroup, PostgresKeys)
    ensures r.Err? ==> r.error == NoKeyFoundMessage
    ensures r.Ok? ==> r.value.minSize == minconn && r.value.maxSize == maxconn && r.value.timeout == connectTimeout
    ensures r.Ok? ==> && GetKey(environ, files, "postgres", "db", None) == Found(r.value.database)
                      && GetKey(environ, files, "postgres", "host", None) == Found(r.value.host)
                      && GetKey(environ, files, "postgres", "port", None) == Found(r.value.port)
                      && GetKey(environ, files, "postgres", "user", None) == Found(r.value.user)
                      && GetKey(environ, files, "postgres", "password", None) == Found(r.value.password)
  {
    var pg: Result<PostgresDatabaseConfiguration>;
    ghost var attempts: nat;
    pg, attempts := PostgresDatabaseConfiguration.Load(environ, files);
    if pg.Err? {
      return Err(pg.error);
    }
    var pgConfig := pg.value.GetConfig();
    r := Ok(PoolArgs(minconn, maxconn, connectTimeout,
                     pgConfig["database"], pgConfig["host"], pgConfig["port"],
                     pgConfig["username"], pgConfig["password"]));
  }

  /** The application's start-up call `get_postgres_pool()`, with every default. */
  method StartupPool(environ: Environ, files: Files) returns (r: Result<PoolArgs>)
    ensures r.Ok? <==> AllResolve(environ, files, PostgresGroup, PostgresKeys)
    ensures r.Ok? ==> r.value.minSize == 1 && r.value.maxSize == 2 && r.value.timeout == 1000
  {
    r := GetPostgresPool(environ, files);
  }

  /** A field value of a fetched record. */
  datatype Cell = Null | Text(text: string) | Integer(n: int) | Boolean(b: bool) | Stamp(time: DateTime)

  type Row = seq<Cell>

  /** The dtype the DataFrame infers for a column. */
  datatype DType = Datetime64 | Int64 | Bool | Object

  /** A result attribute of the prepared statement. */
  datatype Attribute = Attribute(name: string, typeName: string)

  datatype Column = Column(name: string, dtype: DType, cells: seq<Cell>)

  /** What `postgres` returns: the fetched records, or the table built from them. */
  datatype QueryOutput = Records(rows: seq<Row>) | Table(columns: seq<Column>)

  /** Every record has one field per attribute. */
  predicate RowsFit(rows: seq<Row>, width: nat)
  {
    forall r :: 0 <= r < |rows| ==> |rows[r]| == width
  }

  /** `[attr.name for attr in attributes]`: one name per attribute, in order. */
  function ColumnNames(attributes: seq<Attribute>): (names: seq<string>)
    ensures |names| == |attributes|
    ensures forall i :: 0 <= i < |attributes| ==> names[i] == attributes[i].name
  {
    seq(|attributes|, i requires 0 <= i < |attributes| => attributes[i].name)
  }

  /**
    `pd.DataFrame(data, columns=column_names)`, with the dtypes it infers
    given: one column per name, in order, and cell `(r, c)` is field `c` of
    record `r`.
   */
  function BuildFrame(names: seq<string>, dtypes: seq<DType>, rows: seq<Row>): (frame: seq<Column>)
    requires |dtypes| == |names|
    requires RowsFit(rows, |names|)
    ensures |frame| == |names|
    ensures forall c :: 0 <= c < |frame| ==>
              frame[c].name == names[c] && frame[c].dtype == dtypes[c] && |frame[c].cells| == |rows|
    ensures forall r, c :: 0 <= r < |rows| && 0 <= c < |names| ==> frame[c].cells[r] == rows[r][c]
  {
    seq(|names|, c requires 0 <= c < |names| =>
      Column(names[c], dtypes[c], seq(|rows|, r requires 0 <= r < |rows| => rows[r][c])))
  }

  /** The column names come from the attributes alone: with no records the table still has them. */
  lemma EmptyResultKeepsColumnNames(attributes: seq<Attribute>, dtypes: seq<DType>)
    requires |dtypes| == |attributes|
    ensures var frame := BuildFrame(ColumnNames(attributes), dtypes, []);
            && |frame| == |attributes|
            && forall c :: 0 <= c < |frame| ==> frame[c].name == attributes[c].name && frame[c].cells == []
  {
  }

  /** `df.columns`: the labels of the table, in order. */
  function Labels(cols: seq<Column>): seq<string>
  {
    seq(|cols|, i requires 0 <= i < |cols| => cols[i].name)
  }

  /**
    No other label equals label `c`, so `df[names[c]]` selects that one
    column. A label that several columns share selects all of them as a
    table, which has no single dtype.
   */
  predicate NamedOnce(names: seq<string>, c: int)
    requires 0 <= c < |names|
  {
    forall k :: 0 <= k < |names| && k != c ==> names[k] != names[c]
  }

  /** All labels differ. */
  predicate DistinctNames(names: seq<string>)
  {
    forall j, k :: 0 <= j < k < |names| ==> names[j] != names[k]
  }

  /** Tables whose labels agree position by position agree on which labels occur once. */
  lemma SameLabelsSameNamedOnce(a: seq<Column>, b: seq<Column>, c: int)
    requires |a| == |b| && 0 <= c < |a|
    requires forall k :: 0 <= k < |a| ==> a[k].name == b[k].name
    ensures NamedOnce(Labels(a), c) == NamedOnce(Labels(b), c)
  {
    assert Labels(a) == Labels(b);
  }

  /** Every timestamp of the cells is at midnight, so `astype(str)` writes dates only. */
  predicate DatesOnly(cells: seq<Cell>)
  {
    forall i :: 0 <= i < |cells| ==> cells[i].Stamp? ==> AtMidnight(cells[i].time)
  }

  /** One cell of a `datetime64` column as text; anything but a timestamp there is `NaT`. */
  function StampCellText(c: Cell, datesOnly: bool): string
  {
    if c.Stamp? then StampText(c.time, datesOnly) else "NaT"
  }

  /** `df[column].astype(str)` on a `datetime64` column: a column of strings under the same name. */
  function AsStrings(col: Column): (r: Column)
    ensures r.name == col.name && r.dtype == Object && |r.cells| == |col.cells|
    ensures forall i :: 0 <= i < |r.cells| ==> r.cells[i].Text?
  {
    var datesOnly := DatesOnly(col.cells);
    Column(col.name, Object,
           seq(|col.cells|, i requires 0 <= i < |col.cells| => Text(StampCellText(col.cells[i], datesOnly))))
  }

  /**
    The loop body for column `c`: it is rewritten only when `df[name]`
    selects it alone and its dtype is `datetime64`. A `datetime64` column
    whose label another column shares is left as it is, because the lookup
    then yields a table and the dtype test fails.
   */
  function NormaliseColumn(cols: seq<Column>, c: int): (r: Column)
    requires 0 <= c < |cols|
    ensures r.name == cols[c].name && |r.cells| == |cols[c].cells|
    ensures r.dtype == Datetime64 <==> cols[c].dtype == Datetime64 && !NamedOnce(Labels(cols), c)
    ensures cols[c].dtype != Datetime64 || !NamedOnce(Labels(cols), c) ==> r == cols[c]
    ensures cols[c].dtype == Datetime64 && NamedOnce(Labels(cols), c) ==>
              forall i :: 0 <= i < |r.cells| ==> r.cells[i].Text?
  {
    if cols[c].dtype == Datetime64 && NamedOnce(Labels(cols), c) then AsStrings(cols[c]) else cols[c]
  }

  /** The table after the whole loop: the same labels, in the same order. */
  function Normalised(cols: seq<Column>): (out: seq<Column>)
    ensures |out| == |cols|
    ensures forall c :: 0 <= c < |cols| ==> out[c].name == cols[c].name
  {
    seq(|cols|, i requires 0 <= i < |cols| => NormaliseColumn(cols, i))
  }

  /**
    The conversion loop of `postgres`: each `datetime64` column that its
    label selects alone is replaced, in place, by its text form; the other
    columns are left alone.
   */
  method NormaliseDatetimeColumns(df: array<Column>)
    modifies df
    ensures df[..] == Normalised(old(df[..]))
  {
    for i := 0 to df.Length
      invariant forall k :: 0 <= k < i ==> df[k] == NormaliseColumn(old(df[..]), k)
      invariant forall k :: i <= k < df.Length ==> df[k] == old(df[k])
    {
      SameLabelsSameNamedOnce(df[..], old(df[..]), i);
      if df[i].dtype == Datetime64 && NamedOnce(Labels(df[..]), i) {
        df[i] := AsStrings(df[i]);
      }
    }
  }

  /**
    Normalisation keeps the column order, the labels and the row count and
    leaves every non-datetime column as it was. A datetime column becomes a
    column of strings when its label is its own, and stays as it was when
    another column shares its label; with distinct labels no datetime column
    remains.
   */
  lemma NormalisedShape(cols: seq<Column>)
    ensures var out := Normalised(cols);
            && |out| == |cols|
            && (forall c :: 0 <= c < |cols| ==> out[c].name == cols[c].name && |out[c].cells| == |cols[c].cells|)
            && (forall c :: 0 <= c < |cols| && cols[c].dtype != Datetime64 ==> out[c] == cols[c])
            && (forall c :: 0 <= c < |cols| && cols[c].dtype == Datetime64 && NamedOnce(Labels(cols), c) ==>
                  out[c].dtype == Object && forall r :: 0 <= r < |out[c].cells| ==> out[c].cells[r].Text?)
            && (forall c :: 0 <= c < |cols| && cols[c].dtype == Datetime64 && !NamedOnce(Labels(cols), c) ==>
                  out[c] == cols[c])
            && (DistinctNames(Labels(cols)) ==> forall c :: 0 <= c < |out| ==> out[c].dtype != Datetime64)
  {
    var out := Normalised(cols);
    if DistinctNames(Labels(cols)) {
      forall c | 0 <= c < |out|
        ensures out[c].dtype != Datetime64
      {
        assert NamedOnce(Labels(cols), c) by {
          forall k | 0 <= k < |cols| && k != c
            ensures Labels(cols)[k] != Labels(cols)[c]
          {
            if k < c {
              assert Labels(cols)[k] != Labels(cols)[c];
            } else {
              assert Labels(cols)[c] != Labels(cols)[k];
            }
          }
        }
      }
    }
  }

  /** A second pass changes nothing. */
  lemma NormalisedIdempotent(cols: seq<Column>)
    ensures Normalised(Normalised(cols)) == Normalised(cols)
  {
    var out := Normalised(cols);
    forall c | 0 <= c < |out|
      ensures NormaliseColumn(out, c) == out[c]
    {
      SameLabelsSameNamedOnce(cols, out, c);
    }
  }

  /**
    The text is lossless: in a converted column every valid timestamp reads
    back as itself, and every other cell reads `NaT`.
   */
  lemma NormalisedLossless(cols: seq<Column>, c: nat, r: nat)
    requires c < |cols| && cols[c].dtype == Datetime64 && NamedOnce(Labels(cols), c) && r < |cols[c].cells|
    requires cols[c].cells[r].Stamp? ==> Valid(cols[c].cells[r].time)
    ensures var cell := Normalised(cols)[c].cells[r];
            && cell.Text?
            && (cols[c].cells[r].Stamp? ==> ParseStamp(cell.text) == cols[c].cells[r].time)
            && (!cols[c].cells[r].Stamp? ==> cell.text == "NaT")
  {
    var cells := cols[c].cells;
    if cells[r].Stamp? {
      StampRoundTrip(cells[r].time, DatesOnly(cells));
    }
  }

  /**
    `SELECT now(), now()`: both columns are labelled `now`, so neither is
    selected alone and both keep their `datetime64` dtype.
   */
  lemma SharedLabelKeepsDatetime(t: DateTime)
    ensures var attributes := [Attribute("now", "timestamptz"), Attribute("now", "timestamptz")];
            var frame := BuildFrame(ColumnNames(attributes), [Datetime64, Datetime64], [[Stamp(t), Stamp(t)]]);
            Normalised(frame) == frame && frame[0].dtype == Datetime64 && frame[1].dtype == Datetime64
  {
    var attributes := [Attribute("now", "timestamptz"), Attribute("now", "timestamptz")];
    var frame := BuildFrame(ColumnNames(attributes), [Datetime64, Datetime64], [[Stamp(t), Stamp(t)]]);
    assert Labels(frame)[1] == Labels(frame)[0];
  }

  /**
    `postgres(query, con, table_format)` after the statement has run: the
    records themselves when `table_format` is false, otherwise the table
    named by the attributes, in order, with each datetime column that its
    label selects alone turned into text.
   */
  method Postgres(attributes: seq<Attribute>, rows: seq<Row>, dtypes: seq<DType>, tableFormat: bool := true)
    returns (out: QueryOutput)
    requires |dtypes| == |attributes|
    requires RowsFit(rows, |attributes|)
    ensures !tableFormat ==> out == Records(rows)
    ensures tableFormat ==> out == Table(Normalised(BuildFrame(ColumnNames(attributes), dtypes, rows)))
    ensures tableFormat ==> && |out.columns| == |attributes|
                            && forall c :: 0 <= c < |attributes| ==>
                                 && out.columns[c].name == attributes[c].name
                                 && |out.columns[c].cells| == |rows|
                                 && (out.columns[c].dtype == Datetime64
                                     <==> dtypes[c] == Datetime64 && !NamedOnce(ColumnNames(attributes), c))
    ensures tableFormat && DistinctNames(ColumnNames(attributes)) ==>
              forall c :: 0 <= c < |out.columns| ==> out.columns[c].dtype != Datetime64
  {
    var columnNames := ColumnNames(attributes);
    if !tableFormat {
      return Records(rows);
    }
    var frame := BuildFrame(columnNames, dtypes, rows);
    var df := new Column[|frame|](i requires 0 <= i < |frame| => frame[i]);
    assert df[..] == frame;
    NormaliseDatetimeColumns(df);
    out := Table(df[..]);
    assert Labels(frame) == columnNames;
    NormalisedShape(frame);
  }
}
