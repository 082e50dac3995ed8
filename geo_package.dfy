/** The narrow part of an OGC GeoPackage that the writer uses: one feature
    user table (section 2.1.6 of the OGC GeoPackage Encoding Standard) with a
    POINT geometry column (section 2.1.5) in WGS 84 (EPSG:4326), its fixed
    column schema, and the rows the writer appends. SQL, the DAOs and the
    spatial-reference catalog are not modelled. */
module GeoPackage {
  import opened Wrappers
  import opened JavaInt
  import opened LteRecords

  const LOG_DIRECTORY_NAME: string := "NetworkSurveyData"
  const FILE_NAME_PREFIX: string := "craxiom-lte"
  const FILE_EXTENSION: string := ".gpkg"
  const LTE_RECORDS_TABLE_NAME: string := "lte_drive_test_records"
  /** The srs_id of WGS 84 (EPSG:4326). */
  const WGS84_SRS: int := 4326

  const ID_COLUMN: string := "id"
  const GEOMETRY_COLUMN: string := "geom"
  const TIME_COLUMN: string := "Time"
  const RECORD_NUMBER_COLUMN: string := "RecordNumber"
  const GROUP_NUMBER_COLUMN: string := "GroupNumber"
  const MCC_COLUMN: string := "MCC"
  const MNC_COLUMN: string := "MNC"
  const TAC_COLUMN: string := "TAC"
  const CI_COLUMN: string := "ECI"
  const EARFCN_COLUMN: string := "DL_EARFCN"
  const PCI_COLUMN: string := "Phys_Cell_Id"
  const RSRP_COLUMN: string := "RSRP"
  const RSRQ_COLUMN: string := "RSRQ"
  const TA_COLUMN: string := "TA"

  /** The columns a row may set, by identity; `NameOf` gives the column name. */
  datatype ColumnId = TimeCol | RecordNumberCol | GroupNumberCol | MccCol | MncCol | TacCol
                    | CiCol | EarfcnCol | PciCol | RsrpCol | RsrqCol | TaCol

  function NameOf(c: ColumnId): string {
    match c
    case TimeCol => TIME_COLUMN
    case RecordNumberCol => RECORD_NUMBER_COLUMN
    case GroupNumberCol => GROUP_NUMBER_COLUMN
    case MccCol => MCC_COLUMN
    case MncCol => MNC_COLUMN
    case TacCol => TAC_COLUMN
    case CiCol => CI_COLUMN
    case EarfcnCol => EARFCN_COLUMN
    case PciCol => PCI_COLUMN
    case RsrpCol => RSRP_COLUMN
    case RsrqCol => RSRQ_COLUMN
    case TaCol => TA_COLUMN
  }

  /** The position in the LTE schema of each settable column. */
  function PositionOf(c: ColumnId): int {
    match c
    case TimeCol => 2
    case RecordNumberCol => 3
    case GroupNumberCol => 4
    case MccCol => 5
    case MncCol => 6
    case TacCol => 7
    case CiCol => 8
    case EarfcnCol => 9
    case PciCol => 10
    case RsrpCol => 11
    case RsrqCol => 12
    case TaCol => 13
  }

  datatype DataType = INTEGER | INT | MEDIUMINT | SMALLINT | FLOAT
  datatype GeometryType = POINT

  /** A column is either a plain data column or the geometry column. */
  datatype ColumnType = Data(dataType: DataType) | Geometry(geometryType: GeometryType)

  datatype Column = Column(
    index: int, name: string, columnType: ColumnType,
    notNull: bool, defaultValue: Option<int>, primaryKey: bool)

  /** `FeatureColumn.createPrimaryKeyColumn`: an INTEGER primary key, which is
      never null. */
  function PrimaryKeyColumn(index: int, name: string): Column {
    Column(index, name, Data(INTEGER), true, None, true)
  }

  /** `FeatureColumn.createGeometryColumn`. */
  function GeometryColumn(index: int, name: string, g: GeometryType, notNull: bool): Column {
    Column(index, name, Geometry(g), notNull, None, false)
  }

  /** `FeatureColumn.createColumn`. */
  function DataColumn(index: int, name: string, t: DataType, notNull: bool,
                      defaultValue: Option<int>): Column {
    Column(index, name, Data(t), notNull, defaultValue, false)
  }

  /** The LTE feature table's columns, as `createLteRecordTable` declares them. */
  function LteSchema(): seq<Column> {
    [ PrimaryKeyColumn(0, ID_COLUMN),
      GeometryColumn(1, GEOMETRY_COLUMN, POINT, false),
      DataColumn(2, TIME_COLUMN, INT, false, None),
      DataColumn(3, RECORD_NUMBER_COLUMN, MEDIUMINT, true, Some(-1)),
      DataColumn(4, GROUP_NUMBER_COLUMN, MEDIUMINT, true, Some(-1)),
      DataColumn(5, MCC_COLUMN, SMALLINT, false, None),
      DataColumn(6, MNC_COLUMN, SMALLINT, false, None),
      DataColumn(7, TAC_COLUMN, MEDIUMINT, false, None),
      DataColumn(8, CI_COLUMN, MEDIUMINT, false, None),
      DataColumn(9, EARFCN_COLUMN, MEDIUMINT, false, None),
      DataColumn(10, PCI_COLUMN, SMALLINT, false, None),
      DataColumn(11, RSRP_COLUMN, FLOAT, false, None),
      DataColumn(12, RSRQ_COLUMN, FLOAT, false, None),
      DataColumn(13, TA_COLUMN, SMALLINT, false, None) ]
  }

  /** The order of the LTE table: fourteen columns at positions 0 .. 13 with
      these names. */
  lemma LteSchemaOrder()
    ensures var s := LteSchema();
      && |s| == 14
      && (forall i :: 0 <= i < |s| ==> s[i].index == i)
      && s[0].name == ID_COLUMN && s[1].name == GEOMETRY_COLUMN && s[2].name == TIME_COLUMN
      && s[3].name == RECORD_NUMBER_COLUMN && s[4].name == GROUP_NUMBER_COLUMN
      && s[5].name == MCC_COLUMN && s[6].name == MNC_COLUMN && s[7].name == TAC_COLUMN
      && s[8].name == CI_COLUMN && s[9].name == EARFCN_COLUMN && s[10].name == PCI_COLUMN
      && s[11].name == RSRP_COLUMN && s[12].name == RSRQ_COLUMN && s[13].name == TA_COLUMN
  {
  }

  /** Only column 0 is the primary key, and `geom`, column 1, is the one
      geometry column, a POINT. */
  lemma LteSchemaKeys()
    ensures var s := LteSchema();
      && (forall i :: 0 <= i < |s| ==> (s[i].primaryKey <==> i == 0))
      && (forall i :: 0 <= i < |s| ==> (s[i].columnType.Geometry? <==> i == 1))
      && s[1].columnType == Geometry(POINT)
  {
  }

  /** Apart from the primary key, RecordNumber and GroupNumber are the only
      not-null columns and the only ones with a default, -1; the rest are
      nullable without a default. */
  lemma LteSchemaNullability()
    ensures var s := LteSchema();
      && (forall i :: 1 <= i < |s| ==> (s[i].notNull <==> i == 3 || i == 4))
      && (forall i :: 0 <= i < |s| ==> (s[i].defaultValue.Some? <==> i == 3 || i == 4))
      && s[3].defaultValue == Some(-1) && s[4].defaultValue == Some(-1)
  {
  }

  /** Each settable column sits at its position in the schema under its name,
      as a data column that is not the key. */
  lemma LteSchemaPositions(c: ColumnId)
    ensures var s := LteSchema(); var i := PositionOf(c);
      2 <= i < |s| && s[i].name == NameOf(c) && s[i].columnType.Data? && !s[i].primaryKey
  {
  }

  /** A feature user table with its spatial reference and its rows in insertion
      order (the `id` each row receives is assigned by SQLite and not modelled). */
  datatype FeatureTable = FeatureTable(name: string, columns: seq<Column>, srsId: int, rows: seq<Row>)

  /** An open GeoPackage file. `features` is `None` when setting up the
      spatial reference, the geometry-columns catalog or the feature table
      threw, in which case no feature DAO can be obtained for it. */
  datatype Package = Package(path: string, features: Option<FeatureTable>)

  datatype Point = Point(x: Coord, y: Coord, z: Coord)

  /** `GeoPackageGeometryData`: a geometry tagged with its srs_id. */
  datatype GeometryData = GeometryData(srsId: int, point: Point)

  /** The Java object handed to `FeatureRow.setValue`. A `float` is kept as
      the `int` it was converted from. */
  datatype Value = LongValue(asLong: int) | IntValue(asInt: int) | ShortValue(asShort: int)
                 | FloatValue(asFloat: int)

  datatype Row = Row(geometry: GeometryData, values: map<ColumnId, Value>)

  /** `createLteRecordTable`: the columns are added one by one with a running
      column number. */
  method CreateLteRecordTable(srsId: int) returns (table: FeatureTable)
    ensures table == FeatureTable(LTE_RECORDS_TABLE_NAME, LteSchema(), srsId, [])
  {
    var colNum := 0;
    var cols: seq<Column> := [];
    cols := cols + [PrimaryKeyColumn(colNum, ID_COLUMN)]; colNum := colNum + 1;
    cols := cols + [GeometryColumn(colNum, GEOMETRY_COLUMN, POINT, false)]; colNum := colNum + 1;
    cols := cols + [DataColumn(colNum, TIME_COLUMN, INT, false, None)]; colNum := colNum + 1;
    cols := cols + [DataColumn(colNum, RECORD_NUMBER_COLUMN, MEDIUMINT, true, Some(-1))]; colNum := colNum + 1;
    cols := cols + [DataColumn(colNum, GROUP_NUMBER_COLUMN, MEDIUMINT, true, Some(-1))]; colNum := colNum + 1;
    cols := cols + [DataColumn(colNum, MCC_COLUMN, SMALLINT, false, None)]; colNum := colNum + 1;
    cols := cols + [DataColumn(colNum, MNC_COLUMN, SMALLINT, false, None)]; colNum := colNum + 1;
    cols := cols + [DataColumn(colNum, TAC_COLUMN, MEDIUMINT, false, None)]; colNum := colNum + 1;
    cols := cols + [DataColumn(colNum, CI_COLUMN, MEDIUMINT, false, None)]; colNum := colNum + 1;
    cols := cols + [DataColumn(colNum, EARFCN_COLUMN, MEDIUMINT, false, None)]; colNum := colNum + 1;
    cols := cols + [DataColumn(colNum, PCI_COLUMN, SMALLINT, false, None)]; colNum := colNum + 1;
    cols := cols + [DataColumn(colNum, RSRP_COLUMN, FLOAT, false, None)]; colNum := colNum + 1;
    cols := cols + [DataColumn(colNum, RSRQ_COLUMN, FLOAT, false, None)]; colNum := colNum + 1;
    cols := cols + [DataColumn(colNum, TA_COLUMN, SMALLINT, false, None)]; colNum := colNum + 1;
    table := FeatureTable(LTE_RECORDS_TABLE_NAME, cols, srsId, []);
  }

  /** `setShortValue`: the value as a Java `short`. */
  function ShortOf(v: int): Value { ShortValue(Narrow16(v)) }
  /** `setIntValue`: the value unchanged. */
  function IntOf(v: int): Value { IntValue(v) }
  /** `setFloatValue`: the value as a `float`. */
  function FloatOf(v: int): Value { FloatValue(v) }

  const AllColumns: set<ColumnId> := {TimeCol, RecordNumberCol, GroupNumberCol, MccCol, MncCol,
                                       TacCol, CiCol, EarfcnCol, PciCol, RsrpCol, RsrqCol, TaCol}

  /** The record's value for a column: the three header columns always have
      one, the optional fields when they are present. */
  function FieldFor(r: LteRecord, c: ColumnId): Option<int> {
    match c
    case TimeCol => Some(r.deviceTime)
    case RecordNumberCol => Some(r.recordNumber)
    case GroupNumberCol => Some(r.groupNumber)
    case MccCol => r.radio.mcc
    case MncCol => r.radio.mnc
    case TacCol => r.radio.tac
    case CiCol => r.radio.ci
    case EarfcnCol => r.radio.earfcn
    case PciCol => r.radio.pci
    case RsrpCol => r.radio.rsrp
    case RsrqCol => r.radio.rsrq
    case TaCol => r.radio.ta
  }

  /** The setter the write uses for each column: the device time as a `long`,
      the record and group numbers as `int`, then `setShortValue`,
      `setIntValue` or `setFloatValue`. */
  function StoredValue(c: ColumnId, v: int): Value {
    match c
    case TimeCol => LongValue(v)
    case RecordNumberCol => IntValue(v)
    case GroupNumberCol => IntValue(v)
    case MccCol => ShortOf(v)
    case MncCol => ShortOf(v)
    case TacCol => IntOf(v)
    case CiCol => IntOf(v)
    case EarfcnCol => IntOf(v)
    case PciCol => ShortOf(v)
    case RsrpCol => FloatOf(v)
    case RsrqCol => FloatOf(v)
    case TaCol => ShortOf(v)
  }

  /** The row the posted write builds for a record: the point (longitude,
      latitude, altitude) in WGS 84, and a value for each column whose field
      the record has. */
  function BuildRow(r: LteRecord): Row {
    Row(GeometryData(WGS84_SRS, Point(r.longitude, r.latitude, r.altitude)),
        map c | c in AllColumns && FieldFor(r, c).Some? :: StoredValue(c, FieldFor(r, c).value))
  }

  /** Reading a stored column back: the number it holds, or absence for NULL. */
  function ColumnValue(row: Row, name: ColumnId): Option<int> {
    if name !in row.values then None
    else match row.values[name]
      case LongValue(v) => Some(v)
      case IntValue(v) => Some(v)
      case ShortValue(v) => Some(v)
      case FloatValue(v) => Some(v)
  }

  /** The optional radio fields as a reader of the table finds them. */
  function ReadBack(row: Row): RadioFields {
    RadioFields(ColumnValue(row, MccCol), ColumnValue(row, MncCol), ColumnValue(row, TacCol),
                ColumnValue(row, CiCol), ColumnValue(row, EarfcnCol), ColumnValue(row, PciCol),
                ColumnValue(row, RsrpCol), ColumnValue(row, RsrqCol), ColumnValue(row, TaCol))
  }

  function NarrowOpt(o: Option<int>): Option<int> {
    if o.Some? then Some(Narrow16(o.value)) else None
  }

  /** What a SMALLINT column keeps of a record's fields: MCC, MNC, PCI and TA
      narrowed to 16 bits, the rest unchanged. */
  function Stored(f: RadioFields): RadioFields {
    f.(mcc := NarrowOpt(f.mcc), mnc := NarrowOpt(f.mnc), pci := NarrowOpt(f.pci), ta := NarrowOpt(f.ta))
  }

  predicate InShortRange(o: Option<int>) {
    o.Some? ==> SHORT_MIN <= o.value <= SHORT_MAX
  }

  /** Round trip of one write: reading the row back gives each optional field
      present exactly when it was present in the record, with its stored
      value; the header columns and the point read back as the record's. */
  lemma {:induction false} RowRoundTrip(r: LteRecord)
    ensures ReadBack(BuildRow(r)) == Stored(r.radio)
    ensures ColumnValue(BuildRow(r), TimeCol) == Some(r.deviceTime)
    ensures ColumnValue(BuildRow(r), RecordNumberCol) == Some(r.recordNumber)
    ensures ColumnValue(BuildRow(r), GroupNumberCol) == Some(r.groupNumber)
    ensures BuildRow(r).geometry == GeometryData(WGS84_SRS, Point(r.longitude, r.latitude, r.altitude))
  {
  }

  /** A record whose narrowed fields fit in 16 bits is read back exactly. */
  lemma ExactRoundTrip(r: LteRecord)
    requires InShortRange(r.radio.mcc) && InShortRange(r.radio.mnc)
    requires InShortRange(r.radio.pci) && InShortRange(r.radio.ta)
    ensures ReadBack(BuildRow(r)) == r.radio
  {
    RowRoundTrip(r);
  }

  /** The Java value stored in a column matches the column's declared type. */
  predicate Fits(v: Value, t: ColumnType) {
    match v
    case LongValue(_) => t == Data(INT)
    case IntValue(_) => t == Data(MEDIUMINT)
    case ShortValue(x) => t == Data(SMALLINT) && SHORT_MIN <= x <= SHORT_MAX
    case FloatValue(_) => t == Data(FLOAT)
  }

  /** Each setter stores a value of the type its column declares. */
  lemma StoredValueFits(c: ColumnId, v: int)
    ensures 2 <= PositionOf(c) < |LteSchema()|
    ensures Fits(StoredValue(c, v), LteSchema()[PositionOf(c)].columnType)
  {
    var s := LteSchema();
    match c
    case TimeCol => assert s[2].columnType == Data(INT);
    case RecordNumberCol => assert s[3].columnType == Data(MEDIUMINT);
    case GroupNumberCol => assert s[4].columnType == Data(MEDIUMINT);
    case MccCol => assert s[5].columnType == Data(SMALLINT);
    case MncCol => assert s[6].columnType == Data(SMALLINT);
    case TacCol => assert s[7].columnType == Data(MEDIUMINT);
    case CiCol => assert s[8].columnType == Data(MEDIUMINT);
    case EarfcnCol => assert s[9].columnType == Data(MEDIUMINT);
    case PciCol => assert s[10].columnType == Data(SMALLINT);
    case RsrpCol => assert s[11].columnType == Data(FLOAT);
    case RsrqCol => assert s[12].columnType == Data(FLOAT);
    case TaCol => assert s[13].columnType == Data(SMALLINT);
  }

  /** A row sets only non-key data columns of the LTE schema, each with a
      value of the type that column declares. */
  predicate RowFitsSchema(row: Row) {
    forall c <- row.values :: 2 <= PositionOf(c) < |LteSchema()| &&
      Fits(row.values[c], LteSchema()[PositionOf(c)].columnType)
  }

  /** Every value of a built row lands in a non-key, non-geometry column of the
      LTE schema whose declared type matches it, and the not-null columns
      RecordNumber and GroupNumber are always set. */
  lemma BuildRowFitsSchema(r: LteRecord)
    ensures forall c <- BuildRow(r).values :: 2 <= PositionOf(c) < |LteSchema()| &&
              Fits(BuildRow(r).values[c], LteSchema()[PositionOf(c)].columnType)
    ensures RecordNumberCol in BuildRow(r).values && GroupNumberCol in BuildRow(r).values
  {
    var row := BuildRow(r);
    forall c <- row.values
      ensures 2 <= PositionOf(c) < |LteSchema()| && Fits(row.values[c], LteSchema()[PositionOf(c)].columnType)
    {
      StoredValueFits(c, FieldFor(r, c).value);
    }
  }

  /** `featureDao.insert(row)` against the package open at that moment:
      with a package and its feature table, the row is appended; with no
      package, or with a package whose setup failed (the feature DAO lookup
      throws and the runnable catches it), nothing changes. */
  function AppendRow(p: Option<Package>, row: Row): (q: Option<Package>)
    ensures p.None? || p.value.features.None? ==> q == p
    ensures p.Some? && p.value.features.Some? ==>
      && q.Some? && q.value.path == p.value.path && q.value.features.Some?
      && q.value.features.value.rows == p.value.features.value.rows + [row]
      && q.value.features.value.(rows := []) == p.value.features.value.(rows := [])
  {
    match p
    case None => None
    case Some(pkg) =>
      match pkg.features
      case None => p
      case Some(t) => Some(pkg.(features := Some(t.(rows := t.rows + [row]))))
  }

  /** Rows inserted one after another, in order. */
  function AppendRows(p: Option<Package>, rows: seq<Row>): Option<Package>
    decreases |rows|
  {
    if rows == [] then p else AppendRows(AppendRow(p, rows[0]), rows[1..])
  }

  /** The rows the posted writes of `rs` insert. */
  function Rows(rs: seq<LteRecord>): (rows: seq<Row>)
    ensures |rows| == |rs| && forall i :: 0 <= i < |rs| ==> rows[i] == BuildRow(rs[i])
  {
    seq(|rs|, i requires 0 <= i < |rs| => BuildRow(rs[i]))
  }

  lemma RowsCons(rs: seq<LteRecord>)
    requires rs != []
    ensures Rows(rs) == [BuildRow(rs[0])] + Rows(rs[1..])
  {
  }

  /** Inserting into an open table appends every row, in order, and changes
      nothing else. */
  lemma {:induction false} AppendRowsToTable(pkg: Package, t: FeatureTable, rows: seq<Row>)
    requires pkg.features == Some(t)
    ensures AppendRows(Some(pkg), rows) == Some(pkg.(features := Some(t.(rows := t.rows + rows))))
    decreases |rows|
  {
    if rows == [] {
      assert t.rows + rows == t.rows;
    } else {
      var t1 := t.(rows := t.rows + [rows[0]]);
      AppendRowsToTable(pkg.(features := Some(t1)), t1, rows[1..]);
      assert (t.rows + [rows[0]]) + rows[1..] == t.rows + rows;
    }
  }

  /** With no package, or one without its feature table, inserting changes
      nothing. */
  lemma {:induction false} AppendRowsWithoutTable(p: Option<Package>, rows: seq<Row>)
    requires p.None? || p.value.features.None?
    ensures AppendRows(p, rows) == p
    decreases |rows|
  {
    if rows != [] {
      AppendRowsWithoutTable(AppendRow(p, rows[0]), rows[1..]);
    }
  }

  /** `createPublicStorageFilePath`: `<downloads>/NetworkSurveyData/craxiom-lte-<timestamp>.gpkg`. */
  function StoragePath(downloadsDir: string, timestamp: string): (path: string)
    ensures |path| == |downloadsDir| + |timestamp| + 36
    ensures path[..|downloadsDir|] == downloadsDir
    ensures path[|path| - |FILE_EXTENSION|..] == FILE_EXTENSION
  {
    downloadsDir + "/" + LOG_DIRECTORY_NAME + "/" + FILE_NAME_PREFIX + "-" + timestamp + FILE_EXTENSION
  }

  /** Distinct timestamps give distinct log files in the same directory. */
  lemma {:induction false} StoragePathInjective(dir: string, t1: string, t2: string)
    requires StoragePath(dir, t1) == StoragePath(dir, t2)
    ensures t1 == t2
  {
    var p := StoragePath(dir, t1);
    var k := |dir| + 31;
    assert |t1| == |t2|;
    assert p[k..k + |t1|] == t1;
    assert StoragePath(dir, t2)[k..k + |t2|] == t2;
  }
}
