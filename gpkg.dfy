/**
 * provider/gpkg: the GeoPackage provider.  Layers come from a `tablename`
 * (whose geometry column, type, SRID and columns are read from the
 * GeoPackage metadata tables) or from custom `sql` (whose geometry type and
 * SRID are read from its first row); tiles are streamed row by row from the
 * SQLite database, which is an oracle here.
 */
module Gpkg {
  import opened Wrappers
  import opened Errors
  import opened Geom
  import opened Dict
  import opened Db
  import opened Strs
  import opened Provider

  // ---------------------------------------------------------------------------
  // Names, keys and defaults

  const ProviderName := "gpkg"
  const DefaultSRID: nat := WebMercator
  const DefaultIDFieldName := "fid"
  const DefaultGeomFieldName := "geom"

  const KeyFilePath := "filepath"
  const KeyLayers := "layers"
  const KeyLayerName := "name"
  const KeyTableName := "tablename"
  const KeySQL := "sql"
  const KeyGeomIDField := "id_fieldname"
  const KeyFields := "fields"

  /** The query placeholders, spelled as the providers document them. */
  const ZoomToken := "!ZOOM!"
  const BBoxToken := "!BBOX!"

  // ---------------------------------------------------------------------------
  // provider/gpkg/layer.go

  /**
   * gpkg.Layer.  The Go record keeps a geometry value as the layer's type
   * (an empty shape, or the first row's geometry for custom SQL); only its
   * kind is kept here.
   */
  datatype GpkgLayer = GpkgLayer(
    id: string,
    name: string,
    tablename: string,
    features: seq<string>,
    tagFieldnames: seq<string>,
    idFieldname: string,
    geomFieldname: string,
    geomType: Option<GeomKind>,
    srid: nat,
    bbox: Extent,
    sql: string)
  {
    function ID(): string { id }
    function Name(): string { name }
    function GeomType(): Option<GeomKind> { geomType }
    function SRID(): nat { srid }
  }

  /** The zero Layer value Go hands back for a name that is not in the map. */
  const ZeroLayer := GpkgLayer("", "", "", [], [], "", "", None, 0, Extent(0.0, 0.0, 0.0, 0.0), "")

  /** A layer seen through the LayerInfo interface. */
  function Info(l: GpkgLayer): LayerInfo {
    LayerInfo(l.ID(), l.Name(), l.GeomType(), l.SRID())
  }

  // ---------------------------------------------------------------------------
  // geomNameToGeom

  /** The GeoPackage geometry type name of each kind geomNameToGeom accepts. */
  function GpkgName(k: GeomKind): Option<string> {
    match k
    case Point => Some("POINT")
    case LineString => Some("LINESTRING")
    case Polygon => Some("POLYGON")
    case MultiPoint => Some("MULTIPOINT")
    case MultiLineString => Some("MULTILINESTRING")
    case MultiPolygon => Some("MULTIPOLYGON")
    case _ => None
  }

  /**
   * geomNameToGeom: exactly the six upper-case names are accepted, each
   * mapped to the kind it names; a geometry collection has no name here.
   */
  function GeomNameToGeom(name: string): Result<GeomKind, Error> {
    match name
    case "POINT" => Success(Point)
    case "LINESTRING" => Success(LineString)
    case "POLYGON" => Success(Polygon)
    case "MULTIPOINT" => Success(MultiPoint)
    case "MULTILINESTRING" => Success(MultiLineString)
    case "MULTIPOLYGON" => Success(MultiPolygon)
    case _ => Failure(ErrUnsupportedGeomType(name))
  }

  /**
   * geomNameToGeom accepts exactly the six upper-case names, maps each to
   * the kind it names (never a geometry collection), and reports any other
   * name as unsupported.
   */
  lemma GeomNameAccepted(name: string)
    ensures var r := GeomNameToGeom(name);
            (r.Success? <==> name in {"POINT", "LINESTRING", "POLYGON", "MULTIPOINT", "MULTILINESTRING", "MULTIPOLYGON"}) &&
            (r.Success? ==> GpkgName(r.value) == Some(name) && r.value != Collection && r.value != Line) &&
            (r.Failure? ==> r.error == ErrUnsupportedGeomType(name))
  {
  }

  /** Every kind that has a GeoPackage name maps back to itself. */
  lemma GeomNameRoundTrip(k: GeomKind)
    ensures GpkgName(k).Some? ==> GeomNameToGeom(GpkgName(k).value) == Success(k)
    ensures GpkgName(k).None? <==> k == Line || k == Collection
  {
  }

  // ---------------------------------------------------------------------------
  // The zoom-token rewrite of custom SQL (a strings.Replacer)

  const AllZoomsSQL := "IN (0,1,2,3,4,5,6,7,8,9,10,11,12,13,14,15,16,17,18,19,20,21,22,23,24)"

  /** The comparison operators, in the order the replacer is given them. */
  const ZoomOperators: seq<string> :=
    [">= ", ">=", "=> ", "=>", "=< ", "=<", "<= ", "<=", "!= ", "!=", "= ", "=", "> ", ">", "< ", "<"]

  /** The replacer's patterns: each operator directly followed by the zoom token. */
  function ZoomPattern(k: nat): string
    requires k < |ZoomOperators|
  {
    ZoomOperators[k] + ZoomToken
  }

  /** The first pattern, in argument order from `k`, that starts `s`. */
  function FirstPatternAt(s: string, k: nat): (r: Option<nat>)
    requires k <= |ZoomOperators|
    ensures r.Some? ==> k <= r.value < |ZoomOperators| && ZoomPattern(r.value) <= s
    ensures r.None? ==> forall j :: k <= j < |ZoomOperators| ==> !(ZoomPattern(j) <= s)
    decreases |ZoomOperators| - k
  {
    if k == |ZoomOperators| then None
    else if ZoomPattern(k) <= s then Some(k)
    else FirstPatternAt(s, k + 1)
  }

  /**
   * strings.NewReplacer(...).Replace: scanning left to right, a pattern that
   * starts at the current position (the earliest argument among those that
   * do) is replaced by the all-zooms list and scanning resumes after it;
   * otherwise the character is kept.
   */
  function ZoomReplace(s: string): string
    decreases |s|
  {
    if s == [] then []
    else
      match FirstPatternAt(s, 0)
      case Some(j) => AllZoomsSQL + ZoomReplace(s[|ZoomPattern(j)|..])
      case None => [s[0]] + ZoomReplace(s[1..])
  }

  /** The operators are distinct, non-empty, and carry `!` only as their first character. */
  lemma ZoomOperatorsShape()
    ensures forall k :: 0 <= k < |ZoomOperators| ==> 1 <= |ZoomOperators[k]| <= 3
    ensures forall k, i :: 0 <= k < |ZoomOperators| && 1 <= i < |ZoomOperators[k]| ==> ZoomOperators[k][i] != '!'
    ensures forall j, k :: 0 <= j < k < |ZoomOperators| ==> ZoomOperators[j] != ZoomOperators[k]
  {
  }

  /** At most one pattern starts any string: the replacer's argument order never decides a match. */
  lemma {:induction false} PatternsExclusive(s: string, j: nat, k: nat)
    requires j < |ZoomOperators| && k < |ZoomOperators|
    requires ZoomPattern(j) <= s && ZoomPattern(k) <= s
    ensures j == k
  {
    ZoomOperatorsShape();
    var a, b := ZoomOperators[j], ZoomOperators[k];
    var c := if |a| < |b| then |a| else |b|;
    assert ZoomPattern(j)[c] == s[c] == ZoomPattern(k)[c];
    assert a == ZoomPattern(j)[..|a|] == s[..|a|];
    assert b == ZoomPattern(k)[..|b|] == s[..|b|];
  }

  /** A comparison operator written before the zoom token becomes the all-zooms list. */
  lemma OperatorZoomReplaced(k: nat, rest: string)
    requires k < |ZoomOperators|
    ensures ZoomReplace(ZoomPattern(k) + rest) == AllZoomsSQL + ZoomReplace(rest)
  {
    var s := ZoomPattern(k) + rest;
    assert ZoomPattern(k) <= s;
    match FirstPatternAt(s, 0)
    case Some(j) =>
      PatternsExclusive(s, j, k);
      assert s[|ZoomPattern(k)|..] == rest;
    case None =>
      assert false;
  }

  /** SQL without the zoom token passes through the replacer unchanged. */
  lemma {:induction false} NoZoomTokenUnchanged(s: string)
    requires !Contains(s, ZoomToken)
    ensures ZoomReplace(s) == s
    decreases |s|
  {
    if s != [] {
      match FirstPatternAt(s, 0)
      case Some(j) =>
        PatternHasToken(s, j);
        assert false;
      case None =>
        assert !Contains(s[1..], ZoomToken);
        NoZoomTokenUnchanged(s[1..]);
        assert [s[0]] + s[1..] == s;
    }
  }

  /** A string a replacer pattern starts contains the zoom token. */
  lemma PatternHasToken(s: string, j: nat)
    requires j < |ZoomOperators| && ZoomPattern(j) <= s
    ensures Contains(s, ZoomToken)
  {
    var op := ZoomOperators[j];
    assert s[|op|..][..|ZoomToken|] == ZoomPattern(j)[|op|..] == ZoomToken;
    ContainsPrefix(s[|op|..], ZoomToken);
    ContainsSuffix(s, |op|, ZoomToken);
  }

  /** A pattern found in a suffix is found in the whole string. */
  lemma {:induction false} ContainsSuffix(s: string, i: nat, p: string)
    requires i <= |s| && Contains(s[i..], p)
    ensures Contains(s, p)
    decreases i
  {
    if i > 0 {
      assert s[1..][i - 1..] == s[i..];
      ContainsSuffix(s[1..], i - 1, p);
    }
  }

  // ---------------------------------------------------------------------------
  // What the provider reads from the GeoPackage, and the helpers it calls

  /**
   * The row AddLayer scans for a table from gpkg_contents (name, bounds,
   * SRS id), gpkg_geometry_columns (geometry column and type name) and
   * sqlite_master (the CREATE statement, `None` for SQL NULL).  NULL bounds,
   * ids and names scan as Go zero values.
   */
  datatype TableMetadata = TableMetadata(
    tableName: string,
    minX: real, minY: real, maxX: real, maxY: real,
    srsID: int,
    geomColumn: string,
    geomTypeName: string,
    tableSQL: Option<string>)

  /**
   * The SQLite database: db.Query's result set for a query text; the row
   * QueryRow(MetadataQuery(t)).Scan reads for a table name `t`; and the
   * single geometry blob QueryRow(...).Scan reads for a query text
   * (`ErrNoRows` when the query returned no row).
   */
  datatype GpkgDb = GpkgDb(
    query: string -> Result<Rows, Error>,
    tableMetadata: string -> Result<TableMetadata, Error>,
    firstGeometry: string -> Result<seq<bv8>, Error>)

  /** A decoded GeoPackage geometry blob: the SRS id in its header and its geometry. */
  datatype DecodedGeometry = DecodedGeometry(srsID: int, geometry: Geometry)

  /**
   * Code the provider calls whose bodies are not part of this model:
   * replaceTokens and extractColsAndPKFromSQL (util.go), the tile's buffered
   * extent, basic.FromWebMercator on one point, decodeGeometry,
   * provider.ConvertFeatureID, and the WGS84 bounds constant.
   */
  datatype GpkgHelpers = GpkgHelpers(
    replaceTokens: (string, nat, Extent) -> string,
    bufferedExtent: Tile -> Extent,
    fromWebMercator: (nat, Point2) -> Result<Point2, Error>,
    decodeGeometry: seq<bv8> -> Result<DecodedGeometry, Error>,
    convertFeatureID: Value -> Result<nat, Error>,
    extractColsAndPK: string -> (seq<string>, string),
    wgs84Bounds: Extent)

  // ---------------------------------------------------------------------------
  // AddLayer

  /** The name check: a lookup error is wrapped, an empty name is refused. */
  function LayerName(conf: Dicter): (r: Result<string, Error>)
    ensures r.Success? <==> conf.str(KeyLayerName, None).Success? && conf.str(KeyLayerName, None).value != ""
    ensures r.Success? ==> r.value == conf.str(KeyLayerName, None).value
    ensures conf.str(KeyLayerName, None) == Success("") ==> r == Failure(ErrMissingLayerName)
  {
    var name :- Wrap(conf.str(KeyLayerName, None), "layer name");
    if name == "" then Failure(ErrMissingLayerName) else Success(name)
  }

  /** Which of `tablename` and `sql` a layer is configured with. */
  datatype SourceKind = FromTable | FromSQL

  /** A lookup error other than "key missing". */
  predicate Unexpected(e: Option<Error>) {
    e.Some? && !e.value.ErrKeyRequired?
  }

  /**
   * The checks on `tablename` and `sql`, corrected: a lookup error other
   * than a missing key is returned, and exactly one of the two keys must be
   * present.
   */
  function SourceOf(conf: Dicter): Result<SourceKind, Error> {
    var errTable := conf.str(KeyTableName, None).Err();
    var errSQL := conf.str(KeySQL, None).Err();
    if Unexpected(errTable) then Failure(errTable.value)
    else if Unexpected(errSQL) then Failure(errSQL.value)
    else if errTable.Some? && errSQL.Some? then Failure(ErrTableOrSQLRequired)
    else if errTable.None? && errSQL.None? then Failure(ErrTableOrSQLRequired)
    else if errTable.None? then Success(FromTable)
    else Success(FromSQL)
  }

  /**
   * The same checks as written: an unexpected lookup error returns `err`,
   * the error of the name lookup, which is nil once the name has been read.
   * `Failure(None)` is that nil return.
   */
  function SourceOfAsWritten(conf: Dicter): Result<SourceKind, Option<Error>> {
    var errTable := conf.str(KeyTableName, None).Err();
    var errSQL := conf.str(KeySQL, None).Err();
    if Unexpected(errTable) then Failure(None)
    else if Unexpected(errSQL) then Failure(None)
    else if errTable.Some? && errSQL.Some? then Failure(Some(ErrTableOrSQLRequired))
    else if errTable.None? && errSQL.None? then Failure(Some(ErrTableOrSQLRequired))
    else if errTable.None? then Success(FromTable)
    else Success(FromSQL)
  }

  /** Exactly one source key is present whenever the checks pass, and the answer names it. */
  lemma SourceExactlyOne(conf: Dicter)
    ensures SourceOf(conf) == Success(FromTable) <==>
            conf.str(KeyTableName, None).Success? && conf.str(KeySQL, None).Failure? && conf.str(KeySQL, None).error.ErrKeyRequired?
    ensures SourceOf(conf) == Success(FromSQL) <==>
            conf.str(KeySQL, None).Success? && conf.str(KeyTableName, None).Failure? && conf.str(KeyTableName, None).error.ErrKeyRequired?
    ensures (conf.str(KeyTableName, None).Success? && conf.str(KeySQL, None).Success?) ==> SourceOf(conf) == Failure(ErrTableOrSQLRequired)
    ensures (conf.str(KeyTableName, None) == Failure(ErrKeyRequired(KeyTableName)) && conf.str(KeySQL, None) == Failure(ErrKeyRequired(KeySQL))) ==>
            SourceOf(conf) == Failure(ErrTableOrSQLRequired)
  {
  }

  /**
   * The metadata query for a table, as the Go raw string spells it: the
   * table's gpkg_contents row joined with its gpkg_geometry_columns row and
   * its sqlite_master CREATE statement.  `GpkgDb.tableMetadata` answers it.
   */
  function MetadataQuery(tablename: string): string {
    "\n\t\tSELECT\n\t\t\tc.table_name, c.min_x, c.min_y, c.max_x, c.max_y, c.srs_id, gc.column_name, gc.geometry_type_name, sm.sql\n\t\tFROM\n\t\t\tgpkg_contents c JOIN gpkg_geometry_columns gc ON c.table_name == gc.table_name JOIN sqlite_master sm ON c.table_name = sm.tbl_name\n\t\tWHERE\n\t\t\tc.data_type = 'features' AND sm.type = 'table' AND c.table_name = '"
    + tablename + "';"
  }

  /**
   * A table layer: the table's metadata row must exist with a CREATE
   * statement and a supported geometry type; the geometry column, type, SRID
   * and bounds come from the row, the tag columns and the id column from
   * the CREATE statement.
   */
  function TableLayer(layer: GpkgLayer, idFieldname: string, tags: seq<string>, conf: Dicter, db: GpkgDb, helpers: GpkgHelpers): Result<GpkgLayer, Error> {
    var tablename :- Wrap(conf.str(KeyTableName, Some(idFieldname)), "layer tablename");
    var meta :- db.tableMetadata(tablename);
    if meta.tableSQL.None? then Failure(ErrInvalidTableSQL(meta.tableName))
    else
      var colsAndPK := helpers.extractColsAndPK(meta.tableSQL.value);
      var tg :- GeomNameToGeom(meta.geomTypeName);
      Success(layer.(
        tablename := tablename,
        geomFieldname := meta.geomColumn,
        geomType := Some(tg),
        tagFieldnames := colsAndPK.0,
        idFieldname := colsAndPK.1,
        srid := Uint64(meta.srsID),
        bbox := NewExtent(Point2(meta.minX, meta.minY), Point2(meta.maxX, meta.maxY))))
  }

  /** The custom SQL run to find a layer's geometry: every zoom, the WGS84 bounds. */
  function ProbeSQL(customSQL: string, helpers: GpkgHelpers): string {
    helpers.replaceTokens(ZoomReplace(customSQL), 0, helpers.wgs84Bounds)
  }

  /** The query reading the first geometry of custom SQL. */
  function FirstGeometryQuery(sql: string): string {
    "SELECT geom FROM (" + sql + ") LIMIT 1;"
  }

  /**
   * A custom-SQL layer: its first row must exist and decode; its geometry
   * kind and SRID are that row's, its fields the defaults.
   */
  function SQLLayer(layer: GpkgLayer, conf: Dicter, db: GpkgDb, helpers: GpkgHelpers): Result<GpkgLayer, Error> {
    var customSQL :- Wrap(conf.str(KeySQL, Some("")), "layer sql");
    var data := db.firstGeometry(FirstGeometryQuery(ProbeSQL(customSQL, helpers)));
    if data == Failure(ErrNoRows) then Failure(ErrCustomSQLNoRows(layer.name))
    else if data.Failure? then Failure(Wrapped("problem executing custom SQL", data.error))
    else
      var d :- helpers.decodeGeometry(data.value);
      Success(layer.(
        sql := customSQL,
        geomType := Some(KindOf(d.geometry)),
        srid := Uint64(d.srsID),
        geomFieldname := DefaultGeomFieldName,
        idFieldname := DefaultIDFieldName))
  }

  /** The rest of AddLayer once the name and the source key are known. */
  function BuildFrom(name: string, kind: SourceKind, conf: Dicter, db: GpkgDb, helpers: GpkgHelpers): (r: Result<GpkgLayer, Error>)
    ensures r.Success? ==> r.value.name == name && r.value.id == ""
  {
    var idFieldname :- Wrap(conf.str(KeyGeomIDField, Some(DefaultIDFieldName)), "layer id field");
    var tags :- Wrap(conf.strSlice(KeyFields), "layer fields");
    var layer := ZeroLayer.(name := name);
    match kind
    case FromTable => TableLayer(layer, idFieldname, tags, conf, db, helpers)
    case FromSQL => SQLLayer(layer, conf, db, helpers)
  }

  /** AddLayer, corrected: the layer it stores, or the error it returns. */
  function AddLayerSpec(conf: Dicter, db: GpkgDb, helpers: GpkgHelpers): Result<GpkgLayer, Error> {
    var name :- LayerName(conf);
    var kind :- SourceOf(conf);
    BuildFrom(name, kind, conf, db, helpers)
  }

  /**
   * What a configured layer looks like: named as configured, with an empty
   * id, and built from whichever source key was present, with the custom-SQL
   * defaults where it was `sql`.
   */
  lemma AddedLayerShape(conf: Dicter, db: GpkgDb, helpers: GpkgHelpers)
    requires AddLayerSpec(conf, db, helpers).Success?
    ensures var l := AddLayerSpec(conf, db, helpers).value;
            l.name != "" && conf.str(KeyLayerName, None) == Success(l.name) && l.id == "" &&
            conf.strSlice(KeyFields).Success? &&
            conf.str(KeyGeomIDField, Some(DefaultIDFieldName)).Success? &&
            l.geomType.Some?
    ensures var l := AddLayerSpec(conf, db, helpers).value;
            SourceOf(conf) == Success(FromTable) ==>
              l.sql == "" && GpkgName(l.geomType.value).Some? &&
              conf.str(KeyTableName, Some(conf.str(KeyGeomIDField, Some(DefaultIDFieldName)).value)) == Success(l.tablename)
    ensures var l := AddLayerSpec(conf, db, helpers).value;
            SourceOf(conf) == Success(FromSQL) ==>
              l.tablename == "" && l.tagFieldnames == [] &&
              l.geomFieldname == DefaultGeomFieldName && l.idFieldname == DefaultIDFieldName &&
              conf.str(KeySQL, Some("")) == Success(l.sql)
  {
    var kind := SourceOf(conf).value;
    var idf := conf.str(KeyGeomIDField, Some(DefaultIDFieldName)).value;
    var layer := ZeroLayer.(name := LayerName(conf).value);
    if kind == FromTable {
      var tags := conf.strSlice(KeyFields).value;
      var meta := db.tableMetadata(conf.str(KeyTableName, Some(idf)).value).value;
      var tg := GeomNameToGeom(meta.geomTypeName).value;
      GeomNameAccepted(meta.geomTypeName);
    }
  }

  /** Both or neither of `tablename`/`sql`, each otherwise readable, is refused after the name check. */
  lemma BothOrNeitherRefused(conf: Dicter, db: GpkgDb, helpers: GpkgHelpers)
    requires LayerName(conf).Success?
    requires (conf.str(KeyTableName, None).Success? && conf.str(KeySQL, None).Success?) ||
             (conf.str(KeyTableName, None) == Failure(ErrKeyRequired(KeyTableName)) && conf.str(KeySQL, None) == Failure(ErrKeyRequired(KeySQL)))
    ensures AddLayerSpec(conf, db, helpers) == Failure(ErrTableOrSQLRequired)
  {
  }

  /** What AddLayer as written returns and stores. */
  datatype Outcome = Outcome(err: Option<Error>, added: Option<GpkgLayer>)

  /** AddLayer as written, with the nil return of an unexpected lookup error. */
  function AddLayerAsWritten(conf: Dicter, db: GpkgDb, helpers: GpkgHelpers): Outcome {
    match LayerName(conf)
    case Failure(e) => Outcome(Some(e), None)
    case Success(name) =>
      match SourceOfAsWritten(conf)
      case Failure(e) => Outcome(e, None)
      case Success(kind) =>
        match BuildFrom(name, kind, conf, db, helpers)
        case Failure(e) => Outcome(Some(e), None)
        case Success(l) => Outcome(None, Some(l))
  }

  /** Whatever AddLayer as written adds is the layer the corrected AddLayer builds. */
  lemma AddedAsWrittenIsAdded(conf: Dicter, db: GpkgDb, helpers: GpkgHelpers)
    ensures AddLayerAsWritten(conf, db, helpers).added.Some? <==> AddLayerSpec(conf, db, helpers).Success?
    ensures AddLayerAsWritten(conf, db, helpers).added.Some? ==>
              AddLayerSpec(conf, db, helpers).value == AddLayerAsWritten(conf, db, helpers).added.value
  {
  }

  /** The two agree on every configuration whose source keys read or are merely missing. */
  lemma AsWrittenAgreesOtherwise(conf: Dicter, db: GpkgDb, helpers: GpkgHelpers)
    requires !Unexpected(conf.str(KeyTableName, None).Err()) && !Unexpected(conf.str(KeySQL, None).Err())
    ensures var r := AddLayerSpec(conf, db, helpers);
            AddLayerAsWritten(conf, db, helpers) ==
              if r.Success? then Outcome(None, Some(r.value)) else Outcome(Some(r.error), None)
  {
  }

  /**
   * As written, a named layer whose `tablename` (or `sql`) lookup fails for
   * any reason but absence is neither added nor reported: AddLayer returns
   * nil.  The corrected AddLayer returns that lookup error.
   */
  lemma AsWrittenDropsLookupError(conf: Dicter, db: GpkgDb, helpers: GpkgHelpers)
    requires LayerName(conf).Success?
    requires Unexpected(conf.str(KeyTableName, None).Err())
    ensures AddLayerAsWritten(conf, db, helpers) == Outcome(None, None)
    ensures AddLayerSpec(conf, db, helpers) == Failure(conf.str(KeyTableName, None).error)
  {
  }

  /** A configuration whose `tablename` holds a number instead of a string. */
  function MistypedTableConf(): Dicter {
    Dicter(
      (key: string, def: Option<string>) =>
        if key == KeyLayerName then Success("roads")
        else if key == KeyTableName then Failure(ErrKeyType(KeyTableName))
        else Failure(ErrKeyRequired(key)),
      (key: string, def: Option<int>) => Failure(ErrKeyRequired(key)),
      (key: string) => Success([]),
      (key: string) => Success([]))
  }

  /** The concrete case: layer "roads" with `tablename = 7` is silently skipped as written. */
  lemma MistypedTableSilentlySkipped(db: GpkgDb, helpers: GpkgHelpers)
    ensures AddLayerAsWritten(MistypedTableConf(), db, helpers) == Outcome(None, None)
    ensures AddLayerSpec(MistypedTableConf(), db, helpers) == Failure(ErrKeyType(KeyTableName))
  {
    AsWrittenDropsLookupError(MistypedTableConf(), db, helpers);
  }

  // ---------------------------------------------------------------------------
  // TileFeatures: the query

  /** `p.layers[layer]`: a missing name reads as the zero Layer. */
  function LayerOrZero(layers: map<string, GpkgLayer>, name: string): GpkgLayer {
    if name in layers then layers[name] else ZeroLayer
  }

  /** The select-list entries for the tag columns, in configured order. */
  function TagSelect(fields: seq<string>): string {
    if fields == [] then "" else TagSelect(fields[..|fields| - 1]) + ", l.`" + fields[|fields| - 1] + "`"
  }

  /** The id and geometry columns the tile query selects first. */
  function SelectHead(l: GpkgLayer): string {
    "SELECT l.`" + l.idFieldname + "`, l.`" + l.geomFieldname + "`"
  }

  /** The layer's R-tree spatial index table. */
  function RtreeName(l: GpkgLayer): string {
    "rtree_" + l.tablename + "_" + l.geomFieldname
  }

  /** The table joined with its spatial index, up to the geometry column of the filter. */
  function JoinClause(l: GpkgLayer): string {
    " FROM `" + l.tablename + "` l JOIN `" + RtreeName(l) + "` si ON l.`" + l.idFieldname + "` = si.id WHERE l.`" + l.geomFieldname
  }

  /** The filter on a present geometry inside the bounding-box token, and the order by id. */
  function FilterClause(l: GpkgLayer): string {
    "` IS NOT NULL AND " + (BBoxToken + (" ORDER BY l.`" + l.idFieldname + "`"))
  }

  /** The tile query of a table layer, before its tokens are replaced. */
  function TableQuery(l: GpkgLayer): string {
    SelectHead(l) + (TagSelect(l.tagFieldnames) + (JoinClause(l) + FilterClause(l)))
  }

  /** Each tag column is selected, in order: the select list is extended one column at a time. */
  lemma {:induction false} TagSelectLists(fields: seq<string>, k: nat)
    requires k < |fields|
    ensures Contains(TagSelect(fields), ", l.`" + fields[k] + "`")
    ensures TagSelect(fields[..k + 1]) <= TagSelect(fields)
    decreases |fields|
  {
    var init := fields[..|fields| - 1];
    var entry := ", l.`" + fields[|fields| - 1] + "`";
    assert TagSelect(fields) == TagSelect(init) + entry;
    if k == |fields| - 1 {
      assert fields[..k + 1] == fields;
      ContainsPrefix(entry, entry);
      ContainsAppendLeft(TagSelect(init), entry, entry);
    } else {
      TagSelectLists(init, k);
      assert init[..k + 1] == fields[..k + 1];
      ContainsAppendRight(TagSelect(init), entry, ", l.`" + fields[k] + "`");
    }
  }

  /** A prefix of `b` stays a prefix of `b` once a head and a tail are added. */
  lemma PrefixWithin(h: string, a: string, b: string, t: string)
    requires a <= b
    ensures h + a <= h + (b + t)
  {
    assert (h + (b + t))[..|h + a|] == h + a;
  }

  /**
   * The table query starts with the id and geometry columns and then
   * selects every tag column, in configured order.
   */
  lemma TableQuerySelects(l: GpkgLayer)
    ensures SelectHead(l) <= TableQuery(l)
    ensures forall k :: 0 <= k < |l.tagFieldnames| ==>
              Contains(TableQuery(l), ", l.`" + l.tagFieldnames[k] + "`") &&
              SelectHead(l) + TagSelect(l.tagFieldnames[..k + 1]) <= TableQuery(l)
  {
    forall k | 0 <= k < |l.tagFieldnames|
      ensures Contains(TableQuery(l), ", l.`" + l.tagFieldnames[k] + "`")
      ensures SelectHead(l) + TagSelect(l.tagFieldnames[..k + 1]) <= TableQuery(l)
    {
      TagWithin(SelectHead(l), l.tagFieldnames, k, JoinClause(l) + FilterClause(l));
    }
  }

  /** `s` ends with `suffix`. */
  predicate EndsIn(s: string, suffix: string) {
    |suffix| <= |s| && s[|s| - |suffix|..] == suffix
  }

  /** The last part of a concatenation is its suffix. */
  lemma EndsWith(a: string, b: string, c: string, d: string)
    ensures EndsIn(a + (b + (c + d)), d)
  {
    var s := a + (b + (c + d));
    assert s == (a + b + c) + d;
  }

  /** A tag column's select entry, and the select list up to it, inside a query built around the list. */
  lemma TagWithin(head: string, fields: seq<string>, k: nat, tail: string)
    requires k < |fields|
    ensures Contains(head + (TagSelect(fields) + tail), ", l.`" + fields[k] + "`")
    ensures head + TagSelect(fields[..k + 1]) <= head + (TagSelect(fields) + tail)
  {
    var entry := ", l.`" + fields[k] + "`";
    TagSelectLists(fields, k);
    PrefixWithin(head, TagSelect(fields[..k + 1]), TagSelect(fields), tail);
    ContainsAppendRight(TagSelect(fields), tail, entry);
    ContainsAppendLeft(head, TagSelect(fields) + tail, entry);
  }

  /** The table query ends with the filter clause. */
  lemma TableQueryFilters(l: GpkgLayer)
    ensures EndsIn(TableQuery(l), FilterClause(l))
  {
    EndsWith(SelectHead(l), TagSelect(l.tagFieldnames), JoinClause(l), FilterClause(l));
  }

  /** The filter clause keeps rows with a geometry inside the bounding-box token. */
  lemma FilterHasBBox(l: GpkgLayer)
    ensures Contains(FilterClause(l), BBoxToken)
  {
    var after := " ORDER BY l.`" + l.idFieldname + "`";
    ContainsPrefix(BBoxToken + after, BBoxToken);
    ContainsAppendLeft("` IS NOT NULL AND ", BBoxToken + after, BBoxToken);
  }

  /** The tile's buffered extent, reprojected corner by corner when the layer is not in WebMercator. */
  function TileBBox(l: GpkgLayer, tile: Tile, helpers: GpkgHelpers): Result<Extent, Error> {
    var b := helpers.bufferedExtent(tile);
    if l.srid == WebMercator then Success(b)
    else
      var lo :- Wrap(helpers.fromWebMercator(l.srid, Point2(b.minX, b.minY)), "error converting point");
      var hi :- Wrap(helpers.fromWebMercator(l.srid, Point2(b.maxX, b.maxY)), "error converting point");
      Success(NewExtent(lo, hi))
  }

  /** The query TileFeatures runs: the table query, or the layer's custom SQL, with tokens replaced. */
  function TileQuery(l: GpkgLayer, tile: Tile, helpers: GpkgHelpers): Result<string, Error> {
    var bbox :- TileBBox(l, tile, helpers);
    if l.tablename != "" then Success(helpers.replaceTokens(TableQuery(l), tile.z, bbox))
    else Success(helpers.replaceTokens(l.sql, tile.z, bbox))
  }

  // ---------------------------------------------------------------------------
  // TileFeatures: decoding a row

  /** The bounding-box and zoom columns a row may carry, which never become tags. */
  const SkippedColumns: set<string> := {"minx", "miny", "maxx", "maxy", "min_zoom", "max_zoom"}

  /** The feature a row starts from: id 0, no geometry, SRID 0, no tags. */
  const EmptyFeature := Feature(0, None, 0, map[])

  /** A column whose non-nil value is a tag. */
  predicate IsTagColumn(l: GpkgLayer, c: string) {
    c != l.idFieldname && c != l.geomFieldname && c !in SkippedColumns
  }

  /** Go's string(b) of a byte slice: one character per byte. */
  function BytesToString(b: seq<bv8>): (s: string)
    ensures |s| == |b| && forall k :: 0 <= k < |b| ==> s[k] as int == b[k] as int
  {
    seq(|b|, k requires 0 <= k < |b| => (b[k] as int) as char)
  }

  /** The tag a column value becomes: blobs as text, integers and text kept, anything else dropped. */
  function TagOf(v: Value): Option<TagValue> {
    match v
    case Bytes(b) => Some(TagString(BytesToString(b)))
    case Int64(i) => Some(TagInt(i))
    case Text(t) => Some(TagString(t))
    case _ => None
  }

  /**
   * One column of a row applied to the feature `f`: a nil value is skipped;
   * the id column gives the feature id, the geometry column (which must be a
   * blob) the geometry and SRID; bounding-box and zoom columns are skipped;
   * any other value is a tag.  Only the id and geometry columns can fail.
   */
  function DecodeColumn(l: GpkgLayer, c: string, v: Value, helpers: GpkgHelpers, f: Feature): (r: Result<Feature, Error>)
    ensures r.Failure? ==> !v.Null? && (c == l.idFieldname || c == l.geomFieldname)
    ensures r.Success? ==> r.value.tags == if IsTagColumn(l, c) && TagOf(v).Some? then f.tags[c := TagOf(v).value] else f.tags
    ensures r.Success? && c != l.idFieldname ==> r.value.id == f.id
    ensures r.Success? && (c != l.geomFieldname || c == l.idFieldname) ==> r.value.geometry == f.geometry && r.value.srid == f.srid
    ensures v.Null? ==> r == Success(f)
    ensures !v.Null? && c == l.idFieldname ==>
              (r.Success? <==> helpers.convertFeatureID(v).Success?) &&
              (r.Success? ==> r.value.id == helpers.convertFeatureID(v).value) &&
              (r.Failure? ==> r.error == helpers.convertFeatureID(v).error)
    ensures !v.Null? && c != l.idFieldname && c == l.geomFieldname && !v.Bytes? ==> r == Failure(ErrGeomNotBlob)
    ensures !v.Null? && c != l.idFieldname && c == l.geomFieldname && v.Bytes? ==>
              var d := helpers.decodeGeometry(v.bytes);
              (r.Success? <==> d.Success?) &&
              (r.Success? ==> r.value.geometry == Some(d.value.geometry) && r.value.srid == Uint64(d.value.srsID)) &&
              (r.Failure? ==> r.error == d.error)
  {
    if v.Null? then Success(f)
    else if c == l.idFieldname then
      match helpers.convertFeatureID(v)
      case Failure(e) => Failure(e)
      case Success(id) => Success(f.(id := id))
    else if c == l.geomFieldname then
      if !v.Bytes? then Failure(ErrGeomNotBlob)
      else
        match helpers.decodeGeometry(v.bytes)
        case Failure(e) => Failure(e)
        case Success(d) => Success(f.(srid := Uint64(d.srsID), geometry := Some(d.geometry)))
    else if c in SkippedColumns then Success(f)
    else
      match TagOf(v)
      case Some(t) => Success(f.(tags := f.tags[c := t]))
      case None => Success(f)
  }

  /** The loop over columns `j..` of one row: the context is checked before each column (check `n + j`). */
  function DecodeColumns(l: GpkgLayer, cols: seq<string>, vals: seq<Value>, j: nat, ctx: Context, n: nat, helpers: GpkgHelpers, f: Feature): Result<Feature, Error>
    requires |vals| == |cols| && j <= |cols|
    decreases |cols| - j
  {
    if j == |cols| then Success(f)
    else if ctx(n + j).Some? then Failure(ctx(n + j).value)
    else
      match DecodeColumn(l, cols[j], vals[j], helpers, f)
      case Failure(e) => Failure(e)
      case Success(f') => DecodeColumns(l, cols, vals, j + 1, ctx, n, helpers, f')
  }

  /** Tags are only ever keyed by tag columns of the row. */
  ghost predicate TagsFromColumns(l: GpkgLayer, cols: seq<string>, tags: map<string, TagValue>) {
    forall c :: c in tags ==> c in cols && IsTagColumn(l, c)
  }

  lemma {:induction false} DecodedTagsFromColumns(l: GpkgLayer, cols: seq<string>, vals: seq<Value>, j: nat, ctx: Context, n: nat, helpers: GpkgHelpers, f: Feature)
    requires |vals| == |cols| && j <= |cols|
    requires TagsFromColumns(l, cols, f.tags)
    ensures var r := DecodeColumns(l, cols, vals, j, ctx, n, helpers, f);
            r.Success? ==> TagsFromColumns(l, cols, r.value.tags)
    decreases |cols| - j
  {
    if j < |cols| && ctx(n + j).None? {
      var step := DecodeColumn(l, cols[j], vals[j], helpers, f);
      if step.Success? {
        DecodedTagsFromColumns(l, cols, vals, j + 1, ctx, n, helpers, step.value);
      }
    }
  }

  /**
   * With distinct column names, each tag column's value is the feature's
   * tag: a blob, integer or text value under the column's name, and no tag
   * for a nil value or a value of another type.
   */
  lemma {:induction false} DecodedTagValues(l: GpkgLayer, cols: seq<string>, vals: seq<Value>, j: nat, ctx: Context, n: nat, helpers: GpkgHelpers, f: Feature)
    requires |vals| == |cols| && j <= |cols|
    requires forall a, b :: 0 <= a < b < |cols| ==> cols[a] != cols[b]
    requires forall k :: j <= k < |cols| ==> cols[k] !in f.tags
    ensures var r := DecodeColumns(l, cols, vals, j, ctx, n, helpers, f);
            r.Success? ==>
              forall k :: j <= k < |cols| && IsTagColumn(l, cols[k]) ==>
                (TagOf(vals[k]).Some? ==> cols[k] in r.value.tags && r.value.tags[cols[k]] == TagOf(vals[k]).value) &&
                (TagOf(vals[k]).None? ==> cols[k] !in r.value.tags)
    decreases |cols| - j
  {
    if j < |cols| && ctx(n + j).None? {
      var step := DecodeColumn(l, cols[j], vals[j], helpers, f);
      if step.Success? {
        var f' := step.value;
        DecodedTagValues(l, cols, vals, j + 1, ctx, n, helpers, f');
        if cols[j] in f'.tags {
          DecodedTagKept(l, cols, vals, j + 1, ctx, n, helpers, f', cols[j]);
        } else {
          DecodedTagAbsent(l, cols, vals, j + 1, ctx, n, helpers, f', cols[j]);
        }
      }
    }
  }

  /** A tag set before columns `j..` survives them when none of them has its name. */
  lemma {:induction false} DecodedTagKept(l: GpkgLayer, cols: seq<string>, vals: seq<Value>, j: nat, ctx: Context, n: nat, helpers: GpkgHelpers, f: Feature, c: string)
    requires |vals| == |cols| && j <= |cols|
    requires c in f.tags && forall k :: j <= k < |cols| ==> cols[k] != c
    ensures var r := DecodeColumns(l, cols, vals, j, ctx, n, helpers, f);
            r.Success? ==> c in r.value.tags && r.value.tags[c] == f.tags[c]
    decreases |cols| - j
  {
    if j < |cols| && ctx(n + j).None? {
      var step := DecodeColumn(l, cols[j], vals[j], helpers, f);
      if step.Success? {
        DecodedTagKept(l, cols, vals, j + 1, ctx, n, helpers, step.value, c);
      }
    }
  }

  /** A name absent before columns `j..` stays absent when none of them has it. */
  lemma {:induction false} DecodedTagAbsent(l: GpkgLayer, cols: seq<string>, vals: seq<Value>, j: nat, ctx: Context, n: nat, helpers: GpkgHelpers, f: Feature, c: string)
    requires |vals| == |cols| && j <= |cols|
    requires c !in f.tags && forall k :: j <= k < |cols| ==> cols[k] != c
    ensures var r := DecodeColumns(l, cols, vals, j, ctx, n, helpers, f);
            r.Success? ==> c !in r.value.tags
    decreases |cols| - j
  {
    if j < |cols| && ctx(n + j).None? {
      var step := DecodeColumn(l, cols[j], vals[j], helpers, f);
      if step.Success? {
        DecodedTagAbsent(l, cols, vals, j + 1, ctx, n, helpers, step.value, c);
      }
    }
  }

  /** The context checked before column `j` ends the row with its error. */
  lemma CancelledBeforeColumn(l: GpkgLayer, cols: seq<string>, vals: seq<Value>, j: nat, ctx: Context, n: nat, helpers: GpkgHelpers, f: Feature)
    requires |vals| == |cols| && j < |cols| && ctx(n + j).Some?
    ensures DecodeColumns(l, cols, vals, j, ctx, n, helpers, f) == Failure(ctx(n + j).value)
  {
  }

  /** Columns `j..` leave the id alone when none is the id column, and the geometry and SRID when none is the geometry column. */
  lemma {:induction false} DecodedFieldsKept(l: GpkgLayer, cols: seq<string>, vals: seq<Value>, j: nat, ctx: Context, n: nat, helpers: GpkgHelpers, f: Feature)
    requires |vals| == |cols| && j <= |cols|
    ensures var r := DecodeColumns(l, cols, vals, j, ctx, n, helpers, f);
            r.Success? && (forall k :: j <= k < |cols| ==> cols[k] != l.idFieldname) ==> r.value.id == f.id
    ensures var r := DecodeColumns(l, cols, vals, j, ctx, n, helpers, f);
            r.Success? && (forall k :: j <= k < |cols| ==> cols[k] != l.geomFieldname) ==>
              r.value.geometry == f.geometry && r.value.srid == f.srid
    decreases |cols| - j
  {
    if j < |cols| && ctx(n + j).None? {
      var step := DecodeColumn(l, cols[j], vals[j], helpers, f);
      if step.Success? {
        DecodedFieldsKept(l, cols, vals, j + 1, ctx, n, helpers, step.value);
      }
    }
  }

  /**
   * With distinct column names, a decoded row's id is what ConvertFeatureID
   * makes of its non-nil id column, and its geometry and SRID are those the
   * geometry column's blob decodes to.
   */
  lemma {:induction false} DecodedIdAndGeometry(l: GpkgLayer, cols: seq<string>, vals: seq<Value>, j: nat, ctx: Context, n: nat, helpers: GpkgHelpers, f: Feature)
    requires |vals| == |cols| && j <= |cols|
    requires forall a, b :: 0 <= a < b < |cols| ==> cols[a] != cols[b]
    ensures var r := DecodeColumns(l, cols, vals, j, ctx, n, helpers, f);
            r.Success? ==>
              forall k :: j <= k < |cols| && cols[k] == l.idFieldname && !vals[k].Null? ==>
                helpers.convertFeatureID(vals[k]).Success? && r.value.id == helpers.convertFeatureID(vals[k]).value
    ensures var r := DecodeColumns(l, cols, vals, j, ctx, n, helpers, f);
            r.Success? ==>
              forall k :: j <= k < |cols| && cols[k] == l.geomFieldname != l.idFieldname && !vals[k].Null? ==>
                vals[k].Bytes? && helpers.decodeGeometry(vals[k].bytes).Success? &&
                r.value.geometry == Some(helpers.decodeGeometry(vals[k].bytes).value.geometry) &&
                r.value.srid == Uint64(helpers.decodeGeometry(vals[k].bytes).value.srsID)
    decreases |cols| - j
  {
    if j < |cols| && ctx(n + j).None? {
      var step := DecodeColumn(l, cols[j], vals[j], helpers, f);
      if step.Success? {
        DecodedIdAndGeometry(l, cols, vals, j + 1, ctx, n, helpers, step.value);
        DecodedFieldsKept(l, cols, vals, j + 1, ctx, n, helpers, step.value);
      }
    }
  }

  // ---------------------------------------------------------------------------
  // TileFeatures: the rows

  /**
   * The loop over rows `i..`: the context is checked before each row (check
   * `i * (|cols| + 1)`, the row's columns taking the next ones); a row that
   * does not scan, or scans into a different number of columns, ends the
   * call; each decoded row is handed to `fn`, whose error ends the call.
   * rows.Err() is not consulted.
   */
  function RowsFeatures(l: GpkgLayer, cols: seq<string>, rows: seq<Row>, i: nat, ctx: Context, fn: Callback, helpers: GpkgHelpers, emitted: seq<Feature>): Stream
    requires i <= |rows|
    decreases |rows| - i
  {
    if i == |rows| then Stream(emitted, None)
    else
      var base := i * (|cols| + 1);
      if ctx(base).Some? then Stream(emitted, ctx(base))
      else
        match rows[i]
        case Failure(e) => Stream(emitted, Some(e))
        case Success(vals) =>
          if |vals| != |cols| then Stream(emitted, Some(ErrScanColumns(|cols|, |vals|)))
          else
            match DecodeColumns(l, cols, vals, 0, ctx, base + 1, helpers, EmptyFeature)
            case Failure(e) => Stream(emitted, Some(e))
            case Success(f) =>
              match fn(|emitted|, f)
              case Some(e) => Stream(emitted + [f], Some(e))
              case None => RowsFeatures(l, cols, rows, i + 1, ctx, fn, helpers, emitted + [f])
  }

  /** TileFeatures: the layer's query, then its rows. */
  function TileFeaturesSpec(layers: map<string, GpkgLayer>, name: string, tile: Tile, ctx: Context, fn: Callback, db: GpkgDb, helpers: GpkgHelpers): Stream {
    var l := LayerOrZero(layers, name);
    match TileQuery(l, tile, helpers)
    case Failure(e) => Stream([], Some(e))
    case Success(q) =>
      match db.query(q)
      case Failure(e) => Stream([], Some(e))
      case Success(rows) => RowsFeatures(l, rows.columns, rows.rows, 0, ctx, fn, helpers, [])
  }

  /** Every feature handed over has tags only under the row's tag columns. */
  lemma {:induction false} StreamedTagsFromColumns(l: GpkgLayer, cols: seq<string>, rows: seq<Row>, i: nat, ctx: Context, fn: Callback, helpers: GpkgHelpers, emitted: seq<Feature>)
    requires i <= |rows|
    requires forall f :: f in emitted ==> TagsFromColumns(l, cols, f.tags)
    ensures forall f :: f in RowsFeatures(l, cols, rows, i, ctx, fn, helpers, emitted).emitted ==> TagsFromColumns(l, cols, f.tags)
    decreases |rows| - i
  {
    var base := i * (|cols| + 1);
    if i < |rows| && ctx(base).None? && rows[i].Success? && |rows[i].value| == |cols| {
      DecodedTagsFromColumns(l, cols, rows[i].value, 0, ctx, base + 1, helpers, EmptyFeature);
      var d := DecodeColumns(l, cols, rows[i].value, 0, ctx, base + 1, helpers, EmptyFeature);
      if d.Success? && fn(|emitted|, d.value).None? {
        StreamedTagsFromColumns(l, cols, rows, i + 1, ctx, fn, helpers, emitted + [d.value]);
      }
    }
  }

  /**
   * The callback is handed each feature once, numbered in order; the first
   * error it returns ends the stream and is the call's error, unchanged.
   */
  lemma {:induction false} CallbackErrorEnds(l: GpkgLayer, cols: seq<string>, rows: seq<Row>, i: nat, ctx: Context, fn: Callback, helpers: GpkgHelpers, emitted: seq<Feature>)
    requires i <= |rows|
    requires forall k :: 0 <= k < |emitted| ==> fn(k, emitted[k]).None?
    ensures var s := RowsFeatures(l, cols, rows, i, ctx, fn, helpers, emitted);
            emitted <= s.emitted && |s.emitted| <= |emitted| + |rows| - i &&
            forall k :: 0 <= k < |s.emitted| && fn(k, s.emitted[k]).Some? ==> k == |s.emitted| - 1 && s.err == fn(k, s.emitted[k])
    decreases |rows| - i
  {
    var base := i * (|cols| + 1);
    if i < |rows| && ctx(base).None? && rows[i].Success? && |rows[i].value| == |cols| {
      var d := DecodeColumns(l, cols, rows[i].value, 0, ctx, base + 1, helpers, EmptyFeature);
      if d.Success? && fn(|emitted|, d.value).None? {
        CallbackErrorEnds(l, cols, rows, i + 1, ctx, fn, helpers, emitted + [d.value]);
      }
    }
  }

  /** Row `k` passes the context check before it, scans into one value per column and decodes. */
  predicate RowStreams(l: GpkgLayer, cols: seq<string>, rows: seq<Row>, k: nat, ctx: Context, helpers: GpkgHelpers)
    requires k < |rows|
  {
    ctx(k * (|cols| + 1)).None? && rows[k].Success? && |rows[k].value| == |cols| &&
    DecodeColumns(l, cols, rows[k].value, 0, ctx, k * (|cols| + 1) + 1, helpers, EmptyFeature).Success?
  }

  /** The feature a row that streams decodes to. */
  function RowFeature(l: GpkgLayer, cols: seq<string>, rows: seq<Row>, k: nat, ctx: Context, helpers: GpkgHelpers): Feature
    requires k < |rows| && RowStreams(l, cols, rows, k, ctx, helpers)
  {
    DecodeColumns(l, cols, rows[k].value, 0, ctx, k * (|cols| + 1) + 1, helpers, EmptyFeature).value
  }

  /** The features rows `i..j` decode to, one per row, in order. */
  function DecodedRows(l: GpkgLayer, cols: seq<string>, rows: seq<Row>, i: nat, j: nat, ctx: Context, helpers: GpkgHelpers): (r: seq<Feature>)
    requires i <= j <= |rows|
    requires forall k :: i <= k < j ==> RowStreams(l, cols, rows, k, ctx, helpers)
    ensures |r| == j - i
    ensures forall k :: i <= k < j ==> r[k - i] == RowFeature(l, cols, rows, k, ctx, helpers)
    decreases j - i
  {
    if i == j then []
    else [RowFeature(l, cols, rows, i, ctx, helpers)] + DecodedRows(l, cols, rows, i + 1, j, ctx, helpers)
  }

  /** A row that streams and whose feature the callback accepts hands it over and moves on to the next row. */
  lemma RowStep(l: GpkgLayer, cols: seq<string>, rows: seq<Row>, i: nat, ctx: Context, fn: Callback, helpers: GpkgHelpers, emitted: seq<Feature>)
    requires i < |rows| && RowStreams(l, cols, rows, i, ctx, helpers)
    requires fn(|emitted|, RowFeature(l, cols, rows, i, ctx, helpers)).None?
    ensures RowsFeatures(l, cols, rows, i, ctx, fn, helpers, emitted) ==
            RowsFeatures(l, cols, rows, i + 1, ctx, fn, helpers, emitted + [RowFeature(l, cols, rows, i, ctx, helpers)])
  {
  }

  /** Rows `i..j` that stream, under a callback that accepts everything, hand over their features and leave the rest of the loop from row `j`. */
  lemma {:induction false} StreamsThrough(l: GpkgLayer, cols: seq<string>, rows: seq<Row>, i: nat, j: nat, ctx: Context, fn: Callback, helpers: GpkgHelpers, emitted: seq<Feature>)
    requires i <= j <= |rows|
    requires forall k :: i <= k < j ==> RowStreams(l, cols, rows, k, ctx, helpers)
    requires forall k, f :: fn(k, f).None?
    ensures RowsFeatures(l, cols, rows, i, ctx, fn, helpers, emitted) ==
            RowsFeatures(l, cols, rows, j, ctx, fn, helpers, emitted + DecodedRows(l, cols, rows, i, j, ctx, helpers))
    decreases j - i
  {
    if i < j {
      assert RowStreams(l, cols, rows, i, ctx, helpers);
      var f := RowFeature(l, cols, rows, i, ctx, helpers);
      RowStep(l, cols, rows, i, ctx, fn, helpers, emitted);
      StreamsThrough(l, cols, rows, i + 1, j, ctx, fn, helpers, emitted + [f]);
      var rest := DecodedRows(l, cols, rows, i + 1, j, ctx, helpers);
      assert DecodedRows(l, cols, rows, i, j, ctx, helpers) == [f] + rest;
      assert emitted + [f] + rest == emitted + ([f] + rest);
    } else {
      assert emitted + DecodedRows(l, cols, rows, i, j, ctx, helpers) == emitted;
    }
  }

  /**
   * When every row streams and the callback accepts everything, the call
   * hands over exactly one feature per row, in order, each the decoded row,
   * and returns no error.
   */
  lemma EveryRowStreamed(l: GpkgLayer, cols: seq<string>, rows: seq<Row>, ctx: Context, fn: Callback, helpers: GpkgHelpers)
    requires forall k :: 0 <= k < |rows| ==> RowStreams(l, cols, rows, k, ctx, helpers)
    requires forall k, f :: fn(k, f).None?
    ensures RowsFeatures(l, cols, rows, 0, ctx, fn, helpers, []) == Stream(DecodedRows(l, cols, rows, 0, |rows|, ctx, helpers), None)
  {
    StreamsThrough(l, cols, rows, 0, |rows|, ctx, fn, helpers, []);
  }

  /**
   * A context found cancelled before row `j` ends the call with its error,
   * after the features of the rows before it.
   */
  lemma CancelledBeforeRow(l: GpkgLayer, cols: seq<string>, rows: seq<Row>, j: nat, ctx: Context, fn: Callback, helpers: GpkgHelpers)
    requires j < |rows|
    requires forall k :: 0 <= k < j ==> RowStreams(l, cols, rows, k, ctx, helpers)
    requires forall k, f :: fn(k, f).None?
    requires ctx(j * (|cols| + 1)).Some?
    ensures RowsFeatures(l, cols, rows, 0, ctx, fn, helpers, []) == Stream(DecodedRows(l, cols, rows, 0, j, ctx, helpers), ctx(j * (|cols| + 1)))
  {
    StreamsThrough(l, cols, rows, 0, j, ctx, fn, helpers, []);
  }

  /**
   * A row that does not scan, scans into the wrong number of values, or
   * fails to decode (a cancelled context before one of its columns, an id
   * ConvertFeatureID rejects, a geometry that is no blob or does not decode)
   * ends the call with that error, after the features of the rows before it.
   */
  lemma RowErrorEnds(l: GpkgLayer, cols: seq<string>, rows: seq<Row>, j: nat, ctx: Context, fn: Callback, helpers: GpkgHelpers)
    requires j < |rows|
    requires forall k :: 0 <= k < j ==> RowStreams(l, cols, rows, k, ctx, helpers)
    requires forall k, f :: fn(k, f).None?
    requires ctx(j * (|cols| + 1)).None?
    ensures var s := RowsFeatures(l, cols, rows, 0, ctx, fn, helpers, []);
            var before := DecodedRows(l, cols, rows, 0, j, ctx, helpers);
            && (rows[j].Failure? ==> s == Stream(before, Some(rows[j].error)))
            && (rows[j].Success? && |rows[j].value| != |cols| ==> s == Stream(before, Some(ErrScanColumns(|cols|, |rows[j].value|))))
            && (rows[j].Success? && |rows[j].value| == |cols| ==>
                  var d := DecodeColumns(l, cols, rows[j].value, 0, ctx, j * (|cols| + 1) + 1, helpers, EmptyFeature);
                  d.Failure? ==> s == Stream(before, Some(d.error)))
  {
    StreamsThrough(l, cols, rows, 0, j, ctx, fn, helpers, []);
  }

  // ---------------------------------------------------------------------------
  // Layers

  /** `ls` lists the layers named in `seen`, each once, under its own name. */
  ghost predicate ListsLayers(m: map<string, GpkgLayer>, seen: set<string>, ls: seq<LayerInfo>) {
    seen <= m.Keys &&
    (forall name :: name in seen ==> Info(m[name]) in ls) &&
    (forall k :: 0 <= k < |ls| ==> ls[k].name in seen && ls[k] == Info(m[ls[k].name])) &&
    (forall a, b :: 0 <= a < b < |ls| ==> ls[a].name != ls[b].name)
  }

  lemma {:induction false} ListOneMore(m: map<string, GpkgLayer>, seen: set<string>, ls: seq<LayerInfo>, name: string)
    requires name in m && name !in seen && m[name].name == name
    requires ListsLayers(m, seen, ls)
    ensures ListsLayers(m, seen + {name}, ls + [Info(m[name])])
  {
    var ls' := ls + [Info(m[name])];
    forall n | n in seen + {name}
      ensures Info(m[n]) in ls'
    {
      if n != name {
        var k :| 0 <= k < |ls| && ls[k] == Info(m[n]);
        assert ls'[k] == Info(m[n]);
      } else {
        assert ls'[|ls|] == Info(m[name]);
      }
    }
    forall a, b | 0 <= a < b < |ls'|
      ensures ls'[a].name != ls'[b].name
    {
      if b == |ls| {
        assert ls'[a] == ls[a];
      }
    }
  }

  /** The state of the Layers loop: slots `..i` hold, each once, the layers named in `seen`. */
  ghost predicate Filling(m: map<string, GpkgLayer>, seen: set<string>, listed: seq<LayerInfo>, ls: seq<LayerInfo>, i: nat) {
    i == |seen| == |listed| <= |ls| == |m| && ls[..i] == listed && ListsLayers(m, seen, listed)
  }

  /** One slot of the Layers loop: the next unlisted layer is written at index `i`. */
  lemma FillStep(m: map<string, GpkgLayer>, seen: set<string>, listed: seq<LayerInfo>, ls: seq<LayerInfo>, i: nat, name: string)
    requires forall n :: n in m ==> m[n].name == n
    requires Filling(m, seen, listed, ls, i) && name in m.Keys - seen
    ensures i < |ls| && Filling(m, seen + {name}, listed + [Info(m[name])], ls[i := Info(m[name])], i + 1)
    ensures |m.Keys - (seen + {name})| < |m.Keys - seen|
  {
    KeysSplit(m.Keys, seen, name);
    ListOneMore(m, seen, listed, name);
    SlotFilled(ls, i, Info(m[name]));
  }

  /** Writing slot `i` extends the filled prefix by that value. */
  lemma SlotFilled(s: seq<LayerInfo>, i: nat, x: LayerInfo)
    requires i < |s|
    ensures s[i := x][..i + 1] == s[..i] + [x]
  {
  }

  /** Once every name is listed, the slice is full and holds each layer's info exactly once. */
  lemma FillDone(m: map<string, GpkgLayer>, listed: seq<LayerInfo>, ls: seq<LayerInfo>, i: nat)
    requires Filling(m, m.Keys, listed, ls, i)
    ensures |ls| == |m|
    ensures forall name :: name in m ==> Info(m[name]) in ls
    ensures forall k :: 0 <= k < |ls| ==> ls[k].name in m && ls[k] == Info(m[ls[k].name])
    ensures forall a, b :: 0 <= a < b < |ls| ==> ls[a].name != ls[b].name
  {
    assert |m.Keys| == |m|;
    assert ls == listed;
  }

  /** A set of names and its complement within the keys partition the keys. */
  lemma KeysSplit(keys: set<string>, seen: set<string>, name: string)
    requires seen <= keys && name in keys - seen
    ensures |seen| < |keys|
    ensures |keys - (seen + {name})| < |keys - seen|
  {
    assert keys == seen + (keys - seen);
    assert keys - seen == (keys - (seen + {name})) + {name};
  }

  /**
   * Layers: one entry per stored layer, each the layer itself, in the map's
   * (unspecified) order, written by index into a slice of the map's size.
   */
  method ListLayers(m: map<string, GpkgLayer>) returns (ls: seq<LayerInfo>)
    requires forall name :: name in m ==> m[name].name == name
    ensures |ls| == |m|
    ensures forall name :: name in m ==> Info(m[name]) in ls
    ensures forall k :: 0 <= k < |ls| ==> ls[k].name in m && ls[k] == Info(m[ls[k].name])
    ensures forall a, b :: 0 <= a < b < |ls| ==> ls[a].name != ls[b].name
  {
    ls := seq(|m|, _ => LayerInfo("", "", None, 0));
    var seen: set<string> := {};
    ghost var listed: seq<LayerInfo> := [];
    var i := 0;
    while seen != m.Keys
      invariant Filling(m, seen, listed, ls, i)
      decreases |m.Keys - seen|
    {
      var name :| name in m.Keys - seen;
      FillStep(m, seen, listed, ls, i, name);
      ls := ls[i := Info(m[name])];
      listed := listed + [Info(m[name])];
      seen := seen + {name};
      i := i + 1;
    }
    FillDone(m, listed, ls, i);
  }

  // ---------------------------------------------------------------------------
  // The provider

  class GpkgProvider {
    /** The configured layers, by name. */
    var layers: map<string, GpkgLayer>
    const filepath: string
    const db: GpkgDb
    const helpers: GpkgHelpers

    /** Every layer is stored under its own name, and none has an id. */
    ghost predicate Valid()
      reads this
    {
      forall name :: name in layers ==> layers[name].name == name && layers[name].id == ""
    }

    constructor(filepath: string, db: GpkgDb, helpers: GpkgHelpers)
      ensures Valid() && layers == map[]
      ensures this.filepath == filepath && this.db == db && this.helpers == helpers
    {
      this.filepath := filepath;
      this.db := db;
      this.helpers := helpers;
      layers := map[];
    }

    /**
     * AddLayer: the layer the configuration describes is stored under its
     * name, replacing any layer of that name; on an error nothing changes.
     * An unexpected `tablename` or `sql` lookup error returns nil and adds
     * nothing, as the program does.
     */
    method AddLayer(conf: Dicter) returns (err: Option<Error>)
      requires Valid()
      modifies this
      ensures Valid()
      ensures var r := AddLayerAsWritten(conf, db, helpers);
              err == r.err &&
              layers == if r.added.Some? then old(layers)[r.added.value.name := r.added.value] else old(layers)
    {
      var nameR := LayerName(conf);
      if nameR.Failure? {
        return Some(nameR.error);
      }
      var kind := SourceOfAsWritten(conf);
      if kind.Failure? {
        return kind.error;
      }
      var built := BuildFrom(nameR.value, kind.value, conf, db, helpers);
      if built.Failure? {
        return Some(built.error);
      }
      var layer := built.value;
      AddedAsWrittenIsAdded(conf, db, helpers);
      AddedLayerShape(conf, db, helpers);
      layers := layers[layer.name := layer];
      return None;
    }

    /** Layers: every stored layer once, as a LayerInfo. */
    method Layers() returns (ls: seq<LayerInfo>)
      requires Valid()
      ensures |ls| == |layers|
      ensures forall name :: name in layers ==> Info(layers[name]) in ls
      ensures forall k :: 0 <= k < |ls| ==> ls[k].name in layers && ls[k] == Info(layers[ls[k].name])
      ensures forall a, b :: 0 <= a < b < |ls| ==> ls[a].name != ls[b].name
    {
      ls := ListLayers(layers);
    }

    /** TileFeatures: the layer's query, then its rows decoded into features handed to `fn`. */
    method TileFeatures(ctx: Context, name: string, tile: Tile, fn: Callback) returns (s: Stream)
      ensures s == TileFeaturesSpec(layers, name, tile, ctx, fn, db, helpers)
    {
      var l := LayerOrZero(layers, name);
      var q := TileQuery(l, tile, helpers);
      if q.Failure? {
        return Stream([], Some(q.error));
      }
      var rowsR := db.query(q.value);
      if rowsR.Failure? {
        return Stream([], Some(rowsR.error));
      }
      s := StreamRows(l, rowsR.value.columns, rowsR.value.rows, ctx, fn, helpers);
    }

    /** LayerExtent: the world, for any layer name. */
    function LayerExtent(name: string): (r: (Extent, Option<Error>))
      ensures r.0 == WorldExtent && r.1.None?
    {
      (WorldExtent, None)
    }

    /** LayerMinZoom: 0, for any layer name. */
    function LayerMinZoom(name: string): (z: nat)
      ensures z == 0
    {
      0
    }

    /** LayerMaxZoom: 20, for any layer name, never below the minimum. */
    function LayerMaxZoom(name: string): (z: nat)
      ensures z == 20 && LayerMinZoom(name) <= z
    {
      20
    }
  }

  /** The gpkg provider never sets a layer id: every listed layer has the empty ID(). */
  lemma ListedIDsEmpty(p: GpkgProvider, ls: seq<LayerInfo>)
    requires p.Valid()
    requires forall k :: 0 <= k < |ls| ==> ls[k].name in p.layers && ls[k] == Info(p.layers[ls[k].name])
    ensures forall k :: 0 <= k < |ls| ==> ls[k].id == ""
  {
  }

  /** The row loop of TileFeatures: each row checked for cancellation, scanned, decoded and handed to `fn`. */
  method StreamRows(l: GpkgLayer, cols: seq<string>, rows: seq<Row>, ctx: Context, fn: Callback, helpers: GpkgHelpers) returns (s: Stream)
    ensures s == RowsFeatures(l, cols, rows, 0, ctx, fn, helpers, [])
  {
    var emitted: seq<Feature> := [];
    var i := 0;
    while i < |rows|
      invariant i <= |rows|
      invariant RowsFeatures(l, cols, rows, 0, ctx, fn, helpers, []) == RowsFeatures(l, cols, rows, i, ctx, fn, helpers, emitted)
    {
      var base := i * (|cols| + 1);
      if ctx(base).Some? {
        return Stream(emitted, ctx(base));
      }
      if rows[i].Failure? {
        return Stream(emitted, Some(rows[i].error));
      }
      var vals := rows[i].value;
      if |vals| != |cols| {
        return Stream(emitted, Some(ErrScanColumns(|cols|, |vals|)));
      }
      var f := DecodeRow(l, cols, vals, ctx, base + 1, helpers);
      if f.Failure? {
        return Stream(emitted, Some(f.error));
      }
      var cbErr := fn(|emitted|, f.value);
      emitted := emitted + [f.value];
      if cbErr.Some? {
        return Stream(emitted, cbErr);
      }
      i := i + 1;
    }
    return Stream(emitted, None);
  }

  /** One row's columns decoded in order into a fresh feature. */
  method DecodeRow(l: GpkgLayer, cols: seq<string>, vals: seq<Value>, ctx: Context, n: nat, helpers: GpkgHelpers) returns (r: Result<Feature, Error>)
    requires |vals| == |cols|
    ensures r == DecodeColumns(l, cols, vals, 0, ctx, n, helpers, EmptyFeature)
  {
    var f := EmptyFeature;
    var j := 0;
    while j < |cols|
      invariant j <= |cols|
      invariant DecodeColumns(l, cols, vals, 0, ctx, n, helpers, EmptyFeature) == DecodeColumns(l, cols, vals, j, ctx, n, helpers, f)
    {
      if ctx(n + j).Some? {
        return Failure(ctx(n + j).value);
      }
      var v := vals[j];
      if v.Null? {
        j := j + 1;
        continue;
      }
      if cols[j] == l.idFieldname {
        var id := helpers.convertFeatureID(v);
        if id.Failure? {
          return Failure(id.error);
        }
        f := f.(id := id.value);
      } else if cols[j] == l.geomFieldname {
        if !v.Bytes? {
          return Failure(ErrGeomNotBlob);
        }
        var d := helpers.decodeGeometry(v.bytes);
        if d.Failure? {
          return Failure(d.error);
        }
        f := f.(srid := Uint64(d.value.srsID), geometry := Some(d.value.geometry));
      } else if cols[j] !in SkippedColumns {
        match v
        case Bytes(b) =>
          var copied := CopyBytes(b);
          f := f.(tags := f.tags[cols[j] := TagString(BytesToString(copied))]);
        case Int64(x) =>
          f := f.(tags := f.tags[cols[j] := TagInt(x)]);
        case Text(t) =>
          f := f.(tags := f.tags[cols[j] := TagString(t)]);
        case _ =>
      }
      j := j + 1;
    }
    return Success(f);
  }

  /** The byte-by-byte copy of a blob column before it becomes a string tag. */
  method CopyBytes(v: seq<bv8>) returns (out: seq<bv8>)
    ensures out == v
  {
    var buf := new bv8[|v|];
    var j := 0;
    while j < |v|
      invariant j <= |v| == buf.Length
      invariant buf[..j] == v[..j]
    {
      buf[j] := v[j];
      j := j + 1;
    }
    out := buf[..];
    assert out == buf[..j];
  }
}
