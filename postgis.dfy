/**
 * provider/postgis/postgis.go: the PostGIS provider.  A provider keeps a
 * catalog of layers, each with the SQL it is queried with; AddLayer validates a
 * layer's configuration and probes the database for its geometry type, and
 * the tile calls stream features or compose one ST_AsMVT query.
 *
 * The database is not run: every query's answer is an oracle (`Pool`), and
 * the helpers whose bodies live outside postgis.go (replaceTokens, genSQL,
 * genMvtSQL, decipherFields, the WKB decoder, the zoom and tile arithmetic)
 * are the arrows of a `Helpers` record.
 */
module Postgis {
  import opened Wrappers
  import opened Errors
  import opened Geom
  import opened Dict
  import opened Db
  import opened Strs
  import opened PostgisSql
  import opened Provider

  // ---------------------------------------------------------------------------
  // Configuration keys and defaults

  const DefaultPort: int := 5432
  const DefaultSRID: int := WebMercator
  const DefaultMaxConn: int := 100
  const DefaultSSLMode := "disable"
  const DefaultSSLKey := ""
  const DefaultSSLCert := ""

  const KeyHost := "host"
  const KeyPort := "port"
  const KeyDB := "database"
  const KeyUser := "user"
  const KeyPassword := "password"
  const KeySSLMode := "ssl_mode"
  const KeySSLKey := "ssl_key"
  const KeySSLCert := "ssl_cert"
  const KeySSLRootCert := "ssl_root_cert"
  const KeyMaxConn := "max_connections"
  const KeySRID := "srid"
  const KeyLayers := "layers"
  const KeyLayerID := "id"
  const KeyLayerName := "name"
  const KeyTablename := "tablename"
  const KeySQL := "sql"
  const KeyFields := "fields"
  const KeyGeomField := "geometry_fieldname"
  const KeyGeomIDField := "id_fieldname"
  const KeyGeomType := "geometry_type"
  const KeyLayerType := "type"

  // ---------------------------------------------------------------------------
  // Layers and the world around the provider

  /**
   * A configured layer: the fields postgis.go sets (the declaration in
   * provider/postgis/layer.go is not part of this model).  `geomType` is
   * `None` while the Go interface value is nil.
   */
  datatype Layer = Layer(
    id: string,
    name: string,
    idField: string,
    geomField: string,
    srid: nat,
    sql: string,
    geomType: Option<GeomKind>)

  /** The zero value `p.layers[id]` yields for a missing id. */
  const ZeroLayer := Layer("", "", "", "", 0, "", None)

  /** A layer as the LayerInfo interface shows it. */
  function Info(l: Layer): LayerInfo {
    LayerInfo(l.id, l.name, l.geomType, l.srid)
  }

  /** How wkb.DecodeBytes fails: an unknown geometry type, or anything else. */
  datatype WkbError = UnknownGeometryType | WkbFailed(cause: Error)

  /** What decipherFields extracts from one row: the feature id, the geometry bytes and the tags. */
  datatype Deciphered = Deciphered(gid: nat, geobytes: seq<bv8>, tags: map<string, TagValue>)

  /** The helpers postgis.go calls but does not define. */
  datatype Helpers = Helpers(
    // replaceTokens(sql, layer, tile, withBuffer)
    replaceTokens: (string, Layer, Tile, bool) -> Result<string, Error>,
    // genSQL and genMvtSQL(layer, table name, fields)
    genSQL: (Layer, string, seq<string>) -> Result<string, Error>,
    genMvtSQL: (Layer, string, seq<string>) -> Result<string, Error>,
    // decipherFields(geometry field, id field, column names, row values); it may report context.Canceled
    decipherFields: (string, string, seq<string>, seq<Value>) -> Result<Deciphered, Error>,
    decodeWkb: seq<bv8> -> Result<Geometry, WkbError>,
    // provider.GetBoundZoomLevel(extent, 1920, 1080)
    boundZoom: Extent -> int,
    // the tile over an extent's centre at a zoom, as inspectLayerMaxZoom computes it
    centerTile: (Extent, int) -> Tile,
    // strconv.ParseFloat with its error dropped
    parseFloat: string -> real)

  /** The connection pool: what each query sent to it answers. */
  datatype Pool = Pool(
    query: string -> Result<Rows, Error>,
    // QueryRow(sql).Scan into a string, an int and a bytea
    scanText: string -> Result<string, Error>,
    scanInt: string -> Result<int, Error>,
    scanBytes: string -> Result<seq<bv8>, Error>)

  /** The tile the probe queries run through replaceTokens: zoom 0, buffer 64. */
  const ProbeTile := Tile(0, 0, 0, 64)

  // ---------------------------------------------------------------------------
  // ConfigTLS

  /** The TLS settings ConfigTLS writes into a pgx.ConnConfig. */
  datatype TlsConfig = TlsConfig(insecureSkipVerify: bool, serverName: string, rootCAs: bool, certificate: bool)

  /** UseFallbackTLS, TLSConfig and FallbackTLSConfig of the connection configuration; `None` is nil. */
  datatype TlsSetup = TlsSetup(useFallbackTLS: bool, tlsConfig: Option<TlsConfig>, fallbackTLSConfig: Option<TlsConfig>)

  /** The certificate files ConfigTLS reads, as oracles. */
  datatype CertFiles = CertFiles(
    readFile: string -> Result<seq<bv8>, Error>,
    appendsPEM: seq<bv8> -> bool,
    loadKeyPair: (string, string) -> Option<Error>)

  const Insecure := TlsConfig(true, "", false, false)

  predicate KnownSSLMode(mode: string) {
    mode in {"disable", "allow", "prefer", "require", "verify-ca", "verify-full"}
  }

  /** The switch on the ssl mode, starting from a configuration without TLS. */
  function ModeSetup(mode: string, host: string): Option<TlsSetup> {
    match mode
    case "disable" => Some(TlsSetup(false, None, None))
    case "allow" => Some(TlsSetup(true, None, Some(Insecure)))
    case "prefer" => Some(TlsSetup(true, Some(Insecure), None))
    case "require" => Some(TlsSetup(false, Some(Insecure), None))
    case "verify-ca" => Some(TlsSetup(false, Some(TlsConfig(false, host, false, false)), None))
    case "verify-full" => Some(TlsSetup(false, Some(TlsConfig(false, host, false, false)), None))
    case _ => None
  }

  /**
   * The root certificate step.  It writes through TLSConfig, which "allow"
   * leaves nil: there the write is a nil dereference.
   */
  function WithRootCert(s: TlsSetup, rootCert: string, files: CertFiles): Result<TlsSetup, Error> {
    if rootCert == "" then Success(s)
    else
      match files.readFile(rootCert)
      case Failure(e) => Failure(Wrapped("unable to read CA file", e))
      case Success(pem) =>
        if !files.appendsPEM(pem) then Failure(ErrAppendCA)
        else if s.tlsConfig.None? then Failure(Panic("nil pointer dereference"))
        else Success(s.(tlsConfig := Some(s.tlsConfig.value.(rootCAs := true))))
  }

  /**
   * ConfigTLS: the ssl mode picks the TLS settings; "disable" returns at once,
   * every other known mode then installs the root certificate and the
   * certificate/key pair, which must be given together.
   */
  function ConfigTLS(sslMode: string, sslKey: string, sslCert: string, sslRootCert: string, host: string, files: CertFiles): (r: Result<TlsSetup, Error>)
    ensures r == Failure(ErrInvalidSSLMode(sslMode)) <==> !KnownSSLMode(sslMode)
    ensures sslMode == "disable" ==> r == Success(TlsSetup(false, None, None))
    ensures KnownSSLMode(sslMode) && sslMode != "disable" && (sslCert == "") != (sslKey == "") ==> r.Failure?
    ensures KnownSSLMode(sslMode) && sslMode != "disable" && sslRootCert == "" && (sslCert == "") != (sslKey == "") ==>
              r == Failure(ErrCertKeyPair)
    ensures r.Success? && sslMode != "disable" ==>
              (r.value.tlsConfig.Some? <==> sslMode != "allow") &&
              (r.value.tlsConfig.Some? ==> r.value.tlsConfig.value.certificate == (sslCert != "") &&
                                           r.value.tlsConfig.value.rootCAs == (sslRootCert != ""))
    ensures sslMode == "allow" && (sslRootCert != "" || sslCert != "") ==> r.Failure?
    ensures r.Success? && sslMode != "disable" ==>
              r.value.useFallbackTLS == (sslMode in {"allow", "prefer"}) &&
              r.value.fallbackTLSConfig == (if sslMode == "allow" then Some(Insecure) else None) &&
              (r.value.tlsConfig.Some? ==>
                 r.value.tlsConfig.value.insecureSkipVerify == (sslMode in {"prefer", "require"}) &&
                 r.value.tlsConfig.value.serverName == (if sslMode in {"verify-ca", "verify-full"} then host else ""))
  {
    match ModeSetup(sslMode, host)
    case None => Failure(ErrInvalidSSLMode(sslMode))
    case Some(s) =>
      if sslMode == "disable" then Success(s)
      else
        match WithRootCert(s, sslRootCert, files)
        case Failure(e) => Failure(e)
        case Success(s1) =>
          if (sslCert == "") != (sslKey == "") then Failure(ErrCertKeyPair)
          else if sslCert == "" then Success(s1)
          else
            match files.loadKeyPair(sslCert, sslKey)
            case Some(e) => Failure(Wrapped("unable to read cert", e))
            case None =>
              if s1.tlsConfig.None? then Failure(Panic("nil pointer dereference"))
              else Success(s1.(tlsConfig := Some(s1.tlsConfig.value.(certificate := true))))
  }

  /**
   * The verifying modes check the server's certificate against the host:
   * whatever certificates are configured, a successful setup never skips
   * verification and never falls back to another connection.
   */
  lemma VerifyModesCheckCertificates(sslMode: string, sslKey: string, sslCert: string, sslRootCert: string, host: string, files: CertFiles)
    requires sslMode in {"verify-ca", "verify-full"}
    ensures var r := ConfigTLS(sslMode, sslKey, sslCert, sslRootCert, host, files);
            r.Success? ==>
              !r.value.useFallbackTLS && r.value.fallbackTLSConfig.None? &&
              r.value.tlsConfig.Some? && !r.value.tlsConfig.value.insecureSkipVerify &&
              r.value.tlsConfig.value.serverName == host
  {
  }

  // ---------------------------------------------------------------------------
  // Layer configuration (AddLayer)

  /** A layer's configuration, read in the order AddLayer reads it. */
  datatype LayerConfig = LayerConfig(
    name: string,
    fields: seq<string>,
    geomField: string,
    idField: string,
    geomType: string,
    tblName: string,
    sql: string,
    srid: int)

  /**
   * The lookups of AddLayer after the id: name, fields, geometry field
   * (default "geom"), id field (default ""), which must differ from the
   * geometry field, geometry type, table name (default the layer name), SQL
   * and SRID (default the provider's).
   */
  function ReadLayerConfig(lid: string, conf: Dicter, providerSrid: int): (r: Result<LayerConfig, Error>)
    ensures r.Success? ==> r.value.idField != r.value.geomField
    ensures r.Success? ==> conf.str(KeyGeomField, Some("geom")) == Success(r.value.geomField)
    ensures r.Success? ==> conf.str(KeyGeomIDField, Some("")) == Success(r.value.idField)
    ensures r.Success? ==> conf.str(KeyTablename, Some(r.value.name)) == Success(r.value.tblName)
    ensures r.Success? ==> conf.integer(KeySRID, Some(providerSrid)) == Success(r.value.srid)
    ensures r.Success? ==> conf.str(KeyLayerName, None) == Success(r.value.name)
    ensures r.Success? ==> conf.strSlice(KeyFields) == Success(r.value.fields)
    ensures r.Success? ==> conf.str(KeyGeomType, Some("")) == Success(r.value.geomType)
    ensures r.Success? ==> conf.str(KeySQL, Some("")) == Success(r.value.sql)
  {
    var name :- Wrap(conf.str(KeyLayerName, None), "AddLayer, layer name");
    var fields :- Wrap(conf.strSlice(KeyFields), "fields");
    var geomField :- Wrap(conf.str(KeyGeomField, Some("geom")), "geometry_fieldname");
    var idField :- Wrap(conf.str(KeyGeomIDField, Some("")), "id_fieldname");
    if idField == geomField then Failure(ErrIDGeomFieldSame(lid))
    else
      var geomType :- Wrap(conf.str(KeyGeomType, Some("")), "geometry_type");
      var tblName :- Wrap(conf.str(KeyTablename, Some(name)), "tablename");
      var sql :- Wrap(conf.str(KeySQL, Some("")), "sql");
      var srid :- conf.integer(KeySRID, Some(providerSrid));
      Success(LayerConfig(name, fields, geomField, idField, geomType, tblName, sql, srid))
  }

  /** Where a layer's rows come from: its own SELECT, or a table (or sub-query) genSQL wraps. */
  datatype Source = CustomSQL(query: string) | TableName(table: string)

  /** A non-empty `sql` that is no SELECT query is used as the table name. */
  function SourceOf(c: LayerConfig): (s: Source)
    ensures s.CustomSQL? <==> c.sql != "" && IsSelectQuery(c.sql)
    ensures s.CustomSQL? ==> s.query == c.sql
    ensures s.TableName? && c.sql != "" ==> s.table == c.sql
    ensures s.TableName? && c.sql == "" ==> s.table == c.tblName
  {
    if c.sql != "" && !IsSelectQuery(c.sql) then TableName(c.sql)
    else if c.sql != "" then CustomSQL(c.sql)
    else TableName(c.tblName)
  }

  /**
   * The checks on a layer's own SQL: after normalising the bbox token it must
   * hold `!BBOX!`, and unless it selects `*` it must name the geometry and id
   * fields.
   */
  function CheckCustomSQL(lid: string, sql: string, geomField: string, idField: string): (r: Result<string, Error>)
    ensures var n := NormalizeBBox(sql);
            r.Success? <==> Contains(n, BBoxToken) && (Contains(n, "*") || (Contains(n, geomField) && Contains(n, idField)))
    ensures r.Success? ==> r.value == NormalizeBBox(sql)
    ensures !Contains(NormalizeBBox(sql), BBoxToken) ==> r == Failure(ErrMissingBBoxToken(lid))
  {
    var n := NormalizeBBox(sql);
    if !Contains(n, BBoxToken) then Failure(ErrMissingBBoxToken(lid))
    else if !Contains(n, "*") && !Contains(n, geomField) then Failure(ErrSQLMissingGeomField(lid, geomField))
    else if !Contains(n, "*") && !Contains(n, idField) then Failure(ErrSQLMissingIDField(lid, idField))
    else Success(n)
  }

  /** An accepted custom SQL had one of the three bbox token spellings to begin with. */
  lemma CustomSQLHadBBox(lid: string, sql: string, geomField: string, idField: string)
    requires CheckCustomSQL(lid, sql, geomField, idField).Success?
    ensures Contains(sql, BBoxToken) || Contains(sql, "!BOX!") || Contains(sql, "!bbox!")
  {
    NormalizeBBoxIff(sql);
  }

  /** The layer type key, whose lookup error is ignored (the empty string stands in). */
  function LayerType(conf: Dicter): string {
    match conf.str(KeyLayerType, None)
    case Success(t) => t
    case Failure(_) => ""
  }

  /** The SQL a layer is stored with: its checked own SQL, or what genSQL ("postgis" layers) or genMvtSQL builds. */
  function LayerSQL(lid: string, c: LayerConfig, conf: Dicter, l: Layer, helpers: Helpers): (r: Result<string, Error>)
    ensures SourceOf(c).CustomSQL? ==> r == CheckCustomSQL(lid, c.sql, c.geomField, c.idField)
  {
    match SourceOf(c)
    case CustomSQL(q) => CheckCustomSQL(lid, q, c.geomField, c.idField)
    case TableName(t) =>
      if LayerType(conf) == "postgis" then Wrap(helpers.genSQL(l, t, c.fields), "could not generate sql")
      else Wrap(helpers.genMvtSQL(l, t, c.fields), "could not generate sql")
  }

  /** setLayerGeomType: the configured name, in any case, of one of the seven kinds. */
  function SetLayerGeomType(l: Layer, geomType: string): (r: Result<Layer, Error>)
    ensures r.Success? <==> ConfiguredGeomType(geomType).Some?
    ensures r.Success? ==> r.value == l.(geomType := ConfiguredGeomType(geomType))
    ensures r.Failure? ==> r.error == ErrUnsupportedGeomType(geomType)
  {
    match ConfiguredGeomType(geomType)
    case Some(k) => Success(l.(geomType := Some(k)))
    case None => Failure(ErrUnsupportedGeomType(geomType))
  }

  // ---------------------------------------------------------------------------
  // inspectLayerGeomType

  /** One probed cell: one of the seven ST_ names, else an error naming the value. */
  function ProbedCell(v: Value): (r: Result<GeomKind, Error>)
    ensures r.Success? <==> v.Text? && ProbedGeomType(v.t).Some?
    ensures r.Success? ==> PostgisName(r.value) == Some(v.t)
    ensures v.Text? && ProbedGeomType(v.t).None? ==> r == Failure(ErrUnsupportedProbedType(v.t))
    ensures !v.Text? ==> r == Failure(ErrProbedValueNotText)
  {
    match v
    case Text(t) =>
      (match ProbedGeomType(t)
       case Some(k) => ProbedGeomTypeIff(t, k); Success(k)
       case None => Failure(ErrUnsupportedProbedType(t)))
    case _ => Failure(ErrProbedValueNotText)
  }

  /**
   * The cells `i..` of one row: each cell under the geometry field or
   * "st_geometrytype" sets the kind; a cell beyond the field descriptions
   * indexes past their end.
   */
  function CellsKind(cols: seq<string>, vals: seq<Value>, i: nat, field: string, kind: Option<GeomKind>): Result<Option<GeomKind>, Error>
    requires i <= |vals|
    decreases |vals| - i
  {
    if i == |vals| then Success(kind)
    else if i >= |cols| then Failure(Panic("index out of range"))
    else if cols[i] == field || cols[i] == "st_geometrytype" then
      match ProbedCell(vals[i])
      case Success(k) => CellsKind(cols, vals, i + 1, field, Some(k))
      case Failure(e) => Failure(e)
    else CellsKind(cols, vals, i + 1, field, kind)
  }

  /** The rows `i..` of the probe's answer, then rows.Err(). */
  function RowsKind(rows: Rows, i: nat, field: string, kind: Option<GeomKind>): Result<Option<GeomKind>, Error>
    requires i <= |rows.rows|
    decreases |rows.rows| - i
  {
    if i == |rows.rows| then
      (match rows.err
       case Some(e) => Failure(e)
       case None => Success(kind))
    else
      match rows.rows[i]
      case Failure(e) => Failure(Wrapped("error running SQL", e))
      case Success(vals) =>
        match CellsKind(rows.columns, vals, 0, field, kind)
        case Success(k) => RowsKind(rows, i + 1, field, k)
        case Failure(e) => Failure(e)
  }

  /** A kind read from a row is one PostGIS names: never Line. */
  lemma {:induction false} CellsKindSupported(cols: seq<string>, vals: seq<Value>, i: nat, field: string, kind: Option<GeomKind>)
    requires i <= |vals|
    requires kind.Some? ==> PostgisName(kind.value).Some?
    ensures var r := CellsKind(cols, vals, i, field, kind);
            r.Success? && r.value.Some? ==> PostgisName(r.value.value).Some?
    decreases |vals| - i
  {
    if i < |vals| && i < |cols| {
      if cols[i] == field || cols[i] == "st_geometrytype" {
        if ProbedCell(vals[i]).Success? {
          CellsKindSupported(cols, vals, i + 1, field, Some(ProbedCell(vals[i]).value));
        }
      } else {
        CellsKindSupported(cols, vals, i + 1, field, kind);
      }
    }
  }

  lemma {:induction false} RowsKindSupported(rows: Rows, i: nat, field: string, kind: Option<GeomKind>)
    requires i <= |rows.rows|
    requires kind.Some? ==> PostgisName(kind.value).Some?
    ensures var r := RowsKind(rows, i, field, kind);
            r.Success? && r.value.Some? ==> PostgisName(r.value.value).Some?
    decreases |rows.rows| - i
  {
    if i < |rows.rows| && rows.rows[i].Success? {
      var vals := rows.rows[i].value;
      CellsKindSupported(rows.columns, vals, 0, field, kind);
      var c := CellsKind(rows.columns, vals, 0, field, kind);
      if c.Success? {
        RowsKindSupported(rows, i + 1, field, c.value);
      }
    }
  }

  /**
   * inspectLayerGeomType: the probe query (see GeomTypeProbe), through
   * replaceTokens with the zoom-0 tile, then the rows it answers.  The layer's
   * geometry field is the one the probe settled on; on an error the caller
   * drops the layer, so only the error is kept.
   */
  function InspectGeomType(l: Layer, pool: Pool, helpers: Helpers): Result<Layer, Error> {
    var probe := GeomTypeProbe(l.sql, l.geomField);
    var l1 := l.(geomField := probe.geomField);
    var q :- helpers.replaceTokens(probe.sql, l1, ProbeTile, true);
    var rows :- pool.query(q);
    var kind :- RowsKind(rows, 0, l1.geomField, l1.geomType);
    Success(l1.(geomType := kind))
  }

  /**
   * A probe that succeeds leaves a kind PostGIS can name (never Line), or the
   * layer's earlier kind when no row carried one; with no rows at all the kind
   * is unchanged.
   */
  lemma InspectGeomTypeKinds(l: Layer, pool: Pool, helpers: Helpers)
    requires l.geomType.None?
    ensures var r := InspectGeomType(l, pool, helpers);
            r.Success? && r.value.geomType.Some? ==> PostgisName(r.value.geomType.value).Some?
    ensures var probe := GeomTypeProbe(l.sql, l.geomField);
            var l1 := l.(geomField := probe.geomField);
            var q := helpers.replaceTokens(probe.sql, l1, ProbeTile, true);
            q.Success? && pool.query(q.value) == Success(Rows([], [], None)) ==> InspectGeomType(l, pool, helpers) == Success(l1)
  {
    var probe := GeomTypeProbe(l.sql, l.geomField);
    var l1 := l.(geomField := probe.geomField);
    var q := helpers.replaceTokens(probe.sql, l1, ProbeTile, true);
    if q.Success? && pool.query(q.value).Success? {
      RowsKindSupported(pool.query(q.value).value, 0, l1.geomField, None);
    }
  }

  // ---------------------------------------------------------------------------
  // inspectLayerExtent, inspectLayerMinZoom, inspectLayerMaxZoom

  /** The layer (its geometry field updated through its *Layer argument), the extent and the error. */
  datatype ExtentOutcome = ExtentOutcome(layer: Layer, extent: Extent, err: Option<Error>)

  /**
   * inspectLayerExtent: the ST_Extent probe (see ExtentProbe), through
   * replaceTokens with the zoom-0 tile; the BOX text it answers is parsed.
   * Every failure leaves the world extent.
   */
  function InspectLayerExtent(l: Layer, pool: Pool, helpers: Helpers): (r: ExtentOutcome)
    ensures r.layer == l.(geomField := ExtentGeomField(l.sql, l.geomField))
    ensures r.err.Some? ==> r.extent == WorldExtent
    ensures r.err.None? <==>
              var q := helpers.replaceTokens(ExtentProbe(l.sql, l.geomField).sql, r.layer, ProbeTile, true);
              q.Success? && pool.scanText(q.value).Success? &&
              ParseBox(pool.scanText(q.value).value, helpers.parseFloat).BoxExtent?
    ensures r.err.None? ==>
              var q := helpers.replaceTokens(ExtentProbe(l.sql, l.geomField).sql, r.layer, ProbeTile, true);
              r.extent == ParseBox(pool.scanText(q.value).value, helpers.parseFloat).extent
  {
    var probe := ExtentProbe(l.sql, l.geomField);
    var l1 := l.(geomField := probe.geomField);
    match helpers.replaceTokens(probe.sql, l1, ProbeTile, true)
    case Failure(e) => ExtentOutcome(l1, WorldExtent, Some(e))
    case Success(q) =>
      match pool.scanText(q)
      case Failure(e) => ExtentOutcome(l1, WorldExtent, Some(e))
      case Success(box) =>
        match ParseBox(box, helpers.parseFloat)
        case BoxExtent(ext) => ExtentOutcome(l1, ext, None)
        case BoxMissing => ExtentOutcome(l1, WorldExtent, Some(ErrInspectExtent(l.name)))
        case BoxPanics => ExtentOutcome(l1, WorldExtent, Some(Panic("index out of range")))
  }

  /** inspectLayerMinZoom: the zoom at which the layer's extent fits 1920x1080 pixels, 0 when the extent is unknown. */
  function InspectLayerMinZoom(l: Layer, pool: Pool, helpers: Helpers): (z: int)
    ensures InspectLayerExtent(l, pool, helpers).err.Some? ==> z == 0
    ensures InspectLayerExtent(l, pool, helpers).err.None? ==> z == helpers.boundZoom(InspectLayerExtent(l, pool, helpers).extent)
  {
    var x := InspectLayerExtent(l, pool, helpers);
    if x.err.Some? then 0 else helpers.boundZoom(x.extent)
  }

  /** The zoom the max-zoom probe gives up at, and the feature count it looks for. */
  const MaxProbeZoom: int := 16
  const CountThreshold: int := 1024

  /** The COUNT(*) probe `probe` (see CountProbe) at zoom `z`, over the tile at the extent's centre. */
  function ZoomCount(probe: string, l: Layer, ext: Extent, z: int, pool: Pool, helpers: Helpers): Result<int, Error> {
    var q :- helpers.replaceTokens(probe, l, helpers.centerTile(ext, z), true);
    pool.scanInt(q)
  }

  /** The probe loop from zoom `z`: the first zoom below 16 with fewer than 1024 features, else 16. */
  function MaxZoomFrom(probe: string, l: Layer, ext: Extent, z: int, pool: Pool, helpers: Helpers): int
    decreases MaxProbeZoom - z
  {
    if z >= MaxProbeZoom then MaxProbeZoom
    else
      match ZoomCount(probe, l, ext, z, pool, helpers)
      case Failure(_) => MaxProbeZoom
      case Success(cnt) => if cnt < CountThreshold then z else MaxZoomFrom(probe, l, ext, z + 1, pool, helpers)
  }

  /**
   * The probe's answer is 16, or the first zoom from `z0` on whose count is
   * below 1024, every zoom before it having been counted at 1024 or more.
   */
  lemma {:induction false} MaxZoomFromMeans(probe: string, l: Layer, ext: Extent, z0: int, pool: Pool, helpers: Helpers)
    ensures var r := MaxZoomFrom(probe, l, ext, z0, pool, helpers);
            r <= MaxProbeZoom &&
            (r < MaxProbeZoom ==>
               z0 <= r &&
               ZoomCount(probe, l, ext, r, pool, helpers).Success? &&
               ZoomCount(probe, l, ext, r, pool, helpers).value < CountThreshold &&
               forall z :: z0 <= z < r ==> ZoomCount(probe, l, ext, z, pool, helpers).Success? &&
                                           ZoomCount(probe, l, ext, z, pool, helpers).value >= CountThreshold)
    decreases MaxProbeZoom - z0
  {
    var r := MaxZoomFrom(probe, l, ext, z0, pool, helpers);
    if z0 >= MaxProbeZoom {
      assert r == MaxProbeZoom;
    } else {
      var c := ZoomCount(probe, l, ext, z0, pool, helpers);
      if c.Failure? {
        assert r == MaxProbeZoom;
      } else if c.value < CountThreshold {
        assert r == z0;
      } else {
        MaxZoomFromMeans(probe, l, ext, z0 + 1, pool, helpers);
        assert r == MaxZoomFrom(probe, l, ext, z0 + 1, pool, helpers);
      }
    }
  }

  /** `z` is the first zoom from `z0` on, below 16, counted under 1024, every zoom before it counted at 1024 or more. */
  predicate FirstBelow(probe: string, l: Layer, ext: Extent, z0: int, z: int, pool: Pool, helpers: Helpers) {
    z0 <= z < MaxProbeZoom &&
    ZoomCount(probe, l, ext, z, pool, helpers).Success? &&
    ZoomCount(probe, l, ext, z, pool, helpers).value < CountThreshold &&
    forall k :: z0 <= k < z ==> ZoomCount(probe, l, ext, k, pool, helpers).Success? &&
                                ZoomCount(probe, l, ext, k, pool, helpers).value >= CountThreshold
  }

  /**
   * The converse of MaxZoomFromMeans: when every zoom from `z0` up to `z`
   * counted 1024 or more, the probe answers `z` if `z` counts fewer, and
   * gives up with 16 if `z` is 16 or its count fails.
   */
  lemma {:induction false} MaxZoomFindsFirst(probe: string, l: Layer, ext: Extent, z0: int, z: int, pool: Pool, helpers: Helpers)
    requires z0 <= z <= MaxProbeZoom
    requires forall k :: z0 <= k < z ==> ZoomCount(probe, l, ext, k, pool, helpers).Success? &&
                                         ZoomCount(probe, l, ext, k, pool, helpers).value >= CountThreshold
    ensures z == MaxProbeZoom ==> MaxZoomFrom(probe, l, ext, z0, pool, helpers) == MaxProbeZoom
    ensures z < MaxProbeZoom && ZoomCount(probe, l, ext, z, pool, helpers).Failure? ==>
              MaxZoomFrom(probe, l, ext, z0, pool, helpers) == MaxProbeZoom
    ensures z < MaxProbeZoom && ZoomCount(probe, l, ext, z, pool, helpers).Success? &&
            ZoomCount(probe, l, ext, z, pool, helpers).value < CountThreshold ==>
              MaxZoomFrom(probe, l, ext, z0, pool, helpers) == z
    decreases z - z0
  {
    if z0 < z {
      MaxZoomFindsFirst(probe, l, ext, z0 + 1, z, pool, helpers);
    }
  }

  /** The probe's answer is the first zoom below 1024 from `z0` on, if there is one, and 16 otherwise. */
  lemma MaxZoomIsFirstBelow(probe: string, l: Layer, ext: Extent, z0: int, pool: Pool, helpers: Helpers)
    ensures var r := MaxZoomFrom(probe, l, ext, z0, pool, helpers);
            r <= MaxProbeZoom &&
            (r < MaxProbeZoom ==> FirstBelow(probe, l, ext, z0, r, pool, helpers)) &&
            (forall k :: FirstBelow(probe, l, ext, z0, k, pool, helpers) ==> r == k)
  {
    MaxZoomFromMeans(probe, l, ext, z0, pool, helpers);
    forall k | FirstBelow(probe, l, ext, z0, k, pool, helpers)
      ensures MaxZoomFrom(probe, l, ext, z0, pool, helpers) == k
    {
      MaxZoomFindsFirst(probe, l, ext, z0, k, pool, helpers);
    }
  }

  /**
   * inspectLayerMaxZoom: 16 when the extent is unknown; otherwise the first
   * zoom from the extent's bound zoom on whose count is below 1024, and 16
   * when there is none or a count fails first.
   */
  function InspectMaxZoom(l: Layer, pool: Pool, helpers: Helpers): (z: int)
    ensures z <= MaxProbeZoom
    ensures InspectLayerExtent(l, pool, helpers).err.Some? ==> z == MaxProbeZoom
    ensures var x := InspectLayerExtent(l, pool, helpers);
            x.err.None? ==>
              var b := helpers.boundZoom(x.extent);
              (z < MaxProbeZoom ==> FirstBelow(CountProbe(x.layer.sql), x.layer, x.extent, b, z, pool, helpers)) &&
              (forall k :: FirstBelow(CountProbe(x.layer.sql), x.layer, x.extent, b, k, pool, helpers) ==> z == k)
  {
    var x := InspectLayerExtent(l, pool, helpers);
    if x.err.Some? then MaxProbeZoom
    else
      var probe, b := CountProbe(x.layer.sql), helpers.boundZoom(x.extent);
      MaxZoomIsFirstBelow(probe, x.layer, x.extent, b, pool, helpers);
      MaxZoomFrom(probe, x.layer, x.extent, b, pool, helpers)
  }

  // ---------------------------------------------------------------------------
  // TileFeatures

  /** What the row loop carries: the features handed over, the last warned layer field and the warnings logged. */
  datatype Scan = Scan(emitted: seq<Feature>, reported: string, warnings: nat)

  /** The stream, and how many unsupported-geometry warnings were logged. */
  datatype TileRun = TileRun(stream: Stream, warnings: nat)

  /**
   * Which log guard the row loop applies to an unsupported geometry: the one
   * the program has (`reported == "" || reported == rplfn`, true again for a
   * layer field already reported) or the one its "only report to the log
   * once" comment describes (a layer field not yet reported).
   */
  datatype Guard = AsWritten | Once

  predicate Warns(guard: Guard, reported: string, rplfn: string) {
    match guard
    case AsWritten => reported == "" || reported == rplfn
    case Once => reported != rplfn
  }

  /** The scan after skipping a row of an unsupported geometry type of layer field `rplfn`. */
  function Noted(guard: Guard, st: Scan, rplfn: string): Scan {
    if Warns(guard, st.reported, rplfn) then st.(reported := rplfn, warnings := st.warnings + 1) else st
  }

  function Stop(st: Scan, e: Error): TileRun {
    TileRun(Stream(st.emitted, Some(e)), st.warnings)
  }

  /**
   * The loop over rows `i..` of TileFeatures for layer `l`: the context is
   * checked before each row (check `i + 1`; check 0 preceded the query),
   * rows without geometry bytes and rows of an unsupported geometry type are
   * skipped (logging a warning when `guard` lets it), every other row
   * becomes a feature handed to `fn`.
   */
  function RowsStream(l: Layer, lyrID: string, rows: Rows, i: nat, ctx: Context, fn: Callback, helpers: Helpers, guard: Guard, st: Scan): TileRun
    requires i <= |rows.rows|
    decreases |rows.rows| - i
  {
    if i == |rows.rows| then TileRun(Stream(st.emitted, rows.err), st.warnings)
    else if ctx(i + 1).Some? then Stop(st, ctx(i + 1).value)
    else
      match rows.rows[i]
      case Failure(e) => Stop(st, Wrapped("error running layer SQL", e))
      case Success(vals) =>
        match helpers.decipherFields(l.geomField, l.idField, rows.columns, vals)
        case Failure(e) => Stop(st, if e == Canceled then e else Wrapped("for layer", e))
        case Success(d) =>
          if |d.geobytes| == 0 then RowsStream(l, lyrID, rows, i + 1, ctx, fn, helpers, guard, st)
          else
            match helpers.decodeWkb(d.geobytes)
            case Failure(UnknownGeometryType) =>
              RowsStream(l, lyrID, rows, i + 1, ctx, fn, helpers, guard, Noted(guard, st, lyrID + ":" + l.geomField))
            case Failure(WkbFailed(e)) => Stop(st, Wrapped("unable to decode layer geometry", e))
            case Success(g) =>
              var f := Feature(d.gid, Some(g), l.srid, d.tags);
              match fn(|st.emitted|, f)
              case Some(e) => Stop(st.(emitted := st.emitted + [f]), e)
              case None => RowsStream(l, lyrID, rows, i + 1, ctx, fn, helpers, guard, st.(emitted := st.emitted + [f]))
  }

  /**
   * TileFeatures: an unknown layer, a replaceTokens error, a cancelled
   * context, a failed query and a result without the geometry column each
   * end the call before any row is read.
   */
  function TileFeaturesSpec(layers: map<string, Layer>, lyrID: string, tile: Tile, ctx: Context, fn: Callback, pool: Pool, helpers: Helpers): (r: TileRun)
    ensures lyrID !in layers ==> r == TileRun(Stream([], Some(ErrLayerNotFound(lyrID))), 0)
    ensures lyrID in layers ==>
              var l := layers[lyrID];
              var q := helpers.replaceTokens(l.sql, l, tile, true);
              && (q.Failure? ==> r == TileRun(Stream([], Some(Wrapped("error replacing layer tokens", q.error))), 0))
              && (q.Success? && ctx(0).Some? ==> r == TileRun(Stream([], ctx(0)), 0))
              && (q.Success? && ctx(0).None? && pool.query(q.value).Failure? ==>
                    r == TileRun(Stream([], Some(Wrapped("error running layer SQL", pool.query(q.value).error))), 0))
              && (q.Success? && ctx(0).None? && pool.query(q.value).Success? && l.geomField !in pool.query(q.value).value.columns ==>
                    r == TileRun(Stream([], Some(ErrGeomFieldNotFound(l.geomField, l.name))), 0))
  {
    if lyrID !in layers then TileRun(Stream([], Some(ErrLayerNotFound(lyrID))), 0)
    else
      var l := layers[lyrID];
      match helpers.replaceTokens(l.sql, l, tile, true)
      case Failure(e) => TileRun(Stream([], Some(Wrapped("error replacing layer tokens", e))), 0)
      case Success(q) =>
        if ctx(0).Some? then TileRun(Stream([], ctx(0)), 0)
        else
          match pool.query(q)
          case Failure(e) => TileRun(Stream([], Some(Wrapped("error running layer SQL", e))), 0)
          case Success(rows) =>
            if l.geomField !in rows.columns then TileRun(Stream([], Some(ErrGeomFieldNotFound(l.geomField, l.name))), 0)
            else RowsStream(l, lyrID, rows, 0, ctx, fn, helpers, AsWritten, Scan([], "", 0))
  }

  /** Every feature handed over carries a decoded geometry and the layer's SRID. */
  lemma {:induction false} StreamedFeaturesDecoded(l: Layer, lyrID: string, rows: Rows, i: nat, ctx: Context, fn: Callback, helpers: Helpers, guard: Guard, st: Scan)
    requires i <= |rows.rows|
    requires forall f :: f in st.emitted ==> f.geometry.Some? && f.srid == l.srid
    ensures forall f :: f in RowsStream(l, lyrID, rows, i, ctx, fn, helpers, guard, st).stream.emitted ==> f.geometry.Some? && f.srid == l.srid
    decreases |rows.rows| - i
  {
    if i < |rows.rows| && ctx(i + 1).None? && rows.rows[i].Success? {
      var d := helpers.decipherFields(l.geomField, l.idField, rows.columns, rows.rows[i].value);
      if d.Success? {
        if |d.value.geobytes| == 0 {
          StreamedFeaturesDecoded(l, lyrID, rows, i + 1, ctx, fn, helpers, guard, st);
        } else {
          var w := helpers.decodeWkb(d.value.geobytes);
          if w == Failure(UnknownGeometryType) {
            var st' := Noted(guard, st, lyrID + ":" + l.geomField);
            StreamedFeaturesDecoded(l, lyrID, rows, i + 1, ctx, fn, helpers, guard, st');
          } else if w.Success? {
            var f := Feature(d.value.gid, Some(w.value), l.srid, d.value.tags);
            StreamedFeaturesDecoded(l, lyrID, rows, i + 1, ctx, fn, helpers, guard, st.(emitted := st.emitted + [f]));
          }
        }
      }
    }
  }

  /**
   * The callback is handed each feature once, numbered in order; the first
   * error it returns ends the stream and is the call's error, unchanged.
   */
  lemma {:induction false} CallbackErrorEnds(l: Layer, lyrID: string, rows: Rows, i: nat, ctx: Context, fn: Callback, helpers: Helpers, guard: Guard, st: Scan)
    requires i <= |rows.rows|
    requires forall k :: 0 <= k < |st.emitted| ==> fn(k, st.emitted[k]).None?
    ensures var s := RowsStream(l, lyrID, rows, i, ctx, fn, helpers, guard, st).stream;
            st.emitted <= s.emitted &&
            forall k :: 0 <= k < |s.emitted| && fn(k, s.emitted[k]).Some? ==> k == |s.emitted| - 1 && s.err == fn(k, s.emitted[k])
    decreases |rows.rows| - i
  {
    if i < |rows.rows| && ctx(i + 1).None? && rows.rows[i].Success? {
      var d := helpers.decipherFields(l.geomField, l.idField, rows.columns, rows.rows[i].value);
      if d.Success? {
        if |d.value.geobytes| == 0 {
          CallbackErrorEnds(l, lyrID, rows, i + 1, ctx, fn, helpers, guard, st);
        } else {
          var w := helpers.decodeWkb(d.value.geobytes);
          if w == Failure(UnknownGeometryType) {
            var st' := Noted(guard, st, lyrID + ":" + l.geomField);
            CallbackErrorEnds(l, lyrID, rows, i + 1, ctx, fn, helpers, guard, st');
          } else if w.Success? {
            var f := Feature(d.value.gid, Some(w.value), l.srid, d.value.tags);
            if fn(|st.emitted|, f).None? {
              CallbackErrorEnds(l, lyrID, rows, i + 1, ctx, fn, helpers, guard, st.(emitted := st.emitted + [f]));
            }
          }
        }
      }
    }
  }

  /** With the intended guard, one call logs the unsupported-geometry warning at most once. */
  lemma {:induction false} WarnsAtMostOnce(l: Layer, lyrID: string, rows: Rows, i: nat, ctx: Context, fn: Callback, helpers: Helpers, st: Scan)
    requires i <= |rows.rows|
    requires st.warnings == 0 || (st.warnings == 1 && st.reported == lyrID + ":" + l.geomField)
    ensures RowsStream(l, lyrID, rows, i, ctx, fn, helpers, Once, st).warnings <= 1
    decreases |rows.rows| - i
  {
    if i < |rows.rows| && ctx(i + 1).None? && rows.rows[i].Success? {
      var d := helpers.decipherFields(l.geomField, l.idField, rows.columns, rows.rows[i].value);
      if d.Success? {
        if |d.value.geobytes| == 0 {
          WarnsAtMostOnce(l, lyrID, rows, i + 1, ctx, fn, helpers, st);
        } else {
          var w := helpers.decodeWkb(d.value.geobytes);
          if w == Failure(UnknownGeometryType) {
            var st' := Noted(Once, st, lyrID + ":" + l.geomField);
            WarnsAtMostOnce(l, lyrID, rows, i + 1, ctx, fn, helpers, st');
          } else if w.Success? {
            var f := Feature(d.value.gid, Some(w.value), l.srid, d.value.tags);
            if fn(|st.emitted|, f).None? {
              WarnsAtMostOnce(l, lyrID, rows, i + 1, ctx, fn, helpers, st.(emitted := st.emitted + [f]));
            }
          }
        }
      }
    }
  }

  /** A row of an unsupported geometry type: it reads and deciphers, and its bytes are of an unknown WKB type. */
  predicate UnsupportedRow(l: Layer, rows: Rows, i: nat, helpers: Helpers)
    requires i < |rows.rows|
  {
    rows.rows[i].Success? &&
    var d := helpers.decipherFields(l.geomField, l.idField, rows.columns, rows.rows[i].value);
    d.Success? && |d.value.geobytes| > 0 && helpers.decodeWkb(d.value.geobytes) == Failure(UnknownGeometryType)
  }

  /** A row the loop reads past or hands over: it reads, deciphers, and has no bytes, decodes, or is unsupported. */
  predicate ReadableRow(l: Layer, rows: Rows, i: nat, helpers: Helpers)
    requires i < |rows.rows|
  {
    rows.rows[i].Success? &&
    var d := helpers.decipherFields(l.geomField, l.idField, rows.columns, rows.rows[i].value);
    d.Success? && (|d.value.geobytes| == 0 || helpers.decodeWkb(d.value.geobytes).Success? || UnsupportedRow(l, rows, i, helpers))
  }

  /** The number of unsupported rows among rows `i..`. */
  function CountUnsupported(l: Layer, rows: Rows, i: nat, helpers: Helpers): nat
    requires i <= |rows.rows|
    decreases |rows.rows| - i
  {
    if i == |rows.rows| then 0
    else (if UnsupportedRow(l, rows, i, helpers) then 1 else 0) + CountUnsupported(l, rows, i + 1, helpers)
  }

  /**
   * The guard as written logs every unsupported row: when the context stays
   * live, the callback accepts everything and every row is readable, the
   * warnings are one per unsupported row.
   */
  lemma {:induction false} WarnsEveryUnsupportedRow(l: Layer, lyrID: string, rows: Rows, i: nat, ctx: Context, fn: Callback, helpers: Helpers, st: Scan)
    requires i <= |rows.rows|
    requires forall n :: ctx(n).None?
    requires forall k, f :: fn(k, f).None?
    requires forall k :: i <= k < |rows.rows| ==> ReadableRow(l, rows, k, helpers)
    requires st.reported == "" || st.reported == lyrID + ":" + l.geomField
    ensures RowsStream(l, lyrID, rows, i, ctx, fn, helpers, AsWritten, st).warnings == st.warnings + CountUnsupported(l, rows, i, helpers)
    decreases |rows.rows| - i
  {
    if i < |rows.rows| {
      assert ReadableRow(l, rows, i, helpers);
      var d := helpers.decipherFields(l.geomField, l.idField, rows.columns, rows.rows[i].value).value;
      if |d.geobytes| == 0 {
        WarnsEveryUnsupportedRow(l, lyrID, rows, i + 1, ctx, fn, helpers, st);
      } else if UnsupportedRow(l, rows, i, helpers) {
        WarnsEveryUnsupportedRow(l, lyrID, rows, i + 1, ctx, fn, helpers, Noted(AsWritten, st, lyrID + ":" + l.geomField));
      } else {
        var f := Feature(d.gid, Some(helpers.decodeWkb(d.geobytes).value), l.srid, d.tags);
        WarnsEveryUnsupportedRow(l, lyrID, rows, i + 1, ctx, fn, helpers, st.(emitted := st.emitted + [f]));
      }
    }
  }

  /**
   * The intended guard on the same rows logs exactly once when there is any
   * unsupported row and the layer field was not yet reported.
   */
  lemma {:induction false} WarnsOnceIfAny(l: Layer, lyrID: string, rows: Rows, i: nat, ctx: Context, fn: Callback, helpers: Helpers, st: Scan)
    requires i <= |rows.rows|
    requires forall n :: ctx(n).None?
    requires forall k, f :: fn(k, f).None?
    requires forall k :: i <= k < |rows.rows| ==> ReadableRow(l, rows, k, helpers)
    ensures RowsStream(l, lyrID, rows, i, ctx, fn, helpers, Once, st).warnings ==
            st.warnings + (if CountUnsupported(l, rows, i, helpers) > 0 && st.reported != lyrID + ":" + l.geomField then 1 else 0)
    decreases |rows.rows| - i
  {
    if i < |rows.rows| {
      assert ReadableRow(l, rows, i, helpers);
      var d := helpers.decipherFields(l.geomField, l.idField, rows.columns, rows.rows[i].value).value;
      if |d.geobytes| == 0 {
        WarnsOnceIfAny(l, lyrID, rows, i + 1, ctx, fn, helpers, st);
      } else if UnsupportedRow(l, rows, i, helpers) {
        WarnsOnceIfAny(l, lyrID, rows, i + 1, ctx, fn, helpers, Noted(Once, st, lyrID + ":" + l.geomField));
      } else {
        var f := Feature(d.gid, Some(helpers.decodeWkb(d.geobytes).value), l.srid, d.tags);
        WarnsOnceIfAny(l, lyrID, rows, i + 1, ctx, fn, helpers, st.(emitted := st.emitted + [f]));
      }
    }
  }

  /** The guard decides only what is logged: the stream is the same under either guard. */
  lemma {:induction false} StreamIgnoresGuard(l: Layer, lyrID: string, rows: Rows, i: nat, ctx: Context, fn: Callback, helpers: Helpers, st1: Scan, st2: Scan)
    requires i <= |rows.rows|
    requires st1.emitted == st2.emitted
    ensures RowsStream(l, lyrID, rows, i, ctx, fn, helpers, AsWritten, st1).stream == RowsStream(l, lyrID, rows, i, ctx, fn, helpers, Once, st2).stream
    decreases |rows.rows| - i
  {
    if i < |rows.rows| && ctx(i + 1).None? && rows.rows[i].Success? {
      var d := helpers.decipherFields(l.geomField, l.idField, rows.columns, rows.rows[i].value);
      if d.Success? {
        if |d.value.geobytes| == 0 {
          StreamIgnoresGuard(l, lyrID, rows, i + 1, ctx, fn, helpers, st1, st2);
        } else {
          var w := helpers.decodeWkb(d.value.geobytes);
          var rplfn := lyrID + ":" + l.geomField;
          if w == Failure(UnknownGeometryType) {
            StreamIgnoresGuard(l, lyrID, rows, i + 1, ctx, fn, helpers, Noted(AsWritten, st1, rplfn), Noted(Once, st2, rplfn));
          } else if w.Success? {
            var f := Feature(d.value.gid, Some(w.value), l.srid, d.value.tags);
            StreamIgnoresGuard(l, lyrID, rows, i + 1, ctx, fn, helpers, st1.(emitted := st1.emitted + [f]), st2.(emitted := st2.emitted + [f]));
          }
        }
      }
    }
  }

  /**
   * Two rows of an unknown geometry type in one tile: the program logs two
   * warnings where its comment intends one, and streams nothing either way.
   */
  lemma TwoUnsupportedRowsWarnTwice(l: Layer, lyrID: string, rows: Rows, ctx: Context, fn: Callback, helpers: Helpers)
    requires |rows.rows| == 2 && UnsupportedRow(l, rows, 0, helpers) && UnsupportedRow(l, rows, 1, helpers)
    requires ctx(1).None? && ctx(2).None?
    ensures RowsStream(l, lyrID, rows, 0, ctx, fn, helpers, AsWritten, Scan([], "", 0)) == TileRun(Stream([], rows.err), 2)
    ensures RowsStream(l, lyrID, rows, 0, ctx, fn, helpers, Once, Scan([], "", 0)) == TileRun(Stream([], rows.err), 1)
  {
    var rplfn := lyrID + ":" + l.geomField;
    assert RowsStream(l, lyrID, rows, 1, ctx, fn, helpers, AsWritten, Scan([], rplfn, 1)) == TileRun(Stream([], rows.err), 2);
    assert RowsStream(l, lyrID, rows, 1, ctx, fn, helpers, Once, Scan([], rplfn, 1)) == TileRun(Stream([], rows.err), 1);
  }

  /** A row that reads, deciphers to geometry bytes and decodes. */
  predicate GoodRow(l: Layer, rows: Rows, i: nat, helpers: Helpers)
    requires i < |rows.rows|
  {
    rows.rows[i].Success? &&
    var d := helpers.decipherFields(l.geomField, l.idField, rows.columns, rows.rows[i].value);
    d.Success? && |d.value.geobytes| > 0 && helpers.decodeWkb(d.value.geobytes).Success?
  }

  /**
   * Nothing is lost: when the context stays live, every row is good and the
   * callback accepts everything, each row becomes one feature, in row order,
   * and the call returns rows.Err().
   */
  lemma {:induction false} EveryGoodRowStreamed(l: Layer, lyrID: string, rows: Rows, i: nat, ctx: Context, fn: Callback, helpers: Helpers, guard: Guard, st: Scan)
    requires i <= |rows.rows|
    requires forall n :: ctx(n).None?
    requires forall k :: i <= k < |rows.rows| ==> GoodRow(l, rows, k, helpers)
    requires forall k, f :: fn(k, f).None?
    ensures var s := RowsStream(l, lyrID, rows, i, ctx, fn, helpers, guard, st).stream;
            |s.emitted| == |st.emitted| + |rows.rows| - i &&
            s.emitted[..|st.emitted|] == st.emitted &&
            (forall k :: i <= k < |rows.rows| && GoodRow(l, rows, k, helpers) ==>
               s.emitted[|st.emitted| + k - i].id ==
               helpers.decipherFields(l.geomField, l.idField, rows.columns, rows.rows[k].value).value.gid) &&
            s.err == rows.err
    decreases |rows.rows| - i
  {
    if i < |rows.rows| {
      assert GoodRow(l, rows, i, helpers);
      var d := helpers.decipherFields(l.geomField, l.idField, rows.columns, rows.rows[i].value).value;
      var f := Feature(d.gid, Some(helpers.decodeWkb(d.geobytes).value), l.srid, d.tags);
      var st' := st.(emitted := st.emitted + [f]);
      EveryGoodRowStreamed(l, lyrID, rows, i + 1, ctx, fn, helpers, guard, st');
      var s := RowsStream(l, lyrID, rows, i + 1, ctx, fn, helpers, guard, st').stream;
      assert s.emitted[..|st'.emitted|][..|st.emitted|] == s.emitted[..|st.emitted|];
      assert s.emitted[|st.emitted|] == s.emitted[..|st'.emitted|][|st.emitted|] == f;
    }
  }

  /** The feature a good row becomes. */
  function RowFeature(l: Layer, rows: Rows, i: nat, helpers: Helpers): Feature
    requires i < |rows.rows| && GoodRow(l, rows, i, helpers)
  {
    var d := helpers.decipherFields(l.geomField, l.idField, rows.columns, rows.rows[i].value).value;
    Feature(d.gid, Some(helpers.decodeWkb(d.geobytes).value), l.srid, d.tags)
  }

  /** The features of rows `i..`: one per good row, in order; rows without bytes or of an unknown type give none. */
  function GoodFeatures(l: Layer, rows: Rows, i: nat, helpers: Helpers): seq<Feature>
    requires i <= |rows.rows|
    decreases |rows.rows| - i
  {
    if i == |rows.rows| then []
    else if GoodRow(l, rows, i, helpers) then [RowFeature(l, rows, i, helpers)] + GoodFeatures(l, rows, i + 1, helpers)
    else GoodFeatures(l, rows, i + 1, helpers)
  }

  /**
   * Skipped rows do not stop the stream: when the context stays live, the
   * callback accepts everything and every row reads and deciphers, the call
   * hands over exactly the features of the good rows, in order, skipping
   * rows without geometry bytes and rows of an unknown type, and returns
   * rows.Err().
   */
  lemma {:induction false} ReadableRowsStreamed(l: Layer, lyrID: string, rows: Rows, i: nat, ctx: Context, fn: Callback, helpers: Helpers, guard: Guard, st: Scan)
    requires i <= |rows.rows|
    requires forall n :: ctx(n).None?
    requires forall k, f :: fn(k, f).None?
    requires forall k :: i <= k < |rows.rows| ==> ReadableRow(l, rows, k, helpers)
    ensures var s := RowsStream(l, lyrID, rows, i, ctx, fn, helpers, guard, st).stream;
            s.emitted == st.emitted + GoodFeatures(l, rows, i, helpers) && s.err == rows.err
    decreases |rows.rows| - i
  {
    if i < |rows.rows| {
      assert ReadableRow(l, rows, i, helpers);
      var d := helpers.decipherFields(l.geomField, l.idField, rows.columns, rows.rows[i].value).value;
      if |d.geobytes| == 0 {
        ReadableRowsStreamed(l, lyrID, rows, i + 1, ctx, fn, helpers, guard, st);
      } else if UnsupportedRow(l, rows, i, helpers) {
        ReadableRowsStreamed(l, lyrID, rows, i + 1, ctx, fn, helpers, guard, Noted(guard, st, lyrID + ":" + l.geomField));
      } else {
        var f := RowFeature(l, rows, i, helpers);
        ReadableRowsStreamed(l, lyrID, rows, i + 1, ctx, fn, helpers, guard, st.(emitted := st.emitted + [f]));
        assert st.emitted + [f] + GoodFeatures(l, rows, i + 1, helpers) == st.emitted + ([f] + GoodFeatures(l, rows, i + 1, helpers));
      }
    }
  }

  /**
   * A row whose fields cannot be deciphered ends the stream: context.Canceled
   * is returned unchanged, any other error wrapped with the layer.
   */
  lemma DecipherErrorEnds(l: Layer, lyrID: string, rows: Rows, i: nat, ctx: Context, fn: Callback, helpers: Helpers, guard: Guard, st: Scan, e: Error)
    requires i < |rows.rows| && ctx(i + 1).None? && rows.rows[i].Success?
    requires helpers.decipherFields(l.geomField, l.idField, rows.columns, rows.rows[i].value) == Failure(e)
    ensures e == Canceled ==> RowsStream(l, lyrID, rows, i, ctx, fn, helpers, guard, st) == TileRun(Stream(st.emitted, Some(Canceled)), st.warnings)
    ensures e != Canceled ==> RowsStream(l, lyrID, rows, i, ctx, fn, helpers, guard, st) == TileRun(Stream(st.emitted, Some(Wrapped("for layer", e))), st.warnings)
  {
  }

  // ---------------------------------------------------------------------------
  // MVTForLayers

  /** The stored layer for a requested id; a missing id is only logged and its zero Layer is used. */
  function LayerFor(layers: map<string, Layer>, ref: LayerRef): Layer {
    if ref.id in layers then layers[ref.id] else ZeroLayer
  }

  /** The ST_AsMVT subquery of one requested layer. */
  function Subquery(layers: map<string, Layer>, ref: LayerRef, tile: Tile, helpers: Helpers): Result<string, Error> {
    var l := LayerFor(layers, ref);
    var q :- helpers.replaceTokens(l.sql, l, tile, false);
    Success(AsMvtSubquery(ref.mvtName, l.geomField, l.idField, q))
  }

  /** The subqueries of layers `i..`, in order; the first replaceTokens error aborts. */
  function SubqueriesFrom(layers: map<string, Layer>, refs: seq<LayerRef>, i: nat, tile: Tile, helpers: Helpers): Result<seq<string>, Error>
    requires i <= |refs|
    decreases |refs| - i
  {
    if i == |refs| then Success([])
    else
      var q :- Subquery(layers, refs[i], tile, helpers);
      var rest :- SubqueriesFrom(layers, refs, i + 1, tile, helpers);
      Success([q] + rest)
  }

  /** The subqueries come one per requested layer, in the order requested. */
  lemma {:induction false} SubqueriesInOrder(layers: map<string, Layer>, refs: seq<LayerRef>, i: nat, tile: Tile, helpers: Helpers)
    requires i <= |refs|
    requires SubqueriesFrom(layers, refs, i, tile, helpers).Success?
    ensures var qs := SubqueriesFrom(layers, refs, i, tile, helpers).value;
            |qs| == |refs| - i &&
            forall k :: i <= k < |refs| ==> Subquery(layers, refs[k], tile, helpers) == Success(qs[k - i])
    decreases |refs| - i
  {
    if i < |refs| {
      var q := Subquery(layers, refs[i], tile, helpers);
      var rest := SubqueriesFrom(layers, refs, i + 1, tile, helpers);
      assert q.Success? && rest.Success?;
      var qs := [q.value] + rest.value;
      assert SubqueriesFrom(layers, refs, i, tile, helpers).value == qs;
      SubqueriesInOrder(layers, refs, i + 1, tile, helpers);
      forall k | i <= k < |refs|
        ensures Subquery(layers, refs[k], tile, helpers) == Success(qs[k - i])
      {
        if k == i {
          assert qs[k - i] == q.value;
        } else {
          assert qs[k - i] == rest.value[k - (i + 1)];
        }
      }
    }
  }

  /** A failure is the error of the first requested layer whose tokens could not be replaced. */
  lemma {:induction false} SubqueriesFailFirst(layers: map<string, Layer>, refs: seq<LayerRef>, i: nat, tile: Tile, helpers: Helpers)
    requires i <= |refs|
    requires SubqueriesFrom(layers, refs, i, tile, helpers).Failure?
    ensures exists k :: i <= k < |refs| &&
              Subquery(layers, refs[k], tile, helpers) == Failure(SubqueriesFrom(layers, refs, i, tile, helpers).error) &&
              forall j :: i <= j < k ==> Subquery(layers, refs[j], tile, helpers).Success?
    decreases |refs| - i
  {
    if Subquery(layers, refs[i], tile, helpers).Success? {
      SubqueriesFailFirst(layers, refs, i + 1, tile, helpers);
      var k :| i + 1 <= k < |refs| &&
               Subquery(layers, refs[k], tile, helpers) == Failure(SubqueriesFrom(layers, refs, i + 1, tile, helpers).error) &&
               forall j :: i + 1 <= j < k ==> Subquery(layers, refs[j], tile, helpers).Success?;
      assert forall j :: i <= j < k ==> Subquery(layers, refs[j], tile, helpers).Success?;
    }
  }

  /** The encoded tile and the error. */
  datatype TileBytes = TileBytes(data: seq<bv8>, err: Option<Error>)

  /** MVTForLayers: the subqueries joined with `||` into one query whose bytea is the tile; an error leaves no bytes. */
  function MVTForLayersSpec(layers: map<string, Layer>, refs: seq<LayerRef>, tile: Tile, pool: Pool, helpers: Helpers): (r: TileBytes)
    ensures r.err.Some? ==> r.data == []
  {
    match SubqueriesFrom(layers, refs, 0, tile, helpers)
    case Failure(e) => TileBytes([], Some(e))
    case Success(qs) =>
      match pool.scanBytes(TileQuery(qs))
      case Failure(e) => TileBytes([], Some(e))
      case Success(b) => TileBytes(b, None)
  }

  /** Prepends the subqueries built so far to the outcome for the rest. */
  function Prepend(qs: seq<string>, r: Result<seq<string>, Error>): Result<seq<string>, Error> {
    match r
    case Success(rest) => Success(qs + rest)
    case Failure(e) => Failure(e)
  }

  /** One more subquery moves from the outcome for the rest to the prefix built so far. */
  lemma PrependStep(layers: map<string, Layer>, refs: seq<LayerRef>, i: nat, tile: Tile, helpers: Helpers, qs: seq<string>, sub: string)
    requires i < |refs|
    requires Subquery(layers, refs[i], tile, helpers) == Success(sub)
    ensures Prepend(qs, SubqueriesFrom(layers, refs, i, tile, helpers)) == Prepend(qs + [sub], SubqueriesFrom(layers, refs, i + 1, tile, helpers))
  {
    match SubqueriesFrom(layers, refs, i + 1, tile, helpers) {
      case Success(rest) =>
        assert qs + ([sub] + rest) == (qs + [sub]) + rest;
      case Failure(_) =>
    }
  }

  // ---------------------------------------------------------------------------
  // AddLayer

  /** The layer record AddLayer starts from, before its SQL and geometry type are known. */
  function NewLayer(lid: string, c: LayerConfig): Layer {
    Layer(lid, c.name, c.idField, c.geomField, Uint64(c.srid), "", None)
  }

  /** Everything AddLayer does after the id checks: read the configuration, settle the SQL, then the geometry type. */
  function BuildLayer(lid: string, conf: Dicter, providerSrid: int, pool: Pool, helpers: Helpers): Result<Layer, Error> {
    var c :- ReadLayerConfig(lid, conf, providerSrid);
    var l0 := NewLayer(lid, c);
    var q :- LayerSQL(lid, c, conf, l0, helpers);
    var l1 := l0.(sql := q);
    if c.geomType != "" then Wrap(SetLayerGeomType(l1, c.geomType), "error fetching geometry type")
    else Wrap(InspectGeomType(l1, pool, helpers), "error fetching geometry type")
  }

  /** A layer AddLayer stores, under its id. */
  datatype Added = Added(lid: string, layer: Layer)

  /** AddLayer: the id must be readable and new to the catalog, then the layer must build. */
  function AddLayerSpec(layers: map<string, Layer>, providerSrid: int, conf: Dicter, pool: Pool, helpers: Helpers): Result<Added, Error> {
    var lid :- Wrap(conf.str(KeyLayerID, None), "AddLayer, layer id");
    if lid in layers then Failure(ErrLayerDuplicated(lid))
    else
      var l :- BuildLayer(lid, conf, providerSrid, pool, helpers);
      Success(Added(lid, l))
  }

  /** AddLayer records the id as the first layer once the id is read and found new, before anything else is checked. */
  predicate SetsFirstLayer(layers: map<string, Layer>, conf: Dicter) {
    conf.str(KeyLayerID, None).Success? && conf.str(KeyLayerID, None).value !in layers && |layers| == 0
  }

  /**
   * What an added layer is: new to the catalog, stored under its configured
   * id with its configured name, id field and SRID; its own SQL passed the
   * bbox and field checks; a configured geometry type was honoured.
   */
  lemma AddedLayerChecked(layers: map<string, Layer>, providerSrid: int, conf: Dicter, pool: Pool, helpers: Helpers)
    requires AddLayerSpec(layers, providerSrid, conf, pool, helpers).Success?
    ensures var a := AddLayerSpec(layers, providerSrid, conf, pool, helpers).value;
            var c := ReadLayerConfig(a.lid, conf, providerSrid);
            conf.str(KeyLayerID, None) == Success(a.lid) && a.lid !in layers &&
            c.Success? &&
            a.layer.id == a.lid && a.layer.name == c.value.name && a.layer.idField == c.value.idField &&
            a.layer.srid == Uint64(c.value.srid) &&
            (SourceOf(c.value).CustomSQL? ==>
               a.layer.sql == NormalizeBBox(c.value.sql) &&
               Contains(a.layer.sql, BBoxToken) &&
               (Contains(a.layer.sql, "*") || (Contains(a.layer.sql, c.value.geomField) && Contains(a.layer.sql, c.value.idField)))) &&
            (c.value.geomType != "" ==> a.layer.geomType == ConfiguredGeomType(c.value.geomType) && a.layer.geomField == c.value.geomField)
  {
    var lid := conf.str(KeyLayerID, None).value;
    var c := ReadLayerConfig(lid, conf, providerSrid).value;
    var l0 := NewLayer(lid, c);
    var q := LayerSQL(lid, c, conf, l0, helpers).value;
    var l1 := l0.(sql := q);
    if c.geomType == "" {
      var probe := GeomTypeProbe(l1.sql, l1.geomField);
      var l2 := l1.(geomField := probe.geomField);
      var pq := helpers.replaceTokens(probe.sql, l2, ProbeTile, true).value;
      var rows := pool.query(pq).value;
      assert InspectGeomType(l1, pool, helpers) == Success(l2.(geomType := RowsKind(rows, 0, l2.geomField, l2.geomType).value));
    }
  }

  // ---------------------------------------------------------------------------
  // CreateProvider

  /** The connection settings CreateProvider reads, before any conversion. */
  datatype Settings = Settings(
    host: string, database: string, user: string, password: string,
    sslMode: string, sslKey: string, sslCert: string, sslRootCert: string,
    port: int, maxConnections: int, srid: int)

  /** Reads the settings in the source's order; the first failing read is the error. */
  function ReadSettings(config: Dicter): (r: Result<Settings, Error>)
    ensures config.str(KeyHost, None).Failure? ==> r == Failure(config.str(KeyHost, None).error)
    ensures r.Success? ==>
              config.str(KeyHost, None) == Success(r.value.host) &&
              config.str(KeyDB, None) == Success(r.value.database) &&
              config.str(KeyUser, None) == Success(r.value.user) &&
              config.str(KeyPassword, None) == Success(r.value.password) &&
              config.str(KeySSLMode, Some(DefaultSSLMode)) == Success(r.value.sslMode) &&
              config.str(KeySSLKey, Some(DefaultSSLKey)) == Success(r.value.sslKey) &&
              config.str(KeySSLCert, Some(DefaultSSLCert)) == Success(r.value.sslCert) &&
              config.str(KeySSLRootCert, Some(DefaultSSLCert)) == Success(r.value.sslRootCert) &&
              config.integer(KeyPort, Some(DefaultPort)) == Success(r.value.port) &&
              config.integer(KeyMaxConn, Some(DefaultMaxConn)) == Success(r.value.maxConnections) &&
              config.integer(KeySRID, Some(DefaultSRID)) == Success(r.value.srid)
    ensures r.Failure? ==> exists key :: key in SettingKeys && SettingFails(config, key, r.error)
  {
    var host :- config.str(KeyHost, None);
    var db :- config.str(KeyDB, None);
    var user :- config.str(KeyUser, None);
    var password :- config.str(KeyPassword, None);
    var sslMode :- config.str(KeySSLMode, Some(DefaultSSLMode));
    var sslKey :- config.str(KeySSLKey, Some(DefaultSSLKey));
    var sslCert :- config.str(KeySSLCert, Some(DefaultSSLCert));
    var sslRootCert :- config.str(KeySSLRootCert, Some(DefaultSSLCert));
    var port :- config.integer(KeyPort, Some(DefaultPort));
    var maxConn :- config.integer(KeyMaxConn, Some(DefaultMaxConn));
    var srid :- config.integer(KeySRID, Some(DefaultSRID));
    Success(Settings(host, db, user, password, sslMode, sslKey, sslCert, sslRootCert, port, maxConn, srid))
  }

  /** The keys CreateProvider reads directly. */
  const SettingKeys: set<string> := {KeyHost, KeyDB, KeyUser, KeyPassword, KeySSLMode, KeySSLKey, KeySSLCert,
                                     KeySSLRootCert, KeyPort, KeyMaxConn, KeySRID}

  /** Reading `key` with its default failed with `e`. */
  predicate SettingFails(config: Dicter, key: string, e: Error) {
    match key
    case "host" => config.str(KeyHost, None) == Failure(e)
    case "database" => config.str(KeyDB, None) == Failure(e)
    case "user" => config.str(KeyUser, None) == Failure(e)
    case "password" => config.str(KeyPassword, None) == Failure(e)
    case "ssl_mode" => config.str(KeySSLMode, Some(DefaultSSLMode)) == Failure(e)
    case "ssl_key" => config.str(KeySSLKey, Some(DefaultSSLKey)) == Failure(e)
    case "ssl_cert" => config.str(KeySSLCert, Some(DefaultSSLCert)) == Failure(e)
    case "ssl_root_cert" => config.str(KeySSLRootCert, Some(DefaultSSLCert)) == Failure(e)
    case "port" => config.integer(KeyPort, Some(DefaultPort)) == Failure(e)
    case "max_connections" => config.integer(KeyMaxConn, Some(DefaultMaxConn)) == Failure(e)
    case "srid" => config.integer(KeySRID, Some(DefaultSRID)) == Failure(e)
    case _ => false
  }

  /** pgx.ConnConfig as CreateProvider fills it: a read-only session named "tegola". */
  datatype ConnConfig = ConnConfig(
    host: string, port: nat, database: string, user: string, password: string,
    runtimeParams: map<string, string>, tls: TlsSetup)

  /** pgx.ConnPoolConfig. */
  datatype PoolConfig = PoolConfig(conn: ConnConfig, maxConnections: int)

  /** The runtime parameters every connection is opened with. */
  const RuntimeParams: map<string, string> := map["default_transaction_read_only" := "TRUE", "application_name" := "tegola"]

  /** Everything CreateProvider settles before it adds the layers. */
  datatype Prepared = Prepared(srid: nat, config: PoolConfig, pool: Pool, layers: seq<Dicter>)

  /**
   * CreateProvider up to the layers: the settings, the TLS setup for the
   * mode, the connection pool (pgx.NewConnPool, a parameter here) and the
   * layer configurations.
   */
  function PrepareProvider(config: Dicter, files: CertFiles, connect: PoolConfig -> Result<Pool, Error>): (r: Result<Prepared, Error>)
    ensures r.Success? ==> r.value.srid < 0x1_0000_0000_0000_0000 && r.value.config.conn.port < 0x1_0000 &&
                           r.value.config.conn.runtimeParams == RuntimeParams
  {
    var s :- ReadSettings(config);
    var tls :- ConfigTLS(s.sslMode, s.sslKey, s.sslCert, s.sslRootCert, s.host, files);
    var pc := PoolConfig(ConnConfig(s.host, Uint16(s.port), s.database, s.user, s.password, RuntimeParams, tls), s.maxConnections);
    var pool :- Wrap(connect(pc), "Failed while creating connection pool");
    var layers :- config.mapSlice(KeyLayers);
    Success(Prepared(Uint64(s.srid), pc, pool, layers))
  }

  /** The steps of CreateProvider before the layers, in order: each failure is the error, else the provider's parts. */
  lemma PrepareProviderSteps(config: Dicter, files: CertFiles, connect: PoolConfig -> Result<Pool, Error>)
    ensures ReadSettings(config).Failure? ==> PrepareProvider(config, files, connect) == Failure(ReadSettings(config).error)
    ensures ReadSettings(config).Success? ==>
              var s := ReadSettings(config).value;
              var tls := ConfigTLS(s.sslMode, s.sslKey, s.sslCert, s.sslRootCert, s.host, files);
              (tls.Failure? ==> PrepareProvider(config, files, connect) == Failure(tls.error)) &&
              (tls.Success? ==>
                 var pc := PoolConfig(ConnConfig(s.host, Uint16(s.port), s.database, s.user, s.password, RuntimeParams, tls.value), s.maxConnections);
                 (connect(pc).Failure? ==> PrepareProvider(config, files, connect) == Failure(Wrapped("Failed while creating connection pool", connect(pc).error))) &&
                 (connect(pc).Success? && config.mapSlice(KeyLayers).Failure? ==> PrepareProvider(config, files, connect) == Failure(config.mapSlice(KeyLayers).error)) &&
                 (PrepareProvider(config, files, connect).Success? ==> PrepareProvider(config, files, connect).value == Prepared(Uint64(s.srid), pc, connect(pc).value, config.mapSlice(KeyLayers).value)))
  {
  }

  /** The catalog after one AddLayer call whose error is ignored. */
  function AddOne(m: map<string, Layer>, srid: int, conf: Dicter, pool: Pool, helpers: Helpers): map<string, Layer> {
    match AddLayerSpec(m, srid, conf, pool, helpers)
    case Success(a) => m[a.lid := a.layer]
    case Failure(_) => m
  }

  /** The catalog after AddLayer on confs[i..], in order, errors ignored. */
  function AddAll(m: map<string, Layer>, srid: int, confs: seq<Dicter>, i: nat, pool: Pool, helpers: Helpers): map<string, Layer>
    requires i <= |confs|
    decreases |confs| - i
  {
    if i == |confs| then m else AddAll(AddOne(m, srid, confs[i], pool, helpers), srid, confs, i + 1, pool, helpers)
  }

  /** One step of AddAll. */
  lemma AddAllStep(m: map<string, Layer>, srid: int, confs: seq<Dicter>, i: nat, pool: Pool, helpers: Helpers)
    requires i < |confs|
    ensures AddAll(m, srid, confs, i, pool, helpers) == AddAll(AddOne(m, srid, confs[i], pool, helpers), srid, confs, i + 1, pool, helpers)
  {
  }

  /** One AddLayer call keeps every layer already stored and stores a new one only under its configured id. */
  lemma AddOneKeeps(m: map<string, Layer>, srid: int, conf: Dicter, pool: Pool, helpers: Helpers)
    requires forall id :: id in m ==> m[id].id == id
    ensures var m1 := AddOne(m, srid, conf, pool, helpers);
            (forall id :: id in m ==> id in m1 && m1[id] == m[id]) &&
            (forall id :: id in m1 ==> m1[id].id == id) &&
            (forall id :: id in m1 && id !in m ==> conf.str(KeyLayerID, None) == Success(id))
  {
    if AddLayerSpec(m, srid, conf, pool, helpers).Success? {
      AddedLayerChecked(m, srid, conf, pool, helpers);
    }
  }

  /**
   * Adding layers never replaces or drops one already in the catalog, keeps
   * every layer under its own id, and each new id is the id of some layer
   * configuration that was added.
   */
  lemma {:induction false} AddAllKeeps(m: map<string, Layer>, srid: int, confs: seq<Dicter>, i: nat, pool: Pool, helpers: Helpers)
    requires i <= |confs|
    requires forall id :: id in m ==> m[id].id == id
    ensures var m' := AddAll(m, srid, confs, i, pool, helpers);
            (forall id :: id in m ==> id in m' && m'[id] == m[id]) &&
            (forall id :: id in m' ==> m'[id].id == id) &&
            (forall id :: id in m' && id !in m ==> exists j :: i <= j < |confs| && confs[j].str(KeyLayerID, None) == Success(id))
    decreases |confs| - i
  {
    if i < |confs| {
      var m1 := AddOne(m, srid, confs[i], pool, helpers);
      AddOneKeeps(m, srid, confs[i], pool, helpers);
      AddAllKeeps(m1, srid, confs, i + 1, pool, helpers);
      var m' := AddAll(m1, srid, confs, i + 1, pool, helpers);
      forall id | id in m' && id !in m
        ensures exists j :: i <= j < |confs| && confs[j].str(KeyLayerID, None) == Success(id)
      {
        if id in m1 {
          assert confs[i].str(KeyLayerID, None) == Success(id);
        } else {
          var j :| i + 1 <= j < |confs| && confs[j].str(KeyLayerID, None) == Success(id);
        }
      }
    }
  }

  // ---------------------------------------------------------------------------
  // The provider

  /** The invariant of listing a provider's layers: every id in `seen` listed once, as its layer's info. */
  ghost predicate ListsLayers(m: map<string, Layer>, seen: set<string>, ls: seq<LayerInfo>) {
    seen <= m.Keys &&
    (forall id :: id in seen ==> Info(m[id]) in ls) &&
    (forall k :: 0 <= k < |ls| ==> ls[k].id in seen && ls[k].id in m && ls[k] == Info(m[ls[k].id])) &&
    (forall i, j :: 0 <= i < j < |ls| ==> ls[i].id != ls[j].id)
  }

  /** Listing one more layer, not listed yet and stored under its own id, keeps the listing invariant. */
  lemma {:induction false} ListOneMore(m: map<string, Layer>, seen: set<string>, ls: seq<LayerInfo>, id: string)
    requires id in m && id !in seen && m[id].id == id
    requires ListsLayers(m, seen, ls)
    ensures ListsLayers(m, seen + {id}, ls + [Info(m[id])])
  {
    var ls' := ls + [Info(m[id])];
    forall x | x in seen + {id} ensures Info(m[x]) in ls' {
      if x == id {
        assert ls'[|ls|] == Info(m[id]);
      } else {
        assert Info(m[x]) in ls;
      }
    }
    forall k | 0 <= k < |ls'| ensures ls'[k].id in seen + {id} && ls'[k].id in m && ls'[k] == Info(m[ls'[k].id]) {
      if k < |ls| {
        assert ls'[k] == ls[k];
      }
    }
    forall i, j | 0 <= i < j < |ls'| ensures ls'[i].id != ls'[j].id {
      assert ls'[i] == ls[i];
      if j < |ls| {
        assert ls'[j] == ls[j];
      } else {
        assert ls[i].id in seen;
      }
    }
  }

  /** Once every key is listed, the listing holds each layer's info exactly once. */
  lemma ListedAll(m: map<string, Layer>, ls: seq<LayerInfo>)
    requires ListsLayers(m, m.Keys, ls)
    ensures forall id :: id in m ==> Info(m[id]) in ls
    ensures forall k :: 0 <= k < |ls| ==> ls[k].id in m && ls[k] == Info(m[ls[k].id])
    ensures forall i, j :: 0 <= i < j < |ls| ==> ls[i].id != ls[j].id
  {
  }

  /** One more key seen: the seen set grows by one and the unseen keys shrink. */
  lemma OneMoreKey(keys: set<string>, seen: set<string>, id: string)
    requires id in keys && id !in seen
    ensures |seen + {id}| == |seen| + 1
    ensures |keys - (seen + {id})| < |keys - seen|
  {
    assert keys - seen == (keys - (seen + {id})) + {id};
  }

  /** The loop of Provider.Layers (a range over the catalog) for a catalog whose layers are stored under their own ids. */
  method ListLayers(m: map<string, Layer>) returns (ls: seq<LayerInfo>)
    requires forall id :: id in m ==> m[id].id == id
    ensures |ls| == |m|
    ensures forall id :: id in m ==> Info(m[id]) in ls
    ensures forall k :: 0 <= k < |ls| ==> ls[k].id in m && ls[k] == Info(m[ls[k].id])
    ensures forall i, j :: 0 <= i < j < |ls| ==> ls[i].id != ls[j].id
  {
    ls := [];
    var seen: set<string> := {};
    while seen != m.Keys
      invariant |ls| == |seen|
      invariant ListsLayers(m, seen, ls)
      decreases |m.Keys - seen|
    {
      var id :| id in m.Keys - seen;
      ListOneMore(m, seen, ls, id);
      OneMoreKey(m.Keys, seen, id);
      seen := seen + {id};
      ls := ls + [Info(m[id])];
    }
    ListedAll(m, ls);
  }

  /** postgis.Provider: its layer catalog, default SRID and first layer id, over a connection pool. */
  class PgProvider {
    var layers: map<string, Layer>
    var srid: nat
    var firstlayer: string
    const pool: Pool
    const helpers: Helpers

    /** The SRID fits a uint64, and every layer is stored under its own id. */
    ghost predicate Valid()
      reads this
    {
      srid < 0x1_0000_0000_0000_0000 &&
      forall id :: id in layers ==> layers[id].id == id
    }

    constructor (srid: nat, pool: Pool, helpers: Helpers)
      requires srid < 0x1_0000_0000_0000_0000
      ensures Valid()
      ensures layers == map[] && this.srid == srid && firstlayer == ""
      ensures this.pool == pool && this.helpers == helpers
    {
      layers := map[];
      this.srid := srid;
      firstlayer := "";
      this.pool := pool;
      this.helpers := helpers;
    }

    /** The steps of AddLayer after the id checks: configuration, SQL, then the geometry type, set or probed. */
    method BuildLayerFor(lid: string, conf: Dicter) returns (r: Result<Layer, Error>)
      requires Valid()
      ensures r == BuildLayer(lid, conf, ToInt64(srid), pool, helpers)
    {
      var c := ReadLayerConfig(lid, conf, ToInt64(srid));
      if c.Failure? {
        return Failure(c.error);
      }
      var l := NewLayer(lid, c.value);
      var q := LayerSQL(lid, c.value, conf, l, helpers);
      if q.Failure? {
        return Failure(q.error);
      }
      l := l.(sql := q.value);
      var typed: Result<Layer, Error>;
      if c.value.geomType != "" {
        typed := SetLayerGeomType(l, c.value.geomType);
      } else {
        typed := InspectLayerGeomType(l);
      }
      if typed.Failure? {
        return Failure(Wrapped("error fetching geometry type", typed.error));
      }
      r := typed;
    }

    /**
     * AddLayer: on success the layer is stored under its id and nothing else
     * in the catalog changes; on failure the catalog is unchanged.  The first
     * layer id is recorded before the configuration is validated.
     */
    method AddLayer(conf: Dicter) returns (err: Option<Error>)
      requires Valid()
      modifies this
      ensures Valid()
      ensures srid == old(srid)
      ensures var r := AddLayerSpec(old(layers), ToInt64(old(srid)), conf, pool, helpers);
              err == r.Err() &&
              (r.Success? ==> layers == old(layers)[r.value.lid := r.value.layer]) &&
              (r.Failure? ==> layers == old(layers))
      ensures layers == AddOne(old(layers), ToInt64(old(srid)), conf, pool, helpers)
      ensures firstlayer == (if SetsFirstLayer(old(layers), conf) then conf.str(KeyLayerID, None).value else old(firstlayer))
    {
      var lidR := conf.str(KeyLayerID, None);
      if lidR.Failure? {
        return Some(Wrapped("AddLayer, layer id", lidR.error));
      }
      var lid := lidR.value;
      if lid in layers {
        return Some(ErrLayerDuplicated(lid));
      }
      if |layers| == 0 {
        firstlayer := lid;
      }
      var typed := BuildLayerFor(lid, conf);
      if typed.Failure? {
        return Some(typed.error);
      }
      AddedLayerChecked(layers, ToInt64(srid), conf, pool, helpers);
      layers := layers[lid := typed.value];
      err := None;
    }

    /** CreateProvider's loop: AddLayer on each configuration in order, its errors ignored. */
    method AddLayers(confs: seq<Dicter>)
      requires Valid()
      modifies this
      ensures Valid() && srid == old(srid)
      ensures layers == AddAll(old(layers), ToInt64(srid), confs, 0, pool, helpers)
    {
      var i := 0;
      while i < |confs|
        invariant 0 <= i <= |confs|
        invariant Valid() && srid == old(srid)
        invariant AddAll(old(layers), ToInt64(srid), confs, 0, pool, helpers) == AddAll(layers, ToInt64(srid), confs, i, pool, helpers)
      {
        ghost var before := layers;
        var ignored := AddLayer(confs[i]);
        AddAllStep(before, ToInt64(srid), confs, i, pool, helpers);
        i := i + 1;
      }
    }

    /** inspectLayerGeomType, row by row and cell by cell. */
    method InspectLayerGeomType(l: Layer) returns (r: Result<Layer, Error>)
      ensures r == InspectGeomType(l, pool, helpers)
    {
      var probe := GeomTypeProbe(l.sql, l.geomField);
      var l1 := l.(geomField := probe.geomField);
      var q := helpers.replaceTokens(probe.sql, l1, ProbeTile, true);
      if q.Failure? {
        return Failure(q.error);
      }
      var rowsR := pool.query(q.value);
      if rowsR.Failure? {
        return Failure(rowsR.error);
      }
      var rows := rowsR.value;
      var cols := rows.columns;
      var field := l1.geomField;
      var kind := l1.geomType;
      var i := 0;
      while i < |rows.rows|
        invariant i <= |rows.rows|
        invariant RowsKind(rows, 0, field, l1.geomType) == RowsKind(rows, i, field, kind)
      {
        if rows.rows[i].Failure? {
          return Failure(Wrapped("error running SQL", rows.rows[i].error));
        }
        var vals := rows.rows[i].value;
        ghost var rowStart := kind;
        var j := 0;
        while j < |vals|
          invariant j <= |vals|
          invariant CellsKind(cols, vals, 0, field, rowStart) == CellsKind(cols, vals, j, field, kind)
        {
          if j >= |cols| {
            return Failure(Panic("index out of range"));
          }
          if cols[j] == field || cols[j] == "st_geometrytype" {
            var k := ProbedCell(vals[j]);
            if k.Failure? {
              return Failure(k.error);
            }
            kind := Some(k.value);
          }
          j := j + 1;
        }
        i := i + 1;
      }
      if rows.err.Some? {
        return Failure(rows.err.value);
      }
      return Success(l1.(geomType := kind));
    }

    /** inspectLayerMaxZoom: counts features zoom by zoom, from the extent's bound zoom up to 16. */
    method InspectLayerMaxZoom(l: Layer) returns (z: int)
      ensures z == InspectMaxZoom(l, pool, helpers)
    {
      var x := InspectLayerExtent(l, pool, helpers);
      if x.err.Some? {
        return MaxProbeZoom;
      }
      z := ProbeZooms(CountProbe(x.layer.sql), x.layer, x.extent, helpers.boundZoom(x.extent));
    }

    /** The loop of inspectLayerMaxZoom, from zoom `minZoom` on. */
    method ProbeZooms(probe: string, l: Layer, ext: Extent, minZoom: int) returns (z: int)
      ensures z == MaxZoomFrom(probe, l, ext, minZoom, pool, helpers)
    {
      z := minZoom;
      while z < MaxProbeZoom
        invariant MaxZoomFrom(probe, l, ext, minZoom, pool, helpers) == MaxZoomFrom(probe, l, ext, z, pool, helpers)
        decreases MaxProbeZoom - z
      {
        var q := helpers.replaceTokens(probe, l, helpers.centerTile(ext, z), true);
        if q.Failure? {
          return MaxProbeZoom;
        }
        var cnt := pool.scanInt(q.value);
        if cnt.Failure? {
          return MaxProbeZoom;
        }
        if cnt.value < CountThreshold {
          return z;
        }
        z := z + 1;
      }
      return MaxProbeZoom;
    }

    /** Layer: the stored layer and true, or the zero layer and false. */
    function Layer(lyrID: string): (r: (LayerInfo, bool))
      reads this
      ensures r.1 <==> lyrID in layers
      ensures r.0 == Info(if lyrID in layers then layers[lyrID] else ZeroLayer)
    {
      if lyrID in layers then (Info(layers[lyrID]), true) else (Info(ZeroLayer), false)
    }

    /** Layers: one entry per stored layer, each listed once; the error is always nil. */
    method Layers() returns (ls: seq<LayerInfo>)
      requires Valid()
      ensures |ls| == |layers|
      ensures forall id :: id in layers ==> Info(layers[id]) in ls
      ensures forall k :: 0 <= k < |ls| ==> ls[k].id in layers && ls[k] == Info(layers[ls[k].id])
      ensures forall i, j :: 0 <= i < j < |ls| ==> ls[i].id != ls[j].id
    {
      ls := ListLayers(layers);
    }

    /** TileFeatures: streams the layer's features to `fn`, checking the context before the query and before each row. */
    method TileFeatures(lyrID: string, tile: Tile, ctx: Context, fn: Callback) returns (r: TileRun)
      ensures r == TileFeaturesSpec(layers, lyrID, tile, ctx, fn, pool, helpers)
    {
      if lyrID !in layers {
        return TileRun(Stream([], Some(ErrLayerNotFound(lyrID))), 0);
      }
      var l := layers[lyrID];
      var q := helpers.replaceTokens(l.sql, l, tile, true);
      if q.Failure? {
        return TileRun(Stream([], Some(Wrapped("error replacing layer tokens", q.error))), 0);
      }
      if ctx(0).Some? {
        return TileRun(Stream([], ctx(0)), 0);
      }
      var rowsR := pool.query(q.value);
      if rowsR.Failure? {
        return TileRun(Stream([], Some(Wrapped("error running layer SQL", rowsR.error))), 0);
      }
      var rows := rowsR.value;
      var found := false;
      var k := 0;
      while k < |rows.columns|
        invariant k <= |rows.columns|
        invariant !found && l.geomField !in rows.columns[..k]
      {
        if rows.columns[k] == l.geomField {
          found := true;
          break;
        }
        k := k + 1;
      }
      if !found {
        assert rows.columns[..k] == rows.columns;
        return TileRun(Stream([], Some(ErrGeomFieldNotFound(l.geomField, l.name))), 0);
      }
      var emitted: seq<Feature> := [];
      var reported := "";
      var warnings := 0;
      var i := 0;
      while i < |rows.rows|
        invariant i <= |rows.rows|
        invariant TileFeaturesSpec(layers, lyrID, tile, ctx, fn, pool, helpers) ==
                  RowsStream(l, lyrID, rows, i, ctx, fn, helpers, AsWritten, Scan(emitted, reported, warnings))
      {
        if ctx(i + 1).Some? {
          return TileRun(Stream(emitted, ctx(i + 1)), warnings);
        }
        if rows.rows[i].Failure? {
          return TileRun(Stream(emitted, Some(Wrapped("error running layer SQL", rows.rows[i].error))), warnings);
        }
        var d := helpers.decipherFields(l.geomField, l.idField, rows.columns, rows.rows[i].value);
        if d.Failure? {
          if d.error == Canceled {
            return TileRun(Stream(emitted, Some(d.error)), warnings);
          }
          return TileRun(Stream(emitted, Some(Wrapped("for layer", d.error))), warnings);
        }
        if |d.value.geobytes| == 0 {
          i := i + 1;
          continue;
        }
        var g := helpers.decodeWkb(d.value.geobytes);
        if g.Failure? {
          if g.error == UnknownGeometryType {
            var rplfn := lyrID + ":" + l.geomField;
            if reported == "" || reported == rplfn {
              reported := rplfn;
              warnings := warnings + 1;
            }
            i := i + 1;
            continue;
          }
          return TileRun(Stream(emitted, Some(Wrapped("unable to decode layer geometry", g.error.cause))), warnings);
        }
        var f := Feature(d.value.gid, Some(g.value), l.srid, d.value.tags);
        var cbErr := fn(|emitted|, f);
        emitted := emitted + [f];
        if cbErr.Some? {
          return TileRun(Stream(emitted, cbErr), warnings);
        }
        i := i + 1;
      }
      return TileRun(Stream(emitted, rows.err), warnings);
    }

    /** MVTForLayers: one subquery per requested layer, in order, sent as one query. */
    method MVTForLayers(tile: Tile, refs: seq<LayerRef>) returns (r: TileBytes)
      ensures r == MVTForLayersSpec(layers, refs, tile, pool, helpers)
    {
      var sqls: seq<string> := [];
      assert Prepend([], SubqueriesFrom(layers, refs, 0, tile, helpers)) == SubqueriesFrom(layers, refs, 0, tile, helpers) by {
        var all := SubqueriesFrom(layers, refs, 0, tile, helpers);
        if all.Success? {
          assert [] + all.value == all.value;
        }
      }
      for i := 0 to |refs|
        invariant SubqueriesFrom(layers, refs, 0, tile, helpers) == Prepend(sqls, SubqueriesFrom(layers, refs, i, tile, helpers))
      {
        var l := LayerFor(layers, refs[i]);
        var q := helpers.replaceTokens(l.sql, l, tile, false);
        if q.Failure? {
          return TileBytes([], Some(q.error));
        }
        var sub := AsMvtSubquery(refs[i].mvtName, l.geomField, l.idField, q.value);
        PrependStep(layers, refs, i, tile, helpers, sqls, sub);
        sqls := sqls + [sub];
      }
      assert sqls + [] == sqls;
      var data := pool.scanBytes(TileQuery(sqls));
      if data.Failure? {
        return TileBytes([], Some(data.error));
      }
      return TileBytes(data.value, None);
    }

    /** LayerExtent: the probed extent of a stored layer; an unknown id gives the world and an error. */
    function LayerExtent(lyrID: string): (r: (Extent, Option<Error>))
      reads this
      ensures lyrID !in layers ==> r == (WorldExtent, Some(ErrLayerIDNotExist))
      ensures lyrID in layers ==>
                r == (InspectLayerExtent(layers[lyrID], pool, helpers).extent, InspectLayerExtent(layers[lyrID], pool, helpers).err)
      ensures r.1.Some? ==> r.0 == WorldExtent
    {
      if lyrID !in layers then (WorldExtent, Some(ErrLayerIDNotExist))
      else
        var x := InspectLayerExtent(layers[lyrID], pool, helpers);
        (x.extent, x.err)
    }

    /** LayerMinZoom: the probed minimum zoom of a stored layer, 0 for an unknown id. */
    function LayerMinZoom(lyrID: string): (z: int)
      reads this
      ensures lyrID !in layers ==> z == 0
      ensures lyrID in layers && LayerExtent(lyrID).1.Some? ==> z == 0
      ensures lyrID in layers ==> z == InspectLayerMinZoom(layers[lyrID], pool, helpers)
    {
      if lyrID !in layers then 0 else InspectLayerMinZoom(layers[lyrID], pool, helpers)
    }

    /** LayerMaxZoom: the probed maximum zoom of a stored layer, 16 for an unknown id; never above 16. */
    method LayerMaxZoom(lyrID: string) returns (z: int)
      ensures lyrID !in layers ==> z == MaxProbeZoom
      ensures lyrID in layers ==> z == InspectMaxZoom(layers[lyrID], pool, helpers)
      ensures z <= MaxProbeZoom
    {
      if lyrID !in layers {
        return MaxProbeZoom;
      }
      z := InspectLayerMaxZoom(layers[lyrID]);
    }
  }

  /**
   * The package's list of created providers: CreateProvider tracks each
   * provider it returns, and Cleanup closes them all and forgets them.
   */
  class Instances {
    var providers: seq<PgProvider>

    constructor ()
      ensures providers == []
    {
      providers := [];
    }

    /**
     * CreateProvider: prepare the settings, TLS and pool, then add every
     * configured layer in order, ignoring AddLayer's errors, and track the
     * new provider.
     */
    method CreateProvider(config: Dicter, files: CertFiles, connect: PoolConfig -> Result<Pool, Error>, helpers: Helpers)
      returns (p: PgProvider?, err: Option<Error>)
      modifies this
      ensures var r := PrepareProvider(config, files, connect);
              err == r.Err() &&
              (r.Failure? ==> p == null && providers == old(providers)) &&
              (r.Success? ==>
                 p != null && fresh(p) && p.Valid() && providers == old(providers) + [p] &&
                 p.srid == r.value.srid && p.pool == r.value.pool && p.helpers == helpers &&
                 p.layers == AddAll(map[], ToInt64(r.value.srid), r.value.layers, 0, r.value.pool, helpers))
    {
      var r := PrepareProvider(config, files, connect);
      if r.Failure? {
        return null, Some(r.error);
      }
      var prep := r.value;
      p := new PgProvider(prep.srid, prep.pool, helpers);
      p.AddLayers(prep.layers);
      providers := providers + [p];
      err := None;
    }

    /** Cleanup: every tracked provider's pool is closed (the returned list), and none stays tracked. */
    method Cleanup() returns (closed: seq<PgProvider>)
      modifies this
      ensures closed == old(providers)
      ensures providers == []
    {
      closed := providers;
      providers := [];
    }
  }
}
