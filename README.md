# tegola's data providers and map registration, in Dafny

tegola is a vector tile server. Its tiles are drawn from *providers*. A
provider is a driver that owns a set of layers and streams each layer's
features for a tile. This project models the provider core:

- **The driver registry** (`provider/provider.go`).
  - Standard and MVT drivers register under one name space.
  - `Drivers` lists names by provider type.
  - `For` instantiates a driver into a `TilerUnion`, which forwards every call to whichever side is set.
  - `Cleanup` runs each driver's cleanup callback once.
  - The provider-type bit filter and its `TypeAll` constant are modelled too.
- **The PostGIS provider** (`provider/postgis/postgis.go`).
  - Connection settings and TLS configuration.
  - Validation of a layer's configuration: custom SQL versus table name, and `!BBOX!` normalisation.
  - The geometry-type and extent probes. These rewrite the layer's SQL with the same case-insensitive lazy regular expressions the Go code uses.
  - The max-zoom search.
  - Feature streaming, including the "unsupported geometry" warning.
  - The single-query MVT path.
  - The package-level list of live providers.
- **The GeoPackage provider** (`provider/gpkg/gpkg.go`, `provider/gpkg/layer.go`).
  - Layer configuration from a table name or from custom SQL, including the `!ZOOM!` operator replacer.
  - Building the tile query.
  - Decoding a row, column by column, into a feature.
  - The layer catalog.
- **The debug provider** (`provider/debug`): the tile-outline and tile-centre layers.
- **The empty-collection test provider** (`provider/test`): it counts its instances.
- **Map registration** (`cmd/internal/register/maps.go`).
  - A configured map becomes an atlas map.
  - Each layer's provider is selected. A map served by an MVT provider takes all its layers from that one provider.
  - Each layer is looked up in the provider's catalog by id.
  - The first error stops registration.

## How it is modelled

**Stateful objects are classes.** The objects the Go code mutates are classes whose methods carry `modifies` clauses:

- the registry map: `Provider.Registry`;
- a PostGIS provider's layer map: `Postgis.PgProvider`;
- the live-provider list: `Postgis.Instances`;
- the GeoPackage layer map: `Gpkg.GpkgProvider`;
- the test provider's counter: `EmptyCollection.Package`;
- the atlas: `Register.Atlas`.

Each such method is proved against a specification function. That function carries the properties, as lemmas.

**The two defects under "## Findings" are modelled as written.** The methods do what the code does. The corrected behaviour is a separate definition, with its intended property proved.

**Case folding covers every character that folds to or from an ASCII one.** `strings.ToLower` also maps U+0130 to `i` and the Kelvin sign to `k`. An RE2 `(?i)` literal also matches the long s (U+017F) for `s` and the Kelvin sign for `k`. Every string the providers compare in lower case, and every pattern they fold, is ASCII, so the model is exact there.

**Loops are loops.** Go's loops are methods with loop invariants:

- map-range listings;
- row loops;
- the zoom search;
- the registry scans;
- the byte copy;
- the layer search.

**Everything the code calls but this model does not see is an oracle.** These are records of functions:

- the database (`Pool`, `GpkgDb`);
- certificate files;
- `dict.Dicter`;
- `replaceTokens`, `genSQL`/`genMvtSQL`, `decipherFields`, WKB and GeoPackage-binary decoding;
- `strconv.ParseFloat`;
- `html.EscapeString`;
- `ProviderLayerID`.

A `context.Context` is a function from the n-th check to an optional error. A feature callback is a function from (call number, feature) to an optional error.

**Integers and errors.** Go's integer conversions are explicit:

- `uint64(int)` wraps;
- `uint16(port)` truncates;
- `int(uint64)` reinterprets.

Where Go would panic, the model returns an error value:

- the nil `TLSConfig` dereference in `ConfigTLS` for ssl mode "allow" with a root certificate or a certificate pair;
- the short `BOX(...)` corner in `inspectLayerExtent`;
- the index out of range of `fdescs[i]` in `inspectLayerGeomType` when a row has more values than field descriptions.

## Model

| member | source | states |
|---|---|---|
| Provider.Prefix | provider/provider.go:32-37 | the prefix is "mvt_" exactly for the MVT type and empty for every other type |
| Provider.TypeName | provider/provider.go:39-44 | "MVT Provider" exactly for the MVT type, "Standard Provider" otherwise |
| Provider.FilterInclude | provider/provider.go:48-54 | the loop's result is the OR of all the given types |
| Provider.IncludeHasBit | provider/provider.go:48-54 | a bit is set in the OR of the types exactly when some type has it |
| Provider.SomeTypeIncluded | provider/provider.go:48-54 | a type that has a bit puts that bit into the OR of the types |
| Provider.IncludedFromSomeType | provider/provider.go:48-54 | a bit of the OR of the types names a type that has it |
| Provider.IsMeansSomeTypeMatches | provider/provider.go:59-62 | Is holds exactly when the filter shares a bit with one of the types; with no types it is false |
| Provider.ListedAllTypes | provider/provider.go:21-30 | no type at all, and TypeAll (TypeStd AND TypeMvt, which is 0), both list every entry |
| Provider.ListedWithMvt | provider/provider.go:199-228 | a filter that includes TypeMvt lists exactly the MVT entries, whatever else it includes |
| Provider.ListedStdOnly | provider/provider.go:199-228 | a filter of only TypeStd lists exactly the standard entries |
| Provider.EmptyUnionFallbacks | provider/provider.go:125-321 | a union with neither side set returns the nil-init error from Layers and AddLayer, not-found from Layer, the world extent with an error, and zooms 0 and 16 |
| Provider.UnionPrefersStd | provider/provider.go:267-321 | with the standard side set, every call goes to it, even when the MVT side is set too |
| Provider.UnionFallsBackToMvt | provider/provider.go:267-321 | with only the MVT side set, every call goes to it |
| Provider.Registry.constructor | provider/provider.go:150 | the registry starts as the nil map |
| Provider.Registry.Register | provider/provider.go:155-173 | a nil init is refused and a used name is refused, both leaving the registry unchanged; otherwise exactly one standard entry is added; one-kind-per-entry is preserved |
| Provider.Registry.MVTRegister | provider/provider.go:178-196 | the same rules as Register, for an MVT entry, in the same name space |
| Provider.Registry.Drivers | provider/provider.go:199-228 | the names listed are distinct and are exactly the entries the filter selects; a nil registry lists nothing |
| Provider.Registry.For | provider/provider.go:233-253 | an unknown name gives an error listing every known name; a known name fills exactly the side its constructor belongs to (standard first) with the constructor's result and error; an entry with neither is invalid; in a registry built only by Register and MVTRegister, the error is always the constructor's |
| Provider.Registry.Cleanup | provider/provider.go:256-263 | each entry with a cleanup callback is run exactly once, and no other |
| Gpkg.GeomNameAccepted | provider/gpkg/gpkg.go:249-266 | exactly the six GeoPackage names are accepted; every other name gives the unsupported-type error naming it |
| Gpkg.GeomNameRoundTrip | provider/gpkg/gpkg.go:249-266 | every kind with a GeoPackage name maps back from that name; only line and collection have none |
| Gpkg.FirstPatternAt | provider/gpkg/gpkg.go:374-391 | the replacer's pattern search finds a listed pattern that is a prefix, or reports that none from k on is |
| Gpkg.ZoomOperatorsShape | provider/gpkg/gpkg.go:374-391 | the sixteen operators are distinct, 1 to 3 characters long, with no '!' after the first character |
| Gpkg.PatternsExclusive | provider/gpkg/gpkg.go:374-391 | at most one operator pattern matches at any position, so the replacer's choice does not depend on pattern order |
| Gpkg.OperatorZoomReplaced | provider/gpkg/gpkg.go:373-393 | an operator followed by !ZOOM! becomes the all-zooms IN list, and the rest is replaced in turn |
| Gpkg.NoZoomTokenUnchanged | provider/gpkg/gpkg.go:373-393 | SQL without !ZOOM! passes through the replacer unchanged |
| Gpkg.LayerName | provider/gpkg/gpkg.go:271-277 | the name is accepted exactly when the lookup succeeds with a non-empty name; the empty name is the missing-name error |
| Gpkg.SourceExactlyOne | provider/gpkg/gpkg.go:279-295 | a table source exactly when only tablename is set, an SQL source exactly when only sql is set; both set, or both missing, is refused |
| Gpkg.BuildFrom | provider/gpkg/gpkg.go:308-311 | a built layer keeps the configured name and has no id |
| Gpkg.AddedLayerShape | provider/gpkg/gpkg.go:297-422 | an added layer has a non-empty configured name and no id; a table layer has a GeoPackage geometry type and the table name read with the id field as its default; an SQL layer has the default geometry and id field names |
| Gpkg.BothOrNeitherRefused | provider/gpkg/gpkg.go:289-295 | with both tablename and sql present, or both missing, AddLayer fails with the table-or-sql error |
| Gpkg.AsWrittenAgreesOtherwise | provider/gpkg/gpkg.go:279-287 | when neither source lookup fails unexpectedly, AddLayer as written and the corrected AddLayer agree |
| Gpkg.AddedAsWrittenIsAdded | provider/gpkg/gpkg.go:269-299 | AddLayer as written adds a layer exactly when the corrected AddLayer succeeds, and it is the same layer |
| Gpkg.AsWrittenDropsLookupError | provider/gpkg/gpkg.go:280-283 | an unexpected tablename lookup error makes AddLayer as written return nil and add nothing; the corrected AddLayer returns that error |
| Gpkg.MistypedTableSilentlySkipped | provider/gpkg/gpkg.go:280-283 | a concrete configuration with a non-string tablename is dropped without an error as written, and refused with the type error when corrected |
| Gpkg.TagSelectLists | provider/gpkg/gpkg.go:112-114 | the select clause names every tag field, in the configured order |
| Gpkg.TableQuerySelects | provider/gpkg/gpkg.go:106-117 | the table query starts with the id and geometry columns, then selects every tag column in order |
| Gpkg.TableQueryFilters | provider/gpkg/gpkg.go:117 | the table query ends with the not-null, bounding-box and ordering clause |
| Gpkg.FilterHasBBox | provider/gpkg/gpkg.go:117 | that clause contains the !BBOX! token |
| Gpkg.BytesToString | provider/gpkg/gpkg.go:202-208 | a blob tag becomes a string of the same length, byte for character |
| Gpkg.DecodeColumn | provider/gpkg/gpkg.go:164-218 | a nil value changes nothing; only an id or geometry column can fail; the id column gives ConvertFeatureID's id or its error; a geometry value that is no blob is the "expected blob" error; a blob gives the decoded geometry and its SRS id as the SRID, or the decoder's error; a tag column with a usable value sets that tag and nothing else; the id changes only for the id column, and the geometry and SRID only for the geometry column |
| Gpkg.CancelledBeforeColumn | provider/gpkg/gpkg.go:162-166 | a context found cancelled before a column ends the row with the context's error |
| Gpkg.DecodedFieldsKept | provider/gpkg/gpkg.go:162-219 | columns none of which is the id (geometry) column leave the id (geometry and SRID) as they were |
| Gpkg.DecodedIdAndGeometry | provider/gpkg/gpkg.go:171-193 | with distinct columns, a decoded row's id is ConvertFeatureID of its non-nil id column, and its geometry and SRID are those its geometry blob decodes to |
| Gpkg.DecodedTagsFromColumns | provider/gpkg/gpkg.go:164-218 | decoding a row keeps every tag key a tag column of the row |
| Gpkg.DecodedTagValues | provider/gpkg/gpkg.go:199-217 | with distinct columns, each tag column ends up holding its value's tag, or stays absent when its type is not kept |
| Gpkg.DecodedTagKept | provider/gpkg/gpkg.go:164-218 | a tag no remaining column names is kept as it was |
| Gpkg.DecodedTagAbsent | provider/gpkg/gpkg.go:164-218 | a tag no remaining column names is not invented |
| Gpkg.StreamedTagsFromColumns | provider/gpkg/gpkg.go:141-225 | every streamed feature's tags come from tag columns |
| Gpkg.CallbackErrorEnds | provider/gpkg/gpkg.go:221-224 | features are only appended, at most one per row, and a callback error is the result and ends the stream |
| Gpkg.DecodedRows | provider/gpkg/gpkg.go:141-225 | one decoded feature per row, in row order |
| Gpkg.RowStep | provider/gpkg/gpkg.go:141-224 | a row that decodes and whose feature the callback accepts is handed over, and the loop moves on |
| Gpkg.StreamsThrough | provider/gpkg/gpkg.go:141-225 | rows that decode under an accepting callback are handed over in order, one feature each |
| Gpkg.EveryRowStreamed | provider/gpkg/gpkg.go:141-227 | when every row decodes and the callback accepts everything, the call hands over exactly the decoded rows, in order, and returns nil |
| Gpkg.CancelledBeforeRow | provider/gpkg/gpkg.go:141-145 | a context found cancelled before row j gives the features of the rows before it and the context's error |
| Gpkg.RowErrorEnds | provider/gpkg/gpkg.go:153-190 | a row that fails to scan, scans into the wrong number of values, or fails to decode ends the call with that error, after the features of the rows before it |
| Gpkg.ListLayers | provider/gpkg/gpkg.go:64-78 | the listing has one entry per layer, the entry of every layer, and each name once |
| Gpkg.GpkgProvider.constructor | provider/gpkg/gpkg.go:55-62 | a new provider has the given file and database and no layers |
| Gpkg.GpkgProvider.AddLayer | provider/gpkg/gpkg.go:269-427 | the returned error is the error of AddLayer as written, nil for an unexpected tablename or sql lookup error; the layer map gains exactly the layer it adds, under its name, or stays unchanged |
| Gpkg.GpkgProvider.Layers | provider/gpkg/gpkg.go:64-78 | every stored layer is listed once, and nothing else |
| Gpkg.GpkgProvider.TileFeatures | provider/gpkg/gpkg.go:80-228 | yields exactly the stream TileFeaturesSpec describes: the query, then the rows |
| Gpkg.StreamRows | provider/gpkg/gpkg.go:141-227 | the row loop yields exactly the stream RowsFeatures describes: each row checked for cancellation, scanned, decoded and passed to the callback, stopping at the first error |
| Gpkg.GpkgProvider.LayerExtent | provider/gpkg/gpkg.go:430-433 | the world extent, without error, for any name |
| Gpkg.GpkgProvider.LayerMinZoom | provider/gpkg/gpkg.go:436-438 | 0 for any name |
| Gpkg.GpkgProvider.LayerMaxZoom | provider/gpkg/gpkg.go:441-443 | 20 for any name, never below the minimum |
| Gpkg.ListedIDsEmpty | provider/gpkg/layer.go:5-22 | no gpkg layer listing holds an id |
| Gpkg.DecodeRow | provider/gpkg/gpkg.go:164-219 | the column loop decodes a row exactly as the column-by-column specification does |
| Gpkg.CopyBytes | provider/gpkg/gpkg.go:203-206 | the byte copy equals its source |
| Postgis.ConfigTLS | provider/postgis/postgis.go:217-270 | an unknown mode is the only invalid-mode error; "disable" returns no TLS at once; an unpaired certificate or key fails; on success TLS is configured exactly for modes other than "allow", with the root CA and certificate exactly when given; "allow" with a root certificate or certificate pair fails (nil TLSConfig); on success, fallback is used exactly for "allow" and "prefer", the fallback configuration is the insecure one exactly for "allow", verification is skipped exactly for "prefer" and "require", and the server name is the host exactly for "verify-ca" and "verify-full" |
| Postgis.VerifyModesCheckCertificates | provider/postgis/postgis.go:233-236 | a successful "verify-ca" or "verify-full" setup verifies the server certificate against the host and has no fallback |
| Postgis.ReadLayerConfig | provider/postgis/postgis.go:728-778 | a read configuration has distinct id and geometry fields and holds the values of the name, fields, geometry field, id field, geometry type, table name, SQL and SRID lookups, with the defaults "geom", "", "", the layer name, "" and the provider's SRID |
| Postgis.SourceOf | provider/postgis/postgis.go:788-793 | custom SQL exactly when sql is non-empty and starts with SELECT; other sql is used as the table name, otherwise the table name |
| Postgis.CheckCustomSQL | provider/postgis/postgis.go:795-811 | custom SQL is accepted exactly when, after !BOX!/!bbox! normalisation, it has !BBOX! and either "*" or both field names; the accepted SQL is the normalised one |
| Postgis.CustomSQLHadBBox | provider/postgis/postgis.go:795-801 | accepted custom SQL had one of the three bbox spellings |
| Postgis.LayerSQL | provider/postgis/postgis.go:795-826 | a custom-SQL layer's SQL is the checked custom SQL |
| Postgis.SetLayerGeomType | provider/postgis/postgis.go:275-295 | a configured type is accepted exactly when its lower case, by strings.ToLower, names a supported kind; only the type changes; otherwise the error names it |
| Postgis.ProbedCell | provider/postgis/postgis.go:356-377 | a text cell holding one of the seven ST_ names yields the kind that name belongs to; any other text fails with the unsupported-type error naming it, and a non-text value fails |
| Postgis.CellsKindSupported | provider/postgis/postgis.go:356-378 | scanning a row's cells keeps the kind a PostGIS-named one |
| Postgis.RowsKindSupported | provider/postgis/postgis.go:348-379 | scanning the rows keeps the kind a PostGIS-named one |
| Postgis.InspectGeomTypeKinds | provider/postgis/postgis.go:299-382 | a probed geometry type is always one PostGIS names; a probe with no rows leaves the type unset but keeps the rewritten geometry field |
| Postgis.InspectLayerExtent | provider/postgis/postgis.go:386-442 | the layer's geometry field is rewritten as the probe found it; success exactly when the query runs and the BOX text parses, and then the extent is the parsed one; on any error the world extent |
| Postgis.InspectLayerMinZoom | provider/postgis/postgis.go:445-452 | a failed extent probe gives zoom 0; otherwise the zoom at which the probed extent fits 1920x1080 pixels (the GetBoundZoomLevel oracle applied to that extent) |
| Postgis.MaxZoomFromMeans | provider/postgis/postgis.go:464-494 | the result is at most 16; below 16 it is the first zoom from the start whose count is below 1024, every earlier zoom counting at least 1024 |
| Postgis.MaxZoomFindsFirst | provider/postgis/postgis.go:464-494 | when every zoom before z counted at least 1024, the answer is z if z counts below 1024, and 16 if z is 16 or its count fails |
| Postgis.MaxZoomIsFirstBelow | provider/postgis/postgis.go:464-494 | the probe loop answers the first zoom from its start whose count is below 1024 with every earlier one at least 1024, and 16 when there is none |
| Postgis.InspectMaxZoom | provider/postgis/postgis.go:455-495 | 16 when the extent probe fails; otherwise exactly the first zoom from the extent's bound zoom whose count is below 1024, every earlier one counting at least 1024, and 16 when there is none |
| Postgis.TileFeaturesSpec | provider/postgis/postgis.go:514-559 | no features and an error for each exit before the rows: an unknown layer id, a token replacement error, a cancelled context, a query error and a geometry field missing from the result's columns |
| Postgis.ReadableRowsStreamed | provider/postgis/postgis.go:562-619 | with a live context, an accepting callback and rows that read and decipher, the call hands over exactly the good rows' features (id, decoded geometry, layer SRID, tags), in order, skipping rows without geometry bytes and rows of an unknown geometry type, and returns rows.Err |
| Postgis.DecipherErrorEnds | provider/postgis/postgis.go:574-582 | a decipher error ends the stream: context.Canceled unchanged, any other error wrapped with the layer |
| Postgis.StreamedFeaturesDecoded | provider/postgis/postgis.go:584-611 | every streamed feature has a geometry and the layer's SRID |
| Postgis.CallbackErrorEnds | provider/postgis/postgis.go:613-616 | features are only appended, and a callback error is the result and ends the stream |
| Postgis.WarnsAtMostOnce | provider/postgis/postgis.go:594-599 | with the guard the comment describes, a scan logs the unsupported-geometry warning at most once |
| Postgis.WarnsEveryUnsupportedRow | provider/postgis/postgis.go:594-599 | with the guard as written, when no row or callback stops the stream, the warnings are one per unsupported row |
| Postgis.WarnsOnceIfAny | provider/postgis/postgis.go:594-599 | with the guard the comment describes, the same rows log exactly one warning when any row is unsupported |
| Postgis.StreamIgnoresGuard | provider/postgis/postgis.go:562-619 | the guard changes only the warnings: the features and the error are the same under either guard |
| Postgis.TwoUnsupportedRowsWarnTwice | provider/postgis/postgis.go:594-599 | two unsupported rows in one tile log two warnings as written and one with the intended guard, and stream nothing |
| Postgis.EveryGoodRowStreamed | provider/postgis/postgis.go:562-619 | with no cancellation and no callback error, every good row becomes one feature, in order, with its id, and the result is rows.Err |
| Postgis.SubqueriesInOrder | provider/postgis/postgis.go:629-668 | one ST_AsMVT subquery per requested layer, in request order |
| Postgis.SubqueriesFailFirst | provider/postgis/postgis.go:643-646 | a failure is the error of the first layer whose subquery fails, all earlier ones succeeding |
| Postgis.MVTForLayersSpec | provider/postgis/postgis.go:686-690 | an error comes with empty data |
| Postgis.AddedLayerChecked | provider/postgis/postgis.go:713-845 | an added layer has a configured id not already present, and the configured name, id field and wrapped SRID; custom SQL is normalised and carries !BBOX! and the fields; its geometry type is set or probed |
| Postgis.ReadSettings | provider/postgis/postgis.go:108-167 | a missing host is returned as is; the settings hold the lookups' values with their defaults |
| Postgis.PrepareProvider | provider/postgis/postgis.go:169-197 | a prepared provider's SRID fits 64 bits, its port 16 bits, and it has the read-only runtime parameters |
| Postgis.PrepareProviderSteps | provider/postgis/postgis.go:108-205 | settings, then TLS, then the pool, then the layer list; the settings, TLS and layer-list errors are returned as is, the pool error wrapped with "Failed while creating connection pool" |
| Postgis.AddAllStep | provider/postgis/postgis.go:206-208 | adding the layers is adding the first, then the rest |
| Postgis.AddOneKeeps | provider/postgis/postgis.go:713-845 | AddLayer keeps every existing layer, stores each layer under its own id, and adds only the configured id |
| Postgis.AddAllKeeps | provider/postgis/postgis.go:206-208 | adding all layers keeps the existing ones, and each new id comes from some configuration |
| Postgis.ListLayers | provider/postgis/postgis.go:505-511 | one entry per layer, the entry of every layer, each id once |
| Postgis.ListedAll | provider/postgis/postgis.go:505-511 | a complete listing holds every layer exactly once |
| Postgis.PgProvider.constructor | provider/postgis/postgis.go:187-200 | a new provider has the given SRID, pool and helpers, no layers and no first layer |
| Postgis.PgProvider.BuildLayerFor | provider/postgis/postgis.go:780-841 | builds the layer as BuildLayer specifies, with the provider's SRID as Go's int |
| Postgis.PgProvider.AddLayer | provider/postgis/postgis.go:713-845 | the error is AddLayer's; the map gains exactly the new layer under its id, or is unchanged; the first layer is set when the map was empty and the id was read |
| Postgis.PgProvider.AddLayers | provider/postgis/postgis.go:206-208 | the layers are added in order, their errors ignored |
| Postgis.PgProvider.InspectLayerGeomType | provider/postgis/postgis.go:299-382 | the probe loop computes InspectGeomType |
| Postgis.PgProvider.InspectLayerMaxZoom | provider/postgis/postgis.go:455-495 | the method computes InspectMaxZoom |
| Postgis.PgProvider.ProbeZooms | provider/postgis/postgis.go:464-494 | the zoom loop computes MaxZoomFrom |
| Postgis.PgProvider.Layer | provider/postgis/postgis.go:499-502 | found exactly when the id is a layer; an unknown id gives the zero layer |
| Postgis.PgProvider.Layers | provider/postgis/postgis.go:505-511 | every layer is listed once, and nothing else |
| Postgis.PgProvider.TileFeatures | provider/postgis/postgis.go:514-620 | the row loop yields exactly the stream and warning count of TileFeaturesSpec, whose guard is the program's: every unsupported row logs a warning |
| Postgis.PgProvider.MVTForLayers | provider/postgis/postgis.go:623-691 | the loop and query compute MVTForLayersSpec |
| Postgis.PgProvider.LayerExtent | provider/postgis/postgis.go:848-855 | an unknown id gives the world extent and the not-exist error; a stored layer gives exactly the extent and error of the extent probe (InspectLayerExtent); any error comes with the world extent |
| Postgis.PgProvider.LayerMinZoom | provider/postgis/postgis.go:858-865 | 0 for an unknown id or a failed extent probe; a stored layer gives exactly InspectLayerMinZoom, the bound zoom of its probed extent |
| Postgis.PgProvider.LayerMaxZoom | provider/postgis/postgis.go:868-875 | 16 for an unknown id, the probed max zoom otherwise, never above 16 |
| Postgis.Instances.constructor | provider/postgis/postgis.go:697 | no live providers |
| Postgis.Instances.CreateProvider | provider/postgis/postgis.go:108-214 | a failure returns nil and tracks nothing; success returns a fresh provider, appended to the live list, holding the prepared SRID and pool and the configured layers added in order |
| Postgis.Instances.Cleanup | provider/postgis/postgis.go:700-710 | every live provider is closed, and the list is emptied |
| PostgisSql.SkipLength | provider/postgis/postgis.go:81 | the skipped prefix never runs past the string |
| PostgisSql.SkipLengthSkippable | provider/postgis/postgis.go:81 | the skipped prefix is whitespace and -- comments |
| PostgisSql.SkipLengthExact | provider/postgis/postgis.go:81 | a run of whitespace and comments before other text is skipped exactly |
| PostgisSql.CommentEndsAtFirstBreak | provider/postgis/postgis.go:81 | a comment ends at its first line break |
| PostgisSql.SelectQueryMeans | provider/postgis/postgis.go:79-81 | isSelectQuery holds exactly when some prefix of whitespace and comments is followed by "select" under RE2's case folding |
| PostgisSql.LongSSelects | provider/postgis/postgis.go:79-81 | a query spelled with the long s ("ſelect") is a select query |
| PostgisSql.TailFrom | provider/postgis/postgis.go:312 | the lazy tail search finds the nearest tail, on one line |
| PostgisSql.LazyFrom | provider/postgis/postgis.go:318 | the search from i finds the leftmost match, with the shortest group |
| PostgisSql.LazyMatch | provider/postgis/postgis.go:318-319 | a lazy match under RE2's case folding is the leftmost, with the shortest group; none exactly when nothing matches |
| PostgisSql.ContainsAt | provider/postgis/postgis.go:322 | a slice found at a position is contained |
| PostgisSql.ReplaceMatchedText | provider/postgis/postgis.go:322 | replacing the matched text once replaces the match itself, not an earlier copy |
| PostgisSql.MatchedTextFirstAt | provider/postgis/postgis.go:322 | the matched text first occurs where the match starts |
| PostgisSql.AnyZoomFirst | provider/postgis/postgis.go:330 | SQL without !ZOOM! is unchanged; with it, the ANY list appears |
| PostgisSql.AnyZoomFirstAppend | provider/postgis/postgis.go:327-330 | text with no '!' appended after the SQL survives the !ZOOM! replacement |
| PostgisSql.HeadReplaced | provider/postgis/postgis.go:318-323 | without a select...from match the probe is empty; with one, exactly the matched head is replaced |
| PostgisSql.MvtGeomArgument | provider/postgis/postgis.go:312-316 | without ST_AsMVTGeom( the field is kept; with it, the first argument, which has no comma or line break |
| PostgisSql.GroupHasNoTail | provider/postgis/postgis.go:393 | a lazy group stops before its closing character and holds no line break |
| PostgisSql.GeomTypeProbeLimited | provider/postgis/postgis.go:308-330 | the geometry-type probe always ends in " LIMIT 1" |
| PostgisSql.ExtentGeomField | provider/postgis/postgis.go:390-404 | without ST_AsBinary, the ST_AsMVTGeom argument; with it, a rewritten field has no ')' or line break |
| PostgisSql.NormalizeBBoxIff | provider/postgis/postgis.go:797-799 | the normalised SQL has !BBOX! exactly when the original has any of the three spellings |
| PostgisSql.ConfiguredGeomTypeIff | provider/postgis/postgis.go:276-292 | a configured name gives a kind exactly when its lower case, by strings.ToLower, equals that kind's name |
| PostgisSql.DottedCapitalIPoint | provider/postgis/postgis.go:275-292 | "POİNT" lowers to "point" and is the point type |
| PostgisSql.ProbedGeomTypeIff | provider/postgis/postgis.go:359-376 | a probed value gives a kind exactly when it is that kind's ST_ name |
| PostgisSql.ProbedKindsAreConfiguredKinds | provider/postgis/postgis.go:276-292 | the kinds that can be probed are the kinds that can be configured: all but the plain line |
| PostgisSql.SplitAtFirst | provider/postgis/postgis.go:429-432 | splitting peels off the text before the first separator |
| PostgisSql.ParseBoxText | provider/postgis/postgis.go:426-437 | PostGIS's "BOX(minx miny,maxx maxy)" text parses back to its four numbers |
| PostgisSql.SplitCorners | provider/postgis/postgis.go:429-432 | a box body splits into two corners and each corner into two numbers |
| PostgisSql.BoxMatchesWhole | provider/postgis/postgis.go:426-428 | the BOX regex matches the whole box text, and its group is the body |
| PostgisSql.TileQueryOrder | provider/postgis/postgis.go:669-670 | the final query concatenates the subqueries with "\|\|", in order |
| Strs.IndexOf | provider/postgis/postgis.go:322 | the first occurrence: nothing earlier matches; none exactly when not contained |
| Strs.IndexFold | provider/postgis/postgis.go:308-309 | the first occurrence under RE2's case folding; none exactly when not contained |
| Strs.IndexOfChar | provider/postgis/postgis.go:81 | the first position of a character; none exactly when absent |
| Strs.SplitJoin | provider/postgis/postgis.go:429-432 | the parts of a split rejoin to the string and hold no separator |
| Strs.ReplaceAllNoMatch | provider/postgis/postgis.go:797 | replacing an absent pattern changes nothing |
| Strs.ReplaceAllIntroduces | provider/postgis/postgis.go:797 | replacing a present pattern introduces the replacement |
| Strs.ReplaceAllPreserves | provider/postgis/postgis.go:797 | a text in both the string and the replacement survives replacement |
| Strs.IndexOfAppend | provider/postgis/postgis.go:327-330 | a suffix without the pattern's last character does not move the first occurrence |
| Strs.ReplaceFirstAppend | provider/postgis/postgis.go:327-330 | replacing the first occurrence commutes with appending such a suffix |
| Strs.NatToStringRoundTrip | provider/debug/debug.go:72 | the decimal rendering of a number is digits that read back as the number |
| Geom.NewExtent | cmd/internal/register/maps.go:21-26 | the extent of two corners is the smallest box holding both |
| Geom.Uint64 | provider/postgis/postgis.go:785 | Go's uint64 conversion: in range it is the identity, negatives wrap by 2^64 |
| Geom.Uint16 | provider/postgis/postgis.go:171 | Go's uint16 conversion: in range it is the identity, otherwise congruent modulo 2^16 |
| Geom.ToInt64 | provider/postgis/postgis.go:775 | Go's int conversion of a uint64 lies in int64 and converts back |
| Debug.Info | provider/debug/layer.go:5-26 | a debug layer's interface view carries its id, name, type and SRID |
| Debug.TileFeatures | provider/debug/debug.go:36-82 | one feature exactly for the two debug layers: the tile outline (id 0) or the labelled centre point (id 1), in WebMercator; the callback's error is the result |
| Debug.ZxyLabelNamesTile | provider/debug/debug.go:72 | the centre label determines the tile's z, x and y |
| Debug.CenterFeatureIdentifiesTile | provider/debug/debug.go:56-78 | different tiles get different centre labels |
| Debug.Layers | provider/debug/debug.go:85-106 | outline (a line layer) then centre (a point layer), neither with an id, both in WebMercator |
| Debug.Layer | provider/debug/debug.go:109-128 | found exactly for the two debug ids, and the answer is the other layer with its name as id, in WebMercator, a line layer for the outline and a point layer for the centre |
| Debug.LayerIsTheOtherEntry | provider/debug/debug.go:109-128 | Layer's answer is Layers' entry for the other debug layer, with its id filled in |
| Debug.AddLayer | provider/debug/debug.go:131-133 | adding a layer always fails |
| Debug.NewTileProvider | provider/debug/debug.go:28-30 | a debug provider, never an error |
| Debug.FixedAnswers | provider/debug/debug.go:136-149 | the world extent without error, zooms 0 to 16, and AddLayer refused, for any layer id |
| EmptyCollection.Info | provider/test/layer.go:5-26 | a test layer's interface view carries its id, name, type and SRID |
| EmptyCollection.TileFeatures | provider/test/emptycollection/provider.go:43-54 | exactly one callback, with an empty collection of id 0 in WebMercator and no tags, whose error is the result |
| EmptyCollection.Layers | provider/test/emptycollection/provider.go:32-40 | one collection layer without an id |
| EmptyCollection.Layer | provider/test/emptycollection/provider.go:57-64 | every id finds the collection layer |
| EmptyCollection.LayerIsTheListedLayer | provider/test/emptycollection/provider.go:32-64 | Layer's answer is the entry Layers lists |
| EmptyCollection.FixedAnswers | provider/test/emptycollection/provider.go:67-85 | the world extent without error, zooms 0 to 20, and AddLayer accepted, for any id |
| EmptyCollection.Package.constructor | provider/test/emptycollection/provider.go:15 | the count starts at 0 |
| EmptyCollection.Package.NewTileProvider | provider/test/emptycollection/provider.go:22-25 | one more instance counted, a provider returned, never an error |
| EmptyCollection.Package.Cleanup | provider/test/emptycollection/provider.go:28 | the count returns to 0 |
| Register.AtlasMap.SetMVTProvider | cmd/internal/register/maps.go:125 | the map records the MVT provider and its id, and the provider is handed back |
| Register.Atlas.constructor | cmd/internal/register/maps.go:131 | the atlas starts with no maps |
| Register.Atlas.AddMap | cmd/internal/register/maps.go:163 | the map is appended to the atlas |
| Register.MapOf | cmd/internal/register/maps.go:12-33 | name, escaped attribution and centre from the configuration; no layers; the default bounds unless exactly four numbers are given, and then the box spanned by the two corners; the tile buffer only when configured |
| Register.WebMercatorMapFromConfigMap | cmd/internal/register/maps.go:12-33 | the centre loop and the conditional fields compute MapOf |
| Register.FirstWithIDIsFirst | cmd/internal/register/maps.go:35-45 | none exactly when no info has the id; otherwise the earliest info with the id |
| Register.LayerInfosFindByID | cmd/internal/register/maps.go:35-45 | the loop returns the first info with the id |
| Register.IdlessCatalogMatchesNothing | cmd/internal/register/maps.go:39-44 | a catalog without ids matches no non-empty id |
| Register.AtlasLayerFromConfigRules | cmd/internal/register/maps.go:47-100 | a catalog error, an unregistered id and non-table default tags are each refused with their error; otherwise the layer carries the catalog entry's type, the provider if it is a Tiler, and the configuration's fields, with unset zooms 0 |
| Register.SelectProviderRules | cmd/internal/register/maps.go:102-128 | a map with an MVT provider accepts only that provider's id; otherwise a standard side is used as is; an MVT side is accepted only for a map without layers and is then recorded; an unknown or empty entry is not found; the map changes only by recording the MVT provider |
| Register.BuildMapLayers | cmd/internal/register/maps.go:139-162 | the layer loop computes BuildMap, stopping at the first error |
| Register.Builds | cmd/internal/register/maps.go:138-164 | one build per configured map, in order |
| Register.Maps | cmd/internal/register/maps.go:131-166 | the atlas gains exactly the maps registered before the first error, and that error is returned |
| Register.CollectSucceedsWhenAllBuild | cmd/internal/register/maps.go:138-165 | no error exactly when every map builds, and then all are added |
| Register.CollectAddedAt | cmd/internal/register/maps.go:138-165 | the k-th added map is the k-th built map |
| Register.CollectErrorIsFirstFailure | cmd/internal/register/maps.go:138-165 | the error is that of the first map that fails, right after the added ones |
| Register.MapsStopAtFirstError | cmd/internal/register/maps.go:131-166 | maps reach the atlas in order until the first failing one, whose error is returned; with no failure every map is added |
| Register.BuildLayersInOrder | cmd/internal/register/maps.go:142-162 | each configured layer becomes one atlas layer, in order, carrying its configuration, after the layers already there |
| Register.MapKeepsConfiguration | cmd/internal/register/maps.go:139-162 | a built map is its configured map plus one layer per configured layer |
| Register.BuildLayersSingleMvt | cmd/internal/register/maps.go:102-128 | once an MVT provider is chosen it stays, and every layer names it |
| Register.MvtMapHasOneProvider | cmd/internal/register/maps.go:102-128 | in a built map with an MVT provider, every layer names that provider |
| Catalogs.GpkgListingMatchesNoID | cmd/internal/register/maps.go:65-72 | a gpkg layer listing matches no non-empty layer id |
| Catalogs.DebugLayerNotRegistered | cmd/internal/register/maps.go:65-72 | a map layer on the debug provider with a non-empty layer id is refused as not registered |
| Catalogs.TestLayerNotRegistered | cmd/internal/register/maps.go:65-72 | a map layer on the test provider with a non-empty layer id is refused as not registered |

## Left out

- Error values: each keeps its kind and the fields a caller can act on (a layer name, a missing key, a wrapped cause), not the text fmt.Errorf would render. Some messages drop a field the program prints: the custom SQL in "layer '%v' with custom SQL has 0 rows", the layer name in "problem executing custom SQL" and in the gpkg "for layer (%v)" of an id-field lookup error.
- **The database, the file system and the network are oracles.**
  - PostgreSQL queries and the connection pool are `Pool`.
  - SQLite queries are `GpkgDb`.
  - Certificate files are `CertFiles`.
  - The pool constructor is a `connect` parameter.
- **Functions the model does not see are oracles in the helpers records.**
  - `replaceTokens`, `genSQL`, `genMvtSQL`, `decipherFields`, `extractColsAndPKFromSQL`.
  - WKB and GeoPackage-binary decoding; `ConvertFeatureID`.
  - `strconv.ParseFloat`; `html.EscapeString`; `ProviderLayerID`.
- **Floating point.**
  - `GetBoundZoomLevel` is an oracle.
  - The tile x/y arithmetic of the max-zoom probe is an oracle.
  - The tile's reprojection in the gpkg TileFeatures is an oracle.
  - Coordinates are `real`.
- **Logging is not modelled**, apart from the count of unsupported-geometry warnings.
- **Context cancellation** is an oracle of the context's n-th check.
- **Every tile is taken to be in WebMercator**, as the code assumes.
- **Geometry values become kinds.** A layer's geometry type is kept as a kind, not as the empty or first-row geometry value.
- **Byte strings.** In a blob tag each byte becomes the character with the same code. UTF-8 decoding is not modelled.
- **`Count` is an unbounded integer.**
- **Provider closing and cleanup callbacks are identifiers.** Cleanup reports which ones it runs. Running them is not modelled.
- **Go map iteration order is unspecified.** Listings are proved as sets with distinct entries. Their order is left open.
- **Mutations through `*T` arguments become returned values.** The `*Layer` arguments of the inspect functions and the `*atlas.Map` of `selectProvider` are functions that return the updated value.
- **The atlas package's internals are not modelled.**
  - `atlas.NewWebMercatorMap`'s defaults are a parameter.
  - `AddMap` is a log of maps.
  - `cfg.GetName()`'s result is unused in the source, so it is left out.
- **provider/postgis/layer.go is not part of this model.** Its layer record is modelled by the fields the provider reads.
- **provider.NewTile and the tile type** are a record of z, x, y and its extent.
- Postgis.MVTForLayersSpec: an unknown layer id yields Go's zero Layer for the subquery, which the model follows. The bytes the query returns are an oracle, so the contract states only that an error comes with empty data.
- Postgis.ProbedCell: a probed value that is not text gets its own error, where the program reports it with the same "unsupported geometry type" message, the value formatted by fmt; the model renders neither that formatting nor the layer name in the message.
- Strs.ToLower: a character whose lower case is not ASCII is kept, where Go lowers it. The model compares the result only with ASCII names, where this makes no difference.
- Strs.EqualFold: only the foldings that relate a character to an ASCII one are modelled. Every pattern the providers fold is ASCII.
- Gpkg.GpkgProvider.TileFeatures: the row's `rows.Columns` error and `rows.Err()` after the loop are not separate outcomes. The query oracle yields the columns, and the gpkg loop never reads `rows.Err()`.

## Findings

| source | as written | input that shows it | evidently intended | confidence | as-written member | corrected member |
|---|---|---|---|---|---|---|
| provider/gpkg/gpkg.go:280-287 | a tablename or sql lookup that fails with anything but "key required" returns `err`, the nil error of the name lookup, so AddLayer reports success and adds no layer | a layer named "roads" whose tablename is a number | return the lookup's own error (errTable or errSQL) | not executed | Gpkg.MistypedTableSilentlySkipped | Gpkg.AsWrittenDropsLookupError |
| provider/postgis/postgis.go:594-599 | the guard `reported == "" \|\| reported == rplfn` is true again for the same layer field after the first warning, so every unsupported row is logged | two rows of an unknown geometry type in one tile | log once per layer field: warn only when the field was not yet reported | not executed | Postgis.TwoUnsupportedRowsWarnTwice | Postgis.WarnsAtMostOnce |
