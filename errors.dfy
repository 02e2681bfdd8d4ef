/**
 * The error values the providers and the map registrar return.  A Go error
 * built with fmt.Errorf around another error is `Wrapped`; errors produced by
 * code outside this model (the database driver, the configuration reader)
 * are whatever value the corresponding oracle yields.
 */
module Errors {
  import opened Wrappers

  datatype Error =
    // provider registry
    | ErrNilInitFunc
    | ErrProviderExists(provider: string)
    | ErrUnknownProvider(knownProviders: seq<string>, name: string)
    | ErrInvalidRegisteredProvider(registered: string)
    // configuration lookups
    | ErrKeyRequired(key: string)
    | ErrKeyType(key: string)
    // cancellation
    | Canceled
    | DeadlineExceeded
    // postgis
    | ErrInvalidSSLMode(mode: string)
    | ErrCertKeyPair
    | ErrAppendCA
    | ErrLayerDuplicated(duplicate: string)
    | ErrIDGeomFieldSame(sameLayer: string)
    | ErrMissingBBoxToken(tokenLayer: string)
    | ErrSQLMissingGeomField(geomLayer: string, geomField: string)
    | ErrSQLMissingIDField(idLayer: string, idField: string)
    | ErrUnsupportedGeomType(geomType: string)
    | ErrUnsupportedProbedType(probed: string)
    | ErrProbedValueNotText
    | ErrInspectExtent(extentLayer: string)
    | ErrLayerNotFound(missing: string)
    | ErrGeomFieldNotFound(geomFieldName: string, layerName: string)
    | ErrLayerIDNotExist
    // gpkg
    | ErrMissingLayerName
    | ErrTableOrSQLRequired
    | ErrInvalidTableSQL(table: string)
    | ErrCustomSQLNoRows(customLayer: string)
    | ErrNoRows
    | ErrGeomNotBlob
    | ErrScanColumns(expected: nat, got: nat)
    // debug
    | ErrCannotAddDebugLayer
    // map registration
    | ErrProviderLayerInvalid(providerLayer: string, mapName: string)
    | ErrMVTDifferentProviders(original: string, current: string)
    | ErrProviderNotFound(notFound: string)
    | ErrMixedProviders(mixedMap: string)
    | ErrFetchingLayerInfo(fetchProvider: string, cause: Error)
    | ErrProviderLayerNotRegistered(unregisteredMap: string, unregisteredLayer: string, layerProvider: string)
    | ErrDefaultTagsInvalid(tagsLayer: string)
    // fmt.Errorf("...: %v", err) around another error
    | Wrapped(context: string, inner: Error)
    // a Go runtime panic (nil dereference, index out of range)
    | Panic(reason: string)
    // an error raised by code outside this model
    | External(code: int)

  /** fmt.Errorf("<context>: %v", err) around a failed result. */
  function Wrap<T>(r: Result<T, Error>, context: string): Result<T, Error> {
    match r
    case Success(v) => Success(v)
    case Failure(e) => Failure(Wrapped(context, e))
  }
}
