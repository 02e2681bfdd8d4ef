/**
 * provider/test/emptycollection: a test provider whose single layer always
 * yields one feature holding an empty geometry collection, and which counts,
 * in a package variable, how many instances were made since the last Cleanup.
 * provider/test/layer.go supplies its layer record.
 */
module EmptyCollection {
  import opened Wrappers
  import opened Errors
  import opened Geom
  import opened Dict
  import opened Provider

  const Name := "emptycollection"
  const LayerName := "empty_geom_collection"

  // ---------------------------------------------------------------------------
  // provider/test/layer.go

  /** The test package's layer record. */
  datatype TestLayer = TestLayer(id: string, name: string, geomType: GeomKind, srid: nat)
  {
    function ID(): string { id }
    function Name(): string { name }
    function GeomType(): GeomKind { geomType }
    function SRID(): nat { srid }
  }

  /** A test layer seen through the LayerInfo interface. */
  function Info(l: TestLayer): (r: LayerInfo)
    ensures r.id == l.ID() && r.name == l.Name() && r.srid == l.SRID()
    ensures r.geomType == Some(l.GeomType())
  {
    LayerInfo(l.ID(), l.Name(), Some(l.GeomType()), l.SRID())
  }

  /** The one layer: a geometry collection in WebMercator, with no id. */
  const TheLayer := TestLayer("", LayerName, Collection, WebMercator)

  // ---------------------------------------------------------------------------
  // TileProvider

  /** TileFeatures: exactly one callback, whatever the layer id, and its error is the result. */
  function TileFeatures(lyrID: string, tile: Tile, fn: Callback): (s: Stream)
    ensures |s.emitted| == 1
    ensures s.emitted[0].id == 0 && s.emitted[0].geometry == Some(EmptyCollection)
    ensures s.emitted[0].srid == WebMercator && s.emitted[0].tags == map[]
    ensures s.err == fn(0, s.emitted[0])
  {
    var f := Feature(0, Some(EmptyCollection), WebMercator, map[]);
    Stream([f], fn(0, f))
  }

  /** Layers: the single collection layer. */
  function Layers(): (r: Result<seq<LayerInfo>, Error>)
    ensures r.Success? && |r.value| == 1
    ensures r.value[0].name == LayerName && r.value[0].id == ""
    ensures r.value[0].geomType == Some(Collection) && r.value[0].srid == WebMercator
  {
    Success([Info(TheLayer)])
  }

  /** Layer: reports the collection layer as found, for any id at all. */
  function Layer(lyrID: string): (r: (Option<LayerInfo>, bool))
    ensures r.1 && r.0.Some?
    ensures r.0.value.name == LayerName
  {
    (Some(Info(TheLayer)), true)
  }

  /** Whatever id is asked for, Layer answers with the one entry Layers lists. */
  lemma LayerIsTheListedLayer(lyrID: string)
    ensures Layer(lyrID).0.value in Layers().value
  {
    assert Layers().value[0] == Layer(lyrID).0.value;
  }

  /** AddLayer: accepted and ignored. */
  function AddLayer(config: Dicter): Option<Error> { None }

  function LayerExtent(lyrID: string): (Extent, Option<Error>) {
    (WorldExtent, None)
  }

  function LayerMinZoom(lyrID: string): int { 0 }

  function LayerMaxZoom(lyrID: string): int { 20 }

  /** An instance of the test provider. */
  const TestProvider: Layerer :=
    Layerer(Layer, Layers(), AddLayer, LayerExtent, LayerMinZoom, LayerMaxZoom)

  /** Every layer id, known or not, gets the world extent without error and zooms 0 to 20. */
  lemma FixedAnswers(lyrID: string, config: Dicter)
    ensures TestProvider.layerExtent(lyrID) == (WorldExtent, None)
    ensures TestProvider.layerMinZoom(lyrID) == 0 <= TestProvider.layerMaxZoom(lyrID) == 20
    ensures TestProvider.addLayer(config) == None
  {
  }

  // ---------------------------------------------------------------------------
  // The package variable Count

  /** The package state: Count, the number of providers made since the last Cleanup. */
  class Package {
    var count: int

    constructor ()
      ensures count == 0
    {
      count := 0;
    }

    /** NewTileProvider: counts one more instance and never fails. */
    method NewTileProvider(config: Dicter) returns (r: InitResult)
      modifies this
      ensures count == old(count) + 1
      ensures r.err == None && r.tiler.Some?
      ensures r.tiler.value.layers == Layers()
    {
      count := count + 1;
      r := InitResult(Some(TestProvider), None);
    }

    /** Cleanup: forgets every instance counted so far. */
    method Cleanup()
      modifies this
      ensures count == 0
    {
      count := 0;
    }
  }
}
