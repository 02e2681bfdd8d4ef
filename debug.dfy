/**
 * provider/debug: a standard provider with two fixed layers that draw the
 * outline of the requested tile and label its centre with the tile's z/x/y.
 * It keeps no state, so every operation is a function; the one effect, the
 * feature callback, is the `Callback` oracle.
 */
module Debug {
  import opened Wrappers
  import opened Errors
  import opened Geom
  import opened Strs
  import opened Dict
  import opened Provider

  const Name := "debug"
  const LayerDebugTileOutline := "debug-tile-outline"
  const LayerDebugTileCenter := "debug-tile-center"

  // ---------------------------------------------------------------------------
  // provider/debug/layer.go

  /** The debug Layer record; its geometry type is never nil. */
  datatype DebugLayer = DebugLayer(id: string, name: string, geomType: GeomKind, srid: nat)
  {
    function ID(): string { id }
    function Name(): string { name }
    function GeomType(): GeomKind { geomType }
    function SRID(): nat { srid }
  }

  /** A debug layer seen through the LayerInfo interface. */
  function Info(l: DebugLayer): (r: LayerInfo)
    ensures r.id == l.ID() && r.name == l.Name() && r.srid == l.SRID()
    ensures r.geomType == Some(l.GeomType())
  {
    LayerInfo(l.ID(), l.Name(), Some(l.GeomType()), l.SRID())
  }

  // ---------------------------------------------------------------------------
  // TileFeatures

  predicate IsDebugLayer(lyrID: string) {
    lyrID == LayerDebugTileOutline || lyrID == LayerDebugTileCenter
  }

  /** The label of the centre feature: fmt's "Z:%v, X:%v, Y:%v" of the tile's z, x and y. */
  function ZxyLabel(t: Tile): string {
    "Z:" + (NatToString(t.z) + (", X:" + (NatToString(t.x) + (", Y:" + NatToString(t.y)))))
  }

  /** The feature of the outline layer: id 0, the tile's extent as a polygon. */
  function OutlineFeature(t: Tile): Feature {
    Feature(0, Some(TileOutline(t)), WebMercator, map["type" := TagString("debug_buffer_outline")])
  }

  /** The feature of the centre layer: id 1, a point at the middle of the tile, labelled. */
  function CenterFeature(t: Tile): Feature {
    Feature(1, Some(TileCenter(t)), WebMercator,
            map["type" := TagString("debug_text"), "zxy" := TagString(ZxyLabel(t))])
  }

  /**
   * TileFeatures: one feature for either debug layer, handed to the callback,
   * whose error is returned unchanged; nothing at all for any other layer id.
   * The tile's extent is in WebMercator, so that is every feature's SRID.
   */
  function TileFeatures(lyrID: string, tile: Tile, fn: Callback): (s: Stream)
    ensures |s.emitted| <= 1
    ensures |s.emitted| == 1 <==> IsDebugLayer(lyrID)
    ensures |s.emitted| == 0 ==> s.err == None
    ensures |s.emitted| == 1 ==> s.err == fn(0, s.emitted[0]) && s.emitted[0].srid == WebMercator
    ensures lyrID == LayerDebugTileOutline ==>
              && s.emitted[0].id == 0
              && s.emitted[0].geometry == Some(TileOutline(tile))
              && s.emitted[0].tags == map["type" := TagString("debug_buffer_outline")]
    ensures lyrID == LayerDebugTileCenter ==>
              && s.emitted[0].id == 1
              && s.emitted[0].geometry == Some(TileCenter(tile))
              && s.emitted[0].tags.Keys == {"type", "zxy"}
              && s.emitted[0].tags["type"] == TagString("debug_text")
              && s.emitted[0].tags["zxy"] == TagString(ZxyLabel(tile))
  {
    if lyrID == LayerDebugTileOutline then
      var f := OutlineFeature(tile);
      Stream([f], fn(0, f))
    else if lyrID == LayerDebugTileCenter then
      var f := CenterFeature(tile);
      Stream([f], fn(0, f))
    else
      Stream([], None)
  }

  /** A string of decimal digits. */
  predicate AllDigits(s: string) {
    forall i :: 0 <= i < |s| ==> IsDigit(s[i])
  }

  predicate IsDigit(c: char) {
    '0' <= c <= '9'
  }

  /** The length of the run of digits a string starts with. */
  function DigitRun(s: string): nat {
    if s == [] || !IsDigit(s[0]) then 0 else 1 + DigitRun(s[1..])
  }

  lemma {:induction false} DigitRunOf(a: string, ra: string)
    requires AllDigits(a)
    requires |ra| > 0 && !IsDigit(ra[0])
    ensures DigitRun(a + ra) == |a|
  {
    if a == [] {
      assert a + ra == ra;
    } else {
      assert (a + ra)[1..] == a[1..] + ra;
      DigitRunOf(a[1..], ra);
    }
  }

  /** A run of digits followed by something that starts with a non-digit splits only one way. */
  lemma DigitsThenSeparator(a: string, ra: string, b: string, rb: string)
    requires AllDigits(a) && AllDigits(b)
    requires |ra| > 0 && !IsDigit(ra[0])
    requires |rb| > 0 && !IsDigit(rb[0])
    requires a + ra == b + rb
    ensures a == b && ra == rb
  {
    DigitRunOf(a, ra);
    DigitRunOf(b, rb);
    assert a == (a + ra)[..|a|];
    assert b == (b + rb)[..|b|];
    assert ra == (a + ra)[|a|..];
    assert rb == (b + rb)[|b|..];
  }

  lemma DigitsOf(n: nat)
    ensures AllDigits(NatToString(n))
    ensures DecimalValue(NatToString(n)) == n
  {
    NatToStringRoundTrip(n);
  }

  /** The centre label names its tile: two tiles with the same label have the same z, x and y. */
  lemma ZxyLabelNamesTile(t1: Tile, t2: Tile)
    requires ZxyLabel(t1) == ZxyLabel(t2)
    ensures t1.z == t2.z && t1.x == t2.x && t1.y == t2.y
  {
    DigitsOf(t1.z); DigitsOf(t1.x); DigitsOf(t1.y);
    DigitsOf(t2.z); DigitsOf(t2.x); DigitsOf(t2.y);
    var tailX1 := ", X:" + (NatToString(t1.x) + (", Y:" + NatToString(t1.y)));
    var tailX2 := ", X:" + (NatToString(t2.x) + (", Y:" + NatToString(t2.y)));
    assert "Z:" + (NatToString(t1.z) + tailX1) == "Z:" + (NatToString(t2.z) + tailX2);
    assert NatToString(t1.z) + tailX1 == NatToString(t2.z) + tailX2 by {
      var s1 := NatToString(t1.z) + tailX1;
      var s2 := NatToString(t2.z) + tailX2;
      assert s1 == ("Z:" + s1)[2..];
      assert s2 == ("Z:" + s2)[2..];
    }
    DigitsThenSeparator(NatToString(t1.z), tailX1, NatToString(t2.z), tailX2);
    var tailY1 := ", Y:" + NatToString(t1.y);
    var tailY2 := ", Y:" + NatToString(t2.y);
    assert NatToString(t1.x) + tailY1 == NatToString(t2.x) + tailY2 by {
      var s1 := NatToString(t1.x) + tailY1;
      var s2 := NatToString(t2.x) + tailY2;
      assert s1 == tailX1[4..];
      assert s2 == tailX2[4..];
    }
    DigitsThenSeparator(NatToString(t1.x), tailY1, NatToString(t2.x), tailY2);
    assert NatToString(t1.y) == tailY1[4..];
    assert NatToString(t2.y) == tailY2[4..];
  }

  /** Different tiles get different centre labels, so the label tells which tile was drawn. */
  lemma CenterFeatureIdentifiesTile(t1: Tile, t2: Tile)
    requires (t1.z, t1.x, t1.y) != (t2.z, t2.x, t2.y)
    ensures TileFeatures(LayerDebugTileCenter, t1, (_, _) => None).emitted[0].tags["zxy"]
         != TileFeatures(LayerDebugTileCenter, t2, (_, _) => None).emitted[0].tags["zxy"]
  {
    if ZxyLabel(t1) == ZxyLabel(t2) {
      ZxyLabelNamesTile(t1, t2);
    }
  }

  // ---------------------------------------------------------------------------
  // The catalog

  /** The two layers Layers lists: only name, geometry type and SRID are set. */
  const OutlineLayer := DebugLayer("", LayerDebugTileOutline, Line, WebMercator)
  const CenterLayer := DebugLayer("", LayerDebugTileCenter, Point, WebMercator)

  /** Layers: outline then centre, neither with an id. */
  function Layers(): (r: Result<seq<LayerInfo>, Error>)
    ensures r.Success? && |r.value| == 2
    ensures r.value[0].name == LayerDebugTileOutline && r.value[1].name == LayerDebugTileCenter
    ensures r.value[0].geomType == Some(Line) && r.value[1].geomType == Some(Point)
    ensures forall i :: 0 <= i < |r.value| ==> r.value[i].id == "" && r.value[i].srid == WebMercator
  {
    Success([Info(OutlineLayer), Info(CenterLayer)])
  }

  /**
   * Layer: found for the two debug ids only, and the descriptor returned is
   * the OTHER debug layer's, with its name copied into the id.
   */
  function Layer(lyrID: string): (r: (Option<LayerInfo>, bool))
    ensures r.1 <==> IsDebugLayer(lyrID)
    ensures r.0.Some? <==> r.1
    ensures r.1 ==> r.0.value.id == r.0.value.name != lyrID && IsDebugLayer(r.0.value.name)
    ensures r.1 ==> r.0.value.srid == WebMercator &&
                    r.0.value.geomType == if r.0.value.name == LayerDebugTileOutline then Some(Line) else Some(Point)
  {
    if LayerDebugTileCenter == lyrID then
      (Some(Info(OutlineLayer.(id := LayerDebugTileOutline))), true)
    else if LayerDebugTileOutline == lyrID then
      (Some(Info(CenterLayer.(id := LayerDebugTileCenter))), true)
    else
      (None, false)
  }

  /**
   * Layer and Layers disagree: the layer Layer finds under one debug id is
   * the entry Layers lists under the other, with the id filled in.
   */
  lemma LayerIsTheOtherEntry(lyrID: string)
    requires IsDebugLayer(lyrID)
    ensures exists k ::
              && 0 <= k < |Layers().value|
              && Layers().value[k].name != lyrID
              && Layer(lyrID).0.value == Layers().value[k].(id := Layers().value[k].name)
  {
    var ls := Layers().value;
    if lyrID == LayerDebugTileCenter {
      assert Layer(lyrID).0.value == ls[0].(id := ls[0].name);
    } else {
      assert Layer(lyrID).0.value == ls[1].(id := ls[1].name);
    }
  }

  /** AddLayer: the debug provider takes no layers. */
  function AddLayer(config: Dicter): (err: Option<Error>)
    ensures err.Some?
  {
    Some(ErrCannotAddDebugLayer)
  }

  function LayerExtent(lyrID: string): (Extent, Option<Error>) {
    (WorldExtent, None)
  }

  function LayerMinZoom(lyrID: string): int { 0 }

  function LayerMaxZoom(lyrID: string): int { 16 }

  /** The debug provider as its registry entry's constructor returns it. */
  const DebugProvider: Layerer :=
    Layerer(Layer, Layers(), AddLayer, LayerExtent, LayerMinZoom, LayerMaxZoom)

  /** NewTileProvider: a debug provider, never an error, whatever the configuration. */
  function NewTileProvider(config: Dicter): (r: InitResult)
    ensures r.err == None && r.tiler.Some?
    ensures r.tiler.value.layers == Layers()
  {
    InitResult(Some(DebugProvider), None)
  }

  /** Every layer id, known or not, gets the world extent without error and zooms 0 to 16. */
  lemma FixedAnswers(lyrID: string, config: Dicter)
    ensures DebugProvider.layerExtent(lyrID) == (WorldExtent, None)
    ensures DebugProvider.layerMinZoom(lyrID) == 0 <= DebugProvider.layerMaxZoom(lyrID) == 16
    ensures DebugProvider.addLayer(config) == Some(ErrCannotAddDebugLayer)
  {
  }
}
