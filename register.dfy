/**
 * cmd/internal/register/maps.go: turning configured maps into atlas maps.
 * Each configured layer names a provider; the provider is chosen for the map
 * being built (a map served by an MVT provider takes all its layers from that
 * one provider), the layer is looked up in the provider's catalog by id, and
 * the atlas layer is filled from the configuration.  A map reaches the atlas
 * only once all its layers are built; the first error ends the registration.
 *
 * The config and atlas packages are not part of this model: a configured
 * layer's ProviderLayerID split, html.EscapeString, the Tiler check of a
 * provider's dynamic type and the defaults of atlas.NewWebMercatorMap are
 * the `Env` oracles, and the atlas is the log of the maps handed to AddMap.
 */
module Register {
  import opened Wrappers
  import opened Errors
  import opened Geom
  import opened Provider

  // ---------------------------------------------------------------------------
  // Configuration

  /** A map centre: longitude, latitude and zoom, a fixed array of three in both packages. */
  type Triple = c: seq<real> | |c| == 3 witness [0.0, 0.0, 0.0]

  /** The default_tags of a layer: a table, or a value of some other type. */
  datatype DefaultTags = TagTable(tags: map<string, TagValue>) | NotATable

  /** config.MapLayer; `None` is a nil pointer or a nil interface. */
  datatype MapLayer = MapLayer(
    providerLayer: string,
    id: string,
    name: string,
    minZoom: Option<nat>,
    maxZoom: Option<nat>,
    defaultTags: Option<DefaultTags>,
    dontSimplify: bool,
    dontClip: bool)

  /** config.Map. */
  datatype ConfigMap = ConfigMap(
    name: string,
    attribution: string,
    center: Triple,
    bounds: seq<real>,
    tileBuffer: Option<Int>,
    layers: seq<MapLayer>)

  /** Go's int, 64 bits wide. */
  type Int = i: int | -0x8000_0000_0000_0000 <= i < 0x8000_0000_0000_0000

  /** What MapLayer.ProviderLayerID returns: the provider id, the provider's layer id and an error. */
  datatype ProviderLayerID = ProviderLayerID(providerID: string, layerID: string, err: Option<Error>)

  /** The values atlas.NewWebMercatorMap starts a map with. */
  datatype MapDefaults = MapDefaults(center: Triple, bounds: Extent, tileBuffer: nat)

  /** The code around registration that this model does not see. */
  datatype Env = Env(
    providerLayerID: string -> ProviderLayerID,
    escape: string -> string,
    isTiler: Layerer -> bool,
    defaults: MapDefaults)

  // ---------------------------------------------------------------------------
  // The atlas

  /** atlas.Layer. `provider` is nil when the layer's provider is not a Tiler. */
  datatype AtlasLayer = AtlasLayer(
    id: string,
    name: string,
    providerLayerID: string,
    minZoom: nat,
    maxZoom: nat,
    geomType: Option<GeomKind>,
    defaultTags: map<string, TagValue>,
    provider: Option<Layerer>,
    dontSimplify: bool,
    dontClip: bool)

  /** The MVT provider a map is served by, and its id. */
  datatype MvtChoice = MvtChoice(id: string, provider: Layerer)

  /** atlas.Map, with its MVT provider (if any) as one optional pair. */
  datatype AtlasMap = AtlasMap(
    name: string,
    attribution: string,
    center: Triple,
    bounds: Extent,
    tileBuffer: nat,
    layers: seq<AtlasLayer>,
    mvt: Option<MvtChoice>)
  {
    predicate HasMVTProvider() { mvt.Some? }

    /** SetMVTProvider: records the provider and its id, and hands the provider back. */
    function SetMVTProvider(id: string, p: Layerer): (r: (AtlasMap, Layerer))
      ensures r.0 == this.(mvt := Some(MvtChoice(id, p))) && r.1 == p
    {
      (this.(mvt := Some(MvtChoice(id, p))), p)
    }
  }

  /** The atlas, seen through the maps Maps hands to AddMap, in order. */
  class Atlas {
    var added: seq<AtlasMap>

    constructor ()
      ensures added == []
    {
      added := [];
    }

    method AddMap(m: AtlasMap)
      modifies this
      ensures added == old(added) + [m]
    {
      added := added + [m];
    }
  }

  // ---------------------------------------------------------------------------
  // webMercatorMapFromConfigMap

  /**
   * The map a configuration starts as: the configured name, escaped
   * attribution and centre; the bounds only when exactly four numbers are
   * configured (as the extent spanned by the two corners they give), the tile
   * buffer only when one is configured (converted to uint64); no layers.
   */
  function MapOf(cfg: ConfigMap, env: Env): (m: AtlasMap)
    ensures m.name == cfg.name && m.attribution == env.escape(cfg.attribution) && m.center == cfg.center
    ensures m.layers == [] && m.mvt.None?
    ensures |cfg.bounds| != 4 ==> m.bounds == env.defaults.bounds
    ensures |cfg.bounds| == 4 ==>
              && m.bounds.minX <= cfg.bounds[0] <= m.bounds.maxX && m.bounds.minX <= cfg.bounds[2] <= m.bounds.maxX
              && m.bounds.minY <= cfg.bounds[1] <= m.bounds.maxY && m.bounds.minY <= cfg.bounds[3] <= m.bounds.maxY
              && (m.bounds.minX == cfg.bounds[0] || m.bounds.minX == cfg.bounds[2])
              && (m.bounds.maxX == cfg.bounds[0] || m.bounds.maxX == cfg.bounds[2])
              && (m.bounds.minY == cfg.bounds[1] || m.bounds.minY == cfg.bounds[3])
              && (m.bounds.maxY == cfg.bounds[1] || m.bounds.maxY == cfg.bounds[3])
    ensures cfg.tileBuffer.None? ==> m.tileBuffer == env.defaults.tileBuffer
    ensures cfg.tileBuffer.Some? && cfg.tileBuffer.value >= 0 ==> m.tileBuffer == cfg.tileBuffer.value
    ensures cfg.tileBuffer.Some? && cfg.tileBuffer.value < 0 ==> m.tileBuffer == cfg.tileBuffer.value + 0x1_0000_0000_0000_0000
  {
    var d := env.defaults;
    var bounds :=
      if |cfg.bounds| == 4 then NewExtent(Point2(cfg.bounds[0], cfg.bounds[1]), Point2(cfg.bounds[2], cfg.bounds[3]))
      else d.bounds;
    var tileBuffer := if cfg.tileBuffer.Some? then Uint64(cfg.tileBuffer.value) else d.tileBuffer;
    AtlasMap(cfg.name, env.escape(cfg.attribution), cfg.center, bounds, tileBuffer, [], None)
  }

  /** webMercatorMapFromConfigMap: the default map, then the centre copied entry by entry, the bounds and the buffer. */
  method WebMercatorMapFromConfigMap(cfg: ConfigMap, env: Env) returns (m: AtlasMap)
    ensures m == MapOf(cfg, env)
  {
    var d := env.defaults;
    m := AtlasMap(cfg.name, "", d.center, d.bounds, d.tileBuffer, [], None);
    m := m.(attribution := env.escape(cfg.attribution));
    var center: Triple := d.center;
    for i := 0 to 3
      invariant center[..i] == cfg.center[..i]
    {
      center := center[i := cfg.center[i]];
    }
    m := m.(center := center);
    if |cfg.bounds| == 4 {
      m := m.(bounds := NewExtent(Point2(cfg.bounds[0], cfg.bounds[1]), Point2(cfg.bounds[2], cfg.bounds[3])));
    }
    if cfg.tileBuffer.Some? {
      m := m.(tileBuffer := Uint64(cfg.tileBuffer.value));
    }
  }

  // ---------------------------------------------------------------------------
  // layerInfosFindByID

  /** The first info whose id is `lyrID`; `None` (Go's nil) when there is none. */
  function FirstWithID(infos: seq<LayerInfo>, lyrID: string): Option<LayerInfo> {
    if infos == [] then None
    else if infos[0].id == lyrID then Some(infos[0])
    else FirstWithID(infos[1..], lyrID)
  }

  /** FirstWithID finds an info exactly when one has the id, and then the earliest such. */
  lemma {:induction false} FirstWithIDIsFirst(infos: seq<LayerInfo>, lyrID: string)
    ensures FirstWithID(infos, lyrID).None? <==> forall k :: 0 <= k < |infos| ==> infos[k].id != lyrID
    ensures FirstWithID(infos, lyrID).Some? ==>
              exists k :: 0 <= k < |infos| && infos[k] == FirstWithID(infos, lyrID).value
                       && infos[k].id == lyrID && forall j :: 0 <= j < k ==> infos[j].id != lyrID
  {
    if infos != [] && infos[0].id != lyrID {
      var tail := infos[1..];
      FirstWithIDIsFirst(tail, lyrID);
      assert forall k :: 0 <= k < |tail| ==> tail[k] == infos[k + 1];
      if FirstWithID(tail, lyrID).Some? {
        var k :| 0 <= k < |tail| && tail[k] == FirstWithID(tail, lyrID).value
                 && tail[k].id == lyrID && forall j :: 0 <= j < k ==> tail[j].id != lyrID;
        assert infos[k + 1] == tail[k];
        assert forall j :: 0 <= j < k + 1 ==> infos[j].id != lyrID by {
          forall j | 0 <= j < k + 1 ensures infos[j].id != lyrID {
            if j > 0 {
              assert infos[j] == tail[j - 1];
            }
          }
        }
      } else {
        forall k | 0 <= k < |infos| ensures infos[k].id != lyrID {
          if k > 0 {
            assert infos[k] == tail[k - 1];
          }
        }
      }
    }
  }

  /** layerInfosFindByID: scans the infos in order and stops at the first with the id. */
  method LayerInfosFindByID(infos: seq<LayerInfo>, lyrID: string) returns (r: Option<LayerInfo>)
    ensures r == FirstWithID(infos, lyrID)
  {
    if |infos| == 0 {
      return None;
    }
    for i := 0 to |infos|
      invariant FirstWithID(infos[i..], lyrID) == FirstWithID(infos, lyrID)
    {
      assert infos[i..][1..] == infos[i + 1..];
      if infos[i].id == lyrID {
        return Some(infos[i]);
      }
    }
    return None;
  }

  /** A catalog whose entries have no id (the gpkg, debug and test providers') matches only the empty id. */
  lemma {:induction false} IdlessCatalogMatchesNothing(infos: seq<LayerInfo>, lyrID: string)
    requires forall k :: 0 <= k < |infos| ==> infos[k].id == ""
    requires lyrID != ""
    ensures FirstWithID(infos, lyrID) == None
  {
    FirstWithIDIsFirst(infos, lyrID);
  }

  // ---------------------------------------------------------------------------
  // atlasLayerFromConfigLayer

  /** The default tags a layer ends up with: the configured table, or none. */
  function TagsOf(t: Option<DefaultTags>): map<string, TagValue> {
    if t.Some? && t.value.TagTable? then t.value.tags else map[]
  }

  /** Whether an atlas layer carries what its configuration says. */
  ghost predicate LayerFrom(l: AtlasLayer, c: MapLayer, env: Env) {
    && l.id == c.id
    && l.name == c.name
    && l.providerLayerID == env.providerLayerID(c.providerLayer).layerID
    && l.minZoom == c.minZoom.GetOr(0)
    && l.maxZoom == c.maxZoom.GetOr(0)
    && l.defaultTags == TagsOf(c.defaultTags)
    && l.dontSimplify == c.dontSimplify
    && l.dontClip == c.dontClip
  }

  /**
   * atlasLayerFromConfigLayer: the provider's catalog is read (its error is
   * reported against the provider id), the configured layer is looked up by
   * id (missing: not registered), default tags must be a table; the layer
   * then takes its geometry type from the catalog entry, its provider if that
   * is a Tiler, and everything else from the configuration (zooms 0 unless
   * configured).  ProviderLayerID's error is ignored here.
   */
  function AtlasLayerFromConfig(cfg: MapLayer, mapName: string, layerer: Layerer, env: Env): (r: Result<AtlasLayer, Error>)
  {
    var providerLayer := cfg.providerLayer;
    var pid := env.providerLayerID(providerLayer);
    match layerer.layers
    case Failure(e) => Failure(ErrFetchingLayerInfo(pid.providerID, e))
    case Success(layerInfos) =>
      match FirstWithID(layerInfos, pid.layerID)
      case None => Failure(ErrProviderLayerNotRegistered(mapName, providerLayer, pid.providerID))
      case Some(info) =>
        if cfg.defaultTags == Some(NotATable) then Failure(ErrDefaultTagsInvalid(providerLayer))
        else
          Success(AtlasLayer(
            id := cfg.id,
            name := cfg.name,
            providerLayerID := pid.layerID,
            minZoom := cfg.minZoom.GetOr(0),
            maxZoom := cfg.maxZoom.GetOr(0),
            geomType := info.geomType,
            defaultTags := TagsOf(cfg.defaultTags),
            provider := if env.isTiler(layerer) then Some(layerer) else None,
            dontSimplify := cfg.dontSimplify,
            dontClip := cfg.dontClip))
  }
  /** What atlasLayerFromConfigLayer returns, case by case. */
  lemma AtlasLayerFromConfigRules(cfg: MapLayer, mapName: string, layerer: Layerer, env: Env)
    ensures var r := AtlasLayerFromConfig(cfg, mapName, layerer, env);
            var pid := env.providerLayerID(cfg.providerLayer);
            && (layerer.layers.Failure? ==> r == Failure(ErrFetchingLayerInfo(pid.providerID, layerer.layers.error)))
            && (layerer.layers.Success? && FirstWithID(layerer.layers.value, pid.layerID).None? ==>
                  r == Failure(ErrProviderLayerNotRegistered(mapName, cfg.providerLayer, pid.providerID)))
            && (layerer.layers.Success? && FirstWithID(layerer.layers.value, pid.layerID).Some? ==>
                  && (cfg.defaultTags == Some(NotATable) <==> r.Failure?)
                  && (r.Failure? ==> r.error == ErrDefaultTagsInvalid(cfg.providerLayer))
                  && (r.Success? ==> r.value.geomType == FirstWithID(layerer.layers.value, pid.layerID).value.geomType))
            && (r.Success? ==> LayerFrom(r.value, cfg, env))
            && (r.Success? ==> r.value.provider == (if env.isTiler(layerer) then Some(layerer) else None))
  {
  }

  // ---------------------------------------------------------------------------
  // selectProvider

  /**
   * selectProvider, with the map it may update returned beside the provider.
   * A map with an MVT provider accepts only that provider's id.  Otherwise a
   * registered provider is used by its standard side when it has one; an
   * MVT-only provider is taken (and becomes the map's MVT provider) only
   * while the map has no layers.  Anything else is not found.
   */
  function SelectProvider(prdID: string, mapName: string, m: AtlasMap, providers: map<string, TilerUnion>)
    : (r: (Result<Layerer, Error>, AtlasMap))
  {
    if m.HasMVTProvider() then
      if m.mvt.value.id != prdID then
        (Failure(ErrMVTDifferentProviders(m.mvt.value.id, prdID)), m)
      else
        (Success(m.mvt.value.provider), m)
    else if prdID in providers then
      var prvd := providers[prdID];
      if prvd.std.Some? then (Success(prvd.std.value), m)
      else if prvd.mvt.None? then (Failure(ErrProviderNotFound(prdID)), m)
      else if |m.layers| != 0 then (Failure(ErrMixedProviders(mapName)), m)
      else
        var (m', p) := m.SetMVTProvider(prdID, prvd.mvt.value);
        (Success(p), m')
    else
      (Failure(ErrProviderNotFound(prdID)), m)
  }
  /** What selectProvider returns and does to the map, case by case. */
  lemma SelectProviderRules(prdID: string, mapName: string, m: AtlasMap, providers: map<string, TilerUnion>)
    ensures var r := SelectProvider(prdID, mapName, m, providers);
            && r.1 == m.(mvt := r.1.mvt)
            && (r.1.mvt != m.mvt ==>
                  && m.mvt.None? && m.layers == []
                  && r.0.Success? && r.1.mvt == Some(MvtChoice(prdID, r.0.value)))
            && (m.mvt.Some? ==>
                  && (r.0.Success? <==> m.mvt.value.id == prdID)
                  && (r.0.Success? ==> r.0.value == m.mvt.value.provider)
                  && (r.0.Failure? ==> r.0.error == ErrMVTDifferentProviders(m.mvt.value.id, prdID)))
            && (m.mvt.None? && prdID in providers && providers[prdID].std.Some? ==>
                  r.0 == Success(providers[prdID].std.value) && r.1 == m)
            && (m.mvt.None? && (prdID !in providers || (providers[prdID].std.None? && providers[prdID].mvt.None?)) ==>
                  r.0 == Failure(ErrProviderNotFound(prdID)) && r.1 == m)
            && (m.mvt.None? && prdID in providers && providers[prdID].std.None? && providers[prdID].mvt.Some? ==>
                  && (r.0.Success? <==> m.layers == [])
                  && (r.0.Success? ==> r.0.value == providers[prdID].mvt.value)
                  && (r.0.Failure? ==> r.0.error == ErrMixedProviders(mapName)))
  {
  }

  // ---------------------------------------------------------------------------
  // Maps

  /** The layers of a map from its `k`-th configured layer on, added to `m`; the first error ends it. */
  function BuildLayers(m: AtlasMap, cfg: ConfigMap, k: nat, providers: map<string, TilerUnion>, env: Env): Result<AtlasMap, Error>
    requires k <= |cfg.layers|
    decreases |cfg.layers| - k
  {
    if k == |cfg.layers| then Success(m)
    else
      var l := cfg.layers[k];
      var pid := env.providerLayerID(l.providerLayer);
      if pid.err.Some? then Failure(ErrProviderLayerInvalid(l.providerLayer, cfg.name))
      else
        var (sel, m1) := SelectProvider(pid.providerID, cfg.name, m, providers);
        if sel.Failure? then Failure(sel.error)
        else
          var layer := AtlasLayerFromConfig(l, cfg.name, sel.value, env);
          if layer.Failure? then Failure(layer.error)
          else BuildLayers(m1.(layers := m1.layers + [layer.value]), cfg, k + 1, providers, env)
  }

  /** The atlas map a configured map becomes, or the first error among its layers. */
  function BuildMap(cfg: ConfigMap, providers: map<string, TilerUnion>, env: Env): Result<AtlasMap, Error> {
    BuildLayers(MapOf(cfg, env), cfg, 0, providers, env)
  }

  /** One iteration of Maps: the map's layers built in order onto the configured map; the first error stops it. */
  method BuildMapLayers(m: ConfigMap, providers: map<string, TilerUnion>, env: Env) returns (r: Result<AtlasMap, Error>)
    ensures r == BuildMap(m, providers, env)
  {
    var newMap := WebMercatorMapFromConfigMap(m, env);
    for k := 0 to |m.layers|
      invariant BuildLayers(newMap, m, k, providers, env) == BuildMap(m, providers, env)
    {
      var l := m.layers[k];
      var pid := env.providerLayerID(l.providerLayer);
      if pid.err.Some? {
        return Failure(ErrProviderLayerInvalid(l.providerLayer, m.name));
      }
      var (sel, m1) := SelectProvider(pid.providerID, m.name, newMap, providers);
      if sel.Failure? {
        return Failure(sel.error);
      }
      newMap := m1;
      var layer := AtlasLayerFromConfig(l, m.name, sel.value, env);
      if layer.Failure? {
        return Failure(layer.error);
      }
      newMap := newMap.(layers := newMap.layers + [layer.value]);
    }
    return Success(newMap);
  }

  /** What registering maps does: the maps added to the atlas, in order, and the error returned. */
  datatype Registration = Registration(added: seq<AtlasMap>, err: Option<Error>)

  /** Each configured map, built. */
  function Builds(maps: seq<ConfigMap>, providers: map<string, TilerUnion>, env: Env): (b: seq<Result<AtlasMap, Error>>)
    ensures |b| == |maps|
    ensures forall j :: 0 <= j < |maps| ==> b[j] == BuildMap(maps[j], providers, env)
  {
    seq(|maps|, j requires 0 <= j < |maps| => BuildMap(maps[j], providers, env))
  }

  /** Adding built maps in order until the first that failed, whose error is the result. */
  function Collect(builds: seq<Result<AtlasMap, Error>>): Registration {
    if builds == [] then Registration([], None)
    else
      match builds[0]
      case Failure(e) => Registration([], Some(e))
      case Success(m) =>
        var rest := Collect(builds[1..]);
        Registration([m] + rest.added, rest.err)
  }

  /** What Maps does to the atlas and returns. */
  function MapsSpec(maps: seq<ConfigMap>, providers: map<string, TilerUnion>, env: Env): Registration {
    Collect(Builds(maps, providers, env))
  }

  /** The loop invariant of Maps, kept when the `i`-th map is built and added. */
  lemma CollectAdvance(bs: seq<Result<AtlasMap, Error>>, i: nat, added: seq<AtlasMap>, start: seq<AtlasMap>)
    requires i < |bs| && bs[i].Success?
    requires added + Collect(bs[i..]).added == start + Collect(bs).added
    requires Collect(bs[i..]).err == Collect(bs).err
    ensures (added + [bs[i].value]) + Collect(bs[i + 1..]).added == start + Collect(bs).added
    ensures Collect(bs[i + 1..]).err == Collect(bs).err
  {
    assert bs[i..][1..] == bs[i + 1..];
  }

  /** When the `i`-th map fails, the maps added so far are all there is to add, and its error is the result. */
  lemma CollectStops(bs: seq<Result<AtlasMap, Error>>, i: nat, added: seq<AtlasMap>, start: seq<AtlasMap>)
    requires i < |bs| && bs[i].Failure?
    requires added + Collect(bs[i..]).added == start + Collect(bs).added
    requires Collect(bs[i..]).err == Collect(bs).err
    ensures added == start + Collect(bs).added
    ensures Collect(bs).err == Some(bs[i].error)
  {
  }

  /** Past the last map, everything has been added without error. */
  lemma CollectEnds(bs: seq<Result<AtlasMap, Error>>, added: seq<AtlasMap>, start: seq<AtlasMap>)
    requires added + Collect(bs[|bs|..]).added == start + Collect(bs).added
    requires Collect(bs[|bs|..]).err == Collect(bs).err
    ensures added == start + Collect(bs).added
    ensures Collect(bs).err == None
  {
    assert bs[|bs|..] == [];
  }

  /** Maps: every configured map in order, each added once all its layers are built; the first error stops it. */
  method Maps(a: Atlas, maps: seq<ConfigMap>, providers: map<string, TilerUnion>, env: Env) returns (err: Option<Error>)
    modifies a
    ensures a.added == old(a.added) + MapsSpec(maps, providers, env).added
    ensures err == MapsSpec(maps, providers, env).err
  {
    ghost var bs := Builds(maps, providers, env);
    ghost var start := a.added;
    for i := 0 to |maps|
      invariant a.added + Collect(bs[i..]).added == start + Collect(bs).added
      invariant Collect(bs[i..]).err == Collect(bs).err
    {
      var built := BuildMapLayers(maps[i], providers, env);
      if built.Failure? {
        CollectStops(bs, i, a.added, start);
        return Some(built.error);
      }
      CollectAdvance(bs, i, a.added, start);
      a.AddMap(built.value);
    }
    CollectEnds(bs, a.added, start);
    return None;
  }

  // ---------------------------------------------------------------------------
  // Properties of the registration

  /** No error exactly when every build succeeds, and then every map is added. */
  lemma {:induction false} CollectSucceedsWhenAllBuild(builds: seq<Result<AtlasMap, Error>>)
    ensures Collect(builds).err.None? <==> forall j :: 0 <= j < |builds| ==> builds[j].Success?
    ensures Collect(builds).err.None? ==> |Collect(builds).added| == |builds|
  {
    if builds != [] && builds[0].Success? {
      CollectSucceedsWhenAllBuild(builds[1..]);
      assert forall j :: 1 <= j < |builds| ==> builds[j] == builds[1..][j - 1];
    }
  }

  /** The `k`-th map added is the `k`-th build. */
  lemma {:induction false} CollectAddedAt(builds: seq<Result<AtlasMap, Error>>, k: nat)
    requires k < |Collect(builds).added|
    ensures k < |builds| && builds[k] == Success(Collect(builds).added[k])
    decreases k
  {
    if k > 0 {
      CollectAddedAt(builds[1..], k - 1);
    }
  }

  /** An error is that of the build right after the maps added. */
  lemma {:induction false} CollectErrorIsFirstFailure(builds: seq<Result<AtlasMap, Error>>)
    ensures Collect(builds).err.Some? ==>
              && |Collect(builds).added| < |builds|
              && builds[|Collect(builds).added|] == Failure(Collect(builds).err.value)
  {
    if builds != [] && builds[0].Success? {
      CollectErrorIsFirstFailure(builds[1..]);
    }
  }

  /**
   * Registration stops at the first map that fails to build: the maps before
   * it are added, in configuration order, and its error is returned; with no
   * failure every map is added.
   */
  lemma MapsStopAtFirstError(maps: seq<ConfigMap>, providers: map<string, TilerUnion>, env: Env)
    ensures var r := MapsSpec(maps, providers, env);
            && (r.err.None? <==> forall j :: 0 <= j < |maps| ==> BuildMap(maps[j], providers, env).Success?)
            && (r.err.None? ==> |r.added| == |maps|)
            && (forall k :: 0 <= k < |r.added| ==> k < |maps| && BuildMap(maps[k], providers, env) == Success(r.added[k]))
            && (r.err.Some? ==> |r.added| < |maps| && BuildMap(maps[|r.added|], providers, env) == Failure(r.err.value))
  {
    var bs := Builds(maps, providers, env);
    CollectSucceedsWhenAllBuild(bs);
    CollectErrorIsFirstFailure(bs);
    forall k | 0 <= k < |Collect(bs).added|
      ensures k < |maps| && BuildMap(maps[k], providers, env) == Success(Collect(bs).added[k])
    {
      CollectAddedAt(bs, k);
    }
  }

  /** Building layers from the `k`-th on keeps the layers already there and appends one per configured layer, in order. */
  lemma {:induction false} BuildLayersInOrder(m: AtlasMap, cfg: ConfigMap, k: nat, providers: map<string, TilerUnion>, env: Env)
    requires k <= |cfg.layers|
    requires BuildLayers(m, cfg, k, providers, env).Success?
    ensures var r := BuildLayers(m, cfg, k, providers, env).value;
            && |r.layers| == |m.layers| + |cfg.layers| - k
            && r.layers[..|m.layers|] == m.layers
            && (forall j :: k <= j < |cfg.layers| ==> LayerFrom(r.layers[|m.layers| - k + j], cfg.layers[j], env))
            && r == m.(layers := r.layers, mvt := r.mvt)
    decreases |cfg.layers| - k
  {
    if k < |cfg.layers| {
      var l := cfg.layers[k];
      var pid := env.providerLayerID(l.providerLayer);
      var (sel, m1) := SelectProvider(pid.providerID, cfg.name, m, providers);
      SelectProviderRules(pid.providerID, cfg.name, m, providers);
      var layer := AtlasLayerFromConfig(l, cfg.name, sel.value, env);
      AtlasLayerFromConfigRules(l, cfg.name, sel.value, env);
      var m2 := m1.(layers := m1.layers + [layer.value]);
      BuildLayersInOrder(m2, cfg, k + 1, providers, env);
      var r := BuildLayers(m, cfg, k, providers, env).value;
      assert r == BuildLayers(m2, cfg, k + 1, providers, env).value;
      assert r.layers[..|m2.layers|] == m2.layers;
      assert r.layers[..|m.layers|] == m2.layers[..|m.layers|];
      assert r.layers[|m.layers|] == m2.layers[|m.layers|] == layer.value;
    }
  }

  /**
   * A registered map keeps its configured name, attribution, centre, bounds
   * and buffer, and has one layer per configured layer, in configuration
   * order, each carrying its configured fields.
   */
  lemma MapKeepsConfiguration(cfg: ConfigMap, providers: map<string, TilerUnion>, env: Env)
    requires BuildMap(cfg, providers, env).Success?
    ensures var r := BuildMap(cfg, providers, env).value;
            && r == MapOf(cfg, env).(layers := r.layers, mvt := r.mvt)
            && |r.layers| == |cfg.layers|
            && forall j :: 0 <= j < |cfg.layers| ==> LayerFrom(r.layers[j], cfg.layers[j], env)
  {
    var m0 := MapOf(cfg, env);
    assert BuildMap(cfg, providers, env) == BuildLayers(m0, cfg, 0, providers, env);
    BuildLayersInOrder(m0, cfg, 0, providers, env);
    var r := BuildMap(cfg, providers, env).value;
    assert |m0.layers| == 0;
    assert forall j :: 0 <= j < |cfg.layers| ==> LayerFrom(r.layers[|m0.layers| - 0 + j], cfg.layers[j], env);
  }

  /**
   * While building a map, an MVT provider is only ever set on a map without
   * layers and then never replaced, so every layer built before it was set
   * is none, and every layer built after uses its provider id.
   */
  lemma {:induction false} BuildLayersSingleMvt(m: AtlasMap, cfg: ConfigMap, k: nat, providers: map<string, TilerUnion>, env: Env)
    requires k <= |cfg.layers|
    requires |m.layers| == k
    requires m.mvt.Some? ==> forall j :: 0 <= j < k ==> env.providerLayerID(cfg.layers[j].providerLayer).providerID == m.mvt.value.id
    requires BuildLayers(m, cfg, k, providers, env).Success?
    ensures var r := BuildLayers(m, cfg, k, providers, env).value;
            && (m.mvt.Some? ==> r.mvt == m.mvt)
            && (r.mvt.Some? ==> forall j :: 0 <= j < |cfg.layers| ==> env.providerLayerID(cfg.layers[j].providerLayer).providerID == r.mvt.value.id)
    decreases |cfg.layers| - k
  {
    if k < |cfg.layers| {
      var l := cfg.layers[k];
      var pid := env.providerLayerID(l.providerLayer);
      var (sel, m1) := SelectProvider(pid.providerID, cfg.name, m, providers);
      SelectProviderRules(pid.providerID, cfg.name, m, providers);
      var layer := AtlasLayerFromConfig(l, cfg.name, sel.value, env);
      AtlasLayerFromConfigRules(l, cfg.name, sel.value, env);
      var m2 := m1.(layers := m1.layers + [layer.value]);
      if m1.mvt.Some? {
        assert pid.providerID == m1.mvt.value.id;
      }
      BuildLayersSingleMvt(m2, cfg, k + 1, providers, env);
    }
  }

  /** A map served by an MVT provider takes every one of its layers from that provider. */
  lemma MvtMapHasOneProvider(cfg: ConfigMap, providers: map<string, TilerUnion>, env: Env)
    requires BuildMap(cfg, providers, env).Success?
    requires BuildMap(cfg, providers, env).value.mvt.Some?
    ensures forall j :: 0 <= j < |cfg.layers| ==>
              env.providerLayerID(cfg.layers[j].providerLayer).providerID == BuildMap(cfg, providers, env).value.mvt.value.id
  {
    BuildLayersSingleMvt(MapOf(cfg, env), cfg, 0, providers, env);
  }
}
