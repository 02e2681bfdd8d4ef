/**
 * How map registration meets the providers' catalogs.  Registration looks a
 * configured layer up by the ID() of the provider's LayerInfo entries
 * (cmd/internal/register/maps.go:40), while the gpkg, debug and test
 * providers list their layers without an id: a map layer naming any of them
 * by a non-empty layer id is refused as not registered.
 */
module Catalogs {
  import opened Wrappers
  import opened Errors
  import opened Provider
  import Gpkg
  import Debug
  import EmptyCollection
  import opened Register

  /** A gpkg layer listing holds no entry any non-empty layer id can find. */
  lemma GpkgListingMatchesNoID(p: Gpkg.GpkgProvider, ls: seq<LayerInfo>, lyrID: string)
    requires p.Valid()
    requires forall k :: 0 <= k < |ls| ==> ls[k].name in p.layers && ls[k] == Gpkg.Info(p.layers[ls[k].name])
    requires lyrID != ""
    ensures FirstWithID(ls, lyrID) == None
  {
    Gpkg.ListedIDsEmpty(p, ls);
    IdlessCatalogMatchesNothing(ls, lyrID);
  }

  /** A map layer on the debug provider with a non-empty layer id is never registered. */
  lemma DebugLayerNotRegistered(cfg: MapLayer, mapName: string, env: Env)
    requires env.providerLayerID(cfg.providerLayer).layerID != ""
    ensures AtlasLayerFromConfig(cfg, mapName, Debug.DebugProvider, env)
         == Failure(ErrProviderLayerNotRegistered(mapName, cfg.providerLayer, env.providerLayerID(cfg.providerLayer).providerID))
  {
    IdlessCatalogMatchesNothing(Debug.Layers().value, env.providerLayerID(cfg.providerLayer).layerID);
  }

  /** A map layer on the empty-collection test provider with a non-empty layer id is never registered. */
  lemma TestLayerNotRegistered(cfg: MapLayer, mapName: string, env: Env)
    requires env.providerLayerID(cfg.providerLayer).layerID != ""
    ensures AtlasLayerFromConfig(cfg, mapName, EmptyCollection.TestProvider, env)
         == Failure(ErrProviderLayerNotRegistered(mapName, cfg.providerLayer, env.providerLayerID(cfg.providerLayer).providerID))
  {
    IdlessCatalogMatchesNothing(EmptyCollection.Layers().value, env.providerLayerID(cfg.providerLayer).layerID);
  }
}
