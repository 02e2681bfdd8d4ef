/**
 * provider/provider.go: the process-wide driver registry, the provider-type
 * filter, and TilerUnion, the two-field stand-in for a sum type over the two
 * provider capabilities.  provider/layer.go's interfaces appear here as the
 * values `LayerInfo` and `Layerer`.
 */
module Provider {
  import opened Wrappers
  import opened Errors
  import opened Geom
  import opened Dict

  // ---------------------------------------------------------------------------
  // provider/layer.go

  /** The LayerInfo interface, seen through its four accessors. */
  datatype LayerInfo = LayerInfo(id: string, name: string, geomType: Option<GeomKind>, srid: nat)

  /** provider.Layer: a provider layer id and the name to encode it under in the tile. */
  datatype LayerRef = LayerRef(id: string, mvtName: string)

  /** A tag value of a feature. */
  datatype TagValue = TagString(s: string) | TagInt(i: int)

  /** provider.Feature. `geometry` is `None` where the Go value stays nil. */
  datatype Feature = Feature(id: nat, geometry: Option<Geometry>, srid: nat, tags: map<string, TagValue>)

  /** The outcome of a streaming call: the features handed to the callback, in order, and the returned error. */
  datatype Stream = Stream(emitted: seq<Feature>, err: Option<Error>)

  /**
   * A feature callback: its answer to the `n`-th call (counted from 0) with a
   * given feature.  `None` is a nil error.
   */
  type Callback = (nat, Feature) -> Option<Error>

  /**
   * One provider instance as the Layerer interface (which Tiler and MVTTiler
   * extend) sees it; a nil `Layerer` is `None` wherever one is optional.
   */
  datatype Layerer = Layerer(
    layer: string -> (Option<LayerInfo>, bool),
    layers: Result<seq<LayerInfo>, Error>,
    addLayer: Dicter -> Option<Error>,
    layerExtent: string -> (Extent, Option<Error>),
    layerMinZoom: string -> int,
    layerMaxZoom: string -> int)

  // ---------------------------------------------------------------------------
  // Provider types and filters (uint8 bit flags)

  const TypeStd: bv8 := 1
  const TypeMvt: bv8 := 2
  /** Declared as "all the types", but it is TypeStd & TypeMvt, which is 0. */
  const TypeAll: bv8 := TypeStd & TypeMvt

  function Prefix(pt: bv8): (r: string)
    ensures pt == TypeMvt <==> r == "mvt_"
    ensures pt != TypeMvt <==> r == ""
  {
    if pt == TypeMvt then "mvt_" else ""
  }

  function TypeName(pt: bv8): (r: string)
    ensures pt == TypeMvt <==> r == "MVT Provider"
    ensures pt != TypeMvt <==> r == "Standard Provider"
  {
    if pt == TypeMvt then "MVT Provider" else "Standard Provider"
  }

  /** The OR of the given types, accumulated left to right. */
  function Include(filters: seq<bv8>): bv8 {
    if filters == [] then 0 else Include(filters[..|filters| - 1]) | filters[|filters| - 1]
  }

  /** providerFilterInclude: `ret |= v` over the arguments. */
  method FilterInclude(filters: seq<bv8>) returns (f: bv8)
    ensures f == Include(filters)
  {
    f := 0;
    for i := 0 to |filters|
      invariant f == Include(filters[..i])
    {
      assert filters[..i + 1][..i] == filters[..i];
      f := f | filters[i];
    }
    assert filters[..|filters|] == filters;
  }

  /** A bit is in the OR of the types exactly when one of the types has it. */
  lemma IncludeHasBit(filters: seq<bv8>, b: bv8)
    ensures Include(filters) & b != 0 <==> exists i :: 0 <= i < |filters| && filters[i] & b != 0
  {
    if exists i :: 0 <= i < |filters| && filters[i] & b != 0 {
      var i :| 0 <= i < |filters| && filters[i] & b != 0;
      SomeTypeIncluded(filters, b, i);
    } else if Include(filters) & b != 0 {
      var i := IncludedFromSomeType(filters, b);
    }
  }

  /** A type that has the bit puts it into the OR. */
  lemma {:induction false} SomeTypeIncluded(filters: seq<bv8>, b: bv8, i: nat)
    requires i < |filters| && filters[i] & b != 0
    ensures Include(filters) & b != 0
  {
    var n := |filters| - 1;
    var init := filters[..n];
    assert Include(filters) == Include(init) | filters[n];
    OrSharesBit(Include(init), filters[n], b);
    if i < n {
      assert init[i] == filters[i];
      SomeTypeIncluded(init, b, i);
    }
  }

  /** A bit of the OR comes from one of the types. */
  lemma {:induction false} IncludedFromSomeType(filters: seq<bv8>, b: bv8) returns (i: nat)
    requires Include(filters) & b != 0
    ensures i < |filters| && filters[i] & b != 0
  {
    var n := |filters| - 1;
    var init := filters[..n];
    assert Include(filters) == Include(init) | filters[n];
    OrSharesBit(Include(init), filters[n], b);
    if filters[n] & b != 0 {
      i := n;
    } else {
      i := IncludedFromSomeType(init, b);
      assert filters[i] == init[i];
    }
  }

  /** The OR of two values shares a bit with `b` exactly when one of them does. */
  lemma OrSharesBit(x: bv8, y: bv8, b: bv8)
    ensures (x | y) & b != 0 <==> x & b != 0 || y & b != 0
  {
    assert (x | y) & b == (x & b) | (y & b);
  }

  /** providerFilter.Is: the filter shares a bit with one of the types. */
  predicate Is(pf: bv8, ps: seq<bv8>) {
    pf & Include(ps) != 0
  }

  /** Is acts as an OR over the given types; with no types it is false. */
  lemma IsMeansSomeTypeMatches(pf: bv8, ps: seq<bv8>)
    ensures Is(pf, ps) <==> exists i :: 0 <= i < |ps| && pf & ps[i] != 0
    ensures !Is(pf, [])
  {
    IncludeHasBit(ps, pf);
    assert forall i :: 0 <= i < |ps| ==> (pf & ps[i] != 0 <==> ps[i] & pf != 0);
    assert pf & Include(ps) == Include(ps) & pf;
  }

  // ---------------------------------------------------------------------------
  // The registry

  /** What an InitFunc or MVTInitFunc returns: a (possibly nil) provider and an error. */
  datatype InitResult = InitResult(tiler: Option<Layerer>, err: Option<Error>)

  /** A provider constructor. */
  type InitFunc = Dicter -> InitResult

  /** A cleanup callback, known by an identifier; running it is outside this model. */
  datatype CleanupFunc = CleanupFunc(handle: nat)

  /** A registry entry: `init` for a standard provider, `mvtInit` for an MVT provider. */
  datatype Pfns = Pfns(init: Option<InitFunc>, mvtInit: Option<InitFunc>, cleanup: Option<CleanupFunc>)

  /** Whether Drivers lists an entry under a filter: the switch in Drivers. */
  predicate Listed(filter: bv8, p: Pfns) {
    if filter == 0 || filter == TypeAll then true
    else if Is(filter, [TypeMvt]) then p.mvtInit.Some?
    else if Is(filter, [TypeStd]) then p.init.Some?
    else false
  }

  /** No types, and TypeAll (which is 0), both list every entry. */
  lemma ListedAllTypes(p: Pfns)
    ensures Listed(Include([]), p)
    ensures Listed(Include([TypeAll]), p)
  {
  }

  /** A filter that includes TypeMvt lists exactly the MVT entries, whatever else it includes. */
  lemma {:induction false} ListedWithMvt(types: seq<bv8>, p: Pfns)
    requires exists i :: 0 <= i < |types| && types[i] == TypeMvt
    ensures Listed(Include(types), p) <==> p.mvtInit.Some?
  {
    IncludeHasBit(types, TypeMvt);
    SingleInclude(TypeMvt);
  }

  /** A filter with TypeStd but without TypeMvt lists exactly the standard entries. */
  lemma {:induction false} ListedStdOnly(types: seq<bv8>, p: Pfns)
    requires forall i :: 0 <= i < |types| ==> types[i] == TypeStd
    requires |types| > 0
    ensures Listed(Include(types), p) <==> p.init.Some?
  {
    IncludeHasBit(types, TypeMvt);
    IncludeHasBit(types, TypeStd);
    SingleInclude(TypeMvt);
    SingleInclude(TypeStd);
    assert types[0] & TypeStd != 0;
  }

  lemma SingleInclude(t: bv8)
    ensures Include([t]) == t
  {
    assert [t][..0] == [];
  }

  /** The union of one instance: at most one side is set by `For`. */
  datatype TilerUnion = TilerUnion(std: Option<Layerer>, mvt: Option<Layerer>) {

    function Layers(): Result<seq<LayerInfo>, Error> {
      if std.Some? then std.value.layers
      else if mvt.Some? then mvt.value.layers
      else Failure(ErrNilInitFunc)
    }

    function Layer(lyrID: string): (Option<LayerInfo>, bool) {
      if std.Some? then std.value.layer(lyrID)
      else if mvt.Some? then mvt.value.layer(lyrID)
      else (None, false)
    }

    function AddLayer(config: Dicter): Option<Error> {
      if std.Some? then std.value.addLayer(config)
      else if mvt.Some? then mvt.value.addLayer(config)
      else Some(ErrNilInitFunc)
    }

    function LayerExtent(lyrID: string): (Extent, Option<Error>) {
      if std.Some? then std.value.layerExtent(lyrID)
      else if mvt.Some? then mvt.value.layerExtent(lyrID)
      else (WorldExtent, Some(ErrNilInitFunc))
    }

    function LayerMinZoom(lyrID: string): int {
      if std.Some? then std.value.layerMinZoom(lyrID)
      else if mvt.Some? then mvt.value.layerMinZoom(lyrID)
      else 0
    }

    function LayerMaxZoom(lyrID: string): int {
      if std.Some? then std.value.layerMaxZoom(lyrID)
      else if mvt.Some? then mvt.value.layerMaxZoom(lyrID)
      else 16
    }
  }

  /** With neither side set, the union answers with its fixed fallbacks. */
  lemma EmptyUnionFallbacks(lyrID: string, config: Dicter)
    ensures TilerUnion(None, None).Layers() == Failure(ErrNilInitFunc)
    ensures TilerUnion(None, None).AddLayer(config) == Some(ErrNilInitFunc)
    ensures TilerUnion(None, None).Layer(lyrID) == (None, false)
    ensures TilerUnion(None, None).LayerExtent(lyrID) == (WorldExtent, Some(ErrNilInitFunc))
    ensures TilerUnion(None, None).LayerMinZoom(lyrID) == 0
    ensures TilerUnion(None, None).LayerMaxZoom(lyrID) == 16
  {
  }

  /** A set Std side answers every forwarded call, even when Mvt is set too. */
  lemma UnionPrefersStd(tu: TilerUnion, lyrID: string, config: Dicter)
    requires tu.std.Some?
    ensures tu.Layers() == tu.std.value.layers
    ensures tu.AddLayer(config) == tu.std.value.addLayer(config)
    ensures tu.Layer(lyrID) == tu.std.value.layer(lyrID)
    ensures tu.LayerExtent(lyrID) == tu.std.value.layerExtent(lyrID)
    ensures tu.LayerMinZoom(lyrID) == tu.std.value.layerMinZoom(lyrID)
    ensures tu.LayerMaxZoom(lyrID) == tu.std.value.layerMaxZoom(lyrID)
  {
  }

  /** With only Mvt set, the union forwards every call to it. */
  lemma UnionFallsBackToMvt(tu: TilerUnion, lyrID: string, config: Dicter)
    requires tu.std.None? && tu.mvt.Some?
    ensures tu.Layers() == tu.mvt.value.layers
    ensures tu.AddLayer(config) == tu.mvt.value.addLayer(config)
    ensures tu.Layer(lyrID) == tu.mvt.value.layer(lyrID)
    ensures tu.LayerExtent(lyrID) == tu.mvt.value.layerExtent(lyrID)
    ensures tu.LayerMinZoom(lyrID) == tu.mvt.value.layerMinZoom(lyrID)
    ensures tu.LayerMaxZoom(lyrID) == tu.mvt.value.layerMaxZoom(lyrID)
  {
  }

  /** The package-level `providers` map; `None` is the nil map before the first registration. */
  class Registry {
    var providers: Option<map<string, Pfns>>

    constructor ()
      ensures providers == None
    {
      providers := None;
    }

    function Table(): map<string, Pfns>
      reads this
    {
      providers.GetOr(map[])
    }

    /** Every entry is either a standard or an MVT registration, never both, never neither. */
    ghost predicate Valid()
      reads this
    {
      forall name :: name in Table() ==> (Table()[name].init.Some? <==> Table()[name].mvtInit.None?)
    }

    /** Register: adds a standard provider under a name no entry uses yet. */
    method Register(name: string, init: Option<InitFunc>, cleanup: Option<CleanupFunc>) returns (err: Option<Error>)
      modifies this
      ensures init.None? ==> err == Some(ErrNilInitFunc) && providers == old(providers)
      ensures init.Some? && name in old(Table()) ==>
                err == Some(ErrProviderExists(name)) && providers == old(providers)
      ensures init.Some? && name !in old(Table()) ==>
                err == None && providers == Some(old(Table())[name := Pfns(init, None, cleanup)])
      ensures old(Valid()) ==> Valid()
    {
      if init.None? {
        return Some(ErrNilInitFunc);
      }
      if providers.None? {
        providers := Some(map[]);
      }
      if name in providers.value {
        return Some(ErrProviderExists(name));
      }
      providers := Some(providers.value[name := Pfns(init, None, cleanup)]);
      return None;
    }

    /** MVTRegister: adds an MVT provider; it shares the name space with Register. */
    method MVTRegister(name: string, init: Option<InitFunc>, cleanup: Option<CleanupFunc>) returns (err: Option<Error>)
      modifies this
      ensures init.None? ==> err == Some(ErrNilInitFunc) && providers == old(providers)
      ensures init.Some? && name in old(Table()) ==>
                err == Some(ErrProviderExists(name)) && providers == old(providers)
      ensures init.Some? && name !in old(Table()) ==>
                err == None && providers == Some(old(Table())[name := Pfns(None, init, cleanup)])
      ensures old(Valid()) ==> Valid()
    {
      if init.None? {
        return Some(ErrNilInitFunc);
      }
      if providers.None? {
        providers := Some(map[]);
      }
      if name in providers.value {
        return Some(ErrProviderExists(name));
      }
      providers := Some(providers.value[name := Pfns(None, init, cleanup)]);
      return None;
    }

    /** Drivers: the names of the entries the filter selects, each once, in map order. */
    method Drivers(types: seq<bv8>) returns (l: seq<string>)
      ensures providers.None? ==> l == []
      ensures forall i, j :: 0 <= i < j < |l| ==> l[i] != l[j]
      ensures forall name :: name in l <==> name in Table() && Listed(Include(types), Table()[name])
    {
      l := [];
      if providers.None? {
        return;
      }
      var table := providers.value;
      var filter := FilterInclude(types);
      var all := filter == 0 || filter == TypeAll;
      var mvt := Is(filter, [TypeMvt]);
      var std := Is(filter, [TypeStd]);
      var remaining := table.Keys;
      while remaining != {}
        invariant remaining <= table.Keys
        invariant forall i, j :: 0 <= i < j < |l| ==> l[i] != l[j]
        invariant forall name :: name in l <==> name in table.Keys - remaining && Listed(filter, table[name])
        decreases remaining
      {
        var k :| k in remaining;
        remaining := remaining - {k};
        var v := table[k];
        if all {
        } else if mvt {
          if v.mvtInit.None? {
            continue;
          }
        } else if std {
          if v.init.None? {
            continue;
          }
        } else {
          continue;
        }
        l := l + [k];
      }
    }

    /**
     * For: instantiates the named provider.  Exactly the side of the union that
     * matches the entry is filled (std first), with whatever the constructor
     * returned; the constructor's error comes back unchanged.
     */
    method For(name: string, config: Dicter) returns (val: TilerUnion, err: Option<Error>)
      ensures val.std.None? || val.mvt.None?
      ensures providers.None? ==>
                val == TilerUnion(None, None) && err == Some(ErrUnknownProvider([], ""))
      ensures providers.Some? && name !in Table() ==>
                && val == TilerUnion(None, None)
                && err.Some? && err.value.ErrUnknownProvider? && err.value.name == name
                && (forall n :: n in err.value.knownProviders <==> n in Table())
      ensures name in Table() && Table()[name].init.Some? ==>
                var r := Table()[name].init.value(config);
                val == TilerUnion(r.tiler, None) && err == r.err
      ensures name in Table() && Table()[name].init.None? && Table()[name].mvtInit.Some? ==>
                var r := Table()[name].mvtInit.value(config);
                val == TilerUnion(None, r.tiler) && err == r.err
      ensures name in Table() && Table()[name].init.None? && Table()[name].mvtInit.None? ==>
                val == TilerUnion(None, None) && err == Some(ErrInvalidRegisteredProvider(name))
      ensures Valid() && name in Table() ==>
                err == if Table()[name].init.Some? then Table()[name].init.value(config).err
                       else Table()[name].mvtInit.value(config).err
    {
      var driversList := Drivers([]);
      val := TilerUnion(None, None);
      if providers.None? {
        return val, Some(ErrUnknownProvider(driversList, ""));
      }
      if name !in providers.value {
        ListedAllTypes(Pfns(None, None, None));
        forall n | n in providers.value ensures n in driversList {
          ListedAllTypes(providers.value[n]);
        }
        return val, Some(ErrUnknownProvider(driversList, name));
      }
      var p := providers.value[name];
      if p.init.Some? {
        var r := p.init.value(config);
        return TilerUnion(r.tiler, None), r.err;
      }
      if p.mvtInit.Some? {
        var r := p.mvtInit.value(config);
        return TilerUnion(None, r.tiler), r.err;
      }
      return val, Some(ErrInvalidRegisteredProvider(name));
    }

    /** Cleanup: runs the cleanup callback of every entry that has one, once each. */
    method Cleanup() returns (invoked: seq<string>)
      ensures forall i, j :: 0 <= i < j < |invoked| ==> invoked[i] != invoked[j]
      ensures forall name :: name in invoked <==> name in Table() && Table()[name].cleanup.Some?
    {
      invoked := [];
      var table := Table();
      var remaining := table.Keys;
      while remaining != {}
        invariant remaining <= table.Keys
        invariant forall i, j :: 0 <= i < j < |invoked| ==> invoked[i] != invoked[j]
        invariant forall name :: name in invoked <==> name in table.Keys - remaining && table[name].cleanup.Some?
        decreases remaining
      {
        var k :| k in remaining;
        remaining := remaining - {k};
        if table[k].cleanup.Some? {
          invoked := invoked + [k];
        }
      }
    }
  }
}
