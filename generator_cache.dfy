/**
 * The tiered value-generator cache. Generators are registered in four
 * independent tiers and looked up from the most specific tier to the least:
 * property path, (owning class, property name), (property name, property
 * type), property-type name, and finally the NOT_COVERED sentinel.
 */
module GeneratorCache {
  import opened Types
  import opened Generators
  import opened TypeHierarchy

  /** How a type generator is propagated through the hierarchy. */
  datatype RegisterTypeMode = SingleType | AllParents | AllInterfaces | All

  /** Key of the second tier. It carries no property type. */
  datatype ClassPropertyNameKey = ClassPropertyNameKey(owningClass: TypeRef, propertyName: string)

  /** Key of the third tier; the type is compared by identity, not by name. */
  datatype PropertyNameAndTypeKey = PropertyNameAndTypeKey(propertyName: string, propertyType: TypeRef)

  /** What the property-access layer hands the cache for one property. */
  datatype PropertyKey = PropertyKey(
    propertyPath: string,
    owningClass: TypeRef,
    propertyName: string,
    propertyType: TypeRef)

  /** `new ClassPropertyNameKey(key)`. */
  function ClassKeyOf(key: PropertyKey): ClassPropertyNameKey {
    ClassPropertyNameKey(key.owningClass, key.propertyName)
  }

  /** `new PropertyNameAndPropertyTypeKey(key)`. */
  function NameAndTypeKeyOf(key: PropertyKey): PropertyNameAndTypeKey {
    PropertyNameAndTypeKey(key.propertyName, key.propertyType)
  }

  /** The names of the given types, as `getName()` reports them. */
  function Names(ts: seq<TypeRef>): (names: set<string>)
    ensures forall t :: t in ts ==> t.name in names
    decreases |ts|
  {
    if ts == [] then {}
    else
      var init := ts[..|ts| - 1];
      assert forall t :: t in init ==> t in ts;
      assert ts == init + [ts[|ts| - 1]];
      Names(init) + {ts[|ts| - 1].name}
  }

  /** Every name in `Names(ts)` is the name of some type of `ts`. */
  lemma {:induction false} NamesOnly(ts: seq<TypeRef>, n: string)
    requires n in Names(ts)
    ensures exists t :: t in ts && t.name == n
    decreases |ts|
  {
    var init := ts[..|ts| - 1];
    if n != ts[|ts| - 1].name {
      NamesOnly(init, n);
      var t :| t in init && t.name == n;
      assert t in ts;
    }
  }


  /** One `typeCache.put(t.getName(), g)` per type of `ts`, in order. Every
      put stores the same generator, so the result is the old map with every
      named entry replaced by `g` and every other entry left as it was. */
  function PutAll(m: map<string, Generator>, ts: seq<TypeRef>, g: Generator): (r: map<string, Generator>)
    ensures r.Keys == m.Keys + Names(ts)
    ensures forall n :: n in Names(ts) ==> r[n] == g
    ensures forall n :: n in m && n !in Names(ts) ==> r[n] == m[n]
    decreases |ts|
  {
    if ts == [] then m
    else
      var init, last := ts[..|ts| - 1], ts[|ts| - 1];
      assert Names(ts) == Names(init) + {last.name};
      PutAll(m, init, g)[last.name := g]
  }

  lemma {:induction false} PutAllAppend(m: map<string, Generator>, a: seq<TypeRef>, b: seq<TypeRef>, g: Generator)
    ensures PutAll(m, a + b, g) == PutAll(PutAll(m, a, g), b, g)
    decreases |b|
  {
    if b == [] {
      assert a + b == a;
    } else {
      var init := b[..|b| - 1];
      assert (a + b)[..|a + b| - 1] == a + init;
      PutAllAppend(m, a, init, g);
    }
  }


  predicate WalksParents(mode: RegisterTypeMode) { mode == AllParents || mode == All }

  predicate WalksInterfaces(mode: RegisterTypeMode) { mode == AllInterfaces || mode == All }

  /** The types whose names `registerATypeGenerator` maps, in the order it
      puts them: the type itself, then (parent modes) its whole superclass
      chain including the root, then (interface modes) each directly
      implemented interface followed by that interface's superclass chain. */
  function TypesToRegister(h: Hierarchy, mode: RegisterTypeMode, t: TypeRef): (r: seq<TypeRef>)
    requires h.Valid()
    ensures |r| > 0 && r[0] == t
    ensures mode == SingleType ==> r == [t]
    ensures WalksParents(mode) ==> forall x :: x in ParentChain(h, t) ==> x in r
    ensures WalksInterfaces(mode) ==> forall i :: i in h.Interfaces(t) ==> i in r
    ensures WalksInterfaces(mode) ==>
              forall i, x :: i in h.Interfaces(t) && x in ParentChain(h, i) ==> x in r
    ensures forall x :: x in r ==>
              || x == t
              || (WalksParents(mode) && x in ParentChain(h, t))
              || (WalksInterfaces(mode) && x in InterfaceWalk(h, h.Interfaces(t)))
  {
    [t]
    + (if WalksParents(mode) then ParentChain(h, t) else [])
    + (if WalksInterfaces(mode) then InterfaceWalk(h, h.Interfaces(t)) else [])
  }

  class ValueGeneratorCache {
    var propertyDepthCache: map<string, Generator>
    var classAndPropertyNameCache: map<ClassPropertyNameKey, Generator>
    var propertyNameAndTypeCache: map<PropertyNameAndTypeKey, Generator>
    var typeCache: map<string, Generator>

    /** The four tiers, most specific first, consulted in this fixed order;
        the first tier holding the key decides, and NOT_COVERED is returned
        when none does. Reading is all it does. */
    function LookUpGenerator(key: PropertyKey): (g: Generator)
      reads this
      ensures key.propertyPath in propertyDepthCache ==>
                g == propertyDepthCache[key.propertyPath]
      ensures key.propertyPath !in propertyDepthCache
              && ClassKeyOf(key) in classAndPropertyNameCache ==>
                g == classAndPropertyNameCache[ClassKeyOf(key)]
      ensures key.propertyPath !in propertyDepthCache
              && ClassKeyOf(key) !in classAndPropertyNameCache
              && NameAndTypeKeyOf(key) in propertyNameAndTypeCache ==>
                g == propertyNameAndTypeCache[NameAndTypeKeyOf(key)]
      ensures key.propertyPath !in propertyDepthCache
              && ClassKeyOf(key) !in classAndPropertyNameCache
              && NameAndTypeKeyOf(key) !in propertyNameAndTypeCache
              && key.propertyType.name in typeCache ==>
                g == typeCache[key.propertyType.name]
      ensures key.propertyPath !in propertyDepthCache
              && ClassKeyOf(key) !in classAndPropertyNameCache
              && NameAndTypeKeyOf(key) !in propertyNameAndTypeCache
              && key.propertyType.name !in typeCache ==>
                g == NotCovered
    {
      if key.propertyPath in propertyDepthCache then propertyDepthCache[key.propertyPath]
      else if ClassKeyOf(key) in classAndPropertyNameCache then classAndPropertyNameCache[ClassKeyOf(key)]
      else if NameAndTypeKeyOf(key) in propertyNameAndTypeCache then propertyNameAndTypeCache[NameAndTypeKeyOf(key)]
      else if key.propertyType.name in typeCache then typeCache[key.propertyType.name]
      else NotCovered
    }

    /** True of a key no tier holds. */
    predicate Uncovered(key: PropertyKey)
      reads this
    {
      && key.propertyPath !in propertyDepthCache
      && ClassKeyOf(key) !in classAndPropertyNameCache
      && NameAndTypeKeyOf(key) !in propertyNameAndTypeCache
      && key.propertyType.name !in typeCache
    }

    constructor ()
      ensures propertyDepthCache == map[] && classAndPropertyNameCache == map[]
      ensures propertyNameAndTypeCache == map[] && typeCache == map[]
      ensures forall key: PropertyKey :: LookUpGenerator(key) == NotCovered
    {
      propertyDepthCache := map[];
      classAndPropertyNameCache := map[];
      propertyNameAndTypeCache := map[];
      typeCache := map[];
    }

    /** Tier 1: the path key is put, replacing any earlier generator. */
    method RegisterAPropertyDepthGenerator(propertyDepth: string, valueGen: Generator)
      modifies this
      ensures propertyDepthCache == old(propertyDepthCache)[propertyDepth := valueGen]
      ensures classAndPropertyNameCache == old(classAndPropertyNameCache)
      ensures propertyNameAndTypeCache == old(propertyNameAndTypeCache)
      ensures typeCache == old(typeCache)
      ensures forall key: PropertyKey :: key.propertyPath == propertyDepth ==> LookUpGenerator(key) == valueGen
    {
      propertyDepthCache := propertyDepthCache[propertyDepth := valueGen];
    }

    /** Tier 2: the (owning class, property name) key is put. */
    method RegisterAClassNamePropertyNameGenerator(owningClass: TypeRef, propertyName: string, valueGenerator: Generator)
      modifies this
      ensures classAndPropertyNameCache ==
                old(classAndPropertyNameCache)[ClassPropertyNameKey(owningClass, propertyName) := valueGenerator]
      ensures propertyDepthCache == old(propertyDepthCache)
      ensures propertyNameAndTypeCache == old(propertyNameAndTypeCache)
      ensures typeCache == old(typeCache)
      ensures forall key: PropertyKey ::
                key.owningClass == owningClass && key.propertyName == propertyName
                && key.propertyPath !in propertyDepthCache ==>
                  LookUpGenerator(key) == valueGenerator
    {
      var key := ClassPropertyNameKey(owningClass, propertyName);
      classAndPropertyNameCache := classAndPropertyNameCache[key := valueGenerator];
    }

    /** Tier 3: the (property name, property type) key is put. */
    method RegisterAPropertyNameAndTypeGenerator(propertyName: string, propertyType: TypeRef, valueGenerator: Generator)
      modifies this
      ensures propertyNameAndTypeCache ==
                old(propertyNameAndTypeCache)[PropertyNameAndTypeKey(propertyName, propertyType) := valueGenerator]
      ensures propertyDepthCache == old(propertyDepthCache)
      ensures classAndPropertyNameCache == old(classAndPropertyNameCache)
      ensures typeCache == old(typeCache)
      ensures forall key: PropertyKey ::
                key.propertyName == propertyName && key.propertyType == propertyType
                && key.propertyPath !in propertyDepthCache
                && ClassKeyOf(key) !in classAndPropertyNameCache ==>
                  LookUpGenerator(key) == valueGenerator
    {
      var key := PropertyNameAndTypeKey(propertyName, propertyType);
      propertyNameAndTypeCache := propertyNameAndTypeCache[key := valueGenerator];
    }

    /** Tier 4: the type's name, and in the walking modes the names of the
        types `TypesToRegister` lists, are all mapped to `valueGenerator`. */
    method RegisterATypeGenerator(h: Hierarchy, mode: RegisterTypeMode, propertyType: TypeRef, valueGenerator: Generator)
      requires h.Valid()
      modifies this
      ensures typeCache == PutAll(old(typeCache), TypesToRegister(h, mode, propertyType), valueGenerator)
      ensures propertyDepthCache == old(propertyDepthCache)
      ensures classAndPropertyNameCache == old(classAndPropertyNameCache)
      ensures propertyNameAndTypeCache == old(propertyNameAndTypeCache)
      ensures forall key: PropertyKey ::
                key.propertyType.name in Names(TypesToRegister(h, mode, propertyType))
                && key.propertyPath !in propertyDepthCache
                && ClassKeyOf(key) !in classAndPropertyNameCache
                && NameAndTypeKeyOf(key) !in propertyNameAndTypeCache ==>
                  LookUpGenerator(key) == valueGenerator
    {
      ghost var m := typeCache;
      typeCache := typeCache[propertyType.name := valueGenerator];
      assert typeCache == PutAll(m, [propertyType], valueGenerator);
      ghost var parents := if WalksParents(mode) then ParentChain(h, propertyType) else [];
      ghost var ifaces := if WalksInterfaces(mode) then InterfaceWalk(h, h.Interfaces(propertyType)) else [];
      match mode {
        case AllInterfaces =>
          RegisterInterfacesAgainstCache(h, propertyType, valueGenerator);
        case AllParents =>
          RegisterParentsAgainstCache(h, propertyType, valueGenerator);
        case All =>
          RegisterParentsAgainstCache(h, propertyType, valueGenerator);
          RegisterInterfacesAgainstCache(h, propertyType, valueGenerator);
        case SingleType =>
      }
      PutAllAppend(m, [propertyType], parents, valueGenerator);
      PutAllAppend(m, [propertyType] + parents, ifaces, valueGenerator);
    }

    /** The one-argument overload: registers against the single type only. */
    method RegisterASingleTypeGenerator(propertyType: TypeRef, valueGenerator: Generator)
      modifies this
      ensures typeCache == old(typeCache)[propertyType.name := valueGenerator]
      ensures propertyDepthCache == old(propertyDepthCache)
      ensures classAndPropertyNameCache == old(classAndPropertyNameCache)
      ensures propertyNameAndTypeCache == old(propertyNameAndTypeCache)
    {
      RegisterATypeGenerator(Hierarchy(map[], map[], map[]), SingleType, propertyType, valueGenerator);
    }

    /** Puts every class of the superclass chain, the root included. */
    method RegisterParentsAgainstCache(h: Hierarchy, propertyType: TypeRef, generator: Generator)
      requires h.Valid()
      modifies this
      ensures typeCache == PutAll(old(typeCache), ParentChain(h, propertyType), generator)
      ensures propertyDepthCache == old(propertyDepthCache)
      ensures classAndPropertyNameCache == old(classAndPropertyNameCache)
      ensures propertyNameAndTypeCache == old(propertyNameAndTypeCache)
      decreases h.Depth(propertyType)
    {
      if propertyType in h.superclass {
        var parentClass := h.superclass[propertyType];
        typeCache := typeCache[parentClass.name := generator];
        RegisterParentsAgainstCache(h, parentClass, generator);
        PutAllAppend(old(typeCache), [parentClass], ParentChain(h, parentClass), generator);
      }
    }

    /** Puts each directly implemented interface, each followed by its own
        superclass chain. */
    method RegisterInterfacesAgainstCache(h: Hierarchy, propertyType: TypeRef, generator: Generator)
      requires h.Valid()
      modifies this
      ensures typeCache == PutAll(old(typeCache), InterfaceWalk(h, h.Interfaces(propertyType)), generator)
      ensures propertyDepthCache == old(propertyDepthCache)
      ensures classAndPropertyNameCache == old(classAndPropertyNameCache)
      ensures propertyNameAndTypeCache == old(propertyNameAndTypeCache)
    {
      var interfaces := h.Interfaces(propertyType);
      for k := 0 to |interfaces|
        invariant typeCache == PutAll(old(typeCache), InterfaceWalk(h, interfaces[..k]), generator)
        invariant propertyDepthCache == old(propertyDepthCache)
        invariant classAndPropertyNameCache == old(classAndPropertyNameCache)
        invariant propertyNameAndTypeCache == old(propertyNameAndTypeCache)
      {
        var interfaceClass := interfaces[k];
        ghost var before := InterfaceWalk(h, interfaces[..k]);
        typeCache := typeCache[interfaceClass.name := generator];
        RegisterParentsAgainstCache(h, interfaceClass, generator);
        assert interfaces[..k + 1][..k] == interfaces[..k];
        PutAllAppend(old(typeCache), before, [interfaceClass], generator);
        PutAllAppend(old(typeCache), before + [interfaceClass], ParentChain(h, interfaceClass), generator);
      }
      assert interfaces[..|interfaces|] == interfaces;
    }

    /** Empties all four tiers. */
    method Clear()
      modifies this
      ensures propertyDepthCache == map[] && classAndPropertyNameCache == map[]
      ensures propertyNameAndTypeCache == map[] && typeCache == map[]
      ensures forall key: PropertyKey :: LookUpGenerator(key) == NotCovered
    {
      propertyDepthCache := map[];
      classAndPropertyNameCache := map[];
      propertyNameAndTypeCache := map[];
      typeCache := map[];
    }
  }

  /** A lookup returns normally even when nothing is registered; only
      invoking the returned sentinel fails. */
  lemma DeferredFailure(c: ValueGeneratorCache, key: PropertyKey, produce: nat -> Value)
    requires c.Uncovered(key)
    ensures c.LookUpGenerator(key) == NotCovered
    ensures Generate(c.LookUpGenerator(key), produce) == Failure(UnsupportedOperation(NotCoveredMessage))
  {
  }

  const StringType: TypeRef := TypeRef(1, "java.lang.String")

  /** A cache whose String fallback is supplier 0, with supplier 1 registered
      for String properties called "name": a "name" property resolves to
      supplier 1, a "description" property falls through to supplier 0. */
  method NameAndTypeExample(owner: TypeRef) returns (forName: Generator, forDescription: Generator)
    ensures forName == Supplier(1)
    ensures forDescription == Supplier(0)
  {
    var cache := new ValueGeneratorCache();
    cache.RegisterASingleTypeGenerator(StringType, Supplier(0));
    cache.RegisterAPropertyNameAndTypeGenerator("name", StringType, Supplier(1));
    forName := cache.LookUpGenerator(PropertyKey("name", owner, "name", StringType));
    forDescription := cache.LookUpGenerator(PropertyKey("description", owner, "description", StringType));
  }

  /** Tier 2 never looks at the property type: two keys that differ only in
      their property type resolve alike once tier 1 has passed them by. */
  lemma ClassTierIgnoresType(c: ValueGeneratorCache, key: PropertyKey, otherType: TypeRef)
    requires key.propertyPath !in c.propertyDepthCache
    requires ClassKeyOf(key) in c.classAndPropertyNameCache
    ensures c.LookUpGenerator(key) == c.LookUpGenerator(key.(propertyType := otherType))
    ensures c.LookUpGenerator(key) == c.classAndPropertyNameCache[ClassKeyOf(key)]
  {
    assert ClassKeyOf(key.(propertyType := otherType)) == ClassKeyOf(key);
  }

  /** Tier 4 goes by name: a distinct type that happens to share the name
      resolves to the same generator, while tier 3 tells the two apart. */
  lemma TypeTierGoesByName(c: ValueGeneratorCache, key: PropertyKey, twin: TypeRef)
    requires twin.name == key.propertyType.name
    requires key.propertyType.name in c.typeCache
    requires key.propertyPath !in c.propertyDepthCache
    requires ClassKeyOf(key) !in c.classAndPropertyNameCache
    requires NameAndTypeKeyOf(key) !in c.propertyNameAndTypeCache
    requires NameAndTypeKeyOf(key.(propertyType := twin)) !in c.propertyNameAndTypeCache
    ensures c.LookUpGenerator(key.(propertyType := twin)) == c.LookUpGenerator(key)
    ensures c.LookUpGenerator(key) == c.typeCache[key.propertyType.name]
  {
    assert ClassKeyOf(key.(propertyType := twin)) == ClassKeyOf(key);
  }

  /** When no tier stores the sentinel itself, a lookup yields NOT_COVERED
      exactly when no tier holds the key. */
  lemma NotCoveredIffUncovered(c: ValueGeneratorCache, key: PropertyKey)
    requires NotCovered !in c.propertyDepthCache.Values
    requires NotCovered !in c.classAndPropertyNameCache.Values
    requires NotCovered !in c.propertyNameAndTypeCache.Values
    requires NotCovered !in c.typeCache.Values
    ensures c.LookUpGenerator(key) == NotCovered <==> c.Uncovered(key)
  {
    if key.propertyPath in c.propertyDepthCache {
      assert c.propertyDepthCache[key.propertyPath] in c.propertyDepthCache.Values;
    } else if ClassKeyOf(key) in c.classAndPropertyNameCache {
      assert c.classAndPropertyNameCache[ClassKeyOf(key)] in c.classAndPropertyNameCache.Values;
    } else if NameAndTypeKeyOf(key) in c.propertyNameAndTypeCache {
      assert c.propertyNameAndTypeCache[NameAndTypeKeyOf(key)] in c.propertyNameAndTypeCache.Values;
    } else if key.propertyType.name in c.typeCache {
      assert c.typeCache[key.propertyType.name] in c.typeCache.Values;
    }
  }

  /** A class `C` implementing `I`, where `I` extends `J` and `C` extends
      `B`: in ALL mode `C`, `B`, and `I` are registered, but the
      super-interface `J` is not. */
  lemma SuperInterfaceNotWalked()
    ensures var c, b, i, j := TypeRef(10, "C"), TypeRef(11, "B"), TypeRef(12, "I"), TypeRef(13, "J");
            var h := Hierarchy(map[c := b], map[c := [i], i := [j]], map[c := 1, b := 0]);
            h.Valid() && TypesToRegister(h, All, c) == [c, b, i]
  {
    var c, b, i, j := TypeRef(10, "C"), TypeRef(11, "B"), TypeRef(12, "I"), TypeRef(13, "J");
    var h := Hierarchy(map[c := b], map[c := [i], i := [j]], map[c := 1, b := 0]);
    assert h.Valid();
    assert ParentChain(h, c) == [b];
    assert ParentChain(h, i) == [];
    assert [i][..0] == [];
    assert InterfaceWalk(h, [i]) == [i];
  }
}
