/**
 * The factory registry, keyed by exact type, and the collection plugin that
 * registers a factory for each of sixteen collection types.
 */
module FactoryRegistry {
  import opened Outcomes
  import RandomValues

  /** A value factory, identified by the type it makes values of. */
  datatype Factory = Factory(produces: string)

  /** The outcome of `getFactory`: the factory, or the `NoSuchFactoryException` it throws. */
  datatype Lookup = Found(factory: Factory) | NoSuchFactory(typeName: string)

  /** `SimpleFactoryCollection`: a map from type to factory. */
  class SimpleFactoryCollection {
    var factories: map<string, Factory>

    constructor ()
      ensures factories == map[]
    {
      factories := map[];
    }

    /** `addFactory(type, factory)`: registers or replaces the factory for exactly that type. */
    method AddFactory(typeName: string, factory: Factory)
      modifies this
      ensures factories == old(factories)[typeName := factory]
    {
      factories := factories[typeName := factory];
    }

    /** `hasFactory(type)`: a query; it registers nothing. */
    method HasFactory(typeName: string) returns (b: bool)
      ensures b <==> typeName in factories
    {
      b := typeName in factories;
    }

    /** `getFactory(type)`. */
    method GetFactory(typeName: string) returns (r: Lookup)
      ensures r.Found? <==> typeName in factories
      ensures r.Found? ==> r.factory == factories[typeName]
      ensures r.NoSuchFactory? ==> r.typeName == typeName
    {
      if typeName in factories {
        r := Found(factories[typeName]);
      } else {
        r := NoSuchFactory(typeName);
      }
    }
  }

  /** The types the collection plugin registers, interfaces and implementations alike, in order. */
  const CollectionTypes: seq<string> := [
    "java.util.List", "java.util.ArrayList", "java.util.LinkedList", "java.util.Map",
    "java.util.HashMap", "java.util.IdentityHashMap", "java.util.LinkedHashMap", "java.util.TreeMap",
    "java.util.WeakHashMap", "java.util.Set", "java.util.HashSet", "java.util.LinkedHashSet",
    "java.util.TreeSet", "java.util.Collection", "java.util.Queue", "java.util.Deque"]

  /** The registrations the plugin adds. */
  function CollectionFactories(): (r: map<string, Factory>)
    ensures r.Keys == set t | t in CollectionTypes
  {
    map t | t in CollectionTypes :: Factory(t)
  }

  /** The sixteen types are distinct, so each is a registration of its own. */
  lemma SixteenDistinctTypes()
    ensures |CollectionTypes| == 16
    ensures forall i, j :: 0 <= i < j < |CollectionTypes| ==> CollectionTypes[i] != CollectionTypes[j]
  {
  }

  /** Adding one factory per type, in order, to a registry. */
  function Register(m: map<string, Factory>, types: seq<string>): map<string, Factory>
    decreases |types|
  {
    if types == [] then m else Register(m[types[0] := Factory(types[0])], types[1..])
  }

  /** Registering in order adds exactly one factory for each type, each making its own type. */
  lemma {:induction false} RegisterAddsEachType(m: map<string, Factory>, types: seq<string>)
    ensures Register(m, types) == m + map t | t in types :: Factory(t)
    decreases |types|
  {
    if types != [] {
      RegisterAddsEachType(m[types[0] := Factory(types[0])], types[1..]);
      var rest := map t | t in types[1..] :: Factory(t);
      var all := map t | t in types :: Factory(t);
      assert m[types[0] := Factory(types[0])] + rest == m + all by {
        forall t ensures t in m[types[0] := Factory(types[0])] + rest <==> t in m + all {
          assert t in types <==> t == types[0] || t in types[1..];
        }
      }
    }
  }

  class CollectionFactoryPlugin {

    constructor ()
    {
    }

    /** `initialize(collection, generator)`: one registration per collection type, nothing else changes. */
    method Initialize(collection: SimpleFactoryCollection, generator: RandomValues.RandomValueGenerator)
      modifies collection
      ensures collection.factories == old(collection.factories) + CollectionFactories()
    {
      RegisterAll(collection, CollectionTypes);
      RegisterAddsEachType(old(collection.factories), CollectionTypes);
    }
  }

  /** Adds a factory for each type, in order. */
  method RegisterAll(collection: SimpleFactoryCollection, types: seq<string>)
    modifies collection
    ensures collection.factories == Register(old(collection.factories), types)
  {
    ghost var goal := Register(collection.factories, types);
    var i := 0;
    while i < |types|
      invariant 0 <= i <= |types|
      invariant Register(collection.factories, types[i..]) == goal
    {
      assert types[i..][1..] == types[i + 1..];
      collection.AddFactory(types[i], Factory(types[i]));
      i := i + 1;
    }
  }

  /** Every type is present after initialization, and every earlier registration stays. */
  lemma InitializationRegistersEveryType(before: map<string, Factory>)
    ensures forall t :: t in before + CollectionFactories() <==> t in before || t in CollectionTypes
    ensures forall t :: t in before && t !in CollectionTypes ==> (before + CollectionFactories())[t] == before[t]
  {
  }

  /**
   * A registry holding String and Long factories has none of the sixteen
   * collection types; after the plugin's initialization it has all of them.
   */
  method RegisterCollectionFactories(generator: RandomValues.RandomValueGenerator)
    returns (anyBefore: bool, allAfter: bool)
    ensures !anyBefore && allAfter
  {
    var collection := new SimpleFactoryCollection();
    collection.AddFactory("java.lang.String", Factory("java.lang.String"));
    collection.AddFactory("java.lang.Long", Factory("java.lang.Long"));
    anyBefore := false;
    var i := 0;
    while i < |CollectionTypes|
      invariant 0 <= i <= |CollectionTypes|
      invariant collection.factories.Keys == {"java.lang.String", "java.lang.Long"}
      invariant !anyBefore
    {
      var has := collection.HasFactory(CollectionTypes[i]);
      anyBefore := anyBefore || has;
      i := i + 1;
    }
    var plugin := new CollectionFactoryPlugin();
    plugin.Initialize(collection, generator);
    allAfter := true;
    i := 0;
    while i < |CollectionTypes|
      invariant 0 <= i <= |CollectionTypes|
      invariant forall t :: t in CollectionTypes ==> t in collection.factories
      invariant allAfter
    {
      var has := collection.HasFactory(CollectionTypes[i]);
      allAfter := allAfter && has;
      i := i + 1;
    }
  }
}
