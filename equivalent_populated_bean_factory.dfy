/**
 * The factory that builds mutually equal beans: it computes one map of
 * property values on its first `create()`, caches it, and stamps every new
 * default instance with that same map.
 */
module EquivalentFactories {
  import opened Outcomes
  import opened Beans
  import ValidationHelper

  /**
   * The factory lookup strategy, reduced to what this factory depends on:
   * the declared types it can find a value factory for.
   */
  datatype FactoryLookupStrategy = FactoryLookupStrategy(resolvableTypes: set<string>)

  /** Every readable and writable property has a type the strategy can resolve. */
  predicate Resolvable(info: BeanInformation, strategy: FactoryLookupStrategy)
  {
    forall i :: 0 <= i < |info.properties| && info.properties[i].ReadableWritable() ==>
      info.properties[i].typeName in strategy.resolvableTypes
  }

  /**
   * What one run of the property-values factory yields: a value for every
   * readable and writable property (`draw` stands for the random values it
   * generates), or `Null` when some property type has no factory.
   */
  function PropertyValuesFor(info: BeanInformation, strategy: FactoryLookupStrategy, draw: string -> Value)
    : Nullable<PropertyMap>
  {
    if Resolvable(info, strategy) then Ref(map p | p in info.ReadableWritableNames() :: draw(p)) else Null
  }

  /** The constructor's argument checks, in the order the constructor makes them. */
  function ConstructorCheck(info: Nullable<BeanInformation>, strategy: Nullable<FactoryLookupStrategy>)
    : (r: ValidationHelper.Check)
    ensures r.IllegalArgument? <==> info.Null? || strategy.Null?
    ensures info.Null? ==>
      r.message == ValidationHelper.MissingArgumentMessage("beanInformation", "construct Factory")
    ensures info.Ref? && strategy.Null? ==>
      r.message == ValidationHelper.MissingArgumentMessage("factoryLookupStrategy", "construct Factory")
  {
    var first := ValidationHelper.EnsureExistsFor("beanInformation", "construct Factory", info);
    if first.IllegalArgument? then first
    else ValidationHelper.EnsureExistsFor("factoryLookupStrategy", "construct Factory", strategy)
  }

  /** The collaborator that creates property values; it counts how often it is asked. */
  class BeanPropertyValuesFactory {
    const beanInformation: BeanInformation
    const strategy: FactoryLookupStrategy
    var invocations: nat

    constructor (info: BeanInformation, strategy: FactoryLookupStrategy)
      ensures beanInformation == info && this.strategy == strategy && invocations == 0
    {
      beanInformation := info;
      this.strategy := strategy;
      invocations := 0;
    }

    method Create(draw: string -> Value) returns (r: Nullable<PropertyMap>)
      modifies this
      ensures invocations == old(invocations) + 1
      ensures r == PropertyValuesFor(beanInformation, strategy, draw)
    {
      invocations := invocations + 1;
      r := PropertyValuesFor(beanInformation, strategy, draw);
    }
  }

  /** The outcome of `create()`: a new bean, or the exception it throws. */
  datatype Creation = Created(bean: Bean) | CreationFailed(message: string)

  /** The outcome of the constructor: a factory, or its `IllegalArgumentException`. */
  datatype Construction = Constructed(factory: EquivalentPopulatedBeanFactory) | Rejected(message: string)

  class EquivalentPopulatedBeanFactory {
    const beanInformation: BeanInformation
    const beanPropertyValuesFactory: BeanPropertyValuesFactory
    /** The values every instance gets; `Null` until the first successful `create()`. */
    var propertyValues: Nullable<PropertyMap>

    /**
     * The cache is filled exactly when the values factory has been asked
     * once and succeeded; while the strategy can resolve every type, the
     * values factory is never asked a second time.
     */
    ghost predicate Valid()
      reads this, beanPropertyValuesFactory
    {
      && beanPropertyValuesFactory.beanInformation == beanInformation
      && (propertyValues.Ref? ==>
            && beanPropertyValuesFactory.invocations == 1
            && propertyValues.get.Keys == beanInformation.ReadableWritableNames())
      && (propertyValues.Null? ==>
            beanPropertyValuesFactory.invocations == 0
            || !Resolvable(beanInformation, beanPropertyValuesFactory.strategy))
    }

    constructor (info: BeanInformation, strategy: FactoryLookupStrategy)
      ensures Valid() && fresh(beanPropertyValuesFactory)
      ensures beanInformation == info && beanPropertyValuesFactory.strategy == strategy
      ensures propertyValues == Null && beanPropertyValuesFactory.invocations == 0
    {
      beanInformation := info;
      beanPropertyValuesFactory := new BeanPropertyValuesFactory(info, strategy);
      propertyValues := Null;
    }

    /**
     * Fills the cache if it is empty, then allocates a default instance and
     * sets every cached value on it.
     */
    method Create(draw: string -> Value) returns (r: Creation)
      requires Valid()
      modifies this, beanPropertyValuesFactory
      ensures Valid()
      ensures old(propertyValues).Ref? ==>
        propertyValues == old(propertyValues) && unchanged(beanPropertyValuesFactory)
      ensures old(propertyValues).Null? ==>
        && propertyValues == PropertyValuesFor(beanInformation, beanPropertyValuesFactory.strategy, draw)
        && beanPropertyValuesFactory.invocations == old(beanPropertyValuesFactory.invocations) + 1
      ensures r.Created? <==> propertyValues.Ref? && beanInformation.instantiable
      ensures r.Created? ==>
        && fresh(r.bean)
        && r.bean.beanClass == beanInformation.beanClass
        && r.bean.properties == beanInformation.defaults + propertyValues.get
    {
      if propertyValues.Null? {
        propertyValues := beanPropertyValuesFactory.Create(draw);
      }
      if propertyValues.Null? {
        return CreationFailed("No factory for a property of " + beanInformation.beanClass);
      }
      if !beanInformation.instantiable {
        return CreationFailed("Cannot create an instance of " + beanInformation.beanClass);
      }
      var result := new Bean(beanInformation);
      result.Populate(propertyValues.get);
      r := Created(result);
    }
  }

  /** `new EquivalentPopulatedBeanFactory(beanInformation, factoryLookupStrategy)`. */
  method NewEquivalentPopulatedBeanFactory(
    info: Nullable<BeanInformation>, strategy: Nullable<FactoryLookupStrategy>)
    returns (r: Construction)
    ensures r.Rejected? <==> ConstructorCheck(info, strategy).IllegalArgument?
    ensures r.Rejected? ==> r.message == ConstructorCheck(info, strategy).message
    ensures r.Constructed? ==>
      && fresh(r.factory) && fresh(r.factory.beanPropertyValuesFactory) && r.factory.Valid()
      && r.factory.beanInformation == info.get
      && r.factory.beanPropertyValuesFactory.strategy == strategy.get
      && r.factory.propertyValues == Null
  {
    var check := ConstructorCheck(info, strategy);
    if check.IllegalArgument? {
      return Rejected(check.message);
    }
    var factory := new EquivalentPopulatedBeanFactory(info.get, strategy.get);
    r := Constructed(factory);
  }

  /**
   * Two successive `create()` calls give two distinct objects with identical
   * property values, whatever values the second call would have drawn.
   */
  method CreateEquivalentPair(factory: EquivalentPopulatedBeanFactory, draw1: string -> Value, draw2: string -> Value)
    returns (a: Creation, b: Creation)
    requires factory.Valid()
    modifies factory, factory.beanPropertyValuesFactory
    ensures factory.Valid()
    ensures a.Created? && b.Created? ==> a.bean != b.bean && a.bean.properties == b.bean.properties
    ensures a.Created? ==> b.Created?
  {
    a := factory.Create(draw1);
    ghost var cache := factory.propertyValues;
    b := factory.Create(draw2);
    assert a.Created? ==> factory.propertyValues == cache;
  }
}
