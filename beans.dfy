/**
 * Beans and what introspection says about them. Introspection itself
 * (enumerating a class's properties) is outside the model: a
 * `BeanInformation` value is what it would report.
 */
module Beans {
  import opened Outcomes

  /** Property name to current value. */
  type PropertyMap = map<string, Value>

  /**
   * One property of a bean class: its name, declared type, whether it has a
   * getter and a setter, and whether calling them throws.
   */
  datatype PropertyInformation = PropertyInformation(
    name: string,
    typeName: string,
    readable: bool,
    writable: bool,
    getterThrows: bool,
    setterThrows: bool)
  {
    predicate ReadableWritable() { readable && writable }
  }

  /**
   * A bean class as introspection reports it: its name, its properties, the
   * state of a newly constructed default instance, and whether a default
   * instance can be constructed at all.
   */
  datatype BeanInformation = BeanInformation(
    beanClass: string,
    properties: seq<PropertyInformation>,
    defaults: PropertyMap,
    instantiable: bool)
  {
    /** The names of all discoverable properties. */
    function PropertyNames(): set<string>
    {
      set i | 0 <= i < |properties| :: properties[i].name
    }

    /** The names of the properties that have both a getter and a setter. */
    function ReadableWritableNames(): set<string>
    {
      set i | 0 <= i < |properties| && properties[i].ReadableWritable() :: properties[i].name
    }
  }

  /** A bean instance whose properties are updated in place through its setters. */
  class Bean {
    const beanClass: string
    var properties: PropertyMap

    /** The default (no-argument) constructor: the class's default state. */
    constructor (info: BeanInformation)
      requires info.instantiable
      ensures beanClass == info.beanClass && properties == info.defaults
    {
      beanClass := info.beanClass;
      properties := info.defaults;
    }

    /** Calls one property's setter. */
    method Set(name: string, value: Value)
      modifies this
      ensures properties == old(properties)[name := value]
    {
      properties := properties[name := value];
    }

    /** Calls the setter of every property in `values`; the other properties keep their values. */
    method Populate(values: PropertyMap)
      modifies this
      ensures properties.Keys == old(properties).Keys + values.Keys
      ensures forall p :: p in values ==> properties[p] == values[p]
      ensures forall p :: p in old(properties) && p !in values ==> properties[p] == old(properties)[p]
    {
      properties := properties + values;
    }
  }
}
