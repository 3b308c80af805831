/**
 * The test fixture for a bean with two string properties, `firstName` and
 * `lastName`: a factory without fields whose every `create()` allocates a
 * new bean and sets both properties to fixed strings.
 */
module MultiPropertyBeans {
  import opened Outcomes
  import opened Beans

  const MultiPropertyBeanClass: string := "org.meanbean.test.beans.MultiPropertyBean"
  const FirstName: string := "FIRST_NAME"
  const LastName: string := "LAST_NAME"

  /** What introspection reports for `MultiPropertyBean`: two string properties with getters and setters. */
  function MultiPropertyBeanInformation(): BeanInformation
  {
    BeanInformation(
      MultiPropertyBeanClass,
      [ PropertyInformation("firstName", "java.lang.String", true, true, false, false),
        PropertyInformation("lastName", "java.lang.String", true, true, false, false) ],
      map["firstName" := NullValue, "lastName" := NullValue],
      true)
  }

  /** The property values every output of the factory carries. */
  function MultiPropertyValues(): PropertyMap
  {
    map["firstName" := Text(FirstName), "lastName" := Text(LastName)]
  }

  class MultiPropertyBeanFactory {

    constructor ()
    {
    }

    /** Allocates a new bean and sets both properties through their setters. */
    method Create() returns (bean: Bean)
      ensures fresh(bean)
      ensures bean.beanClass == MultiPropertyBeanClass
      ensures bean.properties == MultiPropertyValues()
    {
      bean := new Bean(MultiPropertyBeanInformation());
      bean.Set("firstName", Text(FirstName));
      bean.Set("lastName", Text(LastName));
    }
  }

  /** Two outputs are distinct objects that carry identical property values. */
  method CreateTwo(factory: MultiPropertyBeanFactory) returns (a: Bean, b: Bean)
    ensures a != b
    ensures a.properties == b.properties
    ensures a.properties == map["firstName" := Text(FirstName), "lastName" := Text(LastName)]
  {
    a := factory.Create();
    b := factory.Create();
  }
}
