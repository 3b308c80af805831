/**
 * The significance verifier on the two-property bean `MultiPropertyBean`,
 * whose fixture factory sets `firstName` and `lastName` to fixed strings.
 */
module SignificanceScenarios {
  import opened Outcomes
  import opened Beans
  import opened Fixtures
  import EqualsLaws
  import opened PropertySignificance
  import opened MultiPropertyBeans
  import InsignificantProperties

  /** What `MultiPropertyBeanFactory.create()` yields on every call. */
  function MultiPropertyProducer(): Producer
  {
    k => Produced(Template(MultiPropertyBeanClass, MultiPropertyValues()))
  }

  /** Introspection reports the two string properties, and the registry can make strings. */
  ghost predicate MultiPropertySetting(setting: Setting)
  {
    && setting.introspect(MultiPropertyBeanClass) == MultiPropertyBeanInformation()
    && "java.lang.String" in setting.registered
    && setting.configuration.overridden == {}
  }

  lemma WellFormedMultiProperty(setting: Setting, i: nat)
    requires MultiPropertySetting(setting) && i < 2
    ensures WellFormedProperty(setting, MultiPropertyProducer()(0).template, MultiPropertyBeanInformation().properties[i])
  {
  }

  /** With no insignificant names, a value-comparing `equals` passes. */
  lemma MultiPropertyBeanPasses(w: World, setting: Setting, pr: Progress)
    requires EqualsLaws.ComparesValues(w) && w.factory == Ref(MultiPropertyProducer())
    requires MultiPropertySetting(setting)
    ensures CheckSignificance(w, setting, Ref([]), pr).verdict == Pass
  {
    WellFormedMultiProperty(setting, 0);
    WellFormedMultiProperty(setting, 1);
    CorrectBeanPasses(w, setting, [], pr);
  }

  /** A property the configuration ignores may be named insignificant. */
  lemma IgnoredInsignificantPropertyPasses(w: World, setting: Setting, pr: Progress)
    requires EqualsLaws.ComparesValues(w) && w.factory == Ref(MultiPropertyProducer())
    requires MultiPropertySetting(setting) && "lastName" in setting.configuration.ignored
    ensures CheckSignificance(w, setting, Ref(["lastName"]), pr).verdict == Pass
  {
    WellFormedMultiProperty(setting, 0);
    WellFormedMultiProperty(setting, 1);
    var info := MultiPropertyBeanInformation();
    assert info.properties[1].name == "lastName";
    CorrectBeanPasses(w, setting, ["lastName"], pr);
  }

  /** The property loop for `MultiPropertyBean` with `lastName` named insignificant. */
  lemma LastNameInsignificantLoop(w: World, setting: Setting, pr: Progress)
    requires EqualsLaws.ComparesValues(w) && w.factory == Ref(MultiPropertyProducer())
    requires MultiPropertySetting(setting) && setting.configuration.ignored == {}
    requires forall k :: setting.values(Registered("java.lang.String"), k) != Text(LastName)
    ensures CheckProperties(w, setting, MultiPropertyBeanInformation().properties, ["lastName"], pr).verdict ==
      LawViolation(SignificanceViolation("lastName", true))
  {
    var props := MultiPropertyBeanInformation().properties;
    WellFormedMultiProperty(setting, 0);
    WellFormedMultiProperty(setting, 1);
    SignificantPropertyPasses(w, setting, props[0], pr);
    var r0 := CheckProperty(w, setting, props[0], true, pr);
    InsignificantUsedPropertyFails(w, setting, props[1], r0.progress);
    assert props[1..] == [props[1]];
  }

  /**
   * Naming `lastName` insignificant when `equals` compares it fails on
   * `lastName`, as soon as the drawn string differs from `"LAST_NAME"`.
   */
  lemma SignificantPropertyNamedInsignificantFails(w: World, setting: Setting, pr: Progress)
    requires EqualsLaws.ComparesValues(w) && w.factory == Ref(MultiPropertyProducer())
    requires MultiPropertySetting(setting) && setting.configuration.ignored == {}
    requires forall k :: setting.values(Registered("java.lang.String"), k) != Text(LastName)
    ensures CheckSignificance(w, setting, Ref(["lastName"]), pr).verdict ==
      LawViolation(SignificanceViolation("lastName", true))
  {
    var info := MultiPropertyBeanInformation();
    assert info.properties[1].name == "lastName";
    LastNameInsignificantLoop(w, setting, pr.(base := pr.base.(created := pr.base.created + 1)));
  }

  /** An `equals` that ignores `lastName` fails on `lastName` when no name is given. */
  lemma IgnoredPropertyInEqualsFails(w: World, setting: Setting, pr: Progress)
    requires w.factory == Ref(MultiPropertyProducer())
    requires forall x, y, n ::
      w.equals(x, ObjArgument(y), n) == (x.beanClass == y.beanClass && Read(x, "firstName") == Read(y, "firstName"))
    requires MultiPropertySetting(setting) && setting.configuration.ignored == {}
    requires forall k :: setting.values(Registered("java.lang.String"), k) != Text(LastName)
    ensures CheckSignificance(w, setting, Ref([]), pr).verdict == LawViolation(SignificanceViolation("lastName", false))
  {
    var info := MultiPropertyBeanInformation();
    var props := info.properties;
    var pr1 := pr.(base := pr.base.(created := pr.base.created + 1));
    var first := CheckProperty(w, setting, props[0], true, pr1);
    assert first.verdict == Pass;
    assert props[1..] == [props[1]] && props[1..][1..] == [];
  }

  /** Of the names given, the two unknown ones remain, in their order. */
  lemma UnknownAmongKnown()
    ensures InsignificantProperties.UnknownNames(
      ["firstName", "UNRECOGNISED_PROPERTY_1", "lastName", "UNRECOGNISED_PROPERTY_2"],
      MultiPropertyBeanInformation().PropertyNames()) == ["UNRECOGNISED_PROPERTY_1", "UNRECOGNISED_PROPERTY_2"]
  {
    var names := ["firstName", "UNRECOGNISED_PROPERTY_1", "lastName", "UNRECOGNISED_PROPERTY_2"];
    var info := MultiPropertyBeanInformation();
    assert info.properties[0].name == "firstName" && info.properties[1].name == "lastName";
    assert forall n :: n in info.PropertyNames() <==> n == "firstName" || n == "lastName";
    assert names[1..][1..][1..][1..] == [];
  }

  /** The message for the two unknown names, written out. */
  lemma TwoUnknownNamesMessage()
    ensures InsignificantProperties.UnknownPropertiesMessage(
      ["UNRECOGNISED_PROPERTY_1", "UNRECOGNISED_PROPERTY_2"], MultiPropertyBeanClass) ==
      "Insignificant properties [" + "UNRECOGNISED_PROPERTY_1" + "," + "UNRECOGNISED_PROPERTY_2"
      + "] do not exist on " + "org.meanbean.test.beans.MultiPropertyBean" + "."
  {
    var unknown := ["UNRECOGNISED_PROPERTY_1", "UNRECOGNISED_PROPERTY_2"];
    assert unknown[1..] == ["UNRECOGNISED_PROPERTY_2"];
    assert InsignificantProperties.Join(unknown) == "UNRECOGNISED_PROPERTY_1" + "," + "UNRECOGNISED_PROPERTY_2";
  }

  /** The verifier rejects the two unknown names given among the two known ones with that message. */
  lemma UnknownNamesListedInOrder(w: World, setting: Setting, pr: Progress)
    requires w.factory == Ref(MultiPropertyProducer()) && MultiPropertySetting(setting)
    ensures CheckSignificance(w, setting,
      Ref(["firstName", "UNRECOGNISED_PROPERTY_1", "lastName", "UNRECOGNISED_PROPERTY_2"]), pr).verdict ==
      InputError("Insignificant properties [" + "UNRECOGNISED_PROPERTY_1" + "," + "UNRECOGNISED_PROPERTY_2"
                 + "] do not exist on " + "org.meanbean.test.beans.MultiPropertyBean" + ".")
  {
    UnknownAmongKnown();
    TwoUnknownNamesMessage();
  }
}
