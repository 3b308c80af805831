# meanbean contract-verification core in Dafny

meanbean tests JavaBeans. It builds instances that are equal to one another
and then checks that a bean's `equals` and `hashCode` obey their contracts.
This project models the core of that engine and proves its properties:

- **`EquivalentPopulatedBeanFactory`** (class `EquivalentFactories.EquivalentPopulatedBeanFactory`).
  - The constructor checks both arguments for null.
  - `propertyValues` is a lazy cache, filled on the first `create()` and never reassigned.
  - Every `create()` allocates a fresh `Bean` and populates it from that cache.
- **`ValidationHelper`**: both `ensureExists` overloads. Each fails exactly on null and builds an exact message. The model also has parsers that read the name back out of a message.
- **The equals-law verifier** (`EqualsMethodContractVerifier`).
  - It has six laws: reflexive, symmetric, transitive, consistent, null and different type, plus the combined `verifyEqualsMethod`.
  - Each law is a pure function over a *world* and a *state*:
    - the world holds the factory's outputs and the bean's `equals`/`hashCode`, indexed by call number;
    - the state counts objects created and calls made.
  - A class method over a counting fixture factory is proved equal to that function.
- **The hash-code tester** (`HashCodeMethodTester`): equal objects have equal hash codes, `hashCode` is consistent, the combined check, and the entry point that takes a class.
- **The property-significance verifier** (`PropertyBasedEqualsMethodPropertySignificanceVerifier`).
  - It checks its inputs and the names given as insignificant, which must all exist (`ensureInsignificantPropertiesExist`, with its exact comma-joined message).
  - It then mutates one property at a time through the value-factory registry, honouring override factories and ignored properties.
  - Its pass/fail decision table is stated as a lemma.
- **`RandomValueSampler`**: `findFrom` and `getFrom` on lists and sets, over a `RandomValueGenerator` modelled as a stream.
- **`SimpleFactoryCollection` and `CollectionFactoryPlugin`**: a registry keyed by exact type name, and the sixteen collection types the plugin registers.
- **`MultiPropertyBeanFactory`**: the two-property fixture, and the significance scenarios run on it.

The verifier classes are specified by the behaviour their tests demand, with these representations:

- Beans in the verifier layer are values `Obj(serial, beanClass, properties)`. The serial is the object's creation index, which stands for its identity.
- Verdicts are `Pass`, `InputError(message)` for `IllegalArgumentException`, `LawViolation(violation)` for `AssertionError`, and `ExecutionError(detail)` for `BeanTestException` or `ObjectCreationException`.

## Model

| member | source | states |
|---|---|---|
| ValidationHelper.EnsureExists | src/main/java/org/meanbean/util/ValidationHelper.java:27-31 | fails iff the value is null; the message is exactly `Object [name] must be provided.` |
| ValidationHelper.EnsureExistsFor | src/main/java/org/meanbean/util/ValidationHelper.java:53-57 | fails iff the value is null; the message is exactly `Cannot <operation> with null <name>.` |
| ValidationHelper.NameInObjectMessage | src/main/java/org/meanbean/util/ValidationHelper.java:29 | any name read back from a two-argument message rebuilds that message |
| ValidationHelper.NameInArgumentMessage | src/main/java/org/meanbean/util/ValidationHelper.java:55 | any name read back from a three-argument message rebuilds that message |
| ValidationHelper.ObjectMessageRoundTrip | src/main/java/org/meanbean/util/ValidationHelper.java:29 | the two-argument message names its parameter: parsing it gives the name back |
| ValidationHelper.ArgumentMessageRoundTrip | src/main/java/org/meanbean/util/ValidationHelper.java:55 | the three-argument message names its parameter: parsing it gives the name back |
| ValidationHelper.MessagesDistinguishNames | src/main/java/org/meanbean/util/ValidationHelper.java:27-57 | different parameter names give different messages, in both formats |
| Beans.Bean.constructor | src/main/java/org/meanbean/factories/equivalent/EquivalentPopulatedBeanFactory.java:78-79 | a new instance of the bean class carries the class's default property values |
| Beans.Bean.Set | src/test/java/org/meanbean/test/beans/MultiPropertyBeanFactory.java:14-15 | a setter changes exactly its own property |
| Beans.Bean.Populate | src/main/java/org/meanbean/factories/equivalent/EquivalentPopulatedBeanFactory.java:81 | populating writes every given value and leaves every other property as it was |
| EquivalentFactories.ConstructorCheck | src/main/java/org/meanbean/factories/equivalent/EquivalentPopulatedBeanFactory.java:57-63 | rejected iff either argument is null; a null `beanInformation` is reported first, each with its exact `Cannot construct Factory with null …` message |
| EquivalentFactories.BeanPropertyValuesFactory.Create | src/main/java/org/meanbean/factories/equivalent/EquivalentPopulatedBeanFactory.java:76 | each call counts one invocation and yields the values for the bean's properties |
| EquivalentFactories.EquivalentPopulatedBeanFactory.constructor | src/main/java/org/meanbean/factories/equivalent/EquivalentPopulatedBeanFactory.java:57-63 | the bean information is fixed, the cache starts null and the values factory has not been invoked |
| EquivalentFactories.EquivalentPopulatedBeanFactory.Create | src/main/java/org/meanbean/factories/equivalent/EquivalentPopulatedBeanFactory.java:72-84 | the first call fills the cache with one invocation; a set cache never changes again; the result is a fresh bean holding the defaults overwritten by the cached values |
| EquivalentFactories.NewEquivalentPopulatedBeanFactory | src/main/java/org/meanbean/factories/equivalent/EquivalentPopulatedBeanFactory.java:57-63 | construction fails exactly as the null checks say, with their message; otherwise it yields a factory with an empty cache |
| EquivalentFactories.CreateEquivalentPair | src/main/java/org/meanbean/factories/equivalent/EquivalentPopulatedBeanFactory.java:72-84 | two outputs are distinct objects with identical property values |
| MultiPropertyBeans.MultiPropertyBeanFactory.Create | src/test/java/org/meanbean/test/beans/MultiPropertyBeanFactory.java:12-17 | a fresh bean with `firstName = "FIRST_NAME"` and `lastName = "LAST_NAME"` |
| MultiPropertyBeans.CreateTwo | src/test/java/org/meanbean/test/beans/MultiPropertyBeanFactory.java:10-17 | successive outputs are distinct objects with identical values |
| Fixtures.Output | src/test/java/org/meanbean/test/EqualsMethodContractVerifierTest.java:59-66 | the k-th object a fixture factory makes has identity k |
| Fixtures.EquivalentFactory.Create | src/test/java/org/meanbean/test/EqualsMethodContractVerifierTest.java:59-66 | `create()` returns the output for the current counter and increments the counter |
| Fixtures.ObjectMethods.Equals | src/test/java/org/meanbean/test/EqualsMethodContractVerifierTest.java:114-117 | an `equals` call may depend on how many calls came before; exactly one call is counted |
| Fixtures.ObjectMethods.HashCode | src/test/java/org/meanbean/test/HashCodeMethodTesterTest.java:86-93 | a `hashCode` call may depend on how many calls came before; exactly one call is counted |
| EqualsLaws.CreationError | src/test/java/org/meanbean/test/EqualsMethodContractVerifierTest.java:25-28 | a null output is an input error and a throwing `create()` an execution error; never a pass |
| EqualsLaws.InputCheckedFirst | src/test/java/org/meanbean/test/EqualsMethodContractVerifierTest.java:20-28 | for every law, a null factory is an input error and a null output an input error, before any law is evaluated |
| EqualsLaws.CombinedInputCheckedFirst | src/test/java/org/meanbean/test/EqualsMethodContractVerifierTest.java:171-179 | the combined check rejects a null factory with its input error and a null first output as an input error before any law; a throwing `create()` is an execution error |
| EqualsLaws.UnequalObjectsAreInputErrors | src/test/java/org/meanbean/test/EqualsMethodContractVerifierTest.java:52-55 | symmetric and transitive reject unequal outputs as an input error, not a violation |
| EqualsLaws.ReflexiveDecides | src/test/java/org/meanbean/test/EqualsMethodContractVerifierTest.java:30-38 | reflexive fails iff `x.equals(x)` is false and passes iff it is true |
| EqualsLaws.SymmetricDecides | src/test/java/org/meanbean/test/EqualsMethodContractVerifierTest.java:57-73 | given `x.equals(y)`, symmetric fails iff `y.equals(x)` is false and passes iff it is true |
| EqualsLaws.TransitiveDecides | src/test/java/org/meanbean/test/EqualsMethodContractVerifierTest.java:92-100 | transitive fails iff `x = y` and `y = z` but `x ≠ z` |
| EqualsLaws.NullAndDifferentTypeDecide | src/test/java/org/meanbean/test/EqualsMethodContractVerifierTest.java:136-167 | the null law fails iff `x.equals(null)`; the different-type law fails iff `x` equals a foreign object; each passes otherwise |
| EqualsLaws.RepeatEqualsPassIff | src/test/java/org/meanbean/test/EqualsMethodContractVerifierTest.java:114-122 | the consistency repetitions pass iff every repeated `x.equals(y)` answers as the first did; otherwise the law is violated |
| EqualsLaws.CheckLawsPassIff | src/test/java/org/meanbean/test/EqualsMethodContractVerifierTest.java:171-204 | the combined check passes iff every law passes, each from the state the previous ones leave; otherwise its verdict is that of the first law that did not pass |
| EqualsLaws.ComparingBeanPassesBeanLaws | src/test/java/org/meanbean/test/EqualsMethodContractVerifierTest.java:35-122 | a value-comparing `equals` with a well-formed factory passes reflexive, symmetric, transitive and consistent |
| EqualsLaws.CorrectBeanPassesEveryLaw | src/test/java/org/meanbean/test/EqualsMethodContractVerifierTest.java:141-167 | a value-comparing `equals` that rejects null and foreign objects passes every law |
| EqualsLaws.CorrectBeanPassesEqualsMethod | src/test/java/org/meanbean/test/EqualsMethodContractVerifierTest.java:181-184 | such a bean passes the combined check |
| EqualsLaws.NullAcceptingBeanFailsNullLaw | src/test/java/org/meanbean/test/EqualsMethodContractVerifierTest.java:196-199 | an `equals` that accepts null fails the combined check on the null law |
| EqualsLaws.DifferentTypeAcceptingBeanFailsDifferentTypeLaw | src/test/java/org/meanbean/test/EqualsMethodContractVerifierTest.java:201-204 | an `equals` that accepts foreign objects fails the combined check on the different-type law |
| EqualsVerifier.EqualsMethodContractVerifier.VerifyEqualsReflexive | src/test/java/org/meanbean/test/EqualsMethodContractVerifierTest.java:20-38 | the verdict and the new counters are those of the reflexive law on the fixture's world |
| EqualsVerifier.EqualsMethodContractVerifier.VerifyEqualsSymmetric | src/test/java/org/meanbean/test/EqualsMethodContractVerifierTest.java:42-73 | the verdict and the new counters are those of the symmetric law |
| EqualsVerifier.EqualsMethodContractVerifier.VerifyEqualsTransitive | src/test/java/org/meanbean/test/EqualsMethodContractVerifierTest.java:77-100 | the verdict and the new counters are those of the transitive law |
| EqualsVerifier.EqualsMethodContractVerifier.VerifyEqualsConsistent | src/test/java/org/meanbean/test/EqualsMethodContractVerifierTest.java:104-122 | the loop of repeated `equals` calls yields the verdict and the counters of the consistency law |
| EqualsVerifier.EqualsMethodContractVerifier.VerifyEqualsNull | src/test/java/org/meanbean/test/EqualsMethodContractVerifierTest.java:126-144 | the verdict and the new counters are those of the null law |
| EqualsVerifier.EqualsMethodContractVerifier.VerifyEqualsDifferentType | src/test/java/org/meanbean/test/EqualsMethodContractVerifierTest.java:148-167 | the verdict and the new counters are those of the different-type law |
| EqualsVerifier.EqualsMethodContractVerifier.VerifyEqualsMethod | src/test/java/org/meanbean/test/EqualsMethodContractVerifierTest.java:171-204 | the loop over the six laws yields the combined check's verdict and counters |
| HashCodeTester.InputCheckedFirst | src/test/java/org/meanbean/test/HashCodeMethodTesterTest.java:43-46 | every entry point rejects a null factory or a null output with an input error |
| HashCodeTester.CompareHashCodesDecides | src/test/java/org/meanbean/test/HashCodeMethodTesterTest.java:48-62 | unequal objects are an input error; for equal objects the law fails iff their hash codes differ |
| HashCodeTester.RepeatHashCodePassIff | src/test/java/org/meanbean/test/HashCodeMethodTesterTest.java:86-103 | the consistency repetitions pass iff every repeated `hashCode()` answers as the first did; otherwise the law is violated |
| HashCodeTester.CorrectBeanPassesHashCodeMethod | src/test/java/org/meanbean/test/HashCodeMethodTesterTest.java:117-120 | a value-comparing `equals` with a value-based `hashCode` passes both laws and the combined check |
| HashCodeTester.ChangingHashCodeFailsConsistency | src/test/java/org/meanbean/test/HashCodeMethodTesterTest.java:122-129 | a hash code that changes on every call violates consistency |
| HashCodeTester.ClassProducerIsEquivalent | src/test/java/org/meanbean/test/HashCodeMethodTesterTest.java:142-145 | the factory built for an instantiable class whose property types resolve makes objects of one class with identical values |
| HashCodeTester.FactoryMatchesClassProducer | src/main/java/org/meanbean/factories/equivalent/EquivalentPopulatedBeanFactory.java:72-84 | the first and a later `create()` of an equivalent populated bean factory for a class give what the class entry point's producer describes, whatever the later draw would be; every later call behaves as the second, since `EquivalentFactories.EquivalentPopulatedBeanFactory.Create` keeps a set cache unchanged |
| HashCodeTester.ClassEntryPointErrors | src/test/java/org/meanbean/test/HashCodeMethodTesterTest.java:28-36 | a null class is an input error; a class that cannot be instantiated is an execution error, not an input error |
| HashCodeTester.HashCodeMethodTester.TestHashCodesEqual | src/test/java/org/meanbean/test/HashCodeMethodTesterTest.java:43-67 | the verdict and the new counters are those of the equal-hash-codes law |
| HashCodeTester.HashCodeMethodTester.TestHashCodeConsistent | src/test/java/org/meanbean/test/HashCodeMethodTesterTest.java:76-98 | the loop of repeated `hashCode` calls yields the verdict and counters of the consistency law |
| HashCodeTester.HashCodeMethodTester.TestHashCodeMethod | src/test/java/org/meanbean/test/HashCodeMethodTesterTest.java:107-140 | equal hash codes are checked first, then consistency; the verdict and counters are those of the combined check |
| HashCodeTester.HashCodeMethodTester.TestHashCodeMethodForClass | src/test/java/org/meanbean/test/HashCodeMethodTesterTest.java:28-40 | a null class is rejected; otherwise the class's equivalent factory is tested by the combined check; the verdict and the new `equals`/`hashCode` counters are those of that check |
| InsignificantProperties.UnknownNames | src/test/java/org/meanbean/test/PropertyBasedEqualsMethodPropertySignificanceVerifierTest.java:228-243 | a name is listed iff it was given and is not a property of the bean |
| InsignificantProperties.EnsureInsignificantPropertiesExist | src/test/java/org/meanbean/test/PropertyBasedEqualsMethodPropertySignificanceVerifierTest.java:228-262 | passes iff every name is a property; otherwise the message is `Insignificant properties [<unknown names joined by ",">] do not exist on <class>.` |
| InsignificantProperties.NamesInUnknownPropertiesMessage | src/test/java/org/meanbean/test/PropertyBasedEqualsMethodPropertySignificanceVerifierTest.java:255-257 | any list read back from a message rebuilds that message |
| InsignificantProperties.UnknownNamesKeepOrder | src/test/java/org/meanbean/test/PropertyBasedEqualsMethodPropertySignificanceVerifierTest.java:245-262 | the unknown names keep the order they were given in, and recognised names between them drop out |
| InsignificantProperties.JoinSplit | src/test/java/org/meanbean/test/PropertyBasedEqualsMethodPropertySignificanceVerifierTest.java:255-257 | splitting a list body at commas and joining it again gives the body back |
| InsignificantProperties.SplitJoin | src/test/java/org/meanbean/test/PropertyBasedEqualsMethodPropertySignificanceVerifierTest.java:255-257 | joining comma-free names and splitting again gives the names back |
| InsignificantProperties.UnknownPropertiesMessageRoundTrip | src/test/java/org/meanbean/test/PropertyBasedEqualsMethodPropertySignificanceVerifierTest.java:255-257 | the names in an unknown-properties message can be read back from it |
| InsignificantProperties.RejectionListsExactlyTheUnknownNames | src/test/java/org/meanbean/test/PropertyBasedEqualsMethodPropertySignificanceVerifierTest.java:209-226 | the message of a rejection lists every unknown name and no recognised one |
| PropertySignificance.FactoryFor | src/test/java/org/meanbean/test/PropertyBasedEqualsMethodPropertySignificanceVerifierTest.java:182-190 | an override factory for the property wins; otherwise the registered factory for its type; otherwise none |
| PropertySignificance.DecisionTable | src/test/java/org/meanbean/test/PropertyBasedEqualsMethodPropertySignificanceVerifierTest.java:285-355 | once the two new objects are equal and agree on a non-null value, the check of one property passes iff `equals` on the copy mutated with the drawn value answers equal exactly when that value is the old one or the property is insignificant; every other verdict is the violation recording the expected answer |
| PropertySignificance.IgnoredInsignificantPropertyPasses | src/test/java/org/meanbean/test/PropertyBasedEqualsMethodPropertySignificanceVerifierTest.java:321-326 | an `equals` that holds between any two beans passes on a property declared insignificant, whatever value is drawn |
| PropertySignificance.InputCheckedFirst | src/test/java/org/meanbean/test/PropertyBasedEqualsMethodPropertySignificanceVerifierTest.java:51-64 | a null factory, null names or a null output is an input error; unknown names are an input error with the exact message |
| PropertySignificance.CompareErrors | src/test/java/org/meanbean/test/PropertyBasedEqualsMethodPropertySignificanceVerifierTest.java:76-140 | unequal outputs, differing or null property values are input errors; a throwing getter, a throwing setter or a missing factory is an execution error |
| PropertySignificance.PropertyDrawsOnce | src/test/java/org/meanbean/test/PropertyBasedEqualsMethodPropertySignificanceVerifierTest.java:182-190 | a passing property draws exactly one value from its own factory and none from any other |
| PropertySignificance.DrawsCountUses | src/test/java/org/meanbean/test/PropertyBasedEqualsMethodPropertySignificanceVerifierTest.java:182-190 | a passing run draws from each factory exactly as often as tested properties use it |
| PropertySignificance.OverrideFactoryUsedOnce | src/test/java/org/meanbean/test/PropertyBasedEqualsMethodPropertySignificanceVerifierTest.java:182-190 | the override factory of a bean's one tested property is invoked exactly once |
| PropertySignificance.SignificantPropertyPasses | src/test/java/org/meanbean/test/PropertyBasedEqualsMethodPropertySignificanceVerifierTest.java:292-297 | with a value-comparing `equals`, a significant property passes |
| PropertySignificance.SignificantPropertiesPass | src/test/java/org/meanbean/test/PropertyBasedEqualsMethodPropertySignificanceVerifierTest.java:160-174 | with a value-comparing `equals`, well-formed properties none of which is named insignificant all pass |
| PropertySignificance.CorrectBeanPasses | src/test/java/org/meanbean/test/PropertyBasedEqualsMethodPropertySignificanceVerifierTest.java:160-180 | a correct bean passes, including when a named property is ignored by configuration |
| PropertySignificance.InsignificantUsedPropertyFails | src/test/java/org/meanbean/test/PropertyBasedEqualsMethodPropertySignificanceVerifierTest.java:328-333 | a property named insignificant that `equals` compares is a violation that expected equality |
| PropertySignificance.IgnoredSignificantPropertyFails | src/test/java/org/meanbean/test/PropertyBasedEqualsMethodPropertySignificanceVerifierTest.java:285-290 | a significant property that `equals` ignores is a violation that expected inequality |
| PropertySignificance.ValueFactories.Create | src/test/java/org/meanbean/test/PropertyBasedEqualsMethodPropertySignificanceVerifierTest.java:186-189 | each call yields the factory's next value and counts one invocation of that factory only |
| PropertySignificance.PropertySignificanceVerifier.VerifyEqualsMethod | src/test/java/org/meanbean/test/PropertyBasedEqualsMethodPropertySignificanceVerifierTest.java:51-190 | the loop over the bean's properties yields the verdict, the counters and the factory draws of the significance check |
| PropertySignificance.PropertySignificanceVerifier.VerifyProperty | src/test/java/org/meanbean/test/PropertyBasedEqualsMethodPropertySignificanceVerifierTest.java:142-158 | creating two outputs and testing one property yields the verdict and the new state of the property check |
| SignificanceScenarios.MultiPropertyBeanPasses | src/test/java/org/meanbean/test/PropertyBasedEqualsMethodPropertySignificanceVerifierTest.java:160-163 | `MultiPropertyBean` with a value-comparing `equals` passes |
| SignificanceScenarios.IgnoredInsignificantPropertyPasses | src/test/java/org/meanbean/test/PropertyBasedEqualsMethodPropertySignificanceVerifierTest.java:176-180 | naming `lastName` insignificant passes when the configuration ignores it |
| SignificanceScenarios.SignificantPropertyNamedInsignificantFails | src/test/java/org/meanbean/test/PropertyBasedEqualsMethodPropertySignificanceVerifierTest.java:142-145 | naming `lastName` insignificant fails on `lastName`, expecting equality |
| SignificanceScenarios.IgnoredPropertyInEqualsFails | src/test/java/org/meanbean/test/PropertyBasedEqualsMethodPropertySignificanceVerifierTest.java:147-158 | an `equals` that ignores `lastName` fails on `lastName`, expecting inequality |
| SignificanceScenarios.UnknownAmongKnown | src/test/java/org/meanbean/test/PropertyBasedEqualsMethodPropertySignificanceVerifierTest.java:245-253 | of the four names given, the two unknown ones remain, in order |
| SignificanceScenarios.TwoUnknownNamesMessage | src/test/java/org/meanbean/test/PropertyBasedEqualsMethodPropertySignificanceVerifierTest.java:255-257 | the message for the two unknown names, written out |
| SignificanceScenarios.UnknownNamesListedInOrder | src/test/java/org/meanbean/test/PropertyBasedEqualsMethodPropertySignificanceVerifierTest.java:209-226 | the verifier rejects the four names with exactly that message |
| RandomValues.Sample | src/test/java/org/meanbean/util/RandomValueSamplerTest.java:43-50 | nothing is chosen iff the list is empty; a chosen value is an element of the list |
| RandomValues.EveryElementReachable | src/test/java/org/meanbean/util/RandomValueSamplerTest.java:32-36 | every element is chosen by some draw |
| RandomValues.GetFrom | src/test/java/org/meanbean/util/RandomValueSamplerTest.java:61-64 | an illegal state iff nothing was found; otherwise the element that was found |
| RandomValues.IterationOrder | src/test/java/org/meanbean/util/RandomValueSamplerTest.java:22 | a set's iteration yields each element exactly once |
| RandomValues.RandomValueGenerator.NextInt | src/test/java/org/meanbean/util/RandomValueSamplerTest.java:24 | a value below the bound; the generator advances by one |
| RandomValues.RandomValueSampler.FindFromList | src/test/java/org/meanbean/util/RandomValueSamplerTest.java:43-51 | the drawn element of a non-empty list and nothing for an empty one, which draws nothing |
| RandomValues.RandomValueSampler.FindFromSet | src/test/java/org/meanbean/util/RandomValueSamplerTest.java:32-40 | nothing iff the set is empty; otherwise a member of the set |
| RandomValues.RandomValueSampler.GetFromList | src/test/java/org/meanbean/util/RandomValueSamplerTest.java:66-77 | an illegal state iff the list is empty; otherwise one of its elements; the generator advances by one draw for a non-empty list and not at all for an empty one |
| RandomValues.RandomValueSampler.GetFromSet | src/test/java/org/meanbean/util/RandomValueSamplerTest.java:53-64 | an illegal state iff the set is empty; otherwise one of its members; the generator advances by one draw for a non-empty set and not at all for an empty one |
| RandomValues.SampleTenFromHundred | src/test/java/org/meanbean/util/RandomValueSamplerTest.java:43-50 | ten draws from 0..99 all lie in 0..99 and advance the generator by ten; the empty list yields nothing and draws nothing |
| FactoryRegistry.SimpleFactoryCollection.AddFactory | src/test/java/org/meanbean/factories/CollectionFactoryPluginTest.java:45-47 | registers or replaces the factory for exactly that type |
| FactoryRegistry.SimpleFactoryCollection.HasFactory | src/test/java/org/meanbean/factories/CollectionFactoryPluginTest.java:53-56 | true iff the type is registered; the registry is not changed |
| FactoryRegistry.SimpleFactoryCollection.GetFactory | src/test/java/org/meanbean/test/PropertyBasedEqualsMethodPropertySignificanceVerifierTest.java:41-49 | the registered factory iff the type is registered; otherwise no such factory, naming the type |
| FactoryRegistry.CollectionFactories | src/test/java/org/meanbean/factories/CollectionFactoryPluginTest.java:35-37 | the plugin registers exactly the sixteen collection types |
| FactoryRegistry.SixteenDistinctTypes | src/test/java/org/meanbean/factories/CollectionFactoryPluginTest.java:35-37 | the list has sixteen distinct types: interfaces and implementations are registered separately |
| FactoryRegistry.RegisterAddsEachType | src/test/java/org/meanbean/factories/CollectionFactoryPluginTest.java:57 | registering types one by one adds exactly one factory per type |
| FactoryRegistry.CollectionFactoryPlugin.Initialize | src/test/java/org/meanbean/factories/CollectionFactoryPluginTest.java:57-61 | initialization adds the sixteen registrations to the registry |
| FactoryRegistry.InitializationRegistersEveryType | src/test/java/org/meanbean/factories/CollectionFactoryPluginTest.java:57-61 | afterwards every collection type is present and every earlier registration of another type stays |
| FactoryRegistry.RegisterCollectionFactories | src/test/java/org/meanbean/factories/CollectionFactoryPluginTest.java:50-62 | a registry with only String and Long has none of the sixteen types before initialization and all of them after |

## Left out

- The verifier classes' own source (`EqualsMethodContractVerifier`, `HashCodeMethodTester`, `PropertyBasedEqualsMethodPropertySignificanceVerifier`, `RandomValueSampler`, `SimpleFactoryCollection`, `CollectionFactoryPlugin`) is not part of this model. Their behaviour is what their tests demand. Messages not fixed by a test use stand-in texts: not-equivalent objects, differing or null property values, execution errors, and the `IllegalStateException` text of `RandomValueSampler.getFrom` on an empty collection (`RandomValues.EmptyCollectionMessage`).
- EqualsLaws.RepeatEqualsPassIff: the number of repeated `equals` calls in the consistency law is not visible, so a named constant of 100 is used.
- HashCodeTester.RepeatHashCodePassIff: the same holds for the repeated `hashCode` calls in its consistency law.
- Reflection and introspection (`JavaBeanInformationFactory`, `BasicNewObjectInstanceFactory`, `BasicBeanPopulator`) are abstracted:
  - as a `BeanInformation` value (property names, types, accessors, default values, whether the class can be instantiated);
  - as an `introspect` function from class names to that value.
  - Beans.Bean.Populate does not model a throwing setter: `setterThrows` is used only by the significance verifier, so `EquivalentPopulatedBeanFactory.create()` never fails on a setter.
- Self-referencing and complex beans are covered only through their property descriptions. Readability and writability are modelled, but object graphs are not.
- Logging is not modelled.
- `DoubleFactory` is floating-point arithmetic and is not modelled.
- `BeanTesterBuilder` only wires singletons together and is not modelled.
- The statistical spread assertions ("more than 5 distinct values among 10") are probabilistic. The generator is an arbitrary integer stream, and only membership and range are proved.
- RandomValues.RandomValueSampler.FindFromSet: the iteration order of a hash set is unspecified. The model proves only that each element is yielded once and that the result is a member, not which member a given draw picks.
- In the verifier layer, beans are values. A setter call on the mutated copy is modelled as a value update, so aliasing between the verifier's objects is not modelled.
- Java's identity-based `Object.hashCode` and the exception class hierarchy are represented by the `Verdict` datatype and caller-supplied `equals`/`hashCode` functions.
- FactoryRegistry.CollectionFactoryPlugin.Initialize: the generator argument is accepted but not used. What the registered collection factories produce is not modelled.
- PropertySignificance.Mutate: one replacement value is drawn, with no bounded retry for a value different from the current one. A drawn value equal to the current one is decided by the decision table as an unchanged value. So the scenario lemmas that expect a violation require that the String factory never draws `"LAST_NAME"`. The retry bound is not visible, and override factories are not retried in any case.
- HashCodeTester.ClassProducer: the class entry point tests a pure description of the equivalent populated bean factory. HashCodeTester.FactoryMatchesClassProducer proves that the factory class produces exactly that description.
- PropertySignificance: the registry the verifier draws from is modelled as the set of type names it can produce values for, plus a value function per factory and draw number.
