/**
 * The property-significance verifier. After checking its inputs it takes a
 * prototype from the factory, looks up the bean's properties, rejects
 * unknown insignificant names, and then, for every readable and writable
 * property the configuration does not ignore, creates two equal objects,
 * gives the second one a new value for that property and asks the first
 * whether it still equals the second. The answer must be "equal" exactly
 * when the new value equals the old one or the property is insignificant.
 */
module PropertySignificance {
  import opened Outcomes
  import opened Beans
  import opened Fixtures
  import ValidationHelper
  import EqualsLaws
  import InsignificantProperties

  const VerifyOperation: string := "verify equals method"

  /** Where a property's new value comes from: an override for the property, or the registry's factory for its type. */
  datatype FactoryId = Override(property: string) | Registered(typeName: string)

  /** The configuration: properties to skip, and properties with an override factory. */
  datatype Configuration = Configuration(ignored: set<string>, overridden: set<string>)

  const NoConfiguration: Configuration := Configuration({}, {})

  /**
   * What the verifier consults besides the bean: introspection of a class,
   * the types its factory collection can make values for, the n-th value
   * each factory makes, and the configuration.
   */
  datatype Setting = Setting(
    introspect: string -> BeanInformation,
    registered: set<string>,
    values: (FactoryId, nat) -> Value,
    configuration: Configuration)

  /** The counters of the fixtures, and how many values each value factory has made. */
  datatype Progress = Progress(base: State, draws: map<FactoryId, nat>)

  /** A verdict and the counters it leaves. */
  datatype SigRun = SigRun(verdict: Verdict, progress: Progress)

  /** How many values the factory has made so far. */
  function Drawn(draws: map<FactoryId, nat>, id: FactoryId): nat
  {
    if id in draws then draws[id] else 0
  }

  /** A property is tested when it has a getter and a setter and is not ignored. */
  predicate Processed(setting: Setting, p: PropertyInformation)
  {
    p.ReadableWritable() && p.name !in setting.configuration.ignored
  }

  /** The factory for a property: its override if configured, else the registry's factory for its type. */
  function FactoryFor(setting: Setting, p: PropertyInformation): (r: Nullable<FactoryId>)
    ensures r.Null? <==> p.name !in setting.configuration.overridden && p.typeName !in setting.registered
    ensures p.name in setting.configuration.overridden ==> r == Ref(Override(p.name))
  {
    if p.name in setting.configuration.overridden then Ref(Override(p.name))
    else if p.typeName in setting.registered then Ref(Registered(p.typeName))
    else Null
  }

  function DifferentValuesError(name: string): Verdict
  {
    InputError("Cannot " + VerifyOperation + " when the factory creates objects with different values of property [" + name + "].")
  }

  function NullValueError(name: string): Verdict
  {
    InputError("Cannot " + VerifyOperation + " when the factory creates objects with a null value of property [" + name + "].")
  }

  /** Whether the mutated copy should still equal the control. */
  function ExpectEqual(significant: bool, original: Value, newValue: Value): bool
  {
    newValue == original || !significant
  }

  /** The decision for one property once `equals` has answered. */
  function Decide(name: string, significant: bool, original: Value, newValue: Value, equal: bool): Verdict
  {
    var expected := ExpectEqual(significant, original, newValue);
    if equal == expected then Pass else LawViolation(SignificanceViolation(name, expected))
  }

  /** Sets a new value on the copy `y` and compares the control `x` with it. */
  function Mutate(w: World, setting: Setting, p: PropertyInformation, significant: bool,
                  x: Obj, y: Obj, original: Value, pr: Progress): SigRun
  {
    var id := FactoryFor(setting, p);
    if id.Null? then SigRun(ExecutionError("No factory for type [" + p.typeName + "] of property [" + p.name + "]."), pr) else
    var n := Drawn(pr.draws, id.get);
    var newValue := setting.values(id.get, n);
    var pr1 := pr.(draws := pr.draws[id.get := n + 1]);
    if p.setterThrows then SigRun(ExecutionError("Failed to write property [" + p.name + "]."), pr1) else
    var mutated := y.(properties := y.properties[p.name := newValue]);
    var (equal, s) := CallEquals(w, pr1.base, x, ObjArgument(mutated));
    SigRun(Decide(p.name, significant, original, newValue, equal), pr1.(base := s))
  }

  /** The baseline checks on the two objects, then the mutation. */
  function CompareProperty(w: World, setting: Setting, p: PropertyInformation, significant: bool,
                           x: Obj, y: Obj, pr: Progress): SigRun
  {
    var (xy, s) := CallEquals(w, pr.base, x, ObjArgument(y));
    var pr1 := pr.(base := s);
    if !xy then SigRun(EqualsLaws.NotEquivalentError(VerifyOperation), pr1) else
    if p.getterThrows then SigRun(ExecutionError("Failed to read property [" + p.name + "]."), pr1) else
    var original := Read(x, p.name);
    if Read(y, p.name) != original then SigRun(DifferentValuesError(p.name), pr1) else
    if original == NullValue then SigRun(NullValueError(p.name), pr1) else
    Mutate(w, setting, p, significant, x, y, original, pr1)
  }

  /** One property: two new objects from the factory, then the comparisons. */
  function CheckProperty(w: World, setting: Setting, p: PropertyInformation, significant: bool, pr: Progress): SigRun
    requires w.factory.Ref?
  {
    var (x, s1) := CreateNext(w, pr.base);
    var (y, s2) := CreateNext(w, s1);
    var pr1 := pr.(base := s2);
    if !x.Made? then SigRun(EqualsLaws.CreationError(x, VerifyOperation), pr1) else
    if !y.Made? then SigRun(EqualsLaws.CreationError(y, VerifyOperation), pr1) else
    CompareProperty(w, setting, p, significant, x.obj, y.obj, pr1)
  }

  /** The properties in order, skipping those not tested, stopping at the first verdict that is not `Pass`. */
  function CheckProperties(w: World, setting: Setting, props: seq<PropertyInformation>,
                           insignificant: seq<string>, pr: Progress): SigRun
    requires w.factory.Ref?
    decreases |props|
  {
    if props == [] then SigRun(Pass, pr) else
    if !Processed(setting, props[0]) then CheckProperties(w, setting, props[1..], insignificant, pr) else
    var r := CheckProperty(w, setting, props[0], props[0].name !in insignificant, pr);
    if r.verdict != Pass then r else CheckProperties(w, setting, props[1..], insignificant, r.progress)
  }

  /** `verifyEqualsMethod(factory, configuration, insignificantProperties...)`. */
  function CheckSignificance(w: World, setting: Setting, names: Nullable<seq<string>>, pr: Progress): SigRun
  {
    if w.factory.Null? then SigRun(EqualsLaws.NullFactoryError(VerifyOperation), pr) else
    if names.Null? then
      SigRun(InputError(ValidationHelper.MissingArgumentMessage("insignificantProperties", VerifyOperation)), pr) else
    var (prototype, s) := CreateNext(w, pr.base);
    var pr1 := pr.(base := s);
    if !prototype.Made? then SigRun(EqualsLaws.CreationError(prototype, VerifyOperation), pr1) else
    var info := setting.introspect(prototype.obj.beanClass);
    var known := InsignificantProperties.EnsureInsignificantPropertiesExist(info, names.get);
    if known.IllegalArgument? then SigRun(InputError(known.message), pr1) else
    CheckProperties(w, setting, info.properties, names.get, pr1)
  }

  // ---------------------------------------------------------------------------
  // Properties of the verifier
  // ---------------------------------------------------------------------------

  /**
   * The decision table, stated about the check of one property. Once the two
   * new objects are equal and agree on a non-null value of the property, the
   * check passes exactly when `equals` on the mutated copy answers as it
   * should: equal when the drawn value is the old one or the property is
   * insignificant, unequal otherwise. Any other answer is a violation that
   * records which answer was expected.
   */
  lemma DecisionTable(w: World, setting: Setting, p: PropertyInformation, significant: bool, pr: Progress)
    requires w.factory.Ref?
    requires Output(w.factory.get, pr.base.created).Made? && Output(w.factory.get, pr.base.created + 1).Made?
    requires var x, y := Output(w.factory.get, pr.base.created).obj, Output(w.factory.get, pr.base.created + 1).obj;
      && w.equals(x, ObjArgument(y), pr.base.equalsCalls)
      && Read(x, p.name) == Read(y, p.name) != NullValue
    requires !p.getterThrows && !p.setterThrows && FactoryFor(setting, p).Ref?
    ensures var x, y := Output(w.factory.get, pr.base.created).obj, Output(w.factory.get, pr.base.created + 1).obj;
      var id := FactoryFor(setting, p).get;
      var newValue := setting.values(id, Drawn(pr.draws, id));
      var equal := w.equals(x, ObjArgument(y.(properties := y.properties[p.name := newValue])), pr.base.equalsCalls + 1);
      var expected := newValue == Read(x, p.name) || !significant;
      var v := CheckProperty(w, setting, p, significant, pr).verdict;
      && (v == Pass <==> (equal <==> expected))
      && (v != Pass ==> v == LawViolation(SignificanceViolation(p.name, expected)))
  {
  }

  /** A null factory, null names, or a factory that yields null are input errors; so are unknown names. */
  lemma InputCheckedFirst(w: World, setting: Setting, names: Nullable<seq<string>>, pr: Progress)
    ensures w.factory.Null? ==> CheckSignificance(w, setting, names, pr).verdict.InputError?
    ensures names.Null? ==> CheckSignificance(w, setting, names, pr).verdict.InputError?
    ensures w.factory.Ref? && w.factory.get(pr.base.created).ProducedNull? ==>
      CheckSignificance(w, setting, names, pr).verdict.InputError?
    ensures w.factory.Ref? && names.Ref? && Output(w.factory.get, pr.base.created).Made? ==>
      var info := setting.introspect(Output(w.factory.get, pr.base.created).obj.beanClass);
      var unknown := InsignificantProperties.UnknownNames(names.get, info.PropertyNames());
      unknown != [] ==>
        CheckSignificance(w, setting, names, pr).verdict ==
          InputError(InsignificantProperties.UnknownPropertiesMessage(unknown, info.beanClass))
  {
  }

  /**
   * Once two objects exist, the baseline is checked before anything is
   * mutated: unequal objects, differing values and null values are input
   * errors, a throwing getter or setter and a missing value factory are
   * execution errors.
   */
  lemma CompareErrors(w: World, setting: Setting, p: PropertyInformation, significant: bool, x: Obj, y: Obj, pr: Progress)
    ensures var v := CompareProperty(w, setting, p, significant, x, y, pr).verdict;
      var equal := w.equals(x, ObjArgument(y), pr.base.equalsCalls);
      var readable := equal && !p.getterThrows;
      var same := readable && Read(x, p.name) == Read(y, p.name);
      && (!equal ==> v.InputError?)
      && (equal && p.getterThrows ==> v.ExecutionError?)
      && (readable && Read(x, p.name) != Read(y, p.name) ==> v.InputError?)
      && (same && Read(x, p.name) == NullValue ==> v.InputError?)
      && (same && Read(x, p.name) != NullValue && (FactoryFor(setting, p).Null? || p.setterThrows) ==> v.ExecutionError?)
  {
  }

  /** How many tested properties among `props` take their values from factory `id`. */
  function Uses(setting: Setting, props: seq<PropertyInformation>, id: FactoryId): nat
    decreases |props|
  {
    if props == [] then 0 else
    var here := if Processed(setting, props[0]) && FactoryFor(setting, props[0]) == Ref(id) then 1 else 0;
    here + Uses(setting, props[1..], id)
  }

  /** A property that passes draws one value from its own factory and none from any other. */
  lemma PropertyDrawsOnce(w: World, setting: Setting, p: PropertyInformation, significant: bool, pr: Progress, id: FactoryId)
    requires w.factory.Ref?
    requires CheckProperty(w, setting, p, significant, pr).verdict == Pass
    ensures FactoryFor(setting, p).Ref?
    ensures Drawn(CheckProperty(w, setting, p, significant, pr).progress.draws, id) ==
      Drawn(pr.draws, id) + (if FactoryFor(setting, p) == Ref(id) then 1 else 0)
  {
  }

  /**
   * A passing run draws from each value factory exactly once per tested
   * property that uses it; in particular a property's override factory is
   * used once per verification.
   */
  lemma {:induction false} DrawsCountUses(w: World, setting: Setting, props: seq<PropertyInformation>,
                                          insignificant: seq<string>, pr: Progress, id: FactoryId)
    requires w.factory.Ref?
    requires CheckProperties(w, setting, props, insignificant, pr).verdict == Pass
    ensures Drawn(CheckProperties(w, setting, props, insignificant, pr).progress.draws, id) ==
      Drawn(pr.draws, id) + Uses(setting, props, id)
    decreases |props|
  {
    if props != [] {
      if !Processed(setting, props[0]) {
        DrawsCountUses(w, setting, props[1..], insignificant, pr, id);
      } else {
        var r := CheckProperty(w, setting, props[0], props[0].name !in insignificant, pr);
        PropertyDrawsOnce(w, setting, props[0], props[0].name !in insignificant, pr, id);
        DrawsCountUses(w, setting, props[1..], insignificant, r.progress, id);
      }
    }
  }

  /** A bean with one tested property that has an override factory uses that factory exactly once. */
  lemma OverrideFactoryUsedOnce(w: World, setting: Setting, p: PropertyInformation, insignificant: seq<string>, pr: Progress)
    requires w.factory.Ref?
    requires Processed(setting, p) && p.name in setting.configuration.overridden
    requires CheckProperties(w, setting, [p], insignificant, pr).verdict == Pass
    ensures Drawn(CheckProperties(w, setting, [p], insignificant, pr).progress.draws, Override(p.name)) ==
      Drawn(pr.draws, Override(p.name)) + 1
  {
    DrawsCountUses(w, setting, [p], insignificant, pr, Override(p.name));
    assert [p][1..] == [];
  }

  /** A property is well formed for the factory's template: tested without error, set to a non-null value. */
  ghost predicate WellFormedProperty(setting: Setting, t: Template, p: PropertyInformation)
  {
    && !p.getterThrows && !p.setterThrows
    && FactoryFor(setting, p).Ref?
    && p.name in t.properties && t.properties[p.name] != NullValue
  }

  /** For a value-comparing `equals`, a significant well-formed property passes whatever value is drawn. */
  lemma SignificantPropertyPasses(w: World, setting: Setting, p: PropertyInformation, pr: Progress)
    requires EqualsLaws.ComparesValues(w)
    requires w.factory.Ref? && EqualsLaws.EquivalentOutputs(w.factory.get)
    requires WellFormedProperty(setting, w.factory.get(0).template, p)
    ensures CheckProperty(w, setting, p, true, pr).verdict == Pass
  {
    var prod := w.factory.get;
    assert prod(pr.base.created) == prod(0) && prod(pr.base.created + 1) == prod(0);
    var t := prod(0).template;
    var id := FactoryFor(setting, p).get;
    var newValue := setting.values(id, Drawn(pr.draws, id));
    assert t.properties[p.name := newValue] == t.properties <==> newValue == t.properties[p.name] by {
      if t.properties[p.name := newValue] == t.properties {
        assert t.properties[p.name := newValue][p.name] == newValue;
      }
    }
  }

  /** For a value-comparing `equals`, well-formed properties none of which is insignificant all pass. */
  lemma {:induction false} SignificantPropertiesPass(w: World, setting: Setting, props: seq<PropertyInformation>,
                                                     insignificant: seq<string>, pr: Progress)
    requires EqualsLaws.ComparesValues(w)
    requires w.factory.Ref? && EqualsLaws.EquivalentOutputs(w.factory.get)
    requires forall i :: 0 <= i < |props| && Processed(setting, props[i]) ==>
      WellFormedProperty(setting, w.factory.get(0).template, props[i]) && props[i].name !in insignificant
    ensures CheckProperties(w, setting, props, insignificant, pr).verdict == Pass
    decreases |props|
  {
    if props != [] {
      var r := pr;
      if Processed(setting, props[0]) {
        SignificantPropertyPasses(w, setting, props[0], pr);
        r := CheckProperty(w, setting, props[0], true, pr).progress;
      }
      SignificantPropertiesPass(w, setting, props[1..], insignificant, r);
    }
  }

  /**
   * A value-comparing `equals` passes the whole verification when every name
   * given is a property of the bean that is not tested (not readable and
   * writable, or ignored by the configuration) and every tested property is
   * well formed. With no names, or an ignored property named, this is the
   * correct bean passing.
   */
  lemma CorrectBeanPasses(w: World, setting: Setting, names: seq<string>, pr: Progress)
    requires EqualsLaws.ComparesValues(w)
    requires w.factory.Ref? && EqualsLaws.EquivalentOutputs(w.factory.get)
    requires var t := w.factory.get(0).template;
      var info := setting.introspect(t.beanClass);
      && (forall i :: 0 <= i < |names| ==> names[i] in info.PropertyNames())
      && (forall i :: 0 <= i < |info.properties| && Processed(setting, info.properties[i]) ==>
            WellFormedProperty(setting, t, info.properties[i]) && info.properties[i].name !in names)
    ensures CheckSignificance(w, setting, Ref(names), pr).verdict == Pass
  {
    var prod := w.factory.get;
    assert prod(pr.base.created) == prod(0);
    var info := setting.introspect(prod(0).template.beanClass);
    SignificantPropertiesPass(w, setting, info.properties, names, pr.(base := pr.base.(created := pr.base.created + 1)));
  }

  /**
   * An `equals` that compares values fails when a property it uses is
   * declared insignificant and the drawn value differs: the copy was expected
   * to stay equal.
   */
  lemma InsignificantUsedPropertyFails(w: World, setting: Setting, p: PropertyInformation, pr: Progress)
    requires EqualsLaws.ComparesValues(w)
    requires w.factory.Ref? && EqualsLaws.EquivalentOutputs(w.factory.get)
    requires WellFormedProperty(setting, w.factory.get(0).template, p)
    requires var id := FactoryFor(setting, p).get;
      setting.values(id, Drawn(pr.draws, id)) != w.factory.get(0).template.properties[p.name]
    ensures CheckProperty(w, setting, p, false, pr).verdict == LawViolation(SignificanceViolation(p.name, true))
  {
    var prod := w.factory.get;
    assert prod(pr.base.created) == prod(0) && prod(pr.base.created + 1) == prod(0);
    var t := prod(0).template;
    var id := FactoryFor(setting, p).get;
    var newValue := setting.values(id, Drawn(pr.draws, id));
    assert t.properties[p.name := newValue][p.name] == newValue;
  }

  /**
   * An `equals` that holds between any two beans fails on a significant
   * property whose drawn value differs: the copy was expected to become unequal.
   */
  lemma IgnoredSignificantPropertyFails(w: World, setting: Setting, p: PropertyInformation, pr: Progress)
    requires forall x, y, n :: w.equals(x, ObjArgument(y), n)
    requires w.factory.Ref? && EqualsLaws.EquivalentOutputs(w.factory.get)
    requires WellFormedProperty(setting, w.factory.get(0).template, p)
    requires var id := FactoryFor(setting, p).get;
      setting.values(id, Drawn(pr.draws, id)) != w.factory.get(0).template.properties[p.name]
    ensures CheckProperty(w, setting, p, true, pr).verdict == LawViolation(SignificanceViolation(p.name, false))
  {
    var prod := w.factory.get;
    assert prod(pr.base.created) == prod(0) && prod(pr.base.created + 1) == prod(0);
  }

  /**
   * An `equals` that holds between any two beans passes on a property
   * declared insignificant, whatever value is drawn.
   */
  lemma IgnoredInsignificantPropertyPasses(w: World, setting: Setting, p: PropertyInformation, pr: Progress)
    requires forall x, y, n :: w.equals(x, ObjArgument(y), n)
    requires w.factory.Ref? && EqualsLaws.EquivalentOutputs(w.factory.get)
    requires WellFormedProperty(setting, w.factory.get(0).template, p)
    ensures CheckProperty(w, setting, p, false, pr).verdict == Pass
  {
    var prod := w.factory.get;
    assert prod(pr.base.created) == prod(0) && prod(pr.base.created + 1) == prod(0);
  }

  // ---------------------------------------------------------------------------
  // The stateful verifier
  // ---------------------------------------------------------------------------

  /** The value factories the verifier draws new property values from; each counts its outputs. */
  class ValueFactories {
    const registered: set<string>
    const values: (FactoryId, nat) -> Value
    var draws: map<FactoryId, nat>

    constructor (registered: set<string>, values: (FactoryId, nat) -> Value)
      ensures this.registered == registered && this.values == values && draws == map[]
    {
      this.registered := registered;
      this.values := values;
      draws := map[];
    }

    method Create(id: FactoryId) returns (v: Value)
      modifies this
      ensures v == values(id, Drawn(old(draws), id))
      ensures draws == old(draws)[id := Drawn(old(draws), id) + 1]
    {
      v := values(id, Drawn(draws, id));
      draws := draws[id := Drawn(draws, id) + 1];
    }
  }

  /** The pure counters the fixtures and value factories stand for. */
  function ProgressOf(f: EquivalentFactory?, m: ObjectMethods, c: ValueFactories): Progress
    reads f, m, c
  {
    Progress(StateOf(f, m), c.draws)
  }

  class PropertySignificanceVerifier {
    const introspect: string -> BeanInformation
    const factoryCollection: ValueFactories

    constructor (introspect: string -> BeanInformation, factoryCollection: ValueFactories)
      ensures this.introspect == introspect && this.factoryCollection == factoryCollection
    {
      this.introspect := introspect;
      this.factoryCollection := factoryCollection;
    }

    /** The pure setting this verifier stands for under a configuration. */
    function SettingFor(configuration: Configuration): Setting
    {
      Setting(introspect, factoryCollection.registered, factoryCollection.values, configuration)
    }

    method MutateProperty(factory: EquivalentFactory, methods: ObjectMethods, configuration: Configuration,
                          p: PropertyInformation, significant: bool, x: Obj, y: Obj, original: Value)
      returns (v: Verdict)
      modifies methods, factoryCollection
      ensures var r := Mutate(WorldOf(factory, methods), SettingFor(configuration), p, significant, x, y, original,
                              old(ProgressOf(factory, methods, factoryCollection)));
        v == r.verdict && ProgressOf(factory, methods, factoryCollection) == r.progress
    {
      var id := FactoryFor(SettingFor(configuration), p);
      if id.Null? {
        return ExecutionError("No factory for type [" + p.typeName + "] of property [" + p.name + "].");
      }
      var newValue := factoryCollection.Create(id.get);
      if p.setterThrows {
        return ExecutionError("Failed to write property [" + p.name + "].");
      }
      var mutated := y.(properties := y.properties[p.name := newValue]);
      var equal := methods.Equals(x, ObjArgument(mutated));
      v := Decide(p.name, significant, original, newValue, equal);
    }

    method CompareProperties(factory: EquivalentFactory, methods: ObjectMethods, configuration: Configuration,
                             p: PropertyInformation, significant: bool, x: Obj, y: Obj)
      returns (v: Verdict)
      modifies methods, factoryCollection
      ensures var r := CompareProperty(WorldOf(factory, methods), SettingFor(configuration), p, significant, x, y,
                                       old(ProgressOf(factory, methods, factoryCollection)));
        v == r.verdict && ProgressOf(factory, methods, factoryCollection) == r.progress
    {
      var xy := methods.Equals(x, ObjArgument(y));
      if !xy {
        return EqualsLaws.NotEquivalentError(VerifyOperation);
      }
      if p.getterThrows {
        return ExecutionError("Failed to read property [" + p.name + "].");
      }
      var original := Read(x, p.name);
      if Read(y, p.name) != original {
        return DifferentValuesError(p.name);
      }
      if original == NullValue {
        return NullValueError(p.name);
      }
      v := MutateProperty(factory, methods, configuration, p, significant, x, y, original);
    }

    method VerifyProperty(factory: EquivalentFactory, methods: ObjectMethods, configuration: Configuration,
                          p: PropertyInformation, significant: bool)
      returns (v: Verdict)
      modifies factory, methods, factoryCollection
      ensures var r := CheckProperty(WorldOf(factory, methods), SettingFor(configuration), p, significant,
                                     old(ProgressOf(factory, methods, factoryCollection)));
        v == r.verdict && ProgressOf(factory, methods, factoryCollection) == r.progress
    {
      var x := factory.Create();
      var y := factory.Create();
      if !x.Made? {
        return EqualsLaws.CreationError(x, VerifyOperation);
      }
      if !y.Made? {
        return EqualsLaws.CreationError(y, VerifyOperation);
      }
      v := CompareProperties(factory, methods, configuration, p, significant, x.obj, y.obj);
    }

    /** `verifyEqualsMethod(factory, configuration, insignificantProperties...)`. */
    method VerifyEqualsMethod(factory: EquivalentFactory?, methods: ObjectMethods, configuration: Configuration,
                              names: Nullable<seq<string>>)
      returns (v: Verdict)
      modifies factory, methods, factoryCollection
      ensures var r := CheckSignificance(WorldOf(factory, methods), SettingFor(configuration), names,
                                         old(ProgressOf(factory, methods, factoryCollection)));
        v == r.verdict && ProgressOf(factory, methods, factoryCollection) == r.progress
    {
      if factory == null {
        return EqualsLaws.NullFactoryError(VerifyOperation);
      }
      if names.Null? {
        return InputError(ValidationHelper.MissingArgumentMessage("insignificantProperties", VerifyOperation));
      }
      var prototype := factory.Create();
      if !prototype.Made? {
        return EqualsLaws.CreationError(prototype, VerifyOperation);
      }
      var info := introspect(prototype.obj.beanClass);
      var known := InsignificantProperties.EnsureInsignificantPropertiesExist(info, names.get);
      if known.IllegalArgument? {
        return InputError(known.message);
      }
      ghost var w := WorldOf(factory, methods);
      ghost var setting := SettingFor(configuration);
      ghost var goal := CheckProperties(w, setting, info.properties, names.get, ProgressOf(factory, methods, factoryCollection));
      var props := info.properties;
      var i := 0;
      while i < |props|
        invariant 0 <= i <= |props|
        invariant CheckProperties(w, setting, props[i..], names.get, ProgressOf(factory, methods, factoryCollection)) == goal
      {
        assert props[i..][1..] == props[i + 1..];
        var p := props[i];
        if p.ReadableWritable() && p.name !in configuration.ignored {
          v := VerifyProperty(factory, methods, configuration, p, p.name !in names.get);
          if v != Pass {
            return v;
          }
        }
        i := i + 1;
      }
      v := Pass;
    }
  }
}
