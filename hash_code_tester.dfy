/**
 * The hash-code tester: equal objects must have equal hash codes, and an
 * object's hash code must not change between calls. Each entry point checks
 * its input first; a factory whose outputs are not equal is an input error,
 * never a law violation. The class entry point builds an equivalent
 * populated bean factory for the class and tests that.
 */
module HashCodeTester {
  import opened Outcomes
  import opened Beans
  import opened Fixtures
  import EqualsLaws
  import ValidationHelper
  import EquivalentFactories

  type Run = EqualsLaws.Run

  /** How many further `x.hashCode()` calls are compared with the first one. */
  const HashConsistencyRepetitions: nat := 100

  const EqualOperation: string := "test hash codes equal"
  const ConsistentOperation: string := "test hash code consistent"
  const MethodOperation: string := "test hash code method"

  function Violated(law: HashCodeLaw): Verdict
  {
    LawViolation(HashCodeViolation(law))
  }

  /** `testHashCodesEqual(factory)`: two equal objects have equal hash codes. */
  function CheckHashCodesEqual(w: World, s: State): Run
  {
    var op := EqualOperation;
    if w.factory.Null? then EqualsLaws.Run(EqualsLaws.NullFactoryError(op), s) else
    var (x, s1) := CreateNext(w, s);
    var (y, s2) := CreateNext(w, s1);
    if !x.Made? then EqualsLaws.Run(EqualsLaws.CreationError(x, op), s2) else
    if !y.Made? then EqualsLaws.Run(EqualsLaws.CreationError(y, op), s2) else
    CompareHashCodes(w, s2, x.obj, y.obj)
  }

  /** The comparisons of the equal-hash-codes law once two objects exist. */
  function CompareHashCodes(w: World, s: State, x: Obj, y: Obj): Run
  {
    var (xy, s1) := CallEquals(w, s, x, ObjArgument(y));
    if !xy then EqualsLaws.Run(EqualsLaws.NotEquivalentError(EqualOperation), s1) else
    var (hx, s2) := CallHashCode(w, s1, x);
    var (hy, s3) := CallHashCode(w, s2, y);
    EqualsLaws.Run(if hx == hy then Pass else Violated(EqualObjectsEqualHashes), s3)
  }

  /** `n` further `x.hashCode()` calls, each of which must answer `initial`. */
  function RepeatHashCode(w: World, s: State, x: Obj, initial: int, n: nat): Run
    decreases n
  {
    if n == 0 then EqualsLaws.Run(Pass, s) else
    var (h, s1) := CallHashCode(w, s, x);
    if h != initial then EqualsLaws.Run(Violated(HashConsistent), s1)
    else RepeatHashCode(w, s1, x, initial, n - 1)
  }

  /** `testHashCodeConsistent(factory)`: repeated `hashCode()` calls on one object agree. */
  function CheckHashCodeConsistent(w: World, s: State): Run
  {
    var op := ConsistentOperation;
    if w.factory.Null? then EqualsLaws.Run(EqualsLaws.NullFactoryError(op), s) else
    var (x, s1) := CreateNext(w, s);
    if !x.Made? then EqualsLaws.Run(EqualsLaws.CreationError(x, op), s1) else
    var (initial, s2) := CallHashCode(w, s1, x.obj);
    RepeatHashCode(w, s2, x.obj, initial, HashConsistencyRepetitions)
  }

  /** `testHashCodeMethod(factory)`: both laws, equal hash codes first. */
  function CheckHashCodeMethod(w: World, s: State): Run
  {
    if w.factory.Null? then EqualsLaws.Run(EqualsLaws.NullFactoryError(MethodOperation), s) else
    var r := CheckHashCodesEqual(w, s);
    if r.verdict != Pass then r else CheckHashCodeConsistent(w, r.state)
  }

  /**
   * The outputs of an equivalent populated bean factory for a class: every
   * `create()` throws when a property type has no factory or the class cannot
   * be instantiated, and otherwise yields the class's default state overlaid
   * with the one cached value map.
   */
  function ClassProducer(info: BeanInformation, strategy: EquivalentFactories.FactoryLookupStrategy, draw: string -> Value)
    : Producer
  {
    var values := EquivalentFactories.PropertyValuesFor(info, strategy, draw);
    k =>
      if values.Null? then CreationThrew("No factory for a property of " + info.beanClass)
      else if !info.instantiable then CreationThrew("Cannot create an instance of " + info.beanClass)
      else Produced(Template(info.beanClass, info.defaults + values.get))
  }

  /** `testHashCodeMethod(clazz)`: a null class is an input error; otherwise the class's factory is tested. */
  function CheckHashCodeMethodForClass(
    info: Nullable<BeanInformation>, strategy: EquivalentFactories.FactoryLookupStrategy, draw: string -> Value,
    equals: (Obj, Argument, nat) -> bool, hashCode: (Obj, nat) -> int, s: State): Run
  {
    if info.Null? then EqualsLaws.Run(InputError(ValidationHelper.MissingArgumentMessage("clazz", MethodOperation)), s)
    else CheckHashCodeMethod(World(Ref(ClassProducer(info.get, strategy, draw)), equals, hashCode), s)
  }

  // ---------------------------------------------------------------------------
  // Properties of the checks
  // ---------------------------------------------------------------------------

  /** Every entry point rejects a null factory, and a factory producing null, with an input error. */
  lemma InputCheckedFirst(w: World, s: State)
    ensures w.factory.Null? ==>
      && CheckHashCodesEqual(w, s).verdict.InputError?
      && CheckHashCodeConsistent(w, s).verdict.InputError?
      && CheckHashCodeMethod(w, s).verdict.InputError?
    ensures w.factory.Ref? && w.factory.get(s.created).ProducedNull? ==>
      && CheckHashCodesEqual(w, s).verdict.InputError?
      && CheckHashCodeConsistent(w, s).verdict.InputError?
      && CheckHashCodeMethod(w, s).verdict.InputError?
  {
  }

  /**
   * Once two objects exist, the equal-hash-codes law reports unequal objects
   * as an input error before any hash code is taken, and otherwise fails
   * exactly when the two hash codes differ.
   */
  lemma CompareHashCodesDecides(w: World, s: State, x: Obj, y: Obj)
    ensures !w.equals(x, ObjArgument(y), s.equalsCalls) ==>
      CompareHashCodes(w, s, x, y).verdict.InputError? && CompareHashCodes(w, s, x, y).state.hashCalls == s.hashCalls
    ensures w.equals(x, ObjArgument(y), s.equalsCalls) ==>
      (CompareHashCodes(w, s, x, y).verdict == Violated(EqualObjectsEqualHashes) <==>
       w.hashCode(x, s.hashCalls) != w.hashCode(y, s.hashCalls + 1))
  {
  }

  /** The consistency repetitions pass exactly when every call answers as the first one did. */
  lemma {:induction false} RepeatHashCodePassIff(w: World, s: State, x: Obj, initial: int, n: nat)
    ensures RepeatHashCode(w, s, x, initial, n).verdict == Pass <==>
      forall k :: s.hashCalls <= k < s.hashCalls + n ==> w.hashCode(x, k) == initial
    ensures RepeatHashCode(w, s, x, initial, n).verdict != Pass ==>
      RepeatHashCode(w, s, x, initial, n).verdict == Violated(HashConsistent)
    decreases n
  {
    if n > 0 {
      RepeatHashCodePassIff(w, s.(hashCalls := s.hashCalls + 1), x, initial, n - 1);
    }
  }

  /** `hashCode` depends only on the object's class and property values, never on the call. */
  ghost predicate ValueHashCode(w: World)
  {
    forall x: Obj, y: Obj, n: nat, m: nat :: x.beanClass == y.beanClass && x.properties == y.properties ==>
      w.hashCode(x, n) == w.hashCode(y, m)
  }

  /** A value-comparing `equals` with a value-based `hashCode` passes both laws. */
  lemma CorrectBeanPassesHashCodeMethod(w: World, s: State)
    requires EqualsLaws.ComparesValues(w) && ValueHashCode(w)
    requires w.factory.Ref? && EqualsLaws.EquivalentOutputs(w.factory.get)
    ensures CheckHashCodesEqual(w, s).verdict == Pass
    ensures CheckHashCodeConsistent(w, s).verdict == Pass
    ensures CheckHashCodeMethod(w, s).verdict == Pass
  {
    var p := w.factory.get;
    forall t: State ensures CheckHashCodeConsistent(w, t).verdict == Pass {
      assert p(t.created) == p(0);
      var x := Output(p, t.created).obj;
      var initial := w.hashCode(x, t.hashCalls);
      RepeatHashCodePassIff(w, t.(created := t.created + 1, hashCalls := t.hashCalls + 1), x, initial,
        HashConsistencyRepetitions);
    }
    assert p(s.created) == p(0) && p(s.created + 1) == p(0);
  }

  /** A hash code that changes on every call fails the consistency law. */
  lemma ChangingHashCodeFailsConsistency(w: World, s: State)
    requires forall x, n :: w.hashCode(x, n) == n
    requires w.factory.Ref? && w.factory.get(s.created).Produced?
    ensures CheckHashCodeConsistent(w, s).verdict == Violated(HashConsistent)
  {
    var x := Output(w.factory.get, s.created).obj;
    var t := s.(created := s.created + 1, hashCalls := s.hashCalls + 1);
    RepeatHashCodePassIff(w, t, x, s.hashCalls, HashConsistencyRepetitions);
    assert w.hashCode(x, t.hashCalls) != s.hashCalls;
  }

  /** A class whose property types all resolve and that can be instantiated yields equal outputs. */
  lemma ClassProducerIsEquivalent(info: BeanInformation, strategy: EquivalentFactories.FactoryLookupStrategy, draw: string -> Value)
    requires EquivalentFactories.Resolvable(info, strategy) && info.instantiable
    ensures EqualsLaws.EquivalentOutputs(ClassProducer(info, strategy, draw))
  {
  }

  /**
   * The equivalent populated bean factory built for a class produces what
   * `ClassProducer` says, on its first `create()` and on a later one, whatever
   * the later draw would have been; every later call behaves as this second
   * one, since `EquivalentPopulatedBeanFactory.Create` keeps a set cache unchanged.
   */
  method FactoryMatchesClassProducer(
    info: BeanInformation, strategy: EquivalentFactories.FactoryLookupStrategy, draw: string -> Value,
    laterDraw: string -> Value)
    returns (first: EquivalentFactories.Creation, second: EquivalentFactories.Creation)
    ensures first.Created? <==> ClassProducer(info, strategy, draw)(0).Produced?
    ensures second.Created? <==> ClassProducer(info, strategy, draw)(1).Produced?
    ensures first.Created? ==>
      && first.bean.beanClass == ClassProducer(info, strategy, draw)(0).template.beanClass
      && first.bean.properties == ClassProducer(info, strategy, draw)(0).template.properties
    ensures second.Created? ==>
      && second.bean.beanClass == ClassProducer(info, strategy, draw)(1).template.beanClass
      && second.bean.properties == ClassProducer(info, strategy, draw)(1).template.properties
  {
    var factory := new EquivalentFactories.EquivalentPopulatedBeanFactory(info, strategy);
    first := factory.Create(draw);
    second := factory.Create(laterDraw);
  }

  /** A null class is an input error; a class that cannot be instantiated is an execution error. */
  lemma ClassEntryPointErrors(
    info: Nullable<BeanInformation>, strategy: EquivalentFactories.FactoryLookupStrategy, draw: string -> Value,
    equals: (Obj, Argument, nat) -> bool, hashCode: (Obj, nat) -> int, s: State)
    ensures info.Null? ==> CheckHashCodeMethodForClass(info, strategy, draw, equals, hashCode, s).verdict.InputError?
    ensures info.Ref? && !info.get.instantiable ==>
      CheckHashCodeMethodForClass(info, strategy, draw, equals, hashCode, s).verdict.ExecutionError?
  {
  }

  class HashCodeMethodTester {

    constructor ()
    {
    }

    method TestHashCodesEqual(factory: EquivalentFactory?, methods: ObjectMethods) returns (v: Verdict)
      modifies factory, methods
      ensures var r := CheckHashCodesEqual(WorldOf(factory, methods), old(StateOf(factory, methods)));
        v == r.verdict && StateOf(factory, methods) == r.state
    {
      var op := EqualOperation;
      if factory == null {
        return EqualsLaws.NullFactoryError(op);
      }
      var x := factory.Create();
      var y := factory.Create();
      if !x.Made? {
        return EqualsLaws.CreationError(x, op);
      }
      if !y.Made? {
        return EqualsLaws.CreationError(y, op);
      }
      var xy := methods.Equals(x.obj, ObjArgument(y.obj));
      if !xy {
        return EqualsLaws.NotEquivalentError(op);
      }
      var hx := methods.HashCode(x.obj);
      var hy := methods.HashCode(y.obj);
      v := if hx == hy then Pass else Violated(EqualObjectsEqualHashes);
    }

    method TestHashCodeConsistent(factory: EquivalentFactory?, methods: ObjectMethods) returns (v: Verdict)
      modifies factory, methods
      ensures var r := CheckHashCodeConsistent(WorldOf(factory, methods), old(StateOf(factory, methods)));
        v == r.verdict && StateOf(factory, methods) == r.state
    {
      var op := ConsistentOperation;
      if factory == null {
        return EqualsLaws.NullFactoryError(op);
      }
      var x := factory.Create();
      if !x.Made? {
        return EqualsLaws.CreationError(x, op);
      }
      var initial := methods.HashCode(x.obj);
      ghost var w := WorldOf(factory, methods);
      ghost var goal := RepeatHashCode(w, StateOf(factory, methods), x.obj, initial, HashConsistencyRepetitions);
      var i := 0;
      while i < HashConsistencyRepetitions
        invariant 0 <= i <= HashConsistencyRepetitions
        invariant RepeatHashCode(w, StateOf(factory, methods), x.obj, initial, HashConsistencyRepetitions - i) == goal
      {
        var again := methods.HashCode(x.obj);
        if again != initial {
          return Violated(HashConsistent);
        }
        i := i + 1;
      }
      v := Pass;
    }

    method TestHashCodeMethod(factory: EquivalentFactory?, methods: ObjectMethods) returns (v: Verdict)
      modifies factory, methods
      ensures var r := CheckHashCodeMethod(WorldOf(factory, methods), old(StateOf(factory, methods)));
        v == r.verdict && StateOf(factory, methods) == r.state
    {
      if factory == null {
        return EqualsLaws.NullFactoryError(MethodOperation);
      }
      v := TestHashCodesEqual(factory, methods);
      if v == Pass {
        v := TestHashCodeConsistent(factory, methods);
      }
    }

    /** `testHashCodeMethod(clazz)`: tests a new equivalent populated bean factory for the class. */
    method TestHashCodeMethodForClass(
      info: Nullable<BeanInformation>, strategy: EquivalentFactories.FactoryLookupStrategy, draw: string -> Value,
      methods: ObjectMethods)
      returns (v: Verdict)
      modifies methods
      ensures var r := CheckHashCodeMethodForClass(info, strategy, draw, methods.equals, methods.hashCode,
                                                   old(StateOf(null, methods)));
        && v == r.verdict
        && methods.equalsCalls == r.state.equalsCalls
        && methods.hashCalls == r.state.hashCalls
    {
      if info.Null? {
        return InputError(ValidationHelper.MissingArgumentMessage("clazz", MethodOperation));
      }
      var factory := new EquivalentFactory(ClassProducer(info.get, strategy, draw));
      v := TestHashCodeMethod(factory, methods);
    }
  }
}
