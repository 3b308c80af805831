/**
 * What the verifiers see of the code under test. A fixture factory yields
 * its next object on each `create()` and keeps a counter; the bean class's
 * own `equals` and `hashCode` are functions supplied by the caller, which
 * may depend on how many calls were made before (as counter-driven fixture
 * beans do). Objects are observed as values: `serial` is the object's
 * identity (its creation index) and a setter call yields the same object
 * with one property changed.
 *
 * The pure part (`World`, `State`, `CreateNext`, `CallEquals`, `CallHashCode`)
 * specifies the stateful part (`EquivalentFactory`, `ObjectMethods`).
 */
module Fixtures {
  import opened Outcomes
  import opened Beans

  /** The class and property values of an object a factory returns. */
  datatype Template = Template(beanClass: string, properties: PropertyMap)

  /** What one `create()` call does: return an object, return `null`, or throw. */
  datatype Production = Produced(template: Template) | ProducedNull | CreationThrew(message: string)

  /** An object under test: its identity, class and current property values. */
  datatype Obj = Obj(serial: nat, beanClass: string, properties: PropertyMap)

  /** The argument of `equals`: `null`, an object of an unrelated type, or a bean. */
  datatype Argument = NullArgument | ForeignArgument | ObjArgument(obj: Obj)

  /** The outcome of `create()` as the verifiers receive it. */
  datatype Made = Made(obj: Obj) | MadeNull | Threw(message: string)

  /** The k-th `create()` call of a factory. */
  type Producer = nat -> Production

  /** A factory argument (possibly `null`) and the bean class's `equals` and `hashCode`. */
  datatype World = World(
    factory: Nullable<Producer>,
    equals: (Obj, Argument, nat) -> bool,
    hashCode: (Obj, nat) -> int)

  /** How many objects were created and how many `equals`/`hashCode` calls were made so far. */
  datatype State = State(created: nat, equalsCalls: nat, hashCalls: nat)

  /** The value a getter returns: unset properties read as `null`. */
  function Read(x: Obj, name: string): Value
  {
    if name in x.properties then x.properties[name] else NullValue
  }

  /** The k-th object a producer makes; its identity is its creation index. */
  function Output(p: Producer, k: nat): (r: Made)
    ensures r.Made? ==> r.obj.serial == k
  {
    match p(k)
    case Produced(t) => Made(Obj(k, t.beanClass, t.properties))
    case ProducedNull => MadeNull
    case CreationThrew(m) => Threw(m)
  }

  /** One `create()` on the world's (non-null) factory. */
  function CreateNext(w: World, s: State): (Made, State)
    requires w.factory.Ref?
  {
    (Output(w.factory.get, s.created), s.(created := s.created + 1))
  }

  /** One `x.equals(a)` call. */
  function CallEquals(w: World, s: State, x: Obj, a: Argument): (bool, State)
  {
    (w.equals(x, a, s.equalsCalls), s.(equalsCalls := s.equalsCalls + 1))
  }

  /** One `x.hashCode()` call. */
  function CallHashCode(w: World, s: State, x: Obj): (int, State)
  {
    (w.hashCode(x, s.hashCalls), s.(hashCalls := s.hashCalls + 1))
  }

  /** A fixture factory: the k-th `create()` returns `produce(k)`; it keeps a counter. */
  class EquivalentFactory {
    const produce: Producer
    var counter: nat

    constructor (produce: Producer)
      ensures this.produce == produce && counter == 0
    {
      this.produce := produce;
      counter := 0;
    }

    method Create() returns (r: Made)
      modifies this
      ensures counter == old(counter) + 1
      ensures r == Output(produce, old(counter))
    {
      r := Output(produce, counter);
      counter := counter + 1;
    }
  }

  /** The bean class's `equals` and `hashCode`, with the call counts they may depend on. */
  class ObjectMethods {
    const equals: (Obj, Argument, nat) -> bool
    const hashCode: (Obj, nat) -> int
    var equalsCalls: nat
    var hashCalls: nat

    constructor (equals: (Obj, Argument, nat) -> bool, hashCode: (Obj, nat) -> int)
      ensures this.equals == equals && this.hashCode == hashCode
      ensures equalsCalls == 0 && hashCalls == 0
    {
      this.equals := equals;
      this.hashCode := hashCode;
      equalsCalls, hashCalls := 0, 0;
    }

    method Equals(x: Obj, a: Argument) returns (b: bool)
      modifies this
      ensures b == equals(x, a, old(equalsCalls))
      ensures equalsCalls == old(equalsCalls) + 1 && hashCalls == old(hashCalls)
    {
      b := equals(x, a, equalsCalls);
      equalsCalls := equalsCalls + 1;
    }

    method HashCode(x: Obj) returns (h: int)
      modifies this
      ensures h == hashCode(x, old(hashCalls))
      ensures hashCalls == old(hashCalls) + 1 && equalsCalls == old(equalsCalls)
    {
      h := hashCode(x, hashCalls);
      hashCalls := hashCalls + 1;
    }
  }

  /** The pure world a factory argument and the bean's methods stand for. */
  function WorldOf(f: EquivalentFactory?, m: ObjectMethods): World
  {
    World(if f == null then Null else Ref(f.produce), m.equals, m.hashCode)
  }

  /** The pure state the counters stand for (a `null` factory has created nothing). */
  function StateOf(f: EquivalentFactory?, m: ObjectMethods): State
    reads f, m
  {
    State(if f == null then 0 else f.counter, m.equalsCalls, m.hashCalls)
  }
}
