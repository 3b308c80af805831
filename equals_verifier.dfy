/**
 * The equality-law verifier as its callers drive it: each entry point pulls
 * objects from a fixture factory and calls the bean's `equals`, and ends in
 * the verdict the corresponding check of `EqualsLaws` gives for the same
 * factory and `equals`, leaving the counters where that check says.
 */
module EqualsVerifier {
  import opened Outcomes
  import opened Fixtures
  import opened EqualsLaws

  class EqualsMethodContractVerifier {

    constructor ()
    {
    }

    method VerifyEqualsReflexive(factory: EquivalentFactory?, methods: ObjectMethods) returns (v: Verdict)
      modifies factory, methods
      ensures var r := CheckReflexive(WorldOf(factory, methods), old(StateOf(factory, methods)));
        v == r.verdict && StateOf(factory, methods) == r.state
    {
      var op := Operation(Reflexive);
      if factory == null {
        return NullFactoryError(op);
      }
      var x := factory.Create();
      if !x.Made? {
        return CreationError(x, op);
      }
      var xx := methods.Equals(x.obj, ObjArgument(x.obj));
      v := if xx then Pass else Violated(Reflexive);
    }

    method VerifyEqualsSymmetric(factory: EquivalentFactory?, methods: ObjectMethods) returns (v: Verdict)
      modifies factory, methods
      ensures var r := CheckSymmetric(WorldOf(factory, methods), old(StateOf(factory, methods)));
        v == r.verdict && StateOf(factory, methods) == r.state
    {
      var op := Operation(Symmetric);
      if factory == null {
        return NullFactoryError(op);
      }
      var x := factory.Create();
      var y := factory.Create();
      if !x.Made? {
        return CreationError(x, op);
      }
      if !y.Made? {
        return CreationError(y, op);
      }
      var xy := methods.Equals(x.obj, ObjArgument(y.obj));
      if !xy {
        return NotEquivalentError(op);
      }
      var yx := methods.Equals(y.obj, ObjArgument(x.obj));
      v := if yx then Pass else Violated(Symmetric);
    }

    method VerifyEqualsTransitive(factory: EquivalentFactory?, methods: ObjectMethods) returns (v: Verdict)
      modifies factory, methods
      ensures var r := CheckTransitive(WorldOf(factory, methods), old(StateOf(factory, methods)));
        v == r.verdict && StateOf(factory, methods) == r.state
    {
      var op := Operation(Transitive);
      if factory == null {
        return NullFactoryError(op);
      }
      var x := factory.Create();
      var y := factory.Create();
      var z := factory.Create();
      if !x.Made? {
        return CreationError(x, op);
      }
      if !y.Made? {
        return CreationError(y, op);
      }
      if !z.Made? {
        return CreationError(z, op);
      }
      v := CompareTransitively(factory, methods, x.obj, y.obj, z.obj);
    }

    method CompareTransitively(factory: EquivalentFactory, methods: ObjectMethods, x: Obj, y: Obj, z: Obj)
      returns (v: Verdict)
      modifies methods
      ensures var r := CompareTransitive(WorldOf(factory, methods), old(StateOf(factory, methods)), x, y, z);
        v == r.verdict && StateOf(factory, methods) == r.state
    {
      var op := Operation(Transitive);
      var xy := methods.Equals(x, ObjArgument(y));
      if !xy {
        return NotEquivalentError(op);
      }
      var yz := methods.Equals(y, ObjArgument(z));
      if !yz {
        return NotEquivalentError(op);
      }
      var xz := methods.Equals(x, ObjArgument(z));
      v := if xz then Pass else Violated(Transitive);
    }

    method VerifyEqualsConsistent(factory: EquivalentFactory?, methods: ObjectMethods) returns (v: Verdict)
      modifies factory, methods
      ensures var r := CheckConsistent(WorldOf(factory, methods), old(StateOf(factory, methods)));
        v == r.verdict && StateOf(factory, methods) == r.state
    {
      var op := Operation(Consistent);
      if factory == null {
        return NullFactoryError(op);
      }
      var x := factory.Create();
      var y := factory.Create();
      if !x.Made? {
        return CreationError(x, op);
      }
      if !y.Made? {
        return CreationError(y, op);
      }
      var initial := methods.Equals(x.obj, ObjArgument(y.obj));
      ghost var w := WorldOf(factory, methods);
      ghost var goal := RepeatEquals(w, StateOf(factory, methods), x.obj, y.obj, initial, ConsistencyRepetitions);
      var i := 0;
      while i < ConsistencyRepetitions
        invariant 0 <= i <= ConsistencyRepetitions
        invariant RepeatEquals(w, StateOf(factory, methods), x.obj, y.obj, initial, ConsistencyRepetitions - i) == goal
      {
        var again := methods.Equals(x.obj, ObjArgument(y.obj));
        if again != initial {
          return Violated(Consistent);
        }
        i := i + 1;
      }
      v := Pass;
    }

    method VerifyEqualsNull(factory: EquivalentFactory?, methods: ObjectMethods) returns (v: Verdict)
      modifies factory, methods
      ensures var r := CheckNullSafe(WorldOf(factory, methods), old(StateOf(factory, methods)));
        v == r.verdict && StateOf(factory, methods) == r.state
    {
      var op := Operation(NullSafe);
      if factory == null {
        return NullFactoryError(op);
      }
      var x := factory.Create();
      if !x.Made? {
        return CreationError(x, op);
      }
      var acceptsNull := methods.Equals(x.obj, NullArgument);
      v := if acceptsNull then Violated(NullSafe) else Pass;
    }

    method VerifyEqualsDifferentType(factory: EquivalentFactory?, methods: ObjectMethods) returns (v: Verdict)
      modifies factory, methods
      ensures var r := CheckDifferentType(WorldOf(factory, methods), old(StateOf(factory, methods)));
        v == r.verdict && StateOf(factory, methods) == r.state
    {
      var op := Operation(DifferentType);
      if factory == null {
        return NullFactoryError(op);
      }
      var x := factory.Create();
      if !x.Made? {
        return CreationError(x, op);
      }
      var acceptsForeign := methods.Equals(x.obj, ForeignArgument);
      v := if acceptsForeign then Violated(DifferentType) else Pass;
    }

    method VerifyLaw(law: EqualsLaw, factory: EquivalentFactory?, methods: ObjectMethods) returns (v: Verdict)
      modifies factory, methods
      ensures var r := CheckLaw(law, WorldOf(factory, methods), old(StateOf(factory, methods)));
        v == r.verdict && StateOf(factory, methods) == r.state
    {
      match law {
        case Reflexive => v := VerifyEqualsReflexive(factory, methods);
        case Symmetric => v := VerifyEqualsSymmetric(factory, methods);
        case Transitive => v := VerifyEqualsTransitive(factory, methods);
        case Consistent => v := VerifyEqualsConsistent(factory, methods);
        case NullSafe => v := VerifyEqualsNull(factory, methods);
        case DifferentType => v := VerifyEqualsDifferentType(factory, methods);
      }
    }

    /** `verifyEqualsMethod(factory)`: the six laws in turn, stopping at the first failure. */
    method VerifyEqualsMethod(factory: EquivalentFactory?, methods: ObjectMethods) returns (v: Verdict)
      modifies factory, methods
      ensures var r := CheckEqualsMethod(WorldOf(factory, methods), old(StateOf(factory, methods)));
        v == r.verdict && StateOf(factory, methods) == r.state
    {
      if factory == null {
        return NullFactoryError(CombinedOperation);
      }
      ghost var w := WorldOf(factory, methods);
      ghost var goal := CheckLaws(AllEqualsLaws, w, StateOf(factory, methods));
      var i := 0;
      while i < |AllEqualsLaws|
        invariant 0 <= i <= |AllEqualsLaws|
        invariant CheckLaws(AllEqualsLaws[i..], w, StateOf(factory, methods)) == goal
      {
        v := VerifyLaw(AllEqualsLaws[i], factory, methods);
        if v != Pass {
          return v;
        }
        assert AllEqualsLaws[i..][1..] == AllEqualsLaws[i + 1..];
        i := i + 1;
      }
      v := Pass;
    }
  }
}
