/**
 * The six laws of `equals`, each as a check over the factory's outputs and
 * the answers of the bean's `equals`, and the combined check that runs all
 * six in turn. Every check validates its factory and the objects it makes
 * before it evaluates its law, so misuse is reported as an input error and
 * never as a law violation.
 */
module EqualsLaws {
  import opened Outcomes
  import opened Fixtures
  import ValidationHelper

  /** A check's verdict and the state it leaves behind. */
  datatype Run = Run(verdict: Verdict, state: State)

  /** How many further `x.equals(y)` calls the consistency law compares with the first one. */
  const ConsistencyRepetitions: nat := 100

  /** The laws in the order the combined check runs them. */
  const AllEqualsLaws: seq<EqualsLaw> := [Reflexive, Symmetric, Transitive, Consistent, NullSafe, DifferentType]

  const CombinedOperation: string := "verify equals method"

  function Operation(law: EqualsLaw): string
  {
    match law
    case Reflexive => "verify equals is reflexive"
    case Symmetric => "verify equals is symmetric"
    case Transitive => "verify equals is transitive"
    case Consistent => "verify equals is consistent"
    case NullSafe => "verify equals is false for null"
    case DifferentType => "verify equals is false for a different type"
  }

  function NullFactoryError(operation: string): Verdict
  {
    InputError(ValidationHelper.MissingArgumentMessage("factory", operation))
  }

  function NotEquivalentError(operation: string): Verdict
  {
    InputError("Cannot " + operation + " when the factory creates objects that are not equal.")
  }

  /** A `create()` that returned `null` is an input error; one that threw is an execution error. */
  function CreationError(m: Made, operation: string): (v: Verdict)
    requires !m.Made?
    ensures m.MadeNull? ==> v.InputError?
    ensures m.Threw? ==> v.ExecutionError?
  {
    if m.MadeNull? then InputError(ValidationHelper.MissingArgumentMessage("factory-created object", operation))
    else ExecutionError(m.message)
  }

  function Violated(law: EqualsLaw): Verdict
  {
    LawViolation(EqualsViolation(law))
  }

  /** Reflexive: `x.equals(x)`. */
  function CheckReflexive(w: World, s: State): Run
  {
    var op := Operation(Reflexive);
    if w.factory.Null? then Run(NullFactoryError(op), s) else
    var (x, s1) := CreateNext(w, s);
    if !x.Made? then Run(CreationError(x, op), s1) else
    var (xx, s2) := CallEquals(w, s1, x.obj, ObjArgument(x.obj));
    Run(if xx then Pass else Violated(Reflexive), s2)
  }

  /** Symmetric: given `x.equals(y)`, also `y.equals(x)`. */
  function CheckSymmetric(w: World, s: State): Run
  {
    var op := Operation(Symmetric);
    if w.factory.Null? then Run(NullFactoryError(op), s) else
    var (x, s1) := CreateNext(w, s);
    var (y, s2) := CreateNext(w, s1);
    if !x.Made? then Run(CreationError(x, op), s2) else
    if !y.Made? then Run(CreationError(y, op), s2) else
    var (xy, s3) := CallEquals(w, s2, x.obj, ObjArgument(y.obj));
    if !xy then Run(NotEquivalentError(op), s3) else
    var (yx, s4) := CallEquals(w, s3, y.obj, ObjArgument(x.obj));
    Run(if yx then Pass else Violated(Symmetric), s4)
  }

  /** Transitive: given `x.equals(y)` and `y.equals(z)`, also `x.equals(z)`. */
  function CheckTransitive(w: World, s: State): Run
  {
    var op := Operation(Transitive);
    if w.factory.Null? then Run(NullFactoryError(op), s) else
    var (x, s1) := CreateNext(w, s);
    var (y, s2) := CreateNext(w, s1);
    var (z, s3) := CreateNext(w, s2);
    if !x.Made? then Run(CreationError(x, op), s3) else
    if !y.Made? then Run(CreationError(y, op), s3) else
    if !z.Made? then Run(CreationError(z, op), s3) else
    CompareTransitive(w, s3, x.obj, y.obj, z.obj)
  }

  /** The comparisons of the transitive law once three objects exist. */
  function CompareTransitive(w: World, s: State, x: Obj, y: Obj, z: Obj): Run
  {
    var op := Operation(Transitive);
    var (xy, s1) := CallEquals(w, s, x, ObjArgument(y));
    if !xy then Run(NotEquivalentError(op), s1) else
    var (yz, s2) := CallEquals(w, s1, y, ObjArgument(z));
    if !yz then Run(NotEquivalentError(op), s2) else
    var (xz, s3) := CallEquals(w, s2, x, ObjArgument(z));
    Run(if xz then Pass else Violated(Transitive), s3)
  }

  /** `n` further `x.equals(y)` calls, each of which must answer `initial`. */
  function RepeatEquals(w: World, s: State, x: Obj, y: Obj, initial: bool, n: nat): Run
    decreases n
  {
    if n == 0 then Run(Pass, s) else
    var (r, s1) := CallEquals(w, s, x, ObjArgument(y));
    if r != initial then Run(Violated(Consistent), s1)
    else RepeatEquals(w, s1, x, y, initial, n - 1)
  }

  /** Consistent: repeated `x.equals(y)` calls all give the first answer. */
  function CheckConsistent(w: World, s: State): Run
  {
    var op := Operation(Consistent);
    if w.factory.Null? then Run(NullFactoryError(op), s) else
    var (x, s1) := CreateNext(w, s);
    var (y, s2) := CreateNext(w, s1);
    if !x.Made? then Run(CreationError(x, op), s2) else
    if !y.Made? then Run(CreationError(y, op), s2) else
    var (initial, s3) := CallEquals(w, s2, x.obj, ObjArgument(y.obj));
    RepeatEquals(w, s3, x.obj, y.obj, initial, ConsistencyRepetitions)
  }

  /** Null: `x.equals(null)` is false. */
  function CheckNullSafe(w: World, s: State): Run
  {
    var op := Operation(NullSafe);
    if w.factory.Null? then Run(NullFactoryError(op), s) else
    var (x, s1) := CreateNext(w, s);
    if !x.Made? then Run(CreationError(x, op), s1) else
    var (r, s2) := CallEquals(w, s1, x.obj, NullArgument);
    Run(if r then Violated(NullSafe) else Pass, s2)
  }

  /** Different type: `x` does not equal an object of an unrelated type. */
  function CheckDifferentType(w: World, s: State): Run
  {
    var op := Operation(DifferentType);
    if w.factory.Null? then Run(NullFactoryError(op), s) else
    var (x, s1) := CreateNext(w, s);
    if !x.Made? then Run(CreationError(x, op), s1) else
    var (r, s2) := CallEquals(w, s1, x.obj, ForeignArgument);
    Run(if r then Violated(DifferentType) else Pass, s2)
  }

  function CheckLaw(law: EqualsLaw, w: World, s: State): Run
  {
    match law
    case Reflexive => CheckReflexive(w, s)
    case Symmetric => CheckSymmetric(w, s)
    case Transitive => CheckTransitive(w, s)
    case Consistent => CheckConsistent(w, s)
    case NullSafe => CheckNullSafe(w, s)
    case DifferentType => CheckDifferentType(w, s)
  }

  /** Runs the laws in order and stops at the first verdict that is not `Pass`. */
  function CheckLaws(laws: seq<EqualsLaw>, w: World, s: State): Run
    decreases |laws|
  {
    if laws == [] then Run(Pass, s) else
    var r := CheckLaw(laws[0], w, s);
    if r.verdict != Pass then r else CheckLaws(laws[1..], w, r.state)
  }

  /** `verifyEqualsMethod(factory)`: the factory check, then all six laws. */
  function CheckEqualsMethod(w: World, s: State): Run
  {
    if w.factory.Null? then Run(NullFactoryError(CombinedOperation), s)
    else CheckLaws(AllEqualsLaws, w, s)
  }

  /** The state in which the i-th law starts when every earlier law passed. */
  function StateBefore(laws: seq<EqualsLaw>, w: World, s: State, i: nat): State
    requires i <= |laws|
    decreases i
  {
    if i == 0 then s else CheckLaw(laws[i - 1], w, StateBefore(laws, w, s, i - 1)).state
  }

  // ---------------------------------------------------------------------------
  // Properties of the checks
  // ---------------------------------------------------------------------------

  /** Every law check rejects a null factory or a null object with an input error. */
  lemma InputCheckedFirst(law: EqualsLaw, w: World, s: State)
    ensures w.factory.Null? ==> CheckLaw(law, w, s).verdict == NullFactoryError(Operation(law))
    ensures w.factory.Ref? && w.factory.get(s.created).ProducedNull? ==> CheckLaw(law, w, s).verdict.InputError?
    ensures w.factory.Ref? && w.factory.get(s.created).CreationThrew? ==> CheckLaw(law, w, s).verdict.ExecutionError?
  {
  }

  /** The law checks that compare two objects reject unequal ones as an input error. */
  lemma UnequalObjectsAreInputErrors(law: EqualsLaw, w: World, s: State)
    requires law == Symmetric || law == Transitive
    requires w.factory.Ref?
    requires Output(w.factory.get, s.created).Made? && Output(w.factory.get, s.created + 1).Made?
    requires law == Transitive ==> Output(w.factory.get, s.created + 2).Made?
    requires !w.equals(Output(w.factory.get, s.created).obj,
                       ObjArgument(Output(w.factory.get, s.created + 1).obj), s.equalsCalls)
    ensures CheckLaw(law, w, s).verdict.InputError?
  {
  }

  /** The combined check rejects a null factory, and a factory whose first output is null, before any law. */
  lemma CombinedInputCheckedFirst(w: World, s: State)
    ensures w.factory.Null? ==> CheckEqualsMethod(w, s).verdict == NullFactoryError(CombinedOperation)
    ensures w.factory.Ref? && w.factory.get(s.created).ProducedNull? ==> CheckEqualsMethod(w, s).verdict.InputError?
    ensures w.factory.Ref? && w.factory.get(s.created).CreationThrew? ==> CheckEqualsMethod(w, s).verdict.ExecutionError?
  {
    if w.factory.Ref? {
      InputCheckedFirst(Reflexive, w, s);
    }
  }

  /** Reflexive fails exactly when `x.equals(x)` is false. */
  lemma ReflexiveDecides(w: World, s: State)
    requires w.factory.Ref? && Output(w.factory.get, s.created).Made?
    ensures var x := Output(w.factory.get, s.created).obj;
      && (CheckReflexive(w, s).verdict == Violated(Reflexive) <==> !w.equals(x, ObjArgument(x), s.equalsCalls))
      && (CheckReflexive(w, s).verdict == Pass <==> w.equals(x, ObjArgument(x), s.equalsCalls))
  {
  }

  /** Given equal objects, symmetric fails exactly when `y.equals(x)` disagrees with `x.equals(y)`. */
  lemma SymmetricDecides(w: World, s: State)
    requires w.factory.Ref? && Output(w.factory.get, s.created).Made? && Output(w.factory.get, s.created + 1).Made?
    ensures var x, y := Output(w.factory.get, s.created).obj, Output(w.factory.get, s.created + 1).obj;
      var k := s.equalsCalls;
      && (CheckSymmetric(w, s).verdict == Violated(Symmetric) <==>
            w.equals(x, ObjArgument(y), k) && !w.equals(y, ObjArgument(x), k + 1))
      && (CheckSymmetric(w, s).verdict == Pass <==>
            w.equals(x, ObjArgument(y), k) && w.equals(y, ObjArgument(x), k + 1))
  {
  }

  /** Transitive fails exactly when `x` equals `y` and `y` equals `z` but `x` does not equal `z`. */
  lemma TransitiveDecides(w: World, s: State)
    requires w.factory.Ref?
    requires Output(w.factory.get, s.created).Made? && Output(w.factory.get, s.created + 1).Made?
    requires Output(w.factory.get, s.created + 2).Made?
    ensures var x, y, z := Output(w.factory.get, s.created).obj, Output(w.factory.get, s.created + 1).obj,
                           Output(w.factory.get, s.created + 2).obj;
      var k := s.equalsCalls;
      CheckTransitive(w, s).verdict == Violated(Transitive) <==>
        w.equals(x, ObjArgument(y), k) && w.equals(y, ObjArgument(z), k + 1) && !w.equals(x, ObjArgument(z), k + 2)
  {
  }

  /** The null law fails exactly when `x.equals(null)` is true, and the different-type law exactly when `x` equals a foreign object. */
  lemma NullAndDifferentTypeDecide(w: World, s: State)
    requires w.factory.Ref? && Output(w.factory.get, s.created).Made?
    ensures var x := Output(w.factory.get, s.created).obj;
      && (CheckNullSafe(w, s).verdict == Violated(NullSafe) <==> w.equals(x, NullArgument, s.equalsCalls))
      && (CheckNullSafe(w, s).verdict == Pass <==> !w.equals(x, NullArgument, s.equalsCalls))
      && (CheckDifferentType(w, s).verdict == Violated(DifferentType) <==> w.equals(x, ForeignArgument, s.equalsCalls))
      && (CheckDifferentType(w, s).verdict == Pass <==> !w.equals(x, ForeignArgument, s.equalsCalls))
  {
  }

  /** The consistency repetitions pass exactly when every call answers as the first one did. */
  lemma {:induction false} RepeatEqualsPassIff(w: World, s: State, x: Obj, y: Obj, initial: bool, n: nat)
    ensures RepeatEquals(w, s, x, y, initial, n).verdict == Pass <==>
      forall k :: s.equalsCalls <= k < s.equalsCalls + n ==> w.equals(x, ObjArgument(y), k) == initial
    ensures RepeatEquals(w, s, x, y, initial, n).verdict != Pass ==>
      RepeatEquals(w, s, x, y, initial, n).verdict == Violated(Consistent)
    decreases n
  {
    if n > 0 {
      RepeatEqualsPassIff(w, s.(equalsCalls := s.equalsCalls + 1), x, y, initial, n - 1);
    }
  }

  /** Shifting the starting state past the first law shifts every later starting state. */
  lemma {:induction false} StateBeforeTail(laws: seq<EqualsLaw>, w: World, s: State, i: nat)
    requires 0 < |laws| && i < |laws|
    ensures StateBefore(laws, w, s, i + 1) == StateBefore(laws[1..], w, CheckLaw(laws[0], w, s).state, i)
    decreases i
  {
    if i > 0 {
      StateBeforeTail(laws, w, s, i - 1);
    }
  }

  /**
   * The combined check passes exactly when every law passes in the state the
   * earlier laws leave; when it fails it reports the verdict of the first law
   * that did not pass.
   */
  lemma {:induction false} CheckLawsPassIff(laws: seq<EqualsLaw>, w: World, s: State)
    ensures CheckLaws(laws, w, s).verdict == Pass <==>
      forall i :: 0 <= i < |laws| ==> CheckLaw(laws[i], w, StateBefore(laws, w, s, i)).verdict == Pass
    ensures CheckLaws(laws, w, s).verdict != Pass ==>
      exists i :: 0 <= i < |laws| && CheckLaws(laws, w, s).verdict == CheckLaw(laws[i], w, StateBefore(laws, w, s, i)).verdict
        && forall j :: 0 <= j < i ==> CheckLaw(laws[j], w, StateBefore(laws, w, s, j)).verdict == Pass
    decreases |laws|
  {
    if laws != [] {
      var r := CheckLaw(laws[0], w, s);
      assert StateBefore(laws, w, s, 0) == s;
      if r.verdict == Pass {
        CheckLawsPassIff(laws[1..], w, r.state);
        forall i | 0 <= i < |laws| - 1
          ensures StateBefore(laws, w, s, i + 1) == StateBefore(laws[1..], w, r.state, i)
        {
          StateBeforeTail(laws, w, s, i);
        }
        if CheckLaws(laws, w, s).verdict != Pass {
          var j :| 0 <= j < |laws| - 1 && CheckLaws(laws[1..], w, r.state).verdict ==
            CheckLaw(laws[1..][j], w, StateBefore(laws[1..], w, r.state, j)).verdict
            && forall k :: 0 <= k < j ==> CheckLaw(laws[1..][k], w, StateBefore(laws[1..], w, r.state, k)).verdict == Pass;
          assert laws[j + 1] == laws[1..][j];
          forall k | 0 <= k < j + 1
            ensures CheckLaw(laws[k], w, StateBefore(laws, w, s, k)).verdict == Pass
          {
            if k > 0 {
              assert laws[k] == laws[1..][k - 1];
            }
          }
        } else {
          forall i | 0 <= i < |laws|
            ensures CheckLaw(laws[i], w, StateBefore(laws, w, s, i)).verdict == Pass
          {
            if i > 0 {
              assert laws[i] == laws[1..][i - 1];
            }
          }
        }
      }
    }
  }

  /** `equals` between beans compares their class and property values. */
  ghost predicate ComparesValues(w: World)
  {
    forall x, y, n :: w.equals(x, ObjArgument(y), n) == (x.beanClass == y.beanClass && x.properties == y.properties)
  }

  /** `equals` compares values and rejects `null` and objects of other types. */
  ghost predicate ValueEquality(w: World)
  {
    && ComparesValues(w)
    && (forall x, n :: !w.equals(x, NullArgument, n))
    && (forall x, n :: !w.equals(x, ForeignArgument, n))
  }

  /** Every `create()` returns an object of the same class with the same values. */
  ghost predicate EquivalentOutputs(p: Producer)
  {
    p(0).Produced? && forall k :: p(k) == p(0)
  }

  /** The four laws between beans hold for a value-comparing `equals` and a well-formed factory. */
  lemma ComparingBeanPassesBeanLaws(law: EqualsLaw, w: World, s: State)
    requires law in {Reflexive, Symmetric, Transitive, Consistent}
    requires ComparesValues(w)
    requires w.factory.Ref? && EquivalentOutputs(w.factory.get)
    ensures CheckLaw(law, w, s).verdict == Pass
  {
    var p := w.factory.get;
    assert p(s.created) == p(0) && p(s.created + 1) == p(0) && p(s.created + 2) == p(0);
    if law == Consistent {
      var x, y := Output(p, s.created).obj, Output(p, s.created + 1).obj;
      RepeatEqualsPassIff(w, s.(created := s.created + 2, equalsCalls := s.equalsCalls + 1), x, y, true,
        ConsistencyRepetitions);
    }
  }

  /** A well-formed factory for a bean whose `equals` compares values passes every law. */
  lemma CorrectBeanPassesEveryLaw(law: EqualsLaw, w: World, s: State)
    requires ValueEquality(w)
    requires w.factory.Ref? && EquivalentOutputs(w.factory.get)
    ensures CheckLaw(law, w, s).verdict == Pass
  {
    if law in {Reflexive, Symmetric, Transitive, Consistent} {
      ComparingBeanPassesBeanLaws(law, w, s);
    } else {
      assert w.factory.get(s.created) == w.factory.get(0);
    }
  }

  /** A well-formed factory for a bean whose `equals` compares values passes the combined check. */
  lemma CorrectBeanPassesEqualsMethod(w: World, s: State)
    requires ValueEquality(w)
    requires w.factory.Ref? && EquivalentOutputs(w.factory.get)
    ensures CheckEqualsMethod(w, s).verdict == Pass
  {
    forall i | 0 <= i < |AllEqualsLaws|
      ensures CheckLaw(AllEqualsLaws[i], w, StateBefore(AllEqualsLaws, w, s, i)).verdict == Pass
    {
      CorrectBeanPassesEveryLaw(AllEqualsLaws[i], w, StateBefore(AllEqualsLaws, w, s, i));
    }
    CheckLawsPassIff(AllEqualsLaws, w, s);
  }

  /**
   * A bean that breaks only the null law (its `equals` accepts `null`)
   * fails the combined check with exactly that law.
   */
  lemma NullAcceptingBeanFailsNullLaw(w: World, s: State)
    requires ComparesValues(w)
    requires forall x, n :: w.equals(x, NullArgument, n)
    requires w.factory.Ref? && EquivalentOutputs(w.factory.get)
    ensures CheckEqualsMethod(w, s).verdict == Violated(NullSafe)
  {
    var laws := AllEqualsLaws;
    forall i | 0 <= i < 4
      ensures CheckLaw(laws[i], w, StateBefore(laws, w, s, i)).verdict == Pass
    {
      ComparingBeanPassesBeanLaws(laws[i], w, StateBefore(laws, w, s, i));
    }
    ThroughPassingPrefix(laws, w, s, 4);
    var t := StateBefore(laws, w, s, 4);
    assert w.factory.get(t.created) == w.factory.get(0);
    assert laws[4..] == [NullSafe, DifferentType];
  }

  /**
   * A bean that breaks only the different-type law fails the combined check
   * with exactly that law.
   */
  lemma DifferentTypeAcceptingBeanFailsDifferentTypeLaw(w: World, s: State)
    requires ComparesValues(w)
    requires forall x, n :: !w.equals(x, NullArgument, n)
    requires forall x, n :: w.equals(x, ForeignArgument, n)
    requires w.factory.Ref? && EquivalentOutputs(w.factory.get)
    ensures CheckEqualsMethod(w, s).verdict == Violated(DifferentType)
  {
    var laws := AllEqualsLaws;
    forall i | 0 <= i < 5
      ensures CheckLaw(laws[i], w, StateBefore(laws, w, s, i)).verdict == Pass
    {
      var t := StateBefore(laws, w, s, i);
      if i < 4 {
        ComparingBeanPassesBeanLaws(laws[i], w, t);
      } else {
        assert w.factory.get(t.created) == w.factory.get(0);
      }
    }
    ThroughPassingPrefix(laws, w, s, 5);
    var t := StateBefore(laws, w, s, 5);
    assert w.factory.get(t.created) == w.factory.get(0);
    assert laws[5..] == [DifferentType];
  }

  /** When the first k laws pass, the combined run is the run of the rest from the state they leave. */
  lemma {:induction false} ThroughPassingPrefix(laws: seq<EqualsLaw>, w: World, s: State, k: nat)
    requires k <= |laws|
    requires forall i :: 0 <= i < k ==> CheckLaw(laws[i], w, StateBefore(laws, w, s, i)).verdict == Pass
    ensures CheckLaws(laws, w, s) == CheckLaws(laws[k..], w, StateBefore(laws, w, s, k))
    decreases k
  {
    if k > 0 {
      var r := CheckLaw(laws[0], w, s);
      assert StateBefore(laws, w, s, 0) == s;
      forall i | 0 <= i < k
        ensures StateBefore(laws, w, s, i) == (if i == 0 then s else StateBefore(laws[1..], w, r.state, i - 1))
      {
        if i > 0 { StateBeforeTail(laws, w, s, i - 1); }
      }
      forall i | 0 <= i < k - 1
        ensures CheckLaw(laws[1..][i], w, StateBefore(laws[1..], w, r.state, i)).verdict == Pass
      {
        assert laws[1..][i] == laws[i + 1];
      }
      ThroughPassingPrefix(laws[1..], w, r.state, k - 1);
      StateBeforeTail(laws, w, s, k - 1);
      assert laws[1..][k - 1..] == laws[k..];
    }
  }
}
