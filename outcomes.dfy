/**
 * Values shared by every part of the model: Java references that may be null,
 * property values, the objects the verifiers observe, and the three disjoint
 * kinds of outcome a verification can end in.
 */
module Outcomes {

  /** A Java reference that may be `null`. */
  datatype Nullable<+T> = Null | Ref(get: T)

  /** A property value as the verifiers observe it (a Java object or `null`). */
  datatype Value = NullValue | Text(s: string) | Number(n: int) | Flag(b: bool)

  /** The six laws of `Object.equals`. */
  datatype EqualsLaw = Reflexive | Symmetric | Transitive | Consistent | NullSafe | DifferentType

  /** The two laws of `Object.hashCode`. */
  datatype HashCodeLaw = EqualObjectsEqualHashes | HashConsistent

  /** What a law violation names: the law, or the property and the expected equality. */
  datatype Violation =
    | EqualsViolation(law: EqualsLaw)
    | HashCodeViolation(hashLaw: HashCodeLaw)
    | SignificanceViolation(property: string, expectedEqual: bool)

  /**
   * The outcome of a verification. An input error is the caller's misuse
   * (`IllegalArgumentException`), a law violation is a detected contract
   * failure (`AssertionError`), an execution error is a fixture or
   * environment failure (`BeanTestException`, `ObjectCreationException`).
   */
  datatype Verdict =
    | Pass
    | InputError(message: string)
    | LawViolation(violation: Violation)
    | ExecutionError(detail: string)
}
