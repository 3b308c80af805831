/**
 * The input-validation rule behind every "illegal argument" error: a value
 * that must exist is checked for `null`, and a missing one is reported with
 * one of two exact message formats. Both checks are static and stateless.
 */
module ValidationHelper {
  import opened Outcomes

  /** The result of a check: normal return, or an `IllegalArgumentException`. */
  datatype Check = Ok | IllegalArgument(message: string)

  const ObjectPrefix: string := "Object ["
  const ObjectSuffix: string := "] must be provided."

  /** The message of the two-argument check. */
  function MissingObjectMessage(name: string): string
  {
    ObjectPrefix + name + ObjectSuffix
  }

  /** The message of the three-argument check. */
  function MissingArgumentMessage(name: string, operation: string): string
  {
    "Cannot " + operation + " with null " + name + "."
  }

  /** `ensureExists(name, value)`: fails exactly when `value` is null. */
  function EnsureExists<T>(name: string, value: Nullable<T>): (r: Check)
    ensures r.IllegalArgument? <==> value.Null?
    ensures r.IllegalArgument? ==> r.message == MissingObjectMessage(name)
  {
    if value.Null? then IllegalArgument(MissingObjectMessage(name)) else Ok
  }

  /** `ensureExists(name, operation, value)`: fails exactly when `value` is null. */
  function EnsureExistsFor<T>(name: string, operation: string, value: Nullable<T>): (r: Check)
    ensures r.IllegalArgument? <==> value.Null?
    ensures r.IllegalArgument? ==> r.message == MissingArgumentMessage(name, operation)
  {
    if value.Null? then IllegalArgument(MissingArgumentMessage(name, operation)) else Ok
  }

  /** Reads back the parameter name from a two-argument message, if it has that shape. */
  function NameInObjectMessage(message: string): (r: Nullable<string>)
    ensures r.Ref? ==> MissingObjectMessage(r.get) == message
  {
    var p, q := |ObjectPrefix|, |ObjectSuffix|;
    if |message| >= p + q && message[..p] == ObjectPrefix && message[|message| - q..] == ObjectSuffix
    then
      var name := message[p..|message| - q];
      assert message == message[..p] + name + message[|message| - q..];
      Ref(name)
    else Null
  }

  /** Reads back the parameter name from a three-argument message for a known operation. */
  function NameInArgumentMessage(message: string, operation: string): (r: Nullable<string>)
    ensures r.Ref? ==> MissingArgumentMessage(r.get, operation) == message
  {
    var head := "Cannot " + operation + " with null ";
    if |message| >= |head| + 1 && message[..|head|] == head && message[|message| - 1] == '.'
    then
      var name := message[|head|..|message| - 1];
      assert message == message[..|head|] + name + message[|message| - 1..];
      Ref(name)
    else Null
  }

  /** The two-argument message names its parameter: reading the name back gives it. */
  lemma ObjectMessageRoundTrip(name: string)
    ensures NameInObjectMessage(MissingObjectMessage(name)) == Ref(name)
  {
    var m := MissingObjectMessage(name);
    var p, q := |ObjectPrefix|, |ObjectSuffix|;
    assert m[..p] == ObjectPrefix;
    assert m[|m| - q..] == ObjectSuffix;
    assert m[p..|m| - q] == name;
  }

  /** The three-argument message names its parameter: reading the name back gives it. */
  lemma ArgumentMessageRoundTrip(name: string, operation: string)
    ensures NameInArgumentMessage(MissingArgumentMessage(name, operation), operation) == Ref(name)
  {
    var head := "Cannot " + operation + " with null ";
    var m := MissingArgumentMessage(name, operation);
    assert m == head + name + ".";
    assert m[..|head|] == head;
    assert m[|head|..|m| - 1] == name;
  }

  /** Different parameter names give different messages, for either check. */
  lemma MessagesDistinguishNames(a: string, b: string, operation: string)
    requires a != b
    ensures MissingObjectMessage(a) != MissingObjectMessage(b)
    ensures MissingArgumentMessage(a, operation) != MissingArgumentMessage(b, operation)
  {
    ObjectMessageRoundTrip(a);
    ObjectMessageRoundTrip(b);
    ArgumentMessageRoundTrip(a, operation);
    ArgumentMessageRoundTrip(b, operation);
  }
}
