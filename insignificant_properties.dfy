/**
 * The check that every property named insignificant exists on the bean: the
 * unknown names, in the order they were given, are listed comma-separated in
 * one `IllegalArgumentException` message.
 */
module InsignificantProperties {
  import opened Outcomes
  import opened Beans
  import ValidationHelper

  /** The names not among `known`, in the order they were given. */
  function UnknownNames(names: seq<string>, known: set<string>): (r: seq<string>)
    ensures forall n :: n in r <==> n in names && n !in known
    ensures |r| <= |names|
    decreases |names|
  {
    if names == [] then []
    else (if names[0] in known then [] else [names[0]]) + UnknownNames(names[1..], known)
  }

  /** The names separated by commas, with nothing around them. */
  function Join(names: seq<string>): string
    decreases |names|
  {
    if names == [] then ""
    else if |names| == 1 then names[0]
    else names[0] + "," + Join(names[1..])
  }

  /** The position of the first comma. */
  function FirstComma(s: string): (i: nat)
    requires ',' in s
    ensures i < |s| && s[i] == ',' && ',' !in s[..i]
    decreases |s|
  {
    if s[0] == ',' then 0
    else
      var j := FirstComma(s[1..]);
      assert s[..j + 1] == [s[0]] + s[1..][..j];
      j + 1
  }

  /** The comma-separated pieces of a string; a string without commas is one piece. */
  function Split(s: string): (r: seq<string>)
    ensures |r| > 0
    decreases |s|
  {
    if ',' in s then
      var i := FirstComma(s);
      [s[..i]] + Split(s[i + 1..])
    else [s]
  }

  const UnknownPropertiesPrefix: string := "Insignificant properties ["

  function UnknownPropertiesSuffix(className: string): string
  {
    "] do not exist on " + className + "."
  }

  /** The message naming every unknown property of the class. */
  function UnknownPropertiesMessage(unknown: seq<string>, className: string): string
  {
    UnknownPropertiesPrefix + Join(unknown) + UnknownPropertiesSuffix(className)
  }

  /** Reads the property names back out of an unknown-properties message about `className`. */
  function NamesInUnknownPropertiesMessage(message: string, className: string): (r: Nullable<seq<string>>)
    ensures r.Ref? ==> UnknownPropertiesMessage(r.get, className) == message
  {
    var prefix, suffix := UnknownPropertiesPrefix, UnknownPropertiesSuffix(className);
    if |prefix| + |suffix| <= |message| && message[..|prefix|] == prefix && message[|message| - |suffix|..] == suffix
    then
      var body := message[|prefix|..|message| - |suffix|];
      JoinSplit(body);
      assert message == prefix + body + suffix;
      Ref(Split(body))
    else Null
  }

  /**
   * `ensureInsignificantPropertiesExist(beanInformation, names)`: passes
   * exactly when every name is a property of the bean; otherwise the message
   * lists the unknown names.
   */
  function EnsureInsignificantPropertiesExist(info: BeanInformation, names: seq<string>): (r: ValidationHelper.Check)
    ensures r.Ok? <==> forall i :: 0 <= i < |names| ==> names[i] in info.PropertyNames()
    ensures r.IllegalArgument? ==>
      var unknown := UnknownNames(names, info.PropertyNames());
      unknown != [] && r.message == UnknownPropertiesMessage(unknown, info.beanClass)
  {
    var unknown := UnknownNames(names, info.PropertyNames());
    if unknown == [] then
      assert forall i :: 0 <= i < |names| ==> names[i] in names;
      ValidationHelper.Ok
    else
      assert unknown[0] in unknown;
      ValidationHelper.IllegalArgument(UnknownPropertiesMessage(unknown, info.beanClass))
  }

  // ---------------------------------------------------------------------------
  // Properties
  // ---------------------------------------------------------------------------

  /** Filtering a concatenation filters each part: the unknown names keep their input order. */
  lemma {:induction false} UnknownNamesKeepOrder(a: seq<string>, b: seq<string>, known: set<string>)
    ensures UnknownNames(a + b, known) == UnknownNames(a, known) + UnknownNames(b, known)
    decreases |a|
  {
    if a != [] {
      assert (a + b)[0] == a[0] && (a + b)[1..] == a[1..] + b;
      UnknownNamesKeepOrder(a[1..], b, known);
      var head := if a[0] in known then [] else [a[0]];
      calc {
        UnknownNames(a + b, known);
        head + UnknownNames(a[1..] + b, known);
        head + (UnknownNames(a[1..], known) + UnknownNames(b, known));
        (head + UnknownNames(a[1..], known)) + UnknownNames(b, known);
        UnknownNames(a, known) + UnknownNames(b, known);
      }
    } else {
      assert a + b == b;
    }
  }

  /** A string without commas before the separator puts the first comma right after it. */
  lemma FirstCommaAfter(a: string, b: string)
    requires ',' !in a
    ensures ',' in a + "," + b && FirstComma(a + "," + b) == |a|
  {
    var s := a + "," + b;
    assert s[|a|] == ',';
  }

  /** Splitting and joining again gives the string back. */
  lemma {:induction false} JoinSplit(s: string)
    ensures Join(Split(s)) == s
    decreases |s|
  {
    if ',' in s {
      var i := FirstComma(s);
      JoinSplit(s[i + 1..]);
      var rest := Split(s[i + 1..]);
      assert Split(s) == [s[..i]] + rest;
      assert (Split(s))[1..] == rest;
      assert s == s[..i] + "," + s[i + 1..];
    }
  }

  /** Joining names that contain no comma and splitting again gives the names back. */
  lemma {:induction false} SplitJoin(names: seq<string>)
    requires |names| > 0
    requires forall i :: 0 <= i < |names| ==> ',' !in names[i]
    ensures Split(Join(names)) == names
    decreases |names|
  {
    if |names| > 1 {
      var a, rest := names[0], Join(names[1..]);
      var s := a + "," + rest;
      FirstCommaAfter(a, rest);
      assert s[..|a|] == a && s[|a| + 1..] == rest;
      SplitJoin(names[1..]);
    }
  }

  /** The names listed in an unknown-properties message can be read back from it. */
  lemma UnknownPropertiesMessageRoundTrip(unknown: seq<string>, className: string)
    requires |unknown| > 0
    requires forall i :: 0 <= i < |unknown| ==> ',' !in unknown[i]
    ensures NamesInUnknownPropertiesMessage(UnknownPropertiesMessage(unknown, className), className) == Ref(unknown)
  {
    var prefix, suffix := UnknownPropertiesPrefix, UnknownPropertiesSuffix(className);
    var message := UnknownPropertiesMessage(unknown, className);
    assert message == prefix + Join(unknown) + suffix;
    assert message[..|prefix|] == prefix;
    assert message[|message| - |suffix|..] == suffix;
    assert message[|prefix|..|message| - |suffix|] == Join(unknown);
    SplitJoin(unknown);
  }

  /**
   * The rejected call lists every unknown name and no known one: a
   * recognised name never appears in the message's list.
   */
  lemma RejectionListsExactlyTheUnknownNames(info: BeanInformation, names: seq<string>)
    requires EnsureInsignificantPropertiesExist(info, names).IllegalArgument?
    requires forall i :: 0 <= i < |names| ==> ',' !in names[i]
    ensures var listed := NamesInUnknownPropertiesMessage(EnsureInsignificantPropertiesExist(info, names).message, info.beanClass);
      listed.Ref? && forall n :: n in listed.get <==> n in names && n !in info.PropertyNames()
  {
    var unknown := UnknownNames(names, info.PropertyNames());
    forall i | 0 <= i < |unknown| ensures ',' !in unknown[i] {
      assert unknown[i] in unknown;
    }
    UnknownPropertiesMessageRoundTrip(unknown, info.beanClass);
  }
}
