/**
 * The random value sampler: `findFrom` picks an element of a list or a set
 * at an index drawn from the random value generator, or yields an empty
 * optional for an empty collection; `getFrom` does the same but rejects an
 * empty collection with an `IllegalStateException`.
 */
module RandomValues {

  /** `java.util.Optional`. */
  datatype Optional<T> = Empty | Present(value: T)

  /** The outcome of `getFrom`: an element, or the `IllegalStateException` it throws. */
  datatype Fetched<T> = Got(value: T) | IllegalState(message: string)

  const EmptyCollectionMessage: string := "Cannot get a random value from an empty collection."

  /**
   * The element a draw selects: the draw reduced to an index below the
   * collection's size, or nothing for an empty collection.
   */
  function Sample<T>(xs: seq<T>, draw: int): (r: Optional<T>)
    ensures r.Empty? <==> |xs| == 0
    ensures r.Present? ==> r.value in xs
  {
    if |xs| == 0 then Empty else Present(xs[draw % |xs|])
  }

  /** Every element can be drawn: the draw equal to its index selects it. */
  lemma EveryElementReachable<T>(xs: seq<T>)
    ensures forall i :: 0 <= i < |xs| ==> Sample(xs, i) == Present(xs[i])
  {
    forall i | 0 <= i < |xs| ensures Sample(xs, i) == Present(xs[i]) {
      var n := |xs|;
      assert i == 0 * n + i;
      assert i % n == i;
    }
  }

  /** `getFrom` in terms of `findFrom`: present elements are returned, absence is an illegal state. */
  function GetFrom<T>(found: Optional<T>): (r: Fetched<T>)
    ensures r.IllegalState? <==> found.Empty?
    ensures r.Got? ==> found == Present(r.value)
  {
    match found
    case Empty => IllegalState(EmptyCollectionMessage)
    case Present(v) => Got(v)
  }

  /**
   * The order in which a set's iterator yields its elements: each element
   * exactly once. Which order that is stays unspecified, as for a hash set.
   */
  method IterationOrder<T(==)>(s: set<T>) returns (xs: seq<T>)
    ensures |xs| == |s|
    ensures forall x :: x in xs <==> x in s
    ensures forall i, j :: 0 <= i < j < |xs| ==> xs[i] != xs[j]
  {
    xs := [];
    var rest := s;
    while rest != {}
      invariant rest <= s
      invariant forall x :: x in xs <==> x in s && x !in rest
      invariant |xs| + |rest| == |s|
      invariant forall i, j :: 0 <= i < j < |xs| ==> xs[i] != xs[j]
      decreases |rest|
    {
      var x :| x in rest;
      xs := xs + [x];
      rest := rest - {x};
    }
  }

  /** The random value generator: a stream of integers read from a moving position. */
  class RandomValueGenerator {
    const stream: nat -> int
    var position: nat

    constructor (stream: nat -> int)
      ensures this.stream == stream && position == 0
    {
      this.stream := stream;
      position := 0;
    }

    /** `nextInt(bound)`: a value in `[0, bound)`. */
    method NextInt(bound: nat) returns (i: nat)
      requires bound > 0
      modifies this
      ensures i < bound
      ensures i == stream(old(position)) % bound
      ensures position == old(position) + 1
    {
      i := stream(position) % bound;
      position := position + 1;
    }
  }

  class RandomValueSampler {
    const generator: RandomValueGenerator

    constructor (generator: RandomValueGenerator)
      ensures this.generator == generator
    {
      this.generator := generator;
    }

    /** `findFrom(list)`: an empty list yields nothing and draws nothing. */
    method FindFromList<T>(xs: seq<T>) returns (r: Optional<T>)
      modifies generator
      ensures r == Sample(xs, generator.stream(old(generator.position)))
      ensures generator.position == old(generator.position) + (if |xs| == 0 then 0 else 1)
    {
      if |xs| == 0 {
        return Empty;
      }
      var index := generator.NextInt(|xs|);
      r := Present(xs[index]);
    }

    /** `findFrom(set)`: the element at the drawn position of the set's iteration order. */
    method FindFromSet<T(==)>(s: set<T>) returns (r: Optional<T>)
      modifies generator
      ensures r.Empty? <==> s == {}
      ensures r.Present? ==> r.value in s
      ensures generator.position == old(generator.position) + (if s == {} then 0 else 1)
    {
      var xs := IterationOrder(s);
      r := FindFromList(xs);
    }

    /** `getFrom(list)`. */
    method GetFromList<T>(xs: seq<T>) returns (r: Fetched<T>)
      modifies generator
      ensures r.IllegalState? <==> |xs| == 0
      ensures r.Got? ==> r.value in xs
      ensures r == GetFrom(Sample(xs, generator.stream(old(generator.position))))
      ensures generator.position == old(generator.position) + (if |xs| == 0 then 0 else 1)
    {
      var found := FindFromList(xs);
      r := GetFrom(found);
    }

    /** `getFrom(set)`. */
    method GetFromSet<T(==)>(s: set<T>) returns (r: Fetched<T>)
      modifies generator
      ensures r.IllegalState? <==> s == {}
      ensures r.Got? ==> r.value in s
      ensures generator.position == old(generator.position) + (if s == {} then 0 else 1)
    {
      var found := FindFromSet(s);
      r := GetFrom(found);
    }
  }

  /**
   * Ten `findFrom` calls on the integers 0 to 99 each yield a value in
   * that range, and `findFrom` on an empty list yields nothing.
   */
  method SampleTenFromHundred(sampler: RandomValueSampler) returns (values: seq<int>, none: Optional<int>)
    modifies sampler.generator
    ensures |values| == 10 && forall i :: 0 <= i < |values| ==> 0 <= values[i] < 100
    ensures none.Empty?
    ensures sampler.generator.position == old(sampler.generator.position) + 10
  {
    var list := seq(100, i => i);
    values := [];
    while |values| < 10
      invariant |values| <= 10
      invariant forall i :: 0 <= i < |values| ==> 0 <= values[i] < 100
      invariant sampler.generator.position == old(sampler.generator.position) + |values|
    {
      var found := sampler.FindFromList(list);
      values := values + [found.value];
    }
    none := sampler.FindFromList([]);
  }
}
