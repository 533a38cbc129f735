/**
  Builders: the named recipes a container is assembled from, and the helper
  that concatenates several builder lists into one registry.

  A construction function cannot be inspected by the engine, so it is
  described as data: the dependency requests it makes through its provider,
  in order, and a pure function that turns what those requests obtained into
  a value or an error.
*/
module Builders {

  type Name = string

  /** Service values; the scenarios of the repository compute with integers. */
  type Value = int

  datatype BuilderOptions = BuilderOptions(isShared: bool)

  /** A dependency request made through the provider. */
  datatype Request =
    | Single(name: Name)  // provider.GetService(name)
    | Multi(name: Name)   // provider.GetServices(name)

  /**
    What the container hands back, and what its cache holds: a value built by
    single-binding resolution, or the collection built by multi-binding
    resolution.
  */
  datatype Entry = One(value: Value) | Many(values: seq<Value>)

  /** What a construction function returns: a value, or a non-nil error. */
  datatype FnOutcome = Built(value: Value) | Errored

  /** A construction function: its requests and how it combines the answers. */
  datatype BuilderFn = BuilderFn(requests: seq<Request>, combine: seq<Entry> -> FnOutcome)

  /**
    A builder. Its fields are the accessors of the source: `name` is
    CommandName(), `options` is Options(), and Build(provider) runs `fn`
    against the container (Resolution.Build).
  */
  datatype Builder = Builder(name: Name, fn: BuilderFn, options: BuilderOptions)

  /** A builder with the default options: shared. */
  function NewBuilder(name: Name, fn: BuilderFn): (b: Builder)
    ensures b.name == name && b.fn == fn && b.options.isShared
  {
    Builder(name, fn, BuilderOptions(isShared := true))
  }

  /** A builder with the options given, kept as they are. */
  function NewBuilderWithOptions(name: Name, fn: BuilderFn, options: BuilderOptions): (b: Builder)
    ensures b.name == name && b.fn == fn && b.options == options
  {
    Builder(name, fn, options)
  }

  /** The lists, one after the other, in order. */
  function Flatten(lists: seq<seq<Builder>>): seq<Builder>
  {
    if |lists| == 0 then [] else Flatten(lists[..|lists| - 1]) + lists[|lists| - 1]
  }

  /** The sum of the lengths of the lists. */
  function TotalLength(lists: seq<seq<Builder>>): nat
  {
    if |lists| == 0 then 0 else TotalLength(lists[..|lists| - 1]) + |lists[|lists| - 1]|
  }

  lemma {:induction false} FlattenLength(lists: seq<seq<Builder>>)
    ensures |Flatten(lists)| == TotalLength(lists)
  {
    if |lists| > 0 {
      FlattenLength(lists[..|lists| - 1]);
    }
  }

  /** Combining is associative: combining a + b is combining a, then b. */
  lemma {:induction false} FlattenAppend(a: seq<seq<Builder>>, b: seq<seq<Builder>>)
    ensures Flatten(a + b) == Flatten(a) + Flatten(b)
  {
    if |b| == 0 {
      assert a + b == a;
    } else {
      assert (a + b)[..|a + b| - 1] == a + b[..|b| - 1];
      FlattenAppend(a, b[..|b| - 1]);
    }
  }

  /**
    CombineBuilders: counts the builders, allocates a slice of that size and
    copies every list into it at an increasing index.
  */
  method CombineBuilders(lists: seq<seq<Builder>>) returns (combined: seq<Builder>)
    ensures combined == Flatten(lists)
    ensures |combined| == TotalLength(lists)
  {
    var count := 0;
    for j := 0 to |lists|
      invariant count == TotalLength(lists[..j])
    {
      assert lists[..j + 1][..j] == lists[..j];
      count := count + |lists[j]|;
    }
    assert lists[..|lists|] == lists;
    FlattenLength(lists);

    // the slots are zero-filled in the source; every one is overwritten below
    var blank := Builder("", BuilderFn([], _ => Errored), BuilderOptions(false));
    var slots := new Builder[count](_ => blank);
    var index := 0;
    for j := 0 to |lists|
      invariant index == |Flatten(lists[..j])| <= count
      invariant slots[..index] == Flatten(lists[..j])
    {
      assert lists[..j + 1][..j] == lists[..j];
      assert Flatten(lists[..j + 1]) == Flatten(lists[..j]) + lists[j];
      FlattenAppend(lists[..j + 1], lists[j + 1..]);
      assert lists[..j + 1] + lists[j + 1..] == lists;
      for k := 0 to |lists[j]|
        invariant index == |Flatten(lists[..j])| + k
        invariant slots[..index] == Flatten(lists[..j]) + lists[j][..k]
      {
        slots[index] := lists[j][k];
        assert lists[j][..k + 1] == lists[j][..k] + [lists[j][k]];
        index := index + 1;
      }
      assert lists[j][..|lists[j]|] == lists[j];
    }
    combined := slots[..];
    assert slots[..] == slots[..index];
  }
}
