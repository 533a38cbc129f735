/**
  The build context: the live container. Its registry is fixed when it is
  assembled; its cache and its dependency stack change as services are
  resolved. Every resolving method is proved to do what the matching
  function of Resolution says, and to leave the stack as it found it.
*/
module Container {
  import opened Builders
  import opened Registry
  import opened Resolution

  class BuildContext {
    const builders: BuilderMap
    var built: map<Name, Entry>
    /** The names whose construction has started and not returned. */
    var buildStack: seq<Name>
    /** How often each construction function has been invoked. */
    ghost var runs: multiset<BuilderId>

    /** The stack never holds a name twice. */
    ghost predicate Valid()
      reads this
    {
      forall i, j :: 0 <= i < j < |buildStack| ==> buildStack[i] != buildStack[j]
    }

    ghost function Snapshot(): State
      reads this
    {
      State(built, runs)
    }

    /** newBuildContext: group the builders by name; empty cache and stack. */
    constructor (bs: seq<Builder>)
      ensures Valid()
      ensures builders == Group(bs) && built == map[] && buildStack == [] && runs == multiset{}
    {
      var grouped := GroupByName(bs);
      builders := grouped;
      built := map[];
      buildStack := [];
      runs := multiset{};
    }

    /** isInBuildStack: a linear search of the stack. */
    method IsInBuildStack(name: Name) returns (found: bool)
      ensures found <==> name in buildStack
    {
      for i := 0 to |buildStack|
        invariant name !in buildStack[..i]
      {
        if buildStack[i] == name {
          return true;
        }
      }
      assert buildStack[..|buildStack|] == buildStack;
      return false;
    }

    /**
      panicCircular: the path reported for a cycle, every stack entry
      followed by " > ", then the offending name. (The panic message puts
      "circular dependency detected: " in front of it.)
    */
    method CircularPath(offending: Name) returns (path: string)
      ensures path == Trail(buildStack) + offending
    {
      var trail := "";
      for i := 0 to |buildStack|
        invariant trail == Trail(buildStack[..i])
      {
        TrailAppend(buildStack[..i], [buildStack[i]]);
        assert buildStack[..i + 1] == buildStack[..i] + [buildStack[i]];
        trail := trail + buildStack[i] + " > ";
      }
      assert buildStack[..|buildStack|] == buildStack;
      path := trail + offending;
    }

    /** GetService: single-binding resolution. */
    method GetService(name: Name) returns (r: Result<Entry>)
      requires Valid()
      modifies this
      decreases Unbuilt(builders, buildStack), 0, 0
      ensures Valid() && buildStack == old(buildStack)
      ensures (r, Snapshot()) == Resolution.GetService(builders, old(buildStack), old(Snapshot()), name)
    {
      var cyclic := IsInBuildStack(name);
      if cyclic {
        var path := CircularPath(name);
        return Fail(Circular(path));
      }

      buildStack := buildStack + [name];
      // the pop below stands for the deferred pop: it ends every path

      if name in built {
        r := Ok(built[name]);
      } else if name !in builders {
        r := Fail(Missing);
      } else if |builders[name]| > 1 {
        r := Fail(Ambiguous);
      } else {
        var b := builders[name][0];
        UnbuiltShrinks(builders, old(buildStack), name);
        var v := Invoke(name, 0);
        match v
        case Fail(e) =>
          r := Fail(e);
        case Ok(x) =>
          if b.options.isShared {
            built := built[name := One(x)];
          }
          r := Ok(One(x));
      }

      buildStack := buildStack[..|buildStack| - 1];
    }

    /** GetServices: multi-binding resolution. */
    method GetServices(name: Name) returns (r: Result<seq<Value>>)
      requires Valid()
      modifies this
      decreases Unbuilt(builders, buildStack), 0, 0
      ensures Valid() && buildStack == old(buildStack)
      ensures (r, Snapshot()) == Resolution.GetServices(builders, old(buildStack), old(Snapshot()), name)
    {
      var cyclic := IsInBuildStack(name);
      if cyclic {
        var path := CircularPath(name);
        return Fail(Circular(path));
      }

      buildStack := buildStack + [name];

      if name in built {
        // the source asserts the cached value to be a slice
        r := if built[name].Many? then Ok(built[name].values) else Fail(NotACollection);
      } else if name !in builders {
        r := Ok([]);
      } else {
        UnbuiltShrinks(builders, old(buildStack), name);
        r := BuildEach(name);
        if r.Ok? {
          built := built[name := Many(r.value)];
        }
      }

      buildStack := buildStack[..|buildStack| - 1];
    }

    /**
      The loop of GetServices: build every registrant of `name` in order
      into a slice of the same length; the first failure aborts.
    */
    method BuildEach(name: Name) returns (r: Result<seq<Value>>)
      requires Valid() && name in builders
      modifies this
      decreases Unbuilt(builders, buildStack), 3, 0
      ensures Valid() && buildStack == old(buildStack)
      ensures (r, Snapshot()) == BuildAll(builders, old(buildStack), old(Snapshot()), name, 0, [])
    {
      var count := |builders[name]|;
      var result := new Value[count];
      var i := 0;
      r := Ok([]);
      while i < count && r.Ok?
        invariant 0 <= i <= count && buildStack == old(buildStack) && Valid()
        invariant r.Ok? ==>
          BuildAll(builders, buildStack, old(Snapshot()), name, 0, []) ==
          BuildAll(builders, buildStack, Snapshot(), name, i, result[..i])
        invariant r.Fail? ==>
          (r, Snapshot()) == BuildAll(builders, buildStack, old(Snapshot()), name, 0, [])
        decreases count - i, if r.Ok? then 1 else 0
      {
        var v := Invoke(name, i);
        match v
        case Fail(e) =>
          r := Fail(e);
        case Ok(x) =>
          result[i] := x;
          assert result[..i + 1] == result[..i] + [x];
          i := i + 1;
      }
      if r.Ok? {
        assert result[..] == result[..i];
        r := Ok(result[..]);
      }
    }

    /**
      builder.Build(c): invoke the construction function of builder `i` of
      `name` with this context as its provider.
    */
    method Invoke(name: Name, i: nat) returns (r: Result<Value>)
      requires Valid() && name in builders && i < |builders[name]|
      modifies this
      decreases Unbuilt(builders, buildStack), 2, 0
      ensures Valid() && buildStack == old(buildStack)
      ensures (r, Snapshot()) == Build(builders, old(buildStack), old(Snapshot()), name, i)
    {
      var fn := builders[name][i].fn;
      runs := runs + multiset{(name, i)};
      ghost var start := Snapshot();
      var requests := fn.requests;
      var answers: Result<seq<Entry>> := Ok([]);
      var k := 0;
      while k < |requests| && answers.Ok?
        decreases |requests| - k, if answers.Ok? then 1 else 0
        invariant 0 <= k <= |requests| && buildStack == old(buildStack) && Valid()
        invariant answers.Ok? ==>
          Gather(builders, buildStack, start, requests, []) ==
          Gather(builders, buildStack, Snapshot(), requests[k..], answers.value)
        invariant answers.Fail? ==>
          (answers, Snapshot()) == Gather(builders, buildStack, start, requests, [])
      {
        var a := Ask(requests[k]);
        match a
        case Fail(e) =>
          answers := Fail(e);
        case Ok(x) =>
          assert requests[k..][1..] == requests[k + 1..];
          answers := Ok(answers.value + [x]);
          k := k + 1;
      }
      match answers
      case Fail(e) =>
        r := Fail(e);
      case Ok(es) =>
        match fn.combine(es)
        case Built(v) =>
          r := Ok(v);
        case Errored =>
          r := Fail(BuildFailed);
    }

    /** The provider handed to a construction function: one request. */
    method Ask(q: Request) returns (r: Result<Entry>)
      requires Valid()
      modifies this
      decreases Unbuilt(builders, buildStack), 0, 1
      ensures Valid() && buildStack == old(buildStack)
      ensures (r, Snapshot()) == Resolution.Ask(builders, old(buildStack), old(Snapshot()), q)
    {
      match q
      case Single(n) =>
        r := GetService(n);
      case Multi(n) =>
        var vs := GetServices(n);
        r := match vs case Ok(values) => Ok(Many(values)) case Fail(e) => Fail(e);
    }
  }

  /** Assemble: a fresh context over the builders, with nothing built yet. */
  method Assemble(bs: seq<Builder>) returns (c: BuildContext)
    ensures fresh(c) && c.Valid()
    ensures c.builders == Group(bs) && c.built == map[] && c.buildStack == [] && c.runs == multiset{}
  {
    c := new BuildContext(bs);
  }
}
