/**
  What resolution promises, proved about the functions of Resolution (and so
  about the methods of Container.BuildContext, which are proved equal to
  them).
*/
module Properties {
  import opened Builders
  import opened Registry
  import opened Resolution

  /**
    What a resolution call made with dependency stack `stack` may do to the
    state: entries already cached stay as they are; invocation counts only
    grow; no name on the stack gets a cache entry; and no builder of a name
    on the stack, or of a name already cached, is invoked.
  */
  ghost predicate Extends(stack: seq<Name>, st: State, st': State)
  {
    && (forall k :: k in st.built ==> k in st'.built && st'.built[k] == st.built[k])
    && (forall k :: k in stack && k in st'.built ==> k in st.built)
    && st.runs <= st'.runs
    && (forall id: BuilderId :: (id.0 in stack || id.0 in st.built) ==> st'.runs[id] == st.runs[id])
  }

  lemma ExtendsTrans(stack: seq<Name>, a: State, b: State, c: State)
    requires Extends(stack, a, b) && Extends(stack, b, c)
    ensures Extends(stack, a, c)
  {
  }

  /**
    Once the construction of builder `i` of `name` has ended, what its
    requests did (with `name` on the stack) is, seen from the caller's
    stack, one invocation of that builder and nothing else of `name`'s.
  */
  lemma Release(outer: seq<Name>, name: Name, i: nat, st: State, st': State)
    requires name !in outer && name !in st.built
    requires Extends(outer + [name], Invoked(st, name, i), st')
    ensures Extends(outer, st, st') && name !in st'.built
    ensures st'.runs[(name, i)] == st.runs[(name, i)] + 1
    ensures forall j: nat :: j != i ==> st'.runs[(name, j)] == st.runs[(name, j)]
  {
  }

  /** GetService keeps the cache, and never rebuilds a cached name. */
  lemma {:induction false} GetServiceExtends(reg: BuilderMap, stack: seq<Name>, st: State, name: Name)
    ensures Extends(stack, st, GetService(reg, stack, st, name).1)
    decreases Unbuilt(reg, stack), 0, 0
  {
    if name !in stack && name !in st.built && name in reg && |reg[name]| <= 1 {
      UnbuiltShrinks(reg, stack, name);
      BuildExtends(reg, stack, st, name, 0);
    }
  }

  /** GetServices keeps the cache, and never rebuilds a cached name. */
  lemma {:induction false} GetServicesExtends(reg: BuilderMap, stack: seq<Name>, st: State, name: Name)
    ensures Extends(stack, st, GetServices(reg, stack, st, name).1)
    decreases Unbuilt(reg, stack), 0, 0
  {
    if name !in stack && name !in st.built && name in reg {
      UnbuiltShrinks(reg, stack, name);
      BuildAllExtends(reg, stack, st, name, 0, []);
    }
  }

  lemma {:induction false} AskExtends(reg: BuilderMap, stack: seq<Name>, st: State, q: Request)
    ensures Extends(stack, st, Ask(reg, stack, st, q).1)
    decreases Unbuilt(reg, stack), 0, 1
  {
    match q
    case Single(n) => GetServiceExtends(reg, stack, st, n);
    case Multi(n) => GetServicesExtends(reg, stack, st, n);
  }

  lemma {:induction false} GatherExtends(reg: BuilderMap, stack: seq<Name>, st: State, requests: seq<Request>, acc: seq<Entry>)
    ensures Extends(stack, st, Gather(reg, stack, st, requests, acc).1)
    decreases Unbuilt(reg, stack), 1, |requests|
  {
    if |requests| > 0 {
      AskExtends(reg, stack, st, requests[0]);
      var (r, st') := Ask(reg, stack, st, requests[0]);
      if r.Ok? {
        GatherExtends(reg, stack, st', requests[1..], acc + [r.value]);
        ExtendsTrans(stack, st, st', Gather(reg, stack, st', requests[1..], acc + [r.value]).1);
      }
    }
  }

  /**
    Building one registrant invokes its construction function once, leaves
    every other builder of the name alone, and never caches the name itself.
  */
  lemma {:induction false} BuildExtends(reg: BuilderMap, outer: seq<Name>, st: State, name: Name, i: nat)
    requires name in reg && i < |reg[name]| && name !in outer && name !in st.built
    ensures Extends(outer, st, Build(reg, outer + [name], st, name, i).1)
    ensures name !in Build(reg, outer + [name], st, name, i).1.built
    ensures Build(reg, outer + [name], st, name, i).1.runs[(name, i)] == st.runs[(name, i)] + 1
    ensures forall j: nat :: j != i ==>
      Build(reg, outer + [name], st, name, i).1.runs[(name, j)] == st.runs[(name, j)]
    decreases Unbuilt(reg, outer + [name]), 2, 0
  {
    var fn := reg[name][i].fn;
    GatherExtends(reg, outer + [name], Invoked(st, name, i), fn.requests, []);
    Release(outer, name, i, st, Build(reg, outer + [name], st, name, i).1);
  }

  /** From `st` to `st'`, registrants i to k of `name` were invoked once each, and no other. */
  ghost predicate InvokedThrough(st: State, st': State, name: Name, i: nat, k: int)
  {
    forall j: nat :: st'.runs[(name, j)] == st.runs[(name, j)] + (if i <= j <= k then 1 else 0)
  }

  /**
    GetServices' loop, from registrant i on: on success, one value per
    registrant after those already in `acc`, each registrant invoked once;
    on failure, the registrants from i up to the one that failed were
    invoked once and the later ones never.
  */
  lemma {:induction false} BuildAllExtends(reg: BuilderMap, outer: seq<Name>, st: State, name: Name, i: nat, acc: seq<Value>)
    requires name in reg && i <= |reg[name]| && name !in outer && name !in st.built
    ensures var (r, st') := BuildAll(reg, outer + [name], st, name, i, acc);
      && Extends(outer, st, st')
      && name !in st'.built
      && (r.Ok? ==>
            && |r.value| == |acc| + |reg[name]| - i
            && r.value[..|acc|] == acc
            && forall j: nat :: st'.runs[(name, j)] == st.runs[(name, j)] + (if i <= j < |reg[name]| then 1 else 0))
      && (r.Fail? ==>
            exists k :: i <= k < |reg[name]| && InvokedThrough(st, st', name, i, k))
    decreases Unbuilt(reg, outer + [name]), 3, |reg[name]| - i
  {
    if i < |reg[name]| {
      BuildExtends(reg, outer, st, name, i);
      var (r, st') := Build(reg, outer + [name], st, name, i);
      if r.Ok? {
        BuildAllExtends(reg, outer, st', name, i + 1, acc + [r.value]);
        var (r2, st2) := BuildAll(reg, outer + [name], st', name, i + 1, acc + [r.value]);
        ExtendsTrans(outer, st, st', st2);
        if r2.Ok? {
          assert r2.value[..|acc|] == (r2.value[..|acc| + 1])[..|acc|];
        } else {
          var k :| i + 1 <= k < |reg[name]| && InvokedThrough(st', st2, name, i + 1, k);
          assert InvokedThrough(st, st2, name, i, k);
        }
      } else {
        assert InvokedThrough(st, st', name, i, i);
      }
    }
  }

  /**
    A request for a name already under construction fails with the path of
    the cycle, whether single or multi, and builds and caches nothing.
  */
  lemma CircularRequestFails(reg: BuilderMap, stack: seq<Name>, st: State, name: Name)
    requires name in stack
    ensures GetService(reg, stack, st, name) == (Fail(Circular(Trail(stack) + name)), st)
    ensures GetServices(reg, stack, st, name) == (Fail(Circular(Trail(stack) + name)), st)
  {
  }

  /** Single-binding outcomes that build nothing: a cache hit, a missing or an ambiguous name. */
  lemma GetServiceShortCircuits(reg: BuilderMap, stack: seq<Name>, st: State, name: Name)
    requires name !in stack
    ensures name in st.built ==> GetService(reg, stack, st, name) == (Ok(st.built[name]), st)
    ensures name !in st.built && name !in reg ==> GetService(reg, stack, st, name) == (Fail(Missing), st)
    ensures name !in st.built && name in reg && |reg[name]| > 1 ==>
      GetService(reg, stack, st, name) == (Fail(Ambiguous), st)
  {
  }

  /**
    Multi-binding outcomes that build nothing: a cached collection, a cached
    single value (the source's type assertion fails), an unregistered name.
  */
  lemma GetServicesShortCircuits(reg: BuilderMap, stack: seq<Name>, st: State, name: Name)
    requires name !in stack
    ensures name in st.built && st.built[name].Many? ==>
      GetServices(reg, stack, st, name) == (Ok(st.built[name].values), st)
    ensures name in st.built && st.built[name].One? ==>
      GetServices(reg, stack, st, name) == (Fail(NotACollection), st)
    ensures name !in st.built && name !in reg ==> GetServices(reg, stack, st, name) == (Ok([]), st)
  {
  }

  /**
    A single-binding miss invokes the one builder exactly once. Its value is
    cached when, and only when, it succeeded and the builder is shared; so a
    non-shared builder is invoked again on the next request.
  */
  lemma GetServiceBuildsOnce(reg: BuilderMap, stack: seq<Name>, st: State, name: Name)
    requires name !in stack && name !in st.built && name in reg && |reg[name]| == 1
    ensures var (r, st') := GetService(reg, stack, st, name);
      && Extends(stack, st, st')
      && st'.runs[(name, 0)] == st.runs[(name, 0)] + 1
      && (r.Ok? ==> r.value.One?)
      && (name in st'.built <==> r.Ok? && reg[name][0].options.isShared)
      && (name in st'.built ==> st'.built[name] == r.value)
  {
    UnbuiltShrinks(reg, stack, name);
    BuildExtends(reg, stack, st, name, 0);
  }

  /**
    A builder that is not shared is invoked again by the next request for
    its name: two requests, two invocations, and nothing cached.
  */
  lemma NonSharedRebuiltEachTime(reg: BuilderMap, stack: seq<Name>, st: State, name: Name)
    requires name !in stack && name !in st.built && name in reg && |reg[name]| == 1
    requires !reg[name][0].options.isShared
    ensures var st1 := GetService(reg, stack, st, name).1;
      var st2 := GetService(reg, stack, st1, name).1;
      name !in st2.built && st2.runs[(name, 0)] == st.runs[(name, 0)] + 2
  {
    GetServiceBuildsOnce(reg, stack, st, name);
    GetServiceBuildsOnce(reg, stack, GetService(reg, stack, st, name).1, name);
  }

  /**
    A builder whose construction function needs nothing: its service is the
    value the function returns, and an error it returns is a build failure,
    after which nothing is cached.
  */
  lemma GetServiceOfIndependent(reg: BuilderMap, stack: seq<Name>, st: State, name: Name)
    requires name !in stack && name !in st.built && name in reg && |reg[name]| == 1
    requires |reg[name][0].fn.requests| == 0
    ensures var (r, st') := GetService(reg, stack, st, name);
      match reg[name][0].fn.combine([])
      case Built(v) => r == Ok(One(v))
      case Errored => r == Fail(BuildFailed) && name !in st'.built
  {
    var st1 := Invoked(st, name, 0);
    assert Gather(reg, stack + [name], st1, reg[name][0].fn.requests, []) == (Ok([]), st1);
  }

  /**
    Once a shared builder has produced its service, asking for it again gives
    the same value from the cache, and no later request, of any name and from
    any stack, invokes it again: it runs at most once to completion per
    context.
  */
  lemma SharedBuiltAtMostOnce(reg: BuilderMap, stack: seq<Name>, st: State, name: Name, later: seq<Name>, q: Request)
    requires name !in stack && name in reg && |reg[name]| == 1 && reg[name][0].options.isShared
    requires GetService(reg, stack, st, name).0.Ok?
    ensures var (r, st1) := GetService(reg, stack, st, name);
      && name in st1.built
      && GetService(reg, stack, st1, name) == (r, st1)
      && Ask(reg, later, st1, q).1.runs[(name, 0)] == st1.runs[(name, 0)]
  {
    var st1 := GetService(reg, stack, st, name).1;
    if name !in st.built {
      GetServiceBuildsOnce(reg, stack, st, name);
    }
    AskExtends(reg, later, st1, q);
  }

  /**
    A multi-binding miss on a registered name: on success every registrant
    was invoked once, there is one value per registrant, and the collection
    is cached whatever the builders' options say. On failure some registrant
    k failed: registrants up to k were invoked once, those after it never,
    and nothing is cached for the name.
  */
  lemma GetServicesBuildsEach(reg: BuilderMap, stack: seq<Name>, st: State, name: Name)
    requires name !in stack && name !in st.built && name in reg
    ensures var (r, st') := GetServices(reg, stack, st, name);
      && Extends(stack, st, st')
      && (r.Ok? ==>
            && |r.value| == |reg[name]|
            && name in st'.built && st'.built[name] == Many(r.value)
            && forall j :: 0 <= j < |reg[name]| ==> st'.runs[(name, j)] == st.runs[(name, j)] + 1)
      && (r.Fail? ==>
            && name !in st'.built
            && exists k :: 0 <= k < |reg[name]| && InvokedThrough(st, st', name, 0, k))
  {
    UnbuiltShrinks(reg, stack, name);
    BuildAllExtends(reg, stack, st, name, 0, []);
  }

  /**
    What building each of `bs` in turn gives when none of them requests
    anything: their values in order, or the error of the first that fails.
  */
  function Standalone(bs: seq<Builder>): Result<seq<Value>>
  {
    if |bs| == 0 then Ok([])
    else
      match bs[0].fn.combine([])
      case Errored => Fail(BuildFailed)
      case Built(v) =>
        match Standalone(bs[1..])
        case Ok(vs) => Ok([v] + vs)
        case Fail(e) => Fail(e)
  }

  lemma {:induction false} BuildAllStandalone(reg: BuilderMap, stack: seq<Name>, st: State, name: Name, i: nat, acc: seq<Value>)
    requires name in reg && i <= |reg[name]|
    requires forall j :: i <= j < |reg[name]| ==> |reg[name][j].fn.requests| == 0
    ensures BuildAll(reg, stack, st, name, i, acc).0 ==
      match Standalone(reg[name][i..]) case Ok(vs) => Ok(acc + vs) case Fail(e) => Fail(e)
    decreases |reg[name]| - i
  {
    var bs := reg[name];
    if i < |bs| {
      assert bs[i..][0] == bs[i] && bs[i..][1..] == bs[i + 1..];
      var fn := bs[i].fn;
      var st1 := Invoked(st, name, i);
      assert Gather(reg, stack, st1, fn.requests, []) == (Ok([]), st1);
      match fn.combine([])
      case Errored =>
        assert Build(reg, stack, st, name, i) == (Fail(BuildFailed), st1);
        assert Standalone(bs[i..]) == Fail(BuildFailed);
      case Built(v) =>
        assert Build(reg, stack, st, name, i) == (Ok(v), st1);
        assert BuildAll(reg, stack, st, name, i, acc) == BuildAll(reg, stack, st1, name, i + 1, acc + [v]);
        BuildAllStandalone(reg, stack, st1, name, i + 1, acc + [v]);
        assert forall vs :: acc + [v] + vs == acc + ([v] + vs);
    } else {
      assert bs[i..] == [] && acc + [] == acc;
    }
  }

  /**
    Multi-binding over registrants that request nothing yields their values
    in registration order, or fails as soon as one of them fails.
  */
  lemma GetServicesInOrder(reg: BuilderMap, stack: seq<Name>, st: State, name: Name)
    requires name !in stack && name !in st.built && name in reg
    requires forall j :: 0 <= j < |reg[name]| ==> |reg[name][j].fn.requests| == 0
    ensures GetServices(reg, stack, st, name).0 == Standalone(reg[name])
  {
    UnbuiltShrinks(reg, stack, name);
    BuildAllStandalone(reg, stack + [name], st, name, 0, []);
    assert reg[name][0..] == reg[name];
    var r := BuildAll(reg, stack + [name], st, name, 0, []).0;
    assert GetServices(reg, stack, st, name).0 == r;
    match Standalone(reg[name])
    case Ok(vs) => assert [] + vs == vs;
    case Fail(e) =>
  }

  /**
    A chain of services: distinct names, each registered alone, each link
    requesting the next one and the last link requesting nothing.
  */
  ghost predicate ChainLinks(reg: BuilderMap, chain: seq<Name>)
  {
    && (forall j, k :: 0 <= j < k < |chain| ==> chain[j] != chain[k])
    && (forall j :: 0 <= j < |chain| ==> chain[j] in reg && |reg[chain[j]]| == 1)
    && (forall j :: 0 <= j < |chain| ==> reg[chain[j]][0].fn.requests == Successor(chain, j))
  }

  /** What link j of a chain requests: the next link, or nothing for the last. */
  function Successor(chain: seq<Name>, j: nat): seq<Request>
    requires j < |chain|
  {
    if j + 1 < |chain| then [Single(chain[j + 1])] else []
  }

  /**
    What a chain composes to, independently of the engine: the last link's
    function applied to nothing, each earlier link's function applied to the
    value of the link after it; the first error any of them returns, going
    up, is the outcome.
  */
  ghost function ChainOutcome(reg: BuilderMap, chain: seq<Name>): (r: Result<Value>)
    requires |chain| > 0 && forall n :: n in chain ==> n in reg
    ensures r.Fail? ==> r.error == BuildFailed
    decreases |chain|
  {
    var fn := reg[chain[0]][0].fn;
    var answers: Result<seq<Entry>> :=
      if |chain| == 1 then Ok([])
      else match ChainOutcome(reg, chain[1..]) case Ok(v) => Ok([One(v)]) case Fail(e) => Fail(e);
    match answers
    case Fail(e) => Fail(e)
    case Ok(es) => match fn.combine(es) case Built(v) => Ok(v) case Errored => Fail(BuildFailed)
  }

  /** A construction function that never reports an error. */
  ghost predicate AlwaysBuilds(fn: BuilderFn)
  {
    forall es :: fn.combine(es).Built?
  }

  /** A chain whose every link always builds composes to a value. */
  lemma {:induction false} ChainSucceeds(reg: BuilderMap, chain: seq<Name>)
    requires |chain| > 0 && forall n :: n in chain ==> n in reg
    requires forall n :: n in chain ==> AlwaysBuilds(reg[n][0].fn)
    ensures ChainOutcome(reg, chain).Ok?
    decreases |chain|
  {
    assert chain[0] in chain;
    if |chain| > 1 {
      ChainSucceeds(reg, chain[1..]);
    }
  }

  /** The links after the head form a chain, not on the stack once the head is pushed. */
  lemma ChainTail(reg: BuilderMap, stack: seq<Name>, st: State, chain: seq<Name>)
    requires |chain| > 1 && ChainLinks(reg, chain)
    requires forall n :: n in chain ==> n !in stack && n !in st.built
    ensures ChainLinks(reg, chain[1..])
    ensures forall n :: n in chain[1..] ==> n !in stack + [chain[0]] && n !in Invoked(st, chain[0], 0).built
  {
  }

  /** Every link of the chain was invoked exactly once more between st and st'. */
  ghost predicate EachLinkInvokedOnce(st: State, st': State, chain: seq<Name>)
  {
    forall j :: 0 <= j < |chain| ==> st'.runs[(chain[j], 0)] == st.runs[(chain[j], 0)] + 1
  }

  /** The last link alone: it is invoked once and its function applied to nothing decides. */
  lemma ChainLast(reg: BuilderMap, stack: seq<Name>, st: State, chain: seq<Name>)
    requires |chain| == 1 && ChainLinks(reg, chain)
    requires chain[0] !in stack && chain[0] !in st.built
    ensures GetService(reg, stack, st, chain[0]).0
      == match ChainOutcome(reg, chain) case Ok(v) => Ok(One(v)) case Fail(e) => Fail(e)
    ensures EachLinkInvokedOnce(st, GetService(reg, stack, st, chain[0]).1, chain)
  {
    var c := chain[0];
    var fn := reg[c][0].fn;
    var outer := stack + [c];
    var st1 := Invoked(st, c, 0);
    assert fn.requests == Successor(chain, 0) == [];
    assert Gather(reg, outer, st1, fn.requests, []) == (Ok([]), st1);
    var b := match fn.combine([]) case Built(v) => Ok(v) case Errored => Fail(BuildFailed);
    assert ChainOutcome(reg, chain) == b;
    assert Build(reg, outer, st, c, 0) == (b, st1);
    assert GetService(reg, stack, st, c).1.runs == st1.runs;
  }

  /**
    One link in front of a chain already known to resolve: the head's single
    request is answered by the rest, so the outcome composes one more step and
    the head is invoked once more.
  */
  lemma ChainStep(reg: BuilderMap, stack: seq<Name>, st: State, chain: seq<Name>)
    requires |chain| > 1 && ChainLinks(reg, chain)
    requires forall n :: n in chain ==> n in reg && n !in stack && n !in st.built
    requires var outer, st1 := stack + [chain[0]], Invoked(st, chain[0], 0);
      && GetService(reg, outer, st1, chain[1]).0
           == (match ChainOutcome(reg, chain[1..]) case Ok(v) => Ok(One(v)) case Fail(e) => Fail(e))
      && EachLinkInvokedOnce(st1, GetService(reg, outer, st1, chain[1]).1, chain[1..])
    ensures GetService(reg, stack, st, chain[0]).0
      == match ChainOutcome(reg, chain) case Ok(v) => Ok(One(v)) case Fail(e) => Fail(e)
    ensures EachLinkInvokedOnce(st, GetService(reg, stack, st, chain[0]).1, chain)
  {
    var c := chain[0];
    var fn := reg[c][0].fn;
    var outer := stack + [c];
    var st1 := Invoked(st, c, 0);
    var tail := chain[1..];
    var (r2, st2) := GetService(reg, outer, st1, chain[1]);
    assert fn.requests == Successor(chain, 0) == [Single(chain[1])] && fn.requests[1..] == [];
    match ChainOutcome(reg, tail) {
      case Fail(e) =>
        assert Gather(reg, outer, st1, fn.requests, []) == (Fail(e), st2);
        assert Build(reg, outer, st, c, 0) == (Fail(e), st2);
      case Ok(v) =>
        assert [] + [One(v)] == [One(v)];
        assert Gather(reg, outer, st1, fn.requests, []) == (Ok([One(v)]), st2);
        var b := match fn.combine([One(v)]) case Built(w) => Ok(w) case Errored => Fail(BuildFailed);
        assert ChainOutcome(reg, chain) == b;
        assert Build(reg, outer, st, c, 0) == (b, st2);
    }
    UnbuiltShrinks(reg, stack, c);
    GetServiceExtends(reg, outer, st1, chain[1]);
    assert c in outer;
    assert st2.runs[(c, 0)] == st1.runs[(c, 0)] == st.runs[(c, 0)] + 1;
    forall j | 1 <= j < |chain| ensures st2.runs[(chain[j], 0)] == st.runs[(chain[j], 0)] + 1 {
      assert tail[j - 1] == chain[j] && chain[j] != c;
    }
    assert GetService(reg, stack, st, c).1.runs == st2.runs;
  }

  /**
    Resolving the head of a chain nothing of which is cached or on the stack
    gives what the chain composes to, never a cycle, a missing or an
    ambiguous builder; and every link is invoked exactly once.
  */
  lemma {:induction false} ChainResolves(reg: BuilderMap, stack: seq<Name>, st: State, chain: seq<Name>)
    requires |chain| > 0 && ChainLinks(reg, chain)
    requires forall n :: n in chain ==> n !in stack && n !in st.built
    ensures forall n :: n in chain ==> n in reg
    ensures GetService(reg, stack, st, chain[0]).0
      == match ChainOutcome(reg, chain) case Ok(v) => Ok(One(v)) case Fail(e) => Fail(e)
    ensures EachLinkInvokedOnce(st, GetService(reg, stack, st, chain[0]).1, chain)
    decreases |chain|
  {
    forall n | n in chain ensures n in reg {
      var j :| 0 <= j < |chain| && chain[j] == n;
    }
    if |chain| == 1 {
      ChainLast(reg, stack, st, chain);
    } else {
      ChainTail(reg, stack, st, chain);
      ChainResolves(reg, stack + [chain[0]], Invoked(st, chain[0], 0), chain[1..]);
      ChainStep(reg, stack, st, chain);
    }
  }
}
