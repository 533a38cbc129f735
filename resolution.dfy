/**
  The resolution engine as pure functions over the container state: the
  specification that the methods of Container.BuildContext are proved to
  follow. A call takes the registry, the dependency stack at the time of
  the call (the names whose construction has started and not returned) and
  the state, and gives the outcome and the new state. The stack is passed
  down rather than returned: every call leaves it as it found it.

  A panic of the source is a Fail outcome here; it carries the state reached
  when it was raised, because cache entries written before a panic stay.
*/
module Resolution {
  import opened Builders
  import opened Registry

  /** A builder: its name and its position among that name's registrants. */
  type BuilderId = (Name, nat)

  datatype Error =
    | Circular(path: string)  // circular dependency, with the offending path
    | Missing                 // no builder registered for the name
    | Ambiguous               // several builders for a single-binding lookup
    | BuildFailed             // a construction function returned an error
    | NotACollection          // multi-binding lookup found a single value cached

  datatype Result<T> = Ok(value: T) | Fail(error: Error)

  /**
    The container state: the cache of built values, and the number of times
    each construction function has been invoked (a counter that exists only
    to state the caching promises; the source keeps no such count).
  */
  datatype State = State(built: map<Name, Entry>, runs: multiset<BuilderId>)

  const Initial := State(map[], multiset{})

  /** The stack as it is printed: every entry followed by " > ". */
  function Trail(stack: seq<Name>): string
  {
    if |stack| == 0 then "" else stack[0] + " > " + Trail(stack[1..])
  }

  /** Printing a stack prints its parts one after the other. */
  lemma {:induction false} TrailAppend(a: seq<Name>, b: seq<Name>)
    ensures Trail(a + b) == Trail(a) + Trail(b)
  {
    if |a| == 0 {
      assert a + b == b;
    } else {
      assert (a + b)[1..] == a[1..] + b;
      TrailAppend(a[1..], b);
    }
  }

  /** The names on the stack. */
  function InFlight(stack: seq<Name>): set<Name>
  {
    set n | n in stack
  }

  /** The registered names not on the stack: what may still be built beneath. */
  function Unbuilt(reg: BuilderMap, stack: seq<Name>): nat
  {
    |reg.Keys - InFlight(stack)|
  }

  lemma UnbuiltShrinks(reg: BuilderMap, stack: seq<Name>, name: Name)
    requires name in reg && name !in stack
    ensures Unbuilt(reg, stack + [name]) < Unbuilt(reg, stack)
  {
    var before := reg.Keys - InFlight(stack);
    var after := reg.Keys - InFlight(stack + [name]);
    assert InFlight(stack + [name]) == InFlight(stack) + {name};
    assert before == after + {name};
  }

  /** The state once builder `i` of `name` has been invoked. */
  function Invoked(st: State, name: Name, i: nat): State
  {
    st.(runs := st.runs + multiset{(name, i)})
  }

  /** buildContext.GetService: single-binding resolution. */
  function GetService(reg: BuilderMap, stack: seq<Name>, st: State, name: Name): (Result<Entry>, State)
    decreases Unbuilt(reg, stack), 0, 0
  {
    if name in stack then (Fail(Circular(Trail(stack) + name)), st)
    else if name in st.built then (Ok(st.built[name]), st)
    else if name !in reg then (Fail(Missing), st)
    else if |reg[name]| > 1 then (Fail(Ambiguous), st)
    else
      UnbuiltShrinks(reg, stack, name);
      var (r, st') := Build(reg, stack + [name], st, name, 0);
      match r
      case Fail(e) => (Fail(e), st')
      case Ok(v) =>
        (Ok(One(v)), if reg[name][0].options.isShared then st'.(built := st'.built[name := One(v)]) else st')
  }

  /** buildContext.GetServices: multi-binding resolution. */
  function GetServices(reg: BuilderMap, stack: seq<Name>, st: State, name: Name): (Result<seq<Value>>, State)
    decreases Unbuilt(reg, stack), 0, 0
  {
    if name in stack then (Fail(Circular(Trail(stack) + name)), st)
    else if name in st.built then
      (if st.built[name].Many? then Ok(st.built[name].values) else Fail(NotACollection), st)
    else if name !in reg then (Ok([]), st)
    else
      UnbuiltShrinks(reg, stack, name);
      var (r, st') := BuildAll(reg, stack + [name], st, name, 0, []);
      if r.Fail? then (r, st') else (r, st'.(built := st'.built[name := Many(r.value)]))
  }

  /**
    GetServices' loop: builds registrants i, i+1, ... of `name` in order,
    appending each value to `acc`; the first failure aborts.
  */
  function BuildAll(reg: BuilderMap, stack: seq<Name>, st: State, name: Name, i: nat, acc: seq<Value>)
    : (Result<seq<Value>>, State)
    requires name in reg && i <= |reg[name]|
    decreases Unbuilt(reg, stack), 3, |reg[name]| - i
  {
    if i == |reg[name]| then (Ok(acc), st)
    else
      var (r, st') := Build(reg, stack, st, name, i);
      match r
      case Fail(e) => (Fail(e), st')
      case Ok(v) => BuildAll(reg, stack, st', name, i + 1, acc + [v])
  }

  /**
    builder.Build(provider): invokes the construction function of builder
    `i` of `name`; it makes its requests through the provider, then combines
    the answers. A failed request aborts it with that failure; an error it
    returns itself becomes BuildFailed.
  */
  function Build(reg: BuilderMap, stack: seq<Name>, st: State, name: Name, i: nat): (Result<Value>, State)
    requires name in reg && i < |reg[name]|
    decreases Unbuilt(reg, stack), 2, 0
  {
    var fn := reg[name][i].fn;
    var (answers, st') := Gather(reg, stack, Invoked(st, name, i), fn.requests, []);
    match answers
    case Fail(e) => (Fail(e), st')
    case Ok(es) =>
      match fn.combine(es)
      case Built(v) => (Ok(v), st')
      case Errored => (Fail(BuildFailed), st')
  }

  /** A construction function's requests, made in order; answers go after `acc`. */
  function Gather(reg: BuilderMap, stack: seq<Name>, st: State, requests: seq<Request>, acc: seq<Entry>)
    : (Result<seq<Entry>>, State)
    decreases Unbuilt(reg, stack), 1, |requests|
  {
    if |requests| == 0 then (Ok(acc), st)
    else
      var (r, st') := Ask(reg, stack, st, requests[0]);
      match r
      case Fail(e) => (Fail(e), st')
      case Ok(a) => Gather(reg, stack, st', requests[1..], acc + [a])
  }

  /** The Provider: one request, answered by GetService or GetServices. */
  function Ask(reg: BuilderMap, stack: seq<Name>, st: State, q: Request): (Result<Entry>, State)
    decreases Unbuilt(reg, stack), 0, 1
  {
    match q
    case Single(n) => GetService(reg, stack, st, n)
    case Multi(n) =>
      var (r, st') := GetServices(reg, stack, st, n);
      (match r case Ok(vs) => Ok(Many(vs)) case Fail(e) => Fail(e), st')
  }
}
