# nanodi resolution engine, in Dafny

A model of nanodi, a small dependency-injection container written in Go, with
proofs about it. The model covers the following parts.

- **Builders** are named recipes for services. `NewBuilder` makes one shared by
  default, and `NewBuilderWithOptions` takes the options given.
  `CombineBuilders` concatenates several builder lists.
- **Assembly.** `Assemble`/`newBuildContext` groups the flat builder list into
  a registry. The registry maps each name to its builders, in registration
  order. The cache of built services and the dependency stack both start
  empty.
- **Single-binding resolution** is `GetService`:
  - It detects a cycle against the dependency stack and reports the path
    `a > b > c > x`.
  - It pushes the name and pops it on every exit.
  - On a cache hit it returns the cached entry.
  - It fails when the name has no builder or more than one.
  - Otherwise it runs the one builder, fails if that builder reports an
    error, and caches the result when the builder is shared.
- **Multi-binding resolution** is `GetServices`. It uses the same cycle check
  and stack discipline. An unregistered name gives an empty result. Otherwise
  it runs every registrant in order, aborts on the first failure, and always
  caches the collection.

## How the model is built

A construction function is a Go closure the engine cannot look inside. Here it
is data (`Builders.BuilderFn`) with two parts:

- the requests it makes through its provider, in order: `Single(name)` for
  `GetService` and `Multi(name)` for `GetServices`;
- a pure function that turns the answers into a value or an error.

Services are integers. Cache entries are tagged `One(v)` when they come from
single-binding resolution and `Many(vs)` when they come from multi-binding
resolution.

A panic of the engine becomes a `Fail(error)` outcome. The outcome carries the
state reached when the panic was raised, because cache entries written before
it stay in the cache.

The model has two layers:

- `Resolution` states the engine as mutually recursive functions over a
  `State`. The state is the cache plus a count of how often each builder has
  been invoked, and each call also takes the current dependency stack.
  Termination rests on the measure "registered names not on the stack".
  `Properties` proves the engine's promises about these functions.
- `Container.BuildContext` is the live object. It has `builders`, `built` and
  `buildStack` fields, and methods that update them in place with loops where
  the source loops. Each resolving method is proved to return what the
  matching `Resolution` function returns and to reach the state it reaches.
  Each is also proved to leave the stack as it found it and never to hold a
  name on it twice.

`Scenarios` replays the repository's tests: the service chain that reports
2 + 3 = 5, and the collection of two items that reports 2 + 3 = 5. It adds a
three-step cycle and an ambiguous single-binding lookup.

## Model

| member | source | states |
|---|---|---|
| Builders.NewBuilder | nanodi.go:26-31 | the builder has the given name and construction function, and is shared |
| Builders.NewBuilderWithOptions | nanodi.go:33-35 | the builder has the given name and construction function, and exactly the options given |
| Builders.CombineBuilders | nanodi.go:41-56 | the result is the lists concatenated in order, and its length is the sum of their lengths |
| Builders.FlattenLength | nanodi.go:41-56 | the concatenation's length is the sum of the list lengths |
| Builders.FlattenAppend | nanodi.go:41-56 | combining a + b is combining a, then b (order is kept across any split) |
| Registry.GroupByName | nanodi.go:84-89 | the registry maps every name that occurs to the builders carrying it, in input order, and no other name |
| Registry.RegistrantsNamed | nanodi.go:86-89 | every builder in a name's group carries that name |
| Registry.RegistrantsComplete | nanodi.go:86-89 | every input builder is in the group of its own name |
| Registry.RegistrantsNonEmpty | nanodi.go:84-89 | a name's group is non-empty exactly when some input builder carries it, so absent names are not registered |
| Registry.RegistrantsAppend | nanodi.go:86-89 | grouping a concatenation appends the second list's group to the first's |
| Registry.GroupSnoc | nanodi.go:88 | registering one more builder appends it to its own name's group and changes no other group |
| Registry.GroupNonEmpty | nanodi.go:84-89 | no group of an assembled registry is empty |
| Registry.GroupOfDistinct | nanodi.go:84-89 | when all names differ, each name's group is its one builder |
| Container.BuildContext.constructor | nanodi.go:84-97 | the registry is the grouping of the input, the cache and the stack are empty, nothing has been invoked |
| Container.Assemble | nanodi.go:37-39 | a fresh context with the grouped registry, an empty cache and an empty stack |
| Container.BuildContext.IsInBuildStack | nanodi.go:169-176 | true exactly when the name is on the stack |
| Container.BuildContext.CircularPath | nanodi.go:178-187 | every stack entry followed by " > ", then the offending name |
| Resolution.TrailAppend | nanodi.go:179-183 | the printed path of a stack is its parts' printed paths one after the other |
| Container.BuildContext.GetService | nanodi.go:99-132 | the result and the new cache follow single-binding resolution; the stack is as before and holds no name twice |
| Container.BuildContext.GetServices | nanodi.go:134-167 | the result and the new cache follow multi-binding resolution; the stack is as before and holds no name twice |
| Container.BuildContext.BuildEach | nanodi.go:154-163 | registrants are built in order into a slice of their number; the first failure aborts |
| Container.BuildContext.Invoke | nanodi.go:121-126 | one invocation of the builder (its `Build`, lines 80-82): its requests in order, then its value, or BuildFailed when it returns an error, as both resolvers turn that error into the build-failure panic (also lines 157-160) |
| Container.BuildContext.Ask | nanodi.go:5-8 | a provider request answered by single- or multi-binding resolution, leaving the stack unchanged |
| Properties.GetServiceExtends | nanodi.go:99-132 | a single-binding call keeps every cached entry and never caches or rebuilds a name on the stack or already cached |
| Properties.GetServicesExtends | nanodi.go:134-167 | a multi-binding call keeps every cached entry and never caches or rebuilds a name on the stack or already cached |
| Properties.BuildExtends | nanodi.go:121-123 | building a registrant invokes it exactly once, invokes no other registrant of its name, and does not cache the name |
| Properties.BuildAllExtends | nanodi.go:154-163 | on success the build loop yields one value per remaining registrant after those already gathered, invoking each once; on failure the registrants up to the failing one were invoked once and later ones never |
| Properties.CircularRequestFails | nanodi.go:99-104 | a request, single or multi, for a name on the stack fails with the cycle's path and leaves the state as it was |
| Properties.GetServiceShortCircuits | nanodi.go:109-120 | a cache hit returns the entry, a missing name fails as Missing and several builders as Ambiguous, with nothing invoked |
| Properties.GetServicesShortCircuits | nanodi.go:144-152 | a cached collection is returned, a cached single value fails, and an unregistered name gives an empty result, with nothing invoked or cached |
| Properties.GetServiceBuildsOnce | nanodi.go:121-131 | a miss invokes the one builder exactly once, and caches its value when, and only when, it succeeded and is shared |
| Properties.GetServiceOfIndependent | nanodi.go:123-126 | a builder that needs nothing yields its own value, and its error becomes BuildFailed with nothing cached |
| Properties.NonSharedRebuiltEachTime | nanodi.go:128-130 | a non-shared builder is invoked on each of two requests and never cached |
| Properties.SharedBuiltAtMostOnce | nanodi.go:128-130 | after a shared builder succeeds, asking again gives the same value from the cache, and no later request invokes it again |
| Properties.GetServicesBuildsEach | nanodi.go:149-166 | on success every registrant was invoked once, there is one value per registrant, and the collection is cached; on failure the registrants after the failing one were never invoked and nothing is cached for the name |
| Properties.BuildAllStandalone | nanodi.go:156-163 | for registrants that request nothing, the loop appends their values in order or fails with the first failure |
| Properties.GetServicesInOrder | nanodi.go:149-166 | for registrants that request nothing, the collection is their values in registration order, or the first failure |
| Properties.ChainResolves | nanodi.go:99-132 | for any chain of distinct names, each registered alone, each link requesting only the next and none cached or on the stack, resolving the head gives the chain's composition of construction functions (never a cycle, Missing or Ambiguous) and invokes every link exactly once |
| Properties.ChainSucceeds | nanodi.go:121-126 | a chain whose every construction function always builds composes to a value, so resolving it cannot fail |
| Scenarios.ServiceChainGroups | nanodi_test.go:11-33 | assembling the chain registers each builder alone under its name |
| Scenarios.DomainServiceReportsFive | nanodi_test.go:20-24 | the domain service obtains both domain objects, in order, and reports 2 + 3 |
| Scenarios.ServiceChainReportsFive | nanodi_test.go:33-40 | resolving the controller reports 5 |
| Scenarios.AssembleServiceChain | nanodi_test.go:10-41 | the live context, assembled from the chain, resolves the controller to 5 |
| Scenarios.CollectionGroups | nanodi_test.go:44-63 | assembling the collection puts both items, in order, under one name |
| Scenarios.ItemsInOrder | nanodi_test.go:55-60 | the two items build to 2 then 3 |
| Scenarios.CollectionReportsFive | nanodi_test.go:63-70 | resolving the collection user reports 5 |
| Scenarios.AssembleCollection | nanodi_test.go:43-70 | the live context, assembled from the collection, resolves the user to 5 |
| Scenarios.CollectionItemIsAmbiguous | nanodi.go:118-120 | the item name is ambiguous for single-binding, while multi-binding gives [2, 3] |
| Scenarios.CycleGroups | nanodi.go:84-89 | assembling the cycle registers each of A, B and C alone under its name |
| Scenarios.CycleReportsPath | nanodi.go:178-187 | the cycle A -> B -> C -> A fails with the path "A > B > C > A" |
| Scenarios.AssembleCycle | nanodi.go:178-187 | the live context, assembled from the cycle, fails to resolve A with the path "A > B > C > A" |

## Left out

- A construction function is a fixed list of requests and a pure function of their answers. So a closure that chooses its next request from an earlier answer is not modelled, nor is a closure with side effects of its own. The engine cannot see inside a closure anyway.
- A `Builder` is modelled as the source's own `builder` record. Other implementations of the Go `Builder` interface are not modelled.
- The accessors `CommandName`, `Options` and `Build` are the fields `name`, `options` and `fn` of `Builders.Builder`. Running `Build` is `Resolution.Build` / `Container.BuildContext.Invoke`.
- A panic is a `Fail` outcome that the caller passes on. `recover` is not modelled. Of the panic messages, only the circular path is kept; the "circular dependency detected: " prefix is implied by the `Circular` error.
- The build-failure panic (nanodi.go:125, nanodi.go:159) carries no service name, so `BuildFailed` carries only its kind.
- Values are integers rather than untyped `interface{}`. The callers' type assertions inside the test closures are not modelled. The engine's own assertion, that a cached entry is a slice when `GetServices` reads it, is the `NotACollection` failure.
- The nil slice `GetServices` returns for an unregistered name is the empty sequence.
- The per-builder invocation count in the state is a ghost counter. It exists only to state the caching promises.
- There is no concurrency: the engine is single-threaded by design.
