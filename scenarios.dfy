/**
  The repository's test scenarios, with every service reduced to the number
  its DomainValue() reports: a leaf reports a constant, a service that holds
  other services reports the sum of what they report.
*/
module Scenarios {
  import opened Builders
  import opened Registry
  import opened Resolution
  import opened Properties
  import Container

  /** What a service holding the given answers reports: the sum of their values. */
  function Total(es: seq<Entry>): int
  {
    if |es| == 0 then 0
    else Total(es[..|es| - 1]) + (match es[|es| - 1] case One(v) => v case Many(vs) => Sum(vs))
  }

  function Sum(vs: seq<Value>): int
  {
    if |vs| == 0 then 0 else Sum(vs[..|vs| - 1]) + vs[|vs| - 1]
  }

  /** A construction function that requests `requests` and reports the sum. */
  function Summing(requests: seq<Request>): BuilderFn
  {
    BuilderFn(requests, es => Built(Total(es)))
  }

  /** A construction function that requests nothing and reports `v`. */
  function Constant(v: Value): BuilderFn
  {
    BuilderFn([], _ => Built(v))
  }

  // controller -> appService -> domainService -> domainObjectA (2), domainObjectB (3)
  const Controller := NewBuilder("controller", Summing([Single("appService")]))
  const AppService := NewBuilder("appService", Summing([Single("domainService")]))
  const DomainService := NewBuilder("domainService", Summing([Single("domainObjectA"), Single("domainObjectB")]))
  const DomainObjectA := NewBuilder("domainObjectA", Constant(2))
  const DomainObjectB := NewBuilder("domainObjectB", Constant(3))

  const ServiceChain := [Controller, AppService, DomainService, DomainObjectA, DomainObjectB]

  const ServiceChainRegistry: BuilderMap := map[
    "controller" := [Controller],
    "appService" := [AppService],
    "domainService" := [DomainService],
    "domainObjectA" := [DomainObjectA],
    "domainObjectB" := [DomainObjectB]
  ]

  // collectionUser requests every collectionItem; there are two, reporting 2 and 3
  const CollectionUser := NewBuilder("collectionUser", Summing([Multi("collectionItem")]))
  const ItemTwo := NewBuilder("collectionItem", Constant(2))
  const ItemThree := NewBuilder("collectionItem", Constant(3))

  const Collection := [CollectionUser, ItemTwo, ItemThree]

  const CollectionRegistry: BuilderMap := map[
    "collectionUser" := [CollectionUser],
    "collectionItem" := [ItemTwo, ItemThree]
  ]

  // A -> B -> C -> A
  const BuilderA := NewBuilder("A", Summing([Single("B")]))
  const BuilderB := NewBuilder("B", Summing([Single("C")]))
  const BuilderC := NewBuilder("C", Summing([Single("A")]))

  const Cycle := [BuilderA, BuilderB, BuilderC]

  const CycleRegistry: BuilderMap := map["A" := [BuilderA], "B" := [BuilderB], "C" := [BuilderC]]

  /** Assembling the chain registers each builder alone under its own name. */
  lemma ServiceChainGroups()
    ensures Group(ServiceChain) == ServiceChainRegistry
  {
    var bs := ServiceChain;
    GroupOfDistinct(bs, 0);
    GroupOfDistinct(bs, 1);
    GroupOfDistinct(bs, 2);
    GroupOfDistinct(bs, 3);
    GroupOfDistinct(bs, 4);
    assert Names(bs) == ServiceChainRegistry.Keys;
  }

  /** Assembling the collection puts both items, in order, under one name. */
  lemma CollectionGroups()
    ensures Group(Collection) == CollectionRegistry
  {
    var bs := Collection;
    assert Registrants(bs, "collectionItem") == [ItemTwo, ItemThree] by {
      assert bs[..|bs| - 1] == bs[..2] && bs[..2][..1] == [CollectionUser] && bs[..1][..0] == [];
      assert Registrants(bs[..1], "collectionItem") == [];
      assert Registrants(bs[..2], "collectionItem") == [ItemTwo];
    }
    assert Registrants(bs, "collectionUser") == [CollectionUser] by {
      assert bs[..|bs| - 1] == bs[..2] && bs[..2][..1] == [CollectionUser] && bs[..1][..0] == [];
      assert Registrants(bs[..1], "collectionUser") == [CollectionUser];
      assert Registrants(bs[..2], "collectionUser") == [CollectionUser];
    }
    assert Names(bs) == CollectionRegistry.Keys by {
      assert bs[0].name == "collectionUser" && bs[1].name == "collectionItem";
    }
  }

  /** Assembling the cycle registers each builder alone under its own name. */
  lemma CycleGroups()
    ensures Group(Cycle) == CycleRegistry
  {
    var bs := Cycle;
    GroupOfDistinct(bs, 0);
    GroupOfDistinct(bs, 1);
    GroupOfDistinct(bs, 2);
    assert Names(bs) == CycleRegistry.Keys;
  }

  /**
    A shared builder that requests nothing, asked for when it is not cached,
    gives its constant and caches it.
  */
  lemma ConstantBuilt(reg: BuilderMap, stack: seq<Name>, st: State, b: Builder, v: Value)
    requires b.name in reg && reg[b.name] == [b] && b.fn == Constant(v) && b.options.isShared
    requires b.name !in stack && b.name !in st.built
    ensures GetService(reg, stack, st, b.name) ==
      (Ok(One(v)), Invoked(st, b.name, 0).(built := st.built[b.name := One(v)]))
  {
    var st' := Invoked(st, b.name, 0);
    assert Gather(reg, stack + [b.name], st', [], []) == (Ok([]), st');
  }

  const ChainPrefix := ["controller", "appService", "domainService"]

  /** domainService asks for both domain objects, in order, and reports 2 + 3. */
  lemma DomainServiceReportsFive(st: State)
    requires "domainService" !in st.built && "domainObjectA" !in st.built && "domainObjectB" !in st.built
    ensures GetService(ServiceChainRegistry, ChainPrefix[..2], st, "domainService").0 == Ok(One(5))
  {
    var reg := ServiceChainRegistry;
    var s3 := ChainPrefix;
    assert ChainPrefix[..2] + ["domainService"] == s3;
    var st3 := Invoked(st, "domainService", 0);
    ConstantBuilt(reg, s3, st3, DomainObjectA, 2);
    var stA := GetService(reg, s3, st3, "domainObjectA").1;
    ConstantBuilt(reg, s3, stA, DomainObjectB, 3);
    var stB := GetService(reg, s3, stA, "domainObjectB").1;
    var rs := DomainService.fn.requests;
    assert rs[1..] == [Single("domainObjectB")] && rs[1..][1..] == [];
    assert [] + [One(2)] == [One(2)] && [One(2)] + [One(3)] == [One(2), One(3)];
    assert Gather(reg, s3, stA, rs[1..], [One(2)]) == (Ok([One(2), One(3)]), stB);
    assert Gather(reg, s3, st3, rs, []) == (Ok([One(2), One(3)]), stB);
    assert Total([One(2), One(3)]) == 5 by {
      assert [One(2), One(3)][..1] == [One(2)] && [One(2)][..0] == [];
    }
    assert Build(reg, s3, st, "domainService", 0) == (Ok(5), stB);
  }

  /** A builder that requests one name and reports its value. */
  lemma ForwardReportsFive(stack: seq<Name>, st: State, b: Builder, next: Name)
    requires b.name in ServiceChainRegistry && ServiceChainRegistry[b.name] == [b]
    requires b.fn == Summing([Single(next)]) && b.name !in stack && b.name !in st.built
    requires GetService(ServiceChainRegistry, stack + [b.name], Invoked(st, b.name, 0), next).0 == Ok(One(5))
    ensures GetService(ServiceChainRegistry, stack, st, b.name).0 == Ok(One(5))
  {
    var reg := ServiceChainRegistry;
    var st1 := Invoked(st, b.name, 0);
    var st2 := GetService(reg, stack + [b.name], st1, next).1;
    assert b.fn.requests[1..] == [] && [] + [One(5)] == [One(5)];
    assert Gather(reg, stack + [b.name], st1, b.fn.requests, []) == (Ok([One(5)]), st2);
    assert Total([One(5)]) == 5 by { assert [One(5)][..0] == []; }
    assert Build(reg, stack + [b.name], st, b.name, 0) == (Ok(5), st2);
  }

  /** Resolving the controller builds the whole chain and reports 2 + 3. */
  lemma ServiceChainReportsFive()
    ensures GetService(ServiceChainRegistry, [], Initial, "controller").0 == Ok(One(5))
  {
    var st1 := Invoked(Initial, "controller", 0);
    var st2 := Invoked(st1, "appService", 0);
    DomainServiceReportsFive(st2);
    assert ChainPrefix[..1] + ["appService"] == ChainPrefix[..2];
    ForwardReportsFive(ChainPrefix[..1], st1, AppService, "domainService");
    assert [] + ["controller"] == ChainPrefix[..1];
    ForwardReportsFive([], Initial, Controller, "appService");
  }

  /** The two items, built one after the other, give 2 then 3. */
  lemma ItemsInOrder()
    ensures Standalone(CollectionRegistry["collectionItem"]) == Ok([2, 3])
  {
    var items := CollectionRegistry["collectionItem"];
    assert items[0] == ItemTwo && items[1..] == [ItemThree] && items[1..][1..] == [];
    assert ItemThree.fn.combine([]) == Built(3) && ItemTwo.fn.combine([]) == Built(2);
    assert Standalone(items[1..][1..]) == Ok([]);
    assert items[1..][0] == ItemThree && [3] + [] == [3] && [2] + [3] == [2, 3];
    assert Standalone(items[1..]) == Ok([3]);
  }

  /** The collection user receives both items, in order, and reports 2 + 3. */
  lemma CollectionReportsFive()
    ensures GetService(CollectionRegistry, [], Initial, "collectionUser").0 == Ok(One(5))
  {
    var reg := CollectionRegistry;
    var s := ["collectionUser"];
    assert [] + ["collectionUser"] == s;
    var st1 := Invoked(Initial, "collectionUser", 0);

    // the items, built in registration order
    ItemsInOrder();
    GetServicesInOrder(reg, s, st1, "collectionItem");
    var stI := GetServices(reg, s, st1, "collectionItem").1;
    assert GetServices(reg, s, st1, "collectionItem") == (Ok([2, 3]), stI);

    // the user sums them
    var rs := CollectionUser.fn.requests;
    assert rs[1..] == [] && [] + [Many([2, 3])] == [Many([2, 3])];
    assert Gather(reg, s, st1, rs, []) == (Ok([Many([2, 3])]), stI);
    assert Sum([2, 3]) == 5 by { assert [2, 3][..1] == [2] && [2][..0] == []; }
    assert Total([Many([2, 3])]) == 5 by { assert [Many([2, 3])][..0] == []; }
    assert Build(reg, s, Initial, "collectionUser", 0) == (Ok(5), stI);
  }

  /**
    A single-binding lookup of a name with two builders is ambiguous; the
    multi-binding lookup of the same name gives both values.
  */
  lemma CollectionItemIsAmbiguous()
    ensures GetService(CollectionRegistry, [], Initial, "collectionItem") == (Fail(Ambiguous), Initial)
    ensures GetServices(CollectionRegistry, [], Initial, "collectionItem").0 == Ok([2, 3])
  {
    ItemsInOrder();
    GetServicesInOrder(CollectionRegistry, [], Initial, "collectionItem");
  }

  /** The cycle A -> B -> C -> A is reported with its whole path. */
  lemma CycleReportsPath()
    ensures GetService(CycleRegistry, [], Initial, "A").0 == Fail(Circular("A > B > C > A"))
  {
    var reg := CycleRegistry;
    var e := Circular("A > B > C > A");
    var s1, s2, s3 := ["A"], ["A", "B"], ["A", "B", "C"];
    assert [] + ["A"] == s1 && s1 + ["B"] == s2 && s2 + ["C"] == s3;
    assert Trail(s3) == "A > B > C > " by {
      assert s3[1..] == ["B", "C"] && ["B", "C"][1..] == ["C"] && ["C"][1..] == [];
    }
    assert "A > B > C > " + "A" == "A > B > C > A";
    var st1 := Invoked(Initial, "A", 0);
    var st2 := Invoked(st1, "B", 0);
    var st3 := Invoked(st2, "C", 0);
    // C asks for A, which is on the stack
    assert GetService(reg, s3, st3, "A") == (Fail(e), st3);
    assert Gather(reg, s3, st3, BuilderC.fn.requests, []) == (Fail(e), st3);
    assert Build(reg, s3, st2, "C", 0) == (Fail(e), st3);
    // the failure travels back up through B and A
    assert GetService(reg, s2, st2, "C") == (Fail(e), st3);
    assert Gather(reg, s2, st2, BuilderB.fn.requests, []) == (Fail(e), st3);
    assert Build(reg, s2, st1, "B", 0) == (Fail(e), st3);
    assert GetService(reg, s1, st1, "B") == (Fail(e), st3);
    assert Gather(reg, s1, st1, BuilderA.fn.requests, []) == (Fail(e), st3);
    assert Build(reg, s1, Initial, "A", 0) == (Fail(e), st3);
  }

  /** The first test as a program: assemble, then resolve the controller. */
  method AssembleServiceChain() returns (r: Result<Entry>)
    ensures r == Ok(One(5))
  {
    var c := Container.Assemble(ServiceChain);
    ServiceChainGroups();
    ServiceChainReportsFive();
    r := c.GetService("controller");
  }

  /** The second test as a program: assemble, then resolve the collection user. */
  method AssembleCollection() returns (r: Result<Entry>)
    ensures r == Ok(One(5))
  {
    var c := Container.Assemble(Collection);
    CollectionGroups();
    CollectionReportsFive();
    r := c.GetService("collectionUser");
  }

  /** The cycle as a program: assemble, then resolve A. */
  method AssembleCycle() returns (r: Result<Entry>)
    ensures r == Fail(Circular("A > B > C > A"))
  {
    var c := Container.Assemble(Cycle);
    CycleGroups();
    CycleReportsPath();
    r := c.GetService("A");
  }
}
