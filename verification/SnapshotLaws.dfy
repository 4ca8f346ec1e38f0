/** What a snapshot promises: it is a function of the set of pods, its services
    point where they declare, and its counts lose no pod. */
module SnapshotLaws {
  import opened Names
  import opened Strings
  import opened Snapshot

  /** A service's targets list its target set, in order, each once. */
  lemma ServiceTargets(raw: RawLists, i: nat)
    requires i < |raw.services|
    ensures i < |SnapshotOf(raw).services|
    ensures var s, targets := raw.services[i], SnapshotOf(raw).services[i].targets;
            Lists(targets, if s.selector == map[] then {}
                           else TargetSet(OrDefault(s.ns, "default"), s.selector, ById(AllWorkloads(raw)), raw.pods,
                                          PodWorkloads(raw.pods, OwnerMap(raw.replicaSets))))
  {
    hide AllWorkloads, TargetSet, ById, PodWorkloads, OwnerMap;
  }

  // ------------------------------------------------- pods in any order

  /** Owned pods sharing a key that some named pod has agree on their workload. */
  ghost predicate Coherent(pods: seq<Pod>, o: map<string, string>)
  {
    forall p, q, r :: p in pods && q in pods && r in pods && IsNamed(r) && KeyOf(p) == KeyOf(r) && KeyOf(q) == KeyOf(r) ==>
      WorkloadOf(p, o) == "" || WorkloadOf(q, o) == "" || WorkloadOf(p, o) == WorkloadOf(q, o)
  }

  ghost predicate Files(pods: seq<Pod>, o: map<string, string>, k: string, wid: string)
  {
    exists q :: q in pods && KeyOf(q) == k && wid != "" && WorkloadOf(q, o) == wid
  }

  /** A key is in the map when an owned pod has it, and the map's answer is one
      such pod's workload. */
  lemma {:induction false} FiledUnderKey(pods: seq<Pod>, o: map<string, string>, k: string)
    ensures k in PodWorkloads(pods, o) ==> Files(pods, o, k, PodWorkloads(pods, o)[k])
    ensures forall wid :: Files(pods, o, k, wid) ==> k in PodWorkloads(pods, o)
  {
    hide WorkloadOf, KeyOf;
    if pods != [] {
      var init, p := pods[..|pods| - 1], pods[|pods| - 1];
      FiledUnderKey(init, o, k);
      assert pods == init + [p];
      forall wid ensures Files(pods, o, k, wid) <==>
                           Files(init, o, k, wid) || (KeyOf(p) == k && wid != "" && WorkloadOf(p, o) == wid)
      {
        assert p in pods;
      }
    }
  }

  /** Under coherence, a named pod's workload is the one any pod with its key has. */
  lemma CoherentFiling(pods: seq<Pod>, o: map<string, string>, p: Pod, wid: string)
    requires Coherent(pods, o) && p in pods && IsNamed(p)
    ensures (KeyOf(p) in PodWorkloads(pods, o) && PodWorkloads(pods, o)[KeyOf(p)] == wid) <==> Files(pods, o, KeyOf(p), wid)
  {
    FiledUnderKey(pods, o, KeyOf(p));
    hide WorkloadOf, PodWorkloads;
  }

  lemma {:induction false} PodsOnSplits(a: seq<Pod>, b: seq<Pod>, n: string)
    ensures PodsOn(a + b, n) == PodsOn(a, n) + PodsOn(b, n)
  {
    if b == [] {
      assert a + b == a;
    } else {
      assert (a + b)[..|a + b| - 1] == a + b[..|b| - 1];
      PodsOnSplits(a, b[..|b| - 1], n);
    }
  }

  lemma WithoutOne(before: seq<Pod>, p: Pod, after: seq<Pod>, n: string)
    ensures PodsOn(before + [p] + after, n) == PodsOn(before + after, n) + (if p.node == n then 1 else 0)
  {
    PodsOnSplits(before + [p], after, n);
    PodsOnSplits(before, [p], n);
    PodsOnSplits(before, after, n);
    assert PodsOn([p], n) == PodsOn([], n) + (if p.node == n then 1 else 0) by { assert [p][..0] == []; }
  }

  lemma {:induction false} PodsOnPermutes(a: seq<Pod>, b: seq<Pod>, n: string)
    requires multiset(a) == multiset(b)
    ensures PodsOn(a, n) == PodsOn(b, n)
    decreases |a|
  {
    if a == [] {
      assert |multiset(b)| == |b|;
    } else {
      var before, after := TakeOut(a, b);
      PodsOnPermutes(a[1..], before + after, n);
      WithoutOne(before, a[0], after, n);
      WithoutOne([], a[0], a[1..], n);
      assert [] + [a[0]] + a[1..] == a && [] + a[1..] == a[1..];
    }
  }

  lemma SameMembers(a: seq<Pod>, b: seq<Pod>)
    requires multiset(a) == multiset(b)
    ensures forall p :: p in a <==> p in b
  {
    forall p ensures p in a <==> p in b {
      assert p in a <==> p in multiset(a);
      assert p in b <==> p in multiset(b);
    }
  }

  lemma SameWorkload(c: Controller, kind: Kind, a: seq<Pod>, b: seq<Pod>, o: map<string, string>)
    requires forall p :: p in a <==> p in b
    ensures WorkloadFrom(c, kind, a, o) == WorkloadFrom(c, kind, b, o)
  {
    hide WorkloadOf;
    var wid := IdOf(c, kind);
    assert NodesOf(a, o, wid) == NodesOf(b, o, wid);
    forall h ensures Signalled(a, o, wid, h) == Signalled(b, o, wid, h) {}
  }

  lemma SameWorkloads(items: seq<Controller>, kind: Kind, a: seq<Pod>, b: seq<Pod>, o: map<string, string>)
    requires forall p :: p in a <==> p in b
    ensures WorkloadsFrom(items, kind, a, o) == WorkloadsFrom(items, kind, b, o)
  {
    hide WorkloadFrom;
    forall i | 0 <= i < |items| ensures WorkloadFrom(items[i], kind, a, o) == WorkloadFrom(items[i], kind, b, o) {
      SameWorkload(items[i], kind, a, b, o);
    }
  }

  /** Key `k` speaks for `wid` to a selector: some pod of `wid` has it, and some
      named pod having it is selected. */
  ghost predicate Offers(pods: seq<Pod>, o: map<string, string>, k: string, wid: string, selector: Labels)
  {
    Files(pods, o, k, wid) && exists p :: p in pods && IsNamed(p) && KeyOf(p) == k && Selects(selector, p.labels)
  }

  /** No other workload claims the key. */
  ghost predicate Sole(pods: seq<Pod>, o: map<string, string>, k: string, wid: string)
  {
    forall v :: Files(pods, o, k, v) ==> v == wid
  }

  ghost predicate Uncontested(pods: seq<Pod>, o: map<string, string>, wid: string, selector: Labels)
  {
    (exists k :: Offers(pods, o, k, wid, selector)) ==>
    (exists k :: Offers(pods, o, k, wid, selector) && Sole(pods, o, k, wid))
  }

  /** Service i may target `wid`, if its pods are selected. */
  ghost predicate Eligible(raw: RawLists, i: nat, wid: string)
    requires i < |raw.services|
  {
    var s, byId := raw.services[i], ById(AllWorkloads(raw));
    s.selector != map[] && wid in byId && byId[wid].ns == OrDefault(s.ns, "default")
  }

  /** Every workload a service may target has, if any key speaks for it at all,
      one that speaks for it alone. */
  ghost predicate OrderFree(raw: RawLists)
  {
    forall i, wid :: 0 <= i < |raw.services| && Eligible(raw, i, wid) ==>
      Uncontested(raw.pods, OwnerMap(raw.replicaSets), wid, raw.services[i].selector)
  }

  ghost predicate SameElements(a: seq<Pod>, b: seq<Pod>)
  {
    forall p :: p in a <==> p in b
  }

  lemma SameFiles(a: seq<Pod>, b: seq<Pod>, o: map<string, string>)
    requires SameElements(a, b)
    ensures forall k, wid :: Files(a, o, k, wid) == Files(b, o, k, wid)
    ensures forall k, wid :: Sole(a, o, k, wid) == Sole(b, o, k, wid)
    ensures forall k, wid, selector :: Offers(a, o, k, wid, selector) == Offers(b, o, k, wid, selector)
  {
    hide WorkloadOf, KeyOf, IsNamed, Selects;
  }

  /** Without rivals the order of the pods does not decide. */
  lemma UncontestedBacking(pods: seq<Pod>, o: map<string, string>, wid: string, selector: Labels)
    requires Uncontested(pods, o, wid, selector)
    ensures Backed(pods, PodWorkloads(pods, o), wid, selector) <==> exists k :: Offers(pods, o, k, wid, selector)
  {
    hide PodWorkloads, WorkloadOf, Selects, KeyOf, IsNamed;
    if Backed(pods, PodWorkloads(pods, o), wid, selector) {
      var p :| p in pods && IsNamed(p) && KeyOf(p) in PodWorkloads(pods, o) && PodWorkloads(pods, o)[KeyOf(p)] == wid
               && Selects(selector, p.labels);
      FiledUnderKey(pods, o, KeyOf(p));
      assert Offers(pods, o, KeyOf(p), wid, selector);
    }
    if exists k :: Offers(pods, o, k, wid, selector) {
      var k :| Offers(pods, o, k, wid, selector) && Sole(pods, o, k, wid);
      FiledUnderKey(pods, o, k);
    }
  }

  lemma SameBacking(a: seq<Pod>, b: seq<Pod>, o: map<string, string>, wid: string, selector: Labels)
    requires SameElements(a, b) && Uncontested(a, o, wid, selector)
    ensures Backed(a, PodWorkloads(a, o), wid, selector) == Backed(b, PodWorkloads(b, o), wid, selector)
  {
    hide Backed, PodWorkloads, Files;
    SameFiles(a, b, o);
    UncontestedBacking(a, o, wid, selector);
    UncontestedBacking(b, o, wid, selector);
  }

  lemma SameService(s: ServiceItem, byId: map<string, Workload>, a: seq<Pod>, b: seq<Pod>, o: map<string, string>)
    requires SameElements(a, b)
    requires forall wid :: s.selector != map[] && wid in byId && byId[wid].ns == OrDefault(s.ns, "default") ==>
               Uncontested(a, o, wid, s.selector)
    ensures ServiceFrom(s, byId, a, PodWorkloads(a, o)) == ServiceFrom(s, byId, b, PodWorkloads(b, o))
  {
    hide Uncontested, PodWorkloads, Backed, SameElements;
    var ns := OrDefault(s.ns, "default");
    if s.selector != map[] {
      forall wid | wid in byId && byId[wid].ns == ns
        ensures Backed(a, PodWorkloads(a, o), wid, s.selector) == Backed(b, PodWorkloads(b, o), wid, s.selector)
      {
        SameBacking(a, b, o, wid, s.selector);
      }
      assert TargetSet(ns, s.selector, byId, a, PodWorkloads(a, o)) == TargetSet(ns, s.selector, byId, b, PodWorkloads(b, o));
    }
  }

  /** Counts, nodes and health never depend on the order. */
  lemma SameNodesAndWorkloads(raw: RawLists, pods: seq<Pod>)
    requires multiset(pods) == multiset(raw.pods)
    ensures SameElements(pods, raw.pods)
    ensures NodesFrom(raw.(pods := pods)) == NodesFrom(raw) && AllWorkloads(raw.(pods := pods)) == AllWorkloads(raw)
  {
    var o := OwnerMap(raw.replicaSets);
    SameMembers(pods, raw.pods);
    hide WorkloadOf, OwnerMap, NodeOf, WorkloadFrom;
    forall i | 0 <= i < |raw.nodes| ensures PodsOn(pods, NodeId(raw.nodes[i])) == PodsOn(raw.pods, NodeId(raw.nodes[i])) {
      PodsOnPermutes(pods, raw.pods, NodeId(raw.nodes[i]));
    }
    SameWorkloads(raw.deployments, Deployment, pods, raw.pods, o);
    SameWorkloads(raw.daemonSets, DaemonSet, pods, raw.pods, o);
    SameWorkloads(raw.statefulSets, StatefulSet, pods, raw.pods, o);
    SameWorkloads(raw.jobs, Job, pods, raw.pods, o);
  }

  lemma OrderFreeSnapshot(raw: RawLists, pods: seq<Pod>)
    requires multiset(pods) == multiset(raw.pods) && OrderFree(raw)
    ensures SnapshotOf(raw.(pods := pods)) == SnapshotOf(raw)
  {
    var o := OwnerMap(raw.replicaSets);
    var other, byId := raw.(pods := pods), ById(AllWorkloads(raw));
    SameNodesAndWorkloads(raw, pods);
    hide OwnerMap, NodesFrom, AllWorkloads, ServiceFrom, PodWorkloads, ById, Uncontested;
    forall i | 0 <= i < |raw.services|
      ensures ServiceFrom(raw.services[i], byId, pods, PodWorkloads(pods, o))
           == ServiceFrom(raw.services[i], byId, raw.pods, PodWorkloads(raw.pods, o))
    {
      forall wid | raw.services[i].selector != map[] && wid in byId && byId[wid].ns == OrDefault(raw.services[i].ns, "default")
        ensures Uncontested(raw.pods, o, wid, raw.services[i].selector)
      {
        assert Eligible(raw, i, wid);
      }
      SameService(raw.services[i], byId, raw.pods, pods, o);
    }
    assert ServicesFrom(other) == ServicesFrom(raw);
  }

  lemma CoherentIsOrderFree(raw: RawLists)
    requires Coherent(raw.pods, OwnerMap(raw.replicaSets))
    ensures OrderFree(raw)
  {
    hide WorkloadOf, OwnerMap, Eligible, IsNamed, KeyOf, Selects;
    var o := OwnerMap(raw.replicaSets);
    forall k, wid, selector | Offers(raw.pods, o, k, wid, selector) ensures Sole(raw.pods, o, k, wid) {}
    hide Coherent, Offers, Sole;
  }

  /** The snapshot is a function of the pods, not of the order they are listed
      in; nor, since TransformSnapshot computes it whatever a map yields first,
      of any map's iteration order. */
  lemma PodOrderDoesNotShow(raw: RawLists, pods: seq<Pod>)
    requires multiset(pods) == multiset(raw.pods) && Coherent(raw.pods, OwnerMap(raw.replicaSets))
    ensures SnapshotOf(raw.(pods := pods)) == SnapshotOf(raw)
  {
    hide Coherent, OrderFree, SnapshotOf;
    CoherentIsOrderFree(raw);
    OrderFreeSnapshot(raw, pods);
  }

  // ------------------------------------------- ... and when the order shows

  lemma {:induction false} LaterWins(a: seq<Pod>, b: seq<Pod>, o: map<string, string>, k: string)
    ensures k in PodWorkloads(b, o) ==> k in PodWorkloads(a + b, o) && PodWorkloads(a + b, o)[k] == PodWorkloads(b, o)[k]
  {
    hide WorkloadOf, KeyOf;
    if b != [] {
      var init := b[..|b| - 1];
      LaterWins(a, init, o, k);
      assert (a + b)[..|a + b| - 1] == a + init;
    }
  }

  /** The pods of `wid`, and the others, each in their order. */
  ghost function Own(pods: seq<Pod>, o: map<string, string>, wid: string): seq<Pod>
  {
    Filter(pods, p => WorkloadOf(p, o) == wid)
  }

  ghost function Others(pods: seq<Pod>, o: map<string, string>, wid: string): seq<Pod>
  {
    Filter(pods, p => WorkloadOf(p, o) != wid)
  }

  lemma Parted(pods: seq<Pod>, o: map<string, string>, wid: string)
    ensures forall p :: p in Own(pods, o, wid) <==> p in pods && WorkloadOf(p, o) == wid
    ensures forall p :: p in Others(pods, o, wid) <==> p in pods && WorkloadOf(p, o) != wid
    ensures multiset(Own(pods, o, wid) + Others(pods, o, wid)) == multiset(pods)
    ensures multiset(Others(pods, o, wid) + Own(pods, o, wid)) == multiset(pods)
  {
    var f, g := (p: Pod) => WorkloadOf(p, o) == wid, (p: Pod) => WorkloadOf(p, o) != wid;
    FilterSplits(pods, f, g);
    forall p ensures (p in Own(pods, o, wid) <==> p in pods && f(p)) && (p in Others(pods, o, wid) <==> p in pods && g(p)) {
      FilterMembers(pods, f, p);
      FilterMembers(pods, g, p);
    }
    hide WorkloadOf;
  }

  /** Listed last, the pods of `wid` get every key they have. */
  lemma OwnLast(pods: seq<Pod>, o: map<string, string>, k: string, wid: string, selector: Labels)
    requires Offers(pods, o, k, wid, selector)
    ensures var last := Others(pods, o, wid) + Own(pods, o, wid); Backed(last, PodWorkloads(last, o), wid, selector)
  {
    var own, others := Own(pods, o, wid), Others(pods, o, wid);
    Parted(pods, o, wid);
    hide Own, Others, WorkloadOf, Selects, KeyOf, IsNamed, PodWorkloads;
    FiledUnderKey(own, o, k);
    LaterWins(others, own, o, k);
    assert Files(own, o, k, wid);
    var p :| p in pods && IsNamed(p) && KeyOf(p) == k && Selects(selector, p.labels);
    assert p in others + own;
  }

  /** Listed first, they lose every key that a rival has. */
  lemma OwnFirst(pods: seq<Pod>, o: map<string, string>, wid: string, selector: Labels)
    requires forall k :: Offers(pods, o, k, wid, selector) ==> !Sole(pods, o, k, wid)
    ensures var first := Own(pods, o, wid) + Others(pods, o, wid); !Backed(first, PodWorkloads(first, o), wid, selector)
  {
    var own, others := Own(pods, o, wid), Others(pods, o, wid);
    var first := own + others;
    Parted(pods, o, wid);
    SameMembers(first, pods);
    SameFiles(first, pods, o);
    hide Own, Others, WorkloadOf, Selects, KeyOf, IsNamed, PodWorkloads;
    forall p | p in first && IsNamed(p) && Selects(selector, p.labels) && KeyOf(p) in PodWorkloads(first, o)
      ensures PodWorkloads(first, o)[KeyOf(p)] != wid
    {
      var k := KeyOf(p);
      if PodWorkloads(first, o)[k] == wid {
        FiledUnderKey(first, o, k);
        assert Offers(first, o, k, wid, selector);
        var v :| Files(pods, o, k, v) && v != wid;
        assert Files(others, o, k, v);
        FiledUnderKey(others, o, k);
        LaterWins(own, others, o, k);
      }
    }
  }

  lemma TargetedWhenBacked(raw: RawLists, pods: seq<Pod>, i: nat, wid: string)
    requires multiset(pods) == multiset(raw.pods) && i < |raw.services| && Eligible(raw, i, wid)
    ensures var o, s := OwnerMap(raw.replicaSets), SnapshotOf(raw.(pods := pods));
            i < |s.services| && (wid in s.services[i].targets <==> Backed(pods, PodWorkloads(pods, o), wid, raw.services[i].selector))
  {
    SameNodesAndWorkloads(raw, pods);
    ServiceTargets(raw.(pods := pods), i);
    hide SnapshotOf, AllWorkloads, ById, Backed, PodWorkloads, OwnerMap;
  }

  /** A contested workload is a service's target in one order and not in another. */
  lemma ContestShows(raw: RawLists, i: nat, wid: string) returns (pods: seq<Pod>)
    requires i < |raw.services| && Eligible(raw, i, wid)
    requires !Uncontested(raw.pods, OwnerMap(raw.replicaSets), wid, raw.services[i].selector)
    ensures multiset(pods) == multiset(raw.pods) && SnapshotOf(raw.(pods := pods)) != SnapshotOf(raw)
  {
    var o, selector := OwnerMap(raw.replicaSets), raw.services[i].selector;
    var own, others := Own(raw.pods, o, wid), Others(raw.pods, o, wid);
    var k :| Offers(raw.pods, o, k, wid, selector);
    Parted(raw.pods, o, wid);
    OwnLast(raw.pods, o, k, wid, selector);
    OwnFirst(raw.pods, o, wid, selector);
    TargetedWhenBacked(raw, others + own, i, wid);
    TargetedWhenBacked(raw, own + others, i, wid);
    hide SnapshotOf, Own, Others;
    pods := if SnapshotOf(raw.(pods := others + own)) != SnapshotOf(raw) then others + own else own + others;
  }

  /** Exactly when all orders of the pods give one snapshot. */
  lemma OrderShowsExactly(raw: RawLists)
    ensures (forall pods :: multiset(pods) == multiset(raw.pods) ==> SnapshotOf(raw.(pods := pods)) == SnapshotOf(raw))
       <==> OrderFree(raw)
  {
    hide SnapshotOf, Uncontested, Eligible;
    if OrderFree(raw) {
      forall pods | multiset(pods) == multiset(raw.pods) ensures SnapshotOf(raw.(pods := pods)) == SnapshotOf(raw) {
        OrderFreeSnapshot(raw, pods);
      }
    } else {
      var i, wid :| 0 <= i < |raw.services| && Eligible(raw, i, wid) &&
                    !Uncontested(raw.pods, OwnerMap(raw.replicaSets), wid, raw.services[i].selector);
      var pods := ContestShows(raw, i, wid);
    }
  }

  /** What Kubernetes guarantees: no two named pods share namespace and name,
      and no namespace holds a slash. */
  ghost predicate Distinct(pods: seq<Pod>)
  {
    && (forall i, j :: 0 <= i < j < |pods| && IsNamed(pods[i]) && IsNamed(pods[j]) ==>
          pods[i].ns != pods[j].ns || pods[i].name != pods[j].name)
    && (forall p :: p in pods ==> '/' !in p.ns)
  }

  lemma SameKeySamePod(pods: seq<Pod>, p: Pod, r: Pod)
    requires Distinct(pods) && p in pods && r in pods && IsNamed(r) && KeyOf(p) == KeyOf(r)
    ensures p == r
  {
    ResourceKeyInjective(p.ns, p.name, r.ns, r.name);
    var i :| 0 <= i < |pods| && pods[i] == p;
    var j :| 0 <= j < |pods| && pods[j] == r;
  }

  lemma DistinctPodsAreCoherent(pods: seq<Pod>, o: map<string, string>)
    requires Distinct(pods)
    ensures Coherent(pods, o)
  {
    forall p, q, r | p in pods && q in pods && r in pods && IsNamed(r) && KeyOf(p) == KeyOf(r) && KeyOf(q) == KeyOf(r)
      ensures p == q
    {
      SameKeySamePod(pods, p, r);
      SameKeySamePod(pods, q, r);
    }
    hide WorkloadOf;
  }

  function Twin(ns: string, name: string, labels: Labels, owner: string): Pod
  {
    Pod(ns, name, "", [Ref("DaemonSet", owner)], labels, Running, [])
  }

  /** Two pods of one namespace, name and labelling, owned by the listed
      DaemonSets `a` and `b`, and a service selecting their labels. */
  function Twins(ns: string, name: string, labels: Labels, a: string, b: string): RawLists
  {
    RawLists([], [Twin(ns, name, labels, a), Twin(ns, name, labels, b)], [ServiceItem(ns, "s", labels)], [],
             [Controller(ns, a, 0, 0, 0, 0, 0, 0, 0, []), Controller(ns, b, 0, 0, 0, 0, 0, 0, 0, [])], [], [], [])
  }

  function TwinId(ns: string, owner: string): string
  {
    ResourceId("daemonSet", ns, owner)
  }

  /** Any two owners claiming one key contest it: listing their pods the other
      way round gives another snapshot. */
  lemma IncoherentPodsShowTheirOrder(ns: string, name: string, labels: Labels, a: string, b: string)
    requires ns != "" && '/' !in ns && name != "" && labels != map[] && a != "" && b != "" && a != b
    ensures var raw := Twins(ns, name, labels, a, b);
            && !Coherent(raw.pods, OwnerMap(raw.replicaSets))
            && SnapshotOf(raw.(pods := [raw.pods[1], raw.pods[0]])) != SnapshotOf(raw)
  {
    var raw := Twins(ns, name, labels, a, b);
    TwinsClash(ns, name, labels, a, b);
    TwinIsEligible(ns, name, labels, a, b);
    hide SnapshotOf, Coherent, Eligible, Uncontested, TwinId, OwnerMap;
    var pods := ContestShows(raw, 0, TwinId(ns, a));
    TwoOrders(pods, raw.pods[0], raw.pods[1]);
    assert raw.(pods := raw.pods) == raw;
  }

  lemma TwoOrders<T>(xs: seq<T>, x: T, y: T)
    requires multiset(xs) == multiset([x, y])
    ensures xs == [x, y] || xs == [y, x]
  {
    assert |multiset(xs)| == 2;
    assert xs == [xs[0], xs[1]];
    assert xs[0] in multiset(xs) && xs[1] in multiset(xs) && x in multiset(xs) && y in multiset(xs);
  }

  lemma PairClashes(p: Pod, q: Pod, o: map<string, string>, k: string, selector: Labels)
    requires IsNamed(p) && KeyOf(p) == KeyOf(q) == k && Selects(selector, p.labels)
    requires WorkloadOf(p, o) != "" && WorkloadOf(q, o) != "" && WorkloadOf(p, o) != WorkloadOf(q, o)
    ensures !Coherent([p, q], o) && !Uncontested([p, q], o, WorkloadOf(p, o), selector)
  {
    hide WorkloadOf, KeyOf, IsNamed, Selects;
    var pods, wid := [p, q], WorkloadOf(p, o);
    assert p in pods && q in pods;
    assert Files(pods, o, k, wid) && Files(pods, o, k, WorkloadOf(q, o));
    assert Offers(pods, o, k, wid, selector);
    forall l | Files(pods, o, l, wid) ensures l == k {}
  }

  lemma TwinsClash(ns: string, name: string, labels: Labels, a: string, b: string)
    requires ns != "" && '/' !in ns && name != "" && a != "" && b != "" && a != b
    ensures var raw := Twins(ns, name, labels, a, b);
            && !Coherent(raw.pods, OwnerMap(raw.replicaSets))
            && !Uncontested(raw.pods, OwnerMap(raw.replicaSets), TwinId(ns, a), labels)
  {
    var p, q, o := Twin(ns, name, labels, a), Twin(ns, name, labels, b), OwnerMap([]);
    if TwinId(ns, a) == TwinId(ns, b) {
      IdsAreUnambiguous(DaemonSet, ns, a, DaemonSet, ns, b);
    }
    assert WorkloadOf(p, o) == TwinId(ns, a) && WorkloadOf(q, o) == TwinId(ns, b);
    forall k | k in labels ensures Read(labels, k) == labels[k] {}
    PairClashes(p, q, o, KeyOf(p), labels);
  }

  /** A listed DaemonSet of the service's namespace is eligible. */
  lemma ListedIsEligible(raw: RawLists, i: nat, j: nat)
    requires PlainNamespaces(raw) && i < |raw.services| && raw.services[i].selector != map[]
    requires j < |raw.daemonSets| && Ns(raw.daemonSets[j]) == OrDefault(raw.services[i].ns, "default")
    ensures Eligible(raw, i, IdOf(raw.daemonSets[j], DaemonSet))
  {
    hide OwnerMap, WorkloadFrom;
    var ws, wid := AllWorkloads(raw), IdOf(raw.daemonSets[j], DaemonSet);
    var w := WorkloadFrom(raw.daemonSets[j], DaemonSet, raw.pods, OwnerMap(raw.replicaSets));
    assert WorkloadsFrom(raw.daemonSets, DaemonSet, raw.pods, OwnerMap(raw.replicaSets))[j] == w;
    assert ws[|raw.deployments| + j] == w;
    NamesOwnController(raw.daemonSets[j], DaemonSet, raw.pods, OwnerMap(raw.replicaSets));
    hide AllWorkloads, ById, PlainNamespaces, Ns, IdOf;
    ByIdMembers(ws, wid);
    IdTellsNamespace(raw, w, ById(ws)[wid]);
  }

  lemma NamesOwnController(c: Controller, kind: Kind, pods: seq<Pod>, o: map<string, string>)
    ensures WorkloadFrom(c, kind, pods, o).id == IdOf(c, kind) && WorkloadFrom(c, kind, pods, o).ns == Ns(c)
  {}

  lemma TwinIsEligible(ns: string, name: string, labels: Labels, a: string, b: string)
    requires ns != "" && '/' !in ns && labels != map[] && a != ""
    ensures Eligible(Twins(ns, name, labels, a, b), 0, TwinId(ns, a))
  {
    hide Eligible;
    ListedIsEligible(Twins(ns, name, labels, a, b), 0, 0);
  }

  // -------------------------------------------------- services and workloads

  lemma {:induction false} ByIdMembers(ws: seq<Workload>, wid: string)
    ensures wid in ById(ws) <==> exists w :: w in ws && w.id == wid
    ensures wid in ById(ws) ==> ById(ws)[wid] in ws && ById(ws)[wid].id == wid
  {
    if ws != [] {
      ByIdMembers(ws[..|ws| - 1], wid);
      assert ws == ws[..|ws| - 1] + [ws[|ws| - 1]];
    }
  }

  /** Listed controllers' namespaces hold no slash. */
  ghost predicate PlainNamespaces(raw: RawLists)
  {
    forall c :: c in raw.deployments || c in raw.daemonSets || c in raw.statefulSets || c in raw.jobs ==> '/' !in c.ns
  }

  lemma FromListed(items: seq<Controller>, kind: Kind, raw: RawLists, w: Workload) returns (c: Controller)
    requires w in WorkloadsFrom(items, kind, raw.pods, OwnerMap(raw.replicaSets))
    ensures c in items && w == WorkloadFrom(c, kind, raw.pods, OwnerMap(raw.replicaSets))
  {
    hide WorkloadFrom, OwnerMap;
    var ws := WorkloadsFrom(items, kind, raw.pods, OwnerMap(raw.replicaSets));
    var i :| 0 <= i < |ws| && ws[i] == w;
    c := items[i];
  }

  /** A listed workload comes from a listed controller. */
  lemma WorkloadIsListed(raw: RawLists, w: Workload) returns (c: Controller, kind: Kind)
    requires w in AllWorkloads(raw)
    ensures c in raw.deployments || c in raw.daemonSets || c in raw.statefulSets || c in raw.jobs
    ensures w == WorkloadFrom(c, kind, raw.pods, OwnerMap(raw.replicaSets))
  {
    hide OwnerMap, WorkloadFrom, WorkloadsFrom;
    var o := OwnerMap(raw.replicaSets);
    if w in WorkloadsFrom(raw.deployments, Deployment, raw.pods, o) {
      kind := Deployment;
      c := FromListed(raw.deployments, kind, raw, w);
    } else if w in WorkloadsFrom(raw.daemonSets, DaemonSet, raw.pods, o) {
      kind := DaemonSet;
      c := FromListed(raw.daemonSets, kind, raw, w);
    } else if w in WorkloadsFrom(raw.statefulSets, StatefulSet, raw.pods, o) {
      kind := StatefulSet;
      c := FromListed(raw.statefulSets, kind, raw, w);
    } else {
      kind := Job;
      c := FromListed(raw.jobs, kind, raw, w);
    }
  }

  /** An ID tells its kind, namespace and name. */
  lemma IdsAreUnambiguous(k1: Kind, n1: string, m1: string, k2: Kind, n2: string, m2: string)
    requires '/' !in n1 && '/' !in n2
    requires ResourceId(KindWord(k1), n1, m1) == ResourceId(KindWord(k2), n2, m2)
    ensures k1 == k2 && n1 == n2 && m1 == m2
  {
    var id := ResourceId(KindWord(k1), n1, m1);
    IdCut(k1, n1, m1);
    IdCut(k2, n2, m2);
    hide CutAt;
    assert KindWord(k1) == KindWord(k2);
    KindWordInjective(k1, k2);
    ResourceKeyInjective(n1, m1, n2, m2);
  }

  lemma KindWordInjective(k: Kind, l: Kind)
    requires KindWord(k) == KindWord(l)
    ensures k == l
  {
    assert KindWord(k)[..2] == KindWord(l)[..2];
  }

  lemma IdCut(k: Kind, ns: string, name: string)
    ensures CutAt(ResourceId(KindWord(k), ns, name), ':') == Cut(KindWord(k), ResourceKey(ns, name))
  {
    var key := ResourceKey(ns, name);
    assert ResourceId(KindWord(k), ns, name) == KindWord(k) + [':'] + key;
    CutFirst(KindWord(k), ':', key);
  }

  lemma IdTellsNamespace(raw: RawLists, v: Workload, w: Workload)
    requires PlainNamespaces(raw) && v in AllWorkloads(raw) && w in AllWorkloads(raw) && v.id == w.id
    ensures v.ns == w.ns
  {
    var c, k := WorkloadIsListed(raw, v);
    var d, l := WorkloadIsListed(raw, w);
    IdsAreUnambiguous(k, Ns(c), Name(c), l, Ns(d), Name(d));
  }

  /** Every selector entry is met by the labels; a missing label reads as "". */
  ghost predicate Meets(labels: Labels, selector: Labels)
  {
    forall k :: k in selector ==> if k in labels then labels[k] == selector[k] else selector[k] == ""
  }

  lemma SelectsMeans(selector: Labels, labels: Labels)
    ensures Selects(selector, labels) <==> Meets(labels, selector)
  {
    forall k | k in selector
      ensures Read(labels, k) == selector[k] <==> if k in labels then labels[k] == selector[k] else selector[k] == ""
    {}
  }

  /** The declared relation: a service targets the listed workloads of its
      namespace with a named pod that its selector, not empty, selects. */
  ghost predicate Targeted(raw: RawLists, s: ServiceItem, wid: string)
  {
    && s.selector != map[]
    && (exists w :: w in AllWorkloads(raw) && w.id == wid && w.ns == if s.ns == "" then "default" else s.ns)
    && (exists p :: p in raw.pods && p.ns != "" && p.name != "" && wid != ""
                    && WorkloadOf(p, OwnerMap(raw.replicaSets)) == wid && Meets(p.labels, s.selector))
  }

  lemma OwnWorkload(pods: seq<Pod>, o: map<string, string>, p: Pod, wid: string)
    requires Distinct(pods) && p in pods && IsNamed(p)
    ensures (KeyOf(p) in PodWorkloads(pods, o) && PodWorkloads(pods, o)[KeyOf(p)] == wid)
            <==> wid != "" && WorkloadOf(p, o) == wid
  {
    DistinctPodsAreCoherent(pods, o);
    CoherentFiling(pods, o, p, wid);
    hide WorkloadOf, PodWorkloads;
    if Files(pods, o, KeyOf(p), wid) {
      var q :| q in pods && KeyOf(q) == KeyOf(p) && wid != "" && WorkloadOf(q, o) == wid;
      SameKeySamePod(pods, q, p);
    }
  }

  /** The maps and the two passes over the pods compute that relation, and list
      its targets in order, each once. */
  lemma TargetsAreDeclared(raw: RawLists, i: nat, wid: string)
    requires Distinct(raw.pods) && PlainNamespaces(raw) && i < |raw.services|
    ensures wid in SnapshotOf(raw).services[i].targets <==> Targeted(raw, raw.services[i], wid)
    ensures Sorted(SnapshotOf(raw).services[i].targets) && NoDuplicates(SnapshotOf(raw).services[i].targets)
  {
    var s, o := raw.services[i], OwnerMap(raw.replicaSets);
    var ws := AllWorkloads(raw);
    hide OwnerMap, WorkloadOf, PodWorkloads, Selects, WorkloadFrom, Meets;
    forall labels ensures Selects(s.selector, labels) <==> Meets(labels, s.selector) { SelectsMeans(s.selector, labels); }
    ServiceTargets(raw, i);
    hide SnapshotOf, ById, Distinct;
    ByIdMembers(ws, wid);
    forall w | w in ws && w.id == wid ensures wid in ById(ws) && ById(ws)[wid].ns == w.ns {
      IdTellsNamespace(raw, w, ById(ws)[wid]);
    }
    hide AllWorkloads, PlainNamespaces;
    forall p | p in raw.pods && IsNamed(p)
      ensures (KeyOf(p) in PodWorkloads(raw.pods, o) && PodWorkloads(raw.pods, o)[KeyOf(p)] == wid)
              <==> wid != "" && WorkloadOf(p, o) == wid
    {
      OwnWorkload(raw.pods, o, p, wid);
    }
  }

  lemma {:induction false} ServiceLinksAre(ss: seq<Service>, sid: string, wid: string)
    ensures ServiceLink(sid, wid) in ServiceLinks(ss) <==> exists s :: s in ss && s.id == sid && wid in s.targets
    ensures forall node :: WorkloadLink(node, wid) !in ServiceLinks(ss)
  {
    if ss != [] {
      var init, s := ss[..|ss| - 1], ss[|ss| - 1];
      ServiceLinksAre(init, sid, wid);
      assert ss == init + [s];
      if s.id == sid && wid in s.targets {
        var j :| 0 <= j < |s.targets| && s.targets[j] == wid;
        assert LinksOfService(s)[j] == ServiceLink(sid, wid);
      }
    }
  }

  lemma {:induction false} WorkloadLinksAre(ws: seq<Workload>, node: string, wid: string)
    ensures WorkloadLink(node, wid) in WorkloadLinks(ws) <==> exists w :: w in ws && w.id == wid && node in w.nodeIds
    ensures forall sid :: ServiceLink(sid, wid) !in WorkloadLinks(ws)
  {
    if ws != [] {
      var init, w := ws[..|ws| - 1], ws[|ws| - 1];
      WorkloadLinksAre(init, node, wid);
      assert ws == init + [w];
      if w.id == wid && node in w.nodeIds {
        var j :| 0 <= j < |w.nodeIds| && w.nodeIds[j] == node;
        assert LinksOfWorkload(w)[j] == WorkloadLink(node, wid);
      }
    }
  }

  /** Service links are the services' targets, and point to listed workloads
      only. */
  lemma ServiceLinksPointToListedWorkloads(raw: RawLists, sid: string, wid: string)
    ensures var s := SnapshotOf(raw);
            && (ServiceLink(sid, wid) in s.links <==> exists v :: v in s.services && v.id == sid && wid in v.targets)
            && (ServiceLink(sid, wid) in s.links ==> exists w :: w in s.workloads && w.id == wid)
  {
    var s := SnapshotOf(raw);
    ServiceLinksAre(s.services, sid, wid);
    WorkloadLinksAre(s.workloads, "", wid);
    ByIdMembers(s.workloads, wid);
    hide ServiceLinks, WorkloadLinks, ById, OwnerMap, PodWorkloads, AllWorkloads;
  }

  /** A workload's links are the nodes its pods sit on. */
  lemma WorkloadLinksAreThePodsNodes(raw: RawLists, node: string, wid: string)
    ensures var s := SnapshotOf(raw);
            WorkloadLink(node, wid) in s.links <==>
              (exists w :: w in s.workloads && w.id == wid) && node != "" && wid != ""
              && exists p :: p in raw.pods && p.node == node && WorkloadOf(p, OwnerMap(raw.replicaSets)) == wid
  {
    var s := SnapshotOf(raw);
    ServiceLinksAre(s.services, "", wid);
    WorkloadLinksAre(s.workloads, node, wid);
    forall w | w in s.workloads && w.id == wid
      ensures node in w.nodeIds <==> node in NodesOf(raw.pods, OwnerMap(raw.replicaSets), wid)
    {
      ListedNodes(raw, w);
    }
    hide ServiceLinks, WorkloadLinks, WorkloadOf, OwnerMap, AllWorkloads;
  }

  lemma ListedNodes(raw: RawLists, w: Workload)
    requires w in AllWorkloads(raw)
    ensures Lists(w.nodeIds, NodesOf(raw.pods, OwnerMap(raw.replicaSets), w.id))
  {
    hide OwnerMap, NodesOf, AllWorkloads;
    var c, kind := WorkloadIsListed(raw, w);
  }

  /** A listed workload with a valid namespace and name can be named in a
      mutation: its ID parses, and to the workload's own parts. */
  lemma ListedWorkloadsAreAddressable(raw: RawLists, w: Workload)
    ensures w in SnapshotOf(raw).workloads && IsLabel(w.ns) && IsSubdomain(w.name) ==>
              ParseWorkloadId(w.id) == Parsed(KindWord(w.kind), w.ns, w.name)
  {
    hide AllWorkloads, IsLabel, IsSubdomain, NodesFrom, ServicesFrom;
    if w in SnapshotOf(raw).workloads && IsLabel(w.ns) && IsSubdomain(w.name) {
      var c, kind := WorkloadIsListed(raw, w);
      ParsePrint(KindWord(w.kind), w.ns, w.name);
    }
  }

  // ----------------------------------------------------------------- alerts

  lemma {:induction false} ServiceAlertsAre(ss: seq<Service>, id: string)
    ensures NoWorkloads(id) in ServiceAlerts(ss) <==> exists s :: s in ss && s.id == id && s.health == Warning
  {
    if ss != [] {
      ServiceAlertsAre(ss[..|ss| - 1], id);
      assert ss == ss[..|ss| - 1] + [ss[|ss| - 1]];
    }
  }

  lemma {:induction false} OtherAlertsNameNoService(ns: seq<Node>, ws: seq<Workload>, failed: set<string>, id: string)
    ensures NoWorkloads(id) !in NodeAlerts(ns) && NoWorkloads(id) !in WorkloadAlerts(ws, failed)
    decreases |ns| + |ws|
  {
    if ns != [] {
      OtherAlertsNameNoService(ns[..|ns| - 1], ws, failed, id);
    } else if ws != [] {
      OtherAlertsNameNoService(ns, ws[..|ws| - 1], failed, id);
    }
  }

  /** A service alert is there exactly when a service's selector is not empty
      and matches nothing. */
  lemma ServiceAlertIffNothingMatches(raw: RawLists, id: string)
    ensures var s := SnapshotOf(raw);
            NoWorkloads(id) in s.alerts <==>
              exists i :: 0 <= i < |raw.services| && s.services[i].id == id
                          && raw.services[i].selector != map[] && s.services[i].targets == []
  {
    var s := SnapshotOf(raw);
    ServiceAlertsAre(s.services, id);
    OtherAlertsNameNoService(s.nodes, s.workloads, FailedJobs(raw.jobs), id);
    assert s.alerts == NodeAlerts(s.nodes) + WorkloadAlerts(s.workloads, FailedJobs(raw.jobs)) + ServiceAlerts(s.services);
    forall i | 0 <= i < |raw.services|
      ensures s.services[i].health == Warning <==> raw.services[i].selector != map[] && s.services[i].targets == []
    {
      hide TargetSet, AllWorkloads, PodWorkloads, OwnerMap;
    }
    hide SnapshotOf, NodeAlerts, WorkloadAlerts, ServiceAlerts;
    assert |s.services| == |raw.services| by { assert s == SnapshotOf(raw); }
  }

  // ------------------------------------------------------------- pod counts

  /** Pods on none of these nodes, or on no node at all. */
  function Elsewhere(pods: seq<Pod>, ids: seq<string>): nat
  {
    if pods == [] then 0 else Elsewhere(pods[..|pods| - 1], ids) + (if pods[|pods| - 1].node in ids then 0 else 1)
  }

  function SumOn(pods: seq<Pod>, ids: seq<string>): nat
  {
    if ids == [] then 0 else SumOn(pods, ids[..|ids| - 1]) + PodsOn(pods, ids[|ids| - 1])
  }

  lemma {:induction false} OneMoreNode(pods: seq<Pod>, ids: seq<string>, id: string)
    requires id !in ids
    ensures Elsewhere(pods, ids) == Elsewhere(pods, ids + [id]) + PodsOn(pods, id)
  {
    if pods != [] {
      OneMoreNode(pods[..|pods| - 1], ids, id);
    }
  }

  lemma {:induction false} NobodyAnywhere(pods: seq<Pod>)
    ensures Elsewhere(pods, []) == |pods|
  {
    if pods != [] {
      NobodyAnywhere(pods[..|pods| - 1]);
    }
  }

  lemma {:induction false} CountsAddUp(pods: seq<Pod>, ids: seq<string>)
    requires NoDuplicates(ids)
    ensures SumOn(pods, ids) + Elsewhere(pods, ids) == |pods|
  {
    if ids == [] {
      NobodyAnywhere(pods);
    } else {
      var init, id := ids[..|ids| - 1], ids[|ids| - 1];
      CountsAddUp(pods, init);
      OneMoreNode(pods, init, id);
      assert ids == init + [id];
    }
  }

  function NodeIds(ns: seq<Node>): (ids: seq<string>)
    ensures |ids| == |ns| && forall i :: 0 <= i < |ns| ==> ids[i] == ns[i].id
  {
    seq(|ns|, i requires 0 <= i < |ns| => ns[i].id)
  }

  function TotalCount(ns: seq<Node>): nat
  {
    if ns == [] then 0 else TotalCount(ns[..|ns| - 1]) + ns[|ns| - 1].podCount
  }

  lemma {:induction false} TotalIsSum(pods: seq<Pod>, ns: seq<Node>)
    requires forall i :: 0 <= i < |ns| ==> ns[i].podCount == PodsOn(pods, ns[i].id)
    ensures TotalCount(ns) == SumOn(pods, NodeIds(ns))
  {
    if ns != [] {
      TotalIsSum(pods, ns[..|ns| - 1]);
      assert NodeIds(ns)[..|ns| - 1] == NodeIds(ns[..|ns| - 1]);
    }
  }

  /** No pod is lost and none counted twice: when the listed nodes have distinct
      IDs, their counts and the pods on unlisted or no nodes make up the pods. */
  lemma PodCountsAddUp(raw: RawLists)
    requires NoDuplicates(NodeIds(SnapshotOf(raw).nodes))
    ensures TotalCount(SnapshotOf(raw).nodes) + Elsewhere(raw.pods, NodeIds(SnapshotOf(raw).nodes)) == |raw.pods|
  {
    hide AllWorkloads, PodWorkloads, OwnerMap, ById, ServicesFrom;
    var ns := SnapshotOf(raw).nodes;
    assert ns == NodesFrom(raw);
    hide SnapshotOf;
    TotalIsSum(raw.pods, ns);
    CountsAddUp(raw.pods, NodeIds(ns));
  }

  // -------------------------------------------------------------- ownership

  predicate OwnsKey(rs: ReplicaSet, k: string)
  {
    DeploymentOf(rs) != "" && ResourceKey(rs.ns, rs.name) == k
  }

  ghost predicate IsLastOwned(items: seq<ReplicaSet>, i: int, k: string, d: string)
  {
    0 <= i < |items| && OwnsKey(items[i], k) && DeploymentOf(items[i]) == d
    && forall j :: i < j < |items| ==> !OwnsKey(items[j], k)
  }

  /** A key belongs to the deployment of the last owned ReplicaSet having it. */
  lemma {:induction false} OwnerMapIsLastOwned(items: seq<ReplicaSet>, k: string, d: string)
    ensures k in OwnerMap(items) && OwnerMap(items)[k] == d <==> exists i :: IsLastOwned(items, i, k, d)
  {
    hide DeploymentOf;
    if items != [] {
      var n := |items| - 1;
      var init := items[..n];
      OwnerMapIsLastOwned(init, k, d);
      forall i ensures IsLastOwned(items, i, k, d) <==>
                         if OwnsKey(items[n], k) then i == n && DeploymentOf(items[n]) == d else IsLastOwned(init, i, k, d)
      {
        if IsLastOwned(init, i, k, d) && !OwnsKey(items[n], k) {
          forall j | i < j < |items| ensures !OwnsKey(items[j], k) {
            assert j < n ==> items[j] == init[j];
          }
        }
        if IsLastOwned(items, i, k, d) && i < n {
          forall j | i < j < |init| ensures !OwnsKey(init[j], k) {
            assert items[j] == init[j];
          }
        }
      }
      hide IsLastOwned;
      assert OwnsKey(items[n], k) && DeploymentOf(items[n]) == d ==> IsLastOwned(items, n, k, d);
    }
  }
}
