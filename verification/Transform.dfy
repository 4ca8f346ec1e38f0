/** `transformSnapshot`: the passes over the listed objects, through maps filled
    in list order and read in any order, proved to compute the snapshot. */
module Transform {
  import opened Names
  import opened Strings
  import opened Snapshot

  method ReplicaSetOwnerMap(items: seq<ReplicaSet>) returns (owners: map<string, string>)
    ensures owners == OwnerMap(items)
  {
    owners := map[];
    for i := 0 to |items|
      invariant owners == OwnerMap(items[..i])
    {
      assert items[..i + 1][..i] == items[..i];
      var rs := items[i];
      if rs.ns == "" || rs.name == "" {
        continue;
      }
      for j := 0 to |rs.owners|
        invariant owners == OwnerMap(items[..i]) && DeploymentName(rs.owners) == DeploymentName(rs.owners[j..])
      {
        var o := rs.owners[j];
        if o.kind != "Deployment" || o.name == "" {
          continue;
        }
        owners := owners[ResourceKey(rs.ns, rs.name) := ResourceId("deployment", rs.ns, o.name)];
        break;
      }
    }
    assert items[..|items|] == items;
  }

  /** `workloadIDForPod`: the first owner of a known kind decides. */
  method WorkloadIdForPod(p: Pod, rsOwners: map<string, string>) returns (wid: string)
    ensures wid == WorkloadOf(p, rsOwners)
  {
    if p.ns == "" {
      return "";
    }
    for i := 0 to |p.owners|
      invariant WorkloadOf(p, rsOwners) == WorkloadOfOwners(p.ns, p.owners[i..], rsOwners)
    {
      var o := p.owners[i];
      if o.name == "" {
        continue;
      }
      match o.kind {
        case "ReplicaSet" => return if p.ns + "/" + o.name in rsOwners then rsOwners[p.ns + "/" + o.name] else "";
        case "DaemonSet" => return "daemonSet:" + p.ns + "/" + o.name;
        case "StatefulSet" => return "statefulSet:" + p.ns + "/" + o.name;
        case "Job" => return "job:" + p.ns + "/" + o.name;
        case _ =>
      }
    }
    return "";
  }

  method HasRestart(p: Pod) returns (hit: bool)
    ensures hit == Restarted(p)
  {
    for i := 0 to |p.containers|
      invariant forall k :: 0 <= k < i ==> !(p.containers[k].restarts > 0 || p.containers[k].waiting == "CrashLoopBackOff")
    {
      if p.containers[i].restarts > 0 || p.containers[i].waiting == "CrashLoopBackOff" {
        assert p.containers[i] in p.containers;
        return true;
      }
    }
    return false;
  }

  method PodSignal(p: Pod) returns (signal: Health)
    ensures signal == Signal(p)
  {
    var restarted := HasRestart(p);
    match p.phase {
      case Running => signal := if restarted then Warning else Healthy;
      case Succeeded => signal := if restarted then Warning else Healthy;
      case Pending => signal := Warning;
      case _ => signal := Critical;
    }
  }

  /** What the pass over the pods leaves in its four maps. */
  ghost predicate Joined(pods: seq<Pod>, o: map<string, string>, counts: map<string, nat>, wids: map<string, string>,
                         nodes: map<string, set<string>>, signals: map<string, Health>)
  {
    && wids == PodWorkloads(pods, o)
    && CountsPods(pods, counts) && PlacesPods(pods, o, nodes) && SignalsPods(pods, o, signals)
  }

  ghost predicate CountsPods(pods: seq<Pod>, counts: map<string, nat>)
  {
    forall n :: n != "" ==> PodsOn(pods, n) == if n in counts then counts[n] else 0
  }

  ghost predicate PlacesPods(pods: seq<Pod>, o: map<string, string>, nodes: map<string, set<string>>)
  {
    forall wid :: NodesOf(pods, o, wid) == if wid in nodes then nodes[wid] else {}
  }

  ghost predicate SignalsPods(pods: seq<Pod>, o: map<string, string>, signals: map<string, Health>)
  {
    forall wid :: Worst(pods, o, wid) == if wid in signals then signals[wid] else Unset
  }

  method JoinPods(pods: seq<Pod>, o: map<string, string>)
    returns (counts: map<string, nat>, wids: map<string, string>, nodes: map<string, set<string>>, signals: map<string, Health>)
    ensures Joined(pods, o, counts, wids, nodes, signals)
  {
    NoPods(o);
    hide PodWorkloads, PodsOn, NodesOf, Worst, Signal, WorkloadOf, KeyOf, MaxHealth, Restarted;
    counts, wids, nodes, signals := map[], map[], map[], map[];
    for i := 0 to |pods|
      invariant wids == PodWorkloads(pods[..i], o)
      invariant CountsPods(pods[..i], counts)
      invariant PlacesPods(pods[..i], o, nodes)
      invariant SignalsPods(pods[..i], o, signals)
    {
      var p := pods[i];
      assert pods[..i + 1] == pods[..i] + [p];
      OnePodMore(pods[..i], p, o);
      if p.node != "" {
        counts := counts[p.node := (if p.node in counts then counts[p.node] else 0) + 1];
      }
      assert CountsPods(pods[..i] + [p], counts);
      var wid := WorkloadIdForPod(p, o);
      if wid == "" {
        continue;
      }
      wids := wids[KeyOf(p) := wid];
      if p.node != "" {
        nodes := nodes[wid := (if wid in nodes then nodes[wid] else {}) + {p.node}];
      }
      assert PlacesPods(pods[..i] + [p], o, nodes);
      if "job:" <= wid && (p.phase == Failed || p.phase == Succeeded) {
        continue;
      }
      var signal := PodSignal(p);
      signals := signals[wid := MaxHealth(if wid in signals then signals[wid] else Unset, signal)];
      assert SignalsPods(pods[..i] + [p], o, signals);
    }
    assert pods[..|pods|] == pods;
  }

  lemma NoPods(o: map<string, string>)
    ensures Joined([], o, map[], map[], map[], map[])
  {}

  /** What one more pod changes. */
  lemma OnePodMore(pods: seq<Pod>, p: Pod, o: map<string, string>)
    ensures var more, wid := pods + [p], WorkloadOf(p, o);
            && PodWorkloads(more, o) == (if wid == "" then PodWorkloads(pods, o) else PodWorkloads(pods, o)[KeyOf(p) := wid])
            && (forall n :: PodsOn(more, n) == PodsOn(pods, n) + if p.node == n then 1 else 0)
            && (forall w :: NodesOf(more, o, w) == NodesOf(pods, o, w) + if w == wid != "" && p.node != "" then {p.node} else {})
            && (forall w :: Worst(more, o, w) ==
                  if Counts(p, o, w) then MaxHealth(Worst(pods, o, w), Signal(p)) else Worst(pods, o, w))
  {
    var more := pods + [p];
    assert more[..|more| - 1] == pods;
    forall w ensures Worst(more, o, w) == if Counts(p, o, w) then MaxHealth(Worst(pods, o, w), Signal(p)) else Worst(pods, o, w) {
      OnePodWorse(pods, p, o, w);
    }
    hide Worst;
  }

  lemma OnePodWorse(pods: seq<Pod>, p: Pod, o: map<string, string>, w: string)
    ensures Worst(pods + [p], o, w) == if Counts(p, o, w) then MaxHealth(Worst(pods, o, w), Signal(p)) else Worst(pods, o, w)
  {
    var more := pods + [p];
    hide WorkloadOf, Counts, Restarted;
    forall h ensures Signalled(more, o, w, h) <==> Signalled(pods, o, w, h) || (Counts(p, o, w) && Signal(p) == h) {
      assert p in more;
    }
  }

  method NodeFromItem(n: NodeItem, counts: map<string, nat>) returns (node: Node)
    ensures node == NodeOf(n, if NodeId(n) in counts then counts[NodeId(n)] else 0)
  {
    var ready, pressure := false, false;
    for i := 0 to |n.conditions|
      invariant ready <==> exists k :: 0 <= k < i && n.conditions[k].kind == "Ready" && n.conditions[k].status == "True"
      invariant pressure <==>
                  exists k :: 0 <= k < i && Contains(n.conditions[k].kind, "Pressure") && n.conditions[k].status == "True"
    {
      var c := n.conditions[i];
      if c.kind == "Ready" && c.status == "True" {
        ready := true;
      }
      if Contains(c.kind, "Pressure") && c.status == "True" {
        pressure := true;
      }
    }
    assert ready <==> Ready(n);
    assert pressure <==> UnderPressure(n);
    var id := NodeId(n);
    return Node(id, if id in counts then counts[id] else 0, !n.unschedulable,
                if !ready then Critical else if pressure || n.unschedulable then Warning else Healthy);
  }

  method HasFailed(c: Controller) returns (failed: bool)
    ensures failed == JobFailed(c)
  {
    for i := 0 to |c.conditions|
      invariant forall k :: 0 <= k < i ==> !SaysFailed(c.conditions[k])
    {
      var x := c.conditions[i];
      if x.status != "True" {
        continue;
      }
      if x.kind == "Failed" || x.kind == "FailureTarget" {
        assert x in c.conditions;
        return true;
      }
    }
    return false;
  }

  method WorkloadsFromItems(items: seq<Controller>, kind: Kind, nodes: map<string, set<string>>, signals: map<string, Health>,
                            ghost pods: seq<Pod>, ghost o: map<string, string>) returns (out: seq<Workload>)
    requires PlacesPods(pods, o, nodes) && SignalsPods(pods, o, signals)
    ensures out == WorkloadsFrom(items, kind, pods, o)
  {
    hide NodesOf, Worst, JobFailed;
    out := [];
    for i := 0 to |items|
      invariant |out| == i
      invariant forall k :: 0 <= k < i ==> out[k] == WorkloadFrom(items[k], kind, pods, o)
    {
      var c := items[i];
      var wid := IdOf(c, kind);
      var desired, ready;
      match kind {
        case Deployment => desired, ready := c.replicas, c.readyReplicas;
        case StatefulSet => desired, ready := c.replicas, c.readyReplicas;
        case DaemonSet => desired, ready := c.scheduled, c.numberReady;
        case Job =>
          desired, ready := c.completions, c.succeeded;
          if desired == 0 {
            desired := if c.active > 0 then 1 else ready;
          }
      }
      var failed := HasFailed(c);
      var signal := if wid in signals then signals[wid] else Unset;
      var ids := SortSet(if wid in nodes then nodes[wid] else {});
      ListingUnique(ids, Listing(NodesOf(pods, o, wid)), NodesOf(pods, o, wid));
      var health := if kind == Job && failed then Warning
                    else if kind != Job && ready < desired then Warning
                    else if signal != Unset then signal
                    else Healthy;
      out := out + [Workload(wid, Ns(c), Name(c), kind, desired, ready, ids, health)];
    }
  }

  /** Every labelling of a named pod, filed under its workload. */
  ghost predicate Filed(pods: seq<Pod>, wids: map<string, string>, out: map<string, seq<Labels>>)
  {
    forall wid, l :: (wid in out && l in out[wid]) <==> Labelled(pods, wids, wid, l)
  }

  ghost predicate Labelled(pods: seq<Pod>, wids: map<string, string>, wid: string, l: Labels)
  {
    exists p :: p in pods && Bears(p, wids, wid, l)
  }

  predicate Bears(p: Pod, wids: map<string, string>, wid: string, l: Labels)
  {
    p.ns != "" && p.name != "" && KeyOf(p) in wids && wids[KeyOf(p)] == wid && p.labels == l
  }

  method PodLabelsByWorkload(pods: seq<Pod>, wids: map<string, string>) returns (out: map<string, seq<Labels>>)
    ensures Filed(pods, wids, out)
  {
    out := map[];
    for i := 0 to |pods|
      invariant Filed(pods[..i], wids, out)
    {
      var p := pods[i];
      assert pods[..i + 1] == pods[..i] + [p];
      forall wid, l ensures Labelled(pods[..i] + [p], wids, wid, l) <==>
                              Labelled(pods[..i], wids, wid, l) || Bears(p, wids, wid, l)
      {
        assert p in pods[..i] + [p];
      }
      if p.ns == "" || p.name == "" || KeyOf(p) !in wids {
        continue;
      }
      var wid := wids[KeyOf(p)];
      out := out[wid := (if wid in out then out[wid] else []) + [p.labels]];
    }
    assert pods[..|pods|] == pods;
  }

  method MatchesSelector(selector: Labels, podLabels: seq<Labels>) returns (hit: bool)
    ensures hit <==> exists l :: l in podLabels && Selects(selector, l)
  {
    for i := 0 to |podLabels|
      invariant forall k :: 0 <= k < i ==> !Selects(selector, podLabels[k])
    {
      var matched := true;
      var todo := selector.Keys;
      while todo != {}
        invariant todo <= selector.Keys && matched
        invariant forall k :: k in selector && k !in todo ==> Read(podLabels[i], k) == selector[k]
        decreases todo
      {
        var k :| k in todo;
        if Read(podLabels[i], k) != selector[k] {
          matched := false;
          break;
        }
        todo := todo - {k};
      }
      if matched {
        assert podLabels[i] in podLabels && Selects(selector, podLabels[i]);
        return true;
      }
    }
    return false;
  }

  method ServiceFromItem(s: ServiceItem, byId: map<string, Workload>, labels: map<string, seq<Labels>>,
                         ghost pods: seq<Pod>, ghost wids: map<string, string>) returns (out: Service)
    requires Filed(pods, wids, labels)
    ensures out == ServiceFrom(s, byId, pods, wids)
  {
    var ns, name := OrDefault(s.ns, "default"), OrDefault(s.name, "unknown-service");
    var targets: seq<string> := [];
    if s.selector != map[] {
      var found: set<string> := {};
      var todo := byId.Keys;
      while todo != {}
        invariant todo <= byId.Keys
        invariant forall wid :: wid in found <==>
                    wid in byId && wid !in todo && byId[wid].ns == ns && Backed(pods, wids, wid, s.selector)
        decreases todo
      {
        var wid :| wid in todo;
        if byId[wid].ns == ns {
          var hit := MatchesSelector(s.selector, if wid in labels then labels[wid] else []);
          BackedByLabels(pods, wids, labels, wid, s.selector);
          if hit {
            found := found + {wid};
          }
        }
        todo := todo - {wid};
      }
      assert found == TargetSet(ns, s.selector, byId, pods, wids);
      targets := SortSet(found);
      ListingUnique(targets, Listing(found), found);
    }
    return Service(ResourceId("service", ns, name), ns, name, targets,
                   if s.selector != map[] && targets == [] then Warning else Healthy);
  }

  lemma BackedByLabels(pods: seq<Pod>, wids: map<string, string>, labels: map<string, seq<Labels>>, wid: string, selector: Labels)
    requires Filed(pods, wids, labels)
    ensures Backed(pods, wids, wid, selector) <==> wid in labels && exists l :: l in labels[wid] && Selects(selector, l)
  {
    hide Selects;
    if Backed(pods, wids, wid, selector) {
      var p :| p in pods && IsNamed(p) && KeyOf(p) in wids && wids[KeyOf(p)] == wid && Selects(selector, p.labels);
      assert Bears(p, wids, wid, p.labels);
      assert Labelled(pods, wids, wid, p.labels);
    }
    if wid in labels && exists l :: l in labels[wid] && Selects(selector, l) {
      var l :| l in labels[wid] && Selects(selector, l);
      assert Labelled(pods, wids, wid, l);
    }
  }

  method FailedJobIds(jobs: seq<Controller>) returns (failed: set<string>)
    ensures failed == FailedJobs(jobs)
  {
    failed := {};
    for i := 0 to |jobs|
      invariant failed == FailedJobs(jobs[..i])
    {
      assert jobs[..i + 1] == jobs[..i] + [jobs[i]];
      var hit := HasFailed(jobs[i]);
      if hit {
        failed := failed + {IdOf(jobs[i], Job)};
      }
    }
    assert jobs[..|jobs|] == jobs;
  }

  method WorkloadsById(ws: seq<Workload>) returns (byId: map<string, Workload>)
    ensures byId == ById(ws)
  {
    byId := map[];
    for i := 0 to |ws|
      invariant byId == ById(ws[..i])
    {
      assert ws[..i + 1][..i] == ws[..i];
      byId := byId[ws[i].id := ws[i]];
    }
    assert ws[..|ws|] == ws;
  }

  method AlertsOfNodes(nodes: seq<Node>) returns (alerts: seq<Alert>)
    ensures alerts == NodeAlerts(nodes)
  {
    alerts := [];
    for i := 0 to |nodes|
      invariant alerts == NodeAlerts(nodes[..i])
    {
      assert nodes[..i + 1][..i] == nodes[..i];
      var n := nodes[i];
      if n.health == Critical {
        alerts := alerts + [NodeNotReady(n.id)];
      } else if !n.schedulable {
        alerts := alerts + [NodeUnschedulable(n.id)];
      } else if n.health == Warning {
        alerts := alerts + [NodePressure(n.id)];
      }
    }
    assert nodes[..|nodes|] == nodes;
  }

  method AlertsOfWorkloads(workloads: seq<Workload>, failed: set<string>) returns (alerts: seq<Alert>)
    ensures alerts == WorkloadAlerts(workloads, failed)
  {
    alerts := [];
    for i := 0 to |workloads|
      invariant alerts == WorkloadAlerts(workloads[..i], failed)
    {
      assert workloads[..i + 1][..i] == workloads[..i];
      var w := workloads[i];
      if w.kind == Job {
        if w.id in failed {
          alerts := alerts + [JobHasFailed(w.id)];
        }
      } else if w.ready < w.desired {
        alerts := alerts + [ReplicaSkew(w.id, w.ready, w.desired)];
      }
    }
    assert workloads[..|workloads|] == workloads;
  }

  method AlertsOfServices(services: seq<Service>) returns (alerts: seq<Alert>)
    ensures alerts == ServiceAlerts(services)
  {
    alerts := [];
    for i := 0 to |services|
      invariant alerts == ServiceAlerts(services[..i])
    {
      assert services[..i + 1][..i] == services[..i];
      if services[i].health == Warning {
        alerts := alerts + [NoWorkloads(services[i].id)];
      }
    }
    assert services[..|services|] == services;
  }

  method Links(workloads: seq<Workload>, services: seq<Service>) returns (links: seq<Link>)
    ensures links == WorkloadLinks(workloads) + ServiceLinks(services)
  {
    links := [];
    for i := 0 to |workloads|
      invariant links == WorkloadLinks(workloads[..i])
    {
      assert workloads[..i + 1][..i] == workloads[..i];
      var w := workloads[i];
      for j := 0 to |w.nodeIds|
        invariant links == WorkloadLinks(workloads[..i]) + LinksOfWorkload(w)[..j]
      {
        links := links + [WorkloadLink(w.nodeIds[j], w.id)];
      }
    }
    assert workloads[..|workloads|] == workloads;
    for i := 0 to |services|
      invariant links == WorkloadLinks(workloads) + ServiceLinks(services[..i])
    {
      assert services[..i + 1][..i] == services[..i];
      var v := services[i];
      for j := 0 to |v.targets|
        invariant links == WorkloadLinks(workloads) + ServiceLinks(services[..i]) + LinksOfService(v)[..j]
      {
        links := links + [ServiceLink(v.id, v.targets[j])];
      }
    }
    assert services[..|services|] == services;
  }

  method TransformSnapshot(raw: RawLists) returns (s: ClusterSnapshot)
    ensures s == SnapshotOf(raw)
  {
    hide NodeOf, WorkloadFrom, ServiceFrom, PodsOn, NodesOf, Worst, PodWorkloads, OwnerMap, ById, FailedJobs;
    var o := ReplicaSetOwnerMap(raw.replicaSets);
    var counts, wids, placed, signals := JoinPods(raw.pods, o);

    var nodes: seq<Node> := [];
    for i := 0 to |raw.nodes|
      invariant |nodes| == i
      invariant forall k :: 0 <= k < i ==> nodes[k] == NodeOf(raw.nodes[k], PodsOn(raw.pods, NodeId(raw.nodes[k])))
    {
      var node := NodeFromItem(raw.nodes[i], counts);
      nodes := nodes + [node];
    }

    var deployments := WorkloadsFromItems(raw.deployments, Deployment, placed, signals, raw.pods, o);
    var daemonSets := WorkloadsFromItems(raw.daemonSets, DaemonSet, placed, signals, raw.pods, o);
    var statefulSets := WorkloadsFromItems(raw.statefulSets, StatefulSet, placed, signals, raw.pods, o);
    var jobs := WorkloadsFromItems(raw.jobs, Job, placed, signals, raw.pods, o);
    var workloads := deployments + daemonSets + statefulSets + jobs;
    var byId := WorkloadsById(workloads);
    var labels := PodLabelsByWorkload(raw.pods, wids);

    var services: seq<Service> := [];
    for i := 0 to |raw.services|
      invariant |services| == i
      invariant forall k :: 0 <= k < i ==> services[k] == ServiceFrom(raw.services[k], byId, raw.pods, wids)
    {
      var service := ServiceFromItem(raw.services[i], byId, labels, raw.pods, wids);
      services := services + [service];
    }

    var failed := FailedJobIds(raw.jobs);
    var onNodes := AlertsOfNodes(nodes);
    var onWorkloads := AlertsOfWorkloads(workloads, failed);
    var onServices := AlertsOfServices(services);
    var links := Links(workloads, services);
    assert nodes == NodesFrom(raw) && workloads == AllWorkloads(raw);
    assert services == ServicesFrom(raw);
    return ClusterSnapshot(nodes, workloads, services, onNodes + onWorkloads + onServices, links);
  }
}
