/** The snapshot read off the listed objects' own fields: nodes, workloads and
    services one by one, who owns a pod, and when each alert is raised. */
module SnapshotMeaning {
  import opened Names
  import opened Strings
  import opened Snapshot
  import opened SnapshotLaws

  // ------------------------------------------------------------------- nodes

  function NodeName(n: NodeItem): string
  {
    if n.name == "" then "unknown-node" else n.name
  }

  ghost predicate SaysReady(n: NodeItem)
  {
    exists i :: 0 <= i < |n.conditions| && n.conditions[i].kind == "Ready" && n.conditions[i].status == "True"
  }

  /** The word stands somewhere in the text. */
  ghost predicate Holds(text: string, word: string)
  {
    exists before, after :: text == before + word + after
  }

  ghost predicate SaysPressure(n: NodeItem)
  {
    exists i :: 0 <= i < |n.conditions| && Holds(n.conditions[i].kind, "Pressure") && n.conditions[i].status == "True"
  }

  lemma {:induction false} ContainsMeans(s: string, t: string)
    ensures Contains(s, t) <==> Holds(s, t)
  {
    if t <= s {
      assert s == "" + t + s[|t|..];
    } else if s != "" {
      ContainsMeans(s[1..], t);
      if Holds(s[1..], t) {
        var before, after :| s[1..] == before + t + after;
        assert s == ([s[0]] + before) + t + after;
      }
      if Holds(s, t) {
        var before, after :| s == before + t + after;
        assert before == "" ==> s == t + after;
        assert s[1..] == before[1..] + t + after;
      }
    }
  }

  lemma NodeConditions(n: NodeItem)
    ensures Ready(n) <==> SaysReady(n)
    ensures UnderPressure(n) <==> SaysPressure(n)
  {
    hide Contains, Holds;
    forall s ensures Contains(s, "Pressure") <==> Holds(s, "Pressure") { ContainsMeans(s, "Pressure"); }
  }

  /** The places of the pods that sit on this node. */
  ghost function OnNode(pods: seq<Pod>, id: string): set<nat>
  {
    set k: nat | k < |pods| && pods[k].node == id
  }

  lemma {:induction false} PodsOnCounts(pods: seq<Pod>, id: string)
    ensures |OnNode(pods, id)| == PodsOn(pods, id)
  {
    if pods != [] {
      var n := |pods| - 1;
      PodsOnCounts(pods[..n], id);
      assert OnNode(pods, id) == OnNode(pods[..n], id) + if pods[n].node == id then {n} else {};
    }
  }

  /** A listed node as its own object, and the pods, describe it. */
  lemma NodeIsDeclared(raw: RawLists, i: nat)
    requires i < |raw.nodes|
    ensures |SnapshotOf(raw).nodes| == |raw.nodes|
    ensures var n, v := raw.nodes[i], SnapshotOf(raw).nodes[i];
            && v.id == NodeName(n) && v.schedulable == !n.unschedulable && v.podCount == |OnNode(raw.pods, NodeName(n))|
            && (v.health == Critical <==> !SaysReady(n))
            && (v.health == Warning <==> SaysReady(n) && (SaysPressure(n) || n.unschedulable))
            && (v.health == Healthy <==> SaysReady(n) && !SaysPressure(n) && !n.unschedulable)
  {
    var n := raw.nodes[i];
    NodeConditions(n);
    PodsOnCounts(raw.pods, NodeName(n));
    hide AllWorkloads, ServicesFrom, FailedJobs, Ready, UnderPressure, SaysReady, SaysPressure, OnNode;
    assert SnapshotOf(raw).nodes[i] == NodeOf(n, PodsOn(raw.pods, NodeId(n)));
  }

  lemma {:induction false} NodeAlertsAre(ns: seq<Node>, a: Alert)
    ensures a in NodeAlerts(ns) <==> exists v :: v in ns && a in NodeAlert(v)
  {
    hide NodeAlert;
    if ns != [] {
      NodeAlertsAre(ns[..|ns| - 1], a);
      assert ns == ns[..|ns| - 1] + [ns[|ns| - 1]];
    }
  }

  lemma {:induction false} WorkloadAlertsAre(ws: seq<Workload>, failed: set<string>, a: Alert)
    ensures a in WorkloadAlerts(ws, failed) <==> exists w :: w in ws && a in WorkloadAlert(w, failed)
  {
    hide WorkloadAlert;
    if ws != [] {
      WorkloadAlertsAre(ws[..|ws| - 1], failed, a);
      assert ws == ws[..|ws| - 1] + [ws[|ws| - 1]];
    }
  }

  lemma {:induction false} OnlyServiceAlerts(ss: seq<Service>, a: Alert)
    ensures a in ServiceAlerts(ss) ==> a.NoWorkloads?
  {
    if ss != [] {
      OnlyServiceAlerts(ss[..|ss| - 1], a);
    }
  }

  predicate AboutNode(a: Alert)
  {
    a.NodeNotReady? || a.NodeUnschedulable? || a.NodePressure?
  }

  predicate AboutWorkload(a: Alert)
  {
    a.ReplicaSkew? || a.JobHasFailed?
  }

  /** Each alert is raised by one node or one workload. */
  lemma AlertsAre(raw: RawLists, a: Alert)
    ensures var s := SnapshotOf(raw);
            && (AboutNode(a) ==> (a in s.alerts <==> exists v :: v in s.nodes && a in NodeAlert(v)))
            && (AboutWorkload(a) ==>
                  (a in s.alerts <==> exists w :: w in s.workloads && a in WorkloadAlert(w, FailedJobs(raw.jobs))))
  {
    var s := SnapshotOf(raw);
    NodeAlertsAre(s.nodes, a);
    WorkloadAlertsAre(s.workloads, FailedJobs(raw.jobs), a);
    OnlyServiceAlerts(s.services, a);
    OneKind(s.nodes, s.workloads, FailedJobs(raw.jobs), a);
    hide NodesFrom, AllWorkloads, ServicesFrom, FailedJobs, NodeAlerts, WorkloadAlerts, ServiceAlerts, NodeAlert, WorkloadAlert;
  }

  lemma OneKind(ns: seq<Node>, ws: seq<Workload>, failed: set<string>, a: Alert)
    ensures AboutNode(a) ==> forall w :: a !in WorkloadAlert(w, failed)
    ensures AboutWorkload(a) ==> forall v :: a !in NodeAlert(v)
  {}

  /** What a node alert says of its node, worst first. */
  ghost predicate Complains(a: Alert, n: NodeItem)
  {
    match a
    case NodeNotReady(id) => NodeName(n) == id && !SaysReady(n)
    case NodeUnschedulable(id) => NodeName(n) == id && SaysReady(n) && n.unschedulable
    case NodePressure(id) => NodeName(n) == id && SaysReady(n) && !n.unschedulable && SaysPressure(n)
    case _ => false
  }

  /** A node alert is raised exactly for a listed node that it describes. */
  lemma NodeAlertsAreDeclared(raw: RawLists, a: Alert)
    requires a.NodeNotReady? || a.NodeUnschedulable? || a.NodePressure?
    ensures a in SnapshotOf(raw).alerts <==> exists n :: n in raw.nodes && Complains(a, n)
  {
    AlertsAre(raw, a);
    hide SnapshotOf, Complains, Mirrors;
    NodesAsListed(raw);
    forall i | 0 <= i < |raw.nodes| ensures Mirrors(SnapshotOf(raw).nodes[i], raw.nodes[i]) {
      NodeIsMirrored(raw, i);
    }
    hide NodeAlert;
    ComplaintsShow(raw.nodes, SnapshotOf(raw).nodes, a);
  }

  lemma NodeIsMirrored(raw: RawLists, i: nat)
    requires i < |raw.nodes|
    ensures i < |SnapshotOf(raw).nodes| && Mirrors(SnapshotOf(raw).nodes[i], raw.nodes[i])
  {
    NodeIsDeclared(raw, i);
    hide SnapshotOf, SaysReady, SaysPressure;
  }

  lemma ComplaintsShow(items: seq<NodeItem>, ns: seq<Node>, a: Alert)
    requires |items| == |ns| && AboutNode(a) && forall i :: 0 <= i < |ns| ==> Mirrors(ns[i], items[i])
    ensures (exists v :: v in ns && a in NodeAlert(v)) <==> exists n :: n in items && Complains(a, n)
  {
    forall i | 0 <= i < |ns| ensures a in NodeAlert(ns[i]) <==> Complains(a, items[i]) {
      hide SaysReady, SaysPressure;
    }
    hide NodeAlert, Complains, Mirrors;
    if exists v :: v in ns && a in NodeAlert(v) {
      var i :| 0 <= i < |ns| && a in NodeAlert(ns[i]);
      assert items[i] in items && Complains(a, items[i]);
    }
    if exists n :: n in items && Complains(a, n) {
      var i :| 0 <= i < |items| && Complains(a, items[i]);
      assert ns[i] in ns && a in NodeAlert(ns[i]);
    }
  }

  ghost predicate Mirrors(v: Node, n: NodeItem)
  {
    && v.id == NodeName(n) && v.schedulable == !n.unschedulable
    && (v.health == Critical <==> !SaysReady(n))
    && (v.health == Warning <==> SaysReady(n) && (SaysPressure(n) || n.unschedulable))
  }

  lemma NodesAsListed(raw: RawLists)
    ensures |SnapshotOf(raw).nodes| == |raw.nodes|
  {
    hide AllWorkloads, ServicesFrom, FailedJobs;
  }

  // --------------------------------------------------------------- workloads

  /** `c` is called so: its kind, namespace and name, spelt out. */
  predicate IsCalled(id: string, word: string, c: Controller)
  {
    id == word + ":" + (if c.ns == "" then "default" else c.ns) + "/" + (if c.name == "" then "unknown" else c.name)
  }

  /** A workload says of its controller what the controller's fields say. */
  predicate Describes(w: Workload, c: Controller, kind: Kind)
  {
    && w.kind == kind
    && w.ns == (if c.ns == "" then "default" else c.ns) && w.name == (if c.name == "" then "unknown" else c.name)
    && match kind
       case Deployment => IsCalled(w.id, "deployment", c) && w.ready == c.readyReplicas && w.desired == c.replicas
       case StatefulSet => IsCalled(w.id, "statefulSet", c) && w.ready == c.readyReplicas && w.desired == c.replicas
       case DaemonSet => IsCalled(w.id, "daemonSet", c) && w.ready == c.numberReady && w.desired == c.scheduled
       case Job =>
         && IsCalled(w.id, "job", c) && w.ready == c.succeeded
         && w.desired == if c.completions != 0 then c.completions else if c.active > 0 then 1 else c.succeeded
  }

  /** The i-th workload of the snapshot is that of `c`. */
  predicate ListedAs(raw: RawLists, i: nat, c: Controller, kind: Kind)
  {
    var d, e, f := |raw.deployments|, |raw.daemonSets|, |raw.statefulSets|;
    match kind
    case Deployment => i < d && raw.deployments[i] == c
    case DaemonSet => d <= i < d + e && raw.daemonSets[i - d] == c
    case StatefulSet => d + e <= i < d + e + f && raw.statefulSets[i - d - e] == c
    case Job => d + e + f <= i < d + e + f + |raw.jobs| && raw.jobs[i - d - e - f] == c
  }

  lemma WorkloadAt(raw: RawLists, i: nat, c: Controller, kind: Kind)
    requires ListedAs(raw, i, c, kind)
    ensures i < |SnapshotOf(raw).workloads|
    ensures SnapshotOf(raw).workloads[i] == WorkloadFrom(c, kind, raw.pods, OwnerMap(raw.replicaSets))
  {
    hide WorkloadFrom, NodesFrom, ServicesFrom, FailedJobs, OwnerMap;
  }

  ghost predicate SaysItFailed(c: Controller)
  {
    exists i :: 0 <= i < |c.conditions| && c.conditions[i].status == "True" && c.conditions[i].kind in {"Failed", "FailureTarget"}
  }

  lemma JobFailedMeans(c: Controller)
    ensures JobFailed(c) <==> SaysItFailed(c)
  {
    forall i | 0 <= i < |c.conditions|
      ensures SaysFailed(c.conditions[i]) <==>
                c.conditions[i].status == "True" && c.conditions[i].kind in {"Failed", "FailureTarget"}
    {}
  }

  ghost predicate HasRestarted(p: Pod)
  {
    exists i :: 0 <= i < |p.containers| && (p.containers[i].restarts > 0 || p.containers[i].waiting == "CrashLoopBackOff")
  }

  /** A pod whose state counts for its workload; a Job's failed and finished
      pods do not. */
  ghost predicate CountsFor(raw: RawLists, p: Pod, wid: string, kind: Kind)
  {
    && p in raw.pods && WorkloadOf(p, OwnerMap(raw.replicaSets)) == wid
    && (kind == Job ==> p.phase != Failed && p.phase != Succeeded)
  }

  ghost predicate SomePodIsDown(raw: RawLists, wid: string, kind: Kind)
  {
    exists p :: CountsFor(raw, p, wid, kind) && (p.phase == Failed || p.phase == OtherPhase)
  }

  ghost predicate SomePodWarns(raw: RawLists, wid: string, kind: Kind)
  {
    exists p :: CountsFor(raw, p, wid, kind) && (p.phase == Pending || (p.phase in {Running, Succeeded} && HasRestarted(p)))
  }

  lemma RestartedMeans(p: Pod)
    ensures Restarted(p) <==> HasRestarted(p)
  {}

  lemma SignalMeans(p: Pod)
    ensures Signal(p) == Critical <==> p.phase == Failed || p.phase == OtherPhase
    ensures Signal(p) == Warning <==> p.phase == Pending || (p.phase in {Running, Succeeded} && HasRestarted(p))
  {
    RestartedMeans(p);
    hide Restarted, HasRestarted;
  }

  lemma JobIdsAreJobs(c: Controller, kind: Kind)
    ensures "job:" <= IdOf(c, kind) <==> kind == Job
    ensures IdOf(c, kind) != ""
  {
    var id, word := IdOf(c, kind), KindWord(kind);
    assert id[0] == word[0];
  }

  lemma WorstMeans(raw: RawLists, c: Controller, kind: Kind)
    ensures var wid, worst := IdOf(c, kind), Worst(raw.pods, OwnerMap(raw.replicaSets), IdOf(c, kind));
            && (worst == Critical <==> SomePodIsDown(raw, wid, kind))
            && (worst == Warning <==> !SomePodIsDown(raw, wid, kind) && SomePodWarns(raw, wid, kind))
  {
    JobIdsAreJobs(c, kind);
    hide WorkloadOf, OwnerMap, Signal, HasRestarted, IdOf;
    forall p
      ensures Signal(p) == Critical <==> p.phase == Failed || p.phase == OtherPhase
      ensures Signal(p) == Warning <==> p.phase == Pending || (p.phase in {Running, Succeeded} && HasRestarted(p))
    {
      SignalMeans(p);
    }
    var wid, o := IdOf(c, kind), OwnerMap(raw.replicaSets);
    assert forall p :: p in raw.pods ==> (Counts(p, o, wid) <==> CountsFor(raw, p, wid, kind));
  }

  /** A listed workload as its own object, and its pods, describe it: failed, or
      fewer ready than desired, is Warning whatever the pods; then the worst pod
      decides, and without any complaint it is Healthy. */
  lemma WorkloadIsDeclared(raw: RawLists, i: nat, c: Controller, kind: Kind)
    requires ListedAs(raw, i, c, kind)
    ensures i < |SnapshotOf(raw).workloads|
    ensures var w := SnapshotOf(raw).workloads[i];
            && Describes(w, c, kind)
            && w.health == if kind == Job && SaysItFailed(c) then Warning
                           else if kind != Job && w.ready < w.desired then Warning
                           else if SomePodIsDown(raw, w.id, kind) then Critical
                           else if SomePodWarns(raw, w.id, kind) then Warning
                           else Healthy
  {
    WorkloadAt(raw, i, c, kind);
    JobFailedMeans(c);
    WorstMeans(raw, c, kind);
    hide SnapshotOf, Worst, JobFailed, SaysItFailed, SomePodIsDown, SomePodWarns, OwnerMap;
    IdSpelt(c, kind, IdOf(c, kind));
  }

  lemma IdSpelt(c: Controller, kind: Kind, id: string)
    ensures id == IdOf(c, kind) <==> IsCalled(id, KindWord(kind), c)
  {}

  lemma WorkloadCount(raw: RawLists)
    ensures |SnapshotOf(raw).workloads| == |raw.deployments| + |raw.daemonSets| + |raw.statefulSets| + |raw.jobs|
  {
    hide NodesFrom, ServicesFrom, WorkloadFrom, FailedJobs, OwnerMap;
  }

  /** Every workload of the snapshot is a listed controller's. */
  lemma EveryWorkloadIsListed(raw: RawLists, i: nat) returns (c: Controller, kind: Kind)
    requires i < |SnapshotOf(raw).workloads|
    ensures ListedAs(raw, i, c, kind)
  {
    hide SnapshotOf;
    var d, e, f := |raw.deployments|, |raw.daemonSets|, |raw.statefulSets|;
    WorkloadCount(raw);
    if i < d {
      c, kind := raw.deployments[i], Deployment;
    } else if i < d + e {
      c, kind := raw.daemonSets[i - d], DaemonSet;
    } else if i < d + e + f {
      c, kind := raw.statefulSets[i - d - e], StatefulSet;
    } else {
      c, kind := raw.jobs[i - d - e - f], Job;
    }
  }

  /** Below its count: its ID, and what it has of what it wants. */
  predicate Short(c: Controller, word: string, ready: int, desired: int, alert: Alert)
  {
    alert.ReplicaSkew? && IsCalled(alert.id, word, c) && alert.ready == ready && alert.desired == desired && ready < desired
  }

  ghost predicate SomeIsShort(raw: RawLists, alert: Alert)
  {
    || (exists c :: c in raw.deployments && Short(c, "deployment", c.readyReplicas, c.replicas, alert))
    || (exists c :: c in raw.statefulSets && Short(c, "statefulSet", c.readyReplicas, c.replicas, alert))
    || (exists c :: c in raw.daemonSets && Short(c, "daemonSet", c.numberReady, c.scheduled, alert))
  }

  lemma AnyListed(raw: RawLists, c: Controller, kind: Kind) returns (i: nat)
    requires match kind
             case Deployment => c in raw.deployments
             case DaemonSet => c in raw.daemonSets
             case StatefulSet => c in raw.statefulSets
             case Job => c in raw.jobs
    ensures ListedAs(raw, i, c, kind)
  {
    var d, e, f := |raw.deployments|, |raw.daemonSets|, |raw.statefulSets|;
    match kind {
      case Deployment => i :| i < d && raw.deployments[i] == c;
      case DaemonSet =>
        var k: nat :| k < e && raw.daemonSets[k] == c;
        i := d + k;
      case StatefulSet =>
        var k: nat :| k < f && raw.statefulSets[k] == c;
        i := d + e + k;
      case Job =>
        var k: nat :| k < |raw.jobs| && raw.jobs[k] == c;
        i := d + e + f + k;
    }
  }

  /** A skew alert is raised exactly for a listed Deployment or StatefulSet with
      fewer ready than desired replicas, or a DaemonSet with fewer ready than
      scheduled, and it gives these two numbers. */
  lemma SkewAlertsAreDeclared(raw: RawLists, id: string, ready: int, desired: int)
    ensures ReplicaSkew(id, ready, desired) in SnapshotOf(raw).alerts <==> SomeIsShort(raw, ReplicaSkew(id, ready, desired))
  {
    var alert := ReplicaSkew(id, ready, desired);
    AlertsAre(raw, alert);
    hide SnapshotOf, FailedJobs, SomeIsShort;
    if alert in SnapshotOf(raw).alerts {
      var w :| w in SnapshotOf(raw).workloads && alert in WorkloadAlert(w, FailedJobs(raw.jobs));
      SeenIsShort(raw, w, alert);
    }
    if SomeIsShort(raw, alert) {
      ShortIsSeen(raw, alert);
    }
  }

  lemma SeenIsShort(raw: RawLists, w: Workload, alert: Alert)
    requires w in SnapshotOf(raw).workloads && alert.ReplicaSkew?
    requires w.id == alert.id && w.kind != Job && w.ready == alert.ready < w.desired == alert.desired
    ensures SomeIsShort(raw, alert)
  {
    hide SnapshotOf, IsCalled;
    var i: nat :| i < |SnapshotOf(raw).workloads| && SnapshotOf(raw).workloads[i] == w;
    var c, kind := EveryWorkloadIsListed(raw, i);
    WorkloadIsDeclared(raw, i, c, kind);
    hide SaysItFailed, SomePodIsDown, SomePodWarns;
    match kind {
      case Deployment => assert c in raw.deployments && Short(c, "deployment", c.readyReplicas, c.replicas, alert);
      case StatefulSet => assert c in raw.statefulSets && Short(c, "statefulSet", c.readyReplicas, c.replicas, alert);
      case DaemonSet => assert c in raw.daemonSets && Short(c, "daemonSet", c.numberReady, c.scheduled, alert);
    }
  }

  lemma ShortIsSeen(raw: RawLists, alert: Alert)
    requires SomeIsShort(raw, alert)
    ensures exists w :: w in SnapshotOf(raw).workloads && w.id == alert.id && w.kind != Job
                        && w.ready == alert.ready < w.desired == alert.desired
  {
    hide SnapshotOf;
    var c, kind;
    if exists x :: x in raw.deployments && Short(x, "deployment", x.readyReplicas, x.replicas, alert) {
      c :| c in raw.deployments && Short(c, "deployment", c.readyReplicas, c.replicas, alert);
      kind := Deployment;
    } else if exists x :: x in raw.statefulSets && Short(x, "statefulSet", x.readyReplicas, x.replicas, alert) {
      c :| c in raw.statefulSets && Short(c, "statefulSet", c.readyReplicas, c.replicas, alert);
      kind := StatefulSet;
    } else {
      c :| c in raw.daemonSets && Short(c, "daemonSet", c.numberReady, c.scheduled, alert);
      kind := DaemonSet;
    }
    var i := AnyListed(raw, c, kind);
    WorkloadIsDeclared(raw, i, c, kind);
    assert SnapshotOf(raw).workloads[i] in SnapshotOf(raw).workloads;
  }

  /** A Job's alert is raised exactly when its controller has declared it failed. */
  lemma JobAlertsAreDeclared(raw: RawLists, id: string)
    ensures JobHasFailed(id) in SnapshotOf(raw).alerts <==>
              exists c :: c in raw.jobs && IsCalled(id, "job", c) && SaysItFailed(c)
  {
    AlertsAre(raw, JobHasFailed(id));
    FailedJobsAre(raw.jobs, id);
    hide SnapshotOf, FailedJobs, SaysItFailed, IsCalled;
    if id in FailedJobs(raw.jobs) {
      var c :| c in raw.jobs && IsCalled(id, "job", c) && SaysItFailed(c);
      JobIsSeen(raw, c, id);
    }
  }

  lemma FailedJobsAre(jobs: seq<Controller>, id: string)
    ensures id in FailedJobs(jobs) <==> exists c :: c in jobs && IsCalled(id, "job", c) && SaysItFailed(c)
  {
    hide JobFailed, SaysItFailed, IdOf, IsCalled;
    forall c ensures (JobFailed(c) <==> SaysItFailed(c)) && (IdOf(c, Job) == id <==> IsCalled(id, "job", c)) {
      JobFailedMeans(c);
      IdSpelt(c, Job, id);
    }
  }

  lemma JobIsSeen(raw: RawLists, c: Controller, id: string)
    requires c in raw.jobs && IsCalled(id, "job", c)
    ensures exists w :: w in SnapshotOf(raw).workloads && w.id == id && w.kind == Job
  {
    hide SnapshotOf;
    var i := AnyListed(raw, c, Job);
    WorkloadIsDeclared(raw, i, c, Job);
    assert SnapshotOf(raw).workloads[i] in SnapshotOf(raw).workloads;
  }

  // ------------------------------------------------------- one alert for each

  lemma {:induction false} NodeAlertCount(ns: seq<Node>)
    requires forall v :: v in ns ==> v.health != Unset && (!v.schedulable ==> v.health != Healthy)
    ensures |NodeAlerts(ns)| == |Where(ns, (v: Node) => v.health != Healthy)|
  {
    hide Where;
    if ns == [] {
      NowhereYet(ns, (v: Node) => v.health != Healthy);
    } else {
      NodeAlertCount(ns[..|ns| - 1]);
      WhereOneMore(ns, (v: Node) => v.health != Healthy);
    }
  }

  lemma NowhereYet<T>(xs: seq<T>, f: T -> bool)
    requires xs == []
    ensures Where(xs, f) == {}
  {}

  /** Something is wrong with the workload itself. */
  predicate InTrouble(w: Workload, failed: set<string>)
  {
    if w.kind == Job then w.id in failed else w.ready < w.desired
  }

  lemma {:induction false} WorkloadAlertCount(ws: seq<Workload>, failed: set<string>)
    ensures |WorkloadAlerts(ws, failed)| == |Where(ws, (w: Workload) => InTrouble(w, failed))|
  {
    hide Where;
    if ws == [] {
      NowhereYet(ws, (w: Workload) => InTrouble(w, failed));
    } else {
      WorkloadAlertCount(ws[..|ws| - 1], failed);
      WhereOneMore(ws, (w: Workload) => InTrouble(w, failed));
    }
  }

  lemma {:induction false} ServiceAlertCount(ss: seq<Service>)
    ensures |ServiceAlerts(ss)| == |Where(ss, (v: Service) => v.health == Warning)|
  {
    hide Where;
    if ss == [] {
      NowhereYet(ss, (v: Service) => v.health == Warning);
    } else {
      ServiceAlertCount(ss[..|ss| - 1]);
      WhereOneMore(ss, (v: Service) => v.health == Warning);
    }
  }

  /** Nothing is reported twice: there is one alert for each node that is not
      healthy, each workload that failed or falls short, and each service that
      warns. */
  lemma AlertsAreCounted(raw: RawLists)
    ensures var s, failed := SnapshotOf(raw), FailedJobs(raw.jobs);
            |s.alerts| == |Where(s.nodes, (v: Node) => v.health != Healthy)|
                          + |Where(s.workloads, (w: Workload) => InTrouble(w, failed))|
                          + |Where(s.services, (v: Service) => v.health == Warning)|
  {
    var s := SnapshotOf(raw);
    NodesHaveHealth(raw);
    NodeAlertCount(s.nodes);
    WorkloadAlertCount(s.workloads, FailedJobs(raw.jobs));
    ServiceAlertCount(s.services);
    hide NodesFrom, AllWorkloads, ServicesFrom, FailedJobs, NodeAlerts, WorkloadAlerts, ServiceAlerts, InTrouble, Where;
  }

  lemma NodesHaveHealth(raw: RawLists)
    ensures forall v :: v in SnapshotOf(raw).nodes ==> v.health != Unset && (!v.schedulable ==> v.health != Healthy)
  {
    hide AllWorkloads, ServicesFrom, FailedJobs, Ready, UnderPressure, PodsOn;
    forall v | v in SnapshotOf(raw).nodes ensures v.health != Unset && (!v.schedulable ==> v.health != Healthy) {
      var i :| 0 <= i < |SnapshotOf(raw).nodes| && SnapshotOf(raw).nodes[i] == v;
      assert v == NodeOf(raw.nodes[i], PodsOn(raw.pods, NodeId(raw.nodes[i])));
    }
  }

  // --------------------------------------------------------------- ownership

  predicate NamesDeployment(o: Ref)
  {
    o.kind == "Deployment" && o.name != ""
  }

  /** `d` is the ID of the Deployment that the ReplicaSet names first. */
  ghost predicate OwnedBy(rs: ReplicaSet, d: string)
  {
    rs.ns != "" && rs.name != "" &&
    exists i :: 0 <= i < |rs.owners| && NamesDeployment(rs.owners[i])
                && (forall k :: 0 <= k < i ==> !NamesDeployment(rs.owners[k]))
                && d == "deployment:" + rs.ns + "/" + rs.owners[i].name
  }

  lemma {:induction false} FirstDeployment(owners: seq<Ref>, i: nat)
    requires i < |owners| && NamesDeployment(owners[i]) && forall k :: 0 <= k < i ==> !NamesDeployment(owners[k])
    ensures DeploymentName(owners) == owners[i].name
  {
    if i > 0 {
      assert !NamesDeployment(owners[0]);
      FirstDeployment(owners[1..], i - 1);
    }
  }

  lemma {:induction false} DeploymentIsNamed(owners: seq<Ref>) returns (i: nat)
    requires DeploymentName(owners) != ""
    ensures i < |owners| && NamesDeployment(owners[i]) && owners[i].name == DeploymentName(owners)
    ensures forall k :: 0 <= k < i ==> !NamesDeployment(owners[k])
  {
    if NamesDeployment(owners[0]) {
      i := 0;
    } else {
      var k := DeploymentIsNamed(owners[1..]);
      i := k + 1;
      forall j | 0 <= j < i ensures !NamesDeployment(owners[j]) {
        if j > 0 { assert owners[j] == owners[1..][j - 1]; }
      }
    }
  }

  lemma DeploymentOfMeans(rs: ReplicaSet, d: string)
    requires d != ""
    ensures DeploymentOf(rs) == d <==> OwnedBy(rs, d)
  {
    if DeploymentOf(rs) == d {
      var i := DeploymentIsNamed(rs.owners);
    }
    if OwnedBy(rs, d) {
      var i: nat :| 0 <= i < |rs.owners| && NamesDeployment(rs.owners[i])
                    && (forall k :: 0 <= k < i ==> !NamesDeployment(rs.owners[k]))
                    && d == "deployment:" + rs.ns + "/" + rs.owners[i].name;
      FirstDeployment(rs.owners, i);
    }
  }

  predicate NamesOwner(o: Ref)
  {
    o.name != "" && o.kind in {"ReplicaSet", "DaemonSet", "StatefulSet", "Job"}
  }

  /** The workload that an owner in namespace `ns` stands for; a ReplicaSet stands
      for the Deployment of the last owned one with its namespace and name. */
  ghost predicate StandsFor(ns: string, o: Ref, items: seq<ReplicaSet>, wid: string)
  {
    if o.kind == "ReplicaSet" then exists i :: LastOwned(items, i, ns + "/" + o.name, wid)
    else if o.kind == "DaemonSet" then wid == "daemonSet:" + ns + "/" + o.name
    else if o.kind == "StatefulSet" then wid == "statefulSet:" + ns + "/" + o.name
    else wid == "job:" + ns + "/" + o.name
  }

  ghost predicate LastOwned(items: seq<ReplicaSet>, i: int, key: string, d: string)
  {
    && 0 <= i < |items| && items[i].ns + "/" + items[i].name == key && OwnedBy(items[i], d)
    && forall j :: i < j < |items| && items[j].ns + "/" + items[j].name == key ==> forall e :: !OwnedBy(items[j], e)
  }

  lemma LastOwnedMeans(items: seq<ReplicaSet>, i: int, key: string, d: string)
    requires d != ""
    ensures IsLastOwned(items, i, key, d) <==> LastOwned(items, i, key, d)
  {
    hide DeploymentOf, OwnedBy;
    forall rs ensures (DeploymentOf(rs) == d <==> OwnedBy(rs, d)) && (DeploymentOf(rs) != "" <==> exists e :: OwnedBy(rs, e)) {
      DeploymentOfMeans(rs, d);
      OwnedAtAll(rs);
    }
  }

  lemma OwnedAtAll(rs: ReplicaSet)
    ensures DeploymentOf(rs) != "" <==> exists e :: OwnedBy(rs, e)
  {
    if DeploymentOf(rs) != "" {
      DeploymentOfMeans(rs, DeploymentOf(rs));
    }
    if exists e :: OwnedBy(rs, e) {
      var e :| OwnedBy(rs, e);
      DeploymentOfMeans(rs, e);
    }
  }

  lemma {:induction false} FirstOwner(ns: string, owners: seq<Ref>, o: map<string, string>, i: nat)
    requires i < |owners| && NamesOwner(owners[i]) && forall k :: 0 <= k < i ==> !NamesOwner(owners[k])
    ensures WorkloadOfOwners(ns, owners, o) == WorkloadOfOwners(ns, [owners[i]], o)
  {
    if i > 0 {
      assert !NamesOwner(owners[0]);
      FirstOwner(ns, owners[1..], o, i - 1);
      assert owners[1..][i - 1] == owners[i];
    }
  }

  lemma {:induction false} OwnerIsNamed(ns: string, owners: seq<Ref>, o: map<string, string>) returns (i: nat)
    requires WorkloadOfOwners(ns, owners, o) != ""
    ensures i < |owners| && NamesOwner(owners[i]) && forall k :: 0 <= k < i ==> !NamesOwner(owners[k])
  {
    if NamesOwner(owners[0]) {
      i := 0;
    } else {
      var k := OwnerIsNamed(ns, owners[1..], o);
      i := k + 1;
      forall j | 0 <= j < i ensures !NamesOwner(owners[j]) {
        if j > 0 { assert owners[j] == owners[1..][j - 1]; }
      }
    }
  }

  lemma OneOwner(ns: string, r: Ref, items: seq<ReplicaSet>, wid: string)
    requires NamesOwner(r) && wid != ""
    ensures WorkloadOfOwners(ns, [r], OwnerMap(items)) == wid <==> StandsFor(ns, r, items, wid)
  {
    if r.kind == "ReplicaSet" {
      OwnerMapIsLastOwned(items, ns + "/" + r.name, wid);
      forall i ensures IsLastOwned(items, i, ns + "/" + r.name, wid) <==> LastOwned(items, i, ns + "/" + r.name, wid) {
        LastOwnedMeans(items, i, ns + "/" + r.name, wid);
      }
    }
    hide OwnerMap, IsLastOwned, LastOwned;
  }

  /** A pod belongs to the workload that the first owner it names of a known kind
      stands for. */
  lemma OwnerIsDeclared(p: Pod, items: seq<ReplicaSet>, wid: string)
    requires wid != ""
    ensures WorkloadOf(p, OwnerMap(items)) == wid <==>
              p.ns != "" && exists i :: 0 <= i < |p.owners| && NamesOwner(p.owners[i])
                                        && (forall k :: 0 <= k < i ==> !NamesOwner(p.owners[k]))
                                        && StandsFor(p.ns, p.owners[i], items, wid)
  {
    hide OwnerMap, StandsFor;
    if WorkloadOf(p, OwnerMap(items)) == wid {
      var i := OwnerIsNamed(p.ns, p.owners, OwnerMap(items));
      FirstOwner(p.ns, p.owners, OwnerMap(items), i);
      OneOwner(p.ns, p.owners[i], items, wid);
    }
    if p.ns != "" && exists i :: 0 <= i < |p.owners| && NamesOwner(p.owners[i])
                                 && (forall k :: 0 <= k < i ==> !NamesOwner(p.owners[k]))
                                 && StandsFor(p.ns, p.owners[i], items, wid) {
      var i: nat :| i < |p.owners| && NamesOwner(p.owners[i])
                    && (forall k :: 0 <= k < i ==> !NamesOwner(p.owners[k]))
                    && StandsFor(p.ns, p.owners[i], items, wid);
      FirstOwner(p.ns, p.owners, OwnerMap(items), i);
      OneOwner(p.ns, p.owners[i], items, wid);
    }
  }

  // ---------------------------------------------------------------- services

  /** A listed service under its own name, warning exactly when its selector is
      not empty and matches nothing. */
  lemma ServiceIsDeclared(raw: RawLists, i: nat)
    requires i < |raw.services|
    ensures |SnapshotOf(raw).services| == |raw.services|
    ensures var s, v := raw.services[i], SnapshotOf(raw).services[i];
            && v.ns == (if s.ns == "" then "default" else s.ns)
            && v.name == (if s.name == "" then "unknown-service" else s.name)
            && v.id == "service:" + v.ns + "/" + v.name
            && v.health == if s.selector != map[] && v.targets == [] then Warning else Healthy
  {
    hide AllWorkloads, TargetSet, ById, PodWorkloads, OwnerMap, NodesFrom, FailedJobs;
  }
}
