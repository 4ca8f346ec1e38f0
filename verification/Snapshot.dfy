/** What a cluster snapshot is, as a relation between the listed objects and the
    snapshot's parts. Nothing here goes through a list of pods in order, but for
    the owner a resource key ends up with. */
module Snapshot {
  import opened Names
  import opened Strings

  datatype Health = Unset | Healthy | Warning | Critical

  /** A pod's lower-cased phase. */
  datatype PodPhase = Running | Succeeded | Pending | Failed | OtherPhase

  datatype Ref = Ref(kind: string, name: string)

  datatype Container = Container(restarts: int, waiting: string)

  datatype Condition = Condition(kind: string, status: string)

  type Labels = map<string, string>

  /** Listed objects; an absent string reads as "", an absent number as 0, an
      absent list or map as an empty one. */
  datatype Pod = Pod(ns: string, name: string, node: string, owners: seq<Ref>, labels: Labels,
                     phase: PodPhase, containers: seq<Container>)
  datatype ReplicaSet = ReplicaSet(ns: string, name: string, owners: seq<Ref>)
  datatype Controller = Controller(ns: string, name: string, replicas: int, readyReplicas: int, scheduled: int,
                                   numberReady: int, completions: int, succeeded: int, active: int,
                                   conditions: seq<Condition>)
  datatype NodeItem = NodeItem(name: string, conditions: seq<Condition>, unschedulable: bool)
  datatype ServiceItem = ServiceItem(ns: string, name: string, selector: Labels)

  datatype RawLists = RawLists(nodes: seq<NodeItem>, pods: seq<Pod>, services: seq<ServiceItem>,
                               deployments: seq<Controller>, daemonSets: seq<Controller>,
                               statefulSets: seq<Controller>, jobs: seq<Controller>, replicaSets: seq<ReplicaSet>)

  datatype Kind = Deployment | DaemonSet | StatefulSet | Job

  /** The snapshot's parts. */
  datatype Node = Node(id: string, podCount: nat, schedulable: bool, health: Health)
  datatype Workload = Workload(id: string, ns: string, name: string, kind: Kind, desired: int, ready: int,
                               nodeIds: seq<string>, health: Health)
  datatype Service = Service(id: string, ns: string, name: string, targets: seq<string>, health: Health)
  datatype Alert = NodeNotReady(id: string) | NodeUnschedulable(id: string) | NodePressure(id: string)
                 | JobHasFailed(id: string) | ReplicaSkew(id: string, ready: int, desired: int) | NoWorkloads(id: string)
  datatype Link = WorkloadLink(node: string, wid: string) | ServiceLink(service: string, wid: string)
  datatype ClusterSnapshot = ClusterSnapshot(nodes: seq<Node>, workloads: seq<Workload>, services: seq<Service>,
                                             alerts: seq<Alert>, links: seq<Link>)

  function OrDefault(v: string, d: string): string
  {
    if v == "" then d else v
  }

  function Read(m: map<string, string>, k: string): string
  {
    if k in m then m[k] else ""
  }

  function KindWord(k: Kind): string
  {
    match k
    case Deployment => "deployment"
    case DaemonSet => "daemonSet"
    case StatefulSet => "statefulSet"
    case Job => "job"
  }

  // -------------------------------------------------------------- ownership

  /** The Deployment a ReplicaSet names first. */
  function DeploymentName(owners: seq<Ref>): string
  {
    if owners == [] then ""
    else if owners[0].kind == "Deployment" && owners[0].name != "" then owners[0].name
    else DeploymentName(owners[1..])
  }

  /** The deployment's workload ID, or "" when the ReplicaSet has none. */
  function DeploymentOf(rs: ReplicaSet): string
  {
    var d := DeploymentName(rs.owners);
    if rs.ns == "" || rs.name == "" || d == "" then "" else ResourceId("deployment", rs.ns, d)
  }

  /** Resource key to deployment; of two ReplicaSets with one key the later one
      counts. */
  function OwnerMap(items: seq<ReplicaSet>): map<string, string>
  {
    if items == [] then map[]
    else
      var m, rs := OwnerMap(items[..|items| - 1]), items[|items| - 1];
      if DeploymentOf(rs) == "" then m else m[ResourceKey(rs.ns, rs.name) := DeploymentOf(rs)]
  }

  function WorkloadOfOwners(ns: string, owners: seq<Ref>, rsOwners: map<string, string>): string
  {
    if owners == [] then ""
    else
      var o := owners[0];
      if o.name == "" then WorkloadOfOwners(ns, owners[1..], rsOwners)
      else if o.kind == "ReplicaSet" then Read(rsOwners, ResourceKey(ns, o.name))
      else if o.kind == "DaemonSet" then ResourceId("daemonSet", ns, o.name)
      else if o.kind == "StatefulSet" then ResourceId("statefulSet", ns, o.name)
      else if o.kind == "Job" then ResourceId("job", ns, o.name)
      else WorkloadOfOwners(ns, owners[1..], rsOwners)
  }

  /** `workloadIDForPod`. */
  function WorkloadOf(p: Pod, rsOwners: map<string, string>): string
  {
    if p.ns == "" then "" else WorkloadOfOwners(p.ns, p.owners, rsOwners)
  }

  predicate IsNamed(p: Pod)
  {
    p.ns != "" && p.name != ""
  }

  function KeyOf(p: Pod): string
  {
    ResourceKey(p.ns, p.name)
  }

  /** Resource key to workload; of two owned pods with one key the later one
      counts. */
  function PodWorkloads(pods: seq<Pod>, rsOwners: map<string, string>): map<string, string>
  {
    if pods == [] then map[]
    else
      var m, p := PodWorkloads(pods[..|pods| - 1], rsOwners), pods[|pods| - 1];
      if WorkloadOf(p, rsOwners) == "" then m else m[KeyOf(p) := WorkloadOf(p, rsOwners)]
  }

  // ----------------------------------------------------------------- counts

  /** How many pods sit on node `n`. */
  function PodsOn(pods: seq<Pod>, n: string): nat
  {
    if pods == [] then 0 else PodsOn(pods[..|pods| - 1], n) + (if pods[|pods| - 1].node == n then 1 else 0)
  }

  /** The nodes a workload's pods sit on. */
  function NodesOf(pods: seq<Pod>, rsOwners: map<string, string>, wid: string): set<string>
  {
    set p | p in pods && WorkloadOf(p, rsOwners) == wid && wid != "" && p.node != "" :: p.node
  }

  // ----------------------------------------------------------------- health

  predicate Restarted(p: Pod)
  {
    exists c :: c in p.containers && (c.restarts > 0 || c.waiting == "CrashLoopBackOff")
  }

  function Signal(p: Pod): Health
  {
    match p.phase
    case Running => if Restarted(p) then Warning else Healthy
    case Succeeded => if Restarted(p) then Warning else Healthy
    case Pending => Warning
    case _ => Critical
  }

  /** A Job's failed and finished pods do not say how it is doing now. */
  predicate Counts(p: Pod, rsOwners: map<string, string>, wid: string)
  {
    wid != "" && WorkloadOf(p, rsOwners) == wid && !("job:" <= wid && (p.phase == Failed || p.phase == Succeeded))
  }

  ghost predicate Signalled(pods: seq<Pod>, rsOwners: map<string, string>, wid: string, h: Health)
  {
    exists p :: p in pods && Counts(p, rsOwners, wid) && Signal(p) == h
  }

  /** The worst signal of a workload's pods. */
  ghost function Worst(pods: seq<Pod>, rsOwners: map<string, string>, wid: string): Health
  {
    if Signalled(pods, rsOwners, wid, Critical) then Critical
    else if Signalled(pods, rsOwners, wid, Warning) then Warning
    else if Signalled(pods, rsOwners, wid, Healthy) then Healthy
    else Unset
  }

  function MaxHealth(current: Health, next: Health): Health
  {
    if current == Unset then next
    else if current == Critical || next == Critical then Critical
    else if current == Warning || next == Warning then Warning
    else Healthy
  }

  /** `maxHealth` is a join with the empty signal as identity. */
  lemma MaxHealthIsAJoin(a: Health, b: Health, c: Health)
    ensures MaxHealth(Unset, a) == a && MaxHealth(a, Unset) == a && MaxHealth(a, a) == a
    ensures MaxHealth(a, b) == MaxHealth(b, a)
    ensures MaxHealth(MaxHealth(a, b), c) == MaxHealth(a, MaxHealth(b, c))
  {}

  // ------------------------------------------------------------------ parts

  predicate Contains(s: string, t: string)
  {
    t <= s || (s != "" && Contains(s[1..], t))
  }

  predicate Ready(n: NodeItem)
  {
    exists c :: c in n.conditions && c.kind == "Ready" && c.status == "True"
  }

  predicate UnderPressure(n: NodeItem)
  {
    exists c :: c in n.conditions && Contains(c.kind, "Pressure") && c.status == "True"
  }

  function NodeId(n: NodeItem): string
  {
    OrDefault(n.name, "unknown-node")
  }

  function NodeOf(n: NodeItem, podCount: nat): Node
  {
    Node(NodeId(n), podCount, !n.unschedulable,
         if !Ready(n) then Critical else if UnderPressure(n) || n.unschedulable then Warning else Healthy)
  }

  predicate JobFailed(c: Controller)
  {
    exists x :: x in c.conditions && SaysFailed(x)
  }

  predicate SaysFailed(x: Condition)
  {
    x.status == "True" && (x.kind == "Failed" || x.kind == "FailureTarget")
  }

  function Ns(c: Controller): string
  {
    OrDefault(c.ns, "default")
  }

  function Name(c: Controller): string
  {
    OrDefault(c.name, "unknown")
  }

  function IdOf(c: Controller, kind: Kind): string
  {
    ResourceId(KindWord(kind), Ns(c), Name(c))
  }

  function Desired(c: Controller, kind: Kind): int
  {
    match kind
    case Deployment => c.replicas
    case StatefulSet => c.replicas
    case DaemonSet => c.scheduled
    case Job => if c.completions != 0 then c.completions else if c.active > 0 then 1 else c.succeeded
  }

  function ReadyCount(c: Controller, kind: Kind): int
  {
    match kind
    case Deployment => c.readyReplicas
    case StatefulSet => c.readyReplicas
    case DaemonSet => c.numberReady
    case Job => c.succeeded
  }

  function WorkloadHealth(c: Controller, kind: Kind, signal: Health): Health
  {
    if kind == Job && JobFailed(c) then Warning
    else if kind != Job && ReadyCount(c, kind) < Desired(c, kind) then Warning
    else if signal != Unset then signal
    else Healthy
  }

  ghost function WorkloadFrom(c: Controller, kind: Kind, pods: seq<Pod>, rsOwners: map<string, string>): Workload
  {
    var wid := IdOf(c, kind);
    Workload(wid, Ns(c), Name(c), kind, Desired(c, kind), ReadyCount(c, kind), Listing(NodesOf(pods, rsOwners, wid)),
             WorkloadHealth(c, kind, Worst(pods, rsOwners, wid)))
  }

  ghost function WorkloadsFrom(items: seq<Controller>, kind: Kind, pods: seq<Pod>, rsOwners: map<string, string>)
    : (ws: seq<Workload>)
    ensures |ws| == |items| && forall i :: 0 <= i < |items| ==> ws[i] == WorkloadFrom(items[i], kind, pods, rsOwners)
  {
    seq(|items|, i requires 0 <= i < |items| => WorkloadFrom(items[i], kind, pods, rsOwners))
  }

  ghost function AllWorkloads(raw: RawLists): seq<Workload>
  {
    var o := OwnerMap(raw.replicaSets);
    WorkloadsFrom(raw.deployments, Deployment, raw.pods, o) + WorkloadsFrom(raw.daemonSets, DaemonSet, raw.pods, o)
    + WorkloadsFrom(raw.statefulSets, StatefulSet, raw.pods, o) + WorkloadsFrom(raw.jobs, Job, raw.pods, o)
  }

  /** Listed workloads by ID; the last of an ID counts. */
  function ById(ws: seq<Workload>): map<string, Workload>
  {
    if ws == [] then map[] else ById(ws[..|ws| - 1])[ws[|ws| - 1].id := ws[|ws| - 1]]
  }

  /** Every selector entry is met; a missing label reads as "". */
  predicate Selects(selector: Labels, labels: Labels)
  {
    forall k :: k in selector ==> Read(labels, k) == selector[k]
  }

  /** Some named pod with one of these labellings belongs to the workload. */
  predicate Backed(pods: seq<Pod>, podWorkloads: map<string, string>, wid: string, selector: Labels)
  {
    exists p :: p in pods && IsNamed(p) && KeyOf(p) in podWorkloads && podWorkloads[KeyOf(p)] == wid
                && Selects(selector, p.labels)
  }

  function TargetSet(ns: string, selector: Labels, byId: map<string, Workload>, pods: seq<Pod>,
                     podWorkloads: map<string, string>): set<string>
  {
    set wid | wid in byId && byId[wid].ns == ns && Backed(pods, podWorkloads, wid, selector)
  }

  ghost function ServiceFrom(s: ServiceItem, byId: map<string, Workload>, pods: seq<Pod>,
                             podWorkloads: map<string, string>): Service
  {
    var ns, name := OrDefault(s.ns, "default"), OrDefault(s.name, "unknown-service");
    var targets := if s.selector == map[] then [] else Listing(TargetSet(ns, s.selector, byId, pods, podWorkloads));
    Service(ResourceId("service", ns, name), ns, name, targets,
            if s.selector != map[] && targets == [] then Warning else Healthy)
  }

  ghost function NodesFrom(raw: RawLists): (ns: seq<Node>)
    ensures |ns| == |raw.nodes|
    ensures forall i :: 0 <= i < |ns| ==> ns[i] == NodeOf(raw.nodes[i], PodsOn(raw.pods, NodeId(raw.nodes[i])))
  {
    seq(|raw.nodes|, i requires 0 <= i < |raw.nodes| => NodeOf(raw.nodes[i], PodsOn(raw.pods, NodeId(raw.nodes[i]))))
  }

  ghost function ServicesFrom(raw: RawLists): (ss: seq<Service>)
    ensures |ss| == |raw.services|
    ensures forall i :: 0 <= i < |ss| ==>
              ss[i] == ServiceFrom(raw.services[i], ById(AllWorkloads(raw)), raw.pods,
                                   PodWorkloads(raw.pods, OwnerMap(raw.replicaSets)))
  {
    var byId, podWorkloads := ById(AllWorkloads(raw)), PodWorkloads(raw.pods, OwnerMap(raw.replicaSets));
    seq(|raw.services|, i requires 0 <= i < |raw.services| => ServiceFrom(raw.services[i], byId, raw.pods, podWorkloads))
  }

  // ---------------------------------------------------------- alerts, links

  function NodeAlert(n: Node): seq<Alert>
  {
    if n.health == Critical then [NodeNotReady(n.id)]
    else if !n.schedulable then [NodeUnschedulable(n.id)]
    else if n.health == Warning then [NodePressure(n.id)]
    else []
  }

  function NodeAlerts(ns: seq<Node>): seq<Alert>
  {
    if ns == [] then [] else NodeAlerts(ns[..|ns| - 1]) + NodeAlert(ns[|ns| - 1])
  }

  function FailedJobs(jobs: seq<Controller>): set<string>
  {
    set c | c in jobs && JobFailed(c) :: IdOf(c, Job)
  }

  function WorkloadAlert(w: Workload, failed: set<string>): seq<Alert>
  {
    if w.kind == Job then (if w.id in failed then [JobHasFailed(w.id)] else [])
    else if w.ready < w.desired then [ReplicaSkew(w.id, w.ready, w.desired)]
    else []
  }

  function WorkloadAlerts(ws: seq<Workload>, failed: set<string>): seq<Alert>
  {
    if ws == [] then [] else WorkloadAlerts(ws[..|ws| - 1], failed) + WorkloadAlert(ws[|ws| - 1], failed)
  }

  function ServiceAlert(s: Service): seq<Alert>
  {
    if s.health == Warning then [NoWorkloads(s.id)] else []
  }

  function ServiceAlerts(ss: seq<Service>): seq<Alert>
  {
    if ss == [] then [] else ServiceAlerts(ss[..|ss| - 1]) + ServiceAlert(ss[|ss| - 1])
  }

  function LinksOfWorkload(w: Workload): seq<Link>
  {
    seq(|w.nodeIds|, i requires 0 <= i < |w.nodeIds| => WorkloadLink(w.nodeIds[i], w.id))
  }

  function WorkloadLinks(ws: seq<Workload>): seq<Link>
  {
    if ws == [] then [] else WorkloadLinks(ws[..|ws| - 1]) + LinksOfWorkload(ws[|ws| - 1])
  }

  function LinksOfService(s: Service): seq<Link>
  {
    seq(|s.targets|, i requires 0 <= i < |s.targets| => ServiceLink(s.id, s.targets[i]))
  }

  function ServiceLinks(ss: seq<Service>): seq<Link>
  {
    if ss == [] then [] else ServiceLinks(ss[..|ss| - 1]) + LinksOfService(ss[|ss| - 1])
  }

  ghost function SnapshotOf(raw: RawLists): ClusterSnapshot
  {
    var nodes, workloads, services := NodesFrom(raw), AllWorkloads(raw), ServicesFrom(raw);
    ClusterSnapshot(nodes, workloads, services,
                    NodeAlerts(nodes) + WorkloadAlerts(workloads, FailedJobs(raw.jobs)) + ServiceAlerts(services),
                    WorkloadLinks(workloads) + ServiceLinks(services))
  }
}
