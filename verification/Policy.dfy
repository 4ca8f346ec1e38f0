/** The gates in front of every mutation: ID validation, ScalePolicy, NodePolicy
    and the approval requirement. */
module Policy {
  import Names
  import opened Wrappers

  datatype ScalePolicy = ScalePolicy(maxReplicas: int, allowedNamespaces: seq<string>)

  datatype NodePolicy = NodePolicy(allowedNodes: seq<string>, protectedNodes: seq<string>, disableDrain: bool)

  /** Which rule refused; Allowed is the empty reason. */
  datatype Verdict = Allowed | TooManyReplicas | NoNamespace | NamespaceNotAllowed
                   | DrainDisabled | NoNode | NodeProtected | NodeNotAllowed

  datatype Op = Scale | Restart | Cordon | Drain

  /** None is a nil policy or a nil approval store. */
  datatype Config = Config(scale: Option<ScalePolicy>, nodes: Option<NodePolicy>, approvals: Option<set<Op>>, tokens: bool)

  function EvaluateNamespace(p: Option<ScalePolicy>, ns: string): Verdict
  {
    if p.None? || p.value.allowedNamespaces == [] then Allowed
    else if ns == "" then NoNamespace
    else if ns !in p.value.allowedNamespaces then NamespaceNotAllowed
    else Allowed
  }

  function Evaluate(p: Option<ScalePolicy>, ns: string, replicas: int): Verdict
  {
    if p.None? then Allowed
    else if p.value.maxReplicas > 0 && replicas > p.value.maxReplicas then TooManyReplicas
    else EvaluateNamespace(p, ns)
  }

  function EvaluateNode(p: NodePolicy, node: string): Verdict
  {
    if node == "" then NoNode
    else if node in p.protectedNodes then NodeProtected
    else if p.allowedNodes != [] && node !in p.allowedNodes then NodeNotAllowed
    else Allowed
  }

  function EvaluateCordon(p: Option<NodePolicy>, node: string, unschedulable: bool): Verdict
  {
    if p.None? || !unschedulable then Allowed else EvaluateNode(p.value, node)
  }

  function EvaluateDrain(p: Option<NodePolicy>, node: string): Verdict
  {
    if p.None? then Allowed
    else if p.value.disableDrain then DrainDisabled
    else EvaluateNode(p.value, node)
  }

  /** `ApprovalStore.Requires`: gating cordon also gates drain. */
  predicate Requires(c: Config, op: Op)
  {
    c.approvals.Some? && (op in c.approvals.value || (op == Drain && Cordon in c.approvals.value))
  }

  /** What a client can ask for. `replicas` is None when the body has no count. */
  datatype Ask =
    | AskScale(target: string, replicas: Option<int>)
    | AskRestart(target: string)
    | AskCordon(target: string, unschedulable: bool)
    | AskDrain(target: string)

  /** What reaches the backend. */
  datatype Mutation =
    | DoScale(target: string, replicas: int)
    | DoRestart(target: string)
    | DoCordon(target: string, unschedulable: bool)
    | DoDrain(target: string)

  datatype Decision = Refuse(status: int) | Park(op: Op, target: string, replicas: Option<int>) | Execute(m: Mutation)

  /** The handlers' order: target present, target valid, body valid, policy, then
      park or execute. */
  function Gate(c: Config, a: Ask): Decision
  {
    if a.target == "" then Refuse(404)
    else match a
      case AskScale(target, replicas) =>
        var id := Names.ParseWorkloadId(target);
        if id.BadRequest? then Refuse(400)
        else if replicas.None? || replicas.value < 0 then Refuse(400)
        else if Evaluate(c.scale, id.ns, replicas.value) != Allowed then Refuse(403)
        else if Requires(c, Scale) then Park(Scale, target, replicas)
        else Execute(DoScale(target, replicas.value))
      case AskRestart(target) =>
        var id := Names.ParseWorkloadId(target);
        if id.BadRequest? then Refuse(400)
        else if EvaluateNamespace(c.scale, id.ns) != Allowed then Refuse(403)
        else if Requires(c, Restart) then Park(Restart, target, None)
        else Execute(DoRestart(target))
      case AskCordon(target, unschedulable) =>
        if !Names.ValidNodeId(target) then Refuse(400)
        else if EvaluateCordon(c.nodes, target, unschedulable) != Allowed then Refuse(403)
        else if unschedulable && Requires(c, Cordon) then Park(Cordon, target, None)
        else Execute(DoCordon(target, unschedulable))
      case AskDrain(target) =>
        if !Names.ValidNodeId(target) then Refuse(400)
        else if EvaluateDrain(c.nodes, target) != Allowed then Refuse(403)
        else if Requires(c, Drain) then Park(Drain, target, None)
        else Execute(DoDrain(target))
  }

  /** `executePending`: the mutation an approved request stands for. A scale
      without a count stands for none. */
  function Captured(op: Op, target: string, replicas: Option<int>): Option<Mutation>
  {
    match op
    case Scale => if replicas.None? then None else Some(DoScale(target, replicas.value))
    case Restart => Some(DoRestart(target))
    case Cordon => Some(DoCordon(target, true))
    case Drain => Some(DoDrain(target))
  }

  // --------------------------------------------- what may reach the backend

  predicate NamespaceOpen(c: Config, ns: string)
  {
    c.scale.None? || c.scale.value.allowedNamespaces == [] || ns in c.scale.value.allowedNamespaces
  }

  predicate NodeOpen(c: Config, node: string)
  {
    c.nodes.None? || (node !in c.nodes.value.protectedNodes &&
                      (c.nodes.value.allowedNodes == [] || node in c.nodes.value.allowedNodes))
  }

  ghost predicate NamesWorkload(target: string, ns: string)
  {
    exists kind, name :: Names.Prints(target, kind, ns, name)
  }

  /** The rules as an operator reads them, without an order of evaluation. */
  ghost predicate Permitted(c: Config, m: Mutation)
  {
    match m
    case DoScale(target, replicas) =>
      replicas >= 0
      && (c.scale.None? || c.scale.value.maxReplicas <= 0 || replicas <= c.scale.value.maxReplicas)
      && exists ns :: NamesWorkload(target, ns) && NamespaceOpen(c, ns)
    case DoRestart(target) => exists ns :: NamesWorkload(target, ns) && NamespaceOpen(c, ns)
    case DoCordon(node, unschedulable) => Names.IsSubdomain(node) && (unschedulable ==> NodeOpen(c, node))
    case DoDrain(node) => Names.IsSubdomain(node) && NodeOpen(c, node) && (c.nodes.Some? ==> !c.nodes.value.disableDrain)
  }

  /** A drain needs what its cordon needs; lifting a cordon never does. */
  predicate NeedsApproval(c: Config, m: Mutation)
  {
    c.approvals.Some? &&
    match m
    case DoScale(_, _) => Scale in c.approvals.value
    case DoRestart(_) => Restart in c.approvals.value
    case DoCordon(_, unschedulable) => unschedulable && Cordon in c.approvals.value
    case DoDrain(_) => Drain in c.approvals.value || Cordon in c.approvals.value
  }

  /** The ask names a workload or a node as the grammar allows, and a scale has
      a count. */
  ghost predicate WellFormed(a: Ask)
  {
    match a
    case AskScale(target, replicas) => (exists ns :: NamesWorkload(target, ns)) && replicas.Some? && replicas.value >= 0
    case AskRestart(target) => exists ns :: NamesWorkload(target, ns)
    case AskCordon(target, _) => |target| <= 253 && Names.GrammarSubdomain(target)
    case AskDrain(target) => |target| <= 253 && Names.GrammarSubdomain(target)
  }

  /** The mutation an ask stands for, if it is well-formed. */
  function Wanted(a: Ask): Option<Mutation>
  {
    match a
    case AskScale(target, replicas) => if replicas.None? then None else Some(DoScale(target, replicas.value))
    case AskRestart(target) => Some(DoRestart(target))
    case AskCordon(target, unschedulable) => Some(DoCordon(target, unschedulable))
    case AskDrain(target) => Some(DoDrain(target))
  }

  lemma WorkloadNamed(target: string)
    ensures Names.ParseWorkloadId(target).Parsed? ==>
              NamesWorkload(target, Names.ParseWorkloadId(target).ns) && Names.ParseWorkloadId(target).ns != ""
    ensures forall ns :: NamesWorkload(target, ns) ==>
              Names.ParseWorkloadId(target).Parsed? && Names.ParseWorkloadId(target).ns == ns
  {
    Names.AcceptedIdsAreThePrints(target);
    hide Names.Prints;
  }

  /** The gate refuses exactly what the rules do not permit; what it lets
      through it parks exactly when an approval is needed, and either way the
      mutation is the one asked for. It answers 404 without a target, 400 to an
      ask that is not well-formed, and 403 to one the rules alone forbid. */
  lemma GateIsExact(c: Config, a: Ask)
    ensures Gate(c, a).Refuse? <==> Wanted(a).None? || !Permitted(c, Wanted(a).value)
    ensures Gate(c, a).Refuse? ==>
              Gate(c, a).status == if a.target == "" then 404 else if !WellFormed(a) then 400 else 403
    ensures Gate(c, a).Park? ==>
              Captured(Gate(c, a).op, Gate(c, a).target, Gate(c, a).replicas) == Wanted(a) && NeedsApproval(c, Wanted(a).value)
    ensures Gate(c, a).Execute? ==> Wanted(a) == Some(Gate(c, a).m) && !NeedsApproval(c, Gate(c, a).m)
  {
    hide NamesWorkload, Names.IsSubdomain, Names.GrammarSubdomain, Names.ParseWorkloadId;
    WorkloadNamed(a.target);
    Names.SubdomainScanMatchesGrammar(a.target);
    if a.target == "" {
      NothingNamed(a.target);
    }
  }

  lemma NothingNamed(target: string)
    requires target == ""
    ensures !Names.IsSubdomain(target) && forall ns :: !NamesWorkload(target, ns)
  {
    assert Names.SplitDots(target) == [""] && "" in [""];
  }

  /** A drain cordons its node before evicting; that cordon is never less
      guarded than a cordon asked for directly: a drain the rules permit is a
      cordon they permit, and one needing no approval is a cordon needing none. */
  lemma DrainCoversItsCordon(c: Config, node: string)
    ensures Permitted(c, DoDrain(node)) ==> Permitted(c, DoCordon(node, true))
    ensures NeedsApproval(c, DoCordon(node, true)) ==> NeedsApproval(c, DoDrain(node))
    ensures EvaluateDrain(c.nodes, node) == Allowed ==> EvaluateCordon(c.nodes, node, true) == Allowed
  {}

  /** The verdict names the rule that is broken, the first of them in the
      policy's own order. */
  lemma VerdictsAreTheRules(p: ScalePolicy, ns: string, replicas: int, n: NodePolicy, node: string)
    ensures Evaluate(Some(p), ns, replicas) == TooManyReplicas <==> 0 < p.maxReplicas < replicas
    ensures EvaluateNamespace(Some(p), ns) == NoNamespace <==> p.allowedNamespaces != [] && ns == ""
    ensures EvaluateNamespace(Some(p), ns) == NamespaceNotAllowed <==>
              p.allowedNamespaces != [] && ns != "" && ns !in p.allowedNamespaces
    ensures Evaluate(Some(p), ns, replicas) != TooManyReplicas ==>
              Evaluate(Some(p), ns, replicas) == EvaluateNamespace(Some(p), ns)
    ensures EvaluateDrain(Some(n), node) == DrainDisabled <==> n.disableDrain
    ensures EvaluateCordon(Some(n), node, true) == NoNode <==> node == ""
    ensures EvaluateCordon(Some(n), node, true) == NodeProtected <==> node != "" && node in n.protectedNodes
    ensures EvaluateCordon(Some(n), node, true) == NodeNotAllowed <==>
              node != "" && node !in n.protectedNodes && n.allowedNodes != [] && node !in n.allowedNodes
    ensures !n.disableDrain ==> EvaluateDrain(Some(n), node) == EvaluateCordon(Some(n), node, true)
    ensures EvaluateCordon(Some(n), node, false) == Allowed
  {}
}
