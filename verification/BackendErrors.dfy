/** What the repository's backends answer a mutation with, down to the text of
    the error. The API server is a parameter: it may reply anything. */
module BackendErrors {
  import opened Policy
  import Names

  /** A backend call's error, by what `publicErrMessage` makes of it. */
  datatype BackendError = Missing | Bad(text: string) | Unsupported(text: string) | Upstream(text: string)

  datatype Outcome = Done(jobId: string) | Broke(error: BackendError)

  function BackendStatus(e: BackendError): int
  {
    match e
    case Missing => 404
    case Unsupported(_) => 501
    case Bad(_) => 400
    case Upstream(_) => 502
  }

  function PublicMessage(e: BackendError): string
  {
    match e
    case Missing => "not found"
    case Bad(text) => text
    case Unsupported(text) => text
    case Upstream(_) => "backend error"
  }

  const INVALID_REQUEST := "invalid request"
  const NOT_SUPPORTED := "operation not supported by this backend"

  /** An error wrapping ErrBadRequest, with a detail. */
  function Invalid(detail: string): BackendError
  {
    Bad(INVALID_REQUEST + ": " + detail)
  }

  /** The reply to a PATCH. `digits` is the status code as printed; the reason
      and message are what newStatusError made of the body. */
  datatype ApiReply = Accepted | Refused(code: int, digits: string, reason: string, message: string) | NoReply(text: string)

  function StatusText(r: ApiReply): string
    requires r.Refused?
  {
    "kube api returned " + r.digits + " " + r.reason + (if r.message != "" then ": " + r.message else "")
  }

  /** `mutationErr`, below the mutation's own prefix. */
  function Answer(prefix: string, r: ApiReply): Outcome
  {
    match r
    case Accepted => Done("")
    case NoReply(text) => Broke(Upstream(prefix + text))
    case Refused(code, _, _, _) =>
      if code == 404 then Broke(Missing)
      else if code == 400 || code == 422 then Broke(Bad(prefix + StatusText(r)))
      else Broke(Upstream(prefix + StatusText(r)))
  }

  /** `%q`, of text with nothing to escape. */
  function Quote(text: string): string
  {
    "\"" + text + "\""
  }

  function WhyUnparsed(why: Names.Defect, id: string): string
  {
    match why
    case Shape => "workload id " + Quote(id) + " must be kind:namespace/name"
    case UnknownKind(kind) => "unknown workload kind " + Quote(kind)
    case BadNamespace(ns) => "invalid namespace " + Quote(ns)
    case BadName(name) => "invalid workload name " + Quote(name)
  }

  const SCALABLE: set<string> := {"deployment", "statefulSet"}
  const RESTARTABLE: set<string> := {"deployment", "statefulSet", "daemonSet"}

  /** A scale or restart, once its arguments are looked at. */
  function OnWorkload(verb: string, done: string, target: string, kinds: set<string>, r: ApiReply): Outcome
  {
    var id := Names.ParseWorkloadId(target);
    if id.BadRequest? then Broke(Invalid(WhyUnparsed(id.why, target)))
    else if id.kind !in kinds then Broke(Invalid("kind " + Quote(id.kind) + " cannot be " + done))
    else Answer(verb + " " + id.kind + " " + id.ns + "/" + id.name + ": ", r)
  }

  /** The Kubernetes backend: `ours` says whether the cluster is its own, and
      `jobId` names the drain it starts or joins. */
  function Kube(m: Mutation, ours: bool, r: ApiReply, jobId: string): Outcome
  {
    if !ours then Broke(Missing)
    else match m
      case DoScale(target, replicas) =>
        if replicas < 0 then Broke(Invalid("replicas must be >=0")) else OnWorkload("scale", "scaled", target, SCALABLE, r)
      case DoRestart(target) => OnWorkload("restart", "restarted", target, RESTARTABLE, r)
      case DoCordon(node, _) =>
        if !Names.ValidNodeId(node) then Broke(Invalid("invalid node id " + Quote(node)))
        else Answer("cordon node " + node + ": ", r)
      case DoDrain(node) =>
        if !Names.ValidNodeId(node) then Broke(Invalid("invalid node id " + Quote(node))) else Done(jobId)
  }

  /** The sample backend supports no mutation. */
  function Sample(m: Mutation): Outcome
  {
    if m.target == "" || (m.DoScale? && m.replicas < 0) then Broke(Bad(INVALID_REQUEST)) else Broke(Unsupported(NOT_SUPPORTED))
  }

  /** An error whose public text is empty. */
  predicate Silent(e: BackendError)
  {
    (e.Bad? || e.Unsupported?) && e.text == ""
  }

  /** What a backend of the repository may answer, or `executePending` itself. */
  ghost predicate Given(o: Outcome)
  {
    || (exists m, ours, r, jobId :: o == Kube(m, ours, r, jobId))
    || (exists m :: o == Sample(m))
    || o == Broke(Bad(INVALID_REQUEST))
  }

  lemma KubeSpeaks(m: Mutation, ours: bool, r: ApiReply, jobId: string)
    ensures Kube(m, ours, r, jobId).Broke? ==> !Silent(Kube(m, ours, r, jobId).error)
  {
    hide Names.ParseWorkloadId, WhyUnparsed, Names.ValidNodeId;
  }

  /** No backend of the repository fails without a text to show. */
  lemma BackendsSpeak(o: Outcome)
    requires Given(o)
    ensures o.Broke? ==> !Silent(o.error) && PublicMessage(o.error) != ""
  {
    hide Kube, Sample;
    if exists m, ours, r, jobId :: o == Kube(m, ours, r, jobId) {
      var m, ours, r, jobId :| o == Kube(m, ours, r, jobId);
      KubeSpeaks(m, ours, r, jobId);
    } else if exists m :: o == Sample(m) {
      var m :| o == Sample(m);
      SampleSpeaks(m);
    }
  }

  lemma SampleSpeaks(m: Mutation)
    ensures Sample(m).Broke? && !Silent(Sample(m).error)
  {}

  /** A mutation the rules permit passes the backend's own validation: the only
      bad requests left are a kind the operation does not apply to, and what the
      API server itself refuses. */
  lemma PermittedPassesValidation(c: Config, m: Mutation, r: ApiReply, jobId: string)
    requires Permitted(c, m)
    ensures var o := Kube(m, true, r, jobId);
            o.Broke? && o.error.Bad? ==>
              || (r.Refused? && (r.code == 400 || r.code == 422))
              || (m.DoScale? && Names.ParseWorkloadId(m.target).Parsed? && Names.ParseWorkloadId(m.target).kind !in SCALABLE)
              || (m.DoRestart? && Names.ParseWorkloadId(m.target).Parsed? && Names.ParseWorkloadId(m.target).kind !in RESTARTABLE)
  {
    if m.DoScale? || m.DoRestart? {
      WorkloadNamed(m.target);
    }
  }

  /** The mutation names what the operation applies to: a Deployment or a
      StatefulSet can be scaled, a DaemonSet only restarted, a Job neither. */
  ghost predicate Applies(m: Mutation)
  {
    match m
    case DoScale(target, replicas) =>
      replicas >= 0 && exists kind, ns, name :: Names.Prints(target, kind, ns, name) && kind in {"deployment", "statefulSet"}
    case DoRestart(target) =>
      exists kind, ns, name :: Names.Prints(target, kind, ns, name) && kind in {"deployment", "statefulSet", "daemonSet"}
    case DoCordon(node, _) => |node| <= 253 && Names.GrammarSubdomain(node)
    case DoDrain(node) => |node| <= 253 && Names.GrammarSubdomain(node)
  }

  lemma AppliesToKind(target: string, kinds: set<string>)
    ensures (exists kind, ns, name :: Names.Prints(target, kind, ns, name) && kind in kinds) <==>
            Names.ParseWorkloadId(target).Parsed? && Names.ParseWorkloadId(target).kind in kinds
  {
    Names.AcceptedIdsAreThePrints(target);
    hide Names.Prints, Names.ParseWorkloadId;
  }

  /** What a mutation comes to on the Kubernetes backend: nothing is found in
      another cluster; what does not apply is a bad request, and reaches no API
      server; what does is decided by its reply, but a drain, which is only
      started. */
  lemma KubeAnswers(m: Mutation, ours: bool, r: ApiReply, jobId: string)
    ensures var o := Kube(m, ours, r, jobId);
            if !ours then o == Broke(Missing)
            else if !Applies(m) then o.Broke? && o.error.Bad?
            else if m.DoDrain? then o == Done(jobId)
            else match r
              case Accepted => o.Done?
              case NoReply(_) => o.Broke? && o.error.Upstream?
              case Refused(code, _, _, _) =>
                && o.Broke?
                && if code == 404 then o.error == Missing else if code in {400, 422} then o.error.Bad? else o.error.Upstream?
  {
    hide Names.ParseWorkloadId, Names.Prints, Names.IsSubdomain, Names.GrammarSubdomain;
    Names.SubdomainScanMatchesGrammar(m.target);
    AppliesToKind(m.target, SCALABLE);
    AppliesToKind(m.target, RESTARTABLE);
  }
}
