/** The gateway's handlers as processes over one approval store: asks that are
    gated and then parked or run inline, approvals, rejections and reads, with
    the clock advancing between any two steps. A step is one store operation
    under the lock, or one backend call. */
module ApprovalProtocol {
  import opened Policy
  import opened Wrappers
  import opened Approval
  import opened BackendErrors

  /** A mutation in a cluster: what a backend call does. */
  datatype Deed = Deed(cluster: string, m: Mutation)

  datatype Handler =
    | Asking(ask: Ask, cluster: string, who: string)
    | Inline(deed: Deed)                                     // passed the gate, about to call the backend
    | ApproveStart(rid: Id, cluster: string, who: string)
    | Granting(rid: Id, who: string)                         // cluster checked, about to Approve
    | Executing(rid: Id, r: Request)                         // holds the approved copy, about to call the backend
    | Finishing(rid: Id, r: Request, outcome: Outcome)       // about to Complete
    | RejectStart(rid: Id, cluster: string, who: string)
    | Refusing(rid: Id, who: string)
    | Finished(status: int)

  /** What happened to a request, in order. `who` is its approver field then. */
  datatype Event = Entered(phase: Phase, who: string, at: int) | Ran(deed: Deed, outcome: Outcome)

  type Hid = nat

  datatype System = System(
    config: Config, ttl: int, now: int,
    store: map<Id, Request>,
    handlers: map<Hid, Handler>,
    parked: map<Id, Request>,         // history: every request as it was parked
    hist: map<Id, seq<Event>>,        // history: what happened to each request
    owner: map<Id, Hid>,              // history: the handler whose Approve succeeded
    arrived: map<Hid, Handler>,       // history: what each handler was called with
    inlined: seq<Deed>)               // history: what ran without approval

  datatype Act =
    | Clock(passed: nat)
    | Arrive(h: Hid, handler: Handler)
    | Read(id: Id)
    | ReadAll
    | Step(h: Hid, freshId: Id, outcome: Outcome)

  /** What one step of a handler does. */
  datatype Effect = Effect(store: map<Id, Request>, handler: Handler, minted: Option<Request>,
                           ran: Option<Deed>, inlined: seq<Deed>)

  function StoreStatus(e: Error): int
  {
    match e
    case Unknown => 404
    case SelfApprove => 409
    case Resolved => 409
  }

  /** What handleApprove passes to Complete. */
  function JobId(r: Request, o: Outcome): string
  {
    if o.Done? && r.op == Drain then o.jobId else ""
  }

  function Reason(o: Outcome): string
  {
    if o.Broke? then PublicMessage(o.error) else ""
  }

  function Quiet(store: map<Id, Request>, handler: Handler): Effect
  {
    Effect(store, handler, None, None, [])
  }

  function Found(s: System, rid: Id, cluster: string): bool
  {
    var store := Touched(s.store, rid, s.now);
    rid in store && store[rid].cluster == cluster
  }

  /** `executePending`: what an approved request does, in its own cluster. */
  function DeedOf(r: Request): Option<Deed>
  {
    var m := Captured(r.op, r.target, r.replicas);
    if m.None? then None else Some(Deed(r.cluster, m.value))
  }

  function StepEffect(s: System, k: Handler, freshId: Id, o: Outcome): Effect
  {
    match k
    case Asking(ask, cluster, who) => (
      match Gate(s.config, ask)
      case Refuse(status) => Quiet(s.store, Finished(status))
      case Execute(m) => Quiet(s.store, Inline(Deed(cluster, m)))
      case Park(op, target, replicas) =>
        var r := Fresh(freshId, op, cluster, target, replicas, who, s.ttl, s.now);
        Effect(Parked(s.store, r, s.ttl, s.now), Finished(202), Some(r), None, []))
    case Inline(deed) =>
      var status := if o.Broke? then BackendStatus(o.error) else if deed.m.DoDrain? then 202 else 200;
      Effect(s.store, Finished(status), None, None, [deed])
    case ApproveStart(rid, cluster, who) =>
      if rid == "" || s.config.approvals.None? then Quiet(s.store, Finished(404))
      else if !s.config.tokens then Quiet(s.store, Finished(403))
      else Quiet(Touched(s.store, rid, s.now), if Found(s, rid, cluster) then Granting(rid, who) else Finished(404))
    case Granting(rid, who) =>
      var (store, a) := Approving(s.store, rid, who, s.now);
      Quiet(store, if a.Ok? then Executing(rid, a.request) else Finished(StoreStatus(a.error)))
    case Executing(rid, r) => (
      match DeedOf(r)
      case None => Quiet(s.store, Finishing(rid, r, Broke(Bad(INVALID_REQUEST))))
      case Some(deed) => Effect(s.store, Finishing(rid, r, o), None, Some(deed), []))
    case Finishing(rid, r, outcome) =>
      var (store, a) := Completing(s.store, rid, JobId(r, outcome), Reason(outcome), s.now);
      Quiet(store, Finished(if a.Ok? then 200 else 500))
    case RejectStart(rid, cluster, who) =>
      if rid == "" || s.config.approvals.None? then Quiet(s.store, Finished(404))
      else Quiet(Touched(s.store, rid, s.now), if Found(s, rid, cluster) then Refusing(rid, who) else Finished(404))
    case Refusing(rid, who) =>
      var (store, a) := Rejecting(s.store, rid, "rejected by " + who, s.now);
      Quiet(store, Finished(if a.Ok? then 200 else StoreStatus(a.error)))
    case Finished(_) => Quiet(s.store, k)
  }

  ghost predicate Enabled(s: System, a: Act)
  {
    match a
    case Clock(_) => true
    case Arrive(h, k) => h !in s.handlers && (k.Asking? || k.ApproveStart? || k.RejectStart?)
    case Read(_) => true
    case ReadAll => true
    case Step(h, freshId, _) => h in s.handlers && !s.handlers[h].Finished? && freshId !in s.parked
  }

  function Stored(store: map<Id, Request>, id: Id): Option<Request>
  {
    if id in store then Some(store[id]) else None
  }

  /** A request's phase change, as its history records it. */
  function Change(before: Option<Request>, after: Option<Request>): seq<Event>
  {
    if after.Some? && (before.None? || before.value.phase != after.value.phase)
    then [Entered(after.value.phase, after.value.approver, after.value.updatedAt)] else []
  }

  function Events(hist: map<Id, seq<Event>>, id: Id): seq<Event>
  {
    if id in hist then hist[id] else []
  }

  function Noted(hist: map<Id, seq<Event>>, before: map<Id, Request>, after: map<Id, Request>): map<Id, seq<Event>>
  {
    map id | id in hist.Keys + after.Keys ::
      Events(hist, id) + Change(Stored(before, id), Stored(after, id))
  }

  function WithStore(s: System, store: map<Id, Request>): System
  {
    s.(store := store, hist := Noted(s.hist, s.store, store))
  }

  function AfterStep(s: System, h: Hid, e: Effect): System
  {
    var t := WithStore(s, e.store);
    t.(handlers := s.handlers[h := e.handler],
       parked := if e.minted.Some? then s.parked[e.minted.value.id := e.minted.value] else s.parked,
       owner := if e.handler.Executing? then s.owner[e.handler.rid := h] else s.owner,
       hist := if e.ran.Some? && e.handler.Finishing?
               then t.hist[e.handler.rid := Events(t.hist, e.handler.rid) + [Ran(e.ran.value, e.handler.outcome)]] else t.hist,
       inlined := s.inlined + e.inlined)
  }

  ghost function Apply(s: System, a: Act): System
    requires Enabled(s, a)
  {
    match a
    case Clock(passed) => s.(now := s.now + passed)
    case Arrive(h, k) => s.(handlers := s.handlers[h := k], arrived := s.arrived[h := k])
    case Read(id) => WithStore(s, Touched(s.store, id, s.now))
    case ReadAll => WithStore(s, Swept(s.store, s.ttl, s.now))
    case Step(h, freshId, o) => AfterStep(s, h, StepEffect(s, s.handlers[h], freshId, o))
  }

  function Init(config: Config, ttl: int, now: int): System
  {
    System(config, ttl, now, map[], map[], map[], map[], map[], map[], [])
  }

  ghost function RunFrom(s: System, acts: seq<Act>): Option<System>
    decreases |acts|
  {
    if acts == [] then Some(s)
    else if Enabled(s, acts[0]) then RunFrom(Apply(s, acts[0]), acts[1..])
    else None
  }

  ghost predicate Reachable(s: System)
  {
    exists config, ttl, now, acts :: RunFrom(Init(config, ttl, now), acts) == Some(s)
  }

  // ---------------------------------------------------- a request's history

  predicate Begun(w: seq<Event>)
  {
    |w| >= 1 && w[0].Entered? && w[0].phase == Pending
  }

  /** Approved by someone other than the requester, before the deadline. */
  predicate Granted(w: seq<Event>, p: Request)
  {
    Begun(w) && |w| >= 2 && w[1].Entered? && w[1].phase == Approved && w[1].who != p.requester && w[1].at < p.expiresAt
  }

  /** ... and then the parked mutation was run. */
  predicate Executed(w: seq<Event>, p: Request)
  {
    Granted(w, p) && |w| >= 3 && w[2].Ran? && DeedOf(p) == Some(w[2].deed)
  }

  predicate ClosedAs(w: seq<Event>, p: Request, phase: Phase)
  {
    if phase == Rejected || phase == Phase.Expired then
      Begun(w) && |w| == 2 && w[1].Entered? && w[1].phase == phase
    else
      (phase == Succeeded || phase == Failed) && Executed(w, p) && |w| == 4 && w[3].Entered? && w[3].phase == phase
  }

  /** The histories there are: parked; then rejected, or expired, or approved by
      a second person, run once, and closed. */
  predicate Lawful(w: seq<Event>, p: Request)
  {
    || (Begun(w) && |w| == 1)
    || (Granted(w, p) && |w| == 2)
    || (Executed(w, p) && |w| == 3)
    || ClosedAs(w, p, Rejected) || ClosedAs(w, p, Phase.Expired) || ClosedAs(w, p, Succeeded) || ClosedAs(w, p, Failed)
  }

  /** The captured mutation and who asked never change. */
  predicate SameAsk(r: Request, p: Request)
  {
    r.id == p.id && r.op == p.op && r.cluster == p.cluster && r.target == p.target && r.replicas == p.replicas
    && r.requester == p.requester && r.createdAt == p.createdAt && r.expiresAt == p.expiresAt
  }

  predicate Active(k: Handler, id: Id)
  {
    (k.Executing? || k.Finishing?) && k.rid == id
  }

  predicate Idle(k: Handler)
  {
    !k.Executing? && !k.Finishing?
  }

  /** All the system holds about one request: as parked, as stored, its history,
      and the handler at work on it. */
  datatype View = View(p: Request, r: Option<Request>, w: seq<Event>, k: Option<Handler>)

  /** The handler whose Approve of this request succeeded, until it completes. */
  function OwnerOf(owner: map<Id, Hid>, handlers: map<Hid, Handler>, id: Id): Option<Handler>
  {
    if id in owner && owner[id] in handlers && Active(handlers[owner[id]], id) then Some(handlers[owner[id]]) else None
  }

  function ViewOf(s: System, id: Id): View
    requires id in s.parked && id in s.hist
  {
    View(s.parked[id], Stored(s.store, id), s.hist[id], OwnerOf(s.owner, s.handlers, id))
  }

  /** What the record of a completed request says of its call. */
  predicate Answers(r: Request, o: Outcome)
  {
    match o
    case Done(jobId) => r.phase == Succeeded && r.resultId == if r.op == Drain then jobId else ""
    case Broke(e) =>
      && r.resultId == ""
      && if PublicMessage(e) == "" then r.phase == Succeeded else r.phase == Failed && r.reason == PublicMessage(e)
  }

  /** The record and the handler at work tell of the call in the history. */
  predicate Settled(r: Request, w: seq<Event>, k: Option<Handler>)
  {
    && (r.phase == Succeeded || r.phase == Failed ==> |w| == 4 && w[2].Ran? && Answers(r, w[2].outcome))
    && (r.phase != Succeeded && r.phase != Failed ==> r.resultId == "")
    && (k.Some? && k.value.Finishing? ==> |w| == 3 && w[2].Ran? && w[2].outcome == k.value.outcome)
  }

  /** A stored request's phase tells its history; while approved, one handler is
      at work on it. A request no longer stored was closed. */
  predicate GoodView(v: View)
  {
    if v.r.None? then v.k.None? && Closed(v.w, v.p)
    else
      && SameAsk(v.r.value, v.p) && Settled(v.r.value, v.w, v.k)
      && (v.k.Some? <==> v.r.value.phase == Approved)
      && (v.k.Some? ==> Active(v.k.value, v.p.id) && v.k.value.r == v.r.value)
      && (v.r.value.phase == Pending ==> Begun(v.w) && |v.w| == 1)
      && (v.r.value.phase == Approved ==> Granted(v.w, v.p)
                                          && (if v.k.value.Executing? then |v.w| == 2 else |v.w| == 3 && Executed(v.w, v.p)))
      && (Terminal(v.r.value.phase) ==> ClosedAs(v.w, v.p, v.r.value.phase))
  }

  predicate Closed(w: seq<Event>, p: Request)
  {
    ClosedAs(w, p, Rejected) || ClosedAs(w, p, Phase.Expired) || ClosedAs(w, p, Succeeded) || ClosedAs(w, p, Failed)
  }

  ghost predicate GoodRequest(s: System, id: Id)
  {
    id in s.parked && id in s.hist && s.parked[id].id == id && GoodView(ViewOf(s, id))
  }

  ghost predicate Requests(s: System)
  {
    && s.store.Keys <= s.parked.Keys && s.hist.Keys == s.parked.Keys
    && forall id :: id in s.parked ==> GoodRequest(s, id)
  }

  /** A parked request captures a mutation the rules permit, for approval. */
  ghost predicate GatedRequest(c: Config, p: Request)
  {
    var d := DeedOf(p);
    d.Some? && Permitted(c, d.value.m) && NeedsApproval(c, d.value.m)
  }

  ghost predicate Free(c: Config, m: Mutation)
  {
    Permitted(c, m) && !NeedsApproval(c, m)
  }

  /** A handler past Approve is the request's recorded owner; one about to run
      inline was let through; and none has answered 500. */
  ghost predicate GoodHandler(c: Config, owner: map<Id, Hid>, parked: map<Id, Request>, h: Hid, k: Handler)
  {
    && (k.Executing? || k.Finishing? ==> k.rid in owner && owner[k.rid] == h && k.rid in parked)
    && (k.Inline? ==> Free(c, k.deed.m))
    && k != Finished(500)
  }

  ghost predicate Handlers(s: System)
  {
    forall h :: h in s.handlers ==> GoodHandler(s.config, s.owner, s.parked, h, s.handlers[h])
  }

  ghost predicate Gated(s: System)
  {
    && (forall id :: id in s.parked ==> GatedRequest(s.config, s.parked[id]))
    && (forall d :: d in s.inlined ==> Free(s.config, d.m))
  }

  ghost predicate Inv(s: System)
  {
    Requests(s) && Handlers(s) && Gated(s)
  }

  // --------------------------------------------- operations that only observe

  /** Reads, sweeps and failed calls: an entry is unchanged, or newly expired,
      or was resolved and is dropped. */
  predicate AgedTo(before: Option<Request>, after: Option<Request>, now: int)
  {
    || after == before
    || (before.Some? && after == Some(Expire(before.value, now)))
    || (before.Some? && after.None? && Terminal(before.value.phase))
  }

  ghost predicate Ages(before: map<Id, Request>, after: map<Id, Request>, now: int)
  {
    forall id :: AgedTo(Stored(before, id), Stored(after, id), now)
  }

  lemma SweepAges(reqs: map<Id, Request>, ttl: int, now: int)
    ensures Ages(reqs, Swept(reqs, ttl, now), now)
  {}

  lemma TouchAges(reqs: map<Id, Request>, id: Id, now: int)
    ensures Ages(reqs, reqs, now) && Ages(reqs, Touched(reqs, id, now), now)
  {}

  lemma FailedCallAges(reqs: map<Id, Request>, id: Id, text: string, now: int)
    ensures Approving(reqs, id, text, now).1.Err? ==> Ages(reqs, Approving(reqs, id, text, now).0, now)
    ensures Rejecting(reqs, id, text, now).1.Err? ==> Ages(reqs, Rejecting(reqs, id, text, now).0, now)
  {}

  /** Ageing one entry keeps its history lawful. */
  lemma AgedView(v: View, r: Option<Request>, now: int)
    requires GoodView(v) && AgedTo(v.r, r, now)
    ensures GoodView(v.(r := r, w := v.w + Change(v.r, r)))
  {
    if r == v.r || r.None? {
      assert v.w + Change(v.r, r) == v.w;
    }
  }

  lemma NotedAt(hist: map<Id, seq<Event>>, before: map<Id, Request>, after: map<Id, Request>)
    requires before.Keys <= hist.Keys
    ensures Noted(hist, before, after).Keys == hist.Keys + after.Keys
    ensures forall id :: id in hist ==> Noted(hist, before, after)[id] == hist[id] + Change(Stored(before, id), Stored(after, id))
    ensures forall id :: id in after && id !in hist ==> Noted(hist, before, after)[id] == Change(None, Some(after[id]))
  {
    forall id | id in after && id !in hist ensures Noted(hist, before, after)[id] == Change(None, Some(after[id])) {
      assert id !in before;
    }
  }

  lemma AgeKeepsRequest(s: System, t: System, id: Id)
    requires GoodRequest(s, id) && AgedTo(Stored(s.store, id), Stored(t.store, id), s.now)
    requires t.parked == s.parked && s.store.Keys <= s.hist.Keys && t.hist == Noted(s.hist, s.store, t.store)
    requires OwnerOf(t.owner, t.handlers, id) == OwnerOf(s.owner, s.handlers, id)
    ensures GoodRequest(t, id)
  {
    NotedAt(s.hist, s.store, t.store);
    hide GoodView, Noted, Change, AgedTo;
    AgedView(ViewOf(s, id), Stored(t.store, id), s.now);
  }

  lemma AgeKeepsRequests(s: System, t: System)
    requires Requests(s) && Ages(s.store, t.store, s.now)
    requires t.parked == s.parked && t.hist == Noted(s.hist, s.store, t.store)
    requires forall id :: OwnerOf(t.owner, t.handlers, id) == OwnerOf(s.owner, s.handlers, id)
    ensures Requests(t)
  {
    hide GoodRequest, OwnerOf;
    forall id | id in t.store ensures id in t.parked {
      assert AgedTo(Stored(s.store, id), Stored(t.store, id), s.now);
    }
    forall id | id in t.parked ensures GoodRequest(t, id) {
      AgeKeepsRequest(s, t, id);
    }
  }

  // ---------------------------------------------------- steps that decide

  /** A step that only ages the store, by a handler not past Approve. */
  lemma AgedStep(s: System, h: Hid, e: Effect)
    requires Inv(s) && Ages(s.store, e.store, s.now)
    requires h in s.handlers && Idle(s.handlers[h]) && Idle(e.handler) && e.minted.None? && e.ran.None?
    requires e.handler != Finished(500)
    requires e.handler.Inline? ==> Free(s.config, e.handler.deed.m)
    requires forall d :: d in e.inlined ==> Free(s.config, d.m)
    ensures Inv(AfterStep(s, h, e))
  {
    hide Free, GatedRequest, GoodRequest, Ages;
    AgeKeepsRequests(s, AfterStep(s, h, e));
  }

  function Added(u: System, r: Request): System
  {
    u.(store := u.store[r.id := r], parked := u.parked[r.id := r],
       hist := u.hist[r.id := [Entered(r.phase, r.approver, r.updatedAt)]])
  }

  lemma UnparkedHasNoOwner(u: System, id: Id)
    requires Handlers(u) && id !in u.parked
    ensures OwnerOf(u.owner, u.handlers, id).None?
  {
    hide Free;
  }

  /** A request parked under a fresh ID. */
  lemma AddKeepsRequests(u: System, r: Request)
    requires Requests(u) && Handlers(u) && r.id !in u.parked && r.phase == Pending && r.resultId == ""
    ensures Requests(Added(u, r))
  {
    hide OwnerOf, Handlers, GoodView, GoodRequest;
    UnparkedHasNoOwner(u, r.id);
    var t := Added(u, r);
    forall id | id in t.parked ensures GoodRequest(t, id) {
      if id == r.id {
        NewRequestIsGood(u, r);
      } else {
        OldRequestIsKept(u, r, id);
      }
    }
  }

  lemma NewRequestIsGood(u: System, r: Request)
    requires OwnerOf(u.owner, u.handlers, r.id).None? && r.phase == Pending && r.resultId == ""
    ensures GoodRequest(Added(u, r), r.id)
  {
    hide OwnerOf;
  }

  lemma OldRequestIsKept(u: System, r: Request, id: Id)
    requires GoodRequest(u, id) && id != r.id
    ensures GoodRequest(Added(u, r), id)
  {
    hide GoodView;
    assert ViewOf(Added(u, r), id) == ViewOf(u, id);
  }

  lemma AddKeepsInv(u: System, r: Request)
    requires Inv(u) && r.id !in u.parked && r.phase == Pending && r.resultId == "" && GatedRequest(u.config, r)
    ensures Inv(Added(u, r))
  {
    AddKeepsRequests(u, r);
    hide Free, GatedRequest, Requests;
  }

  /** Parking a gated ask under a fresh ID. */
  lemma ParkStep(s: System, h: Hid, r: Request)
    requires Inv(s) && h in s.handlers && Idle(s.handlers[h])
    requires r.id !in s.parked && r.phase == Pending && r.resultId == "" && GatedRequest(s.config, r)
    ensures Inv(AfterStep(s, h, Effect(Parked(s.store, r, s.ttl, s.now), Finished(202), Some(r), None, [])))
  {
    hide Free, GatedRequest, GoodRequest, Handlers;
    var aged := Swept(s.store, s.ttl, s.now);
    SweepAges(s.store, s.ttl, s.now);
    hide Ages;
    AgedStep(s, h, Quiet(aged, Finished(202)));
    NewEntryHistory(s.hist, s.store, aged, r);
    hide Noted, Inv;
    var u := AfterStep(s, h, Quiet(aged, Finished(202)));
    AddKeepsInv(u, r);
    assert Added(u, r) == AfterStep(s, h, Effect(aged[r.id := r], Finished(202), Some(r), None, []));
  }

  lemma NewEntryHistory(hist: map<Id, seq<Event>>, store: map<Id, Request>, aged: map<Id, Request>, r: Request)
    requires r.id !in store && r.id !in hist
    ensures Noted(hist, store, aged[r.id := r]) == Noted(hist, store, aged)[r.id := [Entered(r.phase, r.approver, r.updatedAt)]]
  {
    var left := Noted(hist, store, aged[r.id := r]);
    var right := Noted(hist, store, aged)[r.id := [Entered(r.phase, r.approver, r.updatedAt)]];
    assert left.Keys == right.Keys;
    forall id | id in left ensures left[id] == right[id] {}
  }

  /** The history after one entry's phase changed, and after none did. */
  lemma OneEntry(hist: map<Id, seq<Event>>, store: map<Id, Request>, id: Id, r: Request)
    requires id in store && store.Keys <= hist.Keys
    ensures Noted(hist, store, store) == hist
    ensures r.phase != store[id].phase ==>
              Noted(hist, store, store[id := r]) == hist[id := hist[id] + [Entered(r.phase, r.approver, r.updatedAt)]]
  {
    var same := Noted(hist, store, store);
    assert same.Keys == hist.Keys;
    forall i | i in same ensures same[i] == hist[i] {}
    if r.phase != store[id].phase {
      var left, right := Noted(hist, store, store[id := r]), hist[id := hist[id] + [Entered(r.phase, r.approver, r.updatedAt)]];
      assert left.Keys == right.Keys;
      forall i | i in left ensures left[i] == right[i] {}
    }
  }

  /** A step by handler h that changes one request and nothing else. */
  function Moved(s: System, h: Hid, k: Handler, rid: Id, a: Request, w: seq<Event>, owner: map<Id, Hid>): System
  {
    s.(store := s.store[rid := a], hist := s.hist[rid := w], handlers := s.handlers[h := k], owner := owner)
  }

  /** Whoever moves a request is alone with it: the handler owns it, or nobody
      does and the handler owns nothing. */
  predicate MayMove(s: System, h: Hid, k: Handler, rid: Id, owner: map<Id, Hid>)
  {
    && rid in s.parked && h in s.handlers
    && (Idle(s.handlers[h]) || Active(s.handlers[h], rid))
    && (owner == s.owner || (owner == s.owner[rid := h] && OwnerOf(s.owner, s.handlers, rid).None?))
    && (Active(k, rid) ==> rid in owner && owner[rid] == h)
    && (k.Finished? || Active(k, rid))
    && k != Finished(500)
  }

  /** A step that changes one request's phase is such a move. */
  lemma StepMoves(s: System, h: Hid, k: Handler, rid: Id, a: Request)
    requires rid in s.store && s.store.Keys <= s.hist.Keys && a.phase != s.store[rid].phase
    ensures AfterStep(s, h, Quiet(s.store[rid := a], k))
         == Moved(s, h, k, rid, a, s.hist[rid] + [Entered(a.phase, a.approver, a.updatedAt)],
                  if k.Executing? then s.owner[k.rid := h] else s.owner)
  {
    OneEntry(s.hist, s.store, rid, a);
  }

  lemma OtherViewsKept(s: System, h: Hid, k: Handler, rid: Id, a: Request, w: seq<Event>, owner: map<Id, Hid>, id: Id)
    requires MayMove(s, h, k, rid, owner) && id != rid && id in s.parked && id in s.hist
    ensures ViewOf(Moved(s, h, k, rid, a, w, owner), id) == ViewOf(s, id)
  {}

  lemma MoveKeepsRequests(s: System, h: Hid, k: Handler, rid: Id, a: Request, w: seq<Event>, owner: map<Id, Hid>)
    requires Requests(s) && MayMove(s, h, k, rid, owner)
    requires GoodView(View(s.parked[rid], Some(a), w, OwnerOf(owner, s.handlers[h := k], rid)))
    ensures Requests(Moved(s, h, k, rid, a, w, owner))
  {
    hide GoodView;
    var t := Moved(s, h, k, rid, a, w, owner);
    assert rid in s.parked && GoodRequest(t, rid);
    forall id | id in t.parked ensures GoodRequest(t, id) {
      assert GoodRequest(s, id);
      if id != rid {
        OtherViewsKept(s, h, k, rid, a, w, owner, id);
        hide MayMove, OwnerOf;
      }
    }
  }

  lemma MoveKeepsHandlers(s: System, h: Hid, k: Handler, rid: Id, a: Request, w: seq<Event>, owner: map<Id, Hid>)
    requires Handlers(s) && MayMove(s, h, k, rid, owner)
    ensures Handlers(Moved(s, h, k, rid, a, w, owner))
  {
    hide Free;
    var t := Moved(s, h, k, rid, a, w, owner);
    forall g | g in t.handlers ensures GoodHandler(t.config, t.owner, t.parked, g, t.handlers[g]) {
      if g != h {
        assert GoodHandler(s.config, s.owner, s.parked, g, s.handlers[g]);
      }
    }
  }

  lemma MoveKeepsInv(s: System, h: Hid, k: Handler, rid: Id, a: Request, w: seq<Event>, owner: map<Id, Hid>)
    requires Inv(s) && MayMove(s, h, k, rid, owner)
    requires GoodView(View(s.parked[rid], Some(a), w, OwnerOf(owner, s.handlers[h := k], rid)))
    ensures Inv(Moved(s, h, k, rid, a, w, owner))
  {
    hide Free, GatedRequest, GoodView, Requests, Handlers, OwnerOf;
    MoveKeepsRequests(s, h, k, rid, a, w, owner);
    MoveKeepsHandlers(s, h, k, rid, a, w, owner);
  }

  /** What any handler can rely on about a stored request. */
  lemma StoredHolds(s: System, rid: Id)
    requires Inv(s) && rid in s.store
    ensures s.store.Keys <= s.hist.Keys && rid in s.parked && rid in s.hist && s.parked[rid].id == rid
    ensures GoodView(ViewOf(s, rid)) && GatedRequest(s.config, s.parked[rid])
  {
    hide Free, GatedRequest, GoodView;
    assert GoodRequest(s, rid);
  }

  /** What a handler past Approve can rely on. */
  lemma OwnerHolds(s: System, h: Hid)
    requires Inv(s) && h in s.handlers && !Idle(s.handlers[h])
    ensures var k := s.handlers[h];
            k.rid in s.store && k.rid in s.parked && k.rid in s.hist && k.r == s.store[k.rid] && k.r.phase == Approved
            && k.rid in s.owner && s.owner[k.rid] == h && ViewOf(s, k.rid).k == Some(k)
  {
    hide Free, GatedRequest;
    var k := s.handlers[h];
    assert GoodHandler(s.config, s.owner, s.parked, h, k);
    assert GoodRequest(s, k.rid);
  }

  lemma GrantStep(s: System, h: Hid, rid: Id, who: string)
    requires Inv(s) && h in s.handlers && s.handlers[h] == Granting(rid, who)
    requires Approving(s.store, rid, who, s.now).1.Ok?
    ensures var (store, a) := Approving(s.store, rid, who, s.now);
            Inv(AfterStep(s, h, Quiet(store, Executing(rid, a.request))))
  {
    hide Inv, GatedRequest;
    StoredHolds(s, rid);
    var v := ViewOf(s, rid);
    var a := s.store[rid].(approver := who, phase := Approved, updatedAt := s.now);
    var w := s.hist[rid] + [Entered(Approved, who, s.now)];
    assert GoodView(View(v.p, Some(a), w, Some(Executing(rid, a))));
    hide GoodView;
    StepMoves(s, h, Executing(rid, a), rid, a);
    hide AfterStep, Moved;
    MoveKeepsInv(s, h, Executing(rid, a), rid, a, w, s.owner[rid := h]);
  }

  lemma ExecuteStep(s: System, h: Hid, rid: Id, r: Request, o: Outcome)
    requires Inv(s) && h in s.handlers && s.handlers[h] == Executing(rid, r)
    ensures DeedOf(r).Some?
    ensures Inv(AfterStep(s, h, Effect(s.store, Finishing(rid, r, o), None, DeedOf(r), [])))
  {
    hide Inv, Permitted, NeedsApproval, Captured;
    OwnerHolds(s, h);
    StoredHolds(s, rid);
    var v := ViewOf(s, rid);
    var d := DeedOf(r);
    var w := s.hist[rid] + [Ran(d.value, o)];
    assert GoodView(View(v.p, Some(r), w, Some(Finishing(rid, r, o))));
    hide GoodView;
    OneEntry(s.hist, s.store, rid, r);
    assert s.store == s.store[rid := r];
    assert s.owner == s.owner[rid := h];
    assert AfterStep(s, h, Effect(s.store, Finishing(rid, r, o), None, d, []))
        == Moved(s, h, Finishing(rid, r, o), rid, r, w, s.owner);
    MoveKeepsInv(s, h, Finishing(rid, r, o), rid, r, w, s.owner);
  }

  /** Complete finds its record, and finds it approved, although it checks
      neither: the handler that approved it is the only one that can leave that
      phase, and the sweep leaves it alone. */
  lemma FinishStep(s: System, h: Hid, rid: Id, r: Request, outcome: Outcome)
    requires Inv(s) && h in s.handlers && s.handlers[h] == Finishing(rid, r, outcome)
    ensures var (store, a) := Completing(s.store, rid, JobId(r, outcome), Reason(outcome), s.now);
            a.Ok? && s.store[rid].phase == Approved && Inv(AfterStep(s, h, Quiet(store, Finished(200))))
  {
    hide Inv, GatedRequest;
    OwnerHolds(s, h);
    StoredHolds(s, rid);
    var v := ViewOf(s, rid);
    var a := Completing(s.store, rid, JobId(r, outcome), Reason(outcome), s.now).1.request;
    var w := s.hist[rid] + [Entered(a.phase, a.approver, a.updatedAt)];
    assert GoodView(View(v.p, Some(a), w, None));
    hide GoodView;
    StepMoves(s, h, Finished(200), rid, a);
    hide AfterStep, Moved;
    MoveKeepsInv(s, h, Finished(200), rid, a, w, s.owner);
  }

  lemma RejectStep(s: System, h: Hid, rid: Id, reason: string)
    requires Inv(s) && h in s.handlers && Idle(s.handlers[h])
    requires Rejecting(s.store, rid, reason, s.now).1.Ok?
    ensures Inv(AfterStep(s, h, Quiet(Rejecting(s.store, rid, reason, s.now).0, Finished(200))))
  {
    hide Inv, GatedRequest;
    StoredHolds(s, rid);
    var v := ViewOf(s, rid);
    var a := s.store[rid].(phase := Rejected, reason := reason, updatedAt := s.now);
    var w := s.hist[rid] + [Entered(a.phase, a.approver, a.updatedAt)];
    assert GoodView(View(v.p, Some(a), w, None));
    hide GoodView;
    StepMoves(s, h, Finished(200), rid, a);
    hide AfterStep, Moved;
    MoveKeepsInv(s, h, Finished(200), rid, a, w, s.owner);
  }

  lemma AskStep(s: System, h: Hid, freshId: Id, o: Outcome)
    requires Inv(s) && Enabled(s, Step(h, freshId, o)) && s.handlers[h].Asking?
    ensures Inv(Apply(s, Step(h, freshId, o)))
  {
    hide Permitted, NeedsApproval, Captured, Gate, Requests, Handlers;
    var k := s.handlers[h];
    var e := StepEffect(s, k, freshId, o);
    GateIsExact(s.config, k.ask);
    if e.minted.Some? {
      ParkStep(s, h, e.minted.value);
    } else {
      TouchAges(s.store, freshId, s.now);
      AgedStep(s, h, e);
    }
  }

  lemma QuietStep(s: System, h: Hid, freshId: Id, o: Outcome)
    requires Inv(s) && Enabled(s, Step(h, freshId, o))
    requires s.handlers[h].Inline? || s.handlers[h].ApproveStart? || s.handlers[h].RejectStart?
    ensures Inv(Apply(s, Step(h, freshId, o)))
  {
    hide Permitted, NeedsApproval, Requests, Gated, Ages;
    var k := s.handlers[h];
    assert GoodHandler(s.config, s.owner, s.parked, h, k);
    hide Handlers;
    TouchAges(s.store, if k.Inline? then freshId else k.rid, s.now);
    AgedStep(s, h, StepEffect(s, k, freshId, o));
  }

  lemma DecideStep(s: System, h: Hid, freshId: Id, o: Outcome)
    requires Inv(s) && Enabled(s, Step(h, freshId, o)) && (s.handlers[h].Granting? || s.handlers[h].Refusing?)
    ensures Inv(Apply(s, Step(h, freshId, o)))
  {
    hide Inv, Ages;
    var k := s.handlers[h];
    var e := StepEffect(s, k, freshId, o);
    if k.Granting? {
      FailedCallAges(s.store, k.rid, k.who, s.now);
      if Approving(s.store, k.rid, k.who, s.now).1.Ok? {
        GrantStep(s, h, k.rid, k.who);
      } else {
        AgedStep(s, h, e);
      }
    } else {
      FailedCallAges(s.store, k.rid, "rejected by " + k.who, s.now);
      if Rejecting(s.store, k.rid, "rejected by " + k.who, s.now).1.Ok? {
        RejectStep(s, h, k.rid, "rejected by " + k.who);
      } else {
        AgedStep(s, h, e);
      }
    }
  }

  lemma RunStep(s: System, h: Hid, freshId: Id, o: Outcome)
    requires Inv(s) && Enabled(s, Step(h, freshId, o)) && !Idle(s.handlers[h])
    ensures Inv(Apply(s, Step(h, freshId, o)))
  {
    hide Inv, DeedOf;
    var k := s.handlers[h];
    if k.Executing? {
      ExecuteStep(s, h, k.rid, k.r, o);
    } else {
      FinishStep(s, h, k.rid, k.r, k.outcome);
    }
  }

  lemma StepKeepsInv(s: System, a: Act)
    requires Inv(s) && Enabled(s, a)
    ensures Inv(Apply(s, a))
  {
    hide Inv, StepEffect, AfterStep;
    if a.Step? {
      var h, k := a.h, s.handlers[a.h];
      if k.Asking? { AskStep(s, h, a.freshId, a.outcome); }
      else if !Idle(k) { RunStep(s, h, a.freshId, a.outcome); }
      else if k.Granting? || k.Refusing? { DecideStep(s, h, a.freshId, a.outcome); }
      else { QuietStep(s, h, a.freshId, a.outcome); }
    } else {
      OtherActs(s, a);
    }
  }

  /** The clock, arrivals, reads and sweeps. */
  lemma OtherActs(s: System, a: Act)
    requires Inv(s) && Enabled(s, a) && !a.Step?
    ensures Inv(Apply(s, a))
  {
    hide Free, GatedRequest, GoodRequest, Requests, Ages, Swept, Touched, Noted;
    match a
    case Clock(_) => SameRequests(s, Apply(s, a));
    case Arrive(_, _) => SameRequests(s, Apply(s, a));
    case Read(id) =>
      TouchAges(s.store, id, s.now);
      AgeKeepsRequests(s, Apply(s, a));
    case ReadAll =>
      SweepAges(s.store, s.ttl, s.now);
      AgeKeepsRequests(s, Apply(s, a));
  }

  lemma SameRequests(s: System, t: System)
    requires Requests(s) && t.parked == s.parked && t.hist == s.hist && t.store == s.store
    requires forall id :: OwnerOf(t.owner, t.handlers, id) == OwnerOf(s.owner, s.handlers, id)
    ensures Requests(t)
  {
    hide GoodView;
    forall id | id in t.parked ensures GoodRequest(t, id) {
      assert GoodRequest(s, id) && ViewOf(t, id) == ViewOf(s, id);
    }
  }

  lemma {:induction false} RunKeepsInv(s: System, acts: seq<Act>)
    requires Inv(s) && RunFrom(s, acts).Some?
    ensures Inv(RunFrom(s, acts).value)
    decreases |acts|
  {
    if acts != [] {
      StepKeepsInv(s, acts[0]);
      RunKeepsInv(Apply(s, acts[0]), acts[1..]);
    }
  }

  lemma ReachableInv(s: System)
    requires Reachable(s)
    ensures Inv(s)
  {
    var config, ttl, now, acts :| RunFrom(Init(config, ttl, now), acts) == Some(s);
    RunKeepsInv(Init(config, ttl, now), acts);
  }

  // -------------------------------------------------------- what it all means

  /** The phase entered last among the first n events. */
  function PhaseAfter(w: seq<Event>, n: nat): Option<Phase>
    requires n <= |w|
  {
    if n == 0 then None else if w[n - 1].Entered? then Some(w[n - 1].phase) else PhaseAfter(w, n - 1)
  }

  /** How often the first n events ran a mutation. */
  function Runs(w: seq<Event>, n: nat): nat
    requires n <= |w|
  {
    if n == 0 then 0 else Runs(w, n - 1) + (if w[n - 1].Ran? then 1 else 0)
  }

  /** The documented phase graph. */
  predicate Follows(before: Phase, after: Phase)
  {
    || (before == Pending && (after == Approved || after == Rejected || after == Phase.Expired))
    || (before == Approved && (after == Succeeded || after == Failed))
  }

  predicate ApprovedByOther(e: Event, p: Request)
  {
    e.Entered? && e.phase == Approved && e.who != p.requester && e.at < p.expiresAt
  }

  /** Lawful, read out: the mutation that was parked runs at most once, after an
      approval by a second person before the deadline; never for a request
      rejected or expired; and phases follow the graph. */
  lemma LawfulMeans(w: seq<Event>, p: Request)
    requires Lawful(w, p)
    ensures Runs(w, |w|) <= 1
    ensures forall i :: 0 <= i < |w| && w[i].Ran? ==>
              DeedOf(p) == Some(w[i].deed) && exists j :: 0 <= j < i && ApprovedByOther(w[j], p)
    ensures PhaseAfter(w, |w|) == Some(Rejected) || PhaseAfter(w, |w|) == Some(Phase.Expired) ==> Runs(w, |w|) == 0
    ensures forall i :: 0 < i < |w| && w[i].Entered? ==>
              PhaseAfter(w, i).Some? && Follows(PhaseAfter(w, i).value, w[i].phase)
  {
    hide DeedOf;
    assert |w| >= 1 && PhaseAfter(w, 0) == None && Runs(w, 0) == 0;
    assert PhaseAfter(w, 1) == Some(Pending) && Runs(w, 1) == 0;
    if |w| >= 2 {
      assert PhaseAfter(w, 2) == Some(w[1].phase) && Runs(w, 2) == 0;
    }
    if |w| >= 3 {
      assert PhaseAfter(w, 3) == Some(Approved) && Runs(w, 3) == 1 && ApprovedByOther(w[1], p);
    }
    if |w| == 4 {
      assert PhaseAfter(w, 4) == Some(w[3].phase) && Runs(w, 4) == 1;
    }
  }

  /** Every parked request's history is lawful in every reachable state, and
      what is stored is what was parked, in the phase its history ends in. */
  lemma HistoryIsLawful(s: System, id: Id)
    requires Reachable(s) && id in s.parked
    ensures id in s.hist && Lawful(s.hist[id], s.parked[id])
    ensures id in s.store ==> SameAsk(s.store[id], s.parked[id])
                              && PhaseAfter(s.hist[id], |s.hist[id]|) == Some(s.store[id].phase)
  {
    ReachableInv(s);
    hide Reachable;
    KnownHolds(s, id);
  }

  lemma KnownHolds(s: System, id: Id)
    requires Inv(s) && id in s.parked
    ensures id in s.hist && Lawful(s.hist[id], s.parked[id]) && GatedRequest(s.config, s.parked[id])
    ensures id in s.store ==> SameAsk(s.store[id], s.parked[id])
                              && PhaseAfter(s.hist[id], |s.hist[id]|) == Some(s.store[id].phase)
  {
    assert GoodRequest(s, id);
    hide Inv, GatedRequest;
    ViewIsLawful(ViewOf(s, id));
  }

  lemma ViewIsLawful(v: View)
    requires GoodView(v)
    ensures Lawful(v.w, v.p)
    ensures v.r.Some? ==> SameAsk(v.r.value, v.p) && PhaseAfter(v.w, |v.w|) == Some(v.r.value.phase)
  {
    hide DeedOf;
  }

  /** A history is never rewritten. */
  lemma HistoryOnlyGrows(s: System, a: Act, id: Id)
    requires Enabled(s, a) && id in s.hist
    ensures id in Apply(s, a).hist && s.hist[id] <= Apply(s, a).hist[id]
  {
    hide StepEffect;
  }

  /** An approved request is in exactly one handler's hands, so Complete finds
      it approved and the internal-error answer is never given. */
  lemma ApprovedHasOneHandler(s: System, id: Id)
    requires Reachable(s) && id in s.store
    ensures s.store[id].phase == Approved <==> exists h :: h in s.handlers && Active(s.handlers[h], id)
    ensures forall g, h :: g in s.handlers && h in s.handlers && Active(s.handlers[g], id) && Active(s.handlers[h], id) ==> g == h
  {
    ReachableInv(s);
    hide Permitted, NeedsApproval, Captured, GatedRequest, Free;
    assert GoodRequest(s, id);
    if s.store[id].phase == Approved {
      assert Active(s.handlers[s.owner[id]], id);
    }
    forall h | h in s.handlers && Active(s.handlers[h], id) ensures s.store[id].phase == Approved && h == s.owner[id] {
      OwnerHolds(s, h);
    }
  }

  lemma CompleteFindsApproved(s: System, h: Hid)
    requires Reachable(s) && h in s.handlers
    ensures s.handlers[h] != Finished(500)
    ensures s.handlers[h].Finishing? ==>
              var k := s.handlers[h]; k.rid in s.store && s.store[k.rid] == k.r && k.r.phase == Approved
  {
    ReachableInv(s);
    hide Permitted, NeedsApproval, Captured, GatedRequest, Free;
    assert GoodHandler(s.config, s.owner, s.parked, h, s.handlers[h]);
    if s.handlers[h].Finishing? {
      OwnerHolds(s, h);
    }
  }

  lemma GatedBeforeItRan(s: System, id: Id, d: Deed, o: Outcome)
    requires Inv(s) && id in s.hist && Ran(d, o) in s.hist[id]
    ensures id in s.parked && Permitted(s.config, d.m) && NeedsApproval(s.config, d.m)
    ensures DeedOf(s.parked[id]) == Some(d)
  {
    hide Permitted, NeedsApproval, DeedOf;
    KnownHolds(s, id);
    hide Inv, GoodView, Lawful;
    LawfulMeans(s.hist[id], s.parked[id]);
  }

  // ----------------------------------------------- where it all came from

  /** Somebody asked for this mutation, in this cluster. */
  ghost predicate AskedBy(arrived: map<Hid, Handler>, h: Hid, d: Deed)
  {
    h in arrived && arrived[h].Asking? && arrived[h].cluster == d.cluster && Wanted(arrived[h].ask) == Some(d.m)
  }

  ghost predicate AskedFor(arrived: map<Hid, Handler>, d: Deed)
  {
    exists h :: AskedBy(arrived, h, d)
  }

  /** The requester of record asked for what was parked. */
  ghost predicate ParkedAsAsked(arrived: map<Hid, Handler>, p: Request)
  {
    DeedOf(p).Some? && exists h :: AskedBy(arrived, h, DeedOf(p).value) && arrived[h].who == p.requester
  }

  /** `a` was called on this request through the path of its own cluster. */
  ghost predicate Addresses(parked: map<Id, Request>, a: Handler, id: Id)
  {
    (a.ApproveStart? || a.RejectStart?) && a.rid == id && id in parked && parked[id].cluster == a.cluster
  }

  ghost predicate HandlerOrigin(c: Config, parked: map<Id, Request>, arrived: map<Hid, Handler>, h: Hid, k: Handler)
  {
    h in arrived &&
    match k
    case Inline(d) => AskedBy(arrived, h, d)
    case Granting(rid, who) => c.tokens && arrived[h].ApproveStart? && arrived[h].who == who && Addresses(parked, arrived[h], rid)
    case Executing(rid, _) => c.tokens && arrived[h].ApproveStart? && Addresses(parked, arrived[h], rid)
    case Finishing(rid, _, _) => c.tokens && arrived[h].ApproveStart? && Addresses(parked, arrived[h], rid)
    case Refusing(rid, who) => arrived[h].RejectStart? && arrived[h].who == who && Addresses(parked, arrived[h], rid)
    case Finished(_) => true
    case _ => arrived[h] == k
  }

  ghost predicate OwnerOrigin(c: Config, parked: map<Id, Request>, arrived: map<Hid, Handler>, id: Id, h: Hid)
  {
    c.tokens && h in arrived && arrived[h].ApproveStart? && Addresses(parked, arrived[h], id)
  }

  ghost predicate Origins(s: System)
  {
    && (forall h :: h in s.handlers ==> HandlerOrigin(s.config, s.parked, s.arrived, h, s.handlers[h]))
    && (forall h :: h in s.arrived ==> h in s.handlers)
    && (forall id :: id in s.owner ==> OwnerOrigin(s.config, s.parked, s.arrived, id, s.owner[id]))
    && (forall d :: d in s.inlined ==> AskedFor(s.arrived, d))
    && (forall id :: id in s.parked ==> ParkedAsAsked(s.arrived, s.parked[id]))
  }

  /** More parked and more arrived takes nothing away. */
  lemma OriginsLast(p: map<Id, Request>, q: map<Id, Request>, a: map<Hid, Handler>, b: map<Hid, Handler>)
    requires forall id :: id in p ==> id in q && q[id] == p[id]
    requires forall h :: h in a ==> h in b && b[h] == a[h]
    ensures forall c, h, k :: HandlerOrigin(c, p, a, h, k) ==> HandlerOrigin(c, q, b, h, k)
    ensures forall c, id, h :: OwnerOrigin(c, p, a, id, h) ==> OwnerOrigin(c, q, b, id, h)
    ensures forall d :: AskedFor(a, d) ==> AskedFor(b, d)
    ensures forall r :: ParkedAsAsked(a, r) ==> ParkedAsAsked(b, r)
  {
    hide DeedOf, Wanted;
    forall h, d | AskedBy(a, h, d) ensures AskedBy(b, h, d) {}
  }

  /** One step of a handler, seen from where it came. */
  lemma StepOrigin(s: System, h: Hid, freshId: Id, o: Outcome)
    requires Inv(s) && Origins(s) && Enabled(s, Step(h, freshId, o))
    ensures var k := s.handlers[h];
            var e := StepEffect(s, k, freshId, o);
            && HandlerOrigin(s.config, s.parked, s.arrived, h, e.handler)
            && (e.handler.Executing? ==> OwnerOrigin(s.config, s.parked, s.arrived, e.handler.rid, h))
            && (forall d :: d in e.inlined ==> AskedFor(s.arrived, d))
            && (e.minted.Some? ==> e.minted.value.id == freshId && ParkedAsAsked(s.arrived, e.minted.value))
  {
    hide Inv, StepEffect, AskedFor, ParkedAsAsked;
    var k := s.handlers[h];
    assert HandlerOrigin(s.config, s.parked, s.arrived, h, k);
    hide HandlerOrigin, OwnerOrigin;
    if k.Asking? { AskOrigin(s, h, freshId, o); }
    else if k.ApproveStart? || k.RejectStart? { LookupOrigin(s, h, freshId, o); }
    else { RestOrigin(s, h, freshId, o); }
  }

  lemma LookupOrigin(s: System, h: Hid, freshId: Id, o: Outcome)
    requires Inv(s) && h in s.handlers && HandlerOrigin(s.config, s.parked, s.arrived, h, s.handlers[h])
    requires s.handlers[h].ApproveStart? || s.handlers[h].RejectStart?
    ensures var e := StepEffect(s, s.handlers[h], freshId, o);
            && HandlerOrigin(s.config, s.parked, s.arrived, h, e.handler)
            && !e.handler.Executing? && e.inlined == [] && e.minted.None?
  {
    hide Inv, Found;
    FoundIsParked(s, s.handlers[h].rid, s.handlers[h].cluster);
  }

  lemma RestOrigin(s: System, h: Hid, freshId: Id, o: Outcome)
    requires h in s.handlers && HandlerOrigin(s.config, s.parked, s.arrived, h, s.handlers[h])
    requires !s.handlers[h].Asking? && !s.handlers[h].ApproveStart? && !s.handlers[h].RejectStart?
    ensures var e := StepEffect(s, s.handlers[h], freshId, o);
            && HandlerOrigin(s.config, s.parked, s.arrived, h, e.handler)
            && (e.handler.Executing? ==> OwnerOrigin(s.config, s.parked, s.arrived, e.handler.rid, h))
            && (forall d :: d in e.inlined ==> AskedFor(s.arrived, d))
            && e.minted.None?
  {
    hide DeedOf, Wanted;
    if s.handlers[h].Inline? {
      assert AskedFor(s.arrived, s.handlers[h].deed);
    }
  }

  lemma FoundIsParked(s: System, rid: Id, cluster: string)
    requires Inv(s)
    ensures Found(s, rid, cluster) ==> rid in s.parked && s.parked[rid].cluster == cluster
  {
    hide Permitted, NeedsApproval, GatedRequest, Free;
    if rid in s.store {
      StoredHolds(s, rid);
    }
  }

  lemma AskOrigin(s: System, h: Hid, freshId: Id, o: Outcome)
    requires h in s.handlers && s.handlers[h].Asking? && HandlerOrigin(s.config, s.parked, s.arrived, h, s.handlers[h])
    ensures var e := StepEffect(s, s.handlers[h], freshId, o);
            && HandlerOrigin(s.config, s.parked, s.arrived, h, e.handler) && !e.handler.Executing? && e.inlined == []
            && (e.minted.Some? ==> e.minted.value.id == freshId && ParkedAsAsked(s.arrived, e.minted.value))
  {
    var k := s.handlers[h];
    GateIsExact(s.config, k.ask);
    hide Permitted, NeedsApproval, Gate, Captured;
    var e := StepEffect(s, k, freshId, o);
    if e.minted.Some? {
      assert AskedBy(s.arrived, h, DeedOf(e.minted.value).value);
    }
  }

  /** The fields that origins are about, after a step. */
  lemma StepFields(s: System, h: Hid, e: Effect)
    ensures var t := AfterStep(s, h, e);
            && t.config == s.config && t.arrived == s.arrived
            && t.handlers == s.handlers[h := e.handler] && t.inlined == s.inlined + e.inlined
            && t.parked == (if e.minted.Some? then s.parked[e.minted.value.id := e.minted.value] else s.parked)
            && t.owner == (if e.handler.Executing? then s.owner[e.handler.rid := h] else s.owner)
  {
    hide Noted;
  }

  /** What a step leaves behind, given where its effect came from. */
  lemma OriginsAfter(s: System, t: System, h: Hid, e: Effect)
    requires Origins(s)
    requires t.config == s.config && t.arrived == s.arrived && h in s.arrived
    requires t.handlers == s.handlers[h := e.handler] && t.inlined == s.inlined + e.inlined
    requires t.parked == (if e.minted.Some? then s.parked[e.minted.value.id := e.minted.value] else s.parked)
    requires t.owner == (if e.handler.Executing? then s.owner[e.handler.rid := h] else s.owner)
    requires e.minted.Some? ==> e.minted.value.id !in s.parked && ParkedAsAsked(s.arrived, e.minted.value)
    requires HandlerOrigin(s.config, s.parked, s.arrived, h, e.handler)
    requires e.handler.Executing? ==> OwnerOrigin(s.config, s.parked, s.arrived, e.handler.rid, h)
    requires forall d :: d in e.inlined ==> AskedFor(s.arrived, d)
    ensures Origins(t)
  {
    OriginsLast(s.parked, t.parked, s.arrived, t.arrived);
    hide HandlerOrigin, AskedFor, ParkedAsAsked, OwnerOrigin;
  }

  lemma StepKeepsOrigins(s: System, h: Hid, freshId: Id, o: Outcome)
    requires Inv(s) && Origins(s) && Enabled(s, Step(h, freshId, o))
    ensures Origins(Apply(s, Step(h, freshId, o)))
  {
    StepOrigin(s, h, freshId, o);
    var e := StepEffect(s, s.handlers[h], freshId, o);
    StepFields(s, h, e);
    assert h in s.arrived by {
      hide Inv, AfterStep, StepEffect, Enabled;
      assert HandlerOrigin(s.config, s.parked, s.arrived, h, e.handler);
    }
    assert e.minted.Some? ==> freshId !in s.parked by {
      hide Inv, AfterStep, StepEffect, HandlerOrigin, AskedFor, ParkedAsAsked, OwnerOrigin, Origins;
    }
    hide Inv, AfterStep, StepEffect, HandlerOrigin, AskedFor, ParkedAsAsked, OwnerOrigin, Origins;
    OriginsAfter(s, AfterStep(s, h, e), h, e);
  }

  lemma ArriveKeepsOrigins(s: System, h: Hid, k: Handler)
    requires Origins(s) && Enabled(s, Arrive(h, k))
    ensures Origins(Apply(s, Arrive(h, k)))
  {
    var t := Apply(s, Arrive(h, k));
    OriginsLast(s.parked, t.parked, s.arrived, t.arrived);
    assert HandlerOrigin(t.config, t.parked, t.arrived, h, k);
    hide HandlerOrigin, AskedFor, ParkedAsAsked, OwnerOrigin;
  }

  lemma OriginsKept(s: System, a: Act)
    requires Inv(s) && Origins(s) && Enabled(s, a)
    ensures Origins(Apply(s, a))
  {
    hide Inv, HandlerOrigin, AskedFor, ParkedAsAsked, OwnerOrigin, Noted;
    match a
    case Step(h, freshId, o) => StepKeepsOrigins(s, h, freshId, o);
    case Arrive(h, k) => ArriveKeepsOrigins(s, h, k);
    case _ =>
  }

  lemma {:induction false} RunKeepsOrigins(s: System, acts: seq<Act>)
    requires Inv(s) && Origins(s) && RunFrom(s, acts).Some?
    ensures Origins(RunFrom(s, acts).value)
    decreases |acts|
  {
    hide Inv, Origins, Apply, Enabled;
    if acts != [] {
      StepKeepsInv(s, acts[0]);
      OriginsKept(s, acts[0]);
      RunKeepsOrigins(Apply(s, acts[0]), acts[1..]);
    }
  }

  lemma ReachableOrigins(s: System)
    requires Reachable(s)
    ensures Origins(s)
  {
    var config, ttl, now, acts :| RunFrom(Init(config, ttl, now), acts) == Some(s);
    RunKeepsOrigins(Init(config, ttl, now), acts);
  }

  /** What runs is what was asked for and gated, in the cluster it was asked for:
      inline without needing approval; or, needing it, exactly as captured when
      parked, for the requester of record. */
  lemma OnlyPermittedMutationsRun(s: System, id: Id, d: Deed, o: Outcome)
    requires Reachable(s)
    ensures d in s.inlined ==> AskedFor(s.arrived, d) && Permitted(s.config, d.m) && !NeedsApproval(s.config, d.m)
    ensures id in s.hist && Ran(d, o) in s.hist[id] ==>
              id in s.parked && DeedOf(s.parked[id]) == Some(d) && ParkedAsAsked(s.arrived, s.parked[id])
              && Permitted(s.config, d.m) && NeedsApproval(s.config, d.m)
  {
    ReachableInv(s);
    ReachableOrigins(s);
    hide Reachable, Permitted, NeedsApproval, DeedOf, Requests, Handlers, AskedFor, ParkedAsAsked;
    if id in s.hist && Ran(d, o) in s.hist[id] {
      GatedBeforeItRan(s, id, d, o);
    }
  }

  /** A request is approved only by a call through the path of its own cluster,
      and only where tokens tell two people apart. */
  lemma ApprovedThroughItsCluster(s: System, id: Id)
    requires Reachable(s) && id in s.owner
    ensures var h := s.owner[id];
            && h in s.arrived && s.arrived[h].ApproveStart? && s.arrived[h].rid == id
            && id in s.parked && s.arrived[h].cluster == s.parked[id].cluster && s.config.tokens
  {
    ReachableOrigins(s);
    hide Reachable;
    assert OwnerOrigin(s.config, s.parked, s.arrived, id, s.owner[id]);
  }

  /** The recorded phase follows the error text, not the error: it is Failed
      exactly when the backend call broke with a text to show. */
  lemma RecordedAsFailed(s: System, h: Hid, freshId: Id, o: Outcome)
    requires Reachable(s) && Enabled(s, Step(h, freshId, o)) && s.handlers[h].Finishing?
    ensures var k, t := s.handlers[h], Apply(s, Step(h, freshId, o));
            k.rid in t.store
            && (t.store[k.rid].phase == Failed <==> k.outcome.Broke? && !Silent(k.outcome.error))
            && (t.store[k.rid].phase == Succeeded <==> k.outcome.Done? || Silent(k.outcome.error))
  {
    CompleteFindsApproved(s, h);
  }

  /** With the repository's own backends the recorded phase is the call's
      outcome: Failed exactly when it broke. */
  lemma BrokenIsRecordedAsFailed(s: System, h: Hid, freshId: Id, o: Outcome)
    requires Reachable(s) && Enabled(s, Step(h, freshId, o)) && s.handlers[h].Finishing? && Given(s.handlers[h].outcome)
    ensures var k, t := s.handlers[h], Apply(s, Step(h, freshId, o));
            k.rid in t.store
            && (t.store[k.rid].phase == Failed <==> k.outcome.Broke?)
            && (t.store[k.rid].phase == Succeeded <==> k.outcome.Done?)
  {
    RecordedAsFailed(s, h, freshId, o);
    BackendsSpeak(s.handlers[h].outcome);
    hide Reachable, Apply, Enabled, Given;
  }
}
