/** Lazy expiry against eager expiry. The store expires a request only when some
    operation looks at it, and drops resolved requests when it sweeps; the
    reference machine expires every request at its deadline and drops nothing.
    Nobody can tell the two apart by a request the store still holds. */
module LazyExpiry {
  import opened Policy
  import opened Wrappers
  import opened Approval

  datatype Call =
    | Wait(passed: nat)
    | ParkCall(id: Id, op: Op, cluster: string, target: string, replicas: Option<int>, requester: string)
    | GetCall(id: Id)
    | ListCall(cluster: string)
    | ApproveCall(id: Id, who: string)
    | RejectCall(id: Id, reason: string)
    | CompleteCall(id: Id, resultId: string, errMsg: string)

  datatype Reply = Nothing | Saw(phases: map<Id, Phase>) | Decided(error: Option<Error>)

  datatype Store = Store(reqs: map<Id, Request>, ttl: int, now: int)

  function ErrorOf(a: Answer): Option<Error>
  {
    if a.Ok? then None else Some(a.error)
  }

  function PhaseOf(reqs: map<Id, Request>, id: Id): map<Id, Phase>
  {
    if id in reqs then map[id := reqs[id].phase] else map[]
  }

  function Listed(reqs: map<Id, Request>, cluster: string): map<Id, Phase>
  {
    map id | id in reqs && InCluster(reqs[id], cluster) :: reqs[id].phase
  }

  /** The store as it is. */
  function Lazy(s: Store, c: Call): (Store, Reply)
  {
    match c
    case Wait(passed) => (s.(now := s.now + passed), Nothing)
    case ParkCall(id, op, cluster, target, replicas, requester) =>
      (s.(reqs := Parked(s.reqs, Fresh(id, op, cluster, target, replicas, requester, s.ttl, s.now), s.ttl, s.now)), Nothing)
    case GetCall(id) =>
      var reqs := Touched(s.reqs, id, s.now);
      (s.(reqs := reqs), Saw(PhaseOf(reqs, id)))
    case ListCall(cluster) =>
      var reqs := Swept(s.reqs, s.ttl, s.now);
      (s.(reqs := reqs), Saw(Listed(reqs, cluster)))
    case ApproveCall(id, who) =>
      var (reqs, a) := Approving(s.reqs, id, who, s.now);
      (s.(reqs := reqs), Decided(ErrorOf(a)))
    case RejectCall(id, reason) =>
      var (reqs, a) := Rejecting(s.reqs, id, reason, s.now);
      (s.(reqs := reqs), Decided(ErrorOf(a)))
    case CompleteCall(id, resultId, errMsg) =>
      var (reqs, a) := Completing(s.reqs, id, resultId, errMsg, s.now);
      (s.(reqs := reqs), Decided(ErrorOf(a)))
  }

  /** A request once the clock shows `now`: expired from its deadline on. */
  function Lapse(r: Request, now: int): Request
  {
    if r.phase == Pending && r.expiresAt <= now then r.(phase := Phase.Expired, updatedAt := r.expiresAt) else r
  }

  function Lapsed(reqs: map<Id, Request>, now: int): map<Id, Request>
  {
    map id | id in reqs :: Lapse(reqs[id], now)
  }

  /** Only the clock expires; every other operation takes phases as they stand. */
  function Eager(e: Store, c: Call): (Store, Reply)
  {
    match c
    case Wait(passed) => (e.(now := e.now + passed, reqs := Lapsed(e.reqs, e.now + passed)), Nothing)
    case ParkCall(id, op, cluster, target, replicas, requester) =>
      var r := Request(id, op, cluster, target, replicas, Pending, requester, "", "", "", e.now, e.now, e.now + e.ttl);
      (e.(reqs := e.reqs[id := Lapse(r, e.now)]), Nothing)
    case GetCall(id) => (e, Saw(PhaseOf(e.reqs, id)))
    case ListCall(cluster) =>
      (e, Saw(map id | id in e.reqs && (cluster == "" || e.reqs[id].cluster == cluster) :: e.reqs[id].phase))
    case ApproveCall(id, who) =>
      if id !in e.reqs then (e, Decided(Some(Unknown)))
      else if e.reqs[id].phase != Pending then (e, Decided(Some(Resolved)))
      else if who == e.reqs[id].requester then (e, Decided(Some(SelfApprove)))
      else (e.(reqs := e.reqs[id := e.reqs[id].(approver := who, phase := Approved, updatedAt := e.now)]), Decided(None))
    case RejectCall(id, reason) =>
      if id !in e.reqs then (e, Decided(Some(Unknown)))
      else if e.reqs[id].phase != Pending then (e, Decided(Some(Resolved)))
      else (e.(reqs := e.reqs[id := e.reqs[id].(phase := Rejected, reason := reason, updatedAt := e.now)]), Decided(None))
    case CompleteCall(id, resultId, errMsg) =>
      if id !in e.reqs then (e, Decided(Some(Unknown)))
      else if errMsg == "" then
        (e.(reqs := e.reqs[id := e.reqs[id].(phase := Succeeded, resultId := resultId, updatedAt := e.now)]), Decided(None))
      else (e.(reqs := e.reqs[id := e.reqs[id].(phase := Failed, reason := errMsg, updatedAt := e.now)]), Decided(None))
  }

  lemma LapsedTwice(reqs: map<Id, Request>, m: int, n: int)
    requires m <= n
    ensures Lapsed(Lapsed(reqs, m), n) == Lapsed(reqs, n)
  {
    var twice := Lapsed(Lapsed(reqs, m), n);
    assert twice.Keys == reqs.Keys;
    forall id | id in reqs ensures twice[id] == Lapse(reqs[id], n) {}
  }

  /** Expiry by the reference machine does not depend on how the clock is cut
      into steps: one long wait is many short ones. */
  lemma WaitsCompose(e: Store, a: nat, b: nat)
    ensures Eager(Eager(e, Wait(a)).0, Wait(b)) == Eager(e, Wait(a + b))
  {
    LapsedTwice(e.reqs, e.now + a, e.now + a + b);
    hide Lapsed;
    assert e.now + a + b == e.now + (a + b);
  }

  // ------------------------------------------------------------- refinement

  /** What the store holds against what the reference holds: the same, but for
      an expiry not noticed yet, or noticed late. */
  predicate Tracks(l: Request, e: Request, now: int)
  {
    if l.phase == Pending then e == Lapse(l, now)
    else if l.phase == Phase.Expired then e == l.(updatedAt := l.expiresAt) && l.expiresAt <= l.updatedAt
    else e == l
  }

  ghost predicate Refines(s: Store, e: Store)
  {
    && s.ttl == e.ttl && s.now == e.now && s.reqs.Keys <= e.reqs.Keys
    && (forall id :: id in s.reqs ==> Tracks(s.reqs[id], e.reqs[id], s.now))
    && (forall id :: id in e.reqs && id !in s.reqs ==> Terminal(e.reqs[id].phase))
  }

  /** How a reply about requests the store still holds compares; of one it has
      dropped, the reference says that it was resolved. */
  ghost predicate Agree(s: Store, e: Store, c: Call)
  {
    var (t, lazy) := Lazy(s, c);
    var (f, eager) := Eager(e, c);
    match c
    case Wait(_) => true
    case ParkCall(_, _, _, _, _, _) => true
    case GetCall(id) =>
      if id in s.reqs then lazy == eager else lazy == Saw(map[]) && (id in f.reqs ==> Terminal(f.reqs[id].phase))
    case ListCall(cluster) =>
      && lazy.Saw? && eager.Saw?
      && (forall id :: id in lazy.phases ==> id in eager.phases && eager.phases[id] == lazy.phases[id])
      && (forall id :: id in eager.phases && id !in lazy.phases ==> id !in t.reqs && Terminal(eager.phases[id]))
    case ApproveCall(id, _) => Same(id in s.reqs, lazy, eager)
    case RejectCall(id, _) => Same(id in s.reqs, lazy, eager)
    case CompleteCall(id, _, _) => id in s.reqs ==> lazy == eager
  }

  predicate Same(held: bool, lazy: Reply, eager: Reply)
  {
    if held then lazy == eager
    else lazy == Decided(Some(Unknown)) && (eager == Decided(Some(Unknown)) || eager == Decided(Some(Resolved)))
  }

  /** More than an hour ago, and more than the TTL. */
  predicate LongAgo(at: int, s: Store)
  {
    at < s.now - 3600000 && at < s.now - s.ttl
  }

  ghost predicate LongResolved(s: Store, e: Store, id: Id)
  {
    && id in s.reqs && Terminal(s.reqs[id].phase) && LongAgo(s.reqs[id].updatedAt, s)
    && id in e.reqs && Terminal(e.reqs[id].phase) && LongAgo(e.reqs[id].updatedAt, e)
  }

  /** What one operation drops was resolved longer ago than the retention, by
      the reference's clock too. */
  ghost predicate DropsOnlyOld(s: Store, e: Store, c: Call)
  {
    forall id :: id in s.reqs && id !in Lazy(s, c).0.reqs ==> LongResolved(s, e, id)
  }

  predicate Legal(e: Store, c: Call)
  {
    c.ParkCall? ==> c.id !in e.reqs
  }

  lemma TracksOn(l: Request, e: Request, now: int, later: int)
    requires Tracks(l, e, now) && now <= later
    ensures Tracks(l, Lapse(e, later), later)
  {}

  lemma WaitRefines(s: Store, e: Store, c: Call)
    requires Refines(s, e) && c.Wait?
    ensures Refines(Lazy(s, c).0, Eager(e, c).0) && Agree(s, e, c) && DropsOnlyOld(s, e, c)
  {
    hide Tracks, Lapse, Terminal;
    var later := s.now + c.passed;
    forall id | id in s.reqs ensures Tracks(s.reqs[id], Lapse(e.reqs[id], later), later) {
      TracksOn(s.reqs[id], e.reqs[id], s.now, later);
    }
    forall id | id in e.reqs && id !in s.reqs ensures Terminal(Lapse(e.reqs[id], later).phase) {
      ResolvedStays(e.reqs[id], later);
    }
  }

  lemma ResolvedStays(e: Request, later: int)
    requires Terminal(e.phase)
    ensures Terminal(Lapse(e, later).phase)
  {}

  /** The sweep, for one request. */
  lemma SweptTracks(s: Store, e: Store, id: Id)
    requires Refines(s, e) && id in s.reqs
    ensures if id in Swept(s.reqs, s.ttl, s.now) then Tracks(Swept(s.reqs, s.ttl, s.now)[id], e.reqs[id], s.now)
            else LongResolved(s, e, id)
  {
    assert Tracks(s.reqs[id], e.reqs[id], s.now);
    hide Refines;
  }

  lemma SweepRefines(s: Store, e: Store)
    requires Refines(s, e)
    ensures Refines(s.(reqs := Swept(s.reqs, s.ttl, s.now)), e)
    ensures forall id :: id in s.reqs && id !in Swept(s.reqs, s.ttl, s.now) ==> LongResolved(s, e, id)
  {
    hide Tracks, Expire, Old, Terminal, LongAgo, Retention;
    forall id | id in s.reqs
      ensures if id in Swept(s.reqs, s.ttl, s.now) then Tracks(Swept(s.reqs, s.ttl, s.now)[id], e.reqs[id], s.now)
              else LongResolved(s, e, id)
    {
      SweptTracks(s, e, id);
    }
  }

  lemma FreshTracks(r: Request, now: int)
    requires r.phase == Pending
    ensures Tracks(r, Lapse(r, now), now)
  {}

  /** A fresh entry on both sides. */
  lemma AddRefines(t: Store, e: Store, r: Request)
    requires Refines(t, e) && r.id !in e.reqs && r.phase == Pending
    ensures Refines(t.(reqs := t.reqs[r.id := r]), e.(reqs := e.reqs[r.id := Lapse(r, e.now)]))
  {
    FreshTracks(r, t.now);
    hide Tracks, Terminal, Lapse;
  }

  lemma ParkRefines(s: Store, e: Store, c: Call)
    requires Refines(s, e) && c.ParkCall? && Legal(e, c)
    ensures Refines(Lazy(s, c).0, Eager(e, c).0) && Agree(s, e, c) && DropsOnlyOld(s, e, c)
  {
    assert s.ttl == e.ttl && s.now == e.now;
    hide Refines, LongResolved, Swept, Lapse;
    SweepRefines(s, e);
    var r := Fresh(c.id, c.op, c.cluster, c.target, c.replicas, c.requester, s.ttl, s.now);
    AddRefines(s.(reqs := Swept(s.reqs, s.ttl, s.now)), e, r);
  }

  lemma GetRefines(s: Store, e: Store, c: Call)
    requires Refines(s, e) && c.GetCall?
    ensures Refines(Lazy(s, c).0, Eager(e, c).0) && Agree(s, e, c) && DropsOnlyOld(s, e, c)
  {
    if c.id in s.reqs {
      assert Tracks(s.reqs[c.id], e.reqs[c.id], s.now);
    }
  }

  lemma ListingsAgree(t: Store, e: Store, cluster: string)
    requires Refines(t, e) && forall id :: id in t.reqs ==> Expire(t.reqs[id], t.now) == t.reqs[id]
    ensures Eager(e, ListCall(cluster)).0 == e && Eager(e, ListCall(cluster)).1.Saw?
    ensures var lazy, eager := Listed(t.reqs, cluster), Eager(e, ListCall(cluster)).1.phases;
            && (forall id :: id in lazy ==> id in eager && eager[id] == lazy[id])
            && (forall id :: id in eager && id !in lazy ==> id !in t.reqs && Terminal(eager[id]))
  {}

  lemma ListRefines(s: Store, e: Store, c: Call)
    requires Refines(s, e) && c.ListCall?
    ensures Refines(Lazy(s, c).0, Eager(e, c).0) && Agree(s, e, c) && DropsOnlyOld(s, e, c)
  {
    var t := s.(reqs := Swept(s.reqs, s.ttl, s.now));
    SweepRefines(s, e);
    NothingOverdue(s);
    hide Refines, LongResolved, Swept, Eager, Expire, Terminal, Listed;
    ListingsAgree(t, e, c.cluster);
  }

  lemma NothingOverdue(s: Store)
    ensures var reqs := Swept(s.reqs, s.ttl, s.now); forall id :: id in reqs ==> Expire(reqs[id], s.now) == reqs[id]
  {}

  lemma ApproveRefines(s: Store, e: Store, c: Call)
    requires Refines(s, e) && c.ApproveCall?
    ensures Refines(Lazy(s, c).0, Eager(e, c).0) && Agree(s, e, c) && DropsOnlyOld(s, e, c)
  {
    if c.id in s.reqs {
      assert Tracks(s.reqs[c.id], e.reqs[c.id], s.now);
    }
  }

  lemma RejectRefines(s: Store, e: Store, c: Call)
    requires Refines(s, e) && c.RejectCall?
    ensures Refines(Lazy(s, c).0, Eager(e, c).0) && Agree(s, e, c) && DropsOnlyOld(s, e, c)
  {
    if c.id in s.reqs {
      assert Tracks(s.reqs[c.id], e.reqs[c.id], s.now);
    }
  }

  lemma CompleteRefines(s: Store, e: Store, c: Call)
    requires Refines(s, e) && c.CompleteCall?
    ensures Refines(Lazy(s, c).0, Eager(e, c).0) && Agree(s, e, c) && DropsOnlyOld(s, e, c)
  {
    if c.id in s.reqs {
      assert Tracks(s.reqs[c.id], e.reqs[c.id], s.now);
    }
  }

  lemma StepRefines(s: Store, e: Store, c: Call)
    requires Refines(s, e) && Legal(e, c)
    ensures Refines(Lazy(s, c).0, Eager(e, c).0) && Agree(s, e, c) && DropsOnlyOld(s, e, c)
  {
    hide Refines, DropsOnlyOld, Lazy, Eager;
    match c
    case Wait(_) => WaitRefines(s, e, c);
    case ParkCall(_, _, _, _, _, _) => ParkRefines(s, e, c);
    case GetCall(_) => GetRefines(s, e, c);
    case ListCall(_) => ListRefines(s, e, c);
    case ApproveCall(_, _) => ApproveRefines(s, e, c);
    case RejectCall(_, _) => RejectRefines(s, e, c);
    case CompleteCall(_, _, _) => CompleteRefines(s, e, c);
  }

  // ------------------------------------------------------------- whole runs

  /** Parked IDs are fresh. */
  ghost predicate LegalRun(e: Store, calls: seq<Call>)
    decreases |calls|
  {
    calls == [] || (Legal(e, calls[0]) && LegalRun(Eager(e, calls[0]).0, calls[1..]))
  }

  ghost predicate Indistinguishable(s: Store, e: Store, calls: seq<Call>)
    decreases |calls|
  {
    calls == [] ||
    (Agree(s, e, calls[0]) && DropsOnlyOld(s, e, calls[0])
     && Indistinguishable(Lazy(s, calls[0]).0, Eager(e, calls[0]).0, calls[1..]))
  }

  lemma {:induction false} RunRefines(s: Store, e: Store, calls: seq<Call>)
    requires Refines(s, e) && LegalRun(e, calls)
    ensures Indistinguishable(s, e, calls)
    decreases |calls|
  {
    hide Refines, Agree, DropsOnlyOld, Lazy, Eager;
    if calls != [] {
      StepRefines(s, e, calls[0]);
      RunRefines(Lazy(s, calls[0]).0, Eager(e, calls[0]).0, calls[1..]);
    }
  }

  /** From the empty store on, whatever is called, in whatever order and however
      the clock advances. */
  lemma LazyExpiryIsInvisible(ttl: int, now: int, calls: seq<Call>)
    requires LegalRun(Store(map[], ttl, now), calls)
    ensures Indistinguishable(Store(map[], ttl, now), Store(map[], ttl, now), calls)
  {
    RunRefines(Store(map[], ttl, now), Store(map[], ttl, now), calls);
  }
}
