/** The approval store: parked requests, their phases, lazy expiry and the
    sweep. Times are milliseconds, one clock reading per operation. */
module Approval {
  import opened Policy
  import opened Wrappers
  import opened Strings

  type Id = string

  datatype Phase = Pending | Approved | Rejected | Expired | Succeeded | Failed

  datatype Request = Request(id: Id, op: Op, cluster: string, target: string, replicas: Option<int>,
                             phase: Phase, requester: string, approver: string, reason: string, resultId: string,
                             createdAt: int, updatedAt: int, expiresAt: int)

  datatype Error = Unknown | SelfApprove | Resolved

  datatype Answer = Ok(request: Request) | Err(error: Error)

  const MIN_RETENTION: int := 3600000

  function Retention(ttl: int): int
  {
    Max(ttl, MIN_RETENTION)
  }

  predicate Terminal(p: Phase)
  {
    p == Rejected || p == Phase.Expired || p == Succeeded || p == Failed
  }

  /** `expireLocked`. */
  function Expire(r: Request, now: int): Request
  {
    if r.phase == Pending && now >= r.expiresAt then r.(phase := Phase.Expired, updatedAt := now) else r
  }

  predicate Old(r: Request, cutoff: int)
  {
    Terminal(r.phase) && r.updatedAt < cutoff
  }

  /** `sweepLocked`: expire what is overdue, then drop what was resolved before
      the cutoff. */
  function Swept(reqs: map<Id, Request>, ttl: int, now: int): map<Id, Request>
  {
    map id | id in reqs && !Old(Expire(reqs[id], now), now - Retention(ttl)) :: Expire(reqs[id], now)
  }

  /** What a sweep keeps, and how. */
  lemma SweptMeans(reqs: map<Id, Request>, ttl: int, now: int)
    ensures var swept := Swept(reqs, ttl, now);
            && (forall id ::
                  id in swept <==>
                  id in reqs && !(reqs[id].phase in {Rejected, Phase.Expired, Succeeded, Failed} &&
                                  reqs[id].updatedAt < now - ttl && reqs[id].updatedAt < now - 3600000))
            && (forall id :: id in swept ==>
                  swept[id] == if reqs[id].phase == Pending && reqs[id].expiresAt <= now
                               then reqs[id].(phase := Phase.Expired, updatedAt := now) else reqs[id])
  {}

  function Fresh(id: Id, op: Op, cluster: string, target: string, replicas: Option<int>, requester: string,
                 ttl: int, now: int): Request
  {
    Request(id, op, cluster, target, replicas, Pending, requester, "", "", "", now, now, now + ttl)
  }

  function Parked(reqs: map<Id, Request>, r: Request, ttl: int, now: int): map<Id, Request>
  {
    Swept(reqs, ttl, now)[r.id := r]
  }

  /** The store after an operation that looks at `id`. */
  function Touched(reqs: map<Id, Request>, id: Id, now: int): map<Id, Request>
  {
    if id in reqs then reqs[id := Expire(reqs[id], now)] else reqs
  }

  function Approving(reqs: map<Id, Request>, id: Id, approver: string, now: int): (map<Id, Request>, Answer)
  {
    if id !in reqs then (reqs, Err(Unknown))
    else
      var r := Expire(reqs[id], now);
      if r.phase != Pending then (reqs[id := r], Err(Resolved))
      else if approver == r.requester then (reqs[id := r], Err(SelfApprove))
      else
        var a := r.(approver := approver, phase := Approved, updatedAt := now);
        (reqs[id := a], Ok(a))
  }

  function Rejecting(reqs: map<Id, Request>, id: Id, reason: string, now: int): (map<Id, Request>, Answer)
  {
    if id !in reqs then (reqs, Err(Unknown))
    else
      var r := Expire(reqs[id], now);
      if r.phase != Pending then (reqs[id := r], Err(Resolved))
      else
        var a := r.(phase := Rejected, reason := reason, updatedAt := now);
        (reqs[id := a], Ok(a))
  }

  /** `Complete` looks at no phase. */
  function Completing(reqs: map<Id, Request>, id: Id, resultId: string, errMsg: string, now: int): (map<Id, Request>, Answer)
  {
    if id !in reqs then (reqs, Err(Unknown))
    else
      var r := reqs[id];
      var a := if errMsg != "" then r.(phase := Failed, reason := errMsg, updatedAt := now)
               else r.(phase := Succeeded, resultId := resultId, updatedAt := now);
      (reqs[id := a], Ok(a))
  }

  /** The order of a listing: CreatedAt, then ID. */
  predicate Before(a: Request, b: Request)
  {
    a.createdAt < b.createdAt || (a.createdAt == b.createdAt && Le(a.id, b.id))
  }

  ghost predicate InOrder(out: seq<Request>)
  {
    forall i, j :: 0 <= i < j < |out| ==> Before(out[i], out[j])
  }

  predicate InCluster(r: Request, cluster: string)
  {
    cluster == "" || r.cluster == cluster
  }

  lemma BeforeTransitive(a: Request, b: Request, c: Request)
    requires Before(a, b) && Before(b, c)
    ensures Before(a, c)
  {
    if a.createdAt == b.createdAt == c.createdAt {
      LeTransitive(a.id, b.id, c.id);
    }
  }

  function InsertRequest(r: Request, out: seq<Request>): (res: seq<Request>)
    ensures multiset(res) == multiset(out) + multiset{r}
  {
    if out == [] then [r]
    else if Before(r, out[0]) then [r] + out
    else
      assert out == [out[0]] + out[1..];
      [out[0]] + InsertRequest(r, out[1..])
  }

  lemma {:induction false} InsertInOrder(r: Request, out: seq<Request>)
    requires InOrder(out)
    ensures InOrder(InsertRequest(r, out))
  {
    if out != [] {
      if Before(r, out[0]) {
        forall j | 0 <= j < |out| ensures Before(r, out[j]) {
          if j > 0 { BeforeTransitive(r, out[0], out[j]); }
        }
      } else {
        LeTotal(r.id, out[0].id);
        InsertInOrder(r, out[1..]);
        var res := InsertRequest(r, out[1..]);
        forall j | 0 <= j < |res| ensures Before(out[0], res[j]) {
          assert res[j] in multiset(res);
          assert res[j] in multiset(out[1..]) + multiset{r};
          if res[j] != r {
            assert res[j] in out[1..];
          }
        }
      }
    }
  }

  class ApprovalStore {
    var reqs: map<Id, Request>
    const ttl: int

    ghost predicate Valid()
      reads this
    {
      forall id :: id in reqs ==> reqs[id].id == id
    }

    constructor (ttl: int)
      ensures Valid() && reqs == map[] && this.ttl == ttl
    {
      this.ttl := ttl;
      reqs := map[];
    }

    method Park(id: Id, op: Op, cluster: string, target: string, replicas: Option<int>, requester: string, now: int)
      returns (r: Request)
      requires Valid() && id !in reqs
      modifies this
      ensures Valid()
      ensures r == Request(id, op, cluster, target, replicas, Pending, requester, "", "", "", now, now, now + ttl)
      ensures r == Fresh(id, op, cluster, target, replicas, requester, ttl, now) && reqs == Parked(old(reqs), r, ttl, now)
    {
      r := Fresh(id, op, cluster, target, replicas, requester, ttl, now);
      Sweep(now);
      reqs := reqs[id := r];
    }

    method Get(id: Id, now: int) returns (r: Option<Request>)
      requires Valid()
      modifies this
      ensures Valid() && reqs == Touched(old(reqs), id, now)
      ensures r == if id in old(reqs) then Some(reqs[id]) else None
      ensures id in old(reqs) ==>
                var before := old(reqs)[id];
                reqs[id] == if before.phase == Pending && before.expiresAt <= now
                            then before.(phase := Phase.Expired, updatedAt := now) else before
      ensures forall other :: other != id ==> (other in reqs <==> other in old(reqs))
      ensures forall other :: other != id && other in reqs ==> reqs[other] == old(reqs)[other]
    {
      if id !in reqs {
        return None;
      }
      reqs := reqs[id := Expire(reqs[id], now)];
      return Some(reqs[id]);
    }

    method Sweep(now: int)
      requires Valid()
      modifies this
      ensures Valid() && reqs == Swept(old(reqs), ttl, now)
      ensures forall id ::
                id in reqs <==>
                id in old(reqs) && !(old(reqs)[id].phase in {Rejected, Phase.Expired, Succeeded, Failed} &&
                                     old(reqs)[id].updatedAt < now - ttl && old(reqs)[id].updatedAt < now - 3600000)
      ensures forall id :: id in reqs ==>
                reqs[id] == if old(reqs)[id].phase == Pending && old(reqs)[id].expiresAt <= now
                            then old(reqs)[id].(phase := Phase.Expired, updatedAt := now) else old(reqs)[id]
    {
      var cutoff := now - Retention(ttl);
      var todo := reqs.Keys;
      ghost var before := reqs;
      while todo != {}
        invariant todo <= reqs.Keys <= before.Keys
        invariant forall id :: id in todo ==> reqs[id] == before[id]
        invariant forall id :: id in before && id !in todo ==> (id in reqs <==> !Old(Expire(before[id], now), cutoff))
        invariant forall id :: id in reqs && id !in todo ==> reqs[id] == Expire(before[id], now)
        decreases todo
      {
        var id :| id in todo;
        var r := Expire(reqs[id], now);
        if Old(r, cutoff) {
          reqs := reqs - {id};
        } else {
          reqs := reqs[id := r];
        }
        todo := todo - {id};
      }
      assert reqs.Keys == Swept(before, ttl, now).Keys;
      forall id | id in reqs ensures reqs[id] == Swept(before, ttl, now)[id] && reqs[id].id == id {
        assert id in before;
      }
      hide Expire, Old;
      assert reqs == Swept(before, ttl, now);
      SweptMeans(before, ttl, now);
    }

    /** Every request of the cluster once, by CreatedAt and then ID. */
    method List(cluster: string, now: int) returns (out: seq<Request>)
      requires Valid()
      modifies this
      ensures Valid() && reqs == Swept(old(reqs), ttl, now)
      ensures forall i, j :: 0 <= i < j < |out| ==>
                out[i].createdAt < out[j].createdAt || (out[i].createdAt == out[j].createdAt && Le(out[i].id, out[j].id))
      ensures forall r :: multiset(out)[r] ==
                if r.id in reqs && reqs[r.id] == r && (cluster == "" || r.cluster == cluster) then 1 else 0
    {
      Sweep(now);
      out := [];
      var todo := reqs.Keys;
      while todo != {}
        invariant Valid() && reqs == Swept(old(reqs), ttl, now)
        invariant todo <= reqs.Keys
        invariant InOrder(out)
        invariant forall r :: multiset(out)[r] ==
                    if r.id in reqs && r.id !in todo && reqs[r.id] == r && InCluster(r, cluster) then 1 else 0
        decreases todo
      {
        var id :| id in todo;
        if InCluster(reqs[id], cluster) {
          InsertInOrder(reqs[id], out);
          out := InsertRequest(reqs[id], out);
        }
        todo := todo - {id};
      }
    }

    method Approve(id: Id, approver: string, now: int) returns (a: Answer)
      requires Valid()
      modifies this
      ensures Valid() && (reqs, a) == Approving(old(reqs), id, approver, now)
      ensures a.Ok? <==> id in old(reqs) && old(reqs)[id].phase == Pending && now < old(reqs)[id].expiresAt
                         && approver != old(reqs)[id].requester
      ensures a.Ok? ==> a.request == old(reqs)[id].(phase := Approved, approver := approver, updatedAt := now)
                        && reqs == old(reqs)[id := a.request]
      ensures a == Err(Unknown) <==> id !in old(reqs)
      ensures a == Err(SelfApprove) <==> id in old(reqs) && old(reqs)[id].phase == Pending && now < old(reqs)[id].expiresAt
                                         && approver == old(reqs)[id].requester
    {
      if id !in reqs {
        return Err(Unknown);
      }
      reqs := reqs[id := Expire(reqs[id], now)];
      if reqs[id].phase != Pending {
        return Err(Resolved);
      }
      if approver == reqs[id].requester {
        return Err(SelfApprove);
      }
      reqs := reqs[id := reqs[id].(approver := approver, phase := Approved, updatedAt := now)];
      assert reqs == old(reqs)[id := reqs[id]];
      return Ok(reqs[id]);
    }

    method Reject(id: Id, reason: string, now: int) returns (a: Answer)
      requires Valid()
      modifies this
      ensures Valid() && (reqs, a) == Rejecting(old(reqs), id, reason, now)
      ensures a.Ok? <==> id in old(reqs) && old(reqs)[id].phase == Pending && now < old(reqs)[id].expiresAt
      ensures a.Ok? ==> a.request == old(reqs)[id].(phase := Rejected, reason := reason, updatedAt := now)
                        && reqs == old(reqs)[id := a.request]
      ensures a == Err(Unknown) <==> id !in old(reqs)
    {
      if id !in reqs {
        return Err(Unknown);
      }
      reqs := reqs[id := Expire(reqs[id], now)];
      if reqs[id].phase != Pending {
        return Err(Resolved);
      }
      reqs := reqs[id := reqs[id].(phase := Rejected, reason := reason, updatedAt := now)];
      assert reqs == old(reqs)[id := reqs[id]];
      return Ok(reqs[id]);
    }

    method Complete(id: Id, resultId: string, errMsg: string, now: int) returns (a: Answer)
      requires Valid()
      modifies this
      ensures Valid() && (reqs, a) == Completing(old(reqs), id, resultId, errMsg, now)
      ensures if id !in old(reqs) then a == Err(Unknown) && reqs == old(reqs)
              else a.Ok? && reqs == old(reqs)[id := a.request] &&
                   a.request == if errMsg == "" then old(reqs)[id].(phase := Succeeded, resultId := resultId, updatedAt := now)
                                else old(reqs)[id].(phase := Failed, reason := errMsg, updatedAt := now)
    {
      if id !in reqs {
        return Err(Unknown);
      }
      if errMsg != "" {
        reqs := reqs[id := reqs[id].(phase := Failed, reason := errMsg, updatedAt := now)];
      } else {
        reqs := reqs[id := reqs[id].(phase := Succeeded, resultId := resultId, updatedAt := now)];
      }
      return Ok(reqs[id]);
    }
  }
}
