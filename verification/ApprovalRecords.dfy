/** What the approval flow leaves on record: when each phase was entered, by
    whom a request was granted, and what its call answered. Deadlines are stated
    in the store's own TTL, from the time a request was parked. */
module ApprovalRecords {
  import opened Policy
  import opened Wrappers
  import opened Approval
  import opened BackendErrors
  import opened ApprovalProtocol

  // ------------------------------------------------- what one action records

  /** What an action may add to the history of a parked request: the run of its
      mutation, or a phase entered now, while its time allows. */
  ghost predicate MayAdd(s: System, a: Act, p: Request, e: Event)
  {
    e.Entered? ==>
      && e.at == s.now && e.phase != Pending
      && (e.phase == Approved ==> Grants(s, a, p.id, e.who))
      && (e.phase == Approved || e.phase == Rejected ==> s.now < p.expiresAt)
      && (e.phase == Phase.Expired ==> p.expiresAt <= s.now)
  }

  /** The action is a step of a handler that approves this request for `who`. */
  ghost predicate Grants(s: System, a: Act, id: Id, who: string)
  {
    a.Step? && a.h in s.handlers && s.handlers[a.h] == Granting(id, who) && Approving(s.store, id, who, s.now).1.Ok?
  }

  ghost predicate Adds(s: System, a: Act, p: Request, more: seq<Event>)
  {
    more == [] || (|more| == 1 && MayAdd(s, a, p, more[0]))
  }

  lemma AgedChange(s: System, a: Act, before: Option<Request>, after: Option<Request>, p: Request)
    requires AgedTo(before, after, s.now) && (before.Some? ==> SameAsk(before.value, p))
    ensures Adds(s, a, p, Change(before, after))
  {}

  lemma AgesChange(s: System, a: Act, after: map<Id, Request>, p: Request)
    requires Ages(s.store, after, s.now) && (p.id in s.store ==> SameAsk(s.store[p.id], p))
    ensures Adds(s, a, p, Change(Stored(s.store, p.id), Stored(after, p.id)))
  {
    hide AgedTo, Adds, SameAsk, Change;
    AgedChange(s, a, Stored(s.store, p.id), Stored(after, p.id), p);
  }

  /** The store after a step, as far as one parked request can tell. */
  lemma StepChange(s: System, h: Hid, freshId: Id, o: Outcome, p: Request)
    requires Enabled(s, Step(h, freshId, o)) && p.id != freshId && (p.id in s.store ==> SameAsk(s.store[p.id], p))
    ensures var after := StepEffect(s, s.handlers[h], freshId, o).store;
            Adds(s, Step(h, freshId, o), p, Change(Stored(s.store, p.id), Stored(after, p.id)))
  {
    hide Gate, DeedOf, Ages, Found;
    var k, a := s.handlers[h], Step(h, freshId, o);
    var after := StepEffect(s, k, freshId, o).store;
    TouchAges(s.store, if k.ApproveStart? || k.RejectStart? then k.rid else freshId, s.now);
    if k.Granting? || k.Refusing? || k.Finishing? {
      DecideChange(s, h, freshId, o, p);
    } else if k.Asking? && StepEffect(s, k, freshId, o).minted.Some? {
      SweepAges(s.store, s.ttl, s.now);
      AgesChange(s, a, Swept(s.store, s.ttl, s.now), p);
      hide Swept;
      assert Stored(after, p.id) == Stored(Swept(s.store, s.ttl, s.now), p.id);
    } else {
      AgesChange(s, a, after, p);
    }
  }

  lemma DecideChange(s: System, h: Hid, freshId: Id, o: Outcome, p: Request)
    requires Enabled(s, Step(h, freshId, o)) && (p.id in s.store ==> SameAsk(s.store[p.id], p))
    requires s.handlers[h].Granting? || s.handlers[h].Refusing? || s.handlers[h].Finishing?
    ensures var after := StepEffect(s, s.handlers[h], freshId, o).store;
            Adds(s, Step(h, freshId, o), p, Change(Stored(s.store, p.id), Stored(after, p.id)))
  {}

  lemma ParkedHolds(s: System, id: Id)
    requires Inv(s) && id in s.parked
    ensures id in s.hist && s.parked[id].id == id && s.store.Keys <= s.hist.Keys
    ensures id in s.store ==> SameAsk(s.store[id], s.parked[id])
  {
    hide GatedRequest, Free, Handlers;
    assert GoodRequest(s, id);
  }

  /** The history of one request after a step. */
  lemma HistoryAfter(s: System, h: Hid, e: Effect, id: Id) returns (more: seq<Event>)
    requires id in s.hist && s.store.Keys <= s.hist.Keys
    ensures id in AfterStep(s, h, e).hist && AfterStep(s, h, e).hist[id] == s.hist[id] + more
    ensures more == Change(Stored(s.store, id), Stored(e.store, id)) +
              if e.ran.Some? && e.handler.Finishing? && e.handler.rid == id then [Ran(e.ran.value, e.handler.outcome)] else []
  {
    NotedAt(s.hist, s.store, e.store);
    hide Noted, Change;
    more := AfterStep(s, h, e).hist[id][|s.hist[id]|..];
  }

  /** What runs changes no record yet. */
  lemma RunChangesNothing(s: System, h: Hid, freshId: Id, o: Outcome, id: Id)
    requires Enabled(s, Step(h, freshId, o)) && StepEffect(s, s.handlers[h], freshId, o).ran.Some?
    ensures Change(Stored(s.store, id), Stored(StepEffect(s, s.handlers[h], freshId, o).store, id)) == []
  {
    hide Gate, DeedOf;
  }

  lemma StepEvents(s: System, h: Hid, freshId: Id, o: Outcome, id: Id) returns (more: seq<Event>)
    requires Inv(s) && Enabled(s, Step(h, freshId, o)) && id in s.parked
    ensures var a := Step(h, freshId, o);
            && id in s.hist && id in Apply(s, a).hist && Apply(s, a).hist[id] == s.hist[id] + more
            && Adds(s, a, s.parked[id], more)
  {
    hide Inv, StepEffect, AfterStep, Change, SameAsk, Grants;
    var e := StepEffect(s, s.handlers[h], freshId, o);
    ParkedHolds(s, id);
    StepChange(s, h, freshId, o, s.parked[id]);
    more := HistoryAfter(s, h, e, id);
    if e.ran.Some? {
      RunChangesNothing(s, h, freshId, o, id);
    }
  }

  lemma AgedEvents(s: System, a: Act, id: Id) returns (more: seq<Event>)
    requires Inv(s) && Enabled(s, a) && id in s.parked && !a.Step?
    ensures id in s.hist && id in Apply(s, a).hist && Apply(s, a).hist[id] == s.hist[id] + more
    ensures Adds(s, a, s.parked[id], more)
  {
    hide Inv, Noted, Change, SameAsk, Ages, MayAdd, Swept, Touched;
    ParkedHolds(s, id);
    more := [];
    if a.Read? || a.ReadAll? {
      var t := Apply(s, a);
      TouchAges(s.store, if a.Read? then a.id else id, s.now);
      SweepAges(s.store, s.ttl, s.now);
      NotedAt(s.hist, s.store, t.store);
      AgesChange(s, a, t.store, s.parked[id]);
      more := Change(Stored(s.store, id), Stored(t.store, id));
    }
  }

  /** One action adds at most one event to a history, at its proper time. */
  lemma OneEventMore(s: System, a: Act, id: Id) returns (more: seq<Event>)
    requires Inv(s) && Enabled(s, a) && id in s.parked
    ensures id in s.hist && id in Apply(s, a).hist && Apply(s, a).hist[id] == s.hist[id] + more
    ensures Adds(s, a, s.parked[id], more)
  {
    hide Inv, Apply, Enabled, Adds;
    if a.Step? {
      more := StepEvents(s, a.h, a.freshId, a.outcome, id);
    } else {
      more := AgedEvents(s, a, id);
    }
  }

  // --------------------------------------------------------- the whole record

  /** A phase was entered in the lifetime of the request: a decision before
      `ttl` was over, an expiry not before; and a grant by the caller that the
      request's handler serves. */
  ghost predicate InItsTime(s: System, p: Request, e: Event)
  {
    e.Entered? ==>
      && p.createdAt <= e.at <= s.now
      && (e.phase == Approved || e.phase == Rejected ==> e.at < p.createdAt + s.ttl)
      && (e.phase == Phase.Expired ==> p.createdAt + s.ttl <= e.at)
      && (e.phase == Approved ==> GrantedBy(s, p.id, e.who))
  }

  ghost predicate GrantedBy(s: System, id: Id, who: string)
  {
    && id in s.owner && s.owner[id] in s.arrived
    && s.arrived[s.owner[id]].ApproveStart? && s.arrived[s.owner[id]].who == who
  }

  ghost predicate OnRecord(s: System, id: Id)
  {
    && id in s.parked && id in s.hist
    && var p, w := s.parked[id], s.hist[id];
       && p.id == id && p.expiresAt == p.createdAt + s.ttl && p.createdAt <= s.now
       && w != [] && w[0] == Entered(Pending, "", p.createdAt)
       && forall e :: e in w ==> InItsTime(s, p, e)
  }

  ghost predicate Records(s: System)
  {
    forall id :: id in s.parked ==> OnRecord(s, id)
  }

  /** What records rest on, after an action. */
  lemma ActFields(s: System, a: Act)
    requires Enabled(s, a) && Origins(s)
    ensures var t := Apply(s, a);
            && t.ttl == s.ttl && s.now <= t.now
            && (forall id :: id in s.parked ==> id in t.parked && t.parked[id] == s.parked[id])
            && (forall h :: h in s.arrived ==> h in t.arrived && t.arrived[h] == s.arrived[h])
            && (forall id :: id in s.owner && id in s.parked ==>
                  id in t.owner && (t.owner[id] == s.owner[id] || exists who :: Grants(s, a, id, who)))
  {
    hide HandlerOrigin, OwnerOrigin, AskedFor, ParkedAsAsked, Noted, StepEffect, AfterStep, Grants;
    if a.Step? {
      var e := StepEffect(s, s.handlers[a.h], a.freshId, a.outcome);
      StepFields(s, a.h, e);
      StepTime(s, a.h, e);
      StepMintsOrGrants(s, a);
    }
  }

  lemma StepTime(s: System, h: Hid, e: Effect)
    ensures AfterStep(s, h, e).ttl == s.ttl && AfterStep(s, h, e).now == s.now
  {
    hide Noted;
  }

  lemma StepMintsOrGrants(s: System, a: Act)
    requires Enabled(s, a) && a.Step?
    ensures var e := StepEffect(s, s.handlers[a.h], a.freshId, a.outcome);
            && (e.minted.Some? ==> e.minted.value.id !in s.parked)
            && (e.handler.Executing? ==> exists who :: Grants(s, a, e.handler.rid, who))
  {
    hide Gate, Captured, DeedOf, Swept, Found;
    var k := s.handlers[a.h];
    if k.Granting? && Approving(s.store, k.rid, k.who, s.now).1.Ok? {
      assert Grants(s, a, k.rid, k.who);
    }
  }

  /** A request is granted only while nothing has been decided on it. */
  lemma GrantedOnce(s: System, a: Act, id: Id, who: string)
    requires Inv(s) && Grants(s, a, id, who)
    ensures id in s.hist && |s.hist[id]| == 1
  {
    StoredHolds(s, id);
  }

  lemma GrantSetsOwner(s: System, a: Act, id: Id, who: string)
    requires Enabled(s, a) && Origins(s) && Grants(s, a, id, who)
    ensures GrantedBy(Apply(s, a), id, who)
  {
    var e := StepEffect(s, s.handlers[a.h], a.freshId, a.outcome);
    StepFields(s, a.h, e);
    assert HandlerOrigin(s.config, s.parked, s.arrived, a.h, s.handlers[a.h]);
    hide AfterStep;
  }

  /** The fields that a record rests on are kept. */
  lemma TimeStays(s: System, t: System, p: Request, e: Event)
    requires InItsTime(s, p, e) && t.ttl == s.ttl && s.now <= t.now
    requires e.Entered? && e.phase == Approved && p.id in s.owner ==> p.id in t.owner && t.owner[p.id] == s.owner[p.id]
    requires forall h :: h in s.arrived ==> h in t.arrived && t.arrived[h] == s.arrived[h]
    ensures InItsTime(t, p, e)
  {}

  lemma EventStays(s: System, a: Act, id: Id, e: Event)
    requires Inv(s) && Origins(s) && Enabled(s, a) && OnRecord(s, id) && e in s.hist[id]
    ensures InItsTime(Apply(s, a), s.parked[id], e)
  {
    hide Apply, Inv, Origins, Enabled, Grants, InItsTime;
    ActFields(s, a);
    assert InItsTime(s, s.parked[id], e);
    if exists who :: Grants(s, a, id, who) {
      var who :| Grants(s, a, id, who);
      GrantedOnce(s, a, id, who);
      assert e == s.hist[id][0];
    }
    TimeStays(s, Apply(s, a), s.parked[id], e);
  }

  lemma NewEventInTime(s: System, a: Act, id: Id, e: Event)
    requires Inv(s) && Origins(s) && Enabled(s, a) && OnRecord(s, id) && MayAdd(s, a, s.parked[id], e)
    ensures InItsTime(Apply(s, a), s.parked[id], e)
  {
    hide Apply, Inv, Origins, Enabled, Grants;
    ActFields(s, a);
    if e.Entered? && e.phase == Approved {
      GrantSetsOwner(s, a, id, e.who);
    }
  }

  lemma RecordKept(s: System, a: Act, id: Id)
    requires Inv(s) && Origins(s) && Enabled(s, a) && OnRecord(s, id)
    ensures OnRecord(Apply(s, a), id)
  {
    hide Apply, Inv, Origins, Enabled, InItsTime, MayAdd, Grants;
    var t, w := Apply(s, a), s.hist[id];
    ActFields(s, a);
    var more := OneEventMore(s, a, id);
    assert t.hist[id][0] == w[0];
    forall e | e in t.hist[id] ensures InItsTime(t, s.parked[id], e) {
      if e in w {
        EventStays(s, a, id, e);
      } else {
        NewEventInTime(s, a, id, e);
      }
    }
  }

  lemma MintedIsFresh(s: System, a: Act, id: Id)
    requires Enabled(s, a) && id !in s.parked && id in Apply(s, a).parked
    ensures a.Step? && id == a.freshId && StepEffect(s, s.handlers[a.h], a.freshId, a.outcome).minted.Some?
    ensures var e := StepEffect(s, s.handlers[a.h], a.freshId, a.outcome);
            && e.minted.value.id == id && e.minted.value.phase == Pending && e.minted.value.approver == ""
            && e.minted.value.createdAt == e.minted.value.updatedAt == s.now && e.minted.value.expiresAt == s.now + s.ttl
            && id in e.store && e.store[id] == e.minted.value && e.ran.None?
            && Apply(s, a) == AfterStep(s, a.h, e) && Apply(s, a).parked[id] == e.minted.value
  {
    hide Gate, Captured, Swept, Noted, DeedOf, Found;
  }

  lemma NewRecord(s: System, a: Act, id: Id)
    requires Inv(s) && Enabled(s, a) && id !in s.parked && id in Apply(s, a).parked
    ensures OnRecord(Apply(s, a), id)
  {
    MintedIsFresh(s, a, id);
    hide Apply, StepEffect, Enabled, GatedRequest, Free, GoodRequest, Handlers, Gated;
    var e := StepEffect(s, s.handlers[a.h], a.freshId, a.outcome);
    NotedAt(s.hist, s.store, e.store);
    assert id !in s.hist;
    hide Inv, Requests, Noted;
    assert AfterStep(s, a.h, e).hist[id] == [Entered(Pending, "", s.now)];
  }

  lemma RecordsKept(s: System, a: Act)
    requires Inv(s) && Origins(s) && Records(s) && Enabled(s, a)
    ensures Records(Apply(s, a))
  {
    var t := Apply(s, a);
    hide Apply, Inv, Origins, Enabled, OnRecord;
    forall id | id in t.parked ensures OnRecord(t, id) {
      if id in s.parked {
        RecordKept(s, a, id);
      } else {
        NewRecord(s, a, id);
      }
    }
  }

  lemma {:induction false} RunKeepsRecords(s: System, acts: seq<Act>)
    requires Inv(s) && Origins(s) && Records(s) && RunFrom(s, acts).Some?
    ensures Records(RunFrom(s, acts).value)
    decreases |acts|
  {
    hide Inv, Origins, Records, Apply, Enabled;
    if acts != [] {
      StepKeepsInv(s, acts[0]);
      OriginsKept(s, acts[0]);
      RecordsKept(s, acts[0]);
      RunKeepsRecords(Apply(s, acts[0]), acts[1..]);
    }
  }

  lemma ReachableRecords(s: System)
    requires Reachable(s)
    ensures Records(s)
  {
    var config, ttl, now, acts :| RunFrom(Init(config, ttl, now), acts) == Some(s);
    RunKeepsRecords(Init(config, ttl, now), acts);
  }

  /** A request lives for the store's TTL from when it was parked: it is granted
      or rejected only strictly before its end and expires only from then on. */
  lemma DecidedWithinTtl(s: System, id: Id)
    requires Reachable(s) && id in s.parked
    ensures id in s.hist && s.hist[id] != []
    ensures s.hist[id][0] == Entered(Pending, "", s.parked[id].createdAt)
    ensures s.parked[id].expiresAt == s.parked[id].createdAt + s.ttl
    ensures forall e :: e in s.hist[id] && e.Entered? ==>
              && s.parked[id].createdAt <= e.at <= s.now
              && (e.phase == Approved || e.phase == Rejected ==> e.at < s.parked[id].createdAt + s.ttl)
              && (e.phase == Phase.Expired ==> s.parked[id].createdAt + s.ttl <= e.at)
  {
    ReachableRecords(s);
    hide Reachable;
    assert OnRecord(s, id);
  }

  /** A grant is made by the caller of the approve path, under that caller's own
      identity, which is not the requester's; and where no tokens are set up, so
      that two people cannot be told apart, nothing is ever granted or run. */
  lemma GrantIsTheCallers(s: System, id: Id, e: Event)
    requires Reachable(s) && id in s.hist && e in s.hist[id]
    ensures e.Entered? && e.phase == Approved ==>
              && id in s.owner && s.owner[id] in s.arrived && id in s.parked
              && s.arrived[s.owner[id]] == ApproveStart(id, s.parked[id].cluster, e.who)
              && e.who != s.parked[id].requester
    ensures !s.config.tokens ==> !e.Ran? && (e.Entered? ==> e.phase != Approved)
  {
    ReachableRecords(s);
    ReachableInv(s);
    assert OnRecord(s, id);
    HistoryIsLawful(s, id);
    hide Reachable, Inv, Records;
    LawfulMeans(s.hist[id], s.parked[id]);
    GrantIn(s, id, e);
  }

  lemma GrantIn(s: System, id: Id, e: Event)
    requires Reachable(s) && OnRecord(s, id) && Lawful(s.hist[id], s.parked[id]) && e in s.hist[id]
    ensures e.Entered? && e.phase == Approved ==>
              && id in s.owner && s.owner[id] in s.arrived
              && s.arrived[s.owner[id]] == ApproveStart(id, s.parked[id].cluster, e.who)
              && e.who != s.parked[id].requester
    ensures !s.config.tokens ==> !e.Ran? && (e.Entered? ==> e.phase != Approved)
  {
    hide DeedOf, Reachable;
    var w := s.hist[id];
    if |w| >= 2 && w[1].Entered? && w[1].phase == Approved {
      assert InItsTime(s, s.parked[id], w[1]);
      ApprovedThroughItsCluster(s, id);
    }
  }

  // ------------------------------------------------- what the call answered

  /** A completed record tells the call that was made: the job ID of a drain and
      of nothing else, or the text a client may see. */
  lemma OutcomeIsRecorded(s: System, id: Id)
    requires Reachable(s) && id in s.store
    ensures s.store[id].phase in {Succeeded, Failed} ==>
              && id in s.hist && |s.hist[id]| == 4 && s.hist[id][2].Ran?
              && match s.hist[id][2].outcome
                 case Done(jobId) =>
                   s.store[id].phase == Succeeded && s.store[id].resultId == if s.store[id].op == Drain then jobId else ""
                 case Broke(Missing) => s.store[id].phase == Failed && s.store[id].reason == "not found"
                 case Broke(Upstream(_)) => s.store[id].phase == Failed && s.store[id].reason == "backend error"
                 case Broke(Bad(text)) => if text == "" then s.store[id].phase == Succeeded && s.store[id].resultId == ""
                                          else s.store[id].phase == Failed && s.store[id].reason == text
                 case Broke(Unsupported(text)) => if text == "" then s.store[id].phase == Succeeded && s.store[id].resultId == ""
                                                  else s.store[id].phase == Failed && s.store[id].reason == text
    ensures s.store[id].phase != Succeeded ==> s.store[id].resultId == ""
  {
    ReachableInv(s);
    hide Reachable;
    StoredHolds(s, id);
    hide Inv, SameAsk, GatedRequest;
    assert Settled(s.store[id], s.hist[id], ViewOf(s, id).k);
  }

  // ------------------------------------------------------ what handlers answer

  /** An ask is answered by the gate: refused, passed on in its own cluster, or
      parked for the caller and answered 202. */
  lemma AskIsAnswered(s: System, h: Hid, freshId: Id, o: Outcome)
    requires Enabled(s, Step(h, freshId, o)) && s.handlers[h].Asking?
    ensures var k, t := s.handlers[h], Apply(s, Step(h, freshId, o));
            var g := Gate(s.config, k.ask);
            && (g.Refuse? ==> t.handlers[h] == Finished(g.status) && t.store == s.store)
            && (g.Execute? ==> t.handlers[h] == Inline(Deed(k.cluster, g.m)) && t.store == s.store)
            && (g.Park? ==>
                  && t.handlers[h] == Finished(202) && freshId in t.store
                  && t.store[freshId] == Request(freshId, g.op, k.cluster, g.target, g.replicas, Pending, k.who, "", "", "",
                                                 s.now, s.now, s.now + s.ttl))
  {
    hide Noted, Swept, Gate;
  }

  /** A call to decide is looked up first: 404 without an ID or a store, 403 to
      approve without tokens, 404 unless the request is held in the cluster of
      the path. */
  lemma LookupIsAnswered(s: System, h: Hid, freshId: Id, o: Outcome)
    requires Enabled(s, Step(h, freshId, o)) && (s.handlers[h].ApproveStart? || s.handlers[h].RejectStart?)
    ensures var k, next := s.handlers[h], Apply(s, Step(h, freshId, o)).handlers[h];
            if k.rid == "" || s.config.approvals.None? then next == Finished(404)
            else if k.ApproveStart? && !s.config.tokens then next == Finished(403)
            else if k.rid !in s.store || s.store[k.rid].cluster != k.cluster then next == Finished(404)
            else next == if k.ApproveStart? then Granting(k.rid, k.who) else Refusing(k.rid, k.who)
  {
    hide Noted;
  }

  /** An approval is answered by the state of the request alone: 404 when there
      is none, 409 when it is decided, over, or the caller's own; otherwise the
      request is the caller's to run. */
  lemma ApprovalIsDecided(s: System, h: Hid, freshId: Id, o: Outcome)
    requires Enabled(s, Step(h, freshId, o)) && s.handlers[h].Granting?
    ensures var k, t := s.handlers[h], Apply(s, Step(h, freshId, o));
            if k.rid !in s.store then t.handlers[h] == Finished(404) && t.store == s.store
            else
              var r := s.store[k.rid];
              if r.phase == Pending && s.now < r.expiresAt && k.who != r.requester then
                var granted := r.(phase := Approved, approver := k.who, updatedAt := s.now);
                t.handlers[h] == Executing(k.rid, granted) && t.store == s.store[k.rid := granted]
              else t.handlers[h] == Finished(409)
  {
    hide Noted;
  }

  /** So is a rejection, but for who asks. */
  lemma RejectionIsDecided(s: System, h: Hid, freshId: Id, o: Outcome)
    requires Enabled(s, Step(h, freshId, o)) && s.handlers[h].Refusing?
    ensures var k, t := s.handlers[h], Apply(s, Step(h, freshId, o));
            if k.rid !in s.store then t.handlers[h] == Finished(404) && t.store == s.store
            else
              var r := s.store[k.rid];
              if r.phase == Pending && s.now < r.expiresAt then
                && t.handlers[h] == Finished(200)
                && t.store == s.store[k.rid := r.(phase := Rejected, reason := "rejected by " + k.who, updatedAt := s.now)]
              else t.handlers[h] == Finished(409)
  {
    hide Noted;
  }

  /** A call made without approval is answered by what it came to. */
  lemma InlineIsAnswered(s: System, h: Hid, freshId: Id, o: Outcome)
    requires Enabled(s, Step(h, freshId, o)) && s.handlers[h].Inline?
    ensures var status := Apply(s, Step(h, freshId, o)).handlers[h].status;
            match o
            case Done(_) => status == if s.handlers[h].deed.m.DoDrain? then 202 else 200
            case Broke(Missing) => status == 404
            case Broke(Bad(_)) => status == 400
            case Broke(Unsupported(_)) => status == 501
            case Broke(Upstream(_)) => status == 502
  {
    hide Noted;
  }
}
